/**
 How a machine enrols with its gateway, and whom it trusts. Hashing and parsing
 are the uninterpreted function `fp`, which reads the fingerprints of the
 certificates in a text, in order: none, if the text is not readable.
 */
module Enrolment {
  import opened Wrappers

  type Pem = string
  type Fingerprints = Pem -> seq<string>

  /** What an authority is recognised by: the fingerprint of its first certificate. */
  function Fingerprint(fp: Fingerprints, authority: Pem): Option<string> {
    if fp(authority) == [] then None else Some(fp(authority)[0])
  }

  /** What a machine serves with, and whom it trusts for that. */
  datatype Signed = Signed(cert: Pem, authority: Pem)

  /** The two files. Each is replaced by a rename, so it is whole at every moment. */
  datatype Files = Files(cert: Option<Pem>, authority: Option<Pem>)

  datatype Proof = Invitation(token: string) | Own(key: string, authority: Pem)

  datatype Reply =
    | NoReply
    | Turned(status: nat)
    | Unreadable
    | Issued(authority: Pem, certificate: Pem)

  // ------------------------------------------------------------------ tokens

  /** Split at the first underscore, if there is one. */
  function SplitOnce(token: string): Option<(string, string)> {
    if token == [] then None
    else if token[0] == '_' then Some(([], token[1..]))
    else match SplitOnce(token[1..])
      case None => None
      case Some(parts) => Some(([token[0]] + parts.0, parts.1))
  }

  function FingerprintIn(token: string): Option<string> {
    match SplitOnce(token)
    case None => None
    case Some(parts) => if parts.0 == [] || parts.1 == [] then None else Some(parts.0)
  }

  lemma {:induction false} SplitIsFirst(token: string)
    ensures SplitOnce(token).None? <==> '_' !in token
    ensures SplitOnce(token).Some? ==>
      var parts := SplitOnce(token).value; token == parts.0 + "_" + parts.1 && '_' !in parts.0
  {
    if token != [] && token[0] != '_' {
      SplitIsFirst(token[1..]);
      assert token == [token[0]] + token[1..];
      if SplitOnce(token[1..]).Some? {
        var parts := SplitOnce(token[1..]).value;
        assert [token[0]] + (parts.0 + "_" + parts.1) == ([token[0]] + parts.0) + "_" + parts.1;
      }
    } else if token != [] {
      assert token == [] + "_" + token[1..];
    }
  }

  lemma {:induction false} SplitOfJoin(head: string, tail: string)
    requires '_' !in head
    ensures SplitOnce(head + "_" + tail) == Some((head, tail))
  {
    if head == [] {
      assert (head + "_" + tail)[1..] == tail;
    } else {
      assert (head + "_" + tail)[1..] == head[1..] + "_" + tail;
      SplitOfJoin(head[1..], tail);
      assert [head[0]] + head[1..] == head;
    }
  }

  /** A token names the authority `f` when it is `f`, an underscore and a secret: and no other way. */
  lemma FingerprintIsNamed(token: string, f: string)
    ensures FingerprintIn(token) == Some(f) <==>
      f != [] && '_' !in f && exists secret :: secret != [] && token == f + "_" + secret
  {
    SplitIsFirst(token);
    if secret :| f != [] && '_' !in f && secret != [] && token == f + "_" + secret {
      SplitOfJoin(f, secret);
    }
  }

  // ------------------------------------------------------------------ proofs

  /** What the request is signed with. */
  function Secret(proof: Proof): string {
    match proof
    case Invitation(token) => token
    case Own(key, _) => key
  }

  /** Who the answer has to come from, worked out before anything is sent. */
  function Expected(fp: Fingerprints, proof: Proof): Option<string> {
    match proof
    case Invitation(token) => FingerprintIn(token)
    case Own(_, authority) => Fingerprint(fp, authority)
  }

  /** Best first: a machine that holds a certificate signs as itself, and falls back on its invitation. */
  function Proofs(key: string, token: Option<string>, signed: Option<Signed>): (ways: seq<Proof>)
    ensures |ways| == (if signed.Some? then 1 else 0) + (if token.Some? then 1 else 0)
    ensures signed.Some? ==> ways[0] == Own(key, signed.value.authority) && Secret(ways[0]) == key
    ensures token.Some? ==> ways[|ways| - 1] == Invitation(token.value) && Secret(ways[|ways| - 1]) == token.value
  {
    (if signed.Some? then [Own(key, signed.value.authority)] else [])
    + (if token.Some? then [Invitation(token.value)] else [])
  }

  predicate Blank(text: string) {
    forall c :: c in text ==> c == ' ' || c == '\t' || c == '\n' || c == '\r'
  }

  predicate Accepts(fp: Fingerprints, expected: string, reply: Reply) {
    reply.Issued? && Fingerprint(fp, reply.authority) == Some(expected) && !Blank(reply.certificate)
  }

  /** The answer to `proof` has to come from `f`: a token says so, or the authority held is known by it. */
  ghost predicate Names(fp: Fingerprints, proof: Proof, f: string) {
    match proof
    case Invitation(token) => f != [] && '_' !in f && exists secret :: secret != [] && token == f + "_" + secret
    case Own(_, authority) => |fp(authority)| > 0 && fp(authority)[0] == f
  }

  /** Not spaces, tabs and line ends alone. */
  ghost predicate SaysSomething(text: string) {
    exists i :: 0 <= i < |text| && text[i] !in {' ', '\t', '\n', '\r'}
  }

  /** The reply comes from the authority `f`, with a certificate that says something. */
  ghost predicate IsAnswerOf(fp: Fingerprints, f: string, reply: Reply) {
    && reply.Issued? && |fp(reply.authority)| > 0 && fp(reply.authority)[0] == f
    && SaysSomething(reply.certificate)
  }

  lemma BlankExactly(text: string)
    ensures Blank(text) <==> !SaysSomething(text)
  {
    if Blank(text) {
      forall i | 0 <= i < |text| ensures text[i] in {' ', '\t', '\n', '\r'} { assert text[i] in text; }
    }
  }

  lemma AcceptsExactly(fp: Fingerprints, expected: string, reply: Reply)
    ensures Accepts(fp, expected, reply) <==> IsAnswerOf(fp, expected, reply)
  {
    if reply.Issued? { BlankExactly(reply.certificate); }
  }

  lemma ExpectedExactly(fp: Fingerprints, proof: Proof, f: string)
    ensures Expected(fp, proof) == Some(f) <==> Names(fp, proof, f)
  {
    if proof.Invitation? { FingerprintIsNamed(proof.token, f); }
  }

  /** What a boot holds: both files, or nothing. */
  function Loaded(files: Files): Option<Signed> {
    if files.cert.Some? && files.authority.Some? then Some(Signed(files.cert.value, files.authority.value)) else None
  }

  /** The files after a store that got through neither, the first or both of its writes. */
  function HalfStored(files: Files, signed: Signed): Files {
    files.(cert := Some(signed.cert))
  }

  function Stored(signed: Signed): Files {
    Files(Some(signed.cert), Some(signed.authority))
  }

  // -------------------------------------------------- the machine, step by step

  /** Where the enrolling task stands; `ways` are the proofs left in this round. */
  datatype Phase =
    | Resting
    | Round(ways: seq<Proof>)
    | Asked(expected: string, ways: seq<Proof>)
    | Keeping(signed: Signed, certWritten: bool, ways: seq<Proof>)

  datatype Process = Process(token: Option<string>, signed: Option<Signed>, phase: Phase)

  datatype Machine = Machine(key: string, files: Files, process: Option<Process>)

  datatype Event =
    | Boot(token: Option<string>)
    | Begin
    | Ask
    | Hear(reply: Reply)
    | CertWrite(ok: bool)
    | AuthorityWrite(ok: bool)
    | Kill

  predicate Enabled(m: Machine, e: Event) {
    match e
    case Boot(_) => m.process.None?
    case Kill => m.process.Some?
    case Begin => m.process.Some? && m.process.value.phase.Resting?
    case Ask => m.process.Some? && m.process.value.phase.Round?
    case Hear(_) => m.process.Some? && m.process.value.phase.Asked?
    case CertWrite(_) => m.process.Some? && m.process.value.phase.Keeping? && !m.process.value.phase.certWritten
    case AuthorityWrite(_) => m.process.Some? && m.process.value.phase.Keeping? && m.process.value.phase.certWritten
  }

  function At(m: Machine, phase: Phase): Machine
    requires m.process.Some?
  {
    m.(process := Some(m.process.value.(phase := phase)))
  }

  /** The next proof: one that names no authority is never sent. */
  function AskedNext(fp: Fingerprints, m: Machine): Machine
    requires Enabled(m, Ask)
  {
    var ways := m.process.value.phase.ways;
    if ways == [] then At(m, Resting) else
    match Expected(fp, ways[0])
    case None => At(m, Round(ways[1..]))
    case Some(expected) => At(m, Asked(expected, ways[1..]))
  }

  function Heard(fp: Fingerprints, m: Machine, reply: Reply): Machine
    requires Enabled(m, Hear(reply))
  {
    var phase := m.process.value.phase;
    if Accepts(fp, phase.expected, reply)
    then At(m, Keeping(Signed(reply.certificate, reply.authority), false, phase.ways))
    else At(m, Round(phase.ways))
  }

  function Next(fp: Fingerprints, m: Machine, e: Event): Machine
    requires Enabled(m, e)
  {
    match e
    case Boot(token) => m.(process := Some(Process(token, Loaded(m.files), Resting)))
    case Kill => m.(process := None)
    case Begin => At(m, Round(Proofs(m.key, m.process.value.token, m.process.value.signed)))
    case Ask => AskedNext(fp, m)
    case Hear(reply) => Heard(fp, m, reply)
    case CertWrite(ok) =>
      var phase := m.process.value.phase;
      if ok then At(m.(files := HalfStored(m.files, phase.signed)), phase.(certWritten := true))
      else At(m, Round(phase.ways))
    case AuthorityWrite(ok) =>
      var phase := m.process.value.phase;
      if ok then
        m.(files := m.files.(authority := Some(phase.signed.authority)),
           process := Some(m.process.value.(signed := Some(phase.signed), phase := Resting)))
      else At(m, Round(phase.ways))
  }

  // -------------------------------------------------------------------- trust

  /** Whom a machine may trust: whoever a configured token names, or whoever it trusted to begin with. */
  ghost predicate Trusted(fp: Fingerprints, tokens: set<string>, first: Option<Pem>, fingerprint: Option<string>) {
    || (exists t :: t in tokens && FingerprintIn(t).Some? && fingerprint == FingerprintIn(t))
    || (first.Some? && fingerprint == Fingerprint(fp, first.value))
  }

  ghost predicate ProofOk(fp: Fingerprints, tokens: set<string>, first: Option<Pem>, proof: Proof) {
    match proof
    case Invitation(token) => token in tokens
    case Own(_, authority) => Trusted(fp, tokens, first, Fingerprint(fp, authority))
  }

  ghost predicate ProofsOk(fp: Fingerprints, tokens: set<string>, first: Option<Pem>, ways: seq<Proof>) {
    forall i :: 0 <= i < |ways| ==> ProofOk(fp, tokens, first, ways[i])
  }

  ghost predicate PhaseOk(fp: Fingerprints, tokens: set<string>, first: Option<Pem>, phase: Phase) {
    match phase
    case Resting => true
    case Round(ways) => ProofsOk(fp, tokens, first, ways)
    case Asked(expected, ways) => ProofsOk(fp, tokens, first, ways) && Trusted(fp, tokens, first, Some(expected))
    case Keeping(signed, _, ways) =>
      ProofsOk(fp, tokens, first, ways) && Trusted(fp, tokens, first, Fingerprint(fp, signed.authority))
  }

  /** Every authority on the disk, held, or about to be, is one that may be trusted. */
  ghost predicate TrustOk(fp: Fingerprints, tokens: set<string>, first: Option<Pem>, m: Machine) {
    && (m.files.authority.Some? ==> Trusted(fp, tokens, first, Fingerprint(fp, m.files.authority.value)))
    && (m.process.Some? ==>
          var p := m.process.value;
          && (p.token.Some? ==> p.token.value in tokens)
          && (p.signed.Some? ==> Trusted(fp, tokens, first, Fingerprint(fp, p.signed.value.authority)))
          && PhaseOk(fp, tokens, first, p.phase))
  }

  function NewToken(e: Event): set<string> {
    if e.Boot? && e.token.Some? then {e.token.value} else {}
  }

  /** Trust once given is not taken back by another token. */
  lemma TrustGrows(fp: Fingerprints, tokens: set<string>, more: set<string>, first: Option<Pem>, m: Machine)
    requires tokens <= more && TrustOk(fp, tokens, first, m)
    ensures TrustOk(fp, more, first, m)
  {}

  lemma AskKeepsTrust(fp: Fingerprints, tokens: set<string>, first: Option<Pem>, m: Machine)
    requires TrustOk(fp, tokens, first, m) && Enabled(m, Ask)
    ensures TrustOk(fp, tokens, first, AskedNext(fp, m))
  {}

  lemma StepKeepsTrust(fp: Fingerprints, tokens: set<string>, first: Option<Pem>, m: Machine, e: Event)
    requires TrustOk(fp, tokens, first, m) && Enabled(m, e)
    ensures TrustOk(fp, tokens + NewToken(e), first, Next(fp, m, e))
  {
    var more := tokens + NewToken(e);
    TrustGrows(fp, tokens, more, first, m);
    if e.Ask? { AskKeepsTrust(fp, more, first, m); }
  }

  ghost predicate StepAt(fp: Fingerprints, machines: seq<Machine>, events: seq<Event>, i: nat)
    requires |machines| == |events| + 1 && i < |events|
  {
    Enabled(machines[i], events[i]) && machines[i + 1] == Next(fp, machines[i], events[i])
  }

  /** A machine from some first moment on, not running, with whatever its disk then held. */
  ghost predicate IsRun(fp: Fingerprints, machines: seq<Machine>, events: seq<Event>) {
    && |machines| == |events| + 1 && machines[0].process.None?
    && forall i :: 0 <= i < |events| ==> StepAt(fp, machines, events, i)
  }

  /** The tokens the machine was configured with before the `i`-th event. */
  function Tokens(events: seq<Event>, i: nat): set<string>
    requires i <= |events|
  {
    if i == 0 then {} else Tokens(events, i - 1) + NewToken(events[i - 1])
  }

  /**
   Trust is inductive: for any replies, failed writes, kills between the two
   writes and restarts with other tokens, the fingerprint of every authority
   held or on the disk was named by a token the machine was configured with, or
   is that of the authority its disk held to begin with.
   */
  lemma {:induction false} TrustIsInductive(fp: Fingerprints, machines: seq<Machine>, events: seq<Event>, i: nat)
    requires IsRun(fp, machines, events) && i < |machines|
    ensures TrustOk(fp, Tokens(events, i), machines[0].files.authority, machines[i])
  {
    if i > 0 {
      TrustIsInductive(fp, machines, events, i - 1);
      assert StepAt(fp, machines, events, i - 1);
      StepKeepsTrust(fp, Tokens(events, i - 1), machines[0].files.authority, machines[i - 1], events[i - 1]);
    }
  }

  ghost predicate InPhase(m: Machine, phase: Phase) {
    m.process.Some? && m.process.value.phase == phase
  }

  /** A boot holds what both files say, or nothing if either is missing; and a round tries every proof there is. */
  lemma BootsExactly(fp: Fingerprints, machines: seq<Machine>, events: seq<Event>, j: nat)
    requires IsRun(fp, machines, events) && j < |events|
    ensures events[j].Boot? ==>
      var files := machines[j].files;
      && InPhase(machines[j + 1], Resting) && machines[j + 1].files == files
      && machines[j + 1].process.value.token == events[j].token
      && machines[j + 1].process.value.signed ==
           (if files.cert.None? || files.authority.None? then None
            else Some(Signed(files.cert.value, files.authority.value)))
    ensures events[j].Begin? ==>
      && machines[j].process.Some? && machines[j + 1].files == machines[j].files
      && var p := machines[j].process.value;
         machines[j + 1].process == Some(p.(phase := Round(Proofs(machines[j].key, p.token, p.signed))))
    ensures events[j].Kill? ==> machines[j + 1] == machines[j].(process := None)
  {
    assert StepAt(fp, machines, events, j);
  }

  /** A proof is sent exactly if it names somebody, who then must answer; otherwise the next one is tried. */
  lemma AsksExactly(fp: Fingerprints, machines: seq<Machine>, events: seq<Event>, j: nat, f: string)
    requires IsRun(fp, machines, events) && j < |events| && events[j].Ask?
    ensures machines[j].process.Some? && machines[j].process.value.phase.Round?
    ensures
      var ways := machines[j].process.value.phase.ways;
      && (ways == [] ==> InPhase(machines[j + 1], Resting))
      && (ways != [] ==> (InPhase(machines[j + 1], Asked(f, ways[1..])) <==> Names(fp, ways[0], f)))
      && (ways != [] && (forall g :: !Names(fp, ways[0], g)) ==> InPhase(machines[j + 1], Round(ways[1..])))
  {
    assert StepAt(fp, machines, events, j);
    var ways := machines[j].process.value.phase.ways;
    if ways != [] {
      ExpectedExactly(fp, ways[0], f);
      if Expected(fp, ways[0]).Some? { ExpectedExactly(fp, ways[0], Expected(fp, ways[0]).value); }
    }
  }

  /** An answer is gone on with exactly if it comes from whom it must, with a certificate. */
  lemma HearsExactly(fp: Fingerprints, machines: seq<Machine>, events: seq<Event>, j: nat)
    requires IsRun(fp, machines, events) && j < |events| && events[j].Hear?
    ensures machines[j].process.Some? && machines[j].process.value.phase.Asked?
    ensures
      var phase, reply := machines[j].process.value.phase, events[j].reply;
      if IsAnswerOf(fp, phase.expected, reply)
      then InPhase(machines[j + 1], Keeping(Signed(reply.certificate, reply.authority), false, phase.ways))
      else InPhase(machines[j + 1], Round(phase.ways))
    ensures machines[j + 1].files == machines[j].files
    ensures machines[j + 1].process.Some? && machines[j + 1].process.value.signed == machines[j].process.value.signed
  {
    assert StepAt(fp, machines, events, j);
    AcceptsExactly(fp, machines[j].process.value.phase.expected, events[j].reply);
  }

  /** Each write changes its own file, and only if it succeeds; what is held changes with the second. */
  lemma WritesExactly(fp: Fingerprints, machines: seq<Machine>, events: seq<Event>, j: nat)
    requires IsRun(fp, machines, events) && j < |events| && (events[j].CertWrite? || events[j].AuthorityWrite?)
    ensures IsKeeping(machines[j]) && machines[j + 1].process.Some?
    ensures
      var signed, before, after := machines[j].process.value.phase.signed, machines[j].files, machines[j + 1].files;
      && after.cert == (if events[j] == CertWrite(true) then Some(signed.cert) else before.cert)
      && after.authority == (if events[j] == AuthorityWrite(true) then Some(signed.authority) else before.authority)
      && machines[j + 1].process.value.signed ==
           (if events[j] == AuthorityWrite(true) then Some(signed) else machines[j].process.value.signed)
    ensures
      var phase := machines[j].process.value.phase;
      InPhase(machines[j + 1], if events[j] == CertWrite(true) then phase.(certWritten := true)
                               else if events[j] == AuthorityWrite(true) then Resting else Round(phase.ways))
  {
    assert StepAt(fp, machines, events, j);
  }

  /** A reply the machine hears now is not the one it must be. */
  predicate Refuses(fp: Fingerprints, m: Machine, e: Event) {
    e.Hear? && Enabled(m, e) ==> !Accepts(fp, m.process.value.phase.expected, e.reply)
  }

  predicate IsKeeping(m: Machine) {
    m.process.Some? && m.process.value.phase.Keeping?
  }

  lemma RefusedStep(fp: Fingerprints, m: Machine, e: Event)
    requires Enabled(m, e) && Refuses(fp, m, e) && !IsKeeping(m)
    ensures Next(fp, m, e).files == m.files && !IsKeeping(Next(fp, m, e))
    ensures Next(fp, m, e).process.Some? && !e.Boot? ==> Next(fp, m, e).process.value.signed == m.process.value.signed
  {}

  /**
   As long as every reply is refused, nothing changes: not the files, through
   any rounds, kills and restarts; and what is held is what was held, or what a
   boot read of those files.
   */
  lemma {:induction false} RefusalsChangeNothing(fp: Fingerprints, machines: seq<Machine>, events: seq<Event>,
                                                 i: nat, j: nat)
    requires IsRun(fp, machines, events) && i <= j < |machines| && !IsKeeping(machines[i])
    requires forall k :: i <= k < j ==> Refuses(fp, machines[k], events[k])
    ensures machines[j].files == machines[i].files && !IsKeeping(machines[j])
    ensures machines[j].process.Some? ==>
      || machines[j].process.value.signed == Loaded(machines[i].files)
      || (machines[i].process.Some? && machines[j].process.value.signed == machines[i].process.value.signed)
    decreases j
  {
    if i < j {
      RefusalsChangeNothing(fp, machines, events, i, j - 1);
      assert StepAt(fp, machines, events, j - 1);
      RefusedStep(fp, machines[j - 1], events[j - 1]);
    }
  }

  /** A machine that was never configured and never enrolled trusts nobody, whatever it hears. */
  lemma NobodyWithoutAToken(fp: Fingerprints, machines: seq<Machine>, events: seq<Event>, i: nat)
    requires IsRun(fp, machines, events) && i < |machines|
    requires machines[0].files.authority.None? && forall t :: t in Tokens(events, i) ==> FingerprintIn(t).None?
    ensures machines[i].files.authority.None?
    ensures machines[i].process.Some? ==> machines[i].process.value.signed.None?
  {
    TrustIsInductive(fp, machines, events, i);
  }

  // --------------------------------------------------------------- the roots

  /** Everyone `authority` makes a root may be trusted. */
  ghost predicate Sound(fp: Fingerprints, tokens: set<string>, first: Option<Pem>, authority: Pem) {
    forall f :: f in fp(authority) ==> Trusted(fp, tokens, first, Some(f)) || (first.Some? && f in fp(first.value))
  }

  /** Everyone a machine takes callers from, now or after a boot, may be trusted. */
  ghost predicate RootsOk(fp: Fingerprints, tokens: set<string>, first: Option<Pem>, m: Machine) {
    && (m.files.authority.Some? ==> Sound(fp, tokens, first, m.files.authority.value))
    && (m.process.Some? && m.process.value.signed.Some? ==>
          Sound(fp, tokens, first, m.process.value.signed.value.authority))
  }

  /** If the `j`-th event stores an authority, each of its certificates after the first may be trusted. */
  ghost predicate FurtherOk(fp: Fingerprints, machines: seq<Machine>, events: seq<Event>, j: nat)
    requires IsRun(fp, machines, events) && j < |events|
  {
    assert StepAt(fp, machines, events, j);
    events[j] == AuthorityWrite(true) ==>
      var stored, first := machines[j].process.value.phase.signed.authority, machines[0].files.authority;
      forall k :: 1 <= k < |fp(stored)| ==>
        Trusted(fp, Tokens(events, j), first, Some(fp(stored)[k])) || (first.Some? && fp(stored)[k] in fp(first.value))
  }

  /** Every root after `k` events may be trusted. */
  ghost predicate RootsAt(fp: Fingerprints, machines: seq<Machine>, events: seq<Event>, k: nat)
    requires IsRun(fp, machines, events) && k < |machines|
  {
    RootsOk(fp, Tokens(events, k), machines[0].files.authority, machines[k])
  }

  lemma RootsStep(fp: Fingerprints, machines: seq<Machine>, events: seq<Event>, j: nat)
    requires IsRun(fp, machines, events) && j < |events|
    requires RootsAt(fp, machines, events, j)
    ensures RootsAt(fp, machines, events, j + 1) <==> FurtherOk(fp, machines, events, j)
  {
    assert StepAt(fp, machines, events, j);
    TrustIsInductive(fp, machines, events, j);
    if events[j] == AuthorityWrite(true) {
      var stored := machines[j].process.value.phase.signed.authority;
      assert forall f :: f in fp(stored) <==> exists k :: 0 <= k < |fp(stored)| && fp(stored)[k] == f;
    }
  }

  /**
   An authority is recognised by its first certificate, and every certificate
   of its text becomes a root. So all roots stay trusted, through any run, if
   and only if no answer that was kept carried a further certificate that is
   not.
   */
  lemma {:induction false} RootsExactly(fp: Fingerprints, machines: seq<Machine>, events: seq<Event>, i: nat)
    requires IsRun(fp, machines, events) && i < |machines|
    ensures (forall k :: 0 <= k <= i ==> RootsAt(fp, machines, events, k)) <==>
      (forall j :: 0 <= j < i ==> FurtherOk(fp, machines, events, j))
  {
    if i > 0 {
      RootsExactly(fp, machines, events, i - 1);
      if RootsAt(fp, machines, events, i - 1) { RootsStep(fp, machines, events, i - 1); }
    }
  }

  /** In particular while every authority that is kept holds one certificate. */
  lemma SingleCertificatesAreTrusted(fp: Fingerprints, machines: seq<Machine>, events: seq<Event>, i: nat)
    requires IsRun(fp, machines, events) && i < |machines|
    requires forall j :: 0 <= j < i && IsKeeping(machines[j]) ==>
      |fp(machines[j].process.value.phase.signed.authority)| <= 1
    ensures RootsAt(fp, machines, events, i)
  {
    forall j | 0 <= j < i ensures FurtherOk(fp, machines, events, j) {
      assert StepAt(fp, machines, events, j);
    }
    RootsExactly(fp, machines, events, i);
  }

  /** A sample of the functions `fp` may be: every text holds a second certificate. */
  function Sample(pem: Pem): seq<string> {
    ["f" + pem, "g" + pem]
  }

  lemma SampleToken()
    ensures FingerprintIn("fd_s") == Some("fd")
    ensures Fingerprint(Sample, "d") == Some("fd") && Fingerprint(Sample, "b") == Some("fb")
  {
    assert "f" + "d" == "fd" && "f" + "b" == "fb";
    assert "fd_s" == "fd" + "_" + "s";
    FingerprintIsNamed("fd_s", "fd");
  }

  const ENROLLED_EVENTS := [Boot(Some("fd_s")), Begin, Ask, Hear(Issued("d", "c")),
                            CertWrite(true), AuthorityWrite(true)]

  /** A machine that enrols with the gateway its token names. */
  function Enrolling(i: nat): Machine {
    var off := Machine("k", Files(None, None), None);
    var on := off.(process := Some(Process(Some("fd_s"), None, Resting)));
    var half := on.(files := Files(Some("c"), None));
    if i == 0 then off
    else if i == 1 then on
    else if i == 2 then At(on, Round([Invitation("fd_s")]))
    else if i == 3 then At(on, Asked("fd", []))
    else if i == 4 then At(on, Keeping(Signed("c", "d"), false, []))
    else if i == 5 then At(half, Keeping(Signed("c", "d"), true, []))
    else Machine("k", Stored(Signed("c", "d")), Some(Process(Some("fd_s"), Some(Signed("c", "d")), Resting)))
  }

  lemma EnrollingStep(i: nat)
    requires i < |ENROLLED_EVENTS|
    ensures Enabled(Enrolling(i), ENROLLED_EVENTS[i])
    ensures Enrolling(i + 1) == Next(Sample, Enrolling(i), ENROLLED_EVENTS[i])
  {
    SampleToken();
    assert 'c' in "c";
    var one := [Invitation("fd_s")];
    assert [] + one == one && one[1..] == [];
  }

  /** And such an answer is kept: the machine comes to take callers from someone no token names. */
  lemma FurtherRootIsKept()
    ensures exists machines: seq<Machine>, events: seq<Event> ::
      && IsRun(Sample, machines, events) && machines[0].files == Files(None, None)
      && TrustOk(Sample, Tokens(events, |events|), None, machines[|events|])
      && !RootsAt(Sample, machines, events, |events|)
  {
    var machines := seq(7, i requires 0 <= i < 7 => Enrolling(i));
    forall i | 0 <= i < |ENROLLED_EVENTS| ensures StepAt(Sample, machines, ENROLLED_EVENTS, i) {
      assert machines[i] == Enrolling(i) && machines[i + 1] == Enrolling(i + 1);
      EnrollingStep(i);
    }
    assert machines[0] == Enrolling(0) && machines[6] == Enrolling(6);
    assert IsRun(Sample, machines, ENROLLED_EVENTS);
    TrustIsInductive(Sample, machines, ENROLLED_EVENTS, |ENROLLED_EVENTS|);
    EnrolledTokens();
    SampleToken();
    var further := Sample("d")[1];
    assert further[0] != "fd"[0] && !Trusted(Sample, {"fd_s"}, None, Some(further));
    assert !Sound(Sample, {"fd_s"}, None, "d");
  }

  lemma EnrolledTokens()
    ensures Tokens(ENROLLED_EVENTS, |ENROLLED_EVENTS|) == {"fd_s"}
  {
    var e := ENROLLED_EVENTS;
    assert Tokens(e, 1) == {"fd_s"};
    assert Tokens(e, 6) == Tokens(e, 5) == Tokens(e, 4) == Tokens(e, 3) == Tokens(e, 2) == Tokens(e, 1);
  }

  // ------------------------------------------------------- both files or neither

  /** What a boot holds was put there as a pair: by this answer, or as it was before. */
  predicate IsPair(files: Files, signed: Signed, held: Option<Signed>) {
    held.None? || held == Some(signed) || held == Loaded(files)
  }

  /**
   The two files are not stored together. In any run, after the first write the
   second one completes the pair; and a kill or a failure before that leaves the
   new certificate beside the old authority. What the next boot holds is then a
   pair exactly when there was no authority, or it is the one the answer carried,
   or the certificate did not change.
   */
  lemma KilledBetweenTheWrites(fp: Fingerprints, machines: seq<Machine>, events: seq<Event>, i: nat)
    requires IsRun(fp, machines, events) && i < |events|
    requires IsKeeping(machines[i]) && machines[i].process.value.phase.certWritten
    ensures i > 0
    ensures events[i] == AuthorityWrite(true) ==>
      Loaded(machines[i + 1].files) == Some(machines[i].process.value.phase.signed)
    ensures events[i] != AuthorityWrite(true) ==>
      var files, signed := machines[i - 1].files, machines[i].process.value.phase.signed;
      && machines[i + 1].files == HalfStored(files, signed)
      && (IsPair(files, signed, Loaded(machines[i + 1].files)) <==>
            files.authority.None? || files.authority == Some(signed.authority) || files.cert == Some(signed.cert))
  {
    assert StepAt(fp, machines, events, i) && i > 0;
    assert StepAt(fp, machines, events, i - 1);
  }

  const MOVED_EVENTS := [Boot(Some("fd_s")), Begin, Ask, Hear(NoReply),
                         Ask, Hear(Issued("d", "c")), CertWrite(true), Kill]

  /** An enrolled machine that is moved to another gateway by a new token, and killed between the two writes. */
  function Moved(i: nat): Machine {
    var off := Machine("k", Files(Some("a"), Some("b")), None);
    var on := off.(process := Some(Process(Some("fd_s"), Some(Signed("a", "b")), Resting)));
    if i == 0 then off
    else if i == 1 then on
    else if i == 2 then At(on, Round([Own("k", "b"), Invitation("fd_s")]))
    else if i == 3 then At(on, Asked("fb", [Invitation("fd_s")]))
    else if i == 4 then At(on, Round([Invitation("fd_s")]))
    else if i == 5 then At(on, Asked("fd", []))
    else if i == 6 then At(on, Keeping(Signed("c", "d"), false, []))
    else
      var half := on.(files := Files(Some("c"), Some("b")));
      if i == 7 then At(half, Keeping(Signed("c", "d"), true, [])) else half.(process := None)
  }

  lemma MovedStep(i: nat)
    requires i < |MOVED_EVENTS|
    ensures Enabled(Moved(i), MOVED_EVENTS[i]) && Moved(i + 1) == Next(Sample, Moved(i), MOVED_EVENTS[i])
  {
    SampleToken();
    assert 'c' in "c";
    var both := [Own("k", "b"), Invitation("fd_s")];
    assert [Own("k", "b")] + [Invitation("fd_s")] == both;
    assert both[1..] == [Invitation("fd_s")] && both[1..][1..] == [];
  }

  lemma MovedIsMixed()
    ensures Moved(8).files == HalfStored(Moved(0).files, Signed("c", "d"))
    ensures !IsPair(Moved(0).files, Signed("c", "d"), Loaded(Moved(8).files))
  {
    assert "a"[0] != "c"[0] && "b"[0] != "d"[0];
  }

  /** A machine does come to hold a pair that is none. */
  lemma MixedPairIsReached()
    ensures exists machines: seq<Machine>, events: seq<Event>, answer: Signed ::
      && IsRun(Sample, machines, events) && |events| == 8 && events[7].Kill?
      && events[5] == Hear(Issued(answer.authority, answer.cert))
      && machines[8].files == HalfStored(machines[0].files, answer)
      && !IsPair(machines[0].files, answer, Loaded(machines[8].files))
  {
    var machines := seq(9, i requires 0 <= i < 9 => Moved(i));
    forall i | 0 <= i < |MOVED_EVENTS| ensures StepAt(Sample, machines, MOVED_EVENTS, i) {
      assert machines[i] == Moved(i) && machines[i + 1] == Moved(i + 1);
      MovedStep(i);
    }
    assert machines[0] == Moved(0) && machines[8] == Moved(8);
    var answer := Signed("c", "d");
    MovedIsMixed();
    assert IsRun(Sample, machines, MOVED_EVENTS);
  }

  // --------------------------------------------------------- the whole exchange

  /** What a machine keeps: the files, and what it serves with. */
  datatype Held = Held(files: Files, signed: Option<Signed>)

  /** One attempt's world: the reply, and whether each write succeeds. */
  datatype Attempt = Attempt(reply: Reply, certOk: bool, authorityOk: bool)

  function Kept(h: Held, signed: Signed, a: Attempt): Held {
    if !a.certOk then h
    else if !a.authorityOk then h.(files := HalfStored(h.files, signed))
    else Held(Stored(signed), Some(signed))
  }

  /** The certificate an attempt ends with, if any: an expected authority's, kept in both files. */
  function Won(fp: Fingerprints, proof: Proof, a: Attempt): Option<Signed> {
    match Expected(fp, proof)
    case None => None
    case Some(expected) =>
      if Accepts(fp, expected, a.reply) && a.certOk && a.authorityOk
      then Some(Signed(a.reply.certificate, a.reply.authority)) else None
  }

  function Joined(fp: Fingerprints, h: Held, proof: Proof, a: Attempt): Held {
    match Expected(fp, proof)
    case None => h
    case Some(expected) =>
      if Accepts(fp, expected, a.reply) then Kept(h, Signed(a.reply.certificate, a.reply.authority), a) else h
  }

  /** What a round wins: the first of its proofs that is answered as it must be. */
  function FirstWin(fp: Fingerprints, ways: seq<Proof>, tries: seq<Attempt>, k: nat): Option<Signed>
    requires k <= |ways| <= |tries|
    decreases |ways| - k
  {
    if k == |ways| then None
    else if Won(fp, ways[k], tries[k]).Some? then Won(fp, ways[k], tries[k])
    else FirstWin(fp, ways, tries, k + 1)
  }

  /** What round after round of the same proofs wins in the end. */
  function EverWon(fp: Fingerprints, ways: seq<Proof>, rounds: seq<seq<Attempt>>, i: nat): Option<Signed>
    requires i <= |rounds| && forall j :: 0 <= j < |rounds| ==> |rounds[j]| >= |ways|
    decreases |rounds| - i
  {
    if ways == [] || i == |rounds| then None
    else if FirstWin(fp, ways, rounds[i], 0).Some? then FirstWin(fp, ways, rounds[i], 0)
    else EverWon(fp, ways, rounds, i + 1)
  }

  /** The reply comes from whoever `proof` names, with a certificate that says something. */
  ghost predicate Answers(fp: Fingerprints, proof: Proof, reply: Reply) {
    exists f :: Names(fp, proof, f) && IsAnswerOf(fp, f, reply)
  }

  /** The attempt's reply answers `proof`, and both writes succeed. */
  ghost predicate Wins(fp: Fingerprints, proof: Proof, a: Attempt) {
    Answers(fp, proof, a.reply) && a.certOk && a.authorityOk
  }

  lemma WonExactly(fp: Fingerprints, proof: Proof, a: Attempt)
    ensures Won(fp, proof, a).Some? <==> Wins(fp, proof, a)
    ensures Won(fp, proof, a).Some? ==> Won(fp, proof, a) == Some(Signed(a.reply.certificate, a.reply.authority))
  {
    if Expected(fp, proof).Some? {
      ExpectedExactly(fp, proof, Expected(fp, proof).value);
      AcceptsExactly(fp, Expected(fp, proof).value, a.reply);
    }
    if f :| Names(fp, proof, f) && IsAnswerOf(fp, f, a.reply) {
      ExpectedExactly(fp, proof, f);
      AcceptsExactly(fp, f, a.reply);
    }
  }

  lemma JoinedExactly(fp: Fingerprints, h: Held, proof: Proof, a: Attempt)
    ensures
      var after := Joined(fp, h, proof, a);
      && after.files.cert ==
           (if Answers(fp, proof, a.reply) && a.certOk then Some(a.reply.certificate) else h.files.cert)
      && after.files.authority == (if Wins(fp, proof, a) then Some(a.reply.authority) else h.files.authority)
      && after.signed == (if Wins(fp, proof, a) then Some(Signed(a.reply.certificate, a.reply.authority)) else h.signed)
  {
    if Expected(fp, proof).Some? {
      ExpectedExactly(fp, proof, Expected(fp, proof).value);
      AcceptsExactly(fp, Expected(fp, proof).value, a.reply);
    }
    if f :| Names(fp, proof, f) && IsAnswerOf(fp, f, a.reply) {
      ExpectedExactly(fp, proof, f);
      AcceptsExactly(fp, f, a.reply);
    }
  }

  /** The `k`-th proof of round `i` wins, and none before it did. */
  ghost predicate FirstWins(fp: Fingerprints, ways: seq<Proof>, rounds: seq<seq<Attempt>>, i: nat, k: nat)
    requires forall j :: 0 <= j < |rounds| ==> |rounds[j]| >= |ways|
  {
    && i < |rounds| && k < |ways| && Wins(fp, ways[k], rounds[i][k])
    && (forall m :: 0 <= m < k ==> !Wins(fp, ways[m], rounds[i][m]))
    && (forall j, m :: 0 <= j < i && 0 <= m < |ways| ==> !Wins(fp, ways[m], rounds[j][m]))
  }

  /** `r` is the answer to the first proof of the first round that wins; or nothing, if none does. */
  ghost predicate IsFirstWin(fp: Fingerprints, ways: seq<Proof>, rounds: seq<seq<Attempt>>, r: Option<Signed>)
    requires forall j :: 0 <= j < |rounds| ==> |rounds[j]| >= |ways|
  {
    match r
    case None => forall j, m :: 0 <= j < |rounds| && 0 <= m < |ways| ==> !Wins(fp, ways[m], rounds[j][m])
    case Some(signed) => exists j: nat, m: nat ::
      && FirstWins(fp, ways, rounds, j, m)
      && signed == Signed(rounds[j][m].reply.certificate, rounds[j][m].reply.authority)
  }

  lemma {:induction false} FirstWinExactly(fp: Fingerprints, ways: seq<Proof>, tries: seq<Attempt>, k: nat)
    requires k <= |ways| <= |tries|
    ensures FirstWin(fp, ways, tries, k).None? ==> forall m :: k <= m < |ways| ==> !Wins(fp, ways[m], tries[m])
    ensures FirstWin(fp, ways, tries, k).Some? ==> exists m ::
      && k <= m < |ways| && Wins(fp, ways[m], tries[m]) && (forall l :: k <= l < m ==> !Wins(fp, ways[l], tries[l]))
      && FirstWin(fp, ways, tries, k) == Some(Signed(tries[m].reply.certificate, tries[m].reply.authority))
    decreases |ways| - k
  {
    if k < |ways| {
      WonExactly(fp, ways[k], tries[k]);
      FirstWinExactly(fp, ways, tries, k + 1);
    }
  }

  lemma {:induction false} EverWonExactly(fp: Fingerprints, ways: seq<Proof>, rounds: seq<seq<Attempt>>, i: nat)
    requires i <= |rounds| && forall j :: 0 <= j < |rounds| ==> |rounds[j]| >= |ways|
    requires forall j, m :: 0 <= j < i && 0 <= m < |ways| ==> !Wins(fp, ways[m], rounds[j][m])
    ensures IsFirstWin(fp, ways, rounds, EverWon(fp, ways, rounds, i))
    decreases |rounds| - i
  {
    if ways != [] && i < |rounds| {
      FirstWinExactly(fp, ways, rounds[i], 0);
      if FirstWin(fp, ways, rounds[i], 0).Some? {
        var m :| 0 <= m < |ways| && Wins(fp, ways[m], rounds[i][m])
              && (forall l :: 0 <= l < m ==> !Wins(fp, ways[l], rounds[i][l]))
              && FirstWin(fp, ways, rounds[i], 0) ==
                   Some(Signed(rounds[i][m].reply.certificate, rounds[i][m].reply.authority));
        assert FirstWins(fp, ways, rounds, i, m);
      } else {
        EverWonExactly(fp, ways, rounds, i + 1);
      }
    }
  }

  class Directory {
    var files: Files
    ghost var log: seq<Files>

    constructor (files: Files)
      ensures this.files == files && log == []
    {
      this.files, log := files, [];
    }

    method WriteCert(pem: Pem, ok: bool)
      modifies this
      ensures files == if ok then old(files).(cert := Some(pem)) else old(files)
      ensures log == old(log) + [files]
    {
      if ok { files := files.(cert := Some(pem)); }
      log := log + [files];
    }

    method WriteAuthority(pem: Pem, ok: bool)
      modifies this
      ensures files == if ok then old(files).(authority := Some(pem)) else old(files)
      ensures log == old(log) + [files]
    {
      if ok { files := files.(authority := Some(pem)); }
      log := log + [files];
    }
  }

  class Credentials {
    const dir: Directory
    const key: string
    var signed: Option<Signed>

    ghost function Value(): Held
      reads this, dir
    {
      Held(dir.files, signed)
    }

    constructor Load(dir: Directory, key: string)
      ensures this.dir == dir && this.key == key && signed == Loaded(dir.files)
    {
      this.dir, this.key := dir, key;
      signed := if dir.files.cert.Some? && dir.files.authority.Some?
                then Some(Signed(dir.files.cert.value, dir.files.authority.value)) else None;
    }

    /** Keep what the gateway issued; a kill leaves the files as they were, half stored or stored. */
    method Store(s: Signed, a: Attempt) returns (ok: bool)
      modifies this, dir
      ensures Value() == Kept(old(Value()), s, a) && (ok <==> a.certOk && a.authorityOk)
      ensures ok ==> dir.files.cert == Some(s.cert) && dir.files.authority == Some(s.authority) && signed == Some(s)
      ensures old(dir.log) <= dir.log
      ensures forall i :: |old(dir.log)| <= i < |dir.log| ==>
        dir.log[i] in {old(dir.files), HalfStored(old(dir.files), s), Stored(s)}
    {
      dir.WriteCert(s.cert, a.certOk);
      if !a.certOk { return false; }
      dir.WriteAuthority(s.authority, a.authorityOk);
      if !a.authorityOk { return false; }
      signed := Some(s);
      ok := true;
    }

    method JoinOnce(fp: Fingerprints, proof: Proof, a: Attempt) returns (r: Option<Signed>)
      modifies this, dir
      ensures Value() == Joined(fp, old(Value()), proof, a) && r == Won(fp, proof, a)
      ensures r.Some? <==> Wins(fp, proof, a)
      ensures r.Some? ==> r.value == Signed(a.reply.certificate, a.reply.authority)
      ensures dir.files.cert ==
        (if a.certOk && Answers(fp, proof, a.reply) then Some(a.reply.certificate) else old(dir.files.cert))
      ensures dir.files.authority == (if r.Some? then Some(a.reply.authority) else old(dir.files.authority))
      ensures signed == if r.Some? then r else old(signed)
    {
      WonExactly(fp, proof, a);
      JoinedExactly(fp, Value(), proof, a);
      var expected := Expected(fp, proof);
      if expected.None? { return None; }
      if !a.reply.Issued? { return None; }
      var offered := Fingerprint(fp, a.reply.authority);
      if offered != expected { return None; }
      if Blank(a.reply.certificate) { return None; }
      var s := Signed(a.reply.certificate, a.reply.authority);
      var ok := Store(s, a);
      if !ok { return None; }
      r := Some(s);
    }

    /**
     Try every proof, round after round, until one is answered as it must be.
     `rounds` is what the world answers before the process ends: it may never
     answer at all.
     */
    method KeepJoining(fp: Fingerprints, token: Option<string>, rounds: seq<seq<Attempt>>,
                       ghost tokens: set<string>, ghost first: Option<Pem>)
      returns (r: Option<Signed>)
      requires forall i :: 0 <= i < |rounds| ==> |rounds[i]| >= 2
      requires token.Some? ==> token.value in tokens
      requires HeldOk(fp, tokens, first, Value())
      modifies this, dir
      ensures HeldOk(fp, tokens, first, Value())
      ensures r == EverWon(fp, Proofs(key, token, old(signed)), rounds, 0)
      ensures IsFirstWin(fp, Proofs(key, token, old(signed)), rounds, r)
      ensures r.Some? ==> signed == r && dir.files == Stored(r.value) && SaysSomething(r.value.cert)
      ensures r.None? ==> signed == old(signed) && dir.files.authority == old(dir.files.authority)
      ensures old(signed).None? && token.None? ==> r.None? && Value() == old(Value())
    {
      EverWonExactly(fp, Proofs(key, token, signed), rounds, 0);
      if token.None? && signed.None? { return None; }
      for i := 0 to |rounds|
        invariant HeldOk(fp, tokens, first, Value()) && signed == old(signed)
        invariant dir.files.authority == old(dir.files.authority)
        invariant EverWon(fp, Proofs(key, token, signed), rounds, i)
          == EverWon(fp, Proofs(key, token, signed), rounds, 0)
      {
        var ways := Proofs(key, token, signed);
        for k := 0 to |ways|
          invariant HeldOk(fp, tokens, first, Value()) && signed == old(signed)
          invariant dir.files.authority == old(dir.files.authority)
          invariant ProofsOk(fp, tokens, first, ways)
          invariant FirstWin(fp, ways, rounds[i], k) == FirstWin(fp, ways, rounds[i], 0)
        {
          JoinedOk(fp, tokens, first, Value(), ways[k], rounds[i][k]);
          r := JoinOnce(fp, ways[k], rounds[i][k]);
          if r.Some? { return; }
        }
      }
      r := None;
    }
  }

  ghost predicate HeldOk(fp: Fingerprints, tokens: set<string>, first: Option<Pem>, h: Held) {
    && (h.files.authority.Some? ==> Trusted(fp, tokens, first, Fingerprint(fp, h.files.authority.value)))
    && (h.signed.Some? ==> Trusted(fp, tokens, first, Fingerprint(fp, h.signed.value.authority)))
  }

  /**
   An attempt that proves itself by what may be trusted keeps only what may be trusted; and wins only
   what it keeps.
   */
  lemma JoinedOk(fp: Fingerprints, tokens: set<string>, first: Option<Pem>, h: Held, proof: Proof, a: Attempt)
    requires HeldOk(fp, tokens, first, h) && ProofOk(fp, tokens, first, proof)
    ensures HeldOk(fp, tokens, first, Joined(fp, h, proof, a))
    ensures Won(fp, proof, a).Some? ==>
      Joined(fp, h, proof, a) == Held(Stored(Won(fp, proof, a).value), Won(fp, proof, a))
    ensures Won(fp, proof, a).None? ==>
      Joined(fp, h, proof, a).signed == h.signed && Joined(fp, h, proof, a).files.authority == h.files.authority
  {}
}
