/**
 The reconnecting socket: the value of a client and of the browser around it,
 and what each call and each event makes of them.

 The browser's part is what a test fake supplies: the connections made so far,
 what was sent on each, and the timers outstanding. Fields marked "history"
 decide nothing.
 */
module Socket {
  import opened Wrappers

  datatype State = Idle | Connecting | Open | Reconnecting | Stopped

  /** The ready state of one connection. */
  datatype Link = Dialing | Up | Closing | Closed

  datatype Outgoing = Authenticate(token: string) | Subscribe(topic: string)

  datatype Incoming = Authenticated | Other | Garbage

  /**
   One connection: the token it was dialled for, what was sent on it, and (history) whether the server
   acknowledged it.
   */
  datatype Line = Line(link: Link, token: string, sent: seq<Outgoing>, acked: bool)

  datatype View = View(
    state: State, socket: Option<nat>, timer: Option<nat>, attempt: nat, authFailures: nat, topics: seq<string>,
    lines: seq<Line>,        // every connection ever made
    timers: map<nat, nat>,   // the timers outstanding, with their delays
    nextTimer: nat,
    refreshes: nat,          // how many refreshes have not resolved
    expired: nat)            // how often the session was reported dead

  const FRESH := View(Idle, None, None, 0, 0, [], [], map[], 0, 0, 0)

  const CLOSE_POLICY_VIOLATION := 1008
  const BACKOFF_BASE_MS := 1000
  const BACKOFF_CAP_MS := 30000
  const AUTH_RETRY_DELAY_MS := 250
  const MAX_AUTH_FAILURES := 3
  const CONNECT_DELAY_MS := 10

  // ------------------------------------------------------------- the browser

  function HungUp(line: Line): Line {
    if line.link.Dialing? || line.link.Up? then line.(link := Closing) else line
  }

  function WithLine(v: View, sid: nat, line: Line): View
    requires sid < |v.lines|
  {
    v.(lines := v.lines[sid := line])
  }

  function TimerSet(v: View, delay: nat): View {
    v.(timer := Some(v.nextTimer), timers := v.timers[v.nextTimer := delay], nextTimer := v.nextTimer + 1)
  }

  function TimerCancelled(v: View): View {
    if v.timer.None? then v else v.(timer := None, timers := v.timers - {v.timer.value})
  }

  function Joins(topics: seq<string>): seq<Outgoing> {
    seq(|topics|, i requires 0 <= i < |topics| => Subscribe(topics[i]))
  }

  // --------------------------------------------------------------- the client

  function Pow2(n: nat): (r: nat)
    ensures r >= 1
  {
    if n == 0 then 1 else 2 * Pow2(n - 1)
  }

  /** The top of the backoff curve after `attempt` drops. */
  function Exp(attempt: nat): nat {
    if BACKOFF_BASE_MS * Pow2(attempt) <= BACKOFF_CAP_MS then BACKOFF_BASE_MS * Pow2(attempt) else BACKOFF_CAP_MS
  }

  function Jittered(half: real, random: real): real {
    half + random * half
  }

  /** Equal jitter: half of it for certain, and a share of the other half. */
  function Delay(attempt: nat, random: real): int {
    Jittered(Exp(attempt) as real / 2.0, random).Floor
  }

  /** Half of the curve is a whole number of milliseconds. */
  function HalfExp(attempt: nat): (half: nat)
    ensures Exp(attempt) == half + half && half >= 500
  {
    if 500 * Pow2(attempt) <= 15000 then 500 * Pow2(attempt) else 15000
  }

  lemma HalfIsWhole(whole: nat, half: nat)
    requires whole == half + half
    ensures whole as real / 2.0 == half as real
  {}

  lemma ShareIsPart(share: real, whole: real)
    requires 0.0 <= share < 1.0 && whole >= 0.0
    ensures 0.0 <= share * whole <= whole
  {}

  lemma JitterBounds(half: real, random: real)
    requires 0.0 <= random < 1.0 && half >= 0.0
    ensures half <= Jittered(half, random) <= half + half
  {
    ShareIsPart(random, half);
  }

  lemma FloorBounds(half: nat, x: real)
    requires half as real <= x <= half as real + half as real
    ensures half <= x.Floor <= half + half
  {}

  /** Every delay lies between half of the curve and all of it. */
  lemma DelayIsJittered(attempt: nat, random: real)
    requires 0.0 <= random < 1.0
    ensures HalfExp(attempt) <= Delay(attempt, random) <= Exp(attempt) <= BACKOFF_CAP_MS
  {
    var half := HalfExp(attempt);
    HalfIsWhole(Exp(attempt), half);
    JitterBounds(half as real, random);
    FloorBounds(half, Jittered(half as real, random));
  }

  /** The curve starts at a second and doubles with every drop, up to half a minute. */
  lemma CurveDoubles(attempt: nat)
    ensures Exp(0) == 1000
    ensures Exp(attempt + 1) == if 2 * Exp(attempt) <= 30000 then 2 * Exp(attempt) else 30000
  {}

  lemma ShareOf(part: real, whole: real)
    requires 0.0 <= part < whole
    ensures 0.0 <= part / whole < 1.0 && (part / whole) * whole == part
  {}

  /** And every whole number of milliseconds from half of the curve on is a delay that can come. */
  lemma EveryDelayCanCome(attempt: nat, delay: nat)
    requires HalfExp(attempt) <= delay < Exp(attempt)
    ensures exists random: real :: 0.0 <= random < 1.0 && Delay(attempt, random) == delay
  {
    var half := HalfExp(attempt);
    var part, whole := (delay - half) as real, half as real;
    HalfIsWhole(Exp(attempt), half);
    ShareOf(part, whole);
    assert Jittered(whole, part / whole) == delay as real;
    assert Delay(attempt, part / whole) == delay;
  }

  function StartCalled(v: View): View {
    var v1 := if v.state.Stopped? then v.(state := Idle) else v;
    if v1.socket.Some? || v1.timer.Some? then v1 else TimerSet(v1, CONNECT_DELAY_MS)
  }

  function StopCalled(v: View): View {
    var v1 := TimerCancelled(v.(state := Stopped));
    var v2 := v1.(socket := None, attempt := 0, authFailures := 0);
    if v.socket.Some? && v.socket.value < |v.lines|
    then WithLine(v2, v.socket.value, HungUp(v.lines[v.socket.value]))
    else v2
  }

  function Sent(v: View, sid: nat, messages: seq<Outgoing>): View
    requires sid < |v.lines|
  {
    WithLine(v, sid, v.lines[sid].(sent := v.lines[sid].sent + messages))
  }

  function SubscribeCalled(v: View, topic: string): View {
    var v1 := if topic in v.topics then v else v.(topics := v.topics + [topic]);
    var v2 :=
      if v.socket.Some? && v.socket.value < |v.lines| && v.lines[v.socket.value].link.Up?
      then Sent(v1, v.socket.value, [Subscribe(topic)]) else v1;
    StartCalled(v2)
  }

  predicate Usable(token: Option<string>) {
    token.Some? && token.value != ""
  }

  /** `open()`, with the token the session has at that moment. */
  function OpenCalled(v: View, token: Option<string>): View {
    if v.state.Stopped? || v.socket.Some? || v.timer.Some? then v
    else if !Usable(token) then v.(state := Idle)
    else v.(state := Connecting, socket := Some(|v.lines|), lines := v.lines + [Line(Dialing, token.value, [], false)])
  }

  /** A timer goes off: the callback clears the field and opens. */
  function TimerFired(v: View, id: nat, token: Option<string>): View {
    OpenCalled(v.(timer := None, timers := v.timers - {id}), token)
  }

  /** Authenticate first, then join every topic. */
  function Opened(v: View, sid: nat): View
    requires sid < |v.lines|
  {
    Sent(WithLine(v, sid, v.lines[sid].(link := Up)), sid, [Authenticate(v.lines[sid].token)] + Joins(v.topics))
  }

  function MessageHandled(v: View, sid: nat, message: Incoming): View
    requires sid < |v.lines|
  {
    var v1 := if message.Authenticated? then WithLine(v, sid, v.lines[sid].(acked := true)) else v;
    if Some(sid) == v.socket && message.Authenticated? then v1.(state := Open, attempt := 0, authFailures := 0) else v1
  }

  function ReconnectScheduled(v: View, delay: nat): View {
    if v.state.Stopped? || v.timer.Some? || v.socket.Some? then v else TimerSet(v.(state := Reconnecting), delay)
  }

  function Expired(v: View): View {
    StopCalled(v).(expired := v.expired + 1)
  }

  function AuthRejected(v: View): View {
    var v1 := v.(authFailures := v.authFailures + 1);
    if v1.authFailures > MAX_AUTH_FAILURES then Expired(v1) else v1.(refreshes := v1.refreshes + 1)
  }

  function CloseHandled(v: View, sid: nat, code: int, random: real): View
    requires sid < |v.lines| && 0.0 <= random < 1.0
  {
    var v1 := WithLine(v, sid, v.lines[sid].(link := Closed));
    if Some(sid) != v.socket then v1 else
    var v2 := v1.(socket := None);
    if v.state.Stopped? then v2
    else if code == CLOSE_POLICY_VIOLATION then AuthRejected(v2)
    else
      DelayIsJittered(v2.attempt, random);
      ReconnectScheduled(v2.(attempt := v2.attempt + 1), Delay(v2.attempt, random))
  }

  /** The rest of `handleAuthRejection`, once the refresh has answered. */
  function RefreshResolved(v: View, refreshed: bool): View
    requires v.refreshes > 0
  {
    var v1 := v.(refreshes := v.refreshes - 1);
    if v.state.Stopped? then v1
    else if !refreshed then Expired(v1)
    else ReconnectScheduled(v1, AUTH_RETRY_DELAY_MS)
  }

  // ------------------------------------------------------------------ events

  datatype Event =
    | Start
    | Stop
    | Join(topic: string)
    | TimerFires(id: nat, token: Option<string>)
    | LineOpens(sid: nat)
    | Receives(sid: nat, message: Incoming)
    | LineFails(sid: nat)
    | LineFades(sid: nat)
    | LineCloses(sid: nat, code: int, random: real)
    | RefreshDone(refreshed: bool)

  /**
   What a browser may deliver: a timer that is outstanding, an opening of a
   connection still dialling, a message on one that has opened, an error or a
   close of one not yet closed, the answer to a refresh. A connection may begin
   to close at any time without an event (`LineFades`).
   */
  predicate Enabled(v: View, e: Event) {
    match e
    case TimerFires(id, _) => id in v.timers
    case LineOpens(sid) => sid < |v.lines| && v.lines[sid].link.Dialing?
    case Receives(sid, _) => sid < |v.lines| && (v.lines[sid].link.Up? || v.lines[sid].link.Closing?)
    case LineFails(sid) => sid < |v.lines| && !v.lines[sid].link.Closed?
    case LineFades(sid) => sid < |v.lines| && v.lines[sid].link.Up?
    case LineCloses(sid, _, random) => sid < |v.lines| && !v.lines[sid].link.Closed? && 0.0 <= random < 1.0
    case RefreshDone(_) => v.refreshes > 0
    case _ => true
  }

  function Next(v: View, e: Event): View
    requires Enabled(v, e)
  {
    match e
    case Start => StartCalled(v)
    case Stop => StopCalled(v)
    case Join(topic) => SubscribeCalled(v, topic)
    case TimerFires(id, token) => TimerFired(v, id, token)
    case LineOpens(sid) => Opened(v, sid)
    case Receives(sid, message) => MessageHandled(v, sid, message)
    case LineFails(sid) => WithLine(v, sid, HungUp(v.lines[sid]))
    case LineFades(sid) => WithLine(v, sid, HungUp(v.lines[sid]))
    case LineCloses(sid, code, random) => CloseHandled(v, sid, code, random)
    case RefreshDone(refreshed) => RefreshResolved(v, refreshed)
  }
}
