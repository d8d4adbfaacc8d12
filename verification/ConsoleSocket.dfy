/**
 The console's session and its socket together, as `ws.ts` joins them: the
 socket dials with the session's token, and refreshes through the session's
 single flight, where `refreshSession` answers whether a session was got.
 */
module ConsoleSocket {
  import opened Wrappers
  import Session
  import SessionTheorems
  import Socket
  import SocketTheorems

  /** `pending` are the refreshes the socket waits on. */
  datatype Both = Both(session: Session.View, socket: Socket.View, pending: seq<nat>)

  datatype Event =
    | OfSession(session: Session.Event)
    | OfSocket(socket: Socket.Event)
    | Resolves(k: nat)

  predicate IsFresh(b: Both) {
    Session.IsFresh(b.session) && b.socket == Socket.FRESH && b.pending == []
  }

  predicate OutcomeReady(b: Both, k: nat) {
    k < |b.pending| && b.pending[k] < |b.session.flights| && b.session.flights[b.pending[k]].phase.Over?
  }

  predicate Enabled(b: Both, e: Event) {
    match e
    case OfSession(se) => Session.Enabled(b.session, se)
    case OfSocket(ke) =>
      && Socket.Enabled(b.socket, ke) && !ke.RefreshDone?
      && (ke.TimerFires? ==> (ke.token.Some? <==> b.session.current.Some?))
    case Resolves(k) => OutcomeReady(b, k) && b.socket.refreshes > 0
  }

  /** `refreshSession`: whether a fresh token is there. Silence and a refusal are one answer. */
  function RefreshSession(outcome: Session.Outcome): bool {
    outcome.Got?
  }

  function Next(b: Both, e: Event): Both
    requires Enabled(b, e)
  {
    match e
    case OfSession(se) => b.(session := Session.Next(b.session, se))
    case OfSocket(ke) =>
      var socket := Socket.Next(b.socket, ke);
      if socket.refreshes > b.socket.refreshes then
        var session := Session.RefreshCalled(b.session);
        Both(session, socket, b.pending + (if session.refreshing.Some? then [session.refreshing.value] else []))
      else b.(socket := socket)
    case Resolves(k) =>
      var outcome := b.session.flights[b.pending[k]].phase.outcome;
      Both(b.session, Socket.RefreshResolved(b.socket, RefreshSession(outcome)), b.pending[..k] + b.pending[k + 1..])
  }

  ghost predicate StepAt(states: seq<Both>, events: seq<Event>, i: nat)
    requires |states| == |events| + 1 && i < |events|
  {
    Enabled(states[i], events[i]) && states[i + 1] == Next(states[i], events[i])
  }

  ghost predicate IsRun(states: seq<Both>, events: seq<Event>) {
    && |states| == |events| + 1 && IsFresh(states[0])
    && forall i :: 0 <= i < |events| ==> StepAt(states, events, i)
  }

  /** Both parts in order; and the socket waits on as many refreshes as it has asked for. */
  ghost predicate Inv(b: Both) {
    && SessionTheorems.Inv(b.session) && SocketTheorems.Inv(b.socket)
    && |b.pending| == b.socket.refreshes
    && forall k :: 0 <= k < |b.pending| ==> b.pending[k] < |b.session.flights|
  }

  lemma FlightsOnlyGrow(v: Session.View, e: Session.Event)
    requires Session.Enabled(v, e)
    ensures |v.flights| <= |Session.Next(v, e).flights|
  {}

  lemma RefreshesByOne(v: Socket.View, e: Socket.Event)
    requires Socket.Enabled(v, e) && !e.RefreshDone?
    ensures Socket.Next(v, e).refreshes == v.refreshes || Socket.Next(v, e).refreshes == v.refreshes + 1
  {}

  lemma StepKeeps(b: Both, e: Event)
    requires Inv(b) && Enabled(b, e)
    ensures Inv(Next(b, e))
  {
    match e
    case OfSession(se) =>
      SessionTheorems.StepKeeps(b.session, se);
      FlightsOnlyGrow(b.session, se);
    case OfSocket(ke) =>
      SocketTheorems.StepKeeps(b.socket, ke);
      RefreshesByOne(b.socket, ke);
      SessionTheorems.RefreshKeeps(b.session);
      FlightsOnlyGrow(b.session, Session.Wake);
    case Resolves(k) =>
      var refreshed := RefreshSession(b.session.flights[b.pending[k]].phase.outcome);
      SocketTheorems.StepKeeps(b.socket, Socket.RefreshDone(refreshed));
      ResolvedCount(b.socket, refreshed);
  }

  lemma ResolvedCount(v: Socket.View, refreshed: bool)
    requires v.refreshes > 0
    ensures Socket.RefreshResolved(v, refreshed).refreshes == v.refreshes - 1
  {}

  lemma {:induction false} InvOnRun(states: seq<Both>, events: seq<Event>, i: nat)
    requires IsRun(states, events) && i < |states|
    ensures Inv(states[i])
  {
    if i > 0 {
      InvOnRun(states, events, i - 1);
      assert StepAt(states, events, i - 1);
      StepKeeps(states[i - 1], events[i - 1]);
    }
  }

  /**
   The `j`-th event concludes refresh `f` without a session: the gateway refused
   it, and no session that arrived meanwhile was held; or it answered with one
   that could not be read, or with an error, or not at all.
   */
  ghost predicate GotNothing(states: seq<Both>, events: seq<Event>, j: nat, f: nat)
    requires |states| == |events| + 1 && j < |events|
  {
    var v := states[j].session;
    && events[j].OfSession? && events[j].session.Conclude? && events[j].session.f == f && f < |v.flights|
    && match v.flights[f].answered
       case Some(Rotated(_)) => !events[j].session.readable
       case Some(Refusal) => v.current.None? || v.nextSession == v.flights[f].born
       case _ => true
  }

  predicate Concludes(e: Event, f: nat) {
    e.OfSession? && e.session.Conclude? && e.session.f == f
  }

  lemma SessionFlightStep(v: Session.View, e: Session.Event, f: nat)
    requires Session.Enabled(v, e) && f < |Session.Next(v, e).flights|
    ensures Session.Next(v, e).flights[f].phase.Over? && !(e.Conclude? && e.f == f) ==>
      f < |v.flights| && Session.Next(v, e).flights[f] == v.flights[f]
    ensures f < |v.flights| && v.flights[f].phase.Over? ==> Session.Next(v, e).flights[f] == v.flights[f]
  {
    if Session.Next(v, e).flights[f].phase.Over? { SessionTheorems.OverByConclusion(v, e, f); }
    if f < |v.flights| && v.flights[f].phase.Over? { SessionTheorems.OverStep(v, e, f); }
  }

  /** A refresh comes to be over only by its conclusion, and then stays as it is. */
  lemma FlightStep(b: Both, e: Event, f: nat)
    requires Enabled(b, e) && f < |Next(b, e).session.flights|
    ensures Next(b, e).session.flights[f].phase.Over? && !Concludes(e, f) ==>
      f < |b.session.flights| && Next(b, e).session.flights[f] == b.session.flights[f]
    ensures f < |b.session.flights| && b.session.flights[f].phase.Over? ==>
      Next(b, e).session.flights[f] == b.session.flights[f]
  {
    match e
    case OfSession(se) => SessionFlightStep(b.session, se, f);
    case OfSocket(_) => if Next(b, e).session != b.session { SessionFlightStep(b.session, Session.Wake, f); }
    case Resolves(_) =>
  }

  lemma ConcludedOutcome(states: seq<Both>, events: seq<Event>, j: nat, f: nat)
    requires IsRun(states, events) && j < |events| && Inv(states[j]) && Concludes(events[j], f)
    ensures f < |states[j].session.flights| && !states[j].session.flights[f].phase.Over?
    ensures f < |states[j + 1].session.flights| && states[j + 1].session.flights[f].phase.Over?
    ensures states[j + 1].session.flights[f].phase.outcome.Got? <==> !GotNothing(states, events, j, f)
  {
    assert StepAt(states, events, j);
    var v, e := states[j].session, events[j].session;
    assert SessionTheorems.FlightOk(v.flights[f]);
    if v.flights[f].answered == Some(Session.Refusal) {
      SessionTheorems.RefusalDefersToAnArrival(v, f, e.readable);
    }
  }

  /** A refresh that is over got a session exactly when it was not concluded with nothing; one that is not, was not. */
  ghost predicate OutcomeAt(states: seq<Both>, events: seq<Event>, i: nat, f: nat)
    requires |states| == |events| + 1 && i < |states|
  {
    var flights := states[i].session.flights;
    && (forall j :: 0 <= j < i && GotNothing(states, events, j, f) ==> f < |flights| && flights[f].phase.Over?)
    && (f < |flights| && flights[f].phase.Over? ==>
          (flights[f].phase.outcome.Got? <==> forall j :: 0 <= j < i ==> !GotNothing(states, events, j, f)))
  }

  lemma OutcomeOtherwise(states: seq<Both>, events: seq<Event>, i: nat, f: nat)
    requires IsRun(states, events) && i < |events| && OutcomeAt(states, events, i, f) && !Concludes(events[i], f)
    requires |states[i].session.flights| <= |states[i + 1].session.flights|
    ensures OutcomeAt(states, events, i + 1, f)
  {
    assert StepAt(states, events, i);
    assert !GotNothing(states, events, i, f);
    if f < |states[i + 1].session.flights| { FlightStep(states[i], events[i], f); }
  }

  lemma OutcomeConcluded(states: seq<Both>, events: seq<Event>, i: nat, f: nat)
    requires IsRun(states, events) && i < |events| && OutcomeAt(states, events, i, f) && Concludes(events[i], f)
    requires Inv(states[i])
    ensures OutcomeAt(states, events, i + 1, f)
  {
    ConcludedOutcome(states, events, i, f);
  }

  lemma {:induction false} OutcomeOnRun(states: seq<Both>, events: seq<Event>, i: nat, f: nat)
    requires IsRun(states, events) && i < |states|
    ensures OutcomeAt(states, events, i, f)
  {
    if i > 0 {
      OutcomeOnRun(states, events, i - 1, f);
      InvOnRun(states, events, i - 1);
      if Concludes(events[i - 1], f) {
        OutcomeConcluded(states, events, i - 1, f);
      } else {
        assert StepAt(states, events, i - 1);
        FlightsStay(states[i - 1], events[i - 1]);
        OutcomeOtherwise(states, events, i - 1, f);
      }
    }
  }

  lemma FlightsStay(b: Both, e: Event)
    requires Inv(b) && Enabled(b, e)
    ensures |b.session.flights| <= |Next(b, e).session.flights|
  {
    match e
    case OfSession(se) => FlightsOnlyGrow(b.session, se);
    case OfSocket(_) => FlightsOnlyGrow(b.session, Session.Wake);
    case Resolves(_) =>
  }

  /**
   A refresh that resolves stops the socket, and reports the session dead,
   exactly when the gateway's answer gave no session: a refusal, an error and
   silence alike. The session itself it leaves as it is.
   */
  lemma SocketEndsExactly(states: seq<Both>, events: seq<Event>, i: nat)
    requires IsRun(states, events) && i < |events| && events[i].Resolves? && !states[i].socket.state.Stopped?
    ensures events[i].k < |states[i].pending|
    ensures
      var f, socket' := states[i].pending[events[i].k], states[i + 1].socket;
      && (socket'.state.Stopped? <==> exists j :: 0 <= j < i && GotNothing(states, events, j, f))
      && (socket'.expired > states[i].socket.expired <==> exists j :: 0 <= j < i && GotNothing(states, events, j, f))
      && states[i + 1].session == states[i].session
  {
    InvOnRun(states, events, i);
    assert StepAt(states, events, i);
    OutcomeOnRun(states, events, i, states[i].pending[events[i].k]);
  }

  // A run in which the gateway does not answer, and the socket reports a session dead that is held.

  const SILENT_EVENTS := [
    OfSession(Session.SessionArrives), OfSocket(Socket.Start), OfSocket(Socket.TimerFires(0, Some("t"))),
    OfSocket(Socket.LineOpens(0)), OfSocket(Socket.LineCloses(0, 1008, 0.0)),
    OfSession(Session.Hush(0)), OfSession(Session.Land(0)), OfSession(Session.Conclude(0, true)), Resolves(0)]

  function SilentSession(i: nat): Session.View {
    var blank := Session.View(None, None, map[], [], [], 0, 0, None, None, 0, {});
    var held := blank.(current := Some(0), nextSession := 1);
    var silence := Session.Silence;
    var flight := Session.Flight(Some(0), None, Session.InAir, 1, None);
    var answered := flight.(answered := Some(silence));
    if i == 0 then blank
    else if i <= 4 then held
    else if i == 5 then held.(refreshing := Some(0), flights := [flight])
    else if i == 6 then held.(refreshing := Some(0), flights := [answered.(phase := Session.Served(silence))])
    else if i == 7 then held.(refreshing := Some(0), flights := [answered.(phase := Session.Landed(silence))])
    else held.(flights := [answered.(phase := Session.Over(Session.NoAnswer))])
  }

  function SilentSocket(i: nat): Socket.View {
    var idle := Socket.FRESH;
    var line := Socket.Line(Socket.Up, "t", [Socket.Authenticate("t")], false);
    var dialled := idle.(state := Socket.Connecting, socket := Some(0), nextTimer := 1,
                           lines := [line.(link := Socket.Dialing, sent := [])]);
    var closed := dialled.(socket := None, authFailures := 1, refreshes := 1, lines := [line.(link := Socket.Closed)]);
    if i <= 1 then idle
    else if i == 2 then idle.(timer := Some(0), timers := map[0 := 10], nextTimer := 1)
    else if i == 3 then dialled
    else if i == 4 then dialled.(lines := [line])
    else if i <= 8 then closed
    else closed.(state := Socket.Stopped, authFailures := 0, refreshes := 0, expired := 1)
  }

  function Silent(i: nat): Both {
    Both(SilentSession(i), SilentSocket(i), if 5 <= i <= 8 then [0] else [])
  }

  ghost predicate SilentGoes(i: nat)
    requires i < |SILENT_EVENTS|
  {
    Enabled(Silent(i), SILENT_EVENTS[i]) && Silent(i + 1) == Next(Silent(i), SILENT_EVENTS[i])
  }

  lemma SilentToTheClose(i: nat)
    requires i < 5
    ensures SilentGoes(i)
  {
    var hello := [Socket.Authenticate("t")];
    assert [] + (hello + Socket.Joins([])) == hello;
  }

  lemma SilentFromTheClose(i: nat)
    requires 5 <= i < |SILENT_EVENTS|
    ensures SilentGoes(i)
  {
    var one: seq<nat> := [0];
    assert one[..0] + one[0 + 1..] == [];
  }

  /** Silence is a refusal to the socket: it can report dead a session that is held, and that nobody refused. */
  lemma SilenceEndsTheSocket()
    ensures exists states: seq<Both>, events: seq<Event> ::
      && IsRun(states, events) && |events| == 9 && events[8].Resolves?
      && states[9].session.current.Some? && states[9].socket.state.Stopped? && states[9].socket.expired == 1
      && forall f :: 0 <= f < |states[9].session.flights| ==>
           states[9].session.flights[f].answered != Some(Session.Refusal)
  {
    var states := seq(10, i requires 0 <= i < 10 => Silent(i));
    forall i | 0 <= i < |SILENT_EVENTS| ensures StepAt(states, SILENT_EVENTS, i) {
      assert states[i] == Silent(i) && states[i + 1] == Silent(i + 1);
      if i < 5 { SilentToTheClose(i); } else { SilentFromTheClose(i); }
      assert SilentGoes(i);
    }
    assert states[0] == Silent(0) && states[9] == Silent(9);
    assert IsRun(states, SILENT_EVENTS);
  }
}
