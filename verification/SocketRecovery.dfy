/**
 A client that is at work can always get through: from every state of every
 run, a favourable course of events ends in an acknowledged connection.
 */
module SocketRecovery {
  import opened Wrappers
  import opened Socket
  import opened SocketTheorems

  /** The session has a token, refreshes are granted, connections are accepted, and a close is not a rejection. */
  predicate Favourable(e: Event, token: string) {
    match e
    case TimerFires(_, t) => t == Some(token)
    case LineOpens(_) => true
    case Receives(_, message) => message.Authenticated?
    case LineCloses(_, code, _) => code != CLOSE_POLICY_VIOLATION
    case RefreshDone(refreshed) => refreshed
    case _ => false
  }

  ghost predicate Path(v: View, token: string, events: seq<Event>, v': View)
    decreases |events|
  {
    if events == [] then v' == v
    else Enabled(v, events[0]) && Favourable(events[0], token) && Path(Next(v, events[0]), token, events[1..], v')
  }

  /** Open, on a connection that is up and was acknowledged. */
  predicate Working(v: View) {
    && v.state.Open? && v.socket.Some? && v.socket.value < |v.lines|
    && v.lines[v.socket.value].link.Up? && v.lines[v.socket.value].acked
  }

  /** Some favourable course of events gets the client working. */
  ghost predicate CanWork(v: View, token: string) {
    exists events, v' :: Path(v, token, events, v') && Working(v')
  }

  lemma WorksNow(v: View, token: string)
    requires Working(v)
    ensures CanWork(v, token)
  {
    assert Path(v, token, [], v);
  }

  lemma WorksAfter(v: View, token: string, e: Event)
    requires Enabled(v, e) && Favourable(e, token) && CanWork(Next(v, e), token)
    ensures CanWork(v, token)
  {
    var events, v' :| Path(Next(v, e), token, events, v') && Working(v');
    assert ([e] + events)[1..] == events;
    assert Path(v, token, [e] + events, v');
  }

  lemma FromUp(v: View, token: string)
    requires v.socket.Some? && v.socket.value < |v.lines| && v.lines[v.socket.value].link.Up?
    ensures CanWork(v, token)
  {
    var e := Receives(v.socket.value, Authenticated);
    WorksNow(Next(v, e), token);
    WorksAfter(v, token, e);
  }

  lemma FromDialing(v: View, token: string)
    requires v.socket.Some? && v.socket.value < |v.lines| && v.lines[v.socket.value].link.Dialing?
    ensures CanWork(v, token)
  {
    var e := LineOpens(v.socket.value);
    FromUp(Next(v, e), token);
    WorksAfter(v, token, e);
  }

  lemma FromTimer(v: View, token: string)
    requires token != "" && !v.state.Stopped? && v.socket.None? && v.timer.Some? && v.timer.value in v.timers
    ensures CanWork(v, token)
  {
    var e := TimerFires(v.timer.value, Some(token));
    FromDialing(Next(v, e), token);
    WorksAfter(v, token, e);
  }

  lemma FromClosing(v: View, token: string)
    requires Inv(v) && token != "" && v.socket.Some? && v.lines[v.socket.value].link.Closing?
    ensures CanWork(v, token)
  {
    var e := LineCloses(v.socket.value, 1000, 0.0);
    FromTimer(Next(v, e), token);
    WorksAfter(v, token, e);
  }

  lemma FromRefresh(v: View, token: string)
    requires token != "" && !v.state.Stopped? && v.socket.None? && v.timer.None? && v.refreshes > 0
    ensures CanWork(v, token)
  {
    var e := RefreshDone(true);
    FromTimer(Next(v, e), token);
    WorksAfter(v, token, e);
  }

  /** A client with anything under way can get through. */
  lemma FromUnderWay(v: View, token: string)
    requires Inv(v) && token != "" && !v.state.Stopped?
    requires v.socket.Some? || v.timer.Some? || v.refreshes > 0
    ensures CanWork(v, token)
  {
    if v.socket.Some? {
      match v.lines[v.socket.value].link
      case Up => FromUp(v, token);
      case Dialing => FromDialing(v, token);
      case Closing => FromClosing(v, token);
    } else if v.timer.Some? {
      assert v.timer.value in v.timers.Keys;
      FromTimer(v, token);
    } else {
      FromRefresh(v, token);
    }
  }

  /**
   In every state of every run: a client that says it is connecting, open or
   reconnecting can come to work on an acknowledged connection; and from any
   state at all, it can once `start` has been called.
   */
  lemma AlwaysRecoverable(views: seq<View>, events: seq<Event>, i: nat, token: string)
    requires IsRun(views, events) && i < |views| && token != ""
    ensures (views[i].state.Connecting? || views[i].state.Open? || views[i].state.Reconnecting?) ==>
      CanWork(views[i], token)
    ensures CanWork(StartCalled(views[i]), token)
  {
    InvOnRun(views, events, i);
    if views[i].state.Connecting? || views[i].state.Open? || views[i].state.Reconnecting? {
      FromUnderWay(views[i], token);
    }
    StartKeeps(views[i]);
    FromUnderWay(StartCalled(views[i]), token);
  }

  /**
   And exactly those can: without a call, a client can come to work if and only
   if it is not stopped and has a connection, a timer or a refresh under way.
   */
  lemma RecoverableExactly(views: seq<View>, events: seq<Event>, i: nat, token: string)
    requires IsRun(views, events) && i < |views| && token != ""
    ensures
      var v := views[i];
      CanWork(v, token) <==> !v.state.Stopped? && (v.socket.Some? || v.timer.Some? || v.refreshes > 0)
  {
    InvOnRun(views, events, i);
    var v := views[i];
    if !v.state.Stopped? && (v.socket.Some? || v.timer.Some? || v.refreshes > 0) {
      FromUnderWay(v, token);
    } else {
      forall path, v' | Path(v, token, path, v') ensures !Working(v') { AtRestOnPath(v, token, path, v'); }
    }
  }

  /** Stopped, or nothing under way. */
  predicate AtRest(v: View) {
    v.socket.None? && v.timer.None? && v.timers == map[] && (v.state.Stopped? || v.refreshes == 0)
  }

  lemma AtRestStays(v: View, e: Event, token: string)
    requires AtRest(v) && Enabled(v, e) && Favourable(e, token)
    ensures AtRest(Next(v, e))
  {}

  lemma {:induction false} AtRestOnPath(v: View, token: string, events: seq<Event>, v': View)
    requires AtRest(v) && Path(v, token, events, v')
    ensures !Working(v')
    decreases |events|
  {
    if events != [] {
      AtRestStays(v, events[0], token);
      AtRestOnPath(Next(v, events[0]), token, events[1..], v');
    }
  }
}
