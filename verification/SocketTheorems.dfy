/** What the reconnecting socket guarantees, in every state of every run. */
module SocketTheorems {
  import opened Wrappers
  import opened Socket

  // ------------------------------------------------------------ the invariant

  /** No line but the current one is, or can become, usable. */
  ghost predicate OneConnection(v: View) {
    && (v.socket.Some? ==> v.socket.value < |v.lines| && !v.lines[v.socket.value].link.Closed?)
    && (forall sid :: 0 <= sid < |v.lines| && v.socket != Some(sid) ==>
          v.lines[sid].link.Closing? || v.lines[sid].link.Closed?)
  }

  /** The field is the one timer outstanding, and there is none while there is a socket. */
  ghost predicate OneTimer(v: View) {
    && v.timers.Keys == (if v.timer.Some? then {v.timer.value} else {})
    && (v.timer.Some? ==> v.timer.value < v.nextTimer && v.socket.None?)
  }

  /** Whatever the state claims is true of the fields. */
  ghost predicate StateTrue(v: View) {
    match v.state
    case Idle => v.socket.None?
    case Connecting => v.socket.Some? || v.timer.Some? || v.refreshes > 0
    case Open => v.socket.Some? || v.timer.Some? || v.refreshes > 0
    case Reconnecting => v.timer.Some?
    case Stopped => v.socket.None? && v.timer.None?
  }

  ghost predicate AckedIfOpen(v: View) {
    v.state.Open? && v.socket.Some? && v.socket.value < |v.lines| ==> v.lines[v.socket.value].acked
  }

  /** The topics joined on a line. */
  function JoinedOn(sent: seq<Outgoing>): set<string> {
    set m | m in sent && m.Subscribe? :: m.topic
  }

  function TopicSet(topics: seq<string>): set<string> {
    set t | t in topics
  }

  /** Nothing before the opening; then authenticate, once, and only joins after it. */
  predicate WellSpoken(line: Line) {
    && (line.link.Dialing? ==> line.sent == [])
    && (line.sent != [] ==> line.sent[0] == Authenticate(line.token))
    && (forall i :: 1 <= i < |line.sent| ==> line.sent[i].Subscribe?)
  }

  predicate AllJoined(line: Line, topics: seq<string>) {
    line.link.Up? ==> line.sent != [] && JoinedOn(line.sent) == TopicSet(topics)
  }

  ghost predicate LinesOk(v: View) {
    && (forall sid :: 0 <= sid < |v.lines| ==> WellSpoken(v.lines[sid]))
    && (v.socket.Some? && v.socket.value < |v.lines| ==> AllJoined(v.lines[v.socket.value], v.topics))
  }

  ghost predicate Inv(v: View) {
    && OneConnection(v) && OneTimer(v) && StateTrue(v) && AckedIfOpen(v) && LinesOk(v)
    && v.authFailures <= MAX_AUTH_FAILURES
  }

  // ------------------------------------------------------------- every step

  lemma StartKeeps(v: View)
    requires Inv(v)
    ensures Inv(StartCalled(v))
  {}

  lemma StopKeeps(v: View)
    requires OneConnection(v) && OneTimer(v) && LinesOk(v)
    ensures Inv(StopCalled(v))
  {}

  /** What is joined grows with what is sent. */
  lemma JoinedMore(sent: seq<Outgoing>, more: seq<Outgoing>)
    ensures JoinedOn(sent + more) == JoinedOn(sent) + JoinedOn(more)
  {}

  lemma JoinsAreTopics(topics: seq<string>)
    ensures JoinedOn(Joins(topics)) == TopicSet(topics)
    ensures forall m :: m in Joins(topics) ==> m.Subscribe?
  {
    forall t | t in TopicSet(topics) ensures t in JoinedOn(Joins(topics)) {
      var i :| 0 <= i < |topics| && topics[i] == t;
      assert Joins(topics)[i] == Subscribe(t);
    }
  }

  lemma JoinKeeps(v: View, topic: string)
    requires Inv(v)
    ensures Inv(SubscribeCalled(v, topic))
  {
    var topics := if topic in v.topics then v.topics else v.topics + [topic];
    assert TopicSet(topics) == TopicSet(v.topics) + {topic};
    var v1 := v.(topics := topics);
    if v.socket.Some? && v.lines[v.socket.value].link.Up? {
      var sid := v.socket.value;
      var line := v.lines[sid];
      JoinedMore(line.sent, [Subscribe(topic)]);
      assert JoinedOn([Subscribe(topic)]) == {topic} by { assert Subscribe(topic) in [Subscribe(topic)]; }
      var v2 := Sent(v1, sid, [Subscribe(topic)]);
      assert Inv(v2);
      StartKeeps(v2);
    } else {
      assert Inv(v1);
      StartKeeps(v1);
    }
  }

  lemma TimerKeeps(v: View, id: nat, token: Option<string>)
    requires Inv(v) && id in v.timers
    ensures Inv(TimerFired(v, id, token))
  {}

  lemma OpenKeeps(v: View, sid: nat)
    requires Inv(v) && sid < |v.lines| && v.lines[sid].link.Dialing?
    ensures Inv(Opened(v, sid)) && v.socket == Some(sid)
  {
    var hello := [Authenticate(v.lines[sid].token)];
    JoinsAreTopics(v.topics);
    JoinedMore(hello, Joins(v.topics));
    assert JoinedOn(hello) == {};
    assert v.lines[sid].sent + (hello + Joins(v.topics)) == hello + Joins(v.topics);
  }

  lemma MessageKeeps(v: View, sid: nat, message: Incoming)
    requires Inv(v) && sid < |v.lines|
    ensures Inv(MessageHandled(v, sid, message))
  {}

  lemma FadeKeeps(v: View, sid: nat)
    requires Inv(v) && sid < |v.lines|
    ensures Inv(WithLine(v, sid, HungUp(v.lines[sid])))
  {}

  lemma CloseKeeps(v: View, sid: nat, code: int, random: real)
    requires Inv(v) && sid < |v.lines| && 0.0 <= random < 1.0
    ensures Inv(CloseHandled(v, sid, code, random))
  {}

  lemma RefreshKeeps(v: View, refreshed: bool)
    requires Inv(v) && v.refreshes > 0
    ensures Inv(RefreshResolved(v, refreshed))
  {}

  lemma StepKeeps(v: View, e: Event)
    requires Inv(v) && Enabled(v, e)
    ensures Inv(Next(v, e))
  {
    match e
    case Start => StartKeeps(v);
    case Stop => StopKeeps(v);
    case Join(topic) => JoinKeeps(v, topic);
    case TimerFires(id, token) => TimerKeeps(v, id, token);
    case LineOpens(sid) => OpenKeeps(v, sid);
    case Receives(sid, message) => MessageKeeps(v, sid, message);
    case LineFails(sid) => FadeKeeps(v, sid);
    case LineFades(sid) => FadeKeeps(v, sid);
    case LineCloses(sid, code, random) => CloseKeeps(v, sid, code, random);
    case RefreshDone(refreshed) => RefreshKeeps(v, refreshed);
  }

  // ------------------------------------------------------------------- runs

  ghost predicate StepAt(views: seq<View>, events: seq<Event>, i: nat)
    requires |views| == |events| + 1 && i < |events|
  {
    Enabled(views[i], events[i]) && views[i + 1] == Next(views[i], events[i])
  }

  /** A client from its making on, through any order of calls and events. */
  ghost predicate IsRun(views: seq<View>, events: seq<Event>) {
    && |views| == |events| + 1 && views[0] == FRESH
    && forall i :: 0 <= i < |events| ==> StepAt(views, events, i)
  }

  lemma {:induction false} InvOnRun(views: seq<View>, events: seq<Event>, i: nat)
    requires IsRun(views, events) && i < |views|
    ensures Inv(views[i])
  {
    if i > 0 {
      InvOnRun(views, events, i - 1);
      assert StepAt(views, events, i - 1);
      StepKeeps(views[i - 1], events[i - 1]);
    }
  }

  /** Never silently dead: a client that claims to be at work has something that will happen next. */
  lemma NeverSilentlyDead(views: seq<View>, events: seq<Event>, i: nat)
    requires IsRun(views, events) && i < |views|
    requires views[i].state.Connecting? || views[i].state.Open? || views[i].state.Reconnecting?
    ensures views[i].socket.Some? || views[i].timers != map[] || views[i].refreshes > 0
    ensures views[i].state.Reconnecting? ==> views[i].timers != map[]
  {
    InvOnRun(views, events, i);
    assert views[i].timer.Some? ==> views[i].timer.value in views[i].timers.Keys;
  }

  /** The client has a connection, or one timer of `delay` milliseconds that was set just now. */
  predicate UnderWay(v: View, v': View, delay: nat) {
    || (v'.socket.Some? && v'.socket == v.socket)
    || (v'.timer.Some? && v'.timer == v.timer)
    || (v'.timer == Some(v.nextTimer) && v'.timers == map[v.nextTimer := delay])
  }

  /** `start` and `subscribe` get a client going, from any state; `stop` leaves nothing going, and hangs up. */
  lemma CallsTakeEffect(v: View, topic: string)
    requires Inv(v)
    ensures !StartCalled(v).state.Stopped? && UnderWay(v, StartCalled(v), 10)
    ensures !SubscribeCalled(v, topic).state.Stopped? && UnderWay(v, SubscribeCalled(v, topic), 10)
    ensures StopCalled(v).state.Stopped? && StopCalled(v).timers == map[]
    ensures forall sid :: 0 <= sid < |v.lines| ==>
      StopCalled(v).lines[sid].link.Closing? || StopCalled(v).lines[sid].link.Closed?
  {}

  /** A client stops on its own only by reporting the session dead. */
  lemma NeverStopsInSilence(v: View, e: Event)
    requires Enabled(v, e) && !e.Stop? && !v.state.Stopped? && Next(v, e).state.Stopped?
    ensures Next(v, e).expired == v.expired + 1
  {}

  /**
   At most one connection. No connection but the current one is, or can become,
   usable; there is at most one timer, and none beside a connection; and a
   client that says open while it has a connection was acknowledged on it.
   */
  lemma AtMostOneConnection(views: seq<View>, events: seq<Event>, i: nat)
    requires IsRun(views, events) && i < |views|
    ensures forall sid ::
      0 <= sid < |views[i].lines| && (views[i].lines[sid].link.Dialing? || views[i].lines[sid].link.Up?) ==>
      views[i].socket == Some(sid)
    ensures |views[i].timers| <= 1 && (views[i].socket.Some? ==> views[i].timers == map[])
    ensures views[i].state.Open? && views[i].socket.Some? ==>
      views[i].socket.value < |views[i].lines| && views[i].lines[views[i].socket.value].acked
  {
    InvOnRun(views, events, i);
    assert views[i].timers.Keys == (if views[i].timer.Some? then {views[i].timer.value} else {});
    assert |views[i].timers| == |views[i].timers.Keys|;
  }

  /** What a connection that was replaced does changes nothing but that connection. */
  lemma StaleChangesNothing(v: View, e: Event)
    requires Enabled(v, e)
    requires (e.LineOpens? || e.Receives? || e.LineFails? || e.LineFades? || e.LineCloses?) && v.socket != Some(e.sid)
    ensures Next(v, e).(lines := v.lines) == v
    ensures |Next(v, e).lines| == |v.lines|
    ensures forall sid :: 0 <= sid < |v.lines| && sid != e.sid ==> Next(v, e).lines[sid] == v.lines[sid]
  {}

  /** Once stopped, nothing opens a connection or sets a timer until `start` or `subscribe` is called. */
  lemma {:induction false} StoppedUntilStarted(views: seq<View>, events: seq<Event>, i: nat, j: nat)
    requires IsRun(views, events) && i <= j < |views| && views[i].state.Stopped?
    requires forall k :: i <= k < j ==> !events[k].Start? && !events[k].Join?
    ensures views[j].state.Stopped? && views[j].socket.None? && views[j].timers == map[]
    ensures |views[j].lines| == |views[i].lines|
    decreases j
  {
    InvOnRun(views, events, j);
    if i < j {
      StoppedUntilStarted(views, events, i, j - 1);
      assert StepAt(views, events, j - 1);
    }
  }

  // ---------------------------------------------------------------- tokens

  /** A timer of the client's goes off while there is a token to dial with. */
  predicate Dials(e: Event) {
    e.TimerFires? && e.token.Some? && e.token.value != ""
  }

  /** No connection changes its token. */
  predicate TokensStay(v: View, v': View) {
    |v.lines| <= |v'.lines| && forall sid :: 0 <= sid < |v.lines| ==> v'.lines[sid].token == v.lines[sid].token
  }

  lemma TimerDials(v: View, id: nat, token: Option<string>)
    requires OneConnection(v) && OneTimer(v) && StateTrue(v) && id in v.timers
    ensures
      var v' := TimerFired(v, id, token);
      && v'.lines == v.lines + (if Dials(TimerFires(id, token)) then [Line(Dialing, token.value, [], false)] else [])
      && (Dials(TimerFires(id, token)) ==> v'.socket == Some(|v.lines|))
      && (!Dials(TimerFires(id, token)) ==> v'.state.Idle? && v'.timers == map[])
  {}

  lemma CallsDialNothing(v: View, topic: string)
    ensures |StopCalled(v).lines| == |v.lines| && TokensStay(v, StopCalled(v))
    ensures |SubscribeCalled(v, topic).lines| == |v.lines| && TokensStay(v, SubscribeCalled(v, topic))
  {}

  lemma ConnectionsDialNothing(v: View, e: Event)
    requires Enabled(v, e) && (e.LineOpens? || e.Receives? || e.LineFails? || e.LineFades?)
    ensures |Next(v, e).lines| == |v.lines| && TokensStay(v, Next(v, e))
  {}

  lemma CloseDialsNothing(v: View, sid: nat, code: int, random: real)
    requires sid < |v.lines| && 0.0 <= random < 1.0
    ensures |CloseHandled(v, sid, code, random).lines| == |v.lines| && TokensStay(v, CloseHandled(v, sid, code, random))
  {}

  lemma RefreshDialsNothing(v: View, refreshed: bool)
    requires v.refreshes > 0
    ensures |RefreshResolved(v, refreshed).lines| == |v.lines| && TokensStay(v, RefreshResolved(v, refreshed))
  {}

  lemma OthersDialNothing(v: View, e: Event)
    requires Enabled(v, e) && !e.TimerFires?
    ensures |Next(v, e).lines| == |v.lines| && TokensStay(v, Next(v, e))
  {
    match e
    case Start =>
    case Stop => CallsDialNothing(v, []);
    case Join(topic) => CallsDialNothing(v, topic);
    case LineCloses(sid, code, random) => CloseDialsNothing(v, sid, code, random);
    case RefreshDone(refreshed) => RefreshDialsNothing(v, refreshed);
    case _ => ConnectionsDialNothing(v, e);
  }

  lemma DialStep(v: View, e: Event)
    requires Inv(v) && Enabled(v, e)
    ensures |Next(v, e).lines| == |v.lines| + (if Dials(e) then 1 else 0) && TokensStay(v, Next(v, e))
    ensures Dials(e) ==>
      Next(v, e).lines[|v.lines|] == Line(Dialing, e.token.value, [], false) && Next(v, e).socket == Some(|v.lines|)
    ensures e.TimerFires? && !Dials(e) ==> Next(v, e).state.Idle? && Next(v, e).timers == map[]
  {
    if e.TimerFires? { TimerDials(v, e.id, e.token); } else { OthersDialNothing(v, e); }
  }

  /**
   Exactly when a connection is made: a timer goes off and the session has a
   token that is not blank; then one, for the whole of that token. Without one
   the client comes to rest.
   */
  lemma DialsExactly(views: seq<View>, events: seq<Event>, i: nat)
    requires IsRun(views, events) && i < |events|
    ensures |views[i + 1].lines| == |views[i].lines| + (if Dials(events[i]) then 1 else 0)
    ensures events[i].TimerFires? && !Dials(events[i]) ==> views[i + 1].state.Idle? && views[i + 1].timers == map[]
    ensures Dials(events[i]) ==>
      && views[i + 1].socket == Some(|views[i].lines|)
      && views[i + 1].lines[|views[i].lines|] == Line(Dialing, events[i].token.value, [], false)
  {
    InvOnRun(views, events, i);
    assert StepAt(views, events, i);
    DialStep(views[i], events[i]);
  }

  /** The `k`-th event dialled connection `sid`. */
  ghost predicate DialledBy(views: seq<View>, events: seq<Event>, k: nat, sid: nat)
    requires |views| == |events| + 1 && k < |events|
  {
    Dials(events[k]) && |views[k].lines| == sid
  }

  lemma {:induction false} WhenDialled(views: seq<View>, events: seq<Event>, i: nat, sid: nat) returns (k: nat)
    requires IsRun(views, events) && i < |views| && sid < |views[i].lines|
    ensures k < i && DialledBy(views, events, k, sid) && views[i].lines[sid].token == events[k].token.value
  {
    assert i > 0;
    InvOnRun(views, events, i - 1);
    assert StepAt(views, events, i - 1);
    DialStep(views[i - 1], events[i - 1]);
    if sid < |views[i - 1].lines| {
      k := WhenDialled(views, events, i - 1, sid);
    } else {
      k := i - 1;
    }
  }

  /** The first message on every connection authenticates with the token the session had when it was dialled. */
  lemma AuthenticatesWithItsToken(views: seq<View>, events: seq<Event>, i: nat, sid: nat)
    requires IsRun(views, events) && i < |views| && sid < |views[i].lines| && views[i].lines[sid].sent != []
    ensures exists k :: 0 <= k < i && DialledBy(views, events, k, sid)
                     && views[i].lines[sid].sent[0] == Authenticate(events[k].token.value)
  {
    InvOnRun(views, events, i);
    var k := WhenDialled(views, events, i, sid);
    assert WellSpoken(views[i].lines[sid]);
  }

  // ------------------------------------------------------------ confirmations

  /** The server confirms the current connection. */
  predicate Confirms(v: View, e: Event) {
    e.Receives? && e.message.Authenticated? && v.socket == Some(e.sid)
  }

  /** A client comes to be open exactly when the server confirms the connection it has. */
  lemma OpensExactly(views: seq<View>, events: seq<Event>, i: nat)
    requires IsRun(views, events) && i < |events|
    ensures Confirms(views[i], events[i]) ==> views[i + 1].state.Open?
    ensures views[i + 1].state.Open? && !views[i].state.Open? ==> Confirms(views[i], events[i])
    ensures events[i].Receives? && !Confirms(views[i], events[i]) ==>
      views[i + 1] == views[i].(lines := views[i + 1].lines)
  {
    InvOnRun(views, events, i);
    assert StepAt(views, events, i);
  }

  /** A connection that fails is hung up, and nothing else changes. */
  lemma FailureHangsUp(views: seq<View>, events: seq<Event>, i: nat)
    requires IsRun(views, events) && i < |events| && events[i].LineFails?
    ensures events[i].sid < |views[i + 1].lines|
    ensures views[i + 1].lines[events[i].sid].link.Closing? || views[i + 1].lines[events[i].sid].link.Closed?
    ensures views[i + 1] == views[i].(lines := views[i + 1].lines)
    ensures forall sid :: 0 <= sid < |views[i].lines| && sid != events[i].sid ==>
      sid < |views[i + 1].lines| && views[i + 1].lines[sid] == views[i].lines[sid]
  {
    assert StepAt(views, events, i);
  }

  /**
   A refresh that got a session sets one timer of 250 milliseconds, unless the
   client is stopped or has a connection or a timer already: and does nothing
   else.
   */
  lemma GrantedRefreshRetries(views: seq<View>, events: seq<Event>, i: nat)
    requires IsRun(views, events) && i < |events| && events[i] == RefreshDone(true)
    ensures views[i].refreshes > 0
    ensures
      var v, v' := views[i], views[i + 1];
      if v.state.Stopped? || v.socket.Some? || v.timer.Some?
      then v' == v.(refreshes := v.refreshes - 1)
      else v'.state.Reconnecting? && v'.timer.Some? && v'.timers == map[v'.timer.value := 250]
  {
    InvOnRun(views, events, i);
    assert StepAt(views, events, i);
  }

  // ---------------------------------------------------------------- topics

  /** The topics `subscribe` was called with before the `i`-th event. */
  function Asked(events: seq<Event>, i: nat): set<string>
    requires i <= |events|
  {
    if i == 0 then {} else Asked(events, i - 1) + (if events[i - 1].Join? then {events[i - 1].topic} else {})
  }

  lemma TopicsStep(v: View, e: Event)
    requires Enabled(v, e)
    ensures TopicSet(Next(v, e).topics) == TopicSet(v.topics) + (if e.Join? then {e.topic} else {})
  {}

  lemma {:induction false} TopicsAreAsked(views: seq<View>, events: seq<Event>, i: nat)
    requires IsRun(views, events) && i < |views|
    ensures TopicSet(views[i].topics) == Asked(events, i)
  {
    if i > 0 {
      TopicsAreAsked(views, events, i - 1);
      assert StepAt(views, events, i - 1);
      TopicsStep(views[i - 1], events[i - 1]);
    }
  }

  /**
   No topic is lost. On every connection nothing is sent before it opens, the
   first message authenticates and the rest join topics; and whenever the
   current connection is usable, what has been joined on it is exactly what
   `subscribe` was ever called with.
   */
  lemma NoTopicIsLost(views: seq<View>, events: seq<Event>, i: nat)
    requires IsRun(views, events) && i < |views|
    ensures forall sid :: 0 <= sid < |views[i].lines| ==> WellSpoken(views[i].lines[sid])
    ensures forall sid :: 0 <= sid < |views[i].lines| && views[i].lines[sid].link.Up? ==>
      views[i].lines[sid].sent != [] && JoinedOn(views[i].lines[sid].sent) == Asked(events, i)
  {
    InvOnRun(views, events, i);
    TopicsAreAsked(views, events, i);
  }

  // ------------------------------------------------------- retry discipline

  /** The server confirmed the current connection, or the client came to a stop. */
  predicate Resets(v: View, e: Event, v': View) {
    || (e.Receives? && e.message.Authenticated? && v.socket == Some(e.sid))
    || (v'.state.Stopped? && !v.state.Stopped?)
  }

  /** The current connection closed, and not because its token was rejected. */
  predicate Drops(v: View, e: Event) {
    e.LineCloses? && v.socket == Some(e.sid) && e.code != CLOSE_POLICY_VIOLATION
  }

  /** The drops since the last confirmation or stop. */
  function DropsSince(views: seq<View>, events: seq<Event>, i: nat): nat
    requires |views| == |events| + 1 && i < |views|
  {
    if i == 0 || Resets(views[i - 1], events[i - 1], views[i]) then 0
    else DropsSince(views, events, i - 1) + (if Drops(views[i - 1], events[i - 1]) then 1 else 0)
  }

  /** The refreshes asked for since the last confirmation or stop. */
  function RefreshesSince(views: seq<View>, events: seq<Event>, i: nat): nat
    requires |views| == |events| + 1 && i < |views|
  {
    if i == 0 || Resets(views[i - 1], events[i - 1], views[i]) then 0
    else RefreshesSince(views, events, i - 1) + (if views[i].refreshes > views[i - 1].refreshes then 1 else 0)
  }

  lemma AttemptStep(v: View, e: Event)
    requires Inv(v) && Enabled(v, e) && (v.state.Stopped? ==> v.attempt == 0)
    ensures
      var v' := Next(v, e);
      && v'.attempt == (if Resets(v, e, v') then 0 else v.attempt + (if Drops(v, e) then 1 else 0))
      && (v'.state.Stopped? ==> v'.attempt == 0)
  {}

  lemma FailuresStep(v: View, e: Event)
    requires Inv(v) && Enabled(v, e) && (v.state.Stopped? ==> v.authFailures == 0)
    ensures
      var v' := Next(v, e);
      && v'.authFailures ==
           (if Resets(v, e, v') then 0 else v.authFailures + (if v'.refreshes > v.refreshes then 1 else 0))
      && (v'.state.Stopped? ==> v'.authFailures == 0)
  {}

  /**
   `attempt` and `authFailures` are what their names say, over the whole run; and no more than three
   refreshes are ever asked for in a row.
   */
  lemma {:induction false} RetriesAreCounted(views: seq<View>, events: seq<Event>, i: nat)
    requires IsRun(views, events) && i < |views|
    ensures views[i].attempt == DropsSince(views, events, i)
    ensures views[i].authFailures == RefreshesSince(views, events, i) <= MAX_AUTH_FAILURES
    ensures views[i].state.Stopped? ==> views[i].attempt == 0 && views[i].authFailures == 0
  {
    InvOnRun(views, events, i);
    if i > 0 {
      RetriesAreCounted(views, events, i - 1);
      InvOnRun(views, events, i - 1);
      assert StepAt(views, events, i - 1);
      AttemptStep(views[i - 1], events[i - 1]);
      FailuresStep(views[i - 1], events[i - 1]);
    }
  }

  /**
   A drop sets one timer, between half of the curve and all of it, by the drops since the server last
   confirmed a connection.
   */
  lemma DropsBackOff(views: seq<View>, events: seq<Event>, i: nat)
    requires IsRun(views, events) && i < |events| && Drops(views[i], events[i])
    ensures
      var v', n := views[i + 1], DropsSince(views, events, i);
      && v'.state.Reconnecting? && v'.timer.Some? && v'.timers.Keys == {v'.timer.value}
      && v'.timers[v'.timer.value] == Delay(n, events[i].random)
      && HalfExp(n) <= v'.timers[v'.timer.value] <= Exp(n) <= BACKOFF_CAP_MS
  {
    InvOnRun(views, events, i);
    RetriesAreCounted(views, events, i);
    assert StepAt(views, events, i);
    DelayIsJittered(views[i].attempt, events[i].random);
  }

  /** A rejected token is refreshed three times; the next rejection in a row reports the session dead. */
  lemma RejectionsAreBounded(views: seq<View>, events: seq<Event>, i: nat)
    requires IsRun(views, events) && i < |events|
    requires events[i].LineCloses? && views[i].socket == Some(events[i].sid) && events[i].code == 1008
    ensures
      var v, v' := views[i], views[i + 1];
      if RefreshesSince(views, events, i) < 3
      then v'.refreshes == v.refreshes + 1 && v'.expired == v.expired && v'.state == v.state
      else v'.state.Stopped? && v'.expired == v.expired + 1 && v'.refreshes == v.refreshes
  {
    InvOnRun(views, events, i);
    RetriesAreCounted(views, events, i);
    assert StepAt(views, events, i);
  }

  /**
   What the client does not promise: a refresh asked for before a stop can end
   what was started after it. It does exactly when it gets no session
   while the client is not stopped.
   */
  lemma OldRefreshEndsNewStart(v: View)
    requires v.refreshes > 0
    ensures forall refreshed :: RefreshResolved(v, refreshed).state.Stopped? <==> v.state.Stopped? || !refreshed
    ensures exists views: seq<View>, events: seq<Event> ::
      && IsRun(views, events) && |events| == 7 && events[4].Stop? && events[5].Start? && events[6] == RefreshDone(false)
      && !views[6].state.Stopped? && views[7].state.Stopped?
  {
    var token := Some("t");
    var events := [Start, TimerFires(0, token), LineOpens(0), LineCloses(0, CLOSE_POLICY_VIOLATION, 0.0),
                  Stop, Start, RefreshDone(false)];
    var v1 := StartCalled(FRESH);
    var v2 := TimerFired(v1, 0, token);
    var v3 := Opened(v2, 0);
    var v4 := CloseHandled(v3, 0, CLOSE_POLICY_VIOLATION, 0.0);
    var v5 := StopCalled(v4);
    var v6 := StartCalled(v5);
    var v7 := RefreshResolved(v6, false);
    var views := [FRESH, v1, v2, v3, v4, v5, v6, v7];
    forall i | 0 <= i < |events| ensures StepAt(views, events, i) {}
    assert IsRun(views, events);
  }
}
