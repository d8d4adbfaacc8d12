/** The reconnecting socket as it runs: fields changed in place, against the values of `Socket`. */
module SocketClient {
  import opened Wrappers
  import opened Socket

  /** The browser's part. `Send` may only be asked of a connection that is up: a real one throws otherwise. */
  class Browser {
    var lines: seq<Line>
    var timers: map<nat, nat>
    var nextTimer: nat
    var refreshes: nat

    constructor ()
      ensures lines == [] && timers == map[] && nextTimer == 0 && refreshes == 0
    {
      lines, timers, nextTimer, refreshes := [], map[], 0, 0;
    }

    method MakeSocket(token: string) returns (sid: nat)
      modifies this`lines
      ensures sid == |old(lines)| && lines == old(lines) + [Line(Dialing, token, [], false)]
    {
      sid := |lines|;
      lines := lines + [Line(Dialing, token, [], false)];
    }

    method Send(sid: nat, message: Outgoing)
      requires sid < |lines| && lines[sid].link.Up?
      modifies this`lines
      ensures lines == old(lines)[sid := old(lines)[sid].(sent := old(lines)[sid].sent + [message])]
    {
      lines := lines[sid := lines[sid].(sent := lines[sid].sent + [message])];
    }

    method Close(sid: nat)
      requires sid < |lines|
      modifies this`lines
      ensures lines == old(lines)[sid := HungUp(old(lines)[sid])]
    {
      lines := lines[sid := HungUp(lines[sid])];
    }

    method SetTimer(ms: nat) returns (id: nat)
      modifies this`timers, this`nextTimer
      ensures id == old(nextTimer) && timers == old(timers)[id := ms] && nextTimer == old(nextTimer) + 1
    {
      id := nextTimer;
      timers := timers[id := ms];
      nextTimer := nextTimer + 1;
    }

    method ClearTimer(id: nat)
      modifies this`timers
      ensures timers == old(timers) - {id}
    {
      timers := timers - {id};
    }
  }

  class ReconnectingSocket {
    const browser: Browser
    var state: State
    var socket: Option<nat>
    var timer: Option<nat>
    var attempt: nat
    var authFailures: nat
    var topics: seq<string>
    var expired: nat

    ghost function Value(): View
      reads this, browser
    {
      View(state, socket, timer, attempt, authFailures, topics,
                browser.lines, browser.timers, browser.nextTimer, browser.refreshes, expired)
    }

    /** The current connection is one the browser made. */
    ghost predicate Valid()
      reads this, browser
    {
      socket.Some? ==> socket.value < |browser.lines|
    }

    constructor (browser: Browser)
      requires browser.lines == [] && browser.timers == map[] && browser.nextTimer == 0 && browser.refreshes == 0
      ensures this.browser == browser && Valid() && Value() == FRESH
    {
      this.browser := browser;
      state, socket, timer, attempt, authFailures, topics, expired := Idle, None, None, 0, 0, [], 0;
    }

    method Start()
      requires Valid()
      modifies this, browser
      ensures Valid() && Value() == StartCalled(old(Value()))
    {
      if state.Stopped? { state := Idle; }
      if socket.Some? || timer.Some? { return; }
      var id := browser.SetTimer(CONNECT_DELAY_MS);
      timer := Some(id);
    }

    method Stop()
      requires Valid()
      modifies this, browser
      ensures Valid() && Value() == StopCalled(old(Value()))
    {
      state := Stopped;
      CancelTimer();
      var closing := socket;
      socket := None;
      attempt := 0;
      authFailures := 0;
      if closing.Some? { browser.Close(closing.value); }
    }

    method Subscribe(topic: string)
      requires Valid()
      modifies this, browser
      ensures Valid() && Value() == SubscribeCalled(old(Value()), topic)
    {
      if topic !in topics { topics := topics + [topic]; }
      SendRaw(Outgoing.Subscribe(topic));
      Start();
    }

    /** Both timers run this when they go off; the browser has let go of the timer by then. */
    method OnTimer(id: nat, token: Option<string>)
      requires Valid() && id in browser.timers
      modifies this, browser
      ensures Valid() && Value() == TimerFired(old(Value()), id, token)
    {
      browser.ClearTimer(id);
      timer := None;
      Open(token);
    }

    method Open(token: Option<string>)
      requires Valid()
      modifies this, browser
      ensures Valid() && Value() == OpenCalled(old(Value()), token)
    {
      if state.Stopped? { return; }
      if socket.Some? || timer.Some? { return; }
      if token.None? || token.value == "" {
        state := Idle;
        return;
      }
      state := Connecting;
      var sid := browser.MakeSocket(token.value);
      socket := Some(sid);
    }

    /** `onopen`: the connection is up, and says who it is before anything else. */
    method OnOpen(sid: nat)
      requires Valid() && sid < |browser.lines| && browser.lines[sid].link.Dialing?
      modifies browser
      ensures Valid() && Value() == Opened(old(Value()), sid)
    {
      ghost var was := browser.lines[sid];
      browser.lines := browser.lines[sid := browser.lines[sid].(link := Up)];
      browser.Send(sid, Authenticate(browser.lines[sid].token));
      ghost var hello := was.sent + [Authenticate(was.token)];
      assert hello + Joins(topics[..0]) == hello;
      var k := 0;
      while k < |topics|
        invariant k <= |topics|
        invariant browser.lines == old(browser.lines)[sid := was.(link := Up, sent := hello + Joins(topics[..k]))]
        invariant browser.timers == old(browser.timers) && browser.nextTimer == old(browser.nextTimer)
        invariant browser.refreshes == old(browser.refreshes)
      {
        assert Joins(topics[..k + 1]) == Joins(topics[..k]) + [Outgoing.Subscribe(topics[k])];
        assert hello + Joins(topics[..k + 1]) == hello + Joins(topics[..k]) + [Outgoing.Subscribe(topics[k])];
        browser.Send(sid, Outgoing.Subscribe(topics[k]));
        k := k + 1;
      }
      assert topics[..k] == topics;
      assert hello + Joins(topics) == was.sent + ([Authenticate(was.token)] + Joins(topics));
    }

    method HandleMessage(sid: nat, message: Incoming)
      requires Valid() && sid < |browser.lines|
      modifies this, browser
      ensures Valid() && Value() == MessageHandled(old(Value()), sid, message)
    {
      // History: this connection was acknowledged.
      if message.Authenticated? {
        browser.lines := browser.lines[sid := browser.lines[sid].(acked := true)];
      }
      if Some(sid) != socket { return; }
      if message.Garbage? { return; }
      if message.Authenticated? {
        state := State.Open;
        attempt := 0;
        authFailures := 0;
      }
    }

    method OnError(sid: nat)
      requires Valid() && sid < |browser.lines|
      modifies browser
      ensures Valid() && Value() == WithLine(old(Value()), sid, HungUp(old(Value()).lines[sid]))
    {
      browser.Close(sid);
    }

    method HandleClose(sid: nat, code: int, random: real)
      requires Valid() && sid < |browser.lines| && 0.0 <= random < 1.0
      modifies this, browser
      ensures Valid() && Value() == CloseHandled(old(Value()), sid, code, random)
    {
      browser.lines := browser.lines[sid := browser.lines[sid].(link := Closed)];
      if Some(sid) != socket { return; }
      socket := None;
      if state.Stopped? { return; }
      if code == CLOSE_POLICY_VIOLATION {
        HandleAuthRejection();
        return;
      }
      var delay := BackoffDelay(random);
      ScheduleReconnect(delay);
    }

    /** Up to the refresh, which answers in `OnRefreshed`. */
    method HandleAuthRejection()
      requires Valid()
      modifies this, browser
      ensures Valid() && Value() == AuthRejected(old(Value()))
    {
      authFailures := authFailures + 1;
      if authFailures > MAX_AUTH_FAILURES {
        Stop();
        expired := expired + 1;
        return;
      }
      browser.refreshes := browser.refreshes + 1;
    }

    method OnRefreshed(refreshed: bool)
      requires Valid() && browser.refreshes > 0
      modifies this, browser
      ensures Valid() && Value() == RefreshResolved(old(Value()), refreshed)
    {
      browser.refreshes := browser.refreshes - 1;
      if state.Stopped? { return; }
      if !refreshed {
        Stop();
        expired := expired + 1;
        return;
      }
      ScheduleReconnect(AUTH_RETRY_DELAY_MS);
    }

    method ScheduleReconnect(delay: nat)
      requires Valid()
      modifies this, browser
      ensures Valid() && Value() == ReconnectScheduled(old(Value()), delay)
    {
      if state.Stopped? || timer.Some? || socket.Some? { return; }
      state := Reconnecting;
      var id := browser.SetTimer(delay);
      timer := Some(id);
    }

    method BackoffDelay(random: real) returns (delay: nat)
      requires 0.0 <= random < 1.0
      modifies this`attempt
      ensures attempt == old(attempt) + 1 && delay == Delay(old(attempt), random)
      ensures HalfExp(old(attempt)) <= delay <= Exp(old(attempt))
    {
      DelayIsJittered(attempt, random);
      delay := Delay(attempt, random);
      attempt := attempt + 1;
    }

    /** Only on a connection that is up. */
    method SendRaw(message: Outgoing)
      requires Valid()
      modifies browser
      ensures Valid()
      ensures Value() == if socket.Some? && old(browser.lines)[socket.value].link.Up?
                        then Sent(old(Value()), socket.value, [message]) else old(Value())
    {
      if socket.Some? && browser.lines[socket.value].link.Up? {
        browser.Send(socket.value, message);
      }
    }

    method CancelTimer()
      requires Valid()
      modifies this`timer, browser
      ensures Valid() && Value() == TimerCancelled(old(Value()))
    {
      if timer.Some? {
        browser.ClearTimer(timer.value);
        timer := None;
      }
    }
  }
}
