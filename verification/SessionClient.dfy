/** The console's session as it runs: module variables changed in place, against the values of `Session`. */
module SessionClient {
  import opened Wrappers
  import opened Session

  /** What is outside the console's own variables: requests and refreshes under way, the gateway, the cookie jar. */
  class World {
    var flights: seq<Flight>
    var requests: seq<Request>
    var jar: Option<Cookie>
    var honoured: Option<Cookie>
    var nextCookie: Cookie
    var spent: set<Cookie>

    constructor (jar: Option<Cookie>, honoured: Option<Cookie>, nextCookie: Cookie)
      ensures flights == [] && requests == [] && spent == {}
      ensures this.jar == jar && this.honoured == honoured && this.nextCookie == nextCookie
    {
      flights, requests, spent := [], [], {};
      this.jar, this.honoured, this.nextCookie := jar, honoured, nextCookie;
    }
  }

  class Console {
    const world: World
    var current: Option<Serial>
    var refreshing: Option<nat>
    var inflight: map<string, nat>
    var nextSession: Serial
    var expired: nat

    ghost function Value(): View
      reads this, world
    {
      View(current, refreshing, inflight, world.flights, world.requests, nextSession, expired,
           world.jar, world.honoured, world.nextCookie, world.spent)
    }

    constructor (world: World)
      requires world.flights == [] && world.requests == [] && world.spent == {}
      requires world.jar.Some? ==> world.jar.value < world.nextCookie
      requires world.honoured.Some? ==> world.honoured.value < world.nextCookie
      ensures this.world == world && IsFresh(Value())
    {
      this.world := world;
      current, refreshing, inflight, nextSession, expired := None, None, map[], 0, 0;
    }

    method SetSession(session: Option<Serial>)
      modifies this`current
      ensures current == session
    {
      current := session;
    }

    /** A session is a new object every time. */
    method Keep() returns (session: Serial)
      modifies this`current, this`nextSession
      ensures session == old(nextSession)
      ensures Value() == Kept(old(Value()))
    {
      session := nextSession;
      nextSession := nextSession + 1;
      SetSession(Some(session));
    }

    /** The one way to refresh: join the attempt there is, or begin one. */
    method Refresh() returns (flight: nat)
      modifies this`refreshing, world`flights
      ensures Value() == RefreshCalled(old(Value())) && refreshing == Some(flight)
    {
      if refreshing.None? {
        refreshing := Some(|world.flights|);
        world.flights := world.flights + [Flight(current, world.jar, InAir, nextSession, None)];
      }
      flight := refreshing.value;
    }

    /** The rest of a refresh, once its answer has landed; `finally` clears the way for the next. */
    method FinishRefresh(f: nat, readable: bool)
      requires f < |world.flights| && world.flights[f].phase.Landed?
      modifies this`current, this`nextSession, this`refreshing, world`flights
      ensures Value() == Concluded(old(Value()), f, readable)
    {
      var flight := world.flights[f];
      var before, now := flight.before, current;
      var outcome;
      match flight.phase.verdict {
        case Silence => outcome := NoAnswer;
        case Trouble => outcome := NoAnswer;
        case Refusal =>
          if now.Some? && now != before { outcome := Got(now.value); } else { outcome := Nobody; }
        case Rotated(_) =>
          if readable {
            var session := Keep();
            outcome := Got(session);
          } else {
            outcome := NoAnswer;
          }
      }
      refreshing := None;
      world.flights := world.flights[f := flight.(phase := Over(outcome))];
    }

    method ApiFetch(path: string, get: bool) returns (r: nat)
      requires get && path in inflight ==> inflight[path] < |world.requests|
      modifies this`inflight, world`requests
      ensures Value() == FetchCalled(old(Value()), path, get)
      ensures r < |world.requests| && (get ==> path in inflight && inflight[path] == r)
      ensures r == if get && path in old(inflight) then old(inflight)[path] else |old(world.requests)|
    {
      if get && path in inflight { return inflight[path]; }
      r := |world.requests|;
      world.requests := world.requests + [Request(path, get, Asked, 1)];
      if get { inflight := inflight[path := r]; }
    }

    method End(r: nat)
      requires r < |world.requests|
      modifies this`inflight, world`requests
      ensures Value() == Ended(old(Value()), r)
    {
      var request := world.requests[r];
      world.requests := world.requests[r := request.(phase := Finished)];
      if request.get { inflight := inflight - {request.path}; }
    }

    /** `dispatch`, from its first answer to its next await. */
    method OnFirstAnswer(r: nat, unauthorized: bool)
      requires r < |world.requests| && world.requests[r].phase.Asked?
      modifies this`refreshing, this`inflight, world
      ensures Value() == FirstAnswer(old(Value()), r, unauthorized)
    {
      if !unauthorized {
        End(r);
        return;
      }
      var flight := Refresh();
      world.requests := world.requests[r := world.requests[r].(phase := Waiting(flight))];
    }

    /** `dispatch`, from the refresh it waited on. */
    method OnRefreshed(r: nat)
      requires Enabled(Value(), Resume(r))
      modifies this, world`requests
      ensures Value() == Resumed(old(Value()), r)
    {
      match world.flights[world.requests[r].phase.flight].phase.outcome
      case NoAnswer => End(r);
      case Nobody =>
        SetSession(None);
        expired := expired + 1;
        End(r);
      case Got(session) =>
        var request := world.requests[r];
        world.requests := world.requests[r := request.(phase := Retrying(session), sends := request.sends + 1)];
    }
  }
}
