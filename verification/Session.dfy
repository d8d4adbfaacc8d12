/**
 The console's session: one door to the gateway, one refresh at a time against
 a single-use cookie.

 A session is known by its serial number, as the code compares sessions by
 identity. Everything between two awaits is one step. The gateway and the
 browser's cookie jar are the world: the gateway honours one cookie, replaces it
 when it is presented, and remembers (history) which ones were spent.
 */
module Session {
  import opened Wrappers

  type Serial = nat
  type Cookie = nat

  /** What the gateway made of a refresh: a new cookie, a refusal, a 5xx, or nothing. */
  datatype Verdict = Rotated(cookie: Cookie) | Refusal | Trouble | Silence

  /** What a refresh tells everyone who waited on it. */
  datatype Outcome = Got(session: Serial) | Nobody | NoAnswer

  datatype FlightPhase = InAir | Served(verdict: Verdict) | Landed(verdict: Verdict) | Over(outcome: Outcome)

  /**
   One refresh: the session held when it began, and the cookie it presented.
   History: how many sessions there had been by then, and what it was answered.
   */
  datatype Flight = Flight(before: Option<Serial>, presented: Option<Cookie>, phase: FlightPhase,
                           born: Serial, answered: Option<Verdict>)

  datatype RequestPhase = Asked | Waiting(flight: nat) | Retrying(session: Serial) | Finished

  /** One request, with how often it was sent. */
  datatype Request = Request(path: string, get: bool, phase: RequestPhase, sends: nat)

  datatype View = View(
    current: Option<Serial>, refreshing: Option<nat>, inflight: map<string, nat>,
    flights: seq<Flight>, requests: seq<Request>, nextSession: Serial, expired: nat,
    jar: Option<Cookie>, honoured: Option<Cookie>, nextCookie: Cookie, spent: set<Cookie>)

  datatype Event =
    | Fetch(path: string, get: bool)
    | Answered(r: nat, unauthorized: bool)
    | Wake
    | Serve(f: nat)
    | Break(f: nat)
    | Hush(f: nat)
    | Land(f: nat)
    | Conclude(f: nat, readable: bool)
    | Resume(r: nat)
    | RetryAnswered(r: nat)
    | SessionArrives
    | SessionLeaves
    | Revoke
    | ElsewhereRotated
    | JarChanged(jar: Option<Cookie>)

  /** A page that has just loaded, with whatever cookie it finds. */
  predicate IsFresh(v: View) {
    && v == View(None, None, map[], [], [], 0, 0, v.jar, v.honoured, v.nextCookie, {})
    && (v.jar.Some? ==> v.jar.value < v.nextCookie)
    && (v.honoured.Some? ==> v.honoured.value < v.nextCookie)
  }

  function WithFlight(v: View, f: nat, flight: Flight): View
    requires f < |v.flights|
  {
    v.(flights := v.flights[f := flight])
  }

  function WithRequest(v: View, r: nat, request: Request): View
    requires r < |v.requests|
  {
    v.(requests := v.requests[r := request])
  }

  /** `refresh()`: join the attempt there is, or begin one. */
  function RefreshCalled(v: View): View {
    if v.refreshing.Some? then v
    else
      v.(refreshing := Some(|v.flights|),
         flights := v.flights + [Flight(v.current, v.jar, InAir, v.nextSession, None)])
  }

  /** `apiFetch`: a GET that is in flight is never asked again. */
  function FetchCalled(v: View, path: string, get: bool): View {
    if get && path in v.inflight then v
    else
      var v1 := v.(requests := v.requests + [Request(path, get, Asked, 1)]);
      if get then v1.(inflight := v.inflight[path := |v.requests|]) else v1
  }

  /** A dispatch ends, and with it the sharing of its answer. */
  function Ended(v: View, r: nat): View
    requires r < |v.requests|
  {
    var request := v.requests[r];
    var v1 := WithRequest(v, r, request.(phase := Finished));
    if request.get then v1.(inflight := v.inflight - {request.path}) else v1
  }

  /** The first answer: a 401 waits on a refresh, anything else (or no answer) ends the dispatch. */
  function FirstAnswer(v: View, r: nat, unauthorized: bool): View
    requires r < |v.requests|
  {
    if !unauthorized then Ended(v, r) else
    var v1 := RefreshCalled(v);
    WithRequest(v1, r, v1.requests[r].(phase := Waiting(if v1.refreshing.Some? then v1.refreshing.value else 0)))
  }

  /** The gateway honours one cookie, once. */
  function Judged(v: View, f: nat): View
    requires f < |v.flights|
  {
    var flight := v.flights[f];
    if flight.presented.Some? && flight.presented == v.honoured then
      var v1 := v.(honoured := Some(v.nextCookie), nextCookie := v.nextCookie + 1,
                  spent := v.spent + {flight.presented.value});
      WithFlight(v1, f, flight.(phase := Served(Rotated(v.nextCookie)), answered := Some(Rotated(v.nextCookie))))
    else WithFlight(v, f, flight.(phase := Served(Refusal), answered := Some(Refusal)))
  }

  /** The answer reaches the browser, which keeps the cookie before anything else happens. */
  function Arrived(v: View, f: nat): View
    requires f < |v.flights| && v.flights[f].phase.Served?
  {
    var verdict := v.flights[f].phase.verdict;
    var v1 := WithFlight(v, f, v.flights[f].(phase := Landed(verdict)));
    if verdict.Rotated? then v1.(jar := Some(verdict.cookie)) else v1
  }

  function Kept(v: View): View {
    v.(current := Some(v.nextSession), nextSession := v.nextSession + 1)
  }

  /** What a refresh makes of its answer. A refused one looks for a session that arrived while it was in flight. */
  function OutcomeOf(flight: Flight, current: Option<Serial>, upcoming: Serial, readable: bool): Outcome
    requires flight.phase.Landed?
  {
    match flight.phase.verdict
    case Rotated(_) => if readable then Got(upcoming) else NoAnswer
    case Refusal => if current.Some? && current != flight.before then Got(current.value) else Nobody
    case _ => NoAnswer
  }

  /** The rest of `refreshFromCookie`, and the end of the attempt. */
  function Concluded(v: View, f: nat, readable: bool): View
    requires f < |v.flights| && v.flights[f].phase.Landed?
  {
    var flight := v.flights[f];
    var outcome := OutcomeOf(flight, v.current, v.nextSession, readable);
    var v1 := if flight.phase.verdict.Rotated? && readable then Kept(v) else v;
    WithFlight(v1.(refreshing := None), f, flight.(phase := Over(outcome)))
  }

  /** A waiting dispatch goes on: retry once, or end; only `Nobody` ends the session. */
  function Resumed(v: View, r: nat): View
    requires r < |v.requests| && v.requests[r].phase.Waiting? && v.requests[r].phase.flight < |v.flights|
    requires v.flights[v.requests[r].phase.flight].phase.Over?
  {
    match v.flights[v.requests[r].phase.flight].phase.outcome
    case Got(session) =>
      WithRequest(v, r, v.requests[r].(phase := Retrying(session), sends := v.requests[r].sends + 1))
    case Nobody => Ended(v.(current := None, expired := v.expired + 1), r)
    case NoAnswer => Ended(v, r)
  }

  /**
   `Break` and `Hush` are a refresh the gateway fails to answer, or whose answer
   is lost, before or after it was judged. `SessionArrives` and `SessionLeaves`
   are a sign-in, a change of workspace or a sign-out elsewhere in the console;
   the last three events are the gateway and the browser acting on their own.
   */
  predicate Enabled(v: View, e: Event) {
    match e
    case Answered(r, _) => r < |v.requests| && v.requests[r].phase.Asked?
    case Serve(f) => f < |v.flights| && v.flights[f].phase.InAir?
    case Break(f) => f < |v.flights| && (v.flights[f].phase.InAir? || v.flights[f].phase.Served?)
    case Hush(f) => f < |v.flights| && (v.flights[f].phase.InAir? || v.flights[f].phase.Served?)
    case Land(f) => f < |v.flights| && v.flights[f].phase.Served?
    case Conclude(f, _) => f < |v.flights| && v.flights[f].phase.Landed?
    case Resume(r) =>
      && r < |v.requests| && v.requests[r].phase.Waiting? && v.requests[r].phase.flight < |v.flights|
      && v.flights[v.requests[r].phase.flight].phase.Over?
    case RetryAnswered(r) => r < |v.requests| && v.requests[r].phase.Retrying?
    case _ => true
  }

  function Next(v: View, e: Event): View
    requires Enabled(v, e)
  {
    match e
    case Fetch(path, get) => FetchCalled(v, path, get)
    case Answered(r, unauthorized) => FirstAnswer(v, r, unauthorized)
    case Wake => RefreshCalled(v)
    case Serve(f) => Judged(v, f)
    case Break(f) => WithFlight(v, f, v.flights[f].(phase := Served(Trouble), answered := Some(Trouble)))
    case Hush(f) => WithFlight(v, f, v.flights[f].(phase := Served(Silence), answered := Some(Silence)))
    case Land(f) => Arrived(v, f)
    case Conclude(f, readable) => Concluded(v, f, readable)
    case Resume(r) => Resumed(v, r)
    case RetryAnswered(r) => Ended(v, r)
    case SessionArrives => Kept(v)
    case SessionLeaves => v.(current := None)
    case Revoke => v.(honoured := None)
    case ElsewhereRotated =>
      v.(honoured := Some(v.nextCookie), nextCookie := v.nextCookie + 1,
         spent := if v.honoured.Some? then v.spent + {v.honoured.value} else v.spent)
    case JarChanged(jar) => v.(jar := jar)
  }
}
