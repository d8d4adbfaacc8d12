/** What the console's session promises, in every state of every run. */
module SessionTheorems {
  import opened Wrappers
  import opened Session

  // ------------------------------------------------------------ the invariant

  /** Every refresh that has not concluded is the one everyone joins. */
  ghost predicate SingleFlight(v: View) {
    && (v.refreshing.Some? ==> v.refreshing.value < |v.flights|)
    && (forall f :: 0 <= f < |v.flights| ==> (v.refreshing == Some(f) <==> !v.flights[f].phase.Over?))
  }

  /** Every GET that has not finished is the one its path is shared through. */
  ghost predicate SharedGets(v: View) {
    && (forall r :: 0 <= r < |v.requests| && v.requests[r].get && !v.requests[r].phase.Finished? ==>
          v.requests[r].path in v.inflight && v.inflight[v.requests[r].path] == r)
    && (forall path :: path in v.inflight ==>
          v.inflight[path] < |v.requests| && v.requests[v.inflight[path]].path == path
          && v.requests[v.inflight[path]].get && !v.requests[v.inflight[path]].phase.Finished?)
  }

  ghost predicate RequestsOk(v: View) {
    forall r :: 0 <= r < |v.requests| ==>
      && 1 <= v.requests[r].sends <= (if v.requests[r].phase.Retrying? || v.requests[r].phase.Finished? then 2 else 1)
      && (v.requests[r].phase.Waiting? ==> v.requests[r].phase.flight < |v.flights|)
  }

  /** What a refresh concluded is what it was answered; what it got is a session that arrived after it began. */
  predicate FlightOk(flight: Flight) {
    && (flight.phase.InAir? <==> flight.answered.None?)
    && (flight.phase.Served? || flight.phase.Landed? ==> flight.answered == Some(flight.phase.verdict))
    && (flight.before.Some? ==> flight.before.value + 1 == flight.born)
    && (flight.phase.Over? ==>
          match flight.phase.outcome
          case Got(session) =>
            (flight.answered.value.Rotated? || flight.answered.value.Refusal?) && session >= flight.born
          case Nobody => flight.answered.value.Refusal?
          case NoAnswer => !flight.answered.value.Refusal?)
  }

  /** Sessions come one after another, and the one held is the last there was. */
  ghost predicate SerialsOk(v: View) {
    && (v.current.Some? ==> v.current.value + 1 == v.nextSession)
    && (forall f :: 0 <= f < |v.flights| ==> BirthOk(v.flights[f], v.current, v.nextSession))
  }

  /** A refresh in flight since the last session arrived still holds the session it began with, if any is held. */
  predicate BirthOk(flight: Flight, current: Option<Serial>, upcoming: Serial) {
    && flight.born <= upcoming
    && (!flight.phase.Over? && current.Some? && flight.born == upcoming ==> flight.before == current)
  }

  ghost predicate FlightsOk(v: View) {
    forall f :: 0 <= f < |v.flights| ==> FlightOk(v.flights[f])
  }

  ghost predicate Inv(v: View) {
    SingleFlight(v) && SharedGets(v) && RequestsOk(v) && SerialsOk(v) && FlightsOk(v)
  }

  lemma RefreshKeeps(v: View)
    requires Inv(v)
    ensures Inv(RefreshCalled(v)) && RefreshCalled(v).refreshing.Some?
  {}

  lemma FetchKeeps(v: View, path: string, get: bool)
    requires Inv(v)
    ensures Inv(FetchCalled(v, path, get))
  {}

  lemma EndKeeps(v: View, r: nat)
    requires Inv(v) && r < |v.requests| && !v.requests[r].phase.Finished?
    ensures Inv(Ended(v, r))
  {}

  lemma FirstAnswerKeeps(v: View, r: nat, unauthorized: bool)
    requires Inv(v) && r < |v.requests| && v.requests[r].phase.Asked?
    ensures Inv(FirstAnswer(v, r, unauthorized))
  {
    if unauthorized { RefreshKeeps(v); } else { EndKeeps(v, r); }
  }

  lemma FlightKeeps(v: View, f: nat, flight: Flight)
    requires Inv(v) && f < |v.flights| && FlightOk(flight)
    requires flight.before == v.flights[f].before && flight.born == v.flights[f].born
    requires flight.phase.Over? <==> v.flights[f].phase.Over?
    ensures Inv(WithFlight(v, f, flight))
  {}

  lemma ConcludeKeeps(v: View, f: nat, readable: bool)
    requires Inv(v) && f < |v.flights| && v.flights[f].phase.Landed?
    ensures Inv(Concluded(v, f, readable))
  {}

  lemma ResumeKeeps(v: View, r: nat)
    requires Inv(v) && Enabled(v, Resume(r))
    ensures Inv(Resumed(v, r))
  {
    match v.flights[v.requests[r].phase.flight].phase.outcome
    case Nobody => EndKeeps(v.(current := None, expired := v.expired + 1), r);
    case NoAnswer => EndKeeps(v, r);
    case Got(_) =>
  }

  /** The gateway, the browser and the rest of the console change no refresh but the one they answer. */
  lemma WorldKeeps(v: View, e: Event)
    requires Inv(v) && Enabled(v, e)
    requires e.Serve? || e.Break? || e.Hush? || e.Land?
    ensures Inv(Next(v, e))
  {
    FlightKeeps(v, e.f, Next(v, e).flights[e.f]);
  }

  lemma StepKeeps(v: View, e: Event)
    requires Inv(v) && Enabled(v, e)
    ensures Inv(Next(v, e))
  {
    match e
    case Fetch(path, get) => FetchKeeps(v, path, get);
    case Answered(r, unauthorized) => FirstAnswerKeeps(v, r, unauthorized);
    case Wake => RefreshKeeps(v);
    case Conclude(f, readable) => ConcludeKeeps(v, f, readable);
    case Resume(r) => ResumeKeeps(v, r);
    case RetryAnswered(r) => EndKeeps(v, r);
    case SessionArrives =>
    case SessionLeaves =>
    case Revoke =>
    case ElsewhereRotated =>
    case JarChanged(_) =>
    case _ => WorldKeeps(v, e);
  }

  // ------------------------------------------------------------------- runs

  ghost predicate StepAt(views: seq<View>, events: seq<Event>, i: nat)
    requires |views| == |events| + 1 && i < |events|
  {
    Enabled(views[i], events[i]) && views[i + 1] == Next(views[i], events[i])
  }

  ghost predicate IsRun(views: seq<View>, events: seq<Event>) {
    && |views| == |events| + 1 && IsFresh(views[0])
    && forall i :: 0 <= i < |events| ==> StepAt(views, events, i)
  }

  lemma {:induction false} InvOnRun(views: seq<View>, events: seq<Event>, i: nat)
    requires IsRun(views, events) && i < |views|
    ensures Inv(views[i])
  {
    if i > 0 {
      InvOnRun(views, events, i - 1);
      assert StepAt(views, events, i - 1);
      StepKeeps(views[i - 1], events[i - 1]);
    }
  }

  /**
   At most one refresh is in flight, for any number of callers; and at most one GET for each path,
   nothing sent more than twice.
   */
  lemma OneRefreshAtATime(views: seq<View>, events: seq<Event>, i: nat)
    requires IsRun(views, events) && i < |views|
    ensures forall f, g :: 0 <= f < g < |views[i].flights| ==>
      views[i].flights[f].phase.Over? || views[i].flights[g].phase.Over?
    ensures forall r, q :: 0 <= r < q < |views[i].requests| && views[i].requests[r].get && views[i].requests[q].get ==>
      || views[i].requests[r].phase.Finished? || views[i].requests[q].phase.Finished?
      || views[i].requests[r].path != views[i].requests[q].path
    ensures forall r :: 0 <= r < |views[i].requests| ==> views[i].requests[r].sends <= 2
  {
    InvOnRun(views, events, i);
  }

  // ------------------------------------------------------ what a request does

  /** A GET of this path is under way. */
  ghost predicate UnderWay(v: View, path: string) {
    exists r ::
      0 <= r < |v.requests| && v.requests[r].get && v.requests[r].path == path && !v.requests[r].phase.Finished?
  }

  /** A call sends one request, unless it is a GET and one of its path is under way; and then it sends none. */
  lemma SendsExactly(views: seq<View>, events: seq<Event>, i: nat)
    requires IsRun(views, events) && i < |events| && events[i].Fetch?
    ensures
      var path, get := events[i].path, events[i].get;
      views[i + 1].requests ==
        views[i].requests + (if get && UnderWay(views[i], path) then [] else [Request(path, get, Asked, 1)])
  {
    InvOnRun(views, events, i);
    assert StepAt(views, events, i);
  }

  /**
   Every 401 waits on a refresh: the one under way, or one that begins with the
   session and the cookie of that moment. Any other answer ends the request,
   sent once.
   */
  lemma FirstAnswerExactly(views: seq<View>, events: seq<Event>, i: nat)
    requires IsRun(views, events) && i < |events| && events[i].Answered?
    ensures
      var v, v', r := views[i], views[i + 1], events[i].r;
      && r < |v.requests| && r < |v'.requests|
      && (!events[i].unauthorized ==> v'.requests[r] == v.requests[r].(phase := Finished) && v'.requests[r].sends == 1)
      && (events[i].unauthorized ==>
            && v'.refreshing.Some? && v'.refreshing.value < |v'.flights|
            && v'.requests[r] == v.requests[r].(phase := Waiting(v'.refreshing.value))
            && (v.refreshing.Some? ==> v'.refreshing == v.refreshing && v'.flights == v.flights)
            && (v.refreshing.None? ==>
                  v'.flights == v.flights + [Flight(v.current, v.jar, InAir, v.nextSession, None)]))
  {
    InvOnRun(views, events, i);
    assert StepAt(views, events, i);
  }

  /** A retry is the second sending, and its answer ends the request whatever it is. */
  lemma RetryEnds(views: seq<View>, events: seq<Event>, i: nat)
    requires IsRun(views, events) && i < |events| && events[i].RetryAnswered?
    ensures
      var r := events[i].r;
      && r < |views[i].requests| && views[i].requests[r].phase.Retrying? && views[i].requests[r].sends == 2
      && r < |views[i + 1].requests| && views[i + 1].requests[r] == views[i].requests[r].(phase := Finished)
  {
    SendsCounted(views, events, i);
    assert StepAt(views, events, i);
  }

  /** Sent once up to the refresh, and twice in a retry. */
  ghost predicate SendsOk(v: View) {
    forall r :: 0 <= r < |v.requests| ==>
      && (v.requests[r].phase.Asked? || v.requests[r].phase.Waiting? ==> v.requests[r].sends == 1)
      && (v.requests[r].phase.Retrying? ==> v.requests[r].sends == 2)
  }

  lemma SendsStep(v: View, e: Event)
    requires Enabled(v, e) && SendsOk(v)
    ensures SendsOk(Next(v, e))
  {}

  lemma {:induction false} SendsCounted(views: seq<View>, events: seq<Event>, i: nat)
    requires IsRun(views, events) && i < |views|
    ensures SendsOk(views[i])
  {
    if i > 0 {
      SendsCounted(views, events, i - 1);
      assert StepAt(views, events, i - 1);
      SendsStep(views[i - 1], events[i - 1]);
    }
  }

  /**
   The event ends request `r`: an answer that is no 401, the answer to its
   retry, or a refresh that got no session.
   */
  predicate Ends(v: View, e: Event, r: nat) {
    match e
    case Answered(q, unauthorized) => q == r && !unauthorized
    case RetryAnswered(q) => q == r
    case Resume(q) =>
      && q == r && r < |v.requests| && v.requests[r].phase.Waiting?
      && var f := v.requests[r].phase.flight;
         f < |v.flights| && v.flights[f].phase.Over? && !v.flights[f].phase.outcome.Got?
    case _ => false
  }

  ghost predicate EndedBy(views: seq<View>, events: seq<Event>, j: nat, r: nat)
    requires |views| == |events| + 1 && j < |events|
  {
    Ends(views[j], events[j], r)
  }

  lemma EndFinishes(v: View, q: nat, r: nat)
    requires q < |v.requests|
    ensures |Ended(v, q).requests| == |v.requests|
    ensures r < |v.requests| ==>
      (Ended(v, q).requests[r].phase.Finished? <==> v.requests[r].phase.Finished? || q == r)
  {}

  lemma FirstAnswerFinishes(v: View, q: nat, unauthorized: bool, r: nat)
    requires q < |v.requests| && v.requests[q].phase.Asked?
    ensures |FirstAnswer(v, q, unauthorized).requests| == |v.requests|
    ensures r < |v.requests| ==>
      (FirstAnswer(v, q, unauthorized).requests[r].phase.Finished? <==>
       v.requests[r].phase.Finished? || (q == r && !unauthorized))
  {
    if !unauthorized { EndFinishes(v, q, r); }
  }

  lemma ResumeFinishes(v: View, q: nat, r: nat)
    requires Enabled(v, Resume(q))
    ensures |Resumed(v, q).requests| == |v.requests|
    ensures r < |v.requests| ==>
      (Resumed(v, q).requests[r].phase.Finished? <==> v.requests[r].phase.Finished? || Ends(v, Resume(q), r))
  {
    if v.flights[v.requests[q].phase.flight].phase.outcome.Nobody? {
      EndFinishes(v.(current := None, expired := v.expired + 1), q, r);
    }
  }

  /** What the events that answer requests make of each. */
  lemma AnswersFinish(v: View, e: Event, r: nat)
    requires Enabled(v, e) && (e.Answered? || e.RetryAnswered? || e.Resume?)
    ensures |Next(v, e).requests| == |v.requests|
    ensures r < |v.requests| ==>
      (Next(v, e).requests[r].phase.Finished? <==> v.requests[r].phase.Finished? || Ends(v, e, r))
  {
    match e
    case Answered(q, unauthorized) => FirstAnswerFinishes(v, q, unauthorized, r);
    case Resume(q) => ResumeFinishes(v, q, r);
    case RetryAnswered(q) => EndFinishes(v, q, r);
  }

  /** And the others: they send one, or none. */
  lemma OthersFinishNothing(v: View, e: Event)
    requires Enabled(v, e) && !e.Answered? && !e.RetryAnswered? && !e.Resume?
    ensures v.requests <= Next(v, e).requests
    ensures forall r :: |v.requests| <= r < |Next(v, e).requests| ==> !Next(v, e).requests[r].phase.Finished?
  {}

  lemma FinishesByStep(views: seq<View>, events: seq<Event>, j: nat, r: nat)
    requires IsRun(views, events) && j < |events|
    ensures EndedBy(views, events, j, r) ==> r < |views[j].requests|
    ensures r < |views[j].requests| ==> r < |views[j + 1].requests|
    ensures r < |views[j].requests| ==>
      (views[j + 1].requests[r].phase.Finished? <==>
       views[j].requests[r].phase.Finished? || EndedBy(views, events, j, r))
    ensures |views[j].requests| <= r < |views[j + 1].requests| ==> !views[j + 1].requests[r].phase.Finished?
  {
    assert StepAt(views, events, j);
    var v, e := views[j], events[j];
    if e.Answered? || e.RetryAnswered? || e.Resume? { AnswersFinish(v, e, r); } else { OthersFinishNothing(v, e); }
  }

  /** A request is finished exactly when it was so answered: in particular never by its first 401 alone. */
  lemma {:induction false} FinishedExactly(views: seq<View>, events: seq<Event>, i: nat, r: nat)
    requires IsRun(views, events) && i < |views|
    ensures r < |views[i].requests| && views[i].requests[r].phase.Finished? <==>
      exists j :: 0 <= j < i && EndedBy(views, events, j, r)
  {
    if i > 0 {
      FinishedExactly(views, events, i - 1, r);
      FinishesByStep(views, events, i - 1, r);
    }
  }

  /**
   What a refresh comes to. A new cookie and a readable answer leave a new
   session held, which is what everyone who waited gets; anything else leaves
   the session as it is, and a refusal alone is told from no answer.
   */
  lemma ConcludesExactly(views: seq<View>, events: seq<Event>, i: nat)
    requires IsRun(views, events) && i < |events| && events[i].Conclude?
    ensures
      var v, v', f := views[i], views[i + 1], events[i].f;
      && f < |v.flights| && v.flights[f].answered.Some? && f < |v'.flights| && v'.flights[f].phase.Over?
      && v'.refreshing.None?
      && var answer, outcome := v.flights[f].answered.value, v'.flights[f].phase.outcome;
      && (if answer.Rotated? && events[i].readable
          then outcome == Got(v.nextSession) && v'.current == Some(v.nextSession) && v'.nextSession == v.nextSession + 1
          else v'.current == v.current && v'.nextSession == v.nextSession)
      && (!(answer.Rotated? && events[i].readable) && !answer.Refusal? ==> outcome == NoAnswer)
      && (answer.Refusal? ==>
            outcome == if v.current.Some? && v.nextSession > v.flights[f].born then Got(v.current.value) else Nobody)
  {
    InvOnRun(views, events, i);
    assert StepAt(views, events, i);
    assert FlightOk(views[i].flights[events[i].f]);
    if views[i].flights[events[i].f].answered == Some(Refusal) {
      RefusalDefersToAnArrival(views[i], events[i].f, events[i].readable);
    }
  }

  // -------------------------------------------------- who ends the session

  /** Refresh `f` was refused, and no session had arrived since it began: or none was held any more. */
  ghost predicate EndedByRefusal(views: seq<View>, events: seq<Event>, j: nat, f: nat)
    requires |views| == |events| + 1 && j < |events|
  {
    && events[j].Conclude? && events[j].f == f && f < |views[j].flights|
    && views[j].flights[f].answered == Some(Refusal)
    && (views[j].current.None? || views[j].nextSession == views[j].flights[f].born)
  }

  /** A refresh is over because it was over, or was concluded just now. */
  lemma OverByConclusion(v: View, e: Event, f: nat)
    requires Enabled(v, e) && f < |Next(v, e).flights| && Next(v, e).flights[f].phase.Over?
    ensures f < |v.flights| && (Next(v, e).flights[f] == v.flights[f] || (e.Conclude? && e.f == f))
  {}

  lemma ConcludedNobody(v: View, e: Event, f: nat)
    requires Inv(v) && Enabled(v, e) && f < |Next(v, e).flights| && Next(v, e).flights[f].phase == Over(Nobody)
    ensures || (f < |v.flights| && v.flights[f].phase == Over(Nobody))
            || (e.Conclude? && e.f == f && f < |v.flights| && v.flights[f].answered == Some(Refusal)
                && (v.current.None? || v.nextSession == v.flights[f].born))
  {
    OverByConclusion(v, e, f);
  }

  lemma {:induction false} NobodyWasRefused(views: seq<View>, events: seq<Event>, i: nat, f: nat)
    requires IsRun(views, events) && i < |views| && f < |views[i].flights| && views[i].flights[f].phase == Over(Nobody)
    ensures exists j :: 0 <= j < i && EndedByRefusal(views, events, j, f)
  {
    if i > 0 {
      InvOnRun(views, events, i - 1);
      assert StepAt(views, events, i - 1);
      ConcludedNobody(views[i - 1], events[i - 1], f);
      if EndedByRefusal(views, events, i - 1, f) {
      } else {
        NobodyWasRefused(views, events, i - 1, f);
      }
    }
  }

  /**
   Handling requests and refreshing end a session only on a refusal: never on
   silence, never on a 5xx, and not when a session that arrived during the
   refused attempt was still held when it was refused.
   */
  lemma OnlyARefusalEndsTheSession(views: seq<View>, events: seq<Event>, i: nat)
    requires IsRun(views, events) && i < |events| && !events[i].SessionLeaves?
    requires views[i].current.Some? && views[i + 1].current.None?
    ensures
      && events[i].Resume? && events[i].r < |views[i].requests| && views[i].requests[events[i].r].phase.Waiting?
      && exists j :: 0 <= j < i && EndedByRefusal(views, events, j, views[i].requests[events[i].r].phase.flight)
  {
    assert StepAt(views, events, i);
    assert events[i].Resume?;
    NobodyWasRefused(views, events, i, views[i].requests[events[i].r].phase.flight);
  }

  /** A refusal hands everyone who waited the session that arrived meanwhile, if there is one. */
  lemma RefusalDefersToAnArrival(v: View, f: nat, readable: bool)
    requires Inv(v) && Enabled(v, Conclude(f, readable)) && v.flights[f].answered == Some(Refusal)
    ensures
      var outcome := Next(v, Conclude(f, readable)).flights[f].phase.outcome;
      if v.current.Some? && v.nextSession > v.flights[f].born
      then outcome == Got(v.current.value)
      else outcome == Nobody
  {}

  /** A refresh that has concluded stays as it was concluded. */
  lemma OverStep(v: View, e: Event, f: nat)
    requires Enabled(v, e) && f < |v.flights| && v.flights[f].phase.Over?
    ensures f < |Next(v, e).flights| && Next(v, e).flights[f] == v.flights[f]
  {}

  lemma {:induction false} OverStays(views: seq<View>, events: seq<Event>, i: nat, j: nat, f: nat)
    requires IsRun(views, events) && i <= j < |views| && f < |views[i].flights| && views[i].flights[f].phase.Over?
    ensures f < |views[j].flights| && views[j].flights[f] == views[i].flights[f]
    decreases j
  {
    if i < j {
      OverStays(views, events, i, j - 1, f);
      assert StepAt(views, events, j - 1);
      OverStep(views[j - 1], events[j - 1], f);
    }
  }

  /** What a waiting request makes of the outcome: it is sent once more under the session got, or it ends. */
  predicate GoesOnWith(before: Request, outcome: Outcome, after: Request) {
    if outcome.Got? then after == before.(phase := Retrying(outcome.session), sends := 2) else after.phase.Finished?
  }

  lemma ResumeGoesOn(v: View, r: nat)
    requires Inv(v) && Enabled(v, Resume(r))
    ensures r < |Next(v, Resume(r)).requests|
    ensures GoesOnWith(v.requests[r], v.flights[v.requests[r].phase.flight].phase.outcome,
                       Next(v, Resume(r)).requests[r])
  {}

  /** All who waited on one refresh go on with one outcome, however far apart their turns come. */
  lemma WaitersShareTheAnswer(views: seq<View>, events: seq<Event>, i: nat, j: nat, f: nat)
    requires IsRun(views, events) && i <= j < |events| && events[i].Resume? && events[j].Resume?
    requires events[i].r < |views[i].requests| && views[i].requests[events[i].r].phase == Waiting(f)
    requires events[j].r < |views[j].requests| && views[j].requests[events[j].r].phase == Waiting(f)
    ensures
      && f < |views[i].flights| && views[i].flights[f].phase.Over?
      && var outcome := views[i].flights[f].phase.outcome;
      && events[i].r < |views[i + 1].requests| && events[j].r < |views[j + 1].requests|
      && GoesOnWith(views[i].requests[events[i].r], outcome, views[i + 1].requests[events[i].r])
      && GoesOnWith(views[j].requests[events[j].r], outcome, views[j + 1].requests[events[j].r])
  {
    InvOnRun(views, events, i);
    InvOnRun(views, events, j);
    assert StepAt(views, events, i) && StepAt(views, events, j);
    OverStays(views, events, i, j, f);
    ResumeGoesOn(views[i], events[i].r);
    ResumeGoesOn(views[j], events[j].r);
  }

  lemma RefusedIsNobody(views: seq<View>, events: seq<Event>, j: nat, f: nat)
    requires IsRun(views, events) && j < |events| && EndedByRefusal(views, events, j, f)
    ensures f < |views[j + 1].flights| && views[j + 1].flights[f].phase == Over(Nobody)
  {
    InvOnRun(views, events, j);
    assert StepAt(views, events, j);
    assert FlightOk(views[j].flights[f]) && BirthOk(views[j].flights[f], views[j].current, views[j].nextSession);
  }

  /**
   Exactly when the session held is ended by a waiting request that goes on:
   when the refresh it waited on was refused, and at that moment no session had
   arrived since it began, or none was held any more. What is ended may by then
   be a session that arrived after the refusal: it is, exactly if one did.
   */
  lemma SessionEndsExactly(views: seq<View>, events: seq<Event>, i: nat)
    requires IsRun(views, events) && i < |events| && events[i].Resume? && views[i].current.Some?
    ensures events[i].r < |views[i].requests| && views[i].requests[events[i].r].phase.Waiting?
    ensures
      var f := views[i].requests[events[i].r].phase.flight;
      && (views[i + 1].current.None? <==> exists j :: 0 <= j < i && EndedByRefusal(views, events, j, f))
      && views[i + 1].expired == views[i].expired + (if views[i + 1].current.None? then 1 else 0)
      && (forall j :: 0 <= j < i && EndedByRefusal(views, events, j, f) ==>
            (views[i].current.value >= views[j].nextSession <==> views[i].nextSession > views[j].nextSession))
  {
    assert StepAt(views, events, i);
    InvOnRun(views, events, i);
    var f := views[i].requests[events[i].r].phase.flight;
    if views[i + 1].current.None? { OnlyARefusalEndsTheSession(views, events, i); }
    if j :| 0 <= j < i && EndedByRefusal(views, events, j, f) {
      RefusedIsNobody(views, events, j, f);
      OverStays(views, events, j + 1, i, f);
    }
  }

  // A run in which a refresh is refused, and a sign-in falls between its end and the waiting request's turn.

  const GAP_EVENTS := [Fetch("/v1/me", false), Answered(0, true), Serve(0), Land(0),
                       Conclude(0, true), SessionArrives, Resume(0)]

  function GapView(i: nat): View {
    var v0 := View(None, None, map[], [], [], 0, 0, None, None, 0, {});
    var refused := Flight(None, None, InAir, 0, Some(Refusal));
    var waiting := v0.(requests := [Request("/v1/me", false, Waiting(0), 1)], refreshing := Some(0));
    if i == 0 then v0
    else if i == 1 then v0.(requests := [Request("/v1/me", false, Asked, 1)])
    else if i == 2 then waiting.(flights := [Flight(None, None, InAir, 0, None)])
    else if i == 3 then waiting.(flights := [refused.(phase := Served(Refusal))])
    else if i == 4 then waiting.(flights := [refused.(phase := Landed(Refusal))])
    else
      var over := waiting.(flights := [refused.(phase := Over(Nobody))], refreshing := None);
      if i == 5 then over
      else if i == 6 then over.(current := Some(0), nextSession := 1)
      else over.(nextSession := 1, expired := 1, requests := [Request("/v1/me", false, Finished, 1)])
  }

  lemma GapStep(i: nat)
    requires i < |GAP_EVENTS|
    ensures Enabled(GapView(i), GAP_EVENTS[i]) && GapView(i + 1) == Next(GapView(i), GAP_EVENTS[i])
  {}

  /**
   What is not promised: a session that arrives after the refusal is concluded, and before a waiting
   request goes on, is ended with the old.
   */
  lemma ArrivalInTheGapIsLost()
    ensures exists views: seq<View>, events: seq<Event> ::
      && IsRun(views, events) && |events| == 7 && events[5].SessionArrives? && events[6].Resume?
      && views[6].current.Some? && views[7].current.None?
  {
    var views := seq(8, i requires 0 <= i < 8 => GapView(i));
    forall i | 0 <= i < |GAP_EVENTS| ensures StepAt(views, GAP_EVENTS, i) {
      assert views[i] == GapView(i) && views[i + 1] == GapView(i + 1);
      GapStep(i);
    }
    assert views[0] == GapView(0) && views[6] == GapView(6) && views[7] == GapView(7);
    assert IsRun(views, GAP_EVENTS);
  }

  // ------------------------------------------------------- the single-use cookie

  predicate Unspent(cookie: Option<Cookie>, spent: set<Cookie>) {
    cookie.Some? ==> cookie.value !in spent
  }

  /** Only refresh rotates the cookie, no spent one is put back, and every answer that rotated it is delivered. */
  predicate Quiet(v: View, e: Event) {
    && !e.ElsewhereRotated?
    && (e.JarChanged? ==> Unspent(e.jar, v.spent) && (e.jar.Some? ==> e.jar.value < v.nextCookie))
    && (e.Break? || e.Hush? ==>
          e.f < |v.flights| && !(v.flights[e.f].phase.Served? && v.flights[e.f].phase.verdict.Rotated?))
  }

  predicate CookieOk(flight: Flight, spent: set<Cookie>) {
    && (flight.phase.InAir? ==> Unspent(flight.presented, spent))
    && (flight.phase.Served? && flight.phase.verdict.Rotated? ==> flight.phase.verdict.cookie !in spent)
  }

  ghost predicate RotationInTransit(v: View) {
    exists f :: 0 <= f < |v.flights| && v.flights[f].phase.Served? && v.flights[f].phase.verdict.Rotated?
  }

  ghost predicate CookiesOk(v: View) {
    && (forall c :: c in v.spent ==> c < v.nextCookie)
    && (v.honoured.Some? ==> v.honoured.value !in v.spent && v.honoured.value < v.nextCookie)
    && (RotationInTransit(v) || Unspent(v.jar, v.spent))
    && (forall f :: 0 <= f < |v.flights| ==> CookieOk(v.flights[f], v.spent))
  }

  lemma JudgedCookies(v: View, f: nat)
    requires Inv(v) && CookiesOk(v) && Enabled(v, Serve(f))
    ensures CookiesOk(Judged(v, f))
  {
    var v' := Judged(v, f);
    assert v.refreshing == Some(f);
    forall g | 0 <= g < |v.flights| ensures v.flights[g].phase.Over? || (g == f && v.flights[g].phase.InAir?) {}
    if v.flights[f].presented.Some? && v.flights[f].presented == v.honoured {
      assert v'.flights[f].phase.Served?;
    }
  }

  lemma LandedCookies(v: View, f: nat)
    requires Inv(v) && CookiesOk(v) && Enabled(v, Land(f))
    ensures CookiesOk(Arrived(v, f))
  {}

  /** Nothing else puts a rotation on its way, or stops one. */
  lemma TransitStays(v: View, e: Event)
    requires Inv(v) && Enabled(v, e) && Quiet(v, e) && !e.Serve? && !e.Land? && RotationInTransit(v)
    ensures RotationInTransit(Next(v, e))
  {}

  lemma OtherCookies(v: View, e: Event, f: nat)
    requires CookiesOk(v) && Enabled(v, e) && Quiet(v, e) && !e.Serve? && !e.Land?
    requires f < |Next(v, e).flights| && (f < |v.flights| || !RotationInTransit(v))
    ensures CookieOk(Next(v, e).flights[f], v.spent)
  {}

  lemma OtherJar(v: View, e: Event)
    requires Inv(v) && CookiesOk(v) && Enabled(v, e) && Quiet(v, e) && !e.Serve? && !e.Land?
    ensures Next(v, e).spent == v.spent && Next(v, e).nextCookie == v.nextCookie
    ensures Next(v, e).honoured == v.honoured || Next(v, e).honoured.None?
    ensures RotationInTransit(Next(v, e)) || Unspent(Next(v, e).jar, v.spent)
  {
    if RotationInTransit(v) { TransitStays(v, e); }
  }

  lemma CookiesStep(v: View, e: Event)
    requires Inv(v) && CookiesOk(v) && Enabled(v, e) && Quiet(v, e)
    ensures CookiesOk(Next(v, e))
  {
    if e.Serve? {
      JudgedCookies(v, e.f);
    } else if e.Land? {
      LandedCookies(v, e.f);
    } else {
      OtherJar(v, e);
      forall f | 0 <= f < |Next(v, e).flights| ensures CookieOk(Next(v, e).flights[f], v.spent) {
        if f >= |v.flights| { assert v.refreshing.None?; }
        OtherCookies(v, e, f);
      }
    }
  }

  lemma {:induction false} CookiesOnRun(views: seq<View>, events: seq<Event>, i: nat)
    requires IsRun(views, events) && i < |views| && forall k :: 0 <= k < i ==> Quiet(views[k], events[k])
    ensures CookiesOk(views[i])
  {
    if i > 0 {
      CookiesOnRun(views, events, i - 1);
      InvOnRun(views, events, i - 1);
      assert StepAt(views, events, i - 1);
      CookiesStep(views[i - 1], events[i - 1]);
    }
  }

  /**
   With one refresh at a time, no refresh presents a cookie that was already spent: so none is refused
   as a duplicate.
   */
  lemma NoDuplicateIsRefused(views: seq<View>, events: seq<Event>, i: nat, f: nat)
    requires IsRun(views, events) && i < |views| && forall k :: 0 <= k < i ==> Quiet(views[k], events[k])
    requires f < |views[i].flights| && views[i].flights[f].phase.InAir?
    ensures Unspent(views[i].flights[f].presented, views[i].spent)
  {
    CookiesOnRun(views, events, i);
    assert CookieOk(views[i].flights[f], views[i].spent);
  }

  ghost predicate PresentsSpent(v: View) {
    exists f :: 0 <= f < |v.flights| && v.flights[f].phase.InAir? && !Unspent(v.flights[f].presented, v.spent)
  }

  /** A run in which only the `k`-th event is not quiet, and a refresh presents a spent cookie in the end. */
  ghost predicate SpentByOne(views: seq<View>, events: seq<Event>, k: nat) {
    && IsRun(views, events) && k < |events|
    && (forall i :: 0 <= i < |events| && i != k ==> Quiet(views[i], events[i]))
    && PresentsSpent(views[|events|])
  }

  const LOST_EVENTS := [Wake, Serve(0), Hush(0), Land(0), Conclude(0, true), Wake]

  /** A refresh that is honoured and whose answer is lost, and the next one. */
  function LostView(i: nat): View {
    var blank := View(None, None, map[], [], [], 0, 0, Some(0), Some(0), 1, {});
    var flight := Flight(None, Some(0), InAir, 0, None);
    var rotated := flight.(phase := Served(Rotated(1)), answered := Some(Rotated(1)));
    var silent := flight.(answered := Some(Silence));
    var spent := blank.(refreshing := Some(0), honoured := Some(1), nextCookie := 2, spent := {0});
    if i == 0 then blank
    else if i == 1 then blank.(refreshing := Some(0), flights := [flight])
    else if i == 2 then spent.(flights := [rotated])
    else if i == 3 then spent.(flights := [silent.(phase := Served(Silence))])
    else if i == 4 then spent.(flights := [silent.(phase := Landed(Silence))])
    else
      var over := spent.(flights := [silent.(phase := Over(NoAnswer))], refreshing := None);
      if i == 5 then over else RefreshCalled(over)
  }

  lemma LostStep(i: nat)
    requires i < |LOST_EVENTS|
    ensures Enabled(LostView(i), LOST_EVENTS[i]) && LostView(i + 1) == Next(LostView(i), LOST_EVENTS[i])
    ensures i != 2 ==> Quiet(LostView(i), LOST_EVENTS[i])
  {}

  /** Each condition is needed. One rotation whose answer is lost leaves the browser with a spent cookie. */
  lemma LostAnswerSpendsTheCookie()
    ensures exists views: seq<View>, events: seq<Event>, k: nat :: SpentByOne(views, events, k) && events[k].Hush?
  {
    var views := seq(7, i requires 0 <= i < 7 => LostView(i));
    forall i | 0 <= i < |LOST_EVENTS|
      ensures StepAt(views, LOST_EVENTS, i) && (i != 2 ==> Quiet(views[i], LOST_EVENTS[i])) {
      assert views[i] == LostView(i) && views[i + 1] == LostView(i + 1);
      LostStep(i);
    }
    assert views[0] == LostView(0) && views[6] == LostView(6);
    assert LostView(6).flights[1].phase.InAir? && !Unspent(LostView(6).flights[1].presented, LostView(6).spent);
    assert SpentByOne(views, LOST_EVENTS, 2);
  }

  /** So does a rotation by somebody else, */
  lemma RotationElsewhereSpendsTheCookie()
    ensures exists views: seq<View>, events: seq<Event>, k: nat ::
      SpentByOne(views, events, k) && events[k].ElsewhereRotated?
  {
    var v0 := View(None, None, map[], [], [], 0, 0, Some(0), Some(0), 1, {});
    var events := [ElsewhereRotated, Wake];
    var v1 := v0.(honoured := Some(1), nextCookie := 2, spent := {0});
    var v2 := RefreshCalled(v1);
    var views := [v0, v1, v2];
    forall i | 0 <= i < |events| ensures StepAt(views, events, i) {}
    assert v2.flights[0].phase.InAir? && !Unspent(v2.flights[0].presented, v2.spent);
    assert PresentsSpent(v2) && views[|events|] == v2;
    assert SpentByOne(views, events, 0);
  }

  const JAR_EVENTS := [Wake, Serve(0), Land(0), Conclude(0, true), JarChanged(Some(0)), Wake]

  /** A refresh that is honoured and answered, the old cookie put back, and the next refresh. */
  function JarView(i: nat): View {
    var blank := View(None, None, map[], [], [], 0, 0, Some(0), Some(0), 1, {});
    var answered := Flight(None, Some(0), InAir, 0, Some(Rotated(1)));
    var spent := blank.(refreshing := Some(0), honoured := Some(1), nextCookie := 2, spent := {0});
    if i == 0 then blank
    else if i == 1 then blank.(refreshing := Some(0), flights := [answered.(answered := None)])
    else if i == 2 then spent.(flights := [answered.(phase := Served(Rotated(1)))])
    else if i == 3 then spent.(flights := [answered.(phase := Landed(Rotated(1)))], jar := Some(1))
    else
      var over := spent.(flights := [answered.(phase := Over(Got(0)))], refreshing := None,
                         current := Some(0), nextSession := 1);
      if i == 4 then over.(jar := Some(1)) else if i == 5 then over else RefreshCalled(over)
  }

  lemma JarStep(i: nat)
    requires i < |JAR_EVENTS|
    ensures Enabled(JarView(i), JAR_EVENTS[i]) && JarView(i + 1) == Next(JarView(i), JAR_EVENTS[i])
    ensures i != 4 ==> Quiet(JarView(i), JAR_EVENTS[i])
  {}

  /** and a spent cookie put back. */
  lemma ChangedJarSpendsTheCookie()
    ensures exists views: seq<View>, events: seq<Event>, k: nat :: SpentByOne(views, events, k) && events[k].JarChanged?
  {
    var views := seq(7, i requires 0 <= i < 7 => JarView(i));
    forall i | 0 <= i < |JAR_EVENTS|
      ensures StepAt(views, JAR_EVENTS, i) && (i != 4 ==> Quiet(views[i], JAR_EVENTS[i])) {
      assert views[i] == JarView(i) && views[i + 1] == JarView(i + 1);
      JarStep(i);
    }
    assert views[0] == JarView(0) && views[6] == JarView(6);
    assert JarView(6).flights[1].phase.InAir? && !Unspent(JarView(6).flights[1].presented, JarView(6).spent);
    assert SpentByOne(views, JAR_EVENTS, 4);
  }
}
