/**
 * The certified router (services/gateway/routing/router.py): the primary model, then the
 * route set's fallbacks, each behind its own circuit.  A leg gives what one candidate
 * meets: the clock when its circuit is asked, the script of its upstream attempts and
 * the jitter between them, and the clock when the outcome is recorded.
 */
module Router {
  import opened Wrappers
  import opened BedrockClient
  import Breaker

  datatype RouteSet = RouteSet(name: string, primary: string, fallbacks: seq<string>)

  type RouteSets = map<string, RouteSet>

  datatype Leg = Leg(askedAt: real, script: Script, jitter: Jitter, recordedAt: real)

  type Legs = nat -> Leg

  type Circuits = map<string, Breaker.Circuit>

  datatype Config = Config(breaker: Breaker.Settings, maxRetries: int, baseBackoff: Seconds, routeSets: RouteSets)

  datatype Outcome =
    | Routed(result: ConverseResult, model: string, fallback: bool)
    | Failed(error: InvocationError)
    | AllRoutesUnavailable

  /** `fallbacks_for`. */
  function FallbacksFor(routeSets: RouteSets, routeSet: Option<string>): seq<string> {
    match routeSet
    case None => []
    case Some(name) => if name in routeSets then routeSets[name].fallbacks else []
  }

  function Candidates(routeSets: RouteSets, primary: string, routeSet: Option<string>): (r: seq<string>)
    ensures |r| > 0
  {
    [primary] + Without(FallbacksFor(routeSets, routeSet), primary)
  }

  // ----- One candidate after the other -----

  /** One pass of the loop: the circuits it starts from, the candidates, and what each would meet. */
  datatype Tour = Tour(cfg: Config, circuits: Circuits, candidates: seq<string>, legs: Legs)

  /** What the loop does with one candidate. */
  datatype Visit = Skipped | Erred(error: InvocationError, calls: nat) | Served(result: ConverseResult, calls: nat)

  function VisitCircuit(cfg: Config, c: Breaker.Circuit, leg: Leg): (r: (Breaker.Circuit, Visit)) {
    var (asked, allowed) := Breaker.Permit(cfg.breaker, c, leg.askedAt);
    if !allowed then (asked, Skipped) else
    var calls := Calls(leg.script, cfg.maxRetries);
    match Converse(leg.script, cfg.maxRetries)
    case Success(result) => (Breaker.Succeed(asked), Served(result, calls))
    case Failure(error) => (Breaker.Fail(cfg.breaker, asked, leg.recordedAt), Erred(error, calls))
  }

  /** The circuits once the first n candidates were visited. */
  function CircuitsAfter(t: Tour, n: nat): Circuits
    requires n <= |t.candidates|
  {
    if n == 0 then t.circuits else
    var before := CircuitsAfter(t, n - 1);
    var model := t.candidates[n - 1];
    before[model := VisitCircuit(t.cfg, Breaker.Entry(before, model), t.legs(n - 1)).0]
  }

  function VisitOf(t: Tour, i: nat): Visit
    requires i < |t.candidates|
  {
    VisitCircuit(t.cfg, Breaker.Entry(CircuitsAfter(t, i), t.candidates[i]), t.legs(i)).1
  }

  /** The first n visits, were none of them to end the loop. */
  function VisitsUpTo(t: Tour, n: nat): (vs: seq<Visit>)
    requires n <= |t.candidates|
    ensures |vs| == n
  {
    if n == 0 then [] else VisitsUpTo(t, n - 1) + [VisitOf(t, n - 1)]
  }

  /** The visits to all candidates. */
  function Visits(t: Tour): (vs: seq<Visit>)
    ensures |vs| == |t.candidates|
  {
    VisitsUpTo(t, |t.candidates|)
  }

  lemma {:induction false} VisitUpTo(t: Tour, n: nat, i: nat)
    requires i < n <= |t.candidates|
    ensures VisitsUpTo(t, n)[i] == VisitOf(t, i)
  {
    if i < n - 1 {
      VisitUpTo(t, n - 1, i);
    }
  }

  lemma VisitAt(t: Tour, i: nat)
    requires i < |t.candidates|
    ensures Visits(t)[i] == VisitOf(t, i)
  {
    VisitUpTo(t, |t.candidates|, i);
  }

  /** The first visit from i on that serves; the number of visits when none does. */
  function FirstServed(vs: seq<Visit>, i: nat): (r: nat)
    requires i <= |vs|
    ensures i <= r <= |vs|
    ensures r < |vs| ==> vs[r].Served?
    decreases |vs| - i
  {
    if i == |vs| || vs[i].Served? then i else FirstServed(vs, i + 1)
  }

  /** One past the last of the first n visits that failed upstream; 0 when none did. */
  function LastErred(vs: seq<Visit>, n: nat): (r: nat)
    requires n <= |vs|
    ensures r <= n && (r > 0 ==> vs[r - 1].Erred?)
  {
    if n == 0 || vs[n - 1].Erred? then n else LastErred(vs, n - 1)
  }

  function ErrorBefore(vs: seq<Visit>, n: nat): Option<InvocationError>
    requires n <= |vs|
  {
    var last := LastErred(vs, n);
    if last > 0 then Some(vs[last - 1].error) else None
  }

  /** How many candidates the loop visits. */
  function Visited(vs: seq<Visit>): (n: nat)
    ensures n <= |vs|
  {
    var served := FirstServed(vs, 0);
    if served < |vs| then served + 1 else served
  }

  function Decide(candidates: seq<string>, vs: seq<Visit>): Outcome
    requires |vs| == |candidates|
  {
    var i := FirstServed(vs, 0);
    if i < |vs| then Routed(vs[i].result, candidates[i], i > 0)
    else
      match ErrorBefore(vs, i)
      case Some(error) => Failed(error)
      case None => AllRoutesUnavailable
  }

  function Route(t: Tour): Outcome {
    Decide(t.candidates, Visits(t))
  }

  function CallsOf(v: Visit): nat {
    match v
    case Skipped => 0
    case Erred(_, calls) => calls
    case Served(_, calls) => calls
  }

  /** Upstream calls made in the first n visits. */
  function UpstreamCalls(vs: seq<Visit>, n: nat): nat
    requires n <= |vs|
  {
    if n == 0 then 0 else UpstreamCalls(vs, n - 1) + CallsOf(vs[n - 1])
  }

  /** Upstream calls of the whole loop. */
  function TotalCalls(t: Tour): nat {
    UpstreamCalls(Visits(t), Visited(Visits(t)))
  }

  /** Time slept between a visit's upstream calls. */
  function NapOf(cfg: Config, v: Visit, leg: Leg): Seconds {
    if CallsOf(v) == 0 then 0.0 else Slept(cfg.baseBackoff, leg.jitter, CallsOf(v) - 1)
  }

  /** Time slept at candidate i. */
  function SleepOf(t: Tour, i: nat): Seconds
    requires i < |t.candidates|
  {
    NapOf(t.cfg, Visits(t)[i], t.legs(i))
  }

  /** Time slept at the first n candidates, were none of them to end the loop. */
  function SleepsUpTo(t: Tour, n: nat): (naps: seq<Seconds>)
    requires n <= |t.candidates|
    ensures |naps| == n
  {
    if n == 0 then [] else SleepsUpTo(t, n - 1) + [SleepOf(t, n - 1)]
  }

  function Sleeps(t: Tour): (naps: seq<Seconds>)
    ensures |naps| == |t.candidates|
  {
    SleepsUpTo(t, |t.candidates|)
  }

  lemma {:induction false} SleepUpTo(t: Tour, n: nat, i: nat)
    requires i < n <= |t.candidates|
    ensures SleepsUpTo(t, n)[i] == SleepOf(t, i)
  {
    if i < n - 1 {
      SleepUpTo(t, n - 1, i);
    }
  }

  function Total(naps: seq<Seconds>, n: nat): Seconds
    requires n <= |naps|
  {
    if n == 0 then 0.0 else Total(naps, n - 1) + naps[n - 1]
  }

  /** Time slept in the whole loop. */
  function TotalSleep(t: Tour): Seconds {
    Total(Sleeps(t), Visited(Visits(t)))
  }

  // ----- What the router promises -----

  /** Every visit that is not skipped calls the model, within the retry budget. */
  predicate WithinBudget(vs: seq<Visit>, budget: nat) {
    forall v | v in vs :: CallsOf(v) <= budget && (CallsOf(v) == 0 <==> v.Skipped?)
  }

  lemma VisitsWithinBudget(t: Tour)
    ensures WithinBudget(Visits(t), MaxCalls(t.cfg.maxRetries))
  {
    var vs := Visits(t);
    forall v | v in vs
      ensures CallsOf(v) <= MaxCalls(t.cfg.maxRetries) && (CallsOf(v) == 0 <==> v.Skipped?)
    {
      var i :| 0 <= i < |vs| && vs[i] == v;
      VisitAt(t, i);
    }
  }

  /** No call is made exactly when every circuit refuses. */
  lemma {:induction false} CallsUnlessSkipped(vs: seq<Visit>, n: nat, budget: nat)
    requires n <= |vs| && WithinBudget(vs, budget)
    ensures UpstreamCalls(vs, n) == 0 <==> forall k | 0 <= k < n :: vs[k].Skipped?
  {
    if n > 0 {
      assert vs[n - 1] in vs;
      CallsUnlessSkipped(vs, n - 1, budget);
    }
  }

  lemma {:induction false} CallsBounded(vs: seq<Visit>, n: nat, budget: nat)
    requires n <= |vs| && WithinBudget(vs, budget)
    ensures UpstreamCalls(vs, n) <= n * budget
  {
    if n > 0 {
      assert vs[n - 1] in vs;
      CallsBounded(vs, n - 1, budget);
      assert n * budget == (n - 1) * budget + budget;
    }
  }

  /** Over all candidates together: never more calls than the retry budget of each. */
  lemma RouterBudget(t: Tour)
    ensures TotalCalls(t) <= |t.candidates| * MaxCalls(t.cfg.maxRetries)
  {
    var vs, budget := Visits(t), MaxCalls(t.cfg.maxRetries);
    VisitsWithinBudget(t);
    CallsBounded(vs, Visited(vs), budget);
    MoreCandidates(Visited(vs), |t.candidates|, budget);
  }

  lemma VisitSleep(t: Tour, i: nat)
    requires i < |t.candidates|
    ensures SleepOf(t, i) <= MostSlept(t.cfg.baseBackoff, t.cfg.maxRetries)
  {
    VisitAt(t, i);
    TotalBackoff(t.legs(i).script, t.cfg.maxRetries, t.cfg.baseBackoff, t.legs(i).jitter);
  }

  function Times(n: nat, most: Seconds): real {
    n as real * most
  }

  lemma TimesNext(n: nat, most: Seconds)
    ensures Times(n + 1, most) == Times(n, most) + most
  {
  }

  /** n naps of at most `most` each. */
  lemma {:induction false} NapsBounded(naps: seq<Seconds>, n: nat, most: Seconds)
    requires n <= |naps| && EachAtMost(naps, most)
    ensures Total(naps, n) <= Times(n, most)
  {
    if n > 0 {
      NapsBounded(naps, n - 1, most);
      TimesNext(n - 1, most);
    }
  }

  lemma {:induction false} TimesGrows(a: nat, b: nat, most: Seconds)
    requires a <= b
    ensures Times(a, most) <= Times(b, most)
    decreases b
  {
    if a < b {
      TimesGrows(a, b - 1, most);
      TimesNext(b - 1, most);
    }
  }

  predicate EachAtMost(naps: seq<Seconds>, most: Seconds) {
    forall i | 0 <= i < |naps| :: naps[i] <= most
  }

  lemma SleepsWithin(t: Tour, most: Seconds)
    requires most == MostSlept(t.cfg.baseBackoff, t.cfg.maxRetries)
    ensures EachAtMost(Sleeps(t), most)
  {
    forall i | 0 <= i < |t.candidates|
      ensures Sleeps(t)[i] <= most
    {
      SleepUpTo(t, |t.candidates|, i);
      VisitSleep(t, i);
    }
  }

  /** Over all candidates together: the router never sleeps longer than base * (2^max_retries - 1) for each. */
  lemma RouterBackoff(t: Tour, most: Seconds)
    requires most == MostSlept(t.cfg.baseBackoff, t.cfg.maxRetries)
    ensures TotalSleep(t) <= Times(|t.candidates|, most)
  {
    SleepsWithin(t, most);
    NapsBounded(Sleeps(t), Visited(Visits(t)), most);
    TimesGrows(Visited(Visits(t)), |t.candidates|, most);
  }

  lemma MoreCandidates(a: nat, b: nat, budget: nat)
    requires a <= b
    ensures a * budget <= b * budget
  {
  }

  /**
   * The primary comes first; after it come exactly the configured fallbacks that are other
   * models, in their configured order and as often: `from` gives the place of each in the
   * route set.  No route set, or one that is not configured, has no fallbacks.
   */
  lemma CandidatesCertified(routeSets: RouteSets, primary: string, routeSet: Option<string>) returns (from: seq<nat>)
    ensures var candidates := Candidates(routeSets, primary, routeSet);
            var fallbacks :=
              if routeSet.Some? && routeSet.value in routeSets then routeSets[routeSet.value].fallbacks else [];
            && FallbacksFor(routeSets, routeSet) == fallbacks
            && candidates[0] == primary
            && |candidates| == 1 + |from| <= 1 + |fallbacks|
            && (forall i | 0 < i < |candidates| ::
                  from[i - 1] < |fallbacks| && candidates[i] == fallbacks[from[i - 1]] && candidates[i] != primary)
            && (forall i, j | 0 <= i < j < |from| :: from[i] < from[j])
            && (forall m | m in fallbacks && m != primary :: m in candidates)
            && multiset(candidates) == multiset{primary} + multiset(fallbacks)[primary := 0]
  {
    var fallbacks := FallbacksFor(routeSets, routeSet);
    from := WithoutPositions(fallbacks, primary);
    WithoutKeepsOthers(fallbacks, primary);
    WithoutShorter(fallbacks, primary);
    WithoutCounts(fallbacks, primary);
    var candidates := Candidates(routeSets, primary, routeSet);
    forall i | 0 < i < |candidates|
      ensures candidates[i] == Without(fallbacks, primary)[i - 1]
    {
    }
  }

  /**
   * A model of the route set: its primary or one of its fallbacks.  No route set, or one
   * that is not configured, has none.
   */
  predicate InRouteSet(routeSets: RouteSets, routeSet: Option<string>, model: string) {
    && routeSet.Some? && routeSet.value in routeSets
    && (model == routeSets[routeSet.value].primary || model in routeSets[routeSet.value].fallbacks)
  }

  /**
   * Only the fallbacks come from the route set: all candidates are models of the set exactly
   * when the resolved primary is.  Without a configured route set the primary is alone, and
   * in no set.
   */
  lemma CertifiedIffPrimaryIs(routeSets: RouteSets, primary: string, routeSet: Option<string>)
    ensures var candidates := Candidates(routeSets, primary, routeSet);
            && ((forall m | m in candidates :: InRouteSet(routeSets, routeSet, m))
                <==> InRouteSet(routeSets, routeSet, primary))
            && (routeSet.None? || routeSet.value !in routeSets ==>
                  candidates == [primary] && !InRouteSet(routeSets, routeSet, primary))
  {
    var candidates := Candidates(routeSets, primary, routeSet);
    var from := CandidatesCertified(routeSets, primary, routeSet);
    assert candidates[0] in candidates;
    if InRouteSet(routeSets, routeSet, primary) {
      forall m | m in candidates
        ensures InRouteSet(routeSets, routeSet, m)
      {
        var i :| 0 <= i < |candidates| && candidates[i] == m;
      }
    }
  }

  /** Visit i answered with this result and every earlier one was refused or failed. */
  predicate FirstToServe(vs: seq<Visit>, i: nat, result: ConverseResult) {
    && i < |vs| && vs[i].Served? && vs[i].result == result
    && forall k | 0 <= k < i :: !vs[k].Served?
  }

  /** Visit i failed with this error, none answered and no later candidate was called. */
  predicate LastCalled(vs: seq<Visit>, i: nat, error: InvocationError) {
    && i < |vs| && vs[i].Erred? && vs[i].error == error
    && (forall k | 0 <= k < i :: !vs[k].Served?)
    && (forall k | i < k < |vs| :: vs[k].Skipped?)
  }

  /**
   * The result is that of the first candidate, in order, that its circuit lets through and
   * that answers; otherwise the error raised is that of the last candidate called;
   * otherwise every circuit refused.  `at` is the candidate meant.
   */
  lemma RouteContract(t: Tour) returns (at: nat)
    ensures match Route(t)
            case Routed(result, model, fallback) =>
              && FirstToServe(Visits(t), at, result) && model == t.candidates[at] && fallback == (at > 0)
              && Visited(Visits(t)) == at + 1
            case Failed(error) => LastCalled(Visits(t), at, error) && Visited(Visits(t)) == |t.candidates|
            case AllRoutesUnavailable =>
              && (forall k | 0 <= k < |t.candidates| :: Visits(t)[k].Skipped?)
              && Visited(Visits(t)) == |t.candidates|
  {
    at := Decision(t.candidates, Visits(t));
  }

  lemma {:induction false} NoneServedBefore(vs: seq<Visit>, i: nat)
    requires i <= |vs|
    ensures forall k | i <= k < FirstServed(vs, i) :: !vs[k].Served?
    decreases |vs| - i
  {
    if i < |vs| && !vs[i].Served? {
      NoneServedBefore(vs, i + 1);
    }
  }

  lemma {:induction false} NoneErredAfter(vs: seq<Visit>, n: nat)
    requires n <= |vs|
    ensures forall k | LastErred(vs, n) <= k < n :: !vs[k].Erred?
  {
    if n > 0 && !vs[n - 1].Erred? {
      NoneErredAfter(vs, n - 1);
    }
  }

  lemma Decision(candidates: seq<string>, vs: seq<Visit>) returns (at: nat)
    requires |vs| == |candidates|
    ensures match Decide(candidates, vs)
            case Routed(result, model, fallback) =>
              FirstToServe(vs, at, result) && model == candidates[at] && fallback == (at > 0) && Visited(vs) == at + 1
            case Failed(error) => LastCalled(vs, at, error) && Visited(vs) == |vs|
            case AllRoutesUnavailable => (forall k | 0 <= k < |vs| :: vs[k].Skipped?) && Visited(vs) == |vs|
  {
    at := FirstServed(vs, 0);
    NoneServedBefore(vs, 0);
    NoneErredAfter(vs, at);
    if at == |vs| && LastErred(vs, at) > 0 {
      at := LastErred(vs, at) - 1;
    }
  }

  /**
   * What a candidate that is let through meets, attempt by attempt: if the attempts before
   * attempt k failed for a moment, its reply serves, and its error counts unless it may go
   * away and a retry is left.
   */
  lemma VisitOutcome(t: Tour, i: nat, k: nat)
    requires i < |t.candidates| && !Visits(t)[i].Skipped?
    requires (k == 0 || k <= t.cfg.maxRetries) && forall j | 0 <= j < k :: IsTransient(t.legs(i).script(j))
    ensures var visit, attempt := Visits(t)[i], t.legs(i).script(k);
            match attempt
            case Reply(completion) => visit == Served(ConverseResult(completion, k), k + 1)
            case Raise(code) =>
              !IsTransient(attempt) || t.cfg.maxRetries <= k ==>
                var name := if code.None? || code.value == "" then "UPSTREAM_ERROR" else code.value;
                visit == Erred(InvocationError(k + 1, name, IsTransient(attempt)), k + 1)
  {
    VisitAt(t, i);
    RetryOutcome(t.legs(i).script, t.cfg.maxRetries, k);
  }

  /** A candidate whose every attempt fails for a moment uses up its retries, and with jitter 1 its whole back-off. */
  predicate AllFail(t: Tour, i: nat) {
    forall k | 0 <= k <= Max(0, t.cfg.maxRetries) :: IsTransient(t.legs(i).script(k)) && t.legs(i).jitter(k) == 1.0
  }

  lemma AllFailVisit(t: Tour, i: nat)
    requires i < |t.candidates| && !Visits(t)[i].Skipped? && AllFail(t, i)
    ensures Visits(t)[i].Erred? && CallsOf(Visits(t)[i]) == Max(0, t.cfg.maxRetries) + 1
    ensures SleepOf(t, i) == MostSlept(t.cfg.baseBackoff, t.cfg.maxRetries)
  {
    VisitOutcome(t, i, Max(0, t.cfg.maxRetries));
    FullLadder(t.cfg.baseBackoff, t.legs(i).jitter, Max(0, t.cfg.maxRetries));
  }

  /** Every candidate is called and fails every time. */
  predicate AllSpent(t: Tour) {
    forall i | 0 <= i < |t.candidates| :: !Visits(t)[i].Skipped? && AllFail(t, i)
  }

  lemma {:induction false} SpentCalls(t: Tour, n: nat, each: nat)
    requires n <= |t.candidates| && AllSpent(t) && each == Max(0, t.cfg.maxRetries) + 1
    ensures UpstreamCalls(Visits(t), n) == n * each
  {
    if n > 0 {
      SpentCalls(t, n - 1, each);
      AllFailVisit(t, n - 1);
      assert n * each == (n - 1) * each + each;
    }
  }

  lemma {:induction false} SpentSleep(t: Tour, n: nat, most: Seconds)
    requires n <= |t.candidates| && AllSpent(t) && most == MostSlept(t.cfg.baseBackoff, t.cfg.maxRetries)
    ensures Total(Sleeps(t), n) == Times(n, most)
  {
    if n > 0 {
      SpentSleep(t, n - 1, most);
      AllFailVisit(t, n - 1);
      SleepUpTo(t, |t.candidates|, n - 1);
      TimesNext(n - 1, most);
    }
  }

  /** Both budgets are attained: they are what a loop spends whose every call fails for a moment. */
  lemma BudgetsAttained(t: Tour, most: Seconds)
    requires AllSpent(t) && most == MostSlept(t.cfg.baseBackoff, t.cfg.maxRetries)
    ensures TotalCalls(t) == |t.candidates| * (Max(0, t.cfg.maxRetries) + 1)
    ensures TotalSleep(t) == Times(|t.candidates|, most)
  {
    SpentCalls(t, |t.candidates|, Max(0, t.cfg.maxRetries) + 1);
    SpentSleep(t, |t.candidates|, most);
    var served := FirstServed(Visits(t), 0);
    if served < |t.candidates| {
      AllFailVisit(t, served);
    }
  }

  /** A result is marked a fallback exactly when its model is not the primary. */
  lemma FallbackIffOtherModel(t: Tour, primary: string, routeSet: Option<string>)
    requires t.candidates == Candidates(t.cfg.routeSets, primary, routeSet) && Route(t).Routed?
    ensures Route(t).fallback <==> Route(t).model != primary
  {
    var from := CandidatesCertified(t.cfg.routeSets, primary, routeSet);
    var at := RouteContract(t);
  }

  /** AllRoutesUnavailable is raised exactly when no upstream call was made. */
  lemma UnavailableIffNoCall(t: Tour)
    ensures Route(t) == AllRoutesUnavailable <==> TotalCalls(t) == 0
  {
    var vs := Visits(t);
    var at := Decision(t.candidates, vs);
    VisitsWithinBudget(t);
    CallsUnlessSkipped(vs, Visited(vs), MaxCalls(t.cfg.maxRetries));
    if Route(t) != AllRoutesUnavailable {
      assert !vs[at].Skipped?;
    }
  }

  // ----- The router's calls are part of the breaker's history -----

  /** What one visit records. */
  function VisitEvents(v: Visit, model: string, leg: Leg): seq<Breaker.Event> {
    [Breaker.Event(model, Breaker.Probe(leg.askedAt))]
    + match v
      case Skipped => []
      case Erred(_, _) => [Breaker.Event(model, Breaker.Signal.Failure(leg.recordedAt))]
      case Served(_, _) => [Breaker.Event(model, Breaker.Signal.Success(leg.recordedAt))]
  }

  /** The breaker events of the first n candidates. */
  function Events(t: Tour, n: nat): seq<Breaker.Event>
    requires n <= |t.candidates|
  {
    if n == 0 then [] else Events(t, n - 1) + VisitEvents(Visits(t)[n - 1], t.candidates[n - 1], t.legs(n - 1))
  }

  lemma CircuitsAppend(cfg: Breaker.Settings, history: seq<Breaker.Event>, e: Breaker.Event)
    ensures var before := Breaker.Circuits(cfg, history);
            Breaker.Circuits(cfg, history + [e])
            == before[e.model := Breaker.React(cfg, Breaker.Entry(before, e.model), e.signal)]
  {
    assert (history + [e])[..|history|] == history;
  }

  /** Circuits after the answer to one model's signal. */
  function Signalled(cfg: Config, circuits: Circuits, model: string, signal: Breaker.Signal): Circuits {
    circuits[model := Breaker.React(cfg.breaker, Breaker.Entry(circuits, model), signal)]
  }

  /** A visit is a probe, and the outcome's signal when the probe passes. */
  lemma VisitSignals(cfg: Config, circuits: Circuits, model: string, leg: Leg)
    ensures var asked := Signalled(cfg, circuits, model, Breaker.Probe(leg.askedAt));
            var (circuit, visit) := VisitCircuit(cfg, Breaker.Entry(circuits, model), leg);
            circuits[model := circuit]
            == (match visit
                case Skipped => asked
                case Erred(_, _) => Signalled(cfg, asked, model, Breaker.Signal.Failure(leg.recordedAt))
                case Served(_, _) => Signalled(cfg, asked, model, Breaker.Signal.Success(leg.recordedAt)))
  {
  }

  lemma OneSignal(cfg: Config, past: seq<Breaker.Event>, model: string, signal: Breaker.Signal)
    ensures Breaker.Circuits(cfg.breaker, past + [Breaker.Event(model, signal)])
            == Signalled(cfg, Breaker.Circuits(cfg.breaker, past), model, signal)
  {
    CircuitsAppend(cfg.breaker, past, Breaker.Event(model, signal));
  }

  lemma TwoSignals(cfg: Config, past: seq<Breaker.Event>, model: string, first: Breaker.Signal, second: Breaker.Signal)
    ensures Breaker.Circuits(cfg.breaker, past + [Breaker.Event(model, first), Breaker.Event(model, second)])
            == Signalled(cfg, Signalled(cfg, Breaker.Circuits(cfg.breaker, past), model, first), model, second)
  {
    var one := past + [Breaker.Event(model, first)];
    OneSignal(cfg, past, model, first);
    OneSignal(cfg, one, model, second);
    assert past + [Breaker.Event(model, first), Breaker.Event(model, second)] == one + [Breaker.Event(model, second)];
  }

  lemma VisitExtendsHistory(cfg: Config, past: seq<Breaker.Event>, model: string, leg: Leg)
    ensures var before := Breaker.Circuits(cfg.breaker, past);
            var (after, v) := VisitCircuit(cfg, Breaker.Entry(before, model), leg);
            Breaker.Circuits(cfg.breaker, past + VisitEvents(v, model, leg)) == before[model := after]
  {
    var before, probe := Breaker.Circuits(cfg.breaker, past), Breaker.Probe(leg.askedAt);
    VisitSignals(cfg, before, model, leg);
    var v := VisitCircuit(cfg, Breaker.Entry(before, model), leg).1;
    match v
    case Skipped =>
      OneSignal(cfg, past, model, probe);
      assert VisitEvents(v, model, leg) == [Breaker.Event(model, probe)];
    case Erred(_, _) =>
      var failure := Breaker.Signal.Failure(leg.recordedAt);
      TwoSignals(cfg, past, model, probe, failure);
      assert VisitEvents(v, model, leg) == [Breaker.Event(model, probe), Breaker.Event(model, failure)];
    case Served(_, _) =>
      var success := Breaker.Signal.Success(leg.recordedAt);
      TwoSignals(cfg, past, model, probe, success);
      assert VisitEvents(v, model, leg) == [Breaker.Event(model, probe), Breaker.Event(model, success)];
  }

  /** Every probe and every outcome of the loop is recorded: its circuits are those of the longer history. */
  lemma {:induction false} LoopExtendsHistory(t: Tour, history: seq<Breaker.Event>, n: nat)
    requires n <= |t.candidates| && t.circuits == Breaker.Circuits(t.cfg.breaker, history)
    ensures CircuitsAfter(t, n) == Breaker.Circuits(t.cfg.breaker, history + Events(t, n))
    decreases n, 1
  {
    if n == 0 {
      assert history + [] == history;
    } else {
      LoopExtendsFrom(t, history, n - 1, n);
    }
  }

  lemma {:induction false} LoopExtendsFrom(t: Tour, history: seq<Breaker.Event>, m: nat, n: nat)
    requires n == m + 1 <= |t.candidates| && t.circuits == Breaker.Circuits(t.cfg.breaker, history)
    ensures CircuitsAfter(t, n) == Breaker.Circuits(t.cfg.breaker, history + Events(t, n))
    decreases n, 0
  {
    LoopExtendsHistory(t, history, m);
    EventsGrow(t, history, m);
    LoopExtendsNext(t, history + Events(t, m), history + Events(t, n), m);
  }

  lemma EventsGrow(t: Tour, history: seq<Breaker.Event>, m: nat)
    requires m < |t.candidates|
    ensures history + Events(t, m + 1)
            == history + Events(t, m) + VisitEvents(Visits(t)[m], t.candidates[m], t.legs(m))
  {
  }

  lemma LoopExtendsNext(t: Tour, past: seq<Breaker.Event>, longer: seq<Breaker.Event>, m: nat)
    requires m < |t.candidates| && CircuitsAfter(t, m) == Breaker.Circuits(t.cfg.breaker, past)
    requires longer == past + VisitEvents(Visits(t)[m], t.candidates[m], t.legs(m))
    ensures CircuitsAfter(t, m + 1) == Breaker.Circuits(t.cfg.breaker, longer)
  {
    TourNext(t, m);
    VisitExtendsHistory(t.cfg, past, t.candidates[m], t.legs(m));
  }

  /**
   * A candidate is skipped exactly when its own history, the loop's earlier candidates
   * included, is above the threshold and within the timeout.
   */
  lemma SkippedIffOwnHistory(t: Tour, history: seq<Breaker.Event>, i: nat)
    requires i < |t.candidates| && t.circuits == Breaker.Circuits(t.cfg.breaker, history)
    requires Breaker.EventsUntil(history + Events(t, i), t.legs(i).askedAt)
    ensures var own := Breaker.Own(history + Events(t, i), t.candidates[i]);
            Visits(t)[i].Skipped?
            <==> (&& Breaker.TrailingFailures(own) >= Breaker.Threshold(t.cfg.breaker)
                  && t.legs(i).askedAt - Breaker.LastFailure(own) < t.cfg.breaker.resetTimeout)
  {
    LoopExtendsHistory(t, history, i);
    VisitAt(t, i);
    Breaker.AnswerIffOwnHistory(t.cfg.breaker, history + Events(t, i), t.candidates[i], t.legs(i).askedAt);
  }

  // ----- The class -----

  /** Where the loop stands before visit i. */
  predicate Progress(vs: seq<Visit>, i: nat, calls: nat, lastError: Option<InvocationError>)
    requires i <= |vs|
  {
    && calls == UpstreamCalls(vs, i)
    && lastError == ErrorBefore(vs, i)
    && FirstServed(vs, 0) == FirstServed(vs, i)
  }

  lemma MovesOn(vs: seq<Visit>, i: nat, calls: nat, lastError: Option<InvocationError>)
    requires i < |vs| && Progress(vs, i, calls, lastError) && !vs[i].Served?
    ensures Progress(vs, i + 1, calls + CallsOf(vs[i]), if vs[i].Erred? then Some(vs[i].error) else lastError)
  {
    var n: nat := i + 1;
    assert UpstreamCalls(vs, n) == calls + CallsOf(vs[i]);
    assert LastErred(vs, n) == if vs[i].Erred? then n else LastErred(vs, i);
    assert FirstServed(vs, i) == FirstServed(vs, n);
  }

  lemma ServedDecides(candidates: seq<string>, vs: seq<Visit>, i: nat, calls: nat, lastError: Option<InvocationError>)
    requires i < |vs| == |candidates| && Progress(vs, i, calls, lastError) && vs[i].Served?
    ensures Decide(candidates, vs) == Routed(vs[i].result, candidates[i], i > 0)
    ensures Visited(vs) == i + 1 && UpstreamCalls(vs, Visited(vs)) == calls + CallsOf(vs[i])
  {
    assert FirstServed(vs, i) == i;
  }

  lemma NoneDecides(candidates: seq<string>, vs: seq<Visit>, calls: nat, lastError: Option<InvocationError>)
    requires |vs| == |candidates| && Progress(vs, |vs|, calls, lastError)
    ensures Decide(candidates, vs)
            == match lastError case Some(error) => Failed(error) case None => AllRoutesUnavailable
    ensures Visited(vs) == |vs| && UpstreamCalls(vs, Visited(vs)) == calls
  {
  }

  lemma ServedEnds(t: Tour, i: nat, calls: nat, lastError: Option<InvocationError>)
    requires i < |t.candidates| && Progress(Visits(t), i, calls, lastError) && Visits(t)[i].Served?
    ensures Route(t) == Routed(Visits(t)[i].result, t.candidates[i], i > 0)
    ensures TotalCalls(t) == calls + CallsOf(Visits(t)[i]) && Visited(Visits(t)) == i + 1
  {
    ServedDecides(t.candidates, Visits(t), i, calls, lastError);
  }

  lemma AllVisited(t: Tour, calls: nat, lastError: Option<InvocationError>)
    requires Progress(Visits(t), |t.candidates|, calls, lastError)
    ensures Route(t) == match lastError case Some(error) => Failed(error) case None => AllRoutesUnavailable
    ensures TotalCalls(t) == calls && Visited(Visits(t)) == |t.candidates|
  {
    NoneDecides(t.candidates, Visits(t), calls, lastError);
  }

  /** What a whole loop leaves. */
  predicate IsResult(t: Tour, outcome: Outcome, calls: nat, slept: Seconds, circuits: Circuits) {
    && outcome == Route(t) && calls == TotalCalls(t) && slept == TotalSleep(t)
    && circuits == CircuitsAfter(t, Visited(Visits(t)))
  }

  /** The loop ends with the first n candidates visited. */
  lemma LoopEnds(t: Tour, n: nat, outcome: Outcome, calls: nat, slept: Seconds, circuits: Circuits)
    requires n == Visited(Visits(t)) && outcome == Route(t) && calls == TotalCalls(t)
    requires n <= |t.candidates| && slept == Total(Sleeps(t), n) && circuits == CircuitsAfter(t, n)
    ensures IsResult(t, outcome, calls, slept, circuits)
  {
  }

  /** Where the loop stands before visit i. */
  predicate Standing(t: Tour, i: nat, calls: nat, lastError: Option<InvocationError>, slept: Seconds,
                     circuits: Circuits)
  {
    && i <= |t.candidates| && Progress(Visits(t), i, calls, lastError)
    && slept == Total(Sleeps(t), i) && circuits == CircuitsAfter(t, i)
  }

  /** Visit i, the time slept in it, and the circuits after it. */
  predicate IsVisit(t: Tour, i: nat, visit: Visit, nap: Seconds, circuits: Circuits)
    requires i < |t.candidates|
  {
    visit == Visits(t)[i] && nap == Sleeps(t)[i] && circuits == CircuitsAfter(t, i + 1)
  }

  lemma StandingNext(t: Tour, i: nat, n: nat, calls: nat, lastError: Option<InvocationError>, slept: Seconds,
                     before: Circuits, visit: Visit, nap: Seconds, circuits: Circuits)
    requires n == i + 1 <= |t.candidates| && Standing(t, i, calls, lastError, slept, before)
    requires IsVisit(t, i, visit, nap, circuits) && !visit.Served?
    ensures var error := if visit.Erred? then Some(visit.error) else lastError;
            Standing(t, n, calls + CallsOf(visit), error, slept + nap, circuits)
  {
    MovesOn(Visits(t), i, calls, lastError);
    SleepNext(Sleeps(t), i);
  }

  lemma ServedResult(t: Tour, i: nat, n: nat, calls: nat, lastError: Option<InvocationError>, slept: Seconds,
                     before: Circuits, visit: Visit, nap: Seconds, circuits: Circuits)
    requires n == i + 1 <= |t.candidates| && Standing(t, i, calls, lastError, slept, before)
    requires IsVisit(t, i, visit, nap, circuits) && visit.Served?
    ensures IsResult(t, Routed(visit.result, t.candidates[i], i > 0), calls + visit.calls, slept + nap, circuits)
  {
    ServedEnds(t, i, calls, lastError);
    SleepNext(Sleeps(t), i);
    LoopEnds(t, n, Route(t), TotalCalls(t), slept + nap, circuits);
  }

  lemma UnservedResult(t: Tour, n: nat, calls: nat, lastError: Option<InvocationError>, slept: Seconds,
                       circuits: Circuits)
    requires n == |t.candidates| && Standing(t, n, calls, lastError, slept, circuits)
    ensures var outcome := if lastError.Some? then Failed(lastError.value) else AllRoutesUnavailable;
            IsResult(t, outcome, calls, slept, circuits)
  {
    AllVisited(t, calls, lastError);
    LoopEnds(t, n, Route(t), calls, slept, circuits);
  }

  lemma SleepNext(naps: seq<Seconds>, i: nat)
    requires i < |naps|
    ensures Total(naps, i + 1) == Total(naps, i) + naps[i]
  {
  }

  lemma TourNext(t: Tour, i: nat)
    requires i < |t.candidates|
    ensures var (circuit, visit) := VisitCircuit(t.cfg, Breaker.Entry(CircuitsAfter(t, i), t.candidates[i]), t.legs(i));
            CircuitsAfter(t, i + 1) == CircuitsAfter(t, i)[t.candidates[i] := circuit] && Visits(t)[i] == visit
    ensures Sleeps(t)[i] == NapOf(t.cfg, Visits(t)[i], t.legs(i))
  {
    VisitAt(t, i);
    SleepUpTo(t, |t.candidates|, i);
  }

  class CertifiedRouter {
    const cfg: Config
    const breaker: Breaker.CircuitBreaker
    const client: Client

    constructor (cfg: Config, breaker: Breaker.CircuitBreaker, client: Client)
      ensures this.cfg == cfg && this.breaker == breaker && this.client == client
    {
      this.cfg, this.breaker, this.client := cfg, breaker, client;
    }

    /** The breaker and the client are the configured ones. */
    predicate Wired() {
      breaker.cfg == cfg.breaker && client.maxRetries == cfg.maxRetries && client.baseBackoff == cfg.baseBackoff
    }

    /** One candidate: ask its circuit, call it with retries, record the outcome. */
    method Try(model: string, leg: Leg) returns (visit: Visit, slept: Seconds)
      requires breaker.Valid() && Wired()
      modifies breaker.Repr
      ensures breaker.Valid() && fresh(breaker.Repr - old(breaker.Repr))
      ensures var (circuit, v) := VisitCircuit(cfg, Breaker.Entry(old(breaker.Contents), model), leg);
              visit == v && breaker.Contents == old(breaker.Contents)[model := circuit]
      ensures slept == NapOf(cfg, visit, leg)
    {
      VisitSignals(cfg, breaker.Contents, model, leg);
      var allowed := breaker.Allow(model, leg.askedAt);
      if !allowed {
        return Skipped, 0.0;
      }
      var outcome, calls;
      outcome, calls, slept := client.Invoke(leg.script, leg.jitter);
      match outcome
      case Failure(error) =>
        breaker.RecordFailure(model, leg.recordedAt);
        visit := Erred(error, calls);
      case Success(result) =>
        breaker.RecordSuccess(model, leg.recordedAt);
        visit := Served(result, calls);
    }

    /** Candidate i of a loop. */
    method TryAt(model: string, leg: Leg, ghost t: Tour, ghost i: nat) returns (visit: Visit, slept: Seconds)
      requires breaker.Valid() && Wired()
      requires i < |t.candidates| && t.cfg == cfg && model == t.candidates[i] && leg == t.legs(i)
      requires breaker.Contents == CircuitsAfter(t, i)
      modifies breaker.Repr
      ensures breaker.Valid() && fresh(breaker.Repr - old(breaker.Repr))
      ensures IsVisit(t, i, visit, slept, breaker.Contents)
    {
      TourNext(t, i);
      visit, slept := Try(model, leg);
    }

    method Call(primary: string, routeSet: Option<string>, legs: Legs)
        returns (outcome: Outcome, calls: nat, slept: Seconds)
      requires breaker.Valid() && Wired()
      modifies breaker.Repr
      ensures breaker.Valid() && fresh(breaker.Repr - old(breaker.Repr))
      ensures var t := Tour(cfg, old(breaker.Contents), Candidates(cfg.routeSets, primary, routeSet), legs);
              IsResult(t, outcome, calls, slept, breaker.Contents)
    {
      var candidates := Candidates(cfg.routeSets, primary, routeSet);
      ghost var t := Tour(cfg, breaker.Contents, candidates, legs);
      var lastError: Option<InvocationError> := None;
      calls, slept := 0, 0.0;
      for i := 0 to |candidates|
        invariant breaker.Valid() && fresh(breaker.Repr - old(breaker.Repr))
        invariant Standing(t, i, calls, lastError, slept, breaker.Contents)
      {
        ghost var before := breaker.Contents;
        var visit, nap := TryAt(candidates[i], legs(i), t, i);
        if visit.Served? {
          ServedResult(t, i, i + 1, calls, lastError, slept, before, visit, nap, breaker.Contents);
          return Routed(visit.result, candidates[i], i > 0), calls + visit.calls, slept + nap;
        }
        StandingNext(t, i, i + 1, calls, lastError, slept, before, visit, nap, breaker.Contents);
        if visit.Erred? {
          lastError := Some(visit.error);
        }
        calls, slept := calls + CallsOf(visit), slept + nap;
      }
      UnservedResult(t, |candidates|, calls, lastError, slept, breaker.Contents);
      outcome := if lastError.Some? then Failed(lastError.value) else AllRoutesUnavailable;
    }
  }
}
