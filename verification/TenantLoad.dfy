/**
 * How much upstream load one tenant can cause: the limiter's bound carried through the
 * whole pipeline.
 */
module TenantLoad {
  import opened Wrappers
  import opened PolicyStore
  import opened Gateway
  import opened GatewayRuns
  import Pipeline
  import RateLimiter
  import KillSwitch

  // ----- The limiter's calls in a run -----

  /** The call to the limiter that this step makes, if it makes one. */
  function CallAt(cfg: Config, s: Shared, step: Step): Option<RateLimiter.Call> {
    match step
    case Arrive(id, clock) =>
      (match Resolve(cfg, s, id.tenant, clock).1
       case None => None
       case Some(policy) =>
         if Blocking(policy.state) then None
         else Some(RateLimiter.Call(policy.tenantId,
                                    RateLimiter.Visit(Pipeline.EffectiveLimit(policy), clock.limitAt))))
    case _ => None
  }

  /** The limiter's calls during the first n steps. */
  function LimiterCalls(run: Run, n: nat): seq<RateLimiter.Call>
    requires n <= |run.steps|
  {
    if n == 0 then [] else
    match CallAt(run.cfg, After(run, n - 1).shared, run.steps[n - 1])
    case None => LimiterCalls(run, n - 1)
    case Some(call) => LimiterCalls(run, n - 1) + [call]
  }

  lemma LevelsAppend(calls: seq<RateLimiter.Call>, call: RateLimiter.Call)
    ensures RateLimiter.Levels(calls + [call])
            == Served(RateLimiter.Levels(calls), Some(call))
  {
    assert (calls + [call])[..|calls|] == calls;
  }

  function Served(levels: map<string, RateLimiter.Level>, call: Option<RateLimiter.Call>)
    : map<string, RateLimiter.Level>
  {
    match call
    case None => levels
    case Some(c) => levels[c.tenant := RateLimiter.Serve(Lookup(levels, c.tenant), c.visit).0]
  }

  lemma LevelsNext(cfg: Config, s: State, n: nat, step: Step, next: State)
    requires next == Next(cfg, s, n, step)
    ensures next.shared.levels == Served(s.shared.levels, CallAt(cfg, s.shared, step))
  {
    if !step.Arrive? && !step.Administer? {
      OnlyGateAndAdmin(cfg, s, n, step);
    }
  }

  lemma CallsNext(run: Run, m: nat)
    requires m < |run.steps|
    ensures LimiterCalls(run, m + 1)
            == (match CallAt(run.cfg, After(run, m).shared, run.steps[m])
                case None => LimiterCalls(run, m)
                case Some(call) => LimiterCalls(run, m) + [call])
  {
  }

  lemma ServedAppend(levels: map<string, RateLimiter.Level>, calls: seq<RateLimiter.Call>,
                     call: Option<RateLimiter.Call>, longer: seq<RateLimiter.Call>)
    requires levels == RateLimiter.Levels(calls)
    requires longer == match call case None => calls case Some(c) => calls + [c]
    ensures Served(levels, call) == RateLimiter.Levels(longer)
  {
    if call.Some? {
      LevelsAppend(calls, call.value);
    }
  }

  /** The limiter's dictionary is that of its own calls, whatever else happens between them. */
  lemma {:induction false} LevelsAreCalls(run: Run, n: nat)
    requires n <= |run.steps|
    ensures After(run, n).shared.levels == RateLimiter.Levels(LimiterCalls(run, n))
  {
    if n > 0 {
      var m: nat := n - 1;
      LevelsAreCalls(run, m);
      AfterNext(run, m);
      CallsNext(run, m);
      LevelsNext(run.cfg, After(run, m), m, run.steps[m], After(run, n));
      ServedAppend(After(run, m).shared.levels, LimiterCalls(run, m),
                   CallAt(run.cfg, After(run, m).shared, run.steps[m]),
                   LimiterCalls(run, n));
    }
  }

  /** One tenant's visits to the limiter during the first n steps. */
  function Visits(run: Run, n: nat, tenant: string): seq<RateLimiter.Visit>
    requires n <= |run.steps|
  {
    RateLimiter.Own(LimiterCalls(run, n), tenant)
  }

  /** Request r of the tenant took a token. */
  predicate TookToken(s: State, r: nat, tenant: string) {
    r in s.chats && s.chats[r].identity.tenant == tenant && s.chats[r].gate.Admitted?
  }

  /**
   * An arrival past the kill switch calls the limiter under its tenant's own name, with the
   * limit of the policy in force.
   */
  lemma CallOf(run: Run, m: nat)
    requires m < |run.steps| && WellKeyed(run.start) && run.steps[m].Arrive?
    ensures var (tenant, call) := (run.steps[m].identity.tenant, CallAt(run.cfg, After(run, m).shared, run.steps[m]));
            if tenant in PoliciesAt(run, m) && !Blocking(PoliciesAt(run, m)[tenant].state)
            then call == Some(RateLimiter.Call(
                                tenant,
                                RateLimiter.Visit(Pipeline.EffectiveLimit(PoliciesAt(run, m)[tenant]),
                                                  run.steps[m].clock.limitAt)))
            else call.None?
  {
    PolicyPlane(run, m);
    KillSwitch.KeysKept(run.start, Flips(run.steps, m));
  }

  /** An arrival takes a token exactly when its call to the limiter is answered with yes. */
  lemma TokenIfServed(cfg: Config, s: State, n: nat, step: Step)
    requires step.Arrive?
    ensures var call := CallAt(cfg, s.shared, step);
            TookToken(Next(cfg, s, n, step), n, step.identity.tenant)
            <==> call.Some? && RateLimiter.Serve(Lookup(s.shared.levels, call.value.tenant), call.value.visit).1
  {
  }

  lemma OwnAppend(calls: seq<RateLimiter.Call>, call: RateLimiter.Call, tenant: string)
    ensures var before, after := RateLimiter.Own(calls, tenant), RateLimiter.Own(calls + [call], tenant);
            if call.tenant == tenant
            then && after == before + [call.visit]
                 && (RateLimiter.Admitted(after, |before|)
                     <==> RateLimiter.Serve(Lookup(RateLimiter.Levels(calls), tenant), call.visit).1)
            else after == before
  {
    assert (calls + [call])[..|calls|] == calls;
    if call.tenant == tenant {
      var before := RateLimiter.Own(calls, tenant);
      RateLimiter.OwnBucket(calls, tenant);
      RateLimiter.LevelAfterPrefix(before, [call.visit], |before|);
    }
  }

  /** Step m is an arrival of the tenant's and the policy in force does not block it. */
  predicate ReachesLimiter(run: Run, m: nat, tenant: string)
    requires m < |run.steps|
  {
    && run.steps[m].Arrive? && run.steps[m].identity.tenant == tenant
    && tenant in PoliciesAt(run, m) && !Blocking(PoliciesAt(run, m)[tenant].state)
  }

  /**
   * What step m does to the tenant's visits: an arrival past the kill switch adds its own,
   * and takes a token exactly when admitted.
   */
  lemma VisitOf(run: Run, m: nat, tenant: string)
    requires m < |run.steps| && WellKeyed(run.start)
    ensures var before, after := Visits(run, m, tenant), Visits(run, m + 1, tenant);
            if ReachesLimiter(run, m, tenant)
            then && after == before + [RateLimiter.Visit(Pipeline.EffectiveLimit(PoliciesAt(run, m)[tenant]),
                                                         run.steps[m].clock.limitAt)]
                 && (TookToken(After(run, m + 1), m, tenant) <==> RateLimiter.Admitted(after, |before|))
            else after == before && !TookToken(After(run, m + 1), m, tenant)
  {
    var s, step := After(run, m), run.steps[m];
    ChatsAreArrivals(run, m + 1);
    if step.Arrive? {
      CallOf(run, m);
      TokenIfServed(run.cfg, s, m, step);
      var call := CallAt(run.cfg, s.shared, step);
      if call.Some? {
        LevelsAreCalls(run, m);
        OwnAppend(LimiterCalls(run, m), call.value, tenant);
      }
    }
  }

  /** The limit a tenant is configured with, or a fifth of it while the tenant is throttled. */
  predicate IsLimit(limit: int, state: TenantState, rpmLimit: int) {
    if state == Throttled then Pipeline.IsAFifth(limit, rpmLimit) else limit == rpmLimit
  }

  lemma LimitInForce(run: Run, m: nat, tenant: string)
    requires m < |run.steps| && ReachesLimiter(run, m, tenant)
    ensures tenant in run.start
    ensures var policy := PoliciesAt(run, m)[tenant];
            IsLimit(Pipeline.EffectiveLimit(policy), policy.state, run.start[tenant].rpmLimit)
  {
    NoOtherTenants(run.start, Flips(run.steps, m));
    EpochsBetween(run, 0, m, tenant);
    var policy := PoliciesAt(run, m)[tenant];
    if policy.state == Throttled {
      Pipeline.ThrottledIsAFifth(policy);
    } else {
      Pipeline.OthersKeepTheirLimit(policy);
    }
  }

  /**
   * In every run, a request that the kill switch lets pass is admitted exactly when every
   * window of its tenant's own visits has room for it: no other tenant, no flip of another
   * tenant and no interleaving changes the answer.
   */
  lemma AdmittedIffRoom(run: Run, m: nat, tenant: string)
    requires m < |run.steps| && WellKeyed(run.start) && ReachesLimiter(run, m, tenant)
    ensures var visits := Visits(run, m + 1, tenant);
            && visits != []
            && (TookToken(After(run, m + 1), m, tenant) <==> RateLimiter.RoomInEveryWindow(visits, |visits| - 1))
    ensures tenant in run.start
    ensures var visits := Visits(run, m + 1, tenant);
            var v := visits[|visits| - 1];
            && v.now == run.steps[m].clock.limitAt
            && IsLimit(v.limit, PoliciesAt(run, m)[tenant].state, run.start[tenant].rpmLimit)
  {
    VisitOf(run, m, tenant);
    LimitInForce(run, m, tenant);
    RateLimiter.AdmissionIsWindowRule(Visits(run, m + 1, tenant), |Visits(run, m, tenant)|);
  }

  // ----- Tokens taken are admissions -----

  /** Tokens the tenant took in steps a..b-1. */
  function Tokens(run: Run, tenant: string, a: nat, b: nat): nat
    requires a <= b <= |run.steps|
    decreases b
  {
    if a == b then 0 else Tokens(run, tenant, a, b - 1) + if TookToken(After(run, b), b - 1, tenant) then 1 else 0
  }

  lemma {:induction false} AdmissionsPrefix(visits: seq<RateLimiter.Visit>, more: seq<RateLimiter.Visit>, j: nat,
                                            k: nat)
    requires j <= k <= |visits|
    ensures RateLimiter.Admissions(visits + more, j, k) == RateLimiter.Admissions(visits, j, k)
    decreases k
  {
    if j < k {
      AdmissionsPrefix(visits, more, j, k - 1);
      RateLimiter.LevelAfterPrefix(visits, more, k - 1);
    }
  }

  lemma OneMoreAdmission(before: seq<RateLimiter.Visit>, v: RateLimiter.Visit, j: nat)
    requires j <= |before|
    ensures var after := before + [v];
            RateLimiter.Admissions(after, j, |after|)
            == RateLimiter.Admissions(before, j, |before|) + if RateLimiter.Admitted(after, |before|) then 1 else 0
  {
    AdmissionsPrefix(before, [v], j, |before|);
  }

  /** The tokens taken in steps a..b-1 are the admissions of the visits made in them. */
  predicate TokensMatch(run: Run, tenant: string, a: nat, b: nat)
    requires a <= b <= |run.steps|
  {
    && |Visits(run, a, tenant)| <= |Visits(run, b, tenant)|
    && Tokens(run, tenant, a, b)
       == RateLimiter.Admissions(Visits(run, b, tenant), |Visits(run, a, tenant)|, |Visits(run, b, tenant)|)
  }

  lemma TokensMatchNext(run: Run, tenant: string, a: nat, m: nat, b: nat)
    requires a <= m && b == m + 1 <= |run.steps| && WellKeyed(run.start) && TokensMatch(run, tenant, a, m)
    ensures TokensMatch(run, tenant, a, b)
  {
    VisitOf(run, m, tenant);
    var before, after := Visits(run, m, tenant), Visits(run, b, tenant);
    if after != before {
      OneMoreAdmission(before, after[|before|], |Visits(run, a, tenant)|);
    }
  }

  lemma {:induction false} TokensAreAdmissions(run: Run, tenant: string, a: nat, b: nat)
    requires a <= b <= |run.steps| && WellKeyed(run.start)
    ensures TokensMatch(run, tenant, a, b)
    decreases b, 1
  {
    if a < b {
      TokensFrom(run, tenant, a, b - 1, b);
    }
  }

  lemma {:induction false} TokensFrom(run: Run, tenant: string, a: nat, m: nat, b: nat)
    requires a <= m && b == m + 1 <= |run.steps| && WellKeyed(run.start)
    ensures TokensMatch(run, tenant, a, b)
    decreases b, 0
  {
    TokensAreAdmissions(run, tenant, a, m);
    TokensMatchNext(run, tenant, a, m, b);
  }

  // ----- The window -----

  /** Among steps a..b-1 the limiter's clock is read in order and within [from, to]. */
  predicate InWindow(steps: seq<Step>, a: nat, b: nat, from: real, to: real)
    requires a <= b <= |steps|
  {
    && (forall i, j | a <= i <= j < b && steps[i].Arrive? && steps[j].Arrive? ::
          steps[i].clock.limitAt <= steps[j].clock.limitAt)
    && (forall i | a <= i < b && steps[i].Arrive? :: from <= steps[i].clock.limitAt <= to)
  }

  /** Whenever the tenant reaches the limiter in steps a..b-1, the policy in force leaves it at most this limit. */
  predicate LimitedBy(run: Run, tenant: string, a: nat, b: nat, largest: int)
    requires a <= b <= |run.steps|
  {
    forall m | a <= m < b && ReachesLimiter(run, m, tenant) ::
      Pipeline.EffectiveLimit(PoliciesAt(run, m)[tenant]) <= largest
  }

  /** The visits from j on, in clock order, within [from, to] and under the limit. */
  predicate Orderly(visits: seq<RateLimiter.Visit>, j: nat, limit: int, from: real, to: real) {
    forall i | j <= i < |visits| ::
      visits[i].limit <= limit && from <= visits[i].now <= to && (i > j ==> visits[i - 1].now <= visits[i].now)
  }

  /** What step m adds to the tenant's visits keeps to the limit and to the step's own clock. */
  lemma VisitWithinLimit(run: Run, tenant: string, m: nat, largest: int) returns (v: Option<RateLimiter.Visit>)
    requires m < |run.steps| && WellKeyed(run.start)
    requires ReachesLimiter(run, m, tenant) ==> Pipeline.EffectiveLimit(PoliciesAt(run, m)[tenant]) <= largest
    ensures Visits(run, m + 1, tenant) == Visits(run, m, tenant) + match v case None => [] case Some(one) => [one]
    ensures v.Some? ==>
              && run.steps[m].Arrive?
              && v.value.now == run.steps[m].clock.limitAt && v.value.limit <= largest
  {
    VisitOf(run, m, tenant);
    v := if ReachesLimiter(run, m, tenant) then Some(Visits(run, m + 1, tenant)[|Visits(run, m, tenant)|]) else None;
  }

  /** The latest that the limiter's clock can have been read before step m + 1. */
  function Until(steps: seq<Step>, m: nat, to: real): real
    requires m < |steps|
  {
    if steps[m].Arrive? then steps[m].clock.limitAt else to
  }

  lemma ShorterWindow(steps: seq<Step>, a: nat, m: nat, from: real, to: real)
    requires a <= m < |steps| && InWindow(steps, a, m + 1, from, to)
    ensures InWindow(steps, a, m, from, Until(steps, m, to)) && Until(steps, m, to) <= to
    ensures steps[m].Arrive? ==> from <= Until(steps, m, to)
  {
  }

  /** One more visit, or none, at the end of the window. */
  lemma OrderlyNext(before: seq<RateLimiter.Visit>, v: Option<RateLimiter.Visit>, after: seq<RateLimiter.Visit>,
                    j: nat, limit: int, from: real, until: real, to: real)
    requires after == before + match v case None => [] case Some(one) => [one]
    requires v.Some? ==> v.value.limit <= limit && from <= v.value.now == until
    requires Orderly(before, j, limit, from, until) && until <= to
    ensures Orderly(after, j, limit, from, to)
  {
  }

  lemma {:induction false} WindowOrderly(run: Run, tenant: string, a: nat, b: nat, from: real, to: real, largest: int)
    requires a <= b <= |run.steps| && WellKeyed(run.start)
    requires InWindow(run.steps, a, b, from, to) && LimitedBy(run, tenant, a, b, largest)
    ensures Orderly(Visits(run, b, tenant), |Visits(run, a, tenant)|, largest, from, to)
    decreases b
  {
    if a < b {
      var m: nat := b - 1;
      var until := Until(run.steps, m, to);
      ShorterWindow(run.steps, a, m, from, to);
      WindowOrderly(run, tenant, a, m, from, until, largest);
      var v := VisitWithinLimit(run, tenant, m, largest);
      OrderlyNext(Visits(run, m, tenant), v, Visits(run, b, tenant), |Visits(run, a, tenant)|, largest, from, until,
                  to);
    }
  }

  lemma PlainAllowanceGrows(limit: int, span: real, longer: real)
    requires 0.0 <= span <= longer
    ensures 0.0 <= RateLimiter.PlainAllowance(limit, span) <= RateLimiter.PlainAllowance(limit, longer)
  {
    assert 0.0 <= RateLimiter.Capacity(limit) / 60.0 * span;
    RateLimiter.Ordered(span, longer, RateLimiter.Capacity(limit) / 60.0);
  }

  lemma OrderlyBound(visits: seq<RateLimiter.Visit>, j: nat, limit: int, from: real, to: real)
    requires j <= |visits| && from <= to && Orderly(visits, j, limit, from, to)
    ensures RateLimiter.Admissions(visits, j, |visits|) as real <= RateLimiter.PlainAllowance(limit, to - from)
  {
    if j == |visits| {
      PlainAllowanceGrows(limit, 0.0, to - from);
    } else {
      var k: nat := |visits| - 1;
      FirstBeforeLast(visits, j, k, limit, from, to);
      RateLimiter.LargestLimitGoverns(visits, j, k, limit);
      PlainAllowanceGrows(limit, RateLimiter.Span(visits, j, k), to - from);
    }
  }

  lemma {:induction false} FirstBeforeLast(visits: seq<RateLimiter.Visit>, j: nat, k: nat, limit: int, from: real,
                                           to: real)
    requires j <= k < |visits| && Orderly(visits, j, limit, from, to)
    ensures visits[j].now <= visits[k].now && RateLimiter.ClockOrdered(visits, j, k)
    decreases k
  {
    if j < k {
      FirstBeforeLast(visits, j, k - 1, limit, from, to);
    }
  }

  // ----- From tokens to upstream calls -----

  lemma TokenKeptNext(run: Run, m: nat, k: nat, n: nat, tenant: string)
    requires m < k && n == k + 1 <= |run.steps|
    ensures TookToken(After(run, n), m, tenant) <==> TookToken(After(run, k), m, tenant)
  {
    ChatsAreArrivals(run, n);
    ChatsAreArrivals(run, k);
    AfterNext(run, k);
    if run.steps[m].Arrive? {
      GateKept(run.cfg, After(run, k), k, run.steps[k], m);
    }
  }

  lemma {:induction false} TokenKept(run: Run, m: nat, n: nat, tenant: string)
    requires m < n <= |run.steps|
    ensures TookToken(After(run, n), m, tenant) <==> TookToken(After(run, m + 1), m, tenant)
    decreases n, 1
  {
    if m + 1 < n {
      TokenKeptFrom(run, m, n - 1, n, tenant);
    }
  }

  lemma {:induction false} TokenKeptFrom(run: Run, m: nat, k: nat, n: nat, tenant: string)
    requires m < k && n == k + 1 <= |run.steps|
    ensures TookToken(After(run, n), m, tenant) <==> TookToken(After(run, m + 1), m, tenant)
    decreases n, 0
  {
    TokenKept(run, m, k, tenant);
    TokenKeptNext(run, m, k, n, tenant);
  }

  /** Upstream calls started so far by request r, if it is the tenant's. */
  function LoadOf(s: State, tenant: string, r: nat): nat {
    if r in s.chats && s.chats[r].identity.tenant == tenant then s.chats[r].calls else 0
  }

  /** Upstream calls started so far by the tenant's requests that arrived in steps a..b-1. */
  function Load(s: State, tenant: string, a: nat, b: nat): nat
    requires a <= b
    decreases b
  {
    if a == b then 0 else Load(s, tenant, a, b - 1) + LoadOf(s, tenant, b - 1)
  }

  lemma RequestLoad(run: Run, n: nat, tenant: string, r: nat)
    requires r < n <= |run.steps| && tenant in run.start
    ensures LoadOf(After(run, n), tenant, r)
            <= if TookToken(After(run, r + 1), r, tenant) then Budget(run.cfg.router, run.start[tenant].routeSet) else 0
  {
    if LoadOf(After(run, n), tenant, r) > 0 {
      TokenKept(run, r, n, tenant);
      AlwaysProper(run, n, r);
      SeesCompletedFlips(run, n, r);
      EpochsBetween(run, 0, r, tenant);
    }
  }

  lemma AddProducts(load: nat, tokens: nat, more: nat, budget: nat)
    requires load <= tokens * budget
    ensures more <= budget ==> load + more <= (tokens + 1) * budget
    ensures more == 0 ==> load + more <= tokens * budget
  {
  }

  lemma {:induction false} LoadAtMost(run: Run, n: nat, tenant: string, a: nat, b: nat, budget: nat)
    requires a <= b <= n <= |run.steps| && tenant in run.start
    requires budget == Budget(run.cfg.router, run.start[tenant].routeSet)
    ensures Load(After(run, n), tenant, a, b) <= Tokens(run, tenant, a, b) * budget
    decreases b
  {
    if a < b {
      var m: nat := b - 1;
      LoadAtMost(run, n, tenant, a, m, budget);
      RequestLoad(run, n, tenant, m);
      AddProducts(Load(After(run, n), tenant, a, m), Tokens(run, tenant, a, m), LoadOf(After(run, n), tenant, m),
                  budget);
    }
  }

  /** What a window of this length lets a tenant's requests call upstream: tokens times the calls that one can cost. */
  function LoadLimit(limit: int, span: real, budget: nat): real {
    RateLimiter.PlainAllowance(limit, span) * budget as real
  }

  lemma TokensTimesBudget(load: nat, tokens: nat, limit: int, span: real, budget: nat)
    requires load <= tokens * budget && tokens as real <= RateLimiter.PlainAllowance(limit, span)
    ensures load as real <= LoadLimit(limit, span, budget)
  {
    RateLimiter.Ordered(tokens as real, RateLimiter.PlainAllowance(limit, span), budget as real);
    assert (tokens * budget) as real == tokens as real * budget as real;
  }

  lemma TokensInWindow(run: Run, tenant: string, a: nat, b: nat, from: real, to: real, largest: int)
    requires a <= b <= |run.steps| && WellKeyed(run.start) && from <= to
    requires InWindow(run.steps, a, b, from, to) && LimitedBy(run, tenant, a, b, largest)
    ensures Tokens(run, tenant, a, b) as real <= RateLimiter.PlainAllowance(largest, to - from)
  {
    TokensAreAdmissions(run, tenant, a, b);
    WindowOrderly(run, tenant, a, b, from, to, largest);
    OrderlyBound(Visits(run, b, tenant), |Visits(run, a, tenant)|, largest, from, to);
  }

  /**
   * In every run, the requests of a tenant that arrive within a window of length T start at
   * most (L + L * T / 60) * (1 + fallbacks) * (max_retries + 1) upstream calls, now or
   * later, whatever the other tenants and the interleaving.  L is the largest limit that
   * the policies in force in that window leave the tenant.
   */
  lemma TenantLoadBound(run: Run, n: nat, tenant: string, a: nat, b: nat, from: real, to: real, largest: int)
    requires a <= b <= n <= |run.steps| && WellKeyed(run.start) && tenant in run.start && from <= to
    requires InWindow(run.steps, a, b, from, to) && LimitedBy(run, tenant, a, b, largest)
    ensures Load(After(run, n), tenant, a, b) as real
            <= LoadLimit(largest, to - from, Budget(run.cfg.router, run.start[tenant].routeSet))
  {
    var budget := Budget(run.cfg.router, run.start[tenant].routeSet);
    TokensInWindow(run, tenant, a, b, from, to, largest);
    LoadAtMost(run, n, tenant, a, b, budget);
    TokensTimesBudget(Load(After(run, n), tenant, a, b), Tokens(run, tenant, a, b), largest, to - from, budget);
  }

  lemma LimitAtMost(run: Run, m: nat, tenant: string)
    requires m <= |run.steps| && tenant in run.start
    ensures tenant in PoliciesAt(run, m)
    ensures var limit := Pipeline.EffectiveLimit(PoliciesAt(run, m)[tenant]);
            && limit <= Max(1, run.start[tenant].rpmLimit)
            && (PoliciesAt(run, m)[tenant].state == Throttled ==> Pipeline.IsAFifth(limit, run.start[tenant].rpmLimit))
  {
    EpochsBetween(run, 0, m, tenant);
    var policy := PoliciesAt(run, m)[tenant];
    Pipeline.ThrottlingNeverRaises(policy);
    assert policy.(state := policy.state) == policy;
    if policy.state == Throttled {
      Pipeline.ThrottledIsAFifth(policy);
    }
  }

  /** No sequence of flips gets a tenant past the limit it is configured with. */
  lemma AnyFlipsLoadBound(run: Run, n: nat, tenant: string, a: nat, b: nat, from: real, to: real)
    requires a <= b <= n <= |run.steps| && WellKeyed(run.start) && tenant in run.start && from <= to
    requires InWindow(run.steps, a, b, from, to)
    ensures Load(After(run, n), tenant, a, b) as real
            <= LoadLimit(Max(1, run.start[tenant].rpmLimit), to - from,
                         Budget(run.cfg.router, run.start[tenant].routeSet))
  {
    var largest := Max(1, run.start[tenant].rpmLimit);
    forall m | a <= m < b && ReachesLimiter(run, m, tenant)
      ensures Pipeline.EffectiveLimit(PoliciesAt(run, m)[tenant]) <= largest
    {
      LimitAtMost(run, m, tenant);
    }
    TenantLoadBound(run, n, tenant, a, b, from, to, largest);
  }

  predicate HeldBack(state: TenantState) {
    state in {Throttled, Suspended, EmergencyBlock}
  }

  /** Step k throttles or blocks the tenant, and no later step before step b lifts that. */
  predicate HeldBackBetween(steps: seq<Step>, k: nat, b: nat, tenant: string)
    requires k < b <= |steps|
  {
    && steps[k].Administer? && steps[k].flip.tenant == tenant
    && forall i | k <= i < b && steps[i].Administer? && steps[i].flip.tenant == tenant :: HeldBack(steps[i].flip.state)
  }

  lemma HeldBackAfterFlip(policies: Policies, flip: Flip, tenant: string)
    requires tenant in policies
    requires if flip.tenant == tenant then HeldBack(flip.state) else HeldBack(policies[tenant].state)
    ensures var next := WithState(policies, flip.tenant, flip.state); tenant in next && HeldBack(next[tenant].state)
  {
  }

  lemma {:induction false} StaysHeldBack(run: Run, k: nat, b: nat, tenant: string)
    requires k < b <= |run.steps| && tenant in run.start && HeldBackBetween(run.steps, k, b, tenant)
    ensures tenant in PoliciesAt(run, b) && HeldBack(PoliciesAt(run, b)[tenant].state)
    decreases b
  {
    var m: nat := b - 1;
    FlipsNext(run, m);
    if k < m {
      assert HeldBackBetween(run.steps, k, m, tenant);
      StaysHeldBack(run, k, m, tenant);
    } else {
      NoOtherTenants(run.start, Flips(run.steps, m));
      assert tenant in PoliciesAt(run, m);
    }
    if run.steps[m].Administer? {
      HeldBackAfterFlip(PoliciesAt(run, m), run.steps[m].flip, tenant);
    }
  }

  /**
   * From the step that throttles a tenant on, until a flip lifts it, the throttled limit
   * governs: a fifth, and at least one.
   */
  lemma ThrottledLoadBound(run: Run, n: nat, tenant: string, k: nat, a: nat, b: nat, from: real, to: real)
    requires k < a <= b <= n <= |run.steps| && WellKeyed(run.start) && tenant in run.start && from <= to
    requires HeldBackBetween(run.steps, k, b, tenant) && InWindow(run.steps, a, b, from, to)
    ensures Load(After(run, n), tenant, a, b) as real
            <= LoadLimit(Max(1, run.start[tenant].rpmLimit / 5), to - from,
                         Budget(run.cfg.router, run.start[tenant].routeSet))
  {
    var largest := Max(1, run.start[tenant].rpmLimit / 5);
    forall m | a <= m < b && ReachesLimiter(run, m, tenant)
      ensures Pipeline.EffectiveLimit(PoliciesAt(run, m)[tenant]) <= largest
    {
      assert HeldBackBetween(run.steps, k, m, tenant);
      StaysHeldBack(run, k, m, tenant);
      LimitAtMost(run, m, tenant);
    }
    TenantLoadBound(run, n, tenant, a, b, from, to, largest);
  }

  /**
   * In every run, an upstream call is preceded, in its own request, by a policy in force
   * that does not block, a token taken from the tenant's bucket, a model the tenant may
   * use and an input check that allowed the text or was a low-risk opt-in bypass.
   */
  lemma CallsArePermitted(run: Run, n: nat, r: nat)
    requires n <= |run.steps| && WellKeyed(run.start) && r in After(run, n).chats && After(run, n).chats[r].calls > 0
    ensures r < n
    ensures var c := After(run, n).chats[r];
            && c.gate.Admitted?
            && Lookup(PoliciesAt(run, r), c.identity.tenant) == Some(c.gate.policy)
            && c.gate.policy.state in {Active, Throttled, ReadOnly}
            && c.calls <= Budget(run.cfg.router, c.gate.policy.routeSet)
            && c.asked.Some? && Cleared(run.cfg, c.identity, c.gate.policy, c.asked.value)
            && var visits := Visits(run, r + 1, c.identity.tenant);
               && visits != [] && visits[|visits| - 1].limit == Pipeline.EffectiveLimit(c.gate.policy)
               && RateLimiter.Admitted(visits, |visits| - 1)
  {
    SeesCompletedFlips(run, n, r);
    AlwaysProper(run, n, r);
    var tenant := After(run, n).chats[r].identity.tenant;
    TokenKept(run, r, n, tenant);
    VisitOf(run, r, tenant);
  }
}
