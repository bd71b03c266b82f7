/**
 * What holds in every run of the gateway, whatever the steps and their order.
 */
module GatewayRuns {
  import opened Wrappers
  import opened PolicyStore
  import opened Pipeline
  import opened CacheKey
  import opened Gateway
  import BedrockClient
  import Breaker
  import Router
  import Streaming

  lemma AfterNext(run: Run, m: nat)
    requires m < |run.steps|
    ensures After(run, m + 1) == Next(run.cfg, After(run, m), m, run.steps[m])
  {
  }

  /** The run that goes on with more steps. */
  function Longer(run: Run, more: seq<Step>): Run {
    run.(steps := run.steps + more)
  }

  lemma {:induction false} LongerAgrees(run: Run, more: seq<Step>, n: nat)
    requires n <= |run.steps|
    ensures After(Longer(run, more), n) == After(run, n)
  {
    if n > 0 {
      LongerAgrees(run, more, n - 1);
    }
  }

  /** The state at the end of a run. */
  function Last(run: Run): State {
    After(run, |run.steps|)
  }

  /** A run and one more step. */
  lemma OneMore(run: Run, step: Step, longer: Run)
    requires longer == Longer(run, [step])
    ensures |longer.steps| == |run.steps| + 1
    ensures Last(longer) == Next(run.cfg, Last(run), |run.steps|, step)
  {
    LongerAgrees(run, [step], |run.steps|);
  }

  // ----- Each request sees the policy that the flips before it leave -----

  /** The admin flips among the first n steps. */
  function Flips(steps: seq<Step>, n: nat): seq<Flip>
    requires n <= |steps|
  {
    if n == 0 then [] else
    match steps[n - 1]
    case Administer(flip) => Flips(steps, n - 1) + [flip]
    case _ => Flips(steps, n - 1)
  }

  /** The policies once the flips among the first n steps are made. */
  function PoliciesAt(run: Run, n: nat): Policies
    requires n <= |run.steps|
  {
    AfterFlips(run.start, Flips(run.steps, n))
  }

  /** A snapshot in the cache is never behind the store. */
  predicate SnapshotsCurrent(s: Shared) {
    forall t | t in s.snapshots :: t in s.policies && s.snapshots[t].policy == s.policies[t]
  }

  lemma OnlyGateAndAdmin(cfg: Config, s: State, n: nat, step: Step)
    requires !step.Arrive? && !step.Administer?
    ensures SamePlane(Next(cfg, s, n, step).shared, s.shared)
  {
  }

  lemma FlipsNext(run: Run, m: nat)
    requires m < |run.steps|
    ensures PoliciesAt(run, m + 1)
            == (match run.steps[m]
                case Administer(flip) => WithState(PoliciesAt(run, m), flip.tenant, flip.state)
                case _ => PoliciesAt(run, m))
  {
    if run.steps[m].Administer? {
      var flips := Flips(run.steps, m);
      assert (flips + [run.steps[m].flip])[..|flips|] == flips;
    }
  }

  lemma {:induction false} PolicyPlane(run: Run, n: nat)
    requires n <= |run.steps|
    ensures After(run, n).shared.policies == PoliciesAt(run, n) && SnapshotsCurrent(After(run, n).shared)
  {
    if n > 0 {
      var m: nat := n - 1;
      PolicyPlane(run, m);
      FlipsNext(run, m);
      PlaneNext(run.cfg, After(run, m), m, run.steps[m]);
    }
  }

  lemma PlaneNext(cfg: Config, s: State, n: nat, step: Step)
    requires SnapshotsCurrent(s.shared)
    ensures var next := Next(cfg, s, n, step).shared;
            && SnapshotsCurrent(next)
            && next.policies == (match step
                                 case Administer(flip) => WithState(s.shared.policies, flip.tenant, flip.state)
                                 case _ => s.shared.policies)
  {
    if !step.Arrive? && !step.Administer? {
      OnlyGateAndAdmin(cfg, s, n, step);
    }
  }

  /** The gate goes by the policy in force, and blocks exactly a tenant that is suspended or emergency-blocked. */
  predicate GateShows(gate: Gate, policies: Policies, tenant: string) {
    if gate.NotProvisioned? then tenant !in policies
    else
      && Lookup(policies, tenant) == Some(gate.policy)
      && (gate.Blocked? <==> gate.policy.state in {Suspended, EmergencyBlock})
  }

  lemma {:induction false} ChatsAreArrivals(run: Run, n: nat)
    requires n <= |run.steps|
    ensures forall r | r in After(run, n).chats :: r < n && run.steps[r].Arrive?
    ensures forall r | 0 <= r < n && run.steps[r].Arrive? :: r in After(run, n).chats
  {
    if n > 0 {
      ChatsAreArrivals(run, n - 1);
    }
  }

  lemma ArrivalShows(run: Run, n: nat)
    requires n < |run.steps| && run.steps[n].Arrive?
    ensures var c := After(run, n + 1).chats[n];
            && c.identity == run.steps[n].identity
            && GateShows(c.gate, PoliciesAt(run, n), c.identity.tenant)
  {
    PolicyPlane(run, n);
  }

  /** Once a request is there, its identity and its gate never change. */
  lemma GateKept(cfg: Config, s: State, n: nat, step: Step, r: nat)
    requires r in s.chats && r != n
    ensures var next := Next(cfg, s, n, step).chats;
            r in next && next[r].identity == s.chats[r].identity && next[r].gate == s.chats[r].gate
  {
  }

  /** An ended request never changes again. */
  lemma EndedKept(cfg: Config, s: State, n: nat, step: Step, r: nat)
    requires r in s.chats && r != n && s.chats[r].phase.Ended?
    ensures r in Next(cfg, s, n, step).chats && Next(cfg, s, n, step).chats[r] == s.chats[r]
  {
  }

  /** Request r is the arrival of step r, judged by the policies in force then. */
  predicate Sees(run: Run, n: nat, r: nat)
    requires n <= |run.steps| && r in After(run, n).chats
  {
    r < n && run.steps[r].Arrive? &&
    var c := After(run, n).chats[r];
    c.identity == run.steps[r].identity && GateShows(c.gate, PoliciesAt(run, r), c.identity.tenant)
  }

  lemma SeesNext(run: Run, m: nat, n: nat, r: nat)
    requires n == m + 1 <= |run.steps| && r in After(run, m).chats && Sees(run, m, r)
    ensures r in After(run, n).chats && Sees(run, n, r)
  {
    AfterNext(run, m);
    GateKept(run.cfg, After(run, m), m, run.steps[m], r);
  }

  /**
   * A request is judged by exactly the policy that the flips completed before its arrival
   * leave, in any interleaving.
   */
  lemma {:induction false} SeesCompletedFlips(run: Run, n: nat, r: nat)
    requires n <= |run.steps| && r in After(run, n).chats
    ensures Sees(run, n, r)
    decreases n, 1
  {
    ChatsAreArrivals(run, n);
    if r == n - 1 {
      ArrivalShows(run, r);
    } else {
      SeesFrom(run, n - 1, n, r);
    }
  }

  lemma {:induction false} SeesFrom(run: Run, m: nat, n: nat, r: nat)
    requires n == m + 1 <= |run.steps| && r in After(run, n).chats && r < m
    ensures Sees(run, n, r)
    decreases n, 0
  {
    ChatsAreArrivals(run, n);
    ChatsAreArrivals(run, m);
    SeesCompletedFlips(run, m, r);
    SeesNext(run, m, n, r);
  }

  // ----- Epoch discipline -----

  lemma {:induction false} FlipsPrefix(steps: seq<Step>, m: nat, n: nat)
    requires m <= n <= |steps|
    ensures Flips(steps, m) <= Flips(steps, n)
    decreases n
  {
    if m < n {
      FlipsPrefix(steps, m, n - 1);
    }
  }

  lemma EpochsBetween(run: Run, m: nat, n: nat, tenant: string)
    requires m <= n <= |run.steps| && tenant in run.start
    ensures tenant in PoliciesAt(run, m) && tenant in PoliciesAt(run, n)
    ensures var earlier, later := PoliciesAt(run, m)[tenant], PoliciesAt(run, n)[tenant];
            && SameSettings(earlier, later)
            && earlier.policyEpoch <= later.policyEpoch
            && (earlier.policyEpoch == later.policyEpoch ==> earlier == later)
  {
    FlipsPrefix(run.steps, m, n);
    var earlier, later := Flips(run.steps, m), Flips(run.steps, n);
    assert later[..|earlier|] == earlier;
    EpochNamesPolicy(run.start, later, |earlier|, tenant);
  }

  lemma {:induction false} NoOtherTenants(policies: Policies, flips: seq<Flip>)
    ensures AfterFlips(policies, flips).Keys == policies.Keys
  {
    if flips != [] {
      NoOtherTenants(policies, flips[..|flips| - 1]);
    }
  }

  lemma FlipRaisesEpoch(run: Run, m: nat, k: nat, n: nat, tenant: string)
    requires m <= k < n <= |run.steps| && tenant in run.start
    requires run.steps[k].Administer? && run.steps[k].flip.tenant == tenant
    ensures tenant in PoliciesAt(run, m) && tenant in PoliciesAt(run, n)
    ensures PoliciesAt(run, m)[tenant].policyEpoch < PoliciesAt(run, n)[tenant].policyEpoch
  {
    EpochsBetween(run, m, k, tenant);
    EpochsBetween(run, k + 1, n, tenant);
    var flips := Flips(run.steps, k);
    assert (flips + [run.steps[k].flip])[..|flips|] == flips;
  }

  /**
   * The tenant's snapshots over a run: epochs never go back, an epoch is one policy, and a
   * flip between two arrivals separates their epochs.
   */
  lemma EpochDiscipline(run: Run, n: nat, q: nat, r: nat)
    requires n <= |run.steps| && q in After(run, n).chats && r in After(run, n).chats && q <= r
    requires var chats := After(run, n).chats;
             chats[q].identity.tenant == chats[r].identity.tenant && !chats[q].gate.NotProvisioned?
    ensures r < n
    ensures var chats := After(run, n).chats;
            !chats[r].gate.NotProvisioned? &&
            var earlier, later := chats[q].gate.policy, chats[r].gate.policy;
            && SameSettings(earlier, later)
            && earlier.policyEpoch <= later.policyEpoch
            && (earlier.policyEpoch == later.policyEpoch ==> earlier == later)
            && ((exists k | q <= k < r ::
                   run.steps[k].Administer? && run.steps[k].flip.tenant == chats[q].identity.tenant)
                ==> earlier.policyEpoch < later.policyEpoch)
  {
    SeesCompletedFlips(run, n, q);
    SeesCompletedFlips(run, n, r);
    var tenant := After(run, n).chats[q].identity.tenant;
    NoOtherTenants(run.start, Flips(run.steps, q));
    EpochsBetween(run, q, r, tenant);
    if k :| q <= k < r && run.steps[k].Administer? && run.steps[k].flip.tenant == tenant {
      FlipRaisesEpoch(run, q, k, r, tenant);
    }
  }

  // ----- What must come before an upstream call -----

  /** The most upstream calls one chat request can start. */
  function Budget(cfg: Router.Config, routeSet: Option<string>): nat {
    (1 + |Router.FallbacksFor(cfg.routeSets, routeSet)|) * BedrockClient.MaxCalls(cfg.maxRetries)
  }

  /** A guardrail allowed the text, or could not be asked and the tenant's low-risk policy opted in. */
  predicate LetThrough(policy: TenantPolicy, verdict: Verdict) {
    verdict == Allow || (verdict == CheckFailed && MayBypass(policy))
  }

  /**
   * What was asked names the tenant's own policy and a model the tenant may use, and the
   * input guardrail let it through.
   */
  predicate Cleared(cfg: Config, id: Identity, policy: TenantPolicy, a: Asked) {
    && a.request.tenantId == id.tenant && a.request.applicationId == id.application && a.request.policy == policy
    && a.request.messages == a.chat.messages && a.request.maxTokens == a.chat.maxTokens
    && a.request.temperature == a.chat.temperature
    && Allowed(policy, a.request.modelId)
    && Some(a.request.modelId) == ResolveModel(policy, a.chat.model, cfg.defaultModel)
    && LetThrough(policy, a.verdict)
  }

  predicate Proper(cfg: Config, c: Conversation) {
    && (c.asked.Some? ==> c.gate.Admitted? && Cleared(cfg, c.identity, c.gate.policy, c.asked.value))
    && (c.gate.Admitted? ==> c.gate.policy.state in {Active, Throttled, ReadOnly})
    && (c.calls > 0 ==> c.asked.Some? && c.calls <= Budget(cfg.router, c.gate.policy.routeSet))
    && (match c.phase
        case Waiting => c.gate.Admitted? && c.calls == 0 && c.asked.None?
        case Open(stream) =>
          c.asked.Some? && c.asked.value.chat.stream && c.calls == if stream.stage.Unstarted? then 0 else 1
        case Ended(reply) =>
          && (reply.Hit? ==> c.asked.Some? && c.calls == 0)
          && (reply.Streamed? ==> c.asked.Some? && c.asked.value.chat.stream && c.calls == 1))
  }

  /** A chat request goes on exactly when its model is allowed and its input let through; the model is judged first. */
  lemma PreparedIsCleared(cfg: Config, id: Identity, policy: TenantPolicy, chat: Chat, verdict: Verdict)
    ensures var p := Prepare(cfg, id, policy, chat, verdict);
            var forbidden := chat.model.Some? && !Allowed(policy, chat.model.value);
            && (p.Success? ==> p.value.chat == chat && p.value.verdict == verdict && Cleared(cfg, id, policy, p.value))
            && (p.Success? <==> !forbidden && LetThrough(policy, verdict))
            && (p == Failure(ModelNotAllowed) <==> forbidden)
            && (p == Failure(InputRejected) <==> !forbidden && !LetThrough(policy, verdict))
  {
    ResolvedModelIsAllowed(policy, chat.model, cfg.defaultModel);
    FailsClosed(policy, verdict);
  }

  /**
   * A request that misses the cache is told that all routes are unavailable exactly when it
   * started no upstream call; a hit starts none.
   */
  lemma UnavailableIffNoCall(cfg: Config, s: Shared, r: Request, world: World)
    ensures var (next, reply, calls) := Complete(cfg, s, r, world);
            calls == 0 <==> reply.Hit? || reply == Reply.AllRoutesUnavailable
  {
    Router.UnavailableIffNoCall(TourOf(cfg, s, r, world));
  }

  lemma AtLeastOneCall(cfg: Router.Config, routeSet: Option<string>)
    ensures 1 <= Budget(cfg, routeSet)
  {
    Scale(1, 1, |Router.FallbacksFor(cfg.routeSets, routeSet)|, BedrockClient.MaxCalls(cfg.maxRetries));
  }

  lemma Scale(calls: nat, candidates: nat, fallbacks: nat, each: nat)
    requires calls <= candidates * each && candidates <= 1 + fallbacks
    ensures calls <= (1 + fallbacks) * each
  {
    Router.MoreCandidates(candidates, 1 + fallbacks, each);
  }

  lemma TourWithinBudget(t: Router.Tour, primary: string, routeSet: Option<string>)
    requires t.candidates == Router.Candidates(t.cfg.routeSets, primary, routeSet)
    ensures Router.TotalCalls(t) <= Budget(t.cfg, routeSet)
  {
    Router.RouterBudget(t);
    var from := Router.CandidatesCertified(t.cfg.routeSets, primary, routeSet);
    Scale(Router.TotalCalls(t), |t.candidates|, |Router.FallbacksFor(t.cfg.routeSets, routeSet)|,
          BedrockClient.MaxCalls(t.cfg.maxRetries));
  }

  lemma CompleteWithinBudget(cfg: Config, s: Shared, r: Request, world: World)
    ensures Complete(cfg, s, r, world).2 <= Budget(cfg.router, r.policy.routeSet)
  {
    TourWithinBudget(TourOf(cfg, s, r, world), r.modelId, r.policy.routeSet);
  }

  lemma TourWithinBackoff(t: Router.Tour, primary: string, routeSet: Option<string>, most: BedrockClient.Seconds)
    requires t.candidates == Router.Candidates(t.cfg.routeSets, primary, routeSet)
    requires most == BedrockClient.MostSlept(t.cfg.baseBackoff, t.cfg.maxRetries)
    ensures 0.0 <= Router.TotalSleep(t) <= Router.Times(1 + |Router.FallbacksFor(t.cfg.routeSets, routeSet)|, most)
  {
    var from := Router.CandidatesCertified(t.cfg.routeSets, primary, routeSet);
    Router.RouterBackoff(t, most);
    Router.TimesGrows(|t.candidates|, 1 + |Router.FallbacksFor(t.cfg.routeSets, routeSet)|, most);
  }

  /** And never sleeps longer than base * (2^max_retries - 1) for each candidate. */
  lemma CompleteWithinBackoff(cfg: Config, s: Shared, r: Request, world: World, most: BedrockClient.Seconds)
    requires most == BedrockClient.MostSlept(cfg.router.baseBackoff, cfg.router.maxRetries)
    ensures RequestSleep(cfg, s, r, world)
            <= Router.Times(1 + |Router.FallbacksFor(cfg.router.routeSets, r.policy.routeSet)|, most)
  {
    TourWithinBackoff(TourOf(cfg, s, r, world), r.modelId, r.policy.routeSet, most);
  }

  lemma HitCallsNothing(cfg: Config, s: Shared, r: Request, world: World)
    ensures Complete(cfg, s, r, world).1.Hit? ==> Complete(cfg, s, r, world).2 == 0
    ensures !Complete(cfg, s, r, world).1.Streamed?
  {
  }

  lemma AnsweredIsProper(cfg: Config, c: Conversation, asked: Asked, reply: Reply, calls: nat)
    requires c.gate.Admitted? && c.gate.policy.state in {Active, Throttled, ReadOnly}
    requires Cleared(cfg, c.identity, c.gate.policy, asked)
    requires calls <= Budget(cfg.router, c.gate.policy.routeSet) && (reply.Hit? ==> calls == 0) && !reply.Streamed?
    ensures Proper(cfg, c.(asked := Some(asked), phase := Ended(reply), calls := calls))
  {
  }

  lemma ResumedIsProper(cfg: Config, s: Shared, c: Conversation, body: Body, world: World)
    requires Proper(cfg, c) && c.phase.Waiting? && c.gate.Admitted?
    ensures Proper(cfg, Resumed(cfg, s, c, body, world).1)
  {
    if body.Parsed? {
      PreparedIsCleared(cfg, c.identity, c.gate.policy, body.chat, world.inputVerdict);
      var p := Prepare(cfg, c.identity, c.gate.policy, body.chat, world.inputVerdict);
      if p.Success? && !body.chat.stream {
        var (next, reply, calls) := Complete(cfg, s, p.value.request, world);
        CompleteWithinBudget(cfg, s, p.value.request, world);
        HitCallsNothing(cfg, s, p.value.request, world);
        AnsweredIsProper(cfg, c, p.value, reply, calls);
      }
    }
  }

  lemma AdvancedIsProper(cfg: Config, s: Shared, c: Conversation, at: real)
    requires Proper(cfg, c) && c.phase.Open?
    ensures Proper(cfg, Advanced(cfg, s, c, at).1)
  {
    AtLeastOneCall(cfg.router, c.gate.policy.routeSet);
    Streaming.AdvanceStarts(c.phase.stream);
  }

  lemma NextIsProper(cfg: Config, s: State, n: nat, step: Step, r: nat)
    requires r in Next(cfg, s, n, step).chats && (r in s.chats ==> Proper(cfg, s.chats[r]))
    ensures Proper(cfg, Next(cfg, s, n, step).chats[r])
  {
    match step
    case Arrive(_, _) =>
    case Resume(id, body, world) =>
      if id == r && s.chats[r].phase.Waiting? && s.chats[r].gate.Admitted? {
        ResumedIsProper(cfg, s.shared, s.chats[r], body, world);
      }
    case Advance(id, at) =>
      if id == r && s.chats[r].phase.Open? {
        AdvancedIsProper(cfg, s.shared, s.chats[r], at);
      }
    case Administer(_) =>
  }

  lemma {:induction false} AlwaysProper(run: Run, n: nat, r: nat)
    requires n <= |run.steps| && r in After(run, n).chats
    ensures Proper(run.cfg, After(run, n).chats[r])
  {
    var m: nat := n - 1;
    if r in After(run, m).chats {
      AlwaysProper(run, m, r);
    }
    NextIsProper(run.cfg, After(run, m), m, run.steps[m], r);
  }

  // ----- Why a request was turned away -----

  /** The model that the request names is not the tenant's to use. */
  predicate Forbidden(policy: TenantPolicy, chat: Chat) {
    chat.model.Some? && !Allowed(policy, chat.model.value)
  }

  /** The router's answer to this text was held back by the output guardrail. */
  predicate OutputHeld(cfg: Config, s: Shared, policy: TenantPolicy, r: Request, world: World) {
    var outcome := Router.Route(TourOf(cfg, s, r, world));
    outcome.Routed? && !LetThrough(policy, world.outputVerdict(outcome.result.completion.text))
  }

  /** What this reply says about the request, read against the tenant's policy and what the request met. */
  predicate Reason(cfg: Config, s: Shared, c: Conversation, body: Body, world: World, d: Conversation)
    requires c.gate.Admitted? && d.phase.Ended?
  {
    var policy := c.gate.policy;
    match d.phase.reply
    case BadBody => !body.Parsed?
    case ModelNotAllowed => body.Parsed? && Forbidden(policy, body.chat)
    case InputRejected =>
      body.Parsed? && !Forbidden(policy, body.chat) && !LetThrough(policy, world.inputVerdict)
    case OutputRejected =>
      && body.Parsed? && !Forbidden(policy, body.chat) && LetThrough(policy, world.inputVerdict) && !body.chat.stream
      && d.asked.Some? && OutputHeld(cfg, s, policy, d.asked.value.request, world)
    case _ =>
      body.Parsed? && !Forbidden(policy, body.chat) && LetThrough(policy, world.inputVerdict)
  }

  lemma CompleteRejects(cfg: Config, s: Shared, r: Request, world: World)
    ensures Complete(cfg, s, r, world).1.OutputRejected? ==> OutputHeld(cfg, s, r.policy, r, world)
    ensures var reply := Complete(cfg, s, r, world).1;
            !reply.BadBody? && !reply.ModelNotAllowed? && !reply.InputRejected?
  {
    var outcome := Router.Route(TourOf(cfg, s, r, world));
    if outcome.Routed? {
      FailsClosed(r.policy, world.outputVerdict(outcome.result.completion.text));
    }
  }

  lemma ResumedForAReason(cfg: Config, s: Shared, c: Conversation, body: Body, world: World)
    requires c.gate.Admitted? && c.phase.Waiting?
    ensures var d := Resumed(cfg, s, c, body, world).1; d.phase.Ended? ==> Reason(cfg, s, c, body, world, d)
  {
    if body.Parsed? {
      PreparedIsCleared(cfg, c.identity, c.gate.policy, body.chat, world.inputVerdict);
      var p := Prepare(cfg, c.identity, c.gate.policy, body.chat, world.inputVerdict);
      if p.Success? && !body.chat.stream {
        CompleteRejects(cfg, s, p.value.request, world);
      }
    }
  }

  predicate IsEnded(s: State, r: nat) {
    r in s.chats && s.chats[r].phase.Ended? && s.chats[r].gate.Admitted?
  }

  lemma EndedByResume(cfg: Config, s: State, n: nat, step: Step, next: State, r: nat)
    requires next == Next(cfg, s, n, step) && r != n && !IsEnded(s, r) && IsEnded(next, r)
    ensures r in s.chats && s.chats[r].gate == next.chats[r].gate && s.chats[r].gate.Admitted?
    ensures !next.chats[r].phase.reply.Streamed? ==>
              && step.Resume? && step.id == r && s.chats[r].phase.Waiting?
              && next.chats[r] == Resumed(cfg, s.shared, s.chats[r], step.body, step.world).1
  {
  }

  /** In every run, the reply to a request that was let in says what happened at the step m that resumed it. */
  lemma {:induction false} RepliesHaveReasons(run: Run, n: nat, r: nat) returns (m: nat)
    requires n <= |run.steps| && IsEnded(After(run, n), r) && !After(run, n).chats[r].phase.reply.Streamed?
    ensures m < n && run.steps[m].Resume? && run.steps[m].id == r && r in After(run, m).chats
    ensures var c, d := After(run, m).chats[r], After(run, n).chats[r];
            c.gate == d.gate && Reason(run.cfg, After(run, m).shared, c, run.steps[m].body, run.steps[m].world, d)
  {
    m := n - 1;
    var s, step := After(run, m), run.steps[m];
    ChatsAreArrivals(run, m);
    AfterNext(run, m);
    if IsEnded(s, r) {
      EndedKept(run.cfg, s, m, step, r);
      m := RepliesHaveReasons(run, m, r);
    } else {
      ArrivedNotEnded(run, m, r);
      EndedByResume(run.cfg, s, m, step, After(run, n), r);
      ResumedForAReason(run.cfg, s.shared, s.chats[r], step.body, step.world);
    }
  }

  lemma ArrivedNotEnded(run: Run, m: nat, r: nat)
    requires m < |run.steps| && IsEnded(After(run, m + 1), r)
    ensures r != m
  {
    if r == m {
      ChatsAreArrivals(run, m);
      ChatsAreArrivals(run, m + 1);
    }
  }

  // ----- Which replies cost an upstream call -----

  predicate CostsNothing(reply: Reply) {
    || reply.Denied? || reply.BadBody? || reply.ModelNotAllowed? || reply.InputRejected?
    || reply.CircuitOpen? || reply.Hit? || reply.AllRoutesUnavailable?
  }

  predicate CallsShow(c: Conversation) {
    c.phase.Ended? ==> (c.calls == 0 <==> CostsNothing(c.phase.reply))
  }

  lemma CompleteShows(cfg: Config, s: Shared, r: Request, world: World)
    ensures var (next, reply, calls) := Complete(cfg, s, r, world);
            calls == 0 <==> CostsNothing(reply)
  {
    UnavailableIffNoCall(cfg, s, r, world);
    CompleteRejects(cfg, s, r, world);
  }

  lemma ResumedShows(cfg: Config, s: Shared, c: Conversation, body: Body, world: World)
    requires c.gate.Admitted? && c.phase.Waiting? && c.calls == 0
    ensures CallsShow(Resumed(cfg, s, c, body, world).1)
  {
    if body.Parsed? {
      PreparedIsCleared(cfg, c.identity, c.gate.policy, body.chat, world.inputVerdict);
      var p := Prepare(cfg, c.identity, c.gate.policy, body.chat, world.inputVerdict);
      if p.Success? && !body.chat.stream {
        CompleteShows(cfg, s, p.value.request, world);
      }
    }
  }

  lemma NextShows(cfg: Config, s: State, n: nat, step: Step, next: State, r: nat)
    requires next == Next(cfg, s, n, step) && r in next.chats
    requires r in s.chats ==> Proper(cfg, s.chats[r]) && CallsShow(s.chats[r])
    ensures CallsShow(next.chats[r])
  {
    match step
    case Resume(id, body, world) =>
      if id == r && s.chats[r].phase.Waiting? {
        ResumedShows(cfg, s.shared, s.chats[r], body, world);
      }
    case _ =>
  }

  /** In every run a request that has ended started no upstream call exactly when its reply is one of those above. */
  lemma {:induction false} RepliesShowCalls(run: Run, n: nat, r: nat)
    requires n <= |run.steps| && r in After(run, n).chats
    ensures CallsShow(After(run, n).chats[r])
    decreases n, 1
  {
    if n > 0 {
      ShowsFrom(run, n - 1, n, r);
    }
  }

  lemma {:induction false} ShowsFrom(run: Run, m: nat, n: nat, r: nat)
    requires n == m + 1 <= |run.steps| && r in After(run, n).chats
    ensures CallsShow(After(run, n).chats[r])
    decreases n, 0
  {
    if r in After(run, m).chats {
      RepliesShowCalls(run, m, r);
      AlwaysProper(run, m, r);
    }
    AfterNext(run, m);
    NextShows(run.cfg, After(run, m), m, run.steps[m], After(run, n), r);
  }

  // ----- A model outside the route set -----

  /**
   * A request may name any model that its tenant's list allows, in the tenant's route set or
   * not: once the input guardrail lets the text through and the cache misses, that model is
   * called first, unless its circuit is open.
   */
  lemma UncertifiedModelIsCalled(cfg: Config, s: Shared, id: Identity, policy: TenantPolicy, chat: Chat, world: World,
                                 model: string)
    requires chat.model == Some(model) && Allowed(policy, model) && LetThrough(policy, world.inputVerdict)
    requires !Router.InRouteSet(cfg.router.routeSets, policy.routeSet, model)
    requires Breaker.Permit(cfg.router.breaker, Breaker.Entry(s.circuits, model), world.legs(0).askedAt).1
    ensures var p := Prepare(cfg, id, policy, chat, world.inputVerdict);
            && p.Success? && p.value.request.modelId == model
            && var t := TourOf(cfg, s, p.value.request, world);
               && t.candidates[0] == model && !Router.Visits(t)[0].Skipped?
               && (LookUp(cfg, s, p.value.request, world).1.None? ==> Complete(cfg, s, p.value.request, world).2 > 0)
  {
    PreparedIsCleared(cfg, id, policy, chat, world.inputVerdict);
    var r := Prepare(cfg, id, policy, chat, world.inputVerdict).value.request;
    Router.VisitAt(TourOf(cfg, s, r, world), 0);
    FirstVisitCalls(TourOf(cfg, s, r, world));
  }

  /** A loop whose first candidate is let through makes a call. */
  lemma FirstVisitCalls(t: Router.Tour)
    requires |t.candidates| > 0 && !Router.Visits(t)[0].Skipped?
    ensures Router.TotalCalls(t) > 0
  {
    Router.UnavailableIffNoCall(t);
    var at := Router.RouteContract(t);
  }

  /** Such a model, with the only call that its route set still has a say in. */
  lemma OutsideTheRouteSet(routeSets: Router.RouteSets, policy: TenantPolicy)
    requires routeSets == map["certified" := Router.RouteSet("certified", "a", ["b"])]
    requires policy.models == [] && policy.routeSet == Some("certified")
    ensures ResolveModel(policy, Some("c"), "a") == Some("c") && !Router.InRouteSet(routeSets, policy.routeSet, "c")
    ensures Router.Candidates(routeSets, "c", policy.routeSet) == ["c", "b"]
  {
    assert ["b"][1..] == [];
  }
}
