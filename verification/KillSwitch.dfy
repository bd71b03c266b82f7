/**
 * What a flip to a blocking state stops, and what it does not.
 */
module KillSwitch {
  import opened Wrappers
  import opened PolicyStore
  import opened Gateway
  import opened GatewayRuns
  import BedrockClient
  import Breaker
  import Pipeline
  import Router
  import Streaming

  /** The states in which a tenant may not use the model. */
  const STOPPED: set<TenantState> := {Suspended, EmergencyBlock}

  /** Step n flips the tenant to a blocking state, and no later step before step k unblocks it. */
  predicate BlockedBetween(steps: seq<Step>, n: nat, k: nat, tenant: string)
    requires n < k <= |steps|
  {
    && steps[n].Administer? && steps[n].flip.tenant == tenant
    && forall i | n <= i < k && steps[i].Administer? && steps[i].flip.tenant == tenant :: steps[i].flip.state in STOPPED
  }

  /** A policy that blocks still does after a flip to a blocking state, of the tenant or of another. */
  lemma BlockedAfterFlip(policies: Policies, flip: Flip, tenant: string)
    requires tenant in policies
    requires if flip.tenant == tenant then flip.state in STOPPED else policies[tenant].state in STOPPED
    ensures var next := WithState(policies, flip.tenant, flip.state); tenant in next && next[tenant].state in STOPPED
  {
  }

  lemma {:induction false} StaysBlocked(run: Run, n: nat, k: nat, tenant: string)
    requires n < k <= |run.steps| && tenant in run.start && BlockedBetween(run.steps, n, k, tenant)
    ensures tenant in PoliciesAt(run, k) && PoliciesAt(run, k)[tenant].state in STOPPED
    decreases k
  {
    var m: nat := k - 1;
    FlipsNext(run, m);
    if n < m {
      assert BlockedBetween(run.steps, n, m, tenant);
      StaysBlocked(run, n, m, tenant);
    } else {
      NoOtherTenants(run.start, Flips(run.steps, m));
      assert tenant in PoliciesAt(run, m);
    }
    if run.steps[m].Administer? {
      BlockedAfterFlip(PoliciesAt(run, m), run.steps[m].flip, tenant);
    }
  }

  /** Steps m..r-1 do not flip the tenant. */
  predicate NoFlip(steps: seq<Step>, m: nat, r: nat, tenant: string)
    requires m <= r <= |steps|
  {
    forall i | m <= i < r && steps[i].Administer? :: steps[i].flip.tenant != tenant
  }

  lemma {:induction false} UnflippedKeeps(run: Run, m: nat, r: nat, tenant: string)
    requires m <= r <= |run.steps| && NoFlip(run.steps, m, r, tenant)
    ensures Lookup(PoliciesAt(run, r), tenant) == Lookup(PoliciesAt(run, m), tenant)
    decreases r
  {
    if m < r {
      UnflippedKeeps(run, m, r - 1, tenant);
      FlipsNext(run, r - 1);
    }
  }

  /** What the gate makes of a tenant in this state. */
  predicate GateFor(gate: Gate, state: TenantState) {
    match state
    case Active => gate.Admitted? || gate.OverQuota?
    case Throttled => gate.Admitted? || gate.OverQuota?
    case ReadOnly => gate.Admitted? || gate.OverQuota?
    case Suspended => gate.Blocked?
    case EmergencyBlock => gate.Blocked?
  }

  /**
   * In every run the gate goes by the state that the tenant was last flipped to before the
   * request arrived, at step k, or by its first state when it never was (`NeverFlippedGate`):
   * only Suspended and EmergencyBlock keep it from the limiter.
   */
  lemma LastFlipGates(run: Run, n: nat, k: nat, r: nat)
    requires k < r < n <= |run.steps| && r in After(run, n).chats && run.steps[k].Administer?
    requires run.steps[k].flip.tenant == After(run, n).chats[r].identity.tenant && run.steps[k].flip.tenant in run.start
    requires NoFlip(run.steps, k + 1, r, run.steps[k].flip.tenant)
    ensures var gate, flip := After(run, n).chats[r].gate, run.steps[k].flip;
            && !gate.NotProvisioned? && gate.policy.state == flip.state && GateFor(gate, flip.state)
            && SameSettings(run.start[flip.tenant], gate.policy)
  {
    var tenant := run.steps[k].flip.tenant;
    SeesCompletedFlips(run, n, r);
    NoOtherTenants(run.start, Flips(run.steps, k));
    assert tenant in PoliciesAt(run, k);
    FlipsNext(run, k);
    UnflippedKeeps(run, k + 1, r, tenant);
    EpochsBetween(run, 0, r, tenant);
  }

  /** A tenant that was never flipped is judged by the policy it was provisioned with, if it was. */
  lemma NeverFlippedGate(run: Run, n: nat, r: nat)
    requires r < n <= |run.steps| && r in After(run, n).chats
    requires NoFlip(run.steps, 0, r, After(run, n).chats[r].identity.tenant)
    ensures var gate, tenant := After(run, n).chats[r].gate, After(run, n).chats[r].identity.tenant;
            if tenant in run.start then
              !gate.NotProvisioned? && gate.policy == run.start[tenant] && GateFor(gate, run.start[tenant].state)
            else gate.NotProvisioned?
  {
    var tenant := After(run, n).chats[r].identity.tenant;
    SeesCompletedFlips(run, n, r);
    UnflippedKeeps(run, 0, r, tenant);
    GateFollows(After(run, n).chats[r].gate, PoliciesAt(run, r), run.start, tenant);
  }

  lemma GateFollows(gate: Gate, policies: Policies, start: Policies, tenant: string)
    requires GateShows(gate, policies, tenant) && Lookup(policies, tenant) == Lookup(start, tenant)
    ensures if tenant in start then
              !gate.NotProvisioned? && gate.policy == start[tenant] && GateFor(gate, start[tenant].state)
            else gate.NotProvisioned?
  {
  }

  /** A request that arrives behind the flip is turned away at the gate. */
  lemma TurnedAway(run: Run, n: nat, k: nat, r: nat)
    requires k <= |run.steps| && r in After(run, k).chats && n < r < k
    requires var tenant := After(run, k).chats[r].identity.tenant;
             tenant in run.start && BlockedBetween(run.steps, n, k, tenant)
    ensures After(run, k).chats[r].gate.Blocked?
  {
    SeesCompletedFlips(run, k, r);
    StaysBlocked(run, n, r, After(run, k).chats[r].identity.tenant);
  }

  /** A request that the gate did not admit has ended and never asked or called anything. */
  predicate NothingDone(c: Conversation) {
    c.asked.None? && c.calls == 0 && c.phase.Ended? && c.phase.reply.Denied?
  }

  lemma {:induction false} NotAdmittedDoesNothing(run: Run, n: nat, r: nat)
    requires n <= |run.steps| && r in After(run, n).chats && !After(run, n).chats[r].gate.Admitted?
    ensures NothingDone(After(run, n).chats[r])
  {
    var m: nat := n - 1;
    var s := After(run, m);
    ChatsAreArrivals(run, m);
    if r in s.chats {
      GateKept(run.cfg, s, m, run.steps[m], r);
      NotAdmittedDoesNothing(run, m, r);
      DoneStays(run.cfg, s, m, run.steps[m], r);
    }
  }

  /** A stream that waits for its first pull. */
  predicate NotStarted(c: Conversation) {
    c.phase.Open? && c.phase.stream.stage.Unstarted?
  }

  /** All that a request could still start it has started. */
  predicate Spent(c: Conversation) {
    c.phase.Ended? || (c.phase.Open? && !c.phase.stream.stage.Unstarted?)
  }

  lemma DoneStays(cfg: Config, s: State, n: nat, step: Step, r: nat)
    requires r in s.chats && r != n && Spent(s.chats[r])
    ensures var next := Next(cfg, s, n, step).chats;
            && r in next && Spent(next[r]) && next[r].calls == s.chats[r].calls
            && (s.chats[r].phase.Ended? ==> next[r] == s.chats[r])
  {
  }

  /** Request r has spent what it had by step n, and nothing more by step k. */
  predicate SpentSince(run: Run, n: nat, k: nat, r: nat)
    requires n <= k <= |run.steps| && r in After(run, n).chats
  {
    && r in After(run, k).chats && Spent(After(run, k).chats[r])
    && After(run, k).chats[r].calls == After(run, n).chats[r].calls
  }

  lemma {:induction false} SpentStays(run: Run, n: nat, k: nat, r: nat)
    requires n <= k <= |run.steps| && r in After(run, n).chats && Spent(After(run, n).chats[r])
    ensures SpentSince(run, n, k, r)
    decreases k, 1
  {
    if n < k {
      SpentFrom(run, n, k - 1, k, r);
    }
  }

  lemma {:induction false} SpentFrom(run: Run, n: nat, m: nat, k: nat, r: nat)
    requires n <= m && k == m + 1 <= |run.steps| && r in After(run, n).chats && Spent(After(run, n).chats[r])
    ensures SpentSince(run, n, k, r)
    decreases k, 0
  {
    SpentStays(run, n, m, r);
    ChatsAreArrivals(run, m);
    AfterNext(run, m);
    DoneStays(run.cfg, After(run, m), m, run.steps[m], r);
  }

  /** Upstream calls that request r has started in this state. */
  function CallsOf(s: State, r: nat): nat {
    if r in s.chats then s.chats[r].calls else 0
  }

  /**
   * Once step n has blocked a tenant, and until a later step unblocks it, no request of the
   * tenant that arrives does anything: it asks nothing and starts no upstream call.
   * Whatever upstream call the tenant still starts belongs to a request that had passed the
   * gate before the flip and was waiting for its body, or for its stream's first pull.
   */
  lemma KillSwitchHolds(run: Run, n: nat, k: nat, r: nat)
    requires n < k <= |run.steps| && r in After(run, k).chats
    requires var tenant := After(run, k).chats[r].identity.tenant;
             tenant in run.start && BlockedBetween(run.steps, n, k, tenant)
    ensures n < r ==> After(run, k).chats[r].gate.Blocked? && NothingDone(After(run, k).chats[r])
    ensures CallsOf(After(run, k), r) != CallsOf(After(run, n), r) ==>
              && r < n && r in After(run, n).chats
              && (After(run, n).chats[r].phase.Waiting? || NotStarted(After(run, n).chats[r]))
  {
    ChatsAreArrivals(run, k);
    ChatsAreArrivals(run, n);
    if n < r {
      TurnedAway(run, n, k, r);
      NotAdmittedDoesNothing(run, k, r);
    } else if r in After(run, n).chats && Spent(After(run, n).chats[r]) {
      SpentStays(run, n, k, r);
    }
  }

  // ----- And only that: a waiting request can still call -----

  /** A world that lets a request for a stream through to its first pull. */
  function Opening(cfg: Config, s: Shared, policy: TenantPolicy, chat: Chat, world: World): (Chat, World) {
    var model := Pipeline.ResolveModel(policy, None, cfg.defaultModel).value;
    var reopens := Breaker.Entry(s.circuits, model).openedAt + cfg.router.breaker.resetTimeout;
    (chat.(model := None, stream := true), world.(inputVerdict := Pipeline.Allow, permitAt := reopens))
  }

  lemma OpensStream(cfg: Config, s: State, n: nat, r: nat, chat: Chat, world: World, next: State)
    requires r in s.chats && s.chats[r].gate.Admitted? && s.chats[r].phase.Waiting?
    requires var (streamed, open) := Opening(cfg, s.shared, s.chats[r].gate.policy, chat, world);
             next == Next(cfg, s, n, Resume(r, Parsed(streamed), open))
    ensures r in next.chats && NotStarted(next.chats[r]) && next.chats[r].asked.Some?
    ensures next.chats[r].calls == s.chats[r].calls
  {
  }

  lemma FirstPullCalls(cfg: Config, s: State, n: nat, r: nat, at: real, next: State)
    requires r in s.chats && NotStarted(s.chats[r]) && s.chats[r].asked.Some? && next == Next(cfg, s, n, Advance(r, at))
    ensures CallsOf(next, r) == CallsOf(s, r) + 1
  {
  }

  lemma NotStartedCanCall(run: Run, r: nat, first: Step, longer: Run)
    requires r in Last(run).chats && NotStarted(Last(run).chats[r]) && Last(run).chats[r].asked.Some?
    requires first.Advance? && first.id == r && longer == Longer(run, [first])
    ensures CallsOf(Last(longer), r) == CallsOf(Last(run), r) + 1
  {
    OneMore(run, first, longer);
    FirstPullCalls(run.cfg, Last(run), |run.steps|, r, first.at, Last(longer));
  }

  /** The request's next step opens its stream. */
  lemma WaitingCanOpen(run: Run, r: nat, chat: Chat, world: World) returns (opening: Step)
    requires r in Last(run).chats && Last(run).chats[r].phase.Waiting?
    ensures opening.Resume?
    ensures var s := Last(Longer(run, [opening]));
            && r in s.chats && NotStarted(s.chats[r]) && s.chats[r].asked.Some?
            && CallsOf(s, r) == CallsOf(Last(run), r)
  {
    var n, s := |run.steps|, Last(run);
    AlwaysProper(run, n, r);
    var (streamed, open) := Opening(run.cfg, s.shared, s.chats[r].gate.policy, chat, world);
    opening := Resume(r, Parsed(streamed), open);
    var longer := Longer(run, [opening]);
    OneMore(run, opening, longer);
    OpensStream(run.cfg, s, n, r, chat, world, Last(longer));
  }

  /** Conversely, every request that a flip finds waiting can still start an upstream call, with no further flip. */
  lemma WaitingCanStillCall(run: Run, r: nat, chat: Chat, world: World) returns (more: seq<Step>)
    requires r in Last(run).chats && (Last(run).chats[r].phase.Waiting? || NotStarted(Last(run).chats[r]))
    ensures forall i | 0 <= i < |more| :: !more[i].Administer?
    ensures CallsOf(Last(Longer(run, more)), r) > CallsOf(Last(run), r)
  {
    var first := Advance(r, world.permitAt);
    if Last(run).chats[r].phase.Waiting? {
      var opening := WaitingCanOpen(run, r, chat, world);
      var ahead := Longer(run, [opening]);
      NotStartedCanCall(ahead, r, first, Longer(ahead, [first]));
      more := [opening, first];
      assert Longer(run, more) == Longer(ahead, [first]);
    } else {
      AlwaysProper(run, |run.steps|, r);
      more := [first];
      NotStartedCanCall(run, r, first, Longer(run, more));
    }
  }

  // ----- Exactly when the kill switch stops everything -----

  /** More steps, none of which unblocks the tenant. */
  predicate StillBlocked(more: seq<Step>, tenant: string) {
    forall i | 0 <= i < |more| && more[i].Administer? && more[i].flip.tenant == tenant :: more[i].flip.state in STOPPED
  }

  predicate OfTenant(s: State, r: nat, tenant: string) {
    r in s.chats && s.chats[r].identity.tenant == tenant
  }

  /** A request that is past the gate and waits for its body, or for its stream's first pull. */
  predicate Pending(s: State, r: nat, tenant: string) {
    OfTenant(s, r, tenant) && (s.chats[r].phase.Waiting? || NotStarted(s.chats[r]))
  }

  ghost predicate NonePending(s: State, tenant: string) {
    forall r :: !Pending(s, r, tenant)
  }

  /** After these steps no request of the tenant has started an upstream call that it had not started before them. */
  ghost predicate NoNewCalls(run: Run, more: seq<Step>, tenant: string) {
    forall r | OfTenant(Last(Longer(run, more)), r, tenant) ::
      CallsOf(Last(Longer(run, more)), r) == CallsOf(Last(run), r)
  }

  /** The last step of the run blocks the tenant. */
  predicate JustBlocked(run: Run, tenant: string) {
    && |run.steps| > 0 && tenant in run.start
    && var step := run.steps[|run.steps| - 1];
       step.Administer? && step.flip.tenant == tenant && step.flip.state in STOPPED
  }

  lemma {:induction false} IdentityKept(run: Run, m: nat, k: nat, r: nat)
    requires m <= k <= |run.steps| && r in After(run, m).chats
    ensures r in After(run, k).chats && After(run, k).chats[r].identity == After(run, m).chats[r].identity
    decreases k, 1
  {
    if m < k {
      IdentityFrom(run, m, k - 1, k, r);
    }
  }

  lemma {:induction false} IdentityFrom(run: Run, m: nat, n: nat, k: nat, r: nat)
    requires m <= n && k == n + 1 <= |run.steps| && r in After(run, m).chats
    ensures r in After(run, k).chats && After(run, k).chats[r].identity == After(run, m).chats[r].identity
    decreases k, 0
  {
    IdentityKept(run, m, n, r);
    ChatsAreArrivals(run, n);
    AfterNext(run, n);
    GateKept(run.cfg, After(run, n), n, run.steps[n], r);
  }

  lemma IdentityStays(run: Run, more: seq<Step>, r: nat, tenant: string)
    requires OfTenant(Last(run), r, tenant)
    ensures OfTenant(Last(Longer(run, more)), r, tenant)
  {
    LongerAgrees(run, more, |run.steps|);
    IdentityKept(Longer(run, more), |run.steps|, |run.steps + more|, r);
  }

  /** The flip itself touches no request. */
  lemma FlipLeavesChats(run: Run, n: nat)
    requires n < |run.steps| && run.steps[n].Administer?
    ensures After(run, n + 1).chats == After(run, n).chats
  {
    AfterNext(run, n);
  }

  lemma BlockedOn(run: Run, more: seq<Step>, tenant: string)
    requires JustBlocked(run, tenant) && StillBlocked(more, tenant)
    ensures BlockedBetween(run.steps + more, |run.steps| - 1, |run.steps + more|, tenant)
  {
    var n, steps := |run.steps| - 1, run.steps + more;
    forall i | n <= i < |steps| && steps[i].Administer? && steps[i].flip.tenant == tenant
      ensures steps[i].flip.state in STOPPED
    {
      if i > n {
        assert steps[i] == more[i - n - 1];
      }
    }
  }

  lemma NonePendingStops(run: Run, more: seq<Step>, tenant: string)
    requires JustBlocked(run, tenant) && StillBlocked(more, tenant) && NonePending(Last(run), tenant)
    ensures NoNewCalls(run, more, tenant)
  {
    var longer, n := Longer(run, more), |run.steps| - 1;
    BlockedOn(run, more, tenant);
    LongerAgrees(run, more, |run.steps|);
    FlipLeavesChats(longer, n);
    forall r | OfTenant(Last(longer), r, tenant)
      ensures CallsOf(Last(longer), r) == CallsOf(Last(run), r)
    {
      KillSwitchHolds(longer, n, |longer.steps|, r);
      assert !Pending(Last(run), r, tenant);
      if r in Last(run).chats {
        IdentityKept(longer, |run.steps|, |longer.steps|, r);
      }
    }
  }

  const ANY_CHAT := Chat(None, [], 1, "0", true)

  const NO_LEG := Router.Leg(0.0, _ => BedrockClient.Raise(None), _ => 0.0, 0.0)

  const ANY_WORLD :=
    World(Pipeline.Allow, _ => Pipeline.Allow, 0.0, 0.0, _ => NO_LEG, 0.0, Streaming.SILENCE)

  lemma PendingCalls(run: Run, r: nat, tenant: string) returns (more: seq<Step>)
    requires Pending(Last(run), r, tenant)
    ensures StillBlocked(more, tenant) && !NoNewCalls(run, more, tenant)
  {
    more := WaitingCanStillCall(run, r, ANY_CHAT, ANY_WORLD);
    IdentityStays(run, more, r, tenant);
    var longer := Last(Longer(run, more));
    assert OfTenant(longer, r, tenant) && CallsOf(longer, r) != CallsOf(Last(run), r);
  }

  /**
   * Exactly when a blocking flip stops every upstream call of its tenant: whatever happens
   * next, short of unblocking it, none of its requests starts another one, if and only if
   * at the flip none of them is past the gate and waiting.
   */
  lemma KillSwitchExact(run: Run, tenant: string)
    requires JustBlocked(run, tenant)
    ensures (forall more | StillBlocked(more, tenant) :: NoNewCalls(run, more, tenant))
            <==> NonePending(Last(run), tenant)
  {
    if NonePending(Last(run), tenant) {
      forall more | StillBlocked(more, tenant)
        ensures NoNewCalls(run, more, tenant)
      {
        NonePendingStops(run, more, tenant);
      }
    } else {
      var r :| Pending(Last(run), r, tenant);
      var more := PendingCalls(run, r, tenant);
    }
  }

  // ----- What a blocked tenant leaves alone -----

  /** A step leaves a tenant's bucket alone unless it is an arrival that the kill switch lets pass. */
  lemma BucketUntouched(run: Run, m: nat, tenant: string)
    requires m < |run.steps| && tenant in run.start && WellKeyed(run.start)
    requires run.steps[m].Arrive? ==> tenant in PoliciesAt(run, m) && PoliciesAt(run, m)[tenant].state in STOPPED
    ensures Lookup(After(run, m + 1).shared.levels, tenant) == Lookup(After(run, m).shared.levels, tenant)
  {
    var s, step := After(run, m), run.steps[m];
    AfterNext(run, m);
    if step.Arrive? {
      ArrivalShows(run, m);
      KeysKept(run.start, Flips(run.steps, m));
    } else if !step.Administer? {
      OnlyGateAndAdmin(run.cfg, s, m, step);
    }
  }

  /** No token leaves the tenant's bucket while it is blocked. */
  lemma {:induction false} NoTokenTaken(run: Run, n: nat, k: nat, tenant: string)
    requires n < k <= |run.steps| && tenant in run.start && WellKeyed(run.start)
    requires BlockedBetween(run.steps, n, k, tenant)
    ensures Lookup(After(run, k).shared.levels, tenant) == Lookup(After(run, n).shared.levels, tenant)
    decreases k, 1
  {
    NoTokenFrom(run, n, k - 1, k, tenant);
  }

  lemma {:induction false} NoTokenFrom(run: Run, n: nat, m: nat, k: nat, tenant: string)
    requires n <= m && k == m + 1 <= |run.steps| && tenant in run.start && WellKeyed(run.start)
    requires BlockedBetween(run.steps, n, k, tenant)
    ensures Lookup(After(run, k).shared.levels, tenant) == Lookup(After(run, n).shared.levels, tenant)
    decreases k, 0
  {
    if n < m {
      assert BlockedBetween(run.steps, n, m, tenant);
      StaysBlocked(run, n, m, tenant);
      NoTokenTaken(run, n, m, tenant);
    }
    BucketUntouched(run, m, tenant);
  }

  /** Flips keep every policy under its tenant's name. */
  lemma {:induction false} KeysKept(policies: Policies, flips: seq<Flip>)
    requires WellKeyed(policies)
    ensures WellKeyed(AfterFlips(policies, flips))
  {
    if flips != [] {
      KeysKept(policies, flips[..|flips| - 1]);
    }
  }

  /** Whose step it is, when it is a chat step. */
  predicate ActsFor(s: State, n: nat, step: Step, r: nat) {
    match step
    case Arrive(_, _) => r == n
    case Resume(id, _, _) => r == id
    case Advance(id, _) => r == id
    case Administer(_) => false
  }

  predicate SameUse(s: Shared, t: Shared) {
    s.levels == t.levels && s.circuits == t.circuits && s.responses == t.responses
  }

  lemma IdleStep(cfg: Config, s: State, n: nat, step: Step, r: nat, next: State)
    requires next == Next(cfg, s, n, step) && ActsFor(s, n, step, r)
    requires if step.Arrive? then next.chats[n].gate.Blocked? else r in s.chats && s.chats[r].phase.Ended?
    ensures SameUse(next.shared, s.shared)
  {
  }

  /**
   * A step on behalf of a request that arrived behind the flip leaves limiter, breaker and
   * response cache exactly as they were.
   */
  lemma TouchesNothing(run: Run, n: nat, m: nat, r: nat)
    requires n < m < |run.steps| && ActsFor(After(run, m), m, run.steps[m], r)
    requires n < r <= m && run.steps[r].Arrive?
    requires var tenant := run.steps[r].identity.tenant;
             tenant in run.start && BlockedBetween(run.steps, n, m + 1, tenant)
    ensures SameUse(After(run, m + 1).shared, After(run, m).shared)
  {
    ChatsAreArrivals(run, m + 1);
    SeesCompletedFlips(run, m + 1, r);
    TurnedAway(run, n, m + 1, r);
    AfterNext(run, m);
    if r < m {
      ChatsAreArrivals(run, m);
      GateKept(run.cfg, After(run, m), m, run.steps[m], r);
      NotAdmittedDoesNothing(run, m, r);
    }
    IdleStep(run.cfg, After(run, m), m, run.steps[m], r, After(run, m + 1));
  }
}
