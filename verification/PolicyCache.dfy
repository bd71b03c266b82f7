/**
 * The snapshot cache in front of the policy store (services/gateway/policy/cache.py): a
 * bounded time to live plus push invalidation.
 */
module PolicyCache {
  import opened Wrappers
  import opened PolicyStore

  datatype Snapshot = Snapshot(policy: TenantPolicy, cachedAt: real)

  type Snapshots = map<string, Snapshot>

  predicate Hit(snapshots: Snapshots, ttl: real, tenant: string, now: real) {
    tenant in snapshots && now - snapshots[tenant].cachedAt < ttl
  }

  /** A whole `get` that nothing interrupts; an unknown tenant raises and leaves the cache alone. */
  function Fetch(policies: Policies, snapshots: Snapshots, ttl: real, tenant: string, checkAt: real, stampAt: real)
    : (r: (Snapshots, Option<TenantPolicy>))
  {
    if Hit(snapshots, ttl, tenant, checkAt) then (snapshots, Some(snapshots[tenant].policy))
    else if tenant in policies then
      (snapshots[tenant := Snapshot(policies[tenant], stampAt)], Some(policies[tenant]))
    else (snapshots, None)
  }

  /**
   * What a second `get` makes of the first, whatever became of the store in between: until
   * the time to live is over, counted from the stamp, the first one's policy; from then on,
   * or after an invalidation, the store's own.
   */
  lemma SnapshotServes(policies: Policies, later: Policies, snapshots: Snapshots, ttl: real, tenant: string,
                       checkAt: real, stampAt: real, againAt: real, stampAgainAt: real)
    requires tenant in policies && !Hit(snapshots, ttl, tenant, checkAt)
    ensures var (kept, policy) := Fetch(policies, snapshots, ttl, tenant, checkAt, stampAt);
            && policy == Some(policies[tenant])
            && Fetch(later, kept, ttl, tenant, againAt, stampAgainAt).1
               == (if againAt - stampAt < ttl then policy else Lookup(later, tenant))
            && Fetch(later, kept - {tenant}, ttl, tenant, againAt, stampAgainAt).1 == Lookup(later, tenant)
  {
  }

  class PolicySnapshotCache {
    const store: InMemoryPolicyStore
    const ttl: real
    var snapshots: Snapshots

    constructor (store: InMemoryPolicyStore, ttl: real)
      ensures this.store == store && this.ttl == ttl && snapshots == map[]
    {
      this.store, this.ttl := store, ttl;
      snapshots := map[];
    }

    method Get(tenant: string, checkAt: real, stampAt: real) returns (policy: Option<TenantPolicy>)
      modifies this
      ensures (snapshots, policy) == Fetch(store.policies, old(snapshots), ttl, tenant, checkAt, stampAt)
    {
      if tenant in snapshots && checkAt - snapshots[tenant].cachedAt < ttl {
        return Some(snapshots[tenant].policy);
      }
      policy := store.Get(tenant);
      if policy.Some? {
        snapshots := snapshots[tenant := Snapshot(policy.value, stampAt)];
      }
    }

    method Invalidate(tenant: string)
      modifies this
      ensures snapshots == old(snapshots) - {tenant}
    {
      snapshots := snapshots - {tenant};
    }
  }
}

/**
 * The same cache between threads.  A step is one lock region, one store access or one
 * invalidation, and a run is any interleaving of them.  `readAt` is bookkeeping: it
 * remembers when a policy left the store, which the program itself does not keep.
 */
module PolicyThreads {
  import opened Wrappers
  import opened PolicyStore
  import PolicyCache

  datatype Held = Held(policy: TenantPolicy, cachedAt: real, readAt: real)

  datatype Phase = Missed(tenant: string) | Fetched(tenant: string, policy: TenantPolicy, readAt: real)

  datatype State = State(policies: Policies, snapshots: map<string, Held>, threads: map<nat, Phase>)

  datatype Step =
    | Check(thread: nat, tenant: string, at: real)
    | Read(thread: nat, at: real)
    | Install(thread: nat, at: real)
    | SetState(tenant: string, state: TenantState, at: real)
    | Invalidate(tenant: string, at: real)

  predicate Hits(s: State, ttl: real, tenant: string, at: real) {
    tenant in s.snapshots && at - s.snapshots[tenant].cachedAt < ttl
  }

  function Next(s: State, ttl: real, step: Step): State {
    match step
    case Check(thread, tenant, at) =>
      if thread in s.threads || Hits(s, ttl, tenant, at) then s
      else s.(threads := s.threads[thread := Missed(tenant)])
    case Read(thread, at) =>
      if thread in s.threads && s.threads[thread].Missed? then
        var tenant := s.threads[thread].tenant;
        if tenant in s.policies
        then s.(threads := s.threads[thread := Fetched(tenant, s.policies[tenant], at)])
        else s.(threads := s.threads - {thread})
      else s
    case Install(thread, at) =>
      if thread in s.threads && s.threads[thread].Fetched? then
        var f := s.threads[thread];
        s.(snapshots := s.snapshots[f.tenant := Held(f.policy, at, f.readAt)], threads := s.threads - {thread})
      else s
    case SetState(tenant, state, _) => s.(policies := WithState(s.policies, tenant, state))
    case Invalidate(tenant, _) => s.(snapshots := s.snapshots - {tenant})
  }

  /** The tenant and the policy that a `get` returns with this step, if one returns. */
  function Returned(s: State, ttl: real, step: Step): Option<(string, TenantPolicy)> {
    match step
    case Check(thread, tenant, at) =>
      if thread !in s.threads && Hits(s, ttl, tenant, at) then Some((tenant, s.snapshots[tenant].policy)) else None
    case Install(thread, at) =>
      if thread in s.threads && s.threads[thread].Fetched?
      then Some((s.threads[thread].tenant, s.threads[thread].policy)) else None
    case _ => None
  }

  predicate SameSnapshots(held: map<string, Held>, snapshots: PolicyCache.Snapshots) {
    && held.Keys == snapshots.Keys
    && forall t | t in held :: snapshots[t] == PolicyCache.Snapshot(held[t].policy, held[t].cachedAt)
  }

  /** A `get` whose three regions nothing interrupts is the whole fetch of module PolicyCache. */
  lemma UninterruptedGet(s: State, ttl: real, thread: nat, tenant: string, checkAt: real, readAt: real, stampAt: real,
                         snapshots: PolicyCache.Snapshots)
    requires thread !in s.threads && SameSnapshots(s.snapshots, snapshots)
    ensures var check, install := Check(thread, tenant, checkAt), Install(thread, stampAt);
            var read := Next(Next(s, ttl, check), ttl, Read(thread, readAt));
            var done := Next(read, ttl, install);
            var (after, policy) := PolicyCache.Fetch(s.policies, snapshots, ttl, tenant, checkAt, stampAt);
            && SameSnapshots(done.snapshots, after) && done.policies == s.policies && done.threads == s.threads
            && (match policy
                case None => Returned(s, ttl, check).None? && Returned(read, ttl, install).None?
                case Some(p) =>
                  if Hits(s, ttl, tenant, checkAt) then Returned(s, ttl, check) == Some((tenant, p))
                  else Returned(read, ttl, install) == Some((tenant, p)))
  {
  }

  function After(policies: Policies, ttl: real, steps: seq<Step>, n: nat): State
    requires n <= |steps|
  {
    if n == 0 then State(policies, map[], map[])
    else Next(After(policies, ttl, steps, n - 1), ttl, steps[n - 1])
  }

  predicate ClockOrdered(steps: seq<Step>) {
    forall i, j | 0 <= i <= j < |steps| :: steps[i].at <= steps[j].at
  }

  /** No fetch takes longer than `delay` between its store read and its stamp. */
  predicate Prompt(policies: Policies, ttl: real, steps: seq<Step>, delay: real) {
    forall n | 0 <= n < |steps| && steps[n].Install? ::
      var threads := After(policies, ttl, steps, n).threads;
      steps[n].thread in threads && threads[steps[n].thread].Fetched? ==>
        steps[n].at - threads[steps[n].thread].readAt <= delay
  }

  /** At the instant of step j the store held this policy for the tenant. */
  predicate Stored(policies: Policies, ttl: real, steps: seq<Step>, j: nat, tenant: string, policy: TenantPolicy,
                   at: real)
  {
    j < |steps| && steps[j].at == at && Lookup(After(policies, ttl, steps, j).policies, tenant) == Some(policy)
  }

  ghost predicate Traced(policies: Policies, ttl: real, steps: seq<Step>, n: nat, tenant: string, policy: TenantPolicy,
                         at: real)
  {
    exists j | 0 <= j < n :: Stored(policies, ttl, steps, j, tenant, policy, at)
  }

  /**
   * Whatever is cached or about to be cached was in the store when it was read, and no stamp
   * is later than `delay` after that.
   */
  ghost predicate AllTraced(policies: Policies, ttl: real, steps: seq<Step>, n: nat, delay: real, s: State) {
    && (forall t | t in s.snapshots ::
          && Traced(policies, ttl, steps, n, t, s.snapshots[t].policy, s.snapshots[t].readAt)
          && s.snapshots[t].cachedAt - s.snapshots[t].readAt <= delay)
    && (forall k | k in s.threads && s.threads[k].Fetched? ::
          Traced(policies, ttl, steps, n, s.threads[k].tenant, s.threads[k].policy, s.threads[k].readAt))
  }

  lemma {:induction false} EverythingTraced(policies: Policies, ttl: real, steps: seq<Step>, n: nat, delay: real)
    requires n <= |steps| && Prompt(policies, ttl, steps, delay)
    ensures AllTraced(policies, ttl, steps, n, delay, After(policies, ttl, steps, n))
  {
    if n > 0 {
      var m := n - 1;
      EverythingTraced(policies, ttl, steps, m, delay);
      var before, s := After(policies, ttl, steps, m), After(policies, ttl, steps, n);
      forall k | k in s.threads && s.threads[k].Fetched?
        ensures Traced(policies, ttl, steps, n, s.threads[k].tenant, s.threads[k].policy, s.threads[k].readAt)
      {
        var f := s.threads[k];
        if k in before.threads && before.threads[k] == f {
          assert Traced(policies, ttl, steps, m, f.tenant, f.policy, f.readAt);
          TracedLonger(policies, ttl, steps, m, f.tenant, f.policy, f.readAt);
        } else {
          assert Stored(policies, ttl, steps, m, f.tenant, f.policy, f.readAt);
        }
      }
      forall t | t in s.snapshots
        ensures Traced(policies, ttl, steps, n, t, s.snapshots[t].policy, s.snapshots[t].readAt)
        ensures s.snapshots[t].cachedAt - s.snapshots[t].readAt <= delay
      {
        var h := s.snapshots[t];
        if t in before.snapshots && before.snapshots[t] == h {
          assert Traced(policies, ttl, steps, m, t, h.policy, h.readAt);
        } else {
          var f := before.threads[steps[m].thread];
          assert Traced(policies, ttl, steps, m, f.tenant, f.policy, f.readAt);
        }
        TracedLonger(policies, ttl, steps, m, t, h.policy, h.readAt);
      }
    }
  }

  lemma TracedLonger(policies: Policies, ttl: real, steps: seq<Step>, n: nat, tenant: string, policy: TenantPolicy,
                     at: real)
    requires Traced(policies, ttl, steps, n, tenant, policy, at)
    ensures Traced(policies, ttl, steps, n + 1, tenant, policy, at)
  {
    var j :| 0 <= j < n && Stored(policies, ttl, steps, j, tenant, policy, at);
  }

  /**
   * For every interleaving: a returned policy was the store's value at some instant less
   * than ttl + delay before the return, and no more than delay before when it was just
   * fetched.  With no delay this is the documented bound.
   */
  lemma BoundedStaleness(policies: Policies, ttl: real, steps: seq<Step>, n: nat, delay: real) returns (j: nat)
    requires n < |steps| && ClockOrdered(steps) && Prompt(policies, ttl, steps, delay)
    requires Returned(After(policies, ttl, steps, n), ttl, steps[n]).Some?
    ensures var (tenant, policy) := Returned(After(policies, ttl, steps, n), ttl, steps[n]).value;
            j < n && Stored(policies, ttl, steps, j, tenant, policy, steps[j].at)
    ensures steps[j].at <= steps[n].at
    ensures steps[n].Check? ==> steps[n].at - steps[j].at < ttl + delay
    ensures steps[n].Install? ==> steps[n].at - steps[j].at <= delay
  {
    EverythingTraced(policies, ttl, steps, n, delay);
    var s := After(policies, ttl, steps, n);
    var (tenant, policy) := Returned(s, ttl, steps[n]).value;
    var readAt := if steps[n].Check? then s.snapshots[tenant].readAt else s.threads[steps[n].thread].readAt;
    assert Traced(policies, ttl, steps, n, tenant, policy, readAt);
    j :| 0 <= j < n && Stored(policies, ttl, steps, j, tenant, policy, readAt);
  }

  /** The run in which a fetch straddles a flip of its tenant: read, flip and push, and only then install. */
  function Straddling(ttl: real, tenant: string, state: TenantState, delay: real, slack: real): seq<Step> {
    [Check(0, tenant, 0.0), Read(0, 0.0), SetState(tenant, state, 0.0), Invalidate(tenant, 0.0),
     Install(0, delay), Check(1, tenant, ttl + delay - slack)]
  }

  /**
   * The bound is sharp, and the invalidation can be lost: a fetch that straddles a flip
   * reinstalls the old policy after the push, and it is served until just under ttl + delay
   * after the flip replaced it.
   */
  lemma LostInvalidation(policies: Policies, ttl: real, tenant: string, state: TenantState, delay: real, slack: real,
                         steps: seq<Step>)
    requires tenant in policies && 0.0 <= delay && 0.0 < slack <= ttl
    requires steps == Straddling(ttl, tenant, state, delay, slack)
    ensures ClockOrdered(steps) && Prompt(policies, ttl, steps, delay)
    ensures forall n | 3 <= n <= 5 ::
              Lookup(After(policies, ttl, steps, n).policies, tenant)
              == Some(policies[tenant].(state := state, policyEpoch := policies[tenant].policyEpoch + 1))
    ensures Returned(After(policies, ttl, steps, 5), ttl, steps[5]) == Some((tenant, policies[tenant]))
  {
    var fetched := map[0 := Fetched(tenant, policies[tenant], 0.0)];
    var flipped := WithState(policies, tenant, state);
    assert After(policies, ttl, steps, 0) == State(policies, map[], map[]);
    assert After(policies, ttl, steps, 1) == State(policies, map[], map[0 := Missed(tenant)]);
    assert After(policies, ttl, steps, 2) == State(policies, map[], fetched);
    assert After(policies, ttl, steps, 3) == State(flipped, map[], fetched);
    assert After(policies, ttl, steps, 4) == State(flipped, map[], fetched);
    assert After(policies, ttl, steps, 5) == State(flipped, map[tenant := Held(policies[tenant], delay, 0.0)], map[]);
  }

  // ----- Exactly when the documented bound holds -----

  /** If step n returns a policy, the store held it at some earlier step at most `age` ago. */
  predicate ReturnsWithin(policies: Policies, ttl: real, steps: seq<Step>, n: nat, age: real)
    requires n < |steps|
  {
    var returned := Returned(After(policies, ttl, steps, n), ttl, steps[n]);
    returned.Some? ==>
      exists j | 0 <= j < n ::
        && Stored(policies, ttl, steps, j, returned.value.0, returned.value.1, steps[j].at)
        && steps[n].at - steps[j].at <= age
  }

  /** Every policy returned in the run was the store's at most `age` ago. */
  predicate NeverOlder(policies: Policies, ttl: real, steps: seq<Step>, age: real) {
    forall n | 0 <= n < |steps| :: ReturnsWithin(policies, ttl, steps, n, age)
  }

  predicate Timely(policies: Policies, ttl: real, steps: seq<Step>, delay: real) {
    ClockOrdered(steps) && Prompt(policies, ttl, steps, delay)
  }

  lemma NeverOlderThanBound(policies: Policies, ttl: real, steps: seq<Step>, delay: real, age: real)
    requires 0.0 <= ttl && 0.0 <= delay && Timely(policies, ttl, steps, delay) && age == ttl + delay
    ensures NeverOlder(policies, ttl, steps, age)
  {
    forall n | 0 <= n < |steps|
      ensures ReturnsWithin(policies, ttl, steps, n, age)
    {
      if Returned(After(policies, ttl, steps, n), ttl, steps[n]).Some? {
        var j := BoundedStaleness(policies, ttl, steps, n, delay);
      }
    }
  }

  /** A straddling fetch whose policy is served more than ttl after the store had it last. */
  lemma StraddlingServesTooOld(policies: Policies, ttl: real, tenant: string, state: TenantState, delay: real,
                               slack: real)
    requires tenant in policies && 0.0 < slack <= ttl && slack < delay
    ensures var steps := Straddling(ttl, tenant, state, delay, slack);
            Timely(policies, ttl, steps, delay) && !ReturnsWithin(policies, ttl, steps, 5, ttl)
  {
    var steps := Straddling(ttl, tenant, state, delay, slack);
    LostInvalidation(policies, ttl, tenant, state, delay, slack, steps);
    forall j | 0 <= j < 5 && Stored(policies, ttl, steps, j, tenant, policies[tenant], steps[j].at)
      ensures steps[5].at - steps[j].at > ttl
    {
      assert j < 3;
    }
  }

  /**
   * Exactly when the documented bound holds: in every run with fetches no slower than
   * `delay`, each returned policy was the store's at most ttl ago, if and only if a fetch
   * takes no time between its store read and its stamp.
   */
  lemma DocumentedBoundIffNoDelay(policies: Policies, ttl: real, delay: real, tenant: string)
    requires tenant in policies && 0.0 < ttl && 0.0 <= delay
    ensures (forall steps | Timely(policies, ttl, steps, delay) :: NeverOlder(policies, ttl, steps, ttl))
            <==> delay == 0.0
  {
    if delay == 0.0 {
      forall steps | Timely(policies, ttl, steps, delay)
        ensures NeverOlder(policies, ttl, steps, ttl)
      {
        NeverOlderThanBound(policies, ttl, steps, delay, ttl);
      }
    } else {
      var slack := (if delay < ttl then delay else ttl) / 2.0;
      StraddlingServesTooOld(policies, ttl, tenant, Suspended, delay, slack);
      assert !NeverOlder(policies, ttl, Straddling(ttl, tenant, Suspended, delay, slack), ttl);
    }
  }
}
