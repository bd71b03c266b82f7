/** Tenant policies and the versioned store that holds them (services/gateway/policy/models.py, store.py). */
module PolicyStore {
  import opened Wrappers

  datatype TenantState = Active | Throttled | ReadOnly | Suspended | EmergencyBlock

  predicate Blocking(state: TenantState) {
    state == Suspended || state == EmergencyBlock
  }

  datatype TenantPolicy = TenantPolicy(
    tenantId: string,
    state: TenantState,
    models: seq<string>,
    rpmLimit: int,
    guardrailPolicy: string,
    routeSet: Option<string>,
    p95LatencyMs: Option<real>,
    policyEpoch: int,
    allowGuardrailBypassOnError: bool,
    debugCaptureEnabled: bool)

  type Policies = map<string, TenantPolicy>

  /** The store after `set_state`; an unknown tenant changes nothing and raises. */
  function WithState(policies: Policies, tenant: string, state: TenantState): Policies {
    if tenant in policies then
      var current := policies[tenant];
      policies[tenant := current.(state := state, policyEpoch := current.policyEpoch + 1)]
    else
      policies
  }

  /** Two versions of one policy: a state change touches nothing but the state and the epoch. */
  predicate SameSettings(p: TenantPolicy, q: TenantPolicy) {
    p.(state := q.state, policyEpoch := q.policyEpoch) == q
  }

  /** One admin flip. */
  datatype Flip = Flip(tenant: string, state: TenantState)

  function AfterFlips(policies: Policies, flips: seq<Flip>): Policies {
    if flips == [] then policies else
    var last := flips[|flips| - 1];
    WithState(AfterFlips(policies, flips[..|flips| - 1]), last.tenant, last.state)
  }

  /**
   * Over any sequence of flips a tenant's epoch never decreases, and an epoch names one
   * policy: if two moments of a run show the same epoch they show the same policy.
   */
  lemma {:induction false} EpochNamesPolicy(policies: Policies, flips: seq<Flip>, i: nat, tenant: string)
    requires i <= |flips| && tenant in policies
    ensures AfterFlips(policies, flips).Keys == AfterFlips(policies, flips[..i]).Keys == policies.Keys
    ensures var earlier, later := AfterFlips(policies, flips[..i])[tenant], AfterFlips(policies, flips)[tenant];
            && SameSettings(earlier, later)
            && earlier.policyEpoch <= later.policyEpoch
            && (earlier.policyEpoch == later.policyEpoch ==> earlier == later)
    decreases |flips|
  {
    if flips == [] {
    } else if i == |flips| {
      assert flips[..i] == flips;
      EpochNamesPolicy(policies, flips[..i - 1], i - 1, tenant);
      assert flips[..i - 1][..i - 1] == flips[..i - 1];
    } else {
      var before := flips[..|flips| - 1];
      assert before[..i] == flips[..i];
      EpochNamesPolicy(policies, before, i, tenant);
    }
  }

  /** How many of the flips are the tenant's. */
  function FlipsOf(flips: seq<Flip>, tenant: string): nat {
    if flips == [] then 0 else
    FlipsOf(flips[..|flips| - 1], tenant) + if flips[|flips| - 1].tenant == tenant then 1 else 0
  }

  /** The epoch counts the tenant's flips; without one nothing changes. */
  lemma {:induction false} EpochCounts(policies: Policies, flips: seq<Flip>, tenant: string)
    requires tenant in policies
    ensures tenant in AfterFlips(policies, flips)
    ensures var policy := AfterFlips(policies, flips)[tenant];
            && policy.policyEpoch == policies[tenant].policyEpoch + FlipsOf(flips, tenant)
            && (FlipsOf(flips, tenant) == 0 ==> policy == policies[tenant])
  {
    if flips != [] {
      EpochCounts(policies, flips[..|flips| - 1], tenant);
    }
  }

  /** A tenant's last flip decides its state, whatever came before and whatever happens to others after. */
  lemma {:induction false} LastFlipWins(policies: Policies, before: seq<Flip>, flip: Flip, after: seq<Flip>)
    requires flip.tenant in policies && forall i | 0 <= i < |after| :: after[i].tenant != flip.tenant
    ensures var later := AfterFlips(policies, before + [flip] + after);
            flip.tenant in later && later[flip.tenant].state == flip.state
    decreases |after|
  {
    EpochCounts(policies, before, flip.tenant);
    if after == [] {
      assert before + [flip] + after == before + [flip];
      assert (before + [flip])[..|before|] == before;
    } else {
      var n := |after| - 1;
      LastFlipWins(policies, before, flip, after[..n]);
      assert (before + [flip] + after)[..|before| + 1 + n] == before + [flip] + after[..n];
    }
  }

  class InMemoryPolicyStore {
    var policies: Policies

    constructor (policies: Policies)
      ensures this.policies == policies
    {
      this.policies := policies;
    }

    method Get(tenant: string) returns (policy: Option<TenantPolicy>)
      ensures policy == Lookup(policies, tenant)
    {
      policy := if tenant in policies then Some(policies[tenant]) else None;
    }

    method SetState(tenant: string, state: TenantState) returns (updated: Option<TenantPolicy>)
      modifies this
      ensures policies == WithState(old(policies), tenant, state)
      ensures updated == Lookup(policies, tenant)
    {
      var current := Get(tenant);
      match current
      case None => updated := None;
      case Some(policy) =>
        var next := policy.(state := state, policyEpoch := policy.policyEpoch + 1);
        policies := policies[tenant := next];
        updated := Some(next);
    }
  }
}
