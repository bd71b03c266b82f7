/**
 * The stages of the request pipeline that only decide (services/gateway/pipeline.py and
 * services/gateway/guardrails/fail_closed.py): the effective rate limit, the model
 * allowlist and the fail-closed guardrail.
 */
module Pipeline {
  import opened Wrappers
  import opened PolicyStore

  const THROTTLE_FACTOR := 5

  /** The limit a tenant's state leaves it; the division rounds down. */
  function EffectiveLimit(policy: TenantPolicy): int {
    if policy.state == Throttled then Max(1, policy.rpmLimit / THROTTLE_FACTOR) else policy.rpmLimit
  }

  /** Throttling lowers a limit exactly when there was at least one request a minute to lower. */
  lemma ThrottlingNeverRaises(policy: TenantPolicy)
    ensures EffectiveLimit(policy.(state := Throttled)) <= EffectiveLimit(policy.(state := Active))
            <==> policy.rpmLimit >= 1
    ensures forall state :: EffectiveLimit(policy.(state := state)) <= Max(1, policy.rpmLimit)
  {
  }

  /** Only throttling changes the limit. */
  lemma OthersKeepTheirLimit(policy: TenantPolicy)
    requires policy.state in {Active, ReadOnly, Suspended, EmergencyBlock}
    ensures EffectiveLimit(policy) == policy.rpmLimit
  {
  }

  /** A fifth of a limit, rounded down, and always at least one request. */
  predicate IsAFifth(fifth: int, limit: int) {
    && fifth >= 1
    && (limit >= 5 ==> 5 * fifth <= limit < 5 * fifth + 5)
    && (limit < 5 ==> fifth == 1)
  }

  lemma ThrottledIsAFifth(policy: TenantPolicy)
    requires policy.state == Throttled
    ensures IsAFifth(EffectiveLimit(policy), policy.rpmLimit)
  {
  }

  // ----- The model allowlist -----

  /** The model to invoke; None is MODEL_NOT_ALLOWED. */
  function ResolveModel(policy: TenantPolicy, requested: Option<string>, defaultModel: string): Option<string> {
    match requested
    case Some(model) => if policy.models != [] && model !in policy.models then None else requested
    case None => if policy.models != [] then Some(policy.models[0]) else Some(defaultModel)
  }

  /** A model a tenant may be served: one of its list, or anything when the list is empty. */
  predicate Allowed(policy: TenantPolicy, model: string) {
    policy.models == [] || model in policy.models
  }

  /** The model a request gets: the one it names, else the first of the tenant's list, else the gateway's own. */
  lemma ResolvedModel(policy: TenantPolicy, requested: Option<string>, defaultModel: string)
    requires requested.Some? ==> Allowed(policy, requested.value)
    ensures var model := ResolveModel(policy, requested, defaultModel);
            && (requested.Some? ==> model == requested)
            && (requested.None? && |policy.models| > 0 ==> model == Some(policy.models[0]))
            && (requested.None? && |policy.models| == 0 ==> model == Some(defaultModel))
  {
  }

  /**
   * What is resolved is allowed, a request for a model is never swapped for another, and
   * only a request outside the list is refused.
   */
  lemma ResolvedModelIsAllowed(policy: TenantPolicy, requested: Option<string>, defaultModel: string)
    ensures var r := ResolveModel(policy, requested, defaultModel);
            && (r.Some? ==> Allowed(policy, r.value) && (requested.Some? ==> r == requested))
            && (r.None? <==> requested.Some? && !Allowed(policy, requested.value))
  {
  }

  // ----- The guardrail -----

  datatype SafetyClass = Strict | Standard | LowRisk

  /** `str.lower` as far as the two words below can tell: no other letter has a lower case spelled with theirs. */
  function Lower(c: char): char {
    if 'A' <= c <= 'Z' then (c as int + 32) as char else c
  }

  function Lowered(s: string): string {
    seq(|s|, i requires 0 <= i < |s| => Lower(s[i]))
  }

  predicate OccursAt(s: string, word: string, i: nat) {
    i + |word| <= |s| && s[i..i + |word|] == word
  }

  /** Python's `word in s`. */
  predicate Contains(s: string, word: string) {
    exists i | 0 <= i <= |s| - |word| :: OccursAt(s, word, i)
  }

  function ClassifySafety(guardrailPolicy: string): SafetyClass {
    var lowered := Lowered(guardrailPolicy);
    if Contains(lowered, "strict") then Strict
    else if Contains(lowered, "low") then LowRisk
    else Standard
  }

  /** What a guardrail backend does with a text: decide, or fail to. */
  datatype Verdict = Allow | Block | CheckFailed

  /** What the pipeline makes of it; the last two raise. */
  datatype Screening = Clean | Bypassed | Refused | Unavailable

  function Screen(policy: TenantPolicy, verdict: Verdict): Screening {
    match verdict
    case Allow => Clean
    case Block => Refused
    case CheckFailed =>
      if ClassifySafety(policy.guardrailPolicy) == LowRisk && policy.allowGuardrailBypassOnError then Bypassed
      else Unavailable
  }

  predicate Proceeds(s: Screening) {
    s == Clean || s == Bypassed
  }

  // ----- Fail closed -----

  /** From place i on the name spells the word, each letter in either case. */
  predicate SpelledAt(name: string, small: string, large: string, i: nat)
    requires |small| == |large|
  {
    i + |small| <= |name| && forall j | 0 <= j < |small| :: name[i + j] == small[j] || name[i + j] == large[j]
  }

  predicate Mentions(name: string, small: string, large: string)
    requires |small| == |large|
  {
    exists i | 0 <= i <= |name| - |small| :: SpelledAt(name, small, large, i)
  }

  /** `small` is `large` in lower case, and both are letters. */
  predicate SameWord(small: string, large: string) {
    |small| == |large|
    && forall j | 0 <= j < |small| :: 'A' <= large[j] <= 'Z' && small[j] as int == large[j] as int + 32
  }

  lemma SpelledIsLowered(name: string, small: string, large: string, i: nat)
    requires SameWord(small, large)
    ensures SpelledAt(name, small, large, i) <==> OccursAt(Lowered(name), small, i)
  {
    if i + |small| <= |name| {
      var part := Lowered(name)[i..i + |small|];
      assert forall j | 0 <= j < |small| :: part[j] == Lower(name[i + j]);
      if SpelledAt(name, small, large, i) {
        assert part == small;
      }
      if part == small {
        forall j | 0 <= j < |small|
          ensures name[i + j] == small[j] || name[i + j] == large[j]
        {
          assert part[j] == small[j];
        }
      }
    }
  }

  lemma MentionsIsContains(name: string, small: string, large: string)
    requires SameWord(small, large)
    ensures Mentions(name, small, large) <==> Contains(Lowered(name), small)
  {
    if Mentions(name, small, large) {
      var i :| 0 <= i <= |name| - |small| && SpelledAt(name, small, large, i);
      SpelledIsLowered(name, small, large, i);
    }
    if Contains(Lowered(name), small) {
      var i :| 0 <= i <= |name| - |small| && OccursAt(Lowered(name), small, i);
      SpelledIsLowered(name, small, large, i);
    }
  }

  /**
   * The opt-in that lets a failed check through: explicit, and only for a guardrail whose
   * name mentions low and does not mention strict, in whatever case.
   */
  predicate MayBypass(policy: TenantPolicy) {
    && policy.allowGuardrailBypassOnError
    && Mentions(policy.guardrailPolicy, "low", "LOW") && !Mentions(policy.guardrailPolicy, "strict", "STRICT")
  }

  /**
   * Fail closed: a text goes on exactly when its check allowed it, or could not be made and
   * the tenant had opted in.
   */
  lemma FailsClosed(policy: TenantPolicy, verdict: Verdict)
    ensures Proceeds(Screen(policy, verdict)) <==> verdict == Allow || (verdict == CheckFailed && MayBypass(policy))
  {
    MentionsIsContains(policy.guardrailPolicy, "low", "LOW");
    MentionsIsContains(policy.guardrailPolicy, "strict", "STRICT");
  }

  /**
   * A strict guardrail never lets a failed check through, in whatever case and wherever the
   * word stands in its name.
   */
  lemma StrictNeverBypasses(policy: TenantPolicy, before: string, word: string, after: string)
    requires policy.guardrailPolicy == before + word + after && |word| == 6 && SpelledAt(word, "strict", "STRICT", 0)
    ensures Screen(policy, CheckFailed) == Unavailable
  {
    assert SpelledAt(policy.guardrailPolicy, "strict", "STRICT", |before|);
    MentionsIsContains(policy.guardrailPolicy, "strict", "STRICT");
  }
}
