/**
 * The per-tenant token bucket (services/gateway/policy/rate_limiter.py).
 *
 * `Serve` is what one call does to one tenant's bucket.  The theorems read a whole
 * sequence of calls: a call is admitted exactly when every window that ends at it has
 * room for one more (`AdmissionIsWindowRule`), for any limits and any clock readings.
 * The bounds for a fixed limit, for changing limits and for readings that arrive out
 * of order are instances of that rule.
 */
module RateLimiter {
  import opened Wrappers

  /** The value of one tenant's bucket. */
  datatype Level = Level(tokens: real, lastRefill: real)

  /** One call to the limiter as a single tenant sees it. */
  datatype Visit = Visit(limit: int, now: real)

  /** One call to the limiter, in the order in which callers take its lock. */
  datatype Call = Call(tenant: string, visit: Visit)

  function Capacity(limit: int): real {
    Max(limit, 0) as real
  }

  function Elapsed(from: real, to: real): real {
    if from < to then to - from else 0.0
  }

  /** Tokens gained between two clock readings. */
  function Gain(limit: int, from: real, to: real): real {
    Elapsed(from, to) * (Capacity(limit) / 60.0)
  }

  /** Tokens in the bucket once it has been created or refilled for this visit. */
  function Refilled(level: Option<Level>, v: Visit): real {
    match level
    case None => Capacity(v.limit)
    case Some(l) =>
      var tokens := l.tokens + Gain(v.limit, l.lastRefill, v.now);
      if tokens < Capacity(v.limit) then tokens else Capacity(v.limit)
  }

  function Serve(level: Option<Level>, v: Visit): (r: (Level, bool)) {
    var tokens := Refilled(level, v);
    if tokens >= 1.0 then (Level(tokens - 1.0, v.now), true) else (Level(tokens, v.now), false)
  }

  // ----- One tenant's visits -----

  /** The bucket after the first n visits. */
  function LevelAfter(visits: seq<Visit>, n: nat): Option<Level>
    requires n <= |visits|
  {
    if n == 0 then None else Some(Serve(LevelAfter(visits, n - 1), visits[n - 1]).0)
  }

  predicate Admitted(visits: seq<Visit>, k: nat)
    requires k < |visits|
  {
    Serve(LevelAfter(visits, k), visits[k]).1
  }

  /** Visits j..k-1 that were admitted. */
  function Admissions(visits: seq<Visit>, j: nat, k: nat): nat
    requires j <= k <= |visits|
    decreases k - j
  {
    if j == k then 0 else Admissions(visits, j, k - 1) + if Admitted(visits, k - 1) then 1 else 0
  }

  /** What a window from visit j to visit k may admit: a full bucket at j, plus what flows in after it. */
  function Allowance(visits: seq<Visit>, j: nat, k: nat): real
    requires j <= k < |visits|
    decreases k - j
  {
    if j == k then Capacity(visits[k].limit)
    else Allowance(visits, j, k - 1) + Gain(visits[k].limit, visits[k - 1].now, visits[k].now)
  }

  /** Room left for visit k in the window that starts at visit j. */
  function Room(visits: seq<Visit>, j: nat, k: nat): real
    requires j <= k < |visits|
  {
    Allowance(visits, j, k) - Admissions(visits, j, k) as real
  }

  /** The refilled bucket is the smallest room over all windows; j is a window that attains it. */
  lemma {:induction false} BucketIsSmallestRoom(visits: seq<Visit>, k: nat) returns (j: nat)
    requires k < |visits|
    ensures forall i | 0 <= i <= k :: Refilled(LevelAfter(visits, k), visits[k]) <= Room(visits, i, k)
    ensures j <= k && Refilled(LevelAfter(visits, k), visits[k]) == Room(visits, j, k)
  {
    if k == 0 {
      j := 0;
    } else {
      j := BucketIsSmallestRoom(visits, k - 1);
      var gain := Gain(visits[k].limit, visits[k - 1].now, visits[k].now);
      var carried := LevelAfter(visits, k).value.tokens + gain;
      forall i | 0 <= i < k
        ensures carried <= Room(visits, i, k)
      {
        assert Refilled(LevelAfter(visits, k - 1), visits[k - 1]) <= Room(visits, i, k - 1);
      }
      assert carried == Room(visits, j, k);
      if Capacity(visits[k].limit) <= carried {
        j := k;
      }
    }
  }

  /** Every window that ends at visit k stays within its allowance when visit k is admitted too. */
  predicate RoomInEveryWindow(visits: seq<Visit>, k: nat)
    requires k < |visits|
  {
    forall j | 0 <= j <= k :: Admissions(visits, j, k) as real + 1.0 <= Allowance(visits, j, k)
  }

  /**
   * The bucket is exactly the rule "every window has room": for any limits and any clock
   * readings, visit k is admitted if and only if admitting it keeps every window that ends
   * at k within its allowance.
   */
  lemma AdmissionIsWindowRule(visits: seq<Visit>, k: nat)
    requires k < |visits|
    ensures Admitted(visits, k) <==> RoomInEveryWindow(visits, k)
  {
    var tight := BucketIsSmallestRoom(visits, k);
    if !Admitted(visits, k) {
      assert !(Admissions(visits, tight, k) as real + 1.0 <= Allowance(visits, tight, k));
    } else {
      forall j | 0 <= j <= k
        ensures Admissions(visits, j, k) as real + 1.0 <= Allowance(visits, j, k)
      {
        assert Refilled(LevelAfter(visits, k), visits[k]) <= Room(visits, j, k);
      }
    }
  }

  /** No window admits more than its allowance, however the limits and the clock move. */
  lemma {:induction false} WindowBound(visits: seq<Visit>, j: nat, k: nat)
    requires j <= k < |visits|
    ensures Admissions(visits, j, k + 1) as real <= Allowance(visits, j, k)
    decreases k
  {
    AdmissionIsWindowRule(visits, k);
    if Admitted(visits, k) {
      assert Admissions(visits, j, k) as real + 1.0 <= Allowance(visits, j, k);
    } else if j < k {
      WindowBound(visits, j, k - 1);
    }
  }

  /** The bucket never leaves [0, capacity of the last limit], whatever the clock does. */
  lemma {:induction false} TokensStayInRange(visits: seq<Visit>, n: nat)
    requires 0 < n <= |visits|
    ensures 0.0 <= LevelAfter(visits, n).value.tokens <= Capacity(visits[n - 1].limit)
  {
    if n > 1 {
      TokensStayInRange(visits, n - 1);
    }
  }

  // ----- Readings of the rule -----

  /** What a window of length `span` may admit at a fixed limit: L + L * span / 60. */
  function PlainAllowance(limit: int, span: real): real {
    Capacity(limit) + Capacity(limit) / 60.0 * span
  }

  /** Time between the clock readings of two visits. */
  function Span(visits: seq<Visit>, j: nat, k: nat): real
    requires j <= k < |visits|
  {
    visits[k].now - visits[j].now
  }

  predicate FixedLimit(visits: seq<Visit>, j: nat, k: nat, limit: int)
    requires j <= k < |visits|
  {
    forall i | j <= i <= k :: visits[i].limit == limit
  }

  predicate ClockOrdered(visits: seq<Visit>, j: nat, k: nat)
    requires j <= k < |visits|
  {
    forall i | j < i <= k :: visits[i - 1].now <= visits[i].now
  }

  /** How far the clock readings step back between visits j and k, added up. */
  function BackwardJumps(visits: seq<Visit>, j: nat, k: nat): real
    requires j <= k < |visits|
    decreases k - j
  {
    if j == k then 0.0
    else BackwardJumps(visits, j, k - 1) + Elapsed(visits[k].now, visits[k - 1].now)
  }

  /** At a fixed limit the allowance is a full bucket plus the refill of the time spanned and of every backward jump. */
  lemma {:induction false} FixedLimitAllowance(visits: seq<Visit>, j: nat, k: nat, limit: int, span: real)
    requires j <= k < |visits| && FixedLimit(visits, j, k, limit)
    requires span == Span(visits, j, k) + BackwardJumps(visits, j, k)
    ensures Allowance(visits, j, k) == PlainAllowance(limit, span)
    decreases k - j
  {
    if j < k {
      var before := Span(visits, j, k - 1) + BackwardJumps(visits, j, k - 1);
      FixedLimitAllowance(visits, j, k - 1, limit, before);
      var rate, step := Capacity(limit) / 60.0, Elapsed(visits[k - 1].now, visits[k].now);
      assert span == before + step;
      Distribute(rate, before, step, span);
    }
  }

  lemma Distribute(rate: real, a: real, b: real, sum: real)
    requires sum == a + b
    ensures rate * sum == rate * a + b * rate
  {
  }

  lemma {:induction false} NoJumpsInOrder(visits: seq<Visit>, j: nat, k: nat)
    requires j <= k < |visits| && ClockOrdered(visits, j, k)
    ensures BackwardJumps(visits, j, k) == 0.0
    decreases k - j
  {
    if j < k {
      NoJumpsInOrder(visits, j, k - 1);
    }
  }

  /**
   * The published rule: a fixed limit L and a clock in order admit visit k exactly when
   * every window holds at most L + L*T/60.
   */
  lemma FixedLimitRule(visits: seq<Visit>, k: nat, limit: int)
    requires k < |visits| && FixedLimit(visits, 0, k, limit) && ClockOrdered(visits, 0, k)
    ensures Admitted(visits, k) <==>
            forall j | 0 <= j <= k ::
              Admissions(visits, j, k) as real + 1.0
              <= PlainAllowance(limit, Span(visits, j, k))
  {
    AdmissionIsWindowRule(visits, k);
    forall j | 0 <= j <= k
      ensures Allowance(visits, j, k) == PlainAllowance(limit, Span(visits, j, k))
    {
      NoJumpsInOrder(visits, j, k);
      FixedLimitAllowance(visits, j, k, limit, Span(visits, j, k));
    }
  }

  /** One more admission fits a window of this length at this limit, in whole numbers of requests and seconds. */
  predicate OneMoreFits(admitted: nat, limit: int, span: real) {
    limit > 0 && 60.0 * (admitted as real + 1.0) <= limit as real * (60.0 + span)
  }

  lemma FitsIsPlain(admitted: nat, limit: int, span: real)
    requires span >= 0.0
    ensures OneMoreFits(admitted, limit, span) <==> admitted as real + 1.0 <= PlainAllowance(limit, span)
  {
    if limit > 0 {
      var rate := limit as real / 60.0;
      assert rate * 60.0 == limit as real;
      Distribute(rate, 60.0, span, 60.0 + span);
      assert rate * (60.0 + span) == limit as real + rate * span == PlainAllowance(limit, span);
      assert 60.0 * (rate * (60.0 + span)) == limit as real * (60.0 + span);
    }
  }

  /** The same rule multiplied out; a limit of zero or less admits nothing. */
  lemma AdmittedIffFits(visits: seq<Visit>, k: nat, limit: int)
    requires k < |visits| && FixedLimit(visits, 0, k, limit) && ClockOrdered(visits, 0, k)
    ensures Admitted(visits, k) <==>
            forall j | 0 <= j <= k :: OneMoreFits(Admissions(visits, j, k), limit, Span(visits, j, k))
  {
    FixedLimitRule(visits, k, limit);
    forall j | 0 <= j <= k
      ensures OneMoreFits(Admissions(visits, j, k), limit, Span(visits, j, k))
              <==> Admissions(visits, j, k) as real + 1.0 <= PlainAllowance(limit, Span(visits, j, k))
    {
      FitsAt(visits, j, k, limit);
    }
  }

  lemma FitsAt(visits: seq<Visit>, j: nat, k: nat, limit: int)
    requires j <= k < |visits| && ClockOrdered(visits, 0, k)
    ensures OneMoreFits(Admissions(visits, j, k), limit, Span(visits, j, k))
            <==> Admissions(visits, j, k) as real + 1.0 <= PlainAllowance(limit, Span(visits, j, k))
  {
    SpanNotNegative(visits, j, k);
    FitsIsPlain(Admissions(visits, j, k), limit, Span(visits, j, k));
  }

  lemma {:induction false} SpanNotNegative(visits: seq<Visit>, j: nat, k: nat)
    requires j <= k < |visits| && ClockOrdered(visits, j, k)
    ensures Span(visits, j, k) >= 0.0
    decreases k
  {
    if j < k {
      SpanNotNegative(visits, j, k - 1);
    }
  }

  /** With readings out of order, each backward jump can buy its own refill and no more. */
  lemma OutOfOrderBound(visits: seq<Visit>, j: nat, k: nat, limit: int)
    requires j <= k < |visits| && FixedLimit(visits, j, k, limit)
    ensures Admissions(visits, j, k + 1) as real
            <= PlainAllowance(limit, Span(visits, j, k) + BackwardJumps(visits, j, k))
  {
    WindowBound(visits, j, k);
    FixedLimitAllowance(visits, j, k, limit, Span(visits, j, k) + BackwardJumps(visits, j, k));
  }

  // ----- Exactly when the plain bound holds -----

  predicate AllAt(visits: seq<Visit>, limit: int) {
    forall i | 0 <= i < |visits| :: visits[i].limit == limit
  }

  /** How far the clock readings of a whole run step back. */
  function TotalJumps(visits: seq<Visit>): real {
    if visits == [] then 0.0 else BackwardJumps(visits, 0, |visits| - 1)
  }

  /** The window from visit j to visit k admits at most L + L*T/60. */
  predicate WithinPlain(visits: seq<Visit>, limit: int, j: nat, k: nat)
    requires j <= k < |visits|
  {
    Admissions(visits, j, k + 1) as real <= PlainAllowance(limit, Span(visits, j, k))
  }

  predicate KeepsPlainBound(visits: seq<Visit>, limit: int) {
    forall j, k | 0 <= j <= k < |visits| :: WithinPlain(visits, limit, j, k)
  }

  predicate Jumping(visits: seq<Visit>, limit: int, jumps: real) {
    AllAt(visits, limit) && TotalJumps(visits) <= jumps
  }

  /** Calls that share one instant empty the bucket one by one. */
  lemma {:induction false} BurstEmpties(visits: seq<Visit>, limit: nat, at: real, n: nat)
    requires n <= limit && n <= |visits| && forall i | 0 <= i < n :: visits[i] == Visit(limit, at)
    ensures Admissions(visits, 0, n) == n
    ensures n > 0 ==> LevelAfter(visits, n) == Some(Level((limit - n) as real, at))
  {
    if n > 0 {
      BurstEmpties(visits, limit, at, n - 1);
    }
  }

  /**
   * The run that beats the plain bound: a burst at 0, then readings that step back once, by
   * `jump`, just before a token is due.
   */
  function JumpRun(limit: nat, jump: real): seq<Visit>
    requires limit >= 1
  {
    var due := 60.0 / limit as real;
    seq(limit, _ => Visit(limit, 0.0))
    + [Visit(limit, due - jump), Visit(limit, due - 2.0 * jump), Visit(limit, due - jump)]
  }

  /** A token is due after 60/L seconds, so a reading `jump` before that leaves the bucket short by jump * L/60. */
  lemma DueGain(limit: nat, jump: real, due: real, rate: real)
    requires limit >= 1 && due == 60.0 / limit as real && rate == Capacity(limit) / 60.0
    ensures (due - jump) * rate == 1.0 - jump * rate
  {
    assert due * rate == 1.0;
  }

  /** The refused call, the backward reading, and the call that the same stretch of time pays for twice. */
  lemma JumpSteps(limit: nat, jump: real, due: real, rate: real)
    requires limit >= 1 && due == 60.0 / limit as real && rate == Capacity(limit) / 60.0
    requires 0.0 < jump && 2.0 * jump <= due
    ensures var first := Serve(Some(Level(0.0, 0.0)), Visit(limit, due - jump));
            var second := Serve(Some(first.0), Visit(limit, due - 2.0 * jump));
            !first.1 && !second.1 && Serve(Some(second.0), Visit(limit, due - jump)).1
  {
    DueGain(limit, jump, due, rate);
    assert jump * rate > 0.0;
    assert Gain(limit, 0.0, due - jump) == 1.0 - jump * rate;
    assert Gain(limit, due - jump, due - 2.0 * jump) == 0.0;
    assert Gain(limit, due - 2.0 * jump, due - jump) == jump * rate;
  }

  lemma {:induction false} BurstHasNoJumps(visits: seq<Visit>, limit: nat, n: nat)
    requires n < |visits| && forall i | 0 <= i <= n :: visits[i] == Visit(limit, 0.0)
    ensures BackwardJumps(visits, 0, n) == 0.0
  {
    if n > 0 {
      BurstHasNoJumps(visits, limit, n - 1);
    }
  }

  lemma JumpRunAdmits(limit: nat, jump: real)
    requires limit >= 1 && 0.0 < jump && 2.0 * jump <= 60.0 / limit as real
    ensures Admissions(JumpRun(limit, jump), 0, limit + 3) == limit + 1
  {
    var visits := JumpRun(limit, jump);
    BurstEmpties(visits, limit, 0.0, limit);
    JumpSteps(limit, jump, 60.0 / limit as real, Capacity(limit) / 60.0);
    assert LevelAfter(visits, limit + 1).value == Serve(LevelAfter(visits, limit), visits[limit]).0;
    assert LevelAfter(visits, limit + 2).value == Serve(LevelAfter(visits, limit + 1), visits[limit + 1]).0;
    assert Admissions(visits, 0, limit + 1) == limit;
    assert Admissions(visits, 0, limit + 2) == limit;
  }

  lemma JumpRunJumps(limit: nat, jump: real)
    requires limit >= 1 && 0.0 < jump && 2.0 * jump <= 60.0 / limit as real
    ensures TotalJumps(JumpRun(limit, jump)) == jump
  {
    var visits := JumpRun(limit, jump);
    BurstHasNoJumps(visits, limit, limit - 1);
    assert BackwardJumps(visits, 0, limit) == 0.0;
    assert BackwardJumps(visits, 0, limit + 1) == jump;
  }

  lemma JumpAllowance(limit: nat, jump: real, span: real)
    requires limit >= 1 && 0.0 < jump && span == 60.0 / limit as real - jump
    ensures PlainAllowance(limit, span) < limit as real + 1.0
  {
    var rate := Capacity(limit) / 60.0;
    DueGain(limit, jump, 60.0 / limit as real, rate);
    assert jump * rate > 0.0;
  }

  /**
   * For every limit of at least one, and jumps as short as you like, some run that steps
   * back by no more than that beats the plain bound.
   */
  lemma OutOfOrderExceedsPlainBound(limit: nat, jump: real)
    requires limit >= 1 && 0.0 < jump && 2.0 * jump <= 60.0 / limit as real
    ensures var visits := JumpRun(limit, jump);
            AllAt(visits, limit) && TotalJumps(visits) == jump && !WithinPlain(visits, limit, 0, |visits| - 1)
  {
    var visits := JumpRun(limit, jump);
    JumpRunAdmits(limit, jump);
    JumpRunJumps(limit, jump);
    JumpAllowance(limit, jump, Span(visits, 0, limit + 2));
  }

  lemma {:induction false} JumpsGrow(visits: seq<Visit>, j: nat, k: nat, n: nat)
    requires j <= k <= n < |visits|
    ensures 0.0 <= BackwardJumps(visits, j, k) <= BackwardJumps(visits, 0, n)
    decreases n, k
  {
    if k < n {
      JumpsGrow(visits, j, k, n - 1);
    } else if j < k {
      JumpsGrow(visits, j, k - 1, n - 1);
    } else if n > 0 {
      JumpsGrow(visits, n - 1, n - 1, n - 1);
    }
  }

  lemma NoJumpsKeepPlainBound(visits: seq<Visit>, limit: int, jumps: real)
    requires Jumping(visits, limit, jumps) && (jumps == 0.0 || limit <= 0)
    ensures KeepsPlainBound(visits, limit)
  {
    forall j, k | 0 <= j <= k < |visits|
      ensures WithinPlain(visits, limit, j, k)
    {
      OutOfOrderBound(visits, j, k, limit);
      JumpsGrow(visits, j, k, |visits| - 1);
      if limit <= 0 {
        assert Capacity(limit) == 0.0;
      }
    }
  }

  /**
   * Exactly when the plain bound can be relied on: every run at a fixed limit whose clock
   * readings step back by at most `jumps` in all keeps L + L*T/60 in every window if and
   * only if they do not step back at all, or the limit lets nothing through anyway.
   */
  lemma PlainBoundIffNoJumps(limit: int, jumps: real)
    requires 0.0 <= jumps
    ensures (forall visits | Jumping(visits, limit, jumps) :: KeepsPlainBound(visits, limit))
            <==> jumps == 0.0 || limit <= 0
  {
    if jumps == 0.0 || limit <= 0 {
      forall visits | Jumping(visits, limit, jumps)
        ensures KeepsPlainBound(visits, limit)
      {
        NoJumpsKeepPlainBound(visits, limit, jumps);
      }
    } else {
      var most := 30.0 / limit as real;
      assert 2.0 * most == 60.0 / limit as real;
      var jump := if jumps < most then jumps else most;
      OutOfOrderExceedsPlainBound(limit, jump);
      var visits := JumpRun(limit, jump);
      assert Jumping(visits, limit, jumps) && !WithinPlain(visits, limit, 0, |visits| - 1);
    }
  }

  lemma {:induction false} LargestLimitAllowance(visits: seq<Visit>, j: nat, k: nat, largest: int, span: real)
    requires j <= k < |visits| && ClockOrdered(visits, j, k) && span == Span(visits, j, k)
    requires forall i | j <= i <= k :: visits[i].limit <= largest
    ensures Allowance(visits, j, k) <= PlainAllowance(largest, span)
    decreases k - j
  {
    if j < k {
      var before, step := Span(visits, j, k - 1), visits[k].now - visits[k - 1].now;
      LargestLimitAllowance(visits, j, k - 1, largest, before);
      GainAtMost(visits[k].limit, largest, visits[k - 1].now, visits[k].now, step);
      Distribute(Capacity(largest) / 60.0, before, step, span);
    }
  }

  /**
   * No sequence of limit changes beats its largest limit.  A stretch of visits that starts
   * with the first throttled one is the case where that largest limit is the throttled one.
   */
  lemma LargestLimitGoverns(visits: seq<Visit>, j: nat, k: nat, largest: int)
    requires j <= k < |visits| && ClockOrdered(visits, j, k)
    requires forall i | j <= i <= k :: visits[i].limit <= largest
    ensures Admissions(visits, j, k + 1) as real
            <= PlainAllowance(largest, Span(visits, j, k))
  {
    WindowBound(visits, j, k);
    LargestLimitAllowance(visits, j, k, largest, Span(visits, j, k));
  }

  lemma GainAtMost(limit: int, largest: int, from: real, to: real, step: real)
    requires limit <= largest && 0.0 <= step && step == to - from
    ensures Gain(limit, from, to) <= step * (Capacity(largest) / 60.0)
  {
    Ordered(Capacity(limit) / 60.0, Capacity(largest) / 60.0, step);
  }

  lemma Ordered(low: real, high: real, step: real)
    requires low <= high && 0.0 <= step
    ensures step * low <= step * high
  {
    assert 0.0 <= (high - low) * step;
  }

  // ----- All tenants together -----

  /** The limiter's dictionary after a sequence of calls. */
  function Levels(calls: seq<Call>): map<string, Level> {
    if calls == [] then map[] else
    var before := Levels(calls[..|calls| - 1]);
    var c := calls[|calls| - 1];
    before[c.tenant := Serve(Lookup(before, c.tenant), c.visit).0]
  }

  /** The answer given to call k. */
  predicate Answer(calls: seq<Call>, k: nat)
    requires k < |calls|
  {
    Serve(Lookup(Levels(calls[..k]), calls[k].tenant), calls[k].visit).1
  }

  /** One tenant's visits, as if no other tenant existed. */
  function Own(calls: seq<Call>, tenant: string): seq<Visit> {
    if calls == [] then [] else
    var rest := Own(calls[..|calls| - 1], tenant);
    var c := calls[|calls| - 1];
    if c.tenant == tenant then rest + [c.visit] else rest
  }

  lemma {:induction false} LevelAfterPrefix(visits: seq<Visit>, more: seq<Visit>, n: nat)
    requires n <= |visits|
    ensures LevelAfter(visits + more, n) == LevelAfter(visits, n)
  {
    if n > 0 {
      LevelAfterPrefix(visits, more, n - 1);
    }
  }

  /** A tenant's bucket depends on that tenant's own calls alone. */
  lemma {:induction false} OwnBucket(calls: seq<Call>, tenant: string)
    ensures Lookup(Levels(calls), tenant) == LevelAfter(Own(calls, tenant), |Own(calls, tenant)|)
  {
    if calls != [] {
      var before, c := calls[..|calls| - 1], calls[|calls| - 1];
      OwnBucket(before, tenant);
      if c.tenant == tenant {
        var own := Own(before, tenant);
        LevelAfterPrefix(own, [c.visit], |own|);
      }
    }
  }

  /** The answer to a call is the answer its tenant would get with every other tenant's calls left out. */
  lemma NonInterference(calls: seq<Call>, k: nat)
    requires k < |calls|
    ensures var own := Own(calls[..k + 1], calls[k].tenant);
            |own| > 0 && own[|own| - 1] == calls[k].visit && Answer(calls, k) == Admitted(own, |own| - 1)
  {
    var upto, tenant := calls[..k], calls[k].tenant;
    assert calls[..k + 1][..k] == upto;
    OwnBucket(upto, tenant);
    LevelAfterPrefix(Own(upto, tenant), [calls[k].visit], |Own(upto, tenant)|);
  }

  // ----- The class -----

  class Bucket {
    var tokens: real
    var lastRefill: real
    ghost const tenant: string

    constructor (ghost tenant: string, tokens: real, lastRefill: real)
      ensures this.tenant == tenant && this.tokens == tokens && this.lastRefill == lastRefill
    {
      this.tenant := tenant;
      this.tokens, this.lastRefill := tokens, lastRefill;
    }

    ghost function Value(): Level
      reads this
    {
      Level(tokens, lastRefill)
    }

    /** Refill for the time since the last visit, then take a token if there is one. */
    method Take(limit: int, now: real) returns (taken: bool)
      modifies this
      ensures (Value(), taken) == Serve(Some(old(Value())), Visit(limit, now))
    {
      var capacity := Capacity(limit);
      var refillRate := capacity / 60.0;
      var elapsed := Elapsed(lastRefill, now);
      var refilled := tokens + elapsed * refillRate;
      assert refilled == tokens + Gain(limit, lastRefill, now);
      tokens := if refilled < capacity then refilled else capacity;
      lastRefill := now;
      taken := tokens >= 1.0;
      if taken {
        tokens := tokens - 1.0;
      }
    }
  }

  /** A bucket made full at a tenant's first visit is served like no bucket at all. */
  lemma RefilledBucket(level: Option<Level>, v: Visit, bucket: Level)
    requires bucket == match level case None => Level(Capacity(v.limit), v.now) case Some(l) => l
    ensures Serve(Some(bucket), v) == Serve(level, v)
  {
    assert Gain(v.limit, v.now, v.now) == 0.0;
  }

  class TokenBucketRateLimiter {
    var buckets: map<string, Bucket>
    ghost var Contents: map<string, Level>
    ghost var Repr: set<object>

    /** Each tenant has a bucket of its own, and Contents lists their values. */
    ghost predicate Valid()
      reads this, Repr
      ensures Valid() ==> this in Repr
    {
      && this in Repr
      && Contents.Keys == buckets.Keys
      && (forall t | t in buckets ::
            buckets[t] in Repr && buckets[t].tenant == t && buckets[t].Value() == Contents[t])
    }

    constructor ()
      ensures Valid() && fresh(Repr) && Contents == Levels([])
    {
      buckets, Contents, Repr := map[], map[], {this};
    }

    method Allow(tenant: string, rpmLimit: int, now: real) returns (allowed: bool)
      requires Valid()
      modifies Repr
      ensures Valid() && fresh(Repr - old(Repr))
      ensures var (level, answer) := Serve(Lookup(old(Contents), tenant), Visit(rpmLimit, now));
              allowed == answer && Contents == old(Contents)[tenant := level]
    {
      ghost var (level, answer) := Serve(Lookup(Contents, tenant), Visit(rpmLimit, now));
      var bucket: Bucket;
      if tenant in buckets {
        bucket := buckets[tenant];
      } else {
        bucket := new Bucket(tenant, Capacity(rpmLimit), now);
        buckets := buckets[tenant := bucket];
        Repr := Repr + {bucket};
      }
      RefilledBucket(Lookup(Contents, tenant), Visit(rpmLimit, now), bucket.Value());
      allowed := bucket.Take(rpmLimit, now);
      Contents := Contents[tenant := level];
    }
  }
}
