/**
 * The per-model circuit breaker (services/gateway/routing/circuit_breaker.py).
 *
 * `Permit`, `Succeed` and `Fail` are what one call does to one model's entry.  The theorems
 * read whole histories: the three states carry no more than the failures since the last
 * success, the time of the last one, and whether a probe got through since
 * (`RefinesHistory`); the answer to `allow` is a function of that history alone
 * (`AllowIffHistory`); and a model that only fails is called at a bounded rate
 * (`RetryStormBound`).
 */
module Breaker {
  import opened Wrappers

  datatype BreakerState = Closed | Open | HalfOpen

  datatype Circuit = Circuit(state: BreakerState, consecutiveFailures: nat, openedAt: real)

  datatype Settings = Settings(failureThreshold: int, resetTimeout: real)

  const FRESH := Circuit(Closed, 0, 0.0)

  function Permit(cfg: Settings, c: Circuit, now: real): (r: (Circuit, bool)) {
    if c.state == Open then
      if now - c.openedAt >= cfg.resetTimeout then (c.(state := HalfOpen), true) else (c, false)
    else
      (c, true)
  }

  function Succeed(c: Circuit): Circuit {
    c.(state := Closed, consecutiveFailures := 0)
  }

  function Fail(cfg: Settings, c: Circuit, now: real): Circuit {
    var failures := c.consecutiveFailures + 1;
    if c.state == HalfOpen || failures >= cfg.failureThreshold then
      Circuit(Open, failures, now)
    else
      c.(consecutiveFailures := failures)
  }

  // ----- One model's history -----

  datatype Signal = Probe(at: real) | Success(at: real) | Failure(at: real)

  function React(cfg: Settings, c: Circuit, s: Signal): Circuit {
    match s
    case Probe(at) => Permit(cfg, c, at).0
    case Success(_) => Succeed(c)
    case Failure(at) => Fail(cfg, c, at)
  }

  function After(cfg: Settings, signals: seq<Signal>): Circuit {
    if signals == [] then FRESH
    else React(cfg, After(cfg, signals[..|signals| - 1]), signals[|signals| - 1])
  }

  /** Failures since the last success. */
  function TrailingFailures(signals: seq<Signal>): nat {
    if signals == [] then 0 else
    var before := TrailingFailures(signals[..|signals| - 1]);
    match signals[|signals| - 1]
    case Probe(_) => before
    case Success(_) => 0
    case Failure(_) => before + 1
  }

  /** When the last failure was recorded; 0 when there is none. */
  function LastFailure(signals: seq<Signal>): real {
    if signals == [] then 0.0 else
    match signals[|signals| - 1]
    case Failure(at) => at
    case _ => LastFailure(signals[..|signals| - 1])
  }

  /** Since the last failure or success, some probe came at least resetTimeout after the last failure. */
  predicate ProbedSinceTimeout(cfg: Settings, signals: seq<Signal>) {
    if signals == [] then false else
    var before := signals[..|signals| - 1];
    match signals[|signals| - 1]
    case Probe(at) => ProbedSinceTimeout(cfg, before) || at - LastFailure(before) >= cfg.resetTimeout
    case _ => false
  }

  /** The failures that open the breaker; a threshold below one acts as one. */
  function Threshold(cfg: Settings): nat {
    Max(1, cfg.failureThreshold)
  }

  /** The machine after any history is determined by that history's failures and probes. */
  lemma {:induction false} RefinesHistory(cfg: Settings, signals: seq<Signal>)
    ensures var c := After(cfg, signals);
            && c.consecutiveFailures == TrailingFailures(signals)
            && (c.state != Closed <==> TrailingFailures(signals) >= Threshold(cfg))
            && (c.state != Closed ==> c.openedAt == LastFailure(signals))
            && (c.state == HalfOpen
                <==> TrailingFailures(signals) >= Threshold(cfg) && ProbedSinceTimeout(cfg, signals))
  {
    if signals != [] {
      RefinesHistory(cfg, signals[..|signals| - 1]);
    }
  }

  predicate NoLater(signals: seq<Signal>, i: nat, j: nat)
    requires i <= j < |signals|
  {
    signals[i].at <= signals[j].at
  }

  predicate ClockOrdered(signals: seq<Signal>) {
    forall i, j | 0 <= i <= j < |signals| :: NoLater(signals, i, j)
  }

  /** Once a probe has passed the timeout, every later instant has passed it too. */
  lemma {:induction false} ProbedStaysPast(cfg: Settings, signals: seq<Signal>, now: real)
    requires ProbedSinceTimeout(cfg, signals)
    requires forall i | 0 <= i < |signals| :: signals[i].at <= now
    ensures now - LastFailure(signals) >= cfg.resetTimeout
  {
    var before := signals[..|signals| - 1];
    if ProbedSinceTimeout(cfg, before) {
      ProbedStaysPast(cfg, before, now);
    }
  }

  /**
   * With any clock, a call is refused only above the threshold, within the timeout, and with
   * no probe through since.
   */
  lemma AllowAnyClock(cfg: Settings, signals: seq<Signal>, now: real)
    ensures Permit(cfg, After(cfg, signals), now).1
            <==> (|| TrailingFailures(signals) < Threshold(cfg)
                  || ProbedSinceTimeout(cfg, signals)
                  || now - LastFailure(signals) >= cfg.resetTimeout)
  {
    RefinesHistory(cfg, signals);
  }

  /**
   * With a clock that never steps back HALF_OPEN carries no information: the answer is the
   * failures and the time since the last one.
   */
  lemma AllowIffHistory(cfg: Settings, signals: seq<Signal>, now: real)
    requires ClockOrdered(signals + [Probe(now)])
    ensures Permit(cfg, After(cfg, signals), now).1
            <==> TrailingFailures(signals) < Threshold(cfg) || now - LastFailure(signals) >= cfg.resetTimeout
  {
    AllowAnyClock(cfg, signals, now);
    if ProbedSinceTimeout(cfg, signals) {
      var all := signals + [Probe(now)];
      forall i | 0 <= i < |signals|
        ensures signals[i].at <= now
      {
        assert NoLater(all, i, |signals|);
      }
      ProbedStaysPast(cfg, signals, now);
    }
  }

  function Probes(times: seq<real>): seq<Signal> {
    if times == [] then [] else Probes(times[..|times| - 1]) + [Probe(times[|times| - 1])]
  }

  /**
   * HALF_OPEN is not one trial call: once a probe is past the timeout every further call
   * passes, until an outcome is recorded.
   */
  lemma {:induction false} HalfOpenAdmitsAll(cfg: Settings, signals: seq<Signal>, first: real, later: seq<real>,
                                             now: real)
    requires first - LastFailure(signals) >= cfg.resetTimeout
    ensures Permit(cfg, After(cfg, signals + [Probe(first)] + Probes(later)), now).1
  {
    ProbedAfterProbes(cfg, signals, first, later);
    AllowAnyClock(cfg, signals + [Probe(first)] + Probes(later), now);
  }

  lemma {:induction false} ProbedAfterProbes(cfg: Settings, signals: seq<Signal>, first: real, later: seq<real>)
    requires first - LastFailure(signals) >= cfg.resetTimeout
    ensures ProbedSinceTimeout(cfg, signals + [Probe(first)] + Probes(later))
  {
    var all := signals + [Probe(first)] + Probes(later);
    if later == [] {
      assert all[..|all| - 1] == signals;
    } else {
      ProbedAfterProbes(cfg, signals, first, later[..|later| - 1]);
      assert all[..|all| - 1] == signals + [Probe(first)] + Probes(later[..|later| - 1]);
    }
  }

  // ----- The retry storm: a model whose every admitted call fails -----

  predicate AdmittedAt(cfg: Settings, signals: seq<Signal>, n: nat)
    requires n < |signals|
  {
    signals[n].Probe? && Permit(cfg, After(cfg, signals[..n]), signals[n].at).1
  }

  /** Calls admitted among signals i..n-1. */
  function Admissions(cfg: Settings, signals: seq<Signal>, i: nat, n: nat): nat
    requires i <= n <= |signals|
    decreases n - i
  {
    if i == n then 0 else Admissions(cfg, signals, i, n - 1) + if AdmittedAt(cfg, signals, n - 1) then 1 else 0
  }

  function Failures(signals: seq<Signal>, n: nat): nat
    requires n <= |signals|
  {
    if n == 0 then 0 else Failures(signals, n - 1) + if signals[n - 1].Failure? then 1 else 0
  }

  /** Admitted calls whose failure is not recorded yet. */
  function InFlight(cfg: Settings, signals: seq<Signal>, n: nat): int
    requires n <= |signals|
  {
    Admissions(cfg, signals, 0, n) - Failures(signals, n)
  }

  predicate WithinLimit(cfg: Settings, signals: seq<Signal>, limit: nat, n: nat)
    requires n <= |signals|
  {
    0 <= InFlight(cfg, signals, n) <= limit
  }

  /** Every admitted call ends in a recorded failure, with at most `limit` of them open at any moment. */
  predicate Storm(cfg: Settings, signals: seq<Signal>, limit: nat) {
    && ClockOrdered(signals)
    && (forall n | 0 <= n < |signals| :: !signals[n].Success?)
    && (forall n | 0 <= n <= |signals| :: WithinLimit(cfg, signals, limit, n))
  }

  /** Admissions since the last failure recorded in the window, or since its start. */
  function Batch(cfg: Settings, signals: seq<Signal>, i: nat, n: nat): nat
    requires i <= n <= |signals|
    decreases n - i
  {
    if i == n || signals[n - 1].Failure? then 0
    else Batch(cfg, signals, i, n - 1) + if AdmittedAt(cfg, signals, n - 1) then 1 else 0
  }

  /** The counts that a window of signals i..n-1 leaves behind. */
  datatype Window = Window(admissions: int, batch: int, inFlight: int, failures: int, last: real, now: real)

  function WindowAt(cfg: Settings, signals: seq<Signal>, i: nat, n: nat): Window
    requires i < n <= |signals|
  {
    Window(Admissions(cfg, signals, i, n), Batch(cfg, signals, i, n), InFlight(cfg, signals, n),
           Failures(signals, n), LastFailure(signals[..n]), signals[n - 1].at)
  }

  /** After `rounds` whole batches, each of which had to wait for the timeout. */
  predicate Paced(cfg: Settings, limit: nat, start: real, w: Window, rounds: nat) {
    && start <= w.now
    && w.batch <= w.inFlight && 0 <= w.inFlight <= limit
    && w.admissions <= w.inFlight + w.failures
    && (w.failures >= Threshold(cfg) ==>
          && (w.batch > 0 ==> w.now >= w.last + cfg.resetTimeout)
          && (|| w.admissions == w.batch
              || (&& w.admissions - w.batch <= Threshold(cfg) - 1 + limit + limit * rounds
                  && start + rounds as real * cfg.resetTimeout <= w.last <= w.now)))
  }

  /** A failure closes the batch: it starts a new round if the batch had to wait. */
  lemma PacedFailure(cfg: Settings, limit: nat, start: real, w: Window, rounds: nat, at: real) returns (next: nat)
    requires Paced(cfg, limit, start, w, rounds) && w.now <= at && 0 < w.inFlight
    ensures Paced(cfg, limit, start, Window(w.admissions, 0, w.inFlight - 1, w.failures + 1, at, at), next)
  {
    if w.failures < Threshold(cfg) || w.admissions == w.batch {
      next := 0;
    } else if w.batch > 0 {
      next := rounds + 1;
      assert limit * next == limit * rounds + limit;
      assert next as real * cfg.resetTimeout == rounds as real * cfg.resetTimeout + cfg.resetTimeout;
    } else {
      next := rounds;
    }
  }

  lemma PacedAdmission(cfg: Settings, limit: nat, start: real, w: Window, rounds: nat, at: real)
    requires Paced(cfg, limit, start, w, rounds) && w.now <= at && w.inFlight < limit
    requires w.failures >= Threshold(cfg) ==> at >= w.last + cfg.resetTimeout
    ensures var more := w.(admissions := w.admissions + 1, batch := w.batch + 1, inFlight := w.inFlight + 1, now := at);
            Paced(cfg, limit, start, more, rounds)
  {
  }

  /** A call given up without an outcome is as if it had not been admitted. */
  lemma PacedLoss(cfg: Settings, limit: nat, start: real, w: Window, rounds: nat)
    requires Paced(cfg, limit, start, w, rounds) && 0 < w.inFlight
    ensures var less := w.(admissions := w.admissions - 1, batch := w.batch - 1, inFlight := w.inFlight - 1);
            Paced(cfg, limit, start, less, rounds)
  {
  }

  /** Threshold and concurrency up front, then one batch for every whole timeout. */
  function StormLimit(cfg: Settings, limit: nat, span: real): int
    requires cfg.resetTimeout > 0.0
  {
    Threshold(cfg) - 1 + limit + limit * (span / cfg.resetTimeout).Floor
  }

  lemma PacedTotal(cfg: Settings, limit: nat, start: real, w: Window, rounds: nat, span: real)
    requires Paced(cfg, limit, start, w, rounds) && cfg.resetTimeout > 0.0 && span == w.now - start
    ensures w.admissions <= StormLimit(cfg, limit, span)
  {
    var whole := (span / cfg.resetTimeout).Floor;
    WholeTimeouts(span, cfg.resetTimeout, 0);
    if w.failures >= Threshold(cfg) && w.admissions != w.batch {
      var waited := if w.batch > 0 then rounds + 1 else rounds;
      assert waited as real * cfg.resetTimeout
          == rounds as real * cfg.resetTimeout + if w.batch > 0 then cfg.resetTimeout else 0.0;
      WholeTimeouts(span, cfg.resetTimeout, waited);
      Scaled(limit, waited, whole);
      assert limit * waited == limit * rounds + if w.batch > 0 then limit else 0;
    } else {
      Scaled(limit, 0, whole);
    }
  }

  lemma Scaled(limit: nat, a: nat, b: nat)
    requires a <= b
    ensures limit * a <= limit * b
  {
  }

  lemma WholeTimeouts(span: real, timeout: real, waited: nat)
    requires timeout > 0.0 && waited as real * timeout <= span
    ensures waited <= (span / timeout).Floor
  {
    assert waited as real <= span / timeout;
  }

  lemma {:induction false} StormHistory(signals: seq<Signal>, n: nat)
    requires n <= |signals| && forall k | 0 <= k < |signals| :: !signals[k].Success?
    ensures TrailingFailures(signals[..n]) == Failures(signals, n)
  {
    if n > 0 {
      StormHistory(signals, n - 1);
      assert signals[..n][..n - 1] == signals[..n - 1];
    }
  }

  lemma {:induction false} OpenSinceStart(cfg: Settings, signals: seq<Signal>, i: nat, n: nat)
    requires i <= n <= |signals|
    ensures Admissions(cfg, signals, 0, n) >= Admissions(cfg, signals, i, n)
    decreases n
  {
    if i < n {
      OpenSinceStart(cfg, signals, i, n - 1);
    }
  }

  lemma {:induction false} BatchInFlight(cfg: Settings, signals: seq<Signal>, limit: nat, i: nat, n: nat)
    requires Storm(cfg, signals, limit) && i <= n <= |signals|
    ensures Batch(cfg, signals, i, n) <= InFlight(cfg, signals, n)
    decreases n - i
  {
    assert WithinLimit(cfg, signals, limit, n);
    if i < n {
      BatchInFlight(cfg, signals, limit, i, n - 1);
    }
  }

  lemma OrderedUpTo(signals: seq<Signal>, n: nat)
    requires n < |signals| && ClockOrdered(signals)
    ensures ClockOrdered(signals[..n] + [Probe(signals[n].at)])
  {
    var upto := signals[..n] + [Probe(signals[n].at)];
    forall i, j | 0 <= i <= j < |upto|
      ensures NoLater(upto, i, j)
    {
      assert NoLater(signals, i, j);
    }
  }

  /** A call admitted above the threshold comes a timeout or more after the last failure. */
  lemma AdmittedAfterTimeout(cfg: Settings, signals: seq<Signal>, n: nat)
    requires n < |signals| && ClockOrdered(signals) && (forall k | 0 <= k < |signals| :: !signals[k].Success?)
    requires AdmittedAt(cfg, signals, n) && Failures(signals, n) >= Threshold(cfg)
    ensures signals[n].at >= LastFailure(signals[..n]) + cfg.resetTimeout
  {
    StormHistory(signals, n);
    OrderedUpTo(signals, n);
    AllowIffHistory(cfg, signals[..n], signals[n].at);
  }

  lemma {:induction false} PacedAlways(cfg: Settings, signals: seq<Signal>, limit: nat, i: nat, n: nat)
      returns (rounds: nat)
    requires Storm(cfg, signals, limit) && i < n <= |signals|
    ensures Paced(cfg, limit, signals[i].at, WindowAt(cfg, signals, i, n), rounds)
    decreases n
  {
    var last := n - 1;
    assert WithinLimit(cfg, signals, limit, n);
    assert NoLater(signals, if i < last then last - 1 else last, last);
    assert signals[..n][..last] == signals[..last];
    if i == last {
      rounds := 0;
      OpenSinceStart(cfg, signals, i, n);
      BatchInFlight(cfg, signals, limit, i, n);
      if AdmittedAt(cfg, signals, last) && Failures(signals, last) >= Threshold(cfg) {
        AdmittedAfterTimeout(cfg, signals, last);
      }
    } else {
      rounds := PacedAlways(cfg, signals, limit, i, last);
      var w := WindowAt(cfg, signals, i, last);
      assert InFlight(cfg, signals, n)
          == w.inFlight + (if AdmittedAt(cfg, signals, last) then 1 else 0) - (if signals[last].Failure? then 1 else 0);
      if signals[last].Failure? {
        rounds := PacedFailure(cfg, limit, signals[i].at, w, rounds, signals[last].at);
      } else if AdmittedAt(cfg, signals, last) {
        if Failures(signals, last) >= Threshold(cfg) {
          AdmittedAfterTimeout(cfg, signals, last);
        }
        PacedAdmission(cfg, limit, signals[i].at, w, rounds, signals[last].at);
      }
    }
  }

  /**
   * A model whose every admitted call fails, with at most `limit` in flight, is called at
   * most this often between signals i and k.
   */
  lemma RetryStormBound(cfg: Settings, signals: seq<Signal>, limit: nat, i: nat, k: nat, span: real)
    requires Storm(cfg, signals, limit) && i <= k < |signals| && cfg.resetTimeout > 0.0
    requires span == signals[k].at - signals[i].at
    ensures Admissions(cfg, signals, i, k + 1) <= StormLimit(cfg, limit, span)
  {
    var w := WindowAt(cfg, signals, i, k + 1);
    var rounds := PacedAlways(cfg, signals, limit, i, k + 1);
    PacedTotal(cfg, limit, signals[i].at, w, rounds, span);
  }

  /** One call at a time: the threshold, then one trial per timeout. */
  lemma SequentialStormBound(cfg: Settings, signals: seq<Signal>, i: nat, k: nat, span: real)
    requires Storm(cfg, signals, 1) && i <= k < |signals| && cfg.resetTimeout > 0.0
    requires span == signals[k].at - signals[i].at
    ensures Admissions(cfg, signals, i, k + 1) <= Threshold(cfg) + (span / cfg.resetTimeout).Floor
  {
    RetryStormBound(cfg, signals, 1, i, k, span);
  }

  // ----- All models together -----

  datatype Event = Event(model: string, signal: Signal)

  function Entry(circuits: map<string, Circuit>, model: string): Circuit {
    if model in circuits then circuits[model] else FRESH
  }

  function Circuits(cfg: Settings, events: seq<Event>): map<string, Circuit> {
    if events == [] then map[] else
    var before := Circuits(cfg, events[..|events| - 1]);
    var e := events[|events| - 1];
    before[e.model := React(cfg, Entry(before, e.model), e.signal)]
  }

  function Own(events: seq<Event>, model: string): seq<Signal> {
    if events == [] then [] else
    var rest := Own(events[..|events| - 1], model);
    var e := events[|events| - 1];
    if e.model == model then rest + [e.signal] else rest
  }

  /** Other models' events never matter: a model's entry is what its own history makes it. */
  lemma {:induction false} NonInterference(cfg: Settings, events: seq<Event>, model: string)
    ensures Entry(Circuits(cfg, events), model) == After(cfg, Own(events, model))
  {
    if events != [] {
      var before, e := events[..|events| - 1], events[|events| - 1];
      NonInterference(cfg, before, model);
      if e.model == model {
        var own := Own(before, model);
        assert (own + [e.signal])[..|own|] == own;
      }
    }
  }

  predicate EventsUntil(events: seq<Event>, now: real) {
    && (forall i, j | 0 <= i <= j < |events| :: events[i].signal.at <= events[j].signal.at)
    && (forall i | 0 <= i < |events| :: events[i].signal.at <= now)
  }

  lemma {:induction false} OwnUntil(events: seq<Event>, model: string, now: real)
    requires EventsUntil(events, now)
    ensures ClockOrdered(Own(events, model) + [Probe(now)])
  {
    var own, all := Own(events, model), Own(events, model) + [Probe(now)];
    if events == [] {
      assert all == [Probe(now)];
    } else {
      var before, e := events[..|events| - 1], events[|events| - 1];
      OwnUntil(before, model, e.signal.at);
      var earlier := Own(before, model) + [Probe(e.signal.at)];
      forall i, j | 0 <= i <= j < |all|
        ensures NoLater(all, i, j)
      {
        var top := |earlier| - 1;
        assert NoLater(earlier, if i < top then i else top, if j < top then j else top);
        assert NoLater(earlier, if i < top then i else top, top);
      }
    }
  }

  /**
   * After any calls on any models, a model is refused exactly within the timeout of its own
   * last failure, above the threshold.
   */
  lemma AnswerIffOwnHistory(cfg: Settings, events: seq<Event>, model: string, now: real)
    requires EventsUntil(events, now)
    ensures var own := Own(events, model);
            Permit(cfg, Entry(Circuits(cfg, events), model), now).1
            <==> TrailingFailures(own) < Threshold(cfg) || now - LastFailure(own) >= cfg.resetTimeout
  {
    NonInterference(cfg, events, model);
    OwnUntil(events, model, now);
    AllowIffHistory(cfg, Own(events, model), now);
  }

  // ----- The class -----

  class ModelBreaker {
    var state: BreakerState
    var consecutiveFailures: nat
    var openedAt: real
    ghost const model: string

    constructor (ghost model: string)
      ensures Value() == FRESH && this.model == model
    {
      this.model := model;
      state, consecutiveFailures, openedAt := Closed, 0, 0.0;
    }

    ghost function Value(): Circuit
      reads this
    {
      Circuit(state, consecutiveFailures, openedAt)
    }

    method Probe(cfg: Settings, now: real) returns (allowed: bool)
      modifies this
      ensures (Value(), allowed) == Permit(cfg, old(Value()), now)
    {
      if state != Open {
        return true;
      }
      allowed := now - openedAt >= cfg.resetTimeout;
      if allowed {
        state := HalfOpen;
      }
    }

    method Close()
      modifies this
      ensures Value() == Succeed(old(Value()))
    {
      state := Closed;
      consecutiveFailures := 0;
    }

    method CountFailure(cfg: Settings, now: real)
      modifies this
      ensures Value() == Fail(cfg, old(Value()), now)
    {
      consecutiveFailures := consecutiveFailures + 1;
      if state == HalfOpen || consecutiveFailures >= cfg.failureThreshold {
        state, openedAt := Open, now;
      }
    }
  }

  class CircuitBreaker {
    const cfg: Settings
    var breakers: map<string, ModelBreaker>
    ghost var Contents: map<string, Circuit>
    ghost var Repr: set<object>

    /** Each model has an entry of its own, and Contents lists their values. */
    ghost predicate Valid()
      reads this, Repr
      ensures Valid() ==> this in Repr
    {
      && this in Repr
      && Contents.Keys == breakers.Keys
      && (forall m | m in breakers ::
            && breakers[m] in Repr && breakers[m].model == m
            && breakers[m].Value() == Contents[m])
    }

    constructor (cfg: Settings)
      ensures Valid() && fresh(Repr) && this.cfg == cfg && Contents == Circuits(cfg, [])
    {
      this.cfg := cfg;
      breakers, Contents, Repr := map[], map[], {this};
    }

    method Get(model: string) returns (breaker: ModelBreaker)
      requires Valid()
      modifies this
      ensures Valid() && fresh(Repr - old(Repr))
      ensures model in breakers && breakers[model] == breaker && breaker.Value() == Entry(old(Contents), model)
      ensures Contents == old(Contents)[model := Entry(old(Contents), model)]
    {
      if model in breakers {
        breaker := breakers[model];
      } else {
        breaker := new ModelBreaker(model);
        breakers, Contents := breakers[model := breaker], Contents[model := FRESH];
        Repr := Repr + {breaker};
      }
    }

    method Allow(model: string, now: real) returns (allowed: bool)
      requires Valid()
      modifies Repr
      ensures Valid() && fresh(Repr - old(Repr))
      ensures allowed == Permit(cfg, Entry(old(Contents), model), now).1
      ensures Contents == old(Contents)[model := React(cfg, Entry(old(Contents), model), Probe(now))]
    {
      ghost var after := React(cfg, Entry(Contents, model), Probe(now));
      var breaker := Get(model);
      allowed := breaker.Probe(cfg, now);
      Contents := old(Contents)[model := after];
    }

    method RecordSuccess(model: string, now: real)
      requires Valid()
      modifies Repr
      ensures Valid() && fresh(Repr - old(Repr))
      ensures Contents == old(Contents)[model := React(cfg, Entry(old(Contents), model), Signal.Success(now))]
    {
      ghost var after := React(cfg, Entry(Contents, model), Signal.Success(now));
      var breaker := Get(model);
      breaker.Close();
      Contents := old(Contents)[model := after];
    }

    method RecordFailure(model: string, now: real)
      requires Valid()
      modifies Repr
      ensures Valid() && fresh(Repr - old(Repr))
      ensures Contents == old(Contents)[model := React(cfg, Entry(old(Contents), model), Signal.Failure(now))]
    {
      ghost var after := React(cfg, Entry(Contents, model), Signal.Failure(now));
      var breaker := Get(model);
      breaker.CountFailure(cfg, now);
      Contents := old(Contents)[model := after];
    }

    method StateOf(model: string) returns (state: BreakerState)
      requires Valid()
      modifies this
      ensures Valid() && fresh(Repr - old(Repr))
      ensures state == Entry(old(Contents), model).state
      ensures Contents == old(Contents)[model := Entry(old(Contents), model)]
    {
      var breaker := Get(model);
      state := breaker.state;
    }
  }
}
