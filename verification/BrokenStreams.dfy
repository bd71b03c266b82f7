/**
 * Streams that end without an outcome, and why a retry storm is bounded only without them.
 * A stream whose client leaves has cost an upstream call and leaves its circuit as it was.
 */
module BrokenStreams {
  import opened Wrappers
  import opened PolicyStore
  import opened Gateway
  import opened GatewayRuns
  import opened Histories
  import opened RetryStorm
  import BedrockClient
  import Breaker
  import KillSwitch
  import Pipeline
  import RateLimiter
  import Streaming

  // ----- One stream broken off -----

  /** A stream with something to send whose client is gone when it is asked. */
  const GONE := Streaming.Answer([BedrockClient.DeltaChunk("x")], Streaming.Exhausted,
                                 Streaming.Client(_ => true, _ => false), "")

  function Leaving(at: real): World {
    World(Pipeline.Allow, _ => Pipeline.Allow, at, 0.0, _ => KillSwitch.NO_LEG, 0.0, GONE)
  }

  /** Request r opens a stream of the model, pulls once, and finds its client gone. */
  function BreakOff(r: nat, model: string, at: real): seq<Step> {
    [Resume(r, Parsed(Chat(Some(model), [], 1, "0", true)), Leaving(at)), Advance(r, at), Advance(r, at)]
  }

  /** Request r is past the gate, waits for its body, and may name the model. */
  predicate Ready(s: State, r: nat, model: string) {
    && r in s.chats && s.chats[r].phase.Waiting? && s.chats[r].gate.Admitted?
    && Pipeline.Allowed(s.chats[r].gate.policy, model)
  }

  /** The model's circuit lets a call through now. */
  predicate LetsIn(cfg: Config, s: State, model: string, at: real) {
    Breaker.Permit(cfg.router.breaker, Breaker.Entry(s.shared.circuits, model), at).1
  }

  /** Open on the model, waiting for its first pull, or for its first poll. */
  ghost predicate Streams(s: State, r: nat, model: string, stage: Streaming.Stage) {
    && r in s.chats && s.chats[r].phase.Open? && s.chats[r].phase.stream == Streaming.Playback(GONE, stage)
    && s.chats[r].asked.Some? && s.chats[r].asked.value.request.modelId == model
  }

  lemma Opens(cfg: Config, s: State, n: nat, r: nat, model: string, at: real, next: State)
    requires Ready(s, r, model) && LetsIn(cfg, s, model, at) && next == Next(cfg, s, n, BreakOff(r, model, at)[0])
    ensures DeedOf(cfg, s, BreakOff(r, model, at)[0]) == AskedToStream(model, at, true)
    ensures r in next.chats && next.chats == s.chats[r := next.chats[r]]
    ensures Streams(next, r, model, Streaming.Unstarted) && next.chats[r].calls == s.chats[r].calls
    ensures var circuits := s.shared.circuits;
            next.shared.circuits
            == circuits[model := Breaker.Permit(cfg.router.breaker, Breaker.Entry(circuits, model), at).0]
  {
    Pipeline.FailsClosed(s.chats[r].gate.policy, Pipeline.Allow);
  }

  lemma PullsOnce(cfg: Config, s: State, n: nat, r: nat, model: string, at: real, next: State)
    requires Streams(s, r, model, Streaming.Unstarted) && next == Next(cfg, s, n, Advance(r, at))
    ensures DeedOf(cfg, s, Advance(r, at)) == Nothing
    ensures Streams(next, r, model, Streaming.Polling(0, 0, [])) && next.chats == s.chats[r := next.chats[r]]
    ensures next.chats[r].calls == s.chats[r].calls + 1
    ensures next.shared == s.shared
  {
  }

  lemma FindsClientGone(cfg: Config, s: State, n: nat, r: nat, model: string, at: real, next: State)
    requires Streams(s, r, model, Streaming.Polling(0, 0, [])) && next == Next(cfg, s, n, Advance(r, at))
    ensures DeedOf(cfg, s, Advance(r, at)) == StreamOver(model, None, at)
    ensures r in next.chats && next.chats == s.chats[r := next.chats[r]] && next.chats[r].phase.Ended?
    ensures next.shared == s.shared && next.chats[r].calls == s.chats[r].calls
  {
  }

  /** A circuit that has let a call through lets every further one through, until an outcome is recorded. */
  lemma StillLetsIn(cfg: Breaker.Settings, c: Breaker.Circuit, at: real, later: real)
    requires Breaker.Permit(cfg, c, at).1
    ensures Breaker.Permit(cfg, Breaker.Permit(cfg, c, at).0, later).1
  {
  }

  /** What a broken-off stream leaves: its own request ended, its circuit letting calls through, and nothing else. */
  ghost predicate LeavesAsItWas(cfg: Config, s: State, r: nat, model: string, at: real, done: State) {
    && r in done.chats && done.chats == s.chats[r := done.chats[r]] && done.chats[r].phase.Ended?
    && LetsIn(cfg, done, model, at)
  }

  // ----- Adding steps to a run -----

  lemma AddStep(run: Run, step: Step, longer: Run)
    requires longer == Longer(run, [step])
    ensures |longer.steps| == |run.steps| + 1 && Last(longer) == Next(run.cfg, Last(run), |run.steps|, step)
    ensures DeedAt(longer, |run.steps|) == DeedOf(run.cfg, Last(run), step)
  {
    OneMore(run, step, longer);
    LongerAgrees(run, [step], |run.steps|);
  }

  lemma DeedKept(run: Run, more: seq<Step>, n: nat)
    requires n < |run.steps|
    ensures DeedAt(Longer(run, more), n) == DeedAt(run, n)
  {
    LongerAgrees(run, more, n);
  }

  lemma DeedCarried(run: Run, more: seq<Step>, longer: Run, n: nat)
    requires longer == Longer(run, more) && n < |run.steps|
    ensures DeedAt(longer, n) == DeedAt(run, n)
  {
    DeedKept(run, more, n);
  }

  /** The deeds of the three steps. */
  predicate BrokenDeeds(run: Run, n: nat, model: string, at: real)
    requires n + 3 <= |run.steps|
  {
    DeedAt(run, n) == AskedToStream(model, at, true) && DeedAt(run, n + 1) == Nothing
    && DeedAt(run, n + 2) == StreamOver(model, None, at)
  }

  lemma StepsTogether(run: Run, s: seq<Step>, one: Run, two: Run, three: Run)
    requires |s| == 3 && one == Longer(run, [s[0]]) && two == Longer(one, [s[1]]) && three == Longer(two, [s[2]])
    ensures three == Longer(run, s) && three == Longer(one, [s[1], s[2]])
  {
    assert run.steps + [s[0]] + [s[1]] + [s[2]] == run.steps + s;
    assert run.steps + [s[0]] + [s[1]] + [s[2]] == run.steps + [s[0]] + [s[1], s[2]];
  }

  /** A deed that a step turned out to be stays that deed when steps are added. */
  lemma DeedStays(run: Run, more: seq<Step>, longer: Run, n: nat, deed: Deed)
    requires longer == Longer(run, more) && n < |run.steps| && DeedAt(run, n) == deed
    ensures DeedAt(longer, n) == deed
  {
    DeedCarried(run, more, longer, n);
  }

  /**
   * In any run, a request that waits past the gate can make one upstream call to a model
   * whose circuit lets calls through, CLOSED, HALF_OPEN or OPEN past its timeout, and break
   * it off; the circuit lets the next one through as well.
   */
  lemma BreaksOffFreely(run: Run, r: nat, model: string, at: real, longer: Run)
    requires Ready(Last(run), r, model) && LetsIn(run.cfg, Last(run), model, at)
    requires longer == Longer(run, BreakOff(r, model, at))
    ensures |longer.steps| == |run.steps| + 3 && BrokenDeeds(longer, |run.steps|, model, at)
    ensures LeavesAsItWas(run.cfg, Last(run), r, model, at, Last(longer))
    ensures KillSwitch.CallsOf(Last(longer), r) == KillSwitch.CallsOf(Last(run), r) + 1
  {
    var s, n := BreakOff(r, model, at), |run.steps|;
    var one := Longer(run, [s[0]]);
    var two := Longer(one, [s[1]]);
    var three := Longer(two, [s[2]]);
    AddStep(run, s[0], one);
    AddStep(one, s[1], two);
    AddStep(two, s[2], three);
    ThreeSteps(run.cfg, Last(run), n, r, model, at, Last(one), Last(two), Last(three));
    StepsTogether(run, s, one, two, three);
    DeedStays(one, [s[1], s[2]], longer, n, AskedToStream(model, at, true));
    DeedStays(two, [s[2]], longer, n + 1, Nothing);
  }

  lemma ThreeSteps(cfg: Config, s: State, n: nat, r: nat, model: string, at: real, one: State, two: State, three: State)
    requires Ready(s, r, model) && LetsIn(cfg, s, model, at)
    requires one == Next(cfg, s, n, BreakOff(r, model, at)[0])
    requires two == Next(cfg, one, n + 1, Advance(r, at)) && three == Next(cfg, two, n + 2, Advance(r, at))
    ensures DeedOf(cfg, s, BreakOff(r, model, at)[0]) == AskedToStream(model, at, true)
    ensures DeedOf(cfg, one, Advance(r, at)) == Nothing
    ensures DeedOf(cfg, two, Advance(r, at)) == StreamOver(model, None, at)
    ensures LeavesAsItWas(cfg, s, r, model, at, three) && KillSwitch.CallsOf(three, r) == KillSwitch.CallsOf(s, r) + 1
  {
    Opens(cfg, s, n, r, model, at, one);
    PullsOnce(cfg, one, n + 1, r, model, at, two);
    FindsClientGone(cfg, two, n + 2, r, model, at, three);
    StillLetsIn(cfg.router.breaker, Breaker.Entry(s.shared.circuits, model), at, at);
  }

  // ----- A run with as many of them as one likes -----

  /** A tenant with room for k requests in one instant. */
  function Guest(k: nat): TenantPolicy {
    TenantPolicy("guest", Active, [], k, "standard", None, None, 1, false, false)
  }

  const ARRIVAL := Arrive(Identity("guest", "app"), Clock(0.0, 0.0, 0.0))

  /** The first n of its requests arrive, all at once. */
  function Crowd(cfg: Config, k: nat, n: nat): Run {
    Run(cfg, map["guest" := Guest(k)], seq(n, _ => ARRIVAL))
  }

  /** n requests wait past the gate, and the bucket holds the other tokens. */
  ghost predicate Waits(k: nat, n: nat, s: State) {
    && s.shared.policies == map["guest" := Guest(k)] && SnapshotsCurrent(s.shared) && s.shared.circuits == map[]
    && Lookup(s.shared.levels, "guest") == (if n == 0 then None else Some(RateLimiter.Level((k - n) as real, 0.0)))
    && (forall r: nat :: r in s.chats <==> r < n)
    && (forall r | r in s.chats :: s.chats[r].phase.Waiting? && s.chats[r].gate == Admitted(Guest(k)))
  }

  lemma GuestServed(k: nat, n: nat, level: Option<RateLimiter.Level>)
    requires n < k && level == if n == 0 then None else Some(RateLimiter.Level((k - n) as real, 0.0))
    ensures RateLimiter.Serve(level, RateLimiter.Visit(k, 0.0)) == (RateLimiter.Level((k - n - 1) as real, 0.0), true)
  {
    assert RateLimiter.Gain(k, 0.0, 0.0) == 0.0;
  }

  lemma GuestResolved(cfg: Config, s: Shared, k: nat)
    requires s.policies == map["guest" := Guest(k)] && SnapshotsCurrent(s)
    ensures var (snapshots, found) := Resolve(cfg, s, "guest", Clock(0.0, 0.0, 0.0));
            && found == Some(Guest(k))
            && forall t | t in snapshots :: t in s.policies && snapshots[t].policy == s.policies[t]
  {
  }

  lemma OneMoreWaits(cfg: Config, k: nat, n: nat, s: State, next: State)
    requires n < k && Waits(k, n, s) && next == Next(cfg, s, n, ARRIVAL)
    ensures Waits(k, n + 1, next)
  {
    GuestResolved(cfg, s.shared, k);
    GuestServed(k, n, Lookup(s.shared.levels, "guest"));
  }

  lemma {:induction false} CrowdWaits(cfg: Config, k: nat, n: nat)
    requires n <= k
    ensures Waits(k, n, Last(Crowd(cfg, k, n)))
    decreases n, 1
  {
    if n > 0 {
      CrowdFrom(cfg, k, n - 1, n);
    }
  }

  lemma {:induction false} CrowdFrom(cfg: Config, k: nat, m: nat, n: nat)
    requires n == m + 1 <= k
    ensures Waits(k, n, Last(Crowd(cfg, k, n)))
    decreases n, 0
  {
    var before, after := Crowd(cfg, k, m), Crowd(cfg, k, n);
    CrowdWaits(cfg, k, m);
    assert after == Longer(before, [ARRIVAL]);
    OneMore(before, ARRIVAL, after);
    OneMoreWaits(cfg, k, m, Last(before), Last(after));
  }

  // ----- What stays when steps are added -----

  lemma {:induction false} UpstreamKept(run: Run, more: seq<Step>, model: string, a: nat, b: nat)
    requires a <= b <= |run.steps|
    ensures UpstreamTo(Longer(run, more), model, a, b) == UpstreamTo(run, model, a, b)
    decreases b, 1
  {
    if a < b {
      UpstreamKeptFrom(run, more, model, a, b - 1, b);
    }
  }

  lemma UpstreamNext(run: Run, model: string, a: nat, m: nat, b: nat)
    requires a <= m && b == m + 1 <= |run.steps|
    ensures UpstreamTo(run, model, a, b) == UpstreamTo(run, model, a, m) + DeedCalls(DeedAt(run, m), model)
  {
  }

  lemma {:induction false} UpstreamKeptFrom(run: Run, more: seq<Step>, model: string, a: nat, m: nat, b: nat)
    requires a <= m && b == m + 1 <= |run.steps|
    ensures UpstreamTo(Longer(run, more), model, a, b) == UpstreamTo(run, model, a, b)
    decreases b, 0
  {
    UpstreamKept(run, more, model, a, m);
    DeedKept(run, more, m);
    UpstreamNext(run, model, a, m, b);
    UpstreamNext(Longer(run, more), model, a, m, b);
  }

  lemma {:induction false} EventsKept(run: Run, more: seq<Step>, n: nat)
    requires n <= |run.steps|
    ensures BreakerEvents(Longer(run, more), n) == BreakerEvents(run, n)
    decreases n, 1
  {
    if n > 0 {
      EventsKeptFrom(run, more, n - 1, n);
    }
  }

  lemma {:induction false} EventsKeptFrom(run: Run, more: seq<Step>, m: nat, n: nat)
    requires n == m + 1 <= |run.steps|
    ensures BreakerEvents(Longer(run, more), n) == BreakerEvents(run, n)
    decreases n, 0
  {
    EventsKept(run, more, m);
    EventsNext(run, m);
    EventsNext(Longer(run, more), m);
    LongerAgrees(run, more, m);
  }

  lemma FailsKept(run: Run, more: seq<Step>, model: string, streams: nat, a: nat, b: nat)
    requires a <= b <= |run.steps| && OnlyFails(run, model, streams, a, b)
    ensures OnlyFails(Longer(run, more), model, streams, a, b)
  {
    var longer := Longer(run, more);
    forall n | a <= n < b
      ensures FailsAt(longer, n, model)
    {
      assert FailsAt(run, n, model);
      DeedKept(run, more, n);
    }
    forall n | a <= n <= b
      ensures FewStreams(longer, n, model, streams)
    {
      assert FewStreams(run, n, model, streams);
      LongerAgrees(run, more, n);
    }
  }

  // ----- The storm -----

  /** The crowd, and then the first i of its requests break a stream of the model off, one after the other. */
  function StormOf(cfg: Config, model: string, k: nat, i: nat): Run {
    if i == 0 then Crowd(cfg, k, k) else Longer(StormOf(cfg, model, k, i - 1), BreakOff(i - 1, model, 0.0))
  }

  predicate AtNoon(events: seq<Breaker.Event>) {
    forall i | 0 <= i < |events| :: events[i].signal.at == 0.0
  }

  /** The next requests can go on. */
  ghost predicate CanGoOn(run: Run, model: string, k: nat, i: nat) {
    && LetsIn(run.cfg, Last(run), model, 0.0) && (forall r | i <= r < k :: Ready(Last(run), r, model))
    && |OpenStreams(Last(run), model)| == 0
  }

  /** i calls so far since the crowd came in, all at one instant, with one stream open at a time and no success. */
  predicate HasStormed(run: Run, model: string, k: nat, i: nat) {
    && k <= |run.steps| && OnlyFails(run, model, 1, k, |run.steps|)
    && UpstreamTo(run, model, k, |run.steps|) == i && AtNoon(BreakerEvents(run, |run.steps|))
  }

  /** After i broken-off streams. */
  ghost predicate Goes(run: Run, model: string, k: nat, i: nat) {
    i <= k && CanGoOn(run, model, k, i) && HasStormed(run, model, k, i)
  }

  lemma DeedCounts(run: Run, n: nat, k: nat, model: string)
    requires n < k <= |run.steps| && k == n + 1
    ensures |OpenStreams(After(run, k), model)|
            == |OpenStreams(After(run, n), model)| + OpenChange(DeedAt(run, n), model)
    ensures BreakerEvents(run, k) == BreakerEvents(run, n) + DeedEvents(DeedAt(run, n))
  {
    AfterNext(run, n);
    ChatsAreArrivals(run, n);
    OpenNext(run.cfg, After(run, n), n, run.steps[n], After(run, k), model);
    EventsNext(run, n);
    DeedsAreEvents(run.cfg, After(run, n), run.steps[n]);
  }

  /** The deed of step n is this one, and its counts are these. */
  lemma DeedCountsAs(run: Run, n: nat, k: nat, model: string, deed: Deed)
    requires k == n + 1 <= |run.steps| && DeedAt(run, n) == deed
    ensures |OpenStreams(After(run, k), model)| == |OpenStreams(After(run, n), model)| + OpenChange(deed, model)
    ensures BreakerEvents(run, k) == BreakerEvents(run, n) + DeedEvents(deed)
    ensures NoSuccess(deed, model) ==> FailsAt(run, n, model)
  {
    DeedCounts(run, n, k, model);
  }

  lemma BrokenCounts(run: Run, a: nat, b: nat, c: nat, d: nat, model: string)
    requires b == a + 1 && c == b + 1 && d == c + 1 <= |run.steps|
    requires DeedAt(run, a) == AskedToStream(model, 0.0, true) && DeedAt(run, b) == Nothing
    requires DeedAt(run, c) == StreamOver(model, None, 0.0) && |OpenStreams(After(run, a), model)| == 0
    ensures |OpenStreams(After(run, d), model)| == 0
    ensures FewStreams(run, a, model, 1) && FewStreams(run, b, model, 1)
    ensures FewStreams(run, c, model, 1) && FewStreams(run, d, model, 1)
    ensures FailsAt(run, a, model) && FailsAt(run, b, model) && FailsAt(run, c, model)
  {
    DeedCountsAs(run, a, b, model, AskedToStream(model, 0.0, true));
    DeedCountsAs(run, b, c, model, Nothing);
    DeedCountsAs(run, c, d, model, StreamOver(model, None, 0.0));
  }

  lemma OneFails(run: Run, n: nat, k: nat, model: string, streams: nat)
    requires k == n + 1 <= |run.steps| && FailsAt(run, n, model)
    requires FewStreams(run, n, model, streams) && FewStreams(run, k, model, streams)
    ensures OnlyFails(run, model, streams, n, k)
  {
    forall m | n <= m < k
      ensures FailsAt(run, m, model)
    {
      assert m == n;
    }
    forall m | n <= m <= k
      ensures FewStreams(run, m, model, streams)
    {
      assert m == n || m == k;
    }
  }

  /** At most one stream is open while these deeds are done, and none after them. */
  lemma BrokenStays(run: Run, a: nat, b: nat, c: nat, d: nat, model: string)
    requires b == a + 1 && c == b + 1 && d == c + 1 <= |run.steps|
    requires DeedAt(run, a) == AskedToStream(model, 0.0, true) && DeedAt(run, b) == Nothing
    requires DeedAt(run, c) == StreamOver(model, None, 0.0) && |OpenStreams(After(run, a), model)| == 0
    ensures |OpenStreams(After(run, d), model)| == 0 && OnlyFails(run, model, 1, a, d)
  {
    BrokenCounts(run, a, b, c, d, model);
    OneFails(run, a, b, model, 1);
    OneFails(run, b, c, model, 1);
    OneFails(run, c, d, model, 1);
    FailsTogether(run, model, 1, a, b, c);
    FailsTogether(run, model, 1, a, c, d);
  }

  /** They ask the circuit once, and make one call. */
  lemma BrokenCosts(run: Run, a: nat, b: nat, c: nat, d: nat, model: string)
    requires b == a + 1 && c == b + 1 && d == c + 1 <= |run.steps|
    requires DeedAt(run, a) == AskedToStream(model, 0.0, true) && DeedAt(run, b) == Nothing
    requires DeedAt(run, c) == StreamOver(model, None, 0.0)
    ensures UpstreamTo(run, model, a, d) == 1
    ensures BreakerEvents(run, d) == BreakerEvents(run, a) + [Breaker.Event(model, Breaker.Probe(0.0))]
  {
    DeedCountsAs(run, a, b, model, AskedToStream(model, 0.0, true));
    DeedCountsAs(run, b, c, model, Nothing);
    DeedCountsAs(run, c, d, model, StreamOver(model, None, 0.0));
    ThreeCalls(run, a, b, c, d, model);
  }

  lemma ThreeCalls(run: Run, a: nat, b: nat, c: nat, d: nat, model: string)
    requires b == a + 1 && c == b + 1 && d == c + 1 <= |run.steps|
    ensures UpstreamTo(run, model, a, d)
            == DeedCalls(DeedAt(run, a), model) + DeedCalls(DeedAt(run, b), model) + DeedCalls(DeedAt(run, c), model)
  {
    assert UpstreamTo(run, model, a, b) == DeedCalls(DeedAt(run, a), model);
    assert UpstreamTo(run, model, a, c) == UpstreamTo(run, model, a, b) + DeedCalls(DeedAt(run, b), model);
  }

  lemma {:induction false} UpstreamAdds(run: Run, model: string, a: nat, b: nat, c: nat)
    requires a <= b <= c <= |run.steps|
    ensures UpstreamTo(run, model, a, c) == UpstreamTo(run, model, a, b) + UpstreamTo(run, model, b, c)
    decreases c
  {
    if b < c {
      UpstreamAdds(run, model, a, b, c - 1);
    }
  }

  lemma FailsTogether(run: Run, model: string, streams: nat, a: nat, b: nat, c: nat)
    requires a <= b <= c <= |run.steps| && OnlyFails(run, model, streams, a, b) && OnlyFails(run, model, streams, b, c)
    ensures OnlyFails(run, model, streams, a, c)
  {
  }

  lemma StillReady(cfg: Config, s: State, i: nat, model: string, k: nat, j: nat, done: State)
    requires LeavesAsItWas(cfg, s, i, model, 0.0, done) && j == i + 1
    requires forall r | i <= r < k :: Ready(s, r, model)
    ensures forall r | j <= r < k :: Ready(done, r, model)
  {
    forall r | j <= r < k
      ensures Ready(done, r, model)
    {
      assert Ready(s, r, model);
    }
  }

  lemma BrokenRun(run: Run, model: string, i: nat, longer: Run)
    requires Ready(Last(run), i, model) && LetsIn(run.cfg, Last(run), model, 0.0)
    requires |OpenStreams(Last(run), model)| == 0
    requires longer == Longer(run, BreakOff(i, model, 0.0))
    ensures |longer.steps| == |run.steps| + 3 && BrokenDeeds(longer, |run.steps|, model, 0.0)
    ensures LeavesAsItWas(run.cfg, Last(run), i, model, 0.0, Last(longer))
    ensures |OpenStreams(Last(longer), model)| == 0 && OnlyFails(longer, model, 1, |run.steps|, |longer.steps|)
  {
    var n := |run.steps|;
    BreaksOffFreely(run, i, model, 0.0, longer);
    LongerAgrees(run, BreakOff(i, model, 0.0), n);
    BrokenStays(longer, n, n + 1, n + 2, n + 3, model);
  }

  lemma CanStillGoOn(run: Run, model: string, k: nat, i: nat, j: nat, longer: Run)
    requires i < k && CanGoOn(run, model, k, i) && j == i + 1 && longer == Longer(run, BreakOff(i, model, 0.0))
    ensures |longer.steps| == |run.steps| + 3 && BrokenDeeds(longer, |run.steps|, model, 0.0)
    ensures OnlyFails(longer, model, 1, |run.steps|, |longer.steps|)
    ensures CanGoOn(longer, model, k, j)
  {
    assert Ready(Last(run), i, model);
    BrokenRun(run, model, i, longer);
    StillReady(run.cfg, Last(run), i, model, k, j, Last(longer));
  }

  lemma HasStormedOn(run: Run, model: string, k: nat, i: nat, j: nat, more: seq<Step>, longer: Run)
    requires HasStormed(run, model, k, i) && j == i + 1 && longer == Longer(run, more)
    requires |more| == 3 && BrokenDeeds(longer, |run.steps|, model, 0.0)
    requires OnlyFails(longer, model, 1, |run.steps|, |longer.steps|)
    ensures HasStormed(longer, model, k, j)
  {
    var n := |run.steps|;
    FailsKept(run, more, model, 1, k, n);
    FailsTogether(longer, model, 1, k, n, n + 3);
    CallsAndEvents(run, model, k, more, longer);
  }

  lemma CallsAndEvents(run: Run, model: string, k: nat, more: seq<Step>, longer: Run)
    requires k <= |run.steps| && longer == Longer(run, more) && |more| == 3
    requires BrokenDeeds(longer, |run.steps|, model, 0.0)
    ensures UpstreamTo(longer, model, k, |longer.steps|) == UpstreamTo(run, model, k, |run.steps|) + 1
    ensures BreakerEvents(longer, |longer.steps|)
            == BreakerEvents(run, |run.steps|) + [Breaker.Event(model, Breaker.Probe(0.0))]
  {
    var n := |run.steps|;
    BrokenCosts(longer, n, n + 1, n + 2, |longer.steps|, model);
    EventsKept(run, more, n);
    CallsAdd(run, model, k, more, longer, |longer.steps|);
  }

  lemma CallsAdd(run: Run, model: string, k: nat, more: seq<Step>, longer: Run, d: nat)
    requires k <= |run.steps| <= d <= |longer.steps| && longer == Longer(run, more)
    ensures UpstreamTo(longer, model, k, d)
            == UpstreamTo(run, model, k, |run.steps|) + UpstreamTo(longer, model, |run.steps|, d)
  {
    UpstreamKept(run, more, model, k, |run.steps|);
    UpstreamAdds(longer, model, k, |run.steps|, d);
  }

  lemma GoesOn(run: Run, model: string, k: nat, i: nat, j: nat, longer: Run)
    requires Goes(run, model, k, i) && j == i + 1 <= k && longer == Longer(run, BreakOff(i, model, 0.0))
    ensures Goes(longer, model, k, j)
  {
    CanStillGoOn(run, model, k, i, j, longer);
    HasStormedOn(run, model, k, i, j, BreakOff(i, model, 0.0), longer);
  }

  lemma WaitingCanGoOn(run: Run, model: string, k: nat)
    requires Waits(k, k, Last(run))
    ensures CanGoOn(run, model, k, 0)
  {
    assert OpenStreams(Last(run), model) == {};
  }

  lemma QuietHasStormed(run: Run, model: string)
    requires BreakerEvents(run, |run.steps|) == [] && |OpenStreams(Last(run), model)| == 0
    ensures HasStormed(run, model, |run.steps|, 0)
  {
    assert FewStreams(run, |run.steps|, model, 1);
  }

  lemma CrowdGoes(cfg: Config, model: string, k: nat)
    ensures Goes(Crowd(cfg, k, k), model, k, 0)
  {
    var run := Crowd(cfg, k, k);
    CrowdWaits(cfg, k, k);
    WaitingCanGoOn(run, model, k);
    CrowdIsQuiet(cfg, k, k);
    QuietHasStormed(run, model);
  }

  lemma {:induction false} CrowdIsQuiet(cfg: Config, k: nat, n: nat)
    requires n <= k
    ensures BreakerEvents(Crowd(cfg, k, k), n) == []
  {
    if n > 0 {
      CrowdIsQuiet(cfg, k, n - 1);
      EventsNext(Crowd(cfg, k, k), n - 1);
    }
  }

  lemma {:induction false} StormGoes(cfg: Config, model: string, k: nat, i: nat)
    requires i <= k
    ensures Goes(StormOf(cfg, model, k, i), model, k, i) && StormOf(cfg, model, k, i).cfg == cfg
    decreases i, 1
  {
    if i == 0 {
      CrowdGoes(cfg, model, k);
    } else {
      StormFrom(cfg, model, k, i - 1, i);
    }
  }

  lemma {:induction false} StormFrom(cfg: Config, model: string, k: nat, m: nat, i: nat)
    requires i == m + 1 <= k
    ensures Goes(StormOf(cfg, model, k, i), model, k, i) && StormOf(cfg, model, k, i).cfg == cfg
    decreases i, 0
  {
    StormGoes(cfg, model, k, m);
    GoesOn(StormOf(cfg, model, k, m), model, k, m, i, StormOf(cfg, model, k, i));
  }

  lemma NoonIsTimed(run: Run, model: string, a: nat)
    requires a <= |run.steps| && AtNoon(BreakerEvents(run, |run.steps|))
    ensures Timed(run, model, a, |run.steps|, 0.0, 0.0)
  {
  }

  /**
   * For every k there is a run with k upstream calls to a model in one instant, none of
   * which succeeds, with one of its streams open at a time: each is broken off.
   */
  lemma BrokenStreamsUnbounded(cfg: Config, model: string, k: nat)
    ensures var run := StormOf(cfg, model, k, k);
            var b := |run.steps|;
            && run.cfg == cfg && k <= b
            && OnlyFails(run, model, 1, k, b) && Timed(run, model, k, b, 0.0, 0.0) && UpstreamTo(run, model, k, b) == k
  {
    StormGoes(cfg, model, k, k);
    NoonIsTimed(StormOf(cfg, model, k, k), model, k);
  }

  // ----- Exactly when the plain limit holds -----

  /** A stretch of a run in which the model only fails; its streams may be broken off if `breaks`. */
  predicate InStorm(cfg: Config, run: Run, model: string, streams: nat, a: nat, b: nat, from: real, to: real,
                    breaks: bool)
  {
    && run.cfg == cfg && a <= b <= |run.steps| && from <= to
    && OnlyFails(run, model, streams, a, b) && Timed(run, model, a, b, from, to)
    && (breaks || BrokenOff(run, model, a, b) == 0)
  }

  predicate WithinLimit(run: Run, model: string, streams: nat, a: nat, b: nat, from: real, to: real)
    requires a <= b <= |run.steps| && run.cfg.router.breaker.resetTimeout > 0.0
  {
    UpstreamTo(run, model, a, b) <= StormCost(run.cfg.router, streams, to - from, 0)
  }

  /** With no stream open at any time there is none to break off. */
  lemma {:induction false} NoneOpenNoneBroken(run: Run, model: string, a: nat, b: nat)
    requires a <= b <= |run.steps| && OnlyFails(run, model, 0, a, b)
    ensures BrokenOff(run, model, a, b) == 0
    decreases b, 1
  {
    if a < b {
      NoneBrokenFrom(run, model, a, b - 1, b);
    }
  }

  lemma {:induction false} NoneBrokenFrom(run: Run, model: string, a: nat, m: nat, b: nat)
    requires a <= m && b == m + 1 <= |run.steps| && OnlyFails(run, model, 0, a, b)
    ensures BrokenOff(run, model, a, b) == 0
    decreases b, 0
  {
    assert FewStreams(run, m, model, 0) && FewStreams(run, b, model, 0);
    DeedCounts(run, m, b, model);
    assert OnlyFails(run, model, 0, a, m);
    NoneOpenNoneBroken(run, model, a, m);
  }

  lemma UnbrokenWithinLimit(cfg: Config, run: Run, model: string, streams: nat, a: nat, b: nat, from: real, to: real,
                            breaks: bool)
    requires cfg.router.breaker.resetTimeout > 0.0 && (!breaks || streams == 0)
    requires InStorm(cfg, run, model, streams, a, b, from, to, breaks)
    ensures WithinLimit(run, model, streams, a, b, from, to)
  {
    if streams == 0 {
      NoneOpenNoneBroken(run, model, a, b);
    }
    RunStormBound(run, model, streams, a, b, from, to);
  }

  lemma MoreStreams(run: Run, model: string, few: nat, many: nat, a: nat, b: nat)
    requires a <= b <= |run.steps| && few <= many && OnlyFails(run, model, few, a, b)
    ensures OnlyFails(run, model, many, a, b)
  {
    forall n | a <= n <= b
      ensures FewStreams(run, n, model, many)
    {
      assert FewStreams(run, n, model, few);
    }
  }

  /**
   * Exactly when the limit of a retry storm can be relied on: every stretch of every run in
   * which a model only fails, with at most `streams` of its streams open at once, stays
   * within StormLimit * (max_retries + 1), if and only if its streams are never broken off,
   * or none is ever open.
   */
  lemma StormLimitIffNeverBroken(cfg: Config, model: string, streams: nat, breaks: bool)
    requires cfg.router.breaker.resetTimeout > 0.0
    ensures (forall run, a, b, from, to | InStorm(cfg, run, model, streams, a, b, from, to, breaks) ::
               WithinLimit(run, model, streams, a, b, from, to))
            <==> !breaks || streams == 0
  {
    if !breaks || streams == 0 {
      forall run, a, b, from, to | InStorm(cfg, run, model, streams, a, b, from, to, breaks)
        ensures WithinLimit(run, model, streams, a, b, from, to)
      {
        UnbrokenWithinLimit(cfg, run, model, streams, a, b, from, to, breaks);
      }
    } else {
      var k: nat := Max(0, StormCost(cfg.router, streams, 0.0, 0) + 1);
      var run := StormOf(cfg, model, k, k);
      BrokenStreamsUnbounded(cfg, model, k);
      MoreStreams(run, model, 1, streams, k, |run.steps|);
      assert InStorm(cfg, run, model, streams, k, |run.steps|, 0.0, 0.0, breaks);
      assert !WithinLimit(run, model, streams, k, |run.steps|, 0.0, 0.0);
    }
  }
}
