/**
 * The breaker and the response cache inside a run are the ones of their own histories, so
 * that what is proved of them alone holds in the whole gateway.
 */
module Histories {
  import opened Wrappers
  import opened CacheKey
  import opened Gateway
  import opened GatewayRuns
  import Breaker
  import ResponseCache
  import Router
  import Streaming

  // ----- The breaker -----

  function OutcomeSignal(outcome: Streaming.Outcome, at: real): Breaker.Signal {
    match outcome
    case Succeeded => Breaker.Signal.Success(at)
    case Errored => Breaker.Signal.Failure(at)
  }

  /** A request's events in the breaker: one probe for a stream, the router's loop otherwise, none on a cache hit. */
  function RequestEvents(cfg: Config, s: Shared, a: Asked, world: World): seq<Breaker.Event> {
    if a.chat.stream then [Breaker.Event(a.request.modelId, Breaker.Probe(world.permitAt))]
    else if LookUp(cfg, s, a.request, world).1.Some? then []
    else
      var t := TourOf(cfg, s, a.request, world);
      Router.Events(t, Router.Visited(Router.Visits(t)))
  }

  function ResumeEvents(cfg: Config, s: Shared, c: Conversation, body: Body, world: World): seq<Breaker.Event>
    requires c.gate.Admitted?
  {
    if !body.Parsed? then [] else
    match Prepare(cfg, c.identity, c.gate.policy, body.chat, world.inputVerdict)
    case Failure(_) => []
    case Success(asked) => RequestEvents(cfg, s, asked, world)
  }

  /** A stream's event: the outcome it ends with, if any. */
  function StreamEvents(model: string, progress: Streaming.Progress, at: real): seq<Breaker.Event> {
    if progress.Over? && progress.played.recorded.Some?
    then [Breaker.Event(model, OutcomeSignal(progress.played.recorded.value, at))] else []
  }

  function StepEvents(cfg: Config, s: State, step: Step): seq<Breaker.Event> {
    match step
    case Resume(r, body, world) =>
      if r in s.chats && s.chats[r].phase.Waiting? && s.chats[r].gate.Admitted?
      then ResumeEvents(cfg, s.shared, s.chats[r], body, world) else []
    case Advance(r, at) =>
      if r in s.chats && s.chats[r].phase.Open? && s.chats[r].asked.Some?
      then StreamEvents(s.chats[r].asked.value.request.modelId, Streaming.Advance(s.chats[r].phase.stream), at) else []
    case _ => []
  }

  function BreakerEvents(run: Run, n: nat): seq<Breaker.Event>
    requires n <= |run.steps|
  {
    if n == 0 then [] else BreakerEvents(run, n - 1) + StepEvents(run.cfg, After(run, n - 1), run.steps[n - 1])
  }

  lemma CompleteCircuits(cfg: Config, s: Shared, a: Asked, world: World, history: seq<Breaker.Event>)
    requires s.circuits == Breaker.Circuits(cfg.router.breaker, history) && !a.chat.stream
    ensures Complete(cfg, s, a.request, world).0.circuits
            == Breaker.Circuits(cfg.router.breaker, history + RequestEvents(cfg, s, a, world))
  {
    if LookUp(cfg, s, a.request, world).1.Some? {
      assert history + [] == history;
    } else {
      var t := TourOf(cfg, s, a.request, world);
      Router.LoopExtendsHistory(t, history, Router.Visited(Router.Visits(t)));
    }
  }

  lemma ResumeCircuits(cfg: Config, s: Shared, c: Conversation, body: Body, world: World, history: seq<Breaker.Event>)
    requires s.circuits == Breaker.Circuits(cfg.router.breaker, history) && c.gate.Admitted?
    ensures Resumed(cfg, s, c, body, world).0.circuits
            == Breaker.Circuits(cfg.router.breaker, history + ResumeEvents(cfg, s, c, body, world))
  {
    assert history + [] == history;
    if body.Parsed? {
      var p := Prepare(cfg, c.identity, c.gate.policy, body.chat, world.inputVerdict);
      if p.Success? {
        if body.chat.stream {
          Router.CircuitsAppend(cfg.router.breaker, history, RequestEvents(cfg, s, p.value, world)[0]);
        } else {
          CompleteCircuits(cfg, s, p.value, world, history);
        }
      }
    }
  }

  lemma RecordHistory(cfg: Breaker.Settings, history: seq<Breaker.Event>, model: string, progress: Streaming.Progress,
                      at: real)
    requires progress.Over?
    ensures Streaming.Record(cfg, Breaker.Circuits(cfg, history), model, progress.played.recorded, at)
            == Breaker.Circuits(cfg, history + StreamEvents(model, progress, at))
  {
    var events := StreamEvents(model, progress, at);
    if events == [] {
      assert history + events == history;
    } else {
      Router.CircuitsAppend(cfg, history, events[0]);
    }
  }

  lemma AdvanceCircuits(cfg: Config, s: State, n: nat, step: Step, history: seq<Breaker.Event>)
    requires s.shared.circuits == Breaker.Circuits(cfg.router.breaker, history) && step.Advance?
    ensures Next(cfg, s, n, step).shared.circuits
            == Breaker.Circuits(cfg.router.breaker, history + StepEvents(cfg, s, step))
  {
    assert history + [] == history;
    if step.id in s.chats && s.chats[step.id].phase.Open? && s.chats[step.id].asked.Some? {
      var c := s.chats[step.id];
      var progress := Streaming.Advance(c.phase.stream);
      if progress.Over? {
        RecordHistory(cfg.router.breaker, history, c.asked.value.request.modelId, progress, step.at);
      }
    }
  }

  lemma NextCircuits(cfg: Config, s: State, n: nat, step: Step, next: State, history: seq<Breaker.Event>,
                     longer: seq<Breaker.Event>)
    requires s.shared.circuits == Breaker.Circuits(cfg.router.breaker, history)
    requires next == Next(cfg, s, n, step) && longer == history + StepEvents(cfg, s, step)
    ensures next.shared.circuits == Breaker.Circuits(cfg.router.breaker, longer)
  {
    if step.Advance? {
      AdvanceCircuits(cfg, s, n, step, history);
    } else if step.Resume? && step.id in s.chats && s.chats[step.id].phase.Waiting? && s.chats[step.id].gate.Admitted? {
      ResumeCircuits(cfg, s.shared, s.chats[step.id], step.body, step.world, history);
    } else {
      assert longer == history;
    }
  }

  lemma EventsNext(run: Run, m: nat)
    requires m < |run.steps|
    ensures BreakerEvents(run, m + 1) == BreakerEvents(run, m) + StepEvents(run.cfg, After(run, m), run.steps[m])
  {
  }

  /** The breaker after any run is the breaker of its own events in their order. */
  lemma {:induction false} CircuitsAreHistory(run: Run, n: nat)
    requires n <= |run.steps|
    ensures After(run, n).shared.circuits == Breaker.Circuits(run.cfg.router.breaker, BreakerEvents(run, n))
  {
    if n > 0 {
      var m: nat := n - 1;
      CircuitsAreHistory(run, m);
      AfterNext(run, m);
      EventsNext(run, m);
      NextCircuits(run.cfg, After(run, m), m, run.steps[m], After(run, n), BreakerEvents(run, m),
                   BreakerEvents(run, n));
    }
  }

  /**
   * In every run a stream is refused for an open circuit exactly when its model's own
   * history is above the threshold and within the timeout.
   */
  lemma StreamRefusedIffHistory(run: Run, n: nat, a: Asked)
    requires n < |run.steps| && run.steps[n].Resume? && run.steps[n].body.Parsed? && run.steps[n].body.chat.stream
    requires var (s, step) := (After(run, n), run.steps[n]);
             && step.id in s.chats && s.chats[step.id].phase.Waiting? && s.chats[step.id].gate.Admitted?
             && Prepare(run.cfg, s.chats[step.id].identity, s.chats[step.id].gate.policy, step.body.chat,
                        step.world.inputVerdict) == Success(a)
    requires Breaker.EventsUntil(BreakerEvents(run, n), run.steps[n].world.permitAt)
    ensures var own := Breaker.Own(BreakerEvents(run, n), a.request.modelId);
            After(run, n + 1).chats[run.steps[n].id].phase == Ended(CircuitOpen)
            <==> && Breaker.TrailingFailures(own) >= Breaker.Threshold(run.cfg.router.breaker)
                 && run.steps[n].world.permitAt - Breaker.LastFailure(own) < run.cfg.router.breaker.resetTimeout
  {
    CircuitsAreHistory(run, n);
    Breaker.AnswerIffOwnHistory(run.cfg.router.breaker, BreakerEvents(run, n), a.request.modelId,
                                run.steps[n].world.permitAt);
  }

  // ----- The response cache -----

  /**
   * What a request does to the response cache: nothing when it streams, one read, and one
   * write when its answer is fresh.
   */
  function RequestOps(cfg: Config, s: Shared, a: Asked, world: World): seq<ResponseCache.Op> {
    if a.chat.stream then [] else
    var key, reply := Build(a.request), Complete(cfg, s, a.request, world).1;
    [ResponseCache.Read(key, world.readAt)]
    + if reply.Fresh? then [ResponseCache.Write(key, reply.response, reply.writtenAt)] else []
  }

  function ResumeOps(cfg: Config, s: Shared, c: Conversation, body: Body, world: World): seq<ResponseCache.Op>
    requires c.gate.Admitted?
  {
    if !body.Parsed? then [] else
    match Prepare(cfg, c.identity, c.gate.policy, body.chat, world.inputVerdict)
    case Failure(_) => []
    case Success(asked) => RequestOps(cfg, s, asked, world)
  }

  function StepOps(cfg: Config, s: State, step: Step): seq<ResponseCache.Op> {
    match step
    case Resume(r, body, world) =>
      if r in s.chats && s.chats[r].phase.Waiting? && s.chats[r].gate.Admitted?
      then ResumeOps(cfg, s.shared, s.chats[r], body, world) else []
    case _ => []
  }

  function CacheOps(run: Run, n: nat): seq<ResponseCache.Op>
    requires n <= |run.steps|
  {
    if n == 0 then [] else CacheOps(run, n - 1) + StepOps(run.cfg, After(run, n - 1), run.steps[n - 1])
  }

  /** The cache that a history leaves. */
  function Left(cfg: ResponseCache.Settings, ops: seq<ResponseCache.Op>): ResponseCache.Store {
    ResponseCache.After(cfg, ops, |ops|)
  }

  lemma {:induction false} PrefixAgrees(cfg: ResponseCache.Settings, ops: seq<ResponseCache.Op>,
                                        more: seq<ResponseCache.Op>, n: nat)
    requires n <= |ops|
    ensures ResponseCache.After(cfg, ops + more, n) == ResponseCache.After(cfg, ops, n)
  {
    if n > 0 {
      PrefixAgrees(cfg, ops, more, n - 1);
    }
  }

  lemma LeftAppend(cfg: ResponseCache.Settings, ops: seq<ResponseCache.Op>, op: ResponseCache.Op)
    ensures Left(cfg, ops + [op]) == ResponseCache.Apply(cfg, Left(cfg, ops), op)
  {
    PrefixAgrees(cfg, ops, [op], |ops|);
  }

  lemma CompleteResponses(cfg: Config, s: Shared, a: Asked, world: World, ops: seq<ResponseCache.Op>)
    requires s.responses == Left(cfg.cache, ops) && !a.chat.stream
    ensures Complete(cfg, s, a.request, world).0.responses == Left(cfg.cache, ops + RequestOps(cfg, s, a, world))
  {
    var key, reply := Build(a.request), Complete(cfg, s, a.request, world).1;
    var read := ResponseCache.Read(key, world.readAt);
    LeftAppend(cfg.cache, ops, read);
    if reply.Fresh? {
      var write := ResponseCache.Write(key, reply.response, reply.writtenAt);
      LeftAppend(cfg.cache, ops + [read], write);
      assert ops + RequestOps(cfg, s, a, world) == ops + [read] + [write];
    } else {
      assert ops + RequestOps(cfg, s, a, world) == ops + [read];
    }
  }

  lemma ResumeResponses(cfg: Config, s: Shared, c: Conversation, body: Body, world: World, ops: seq<ResponseCache.Op>)
    requires s.responses == Left(cfg.cache, ops) && c.gate.Admitted?
    ensures Resumed(cfg, s, c, body, world).0.responses == Left(cfg.cache, ops + ResumeOps(cfg, s, c, body, world))
  {
    assert ops + [] == ops;
    if body.Parsed? {
      var p := Prepare(cfg, c.identity, c.gate.policy, body.chat, world.inputVerdict);
      if p.Success? && !body.chat.stream {
        CompleteResponses(cfg, s, p.value, world, ops);
      }
    }
  }

  lemma NextResponses(cfg: Config, s: State, n: nat, step: Step, next: State, ops: seq<ResponseCache.Op>,
                      longer: seq<ResponseCache.Op>)
    requires s.shared.responses == Left(cfg.cache, ops)
    requires next == Next(cfg, s, n, step) && longer == ops + StepOps(cfg, s, step)
    ensures next.shared.responses == Left(cfg.cache, longer)
  {
    assert ops + [] == ops;
    if step.Resume? && step.id in s.chats && s.chats[step.id].phase.Waiting? && s.chats[step.id].gate.Admitted? {
      ResumeResponses(cfg, s.shared, s.chats[step.id], step.body, step.world, ops);
    }
  }

  lemma OpsNext(run: Run, m: nat)
    requires m < |run.steps|
    ensures CacheOps(run, m + 1) == CacheOps(run, m) + StepOps(run.cfg, After(run, m), run.steps[m])
  {
  }

  lemma {:induction false} ResponsesAreHistory(run: Run, n: nat)
    requires n <= |run.steps|
    ensures After(run, n).shared.responses == Left(run.cfg.cache, CacheOps(run, n))
  {
    if n > 0 {
      var m: nat := n - 1;
      ResponsesAreHistory(run, m);
      AfterNext(run, m);
      OpsNext(run, m);
      NextResponses(run.cfg, After(run, m), m, run.steps[m], After(run, n), CacheOps(run, m), CacheOps(run, n));
    }
  }

  /**
   * The response cache in any run is the cache of its own reads and writes, and so keeps
   * their recency order and its size.
   */
  lemma CacheIsGood(run: Run, n: nat)
    requires n <= |run.steps|
    ensures var ops := CacheOps(run, n); ResponseCache.Good(run.cfg.cache, ops, |ops|, After(run, n).shared.responses)
  {
    ResponsesAreHistory(run, n);
    ResponseCache.RecencyOrder(run.cfg.cache, CacheOps(run, n), |CacheOps(run, n)|);
  }

  // ----- Hits in a run -----

  /** Step n resumes a request that passes its stages and does not stream. */
  predicate AsksCache(run: Run, n: nat, a: Asked)
    requires n < |run.steps|
  {
    var s, step := After(run, n), run.steps[n];
    && step.Resume? && step.body.Parsed? && !step.body.chat.stream
    && step.id in s.chats && s.chats[step.id].phase.Waiting? && s.chats[step.id].gate.Admitted?
    && var c := s.chats[step.id];
       Prepare(run.cfg, c.identity, c.gate.policy, step.body.chat, step.world.inputVerdict) == Success(a)
  }

  /** The last write of this key is in time, and fewer other keys than fit were used since the key's own last use. */
  predicate Kept(cfg: ResponseCache.Settings, ops: seq<ResponseCache.Op>, key: string, now: real) {
    var w := ResponseCache.LastWrite(ops, |ops|, key);
    && w > 0 && now - ops[w - 1].at < cfg.ttl
    && |ResponseCache.OthersSince(cfg, ops, |ops|, key)| < cfg.maxEntries
  }

  lemma KeptHits(cfg: ResponseCache.Settings, ops: seq<ResponseCache.Op>, key: string, now: real)
    requires Kept(cfg, ops, key, now) && forall i | 0 <= i < |ops| :: ops[i].at <= now
    ensures ResponseCache.Get(cfg, Left(cfg, ops), key, now).1
            == Some(ops[ResponseCache.LastWrite(ops, |ops|, key) - 1].value)
  {
    ResponseCache.KeptWhileInTime(cfg, ops, |ops|, key, now);
    ResponseCache.RecencyOrder(cfg, ops, |ops|);
  }

  lemma FaithfulHit(cfg: ResponseCache.Settings, ops: seq<ResponseCache.Op>, s: ResponseCache.Store, key: string,
                    now: real)
    requires ResponseCache.Faithful(cfg, ops, |ops|, s) && ResponseCache.Get(cfg, s, key, now).1.Some?
    ensures var w := ResponseCache.LastWrite(ops, |ops|, key);
            && w > 0 && now - ops[w - 1].at < cfg.ttl
            && ResponseCache.Get(cfg, s, key, now).1 == Some(ops[w - 1].value)
  {
  }

  lemma HitsAreLatest(cfg: ResponseCache.Settings, ops: seq<ResponseCache.Op>, key: string, now: real)
    requires ResponseCache.Get(cfg, Left(cfg, ops), key, now).1.Some?
    ensures var w := ResponseCache.LastWrite(ops, |ops|, key);
            && w > 0 && now - ops[w - 1].at < cfg.ttl
            && ResponseCache.Get(cfg, Left(cfg, ops), key, now).1 == Some(ops[w - 1].value)
  {
    ResponseCache.RecencyOrder(cfg, ops, |ops|);
    FaithfulHit(cfg, ops, Left(cfg, ops), key, now);
  }

  lemma AskedReply(run: Run, n: nat, a: Asked)
    requires n < |run.steps| && AsksCache(run, n, a)
    ensures run.steps[n].id in After(run, n + 1).chats
    ensures var phase := After(run, n + 1).chats[run.steps[n].id].phase;
            var found := LookUp(run.cfg, After(run, n).shared, a.request, run.steps[n].world).1;
            && phase.Ended? && (phase.reply.Hit? <==> found.Some?)
            && (found.Some? ==> phase.reply == Hit(found.value, run.steps[n].world.readAt))
  {
    AfterNext(run, n);
  }

  /**
   * In every run, a request whose key was written in time and kept in use is answered from
   * the cache, with the last write.
   */
  lemma ResumeMustHit(run: Run, n: nat, a: Asked)
    requires n < |run.steps| && AsksCache(run, n, a)
    requires var ops, now := CacheOps(run, n), run.steps[n].world.readAt;
             Kept(run.cfg.cache, ops, Build(a.request), now) && forall i | 0 <= i < |ops| :: ops[i].at <= now
    ensures run.steps[n].id in After(run, n + 1).chats
    ensures var ops := CacheOps(run, n);
            var phase := After(run, n + 1).chats[run.steps[n].id].phase;
            phase.Ended?
            && phase.reply == Hit(ops[ResponseCache.LastWrite(ops, |ops|, Build(a.request)) - 1].value,
                                  run.steps[n].world.readAt)
  {
    AskedReply(run, n, a);
    ResponsesAreHistory(run, n);
    KeptHits(run.cfg.cache, CacheOps(run, n), Build(a.request), run.steps[n].world.readAt);
  }

  /** And every answer from the cache is the last write of its key, in time counted from that write. */
  lemma ResumeHitsLatest(run: Run, n: nat, a: Asked)
    requires n < |run.steps| && AsksCache(run, n, a)
    ensures run.steps[n].id in After(run, n + 1).chats
    ensures var ops, phase := CacheOps(run, n), After(run, n + 1).chats[run.steps[n].id].phase;
            phase.Ended? && phase.reply.Hit? ==>
              var w := ResponseCache.LastWrite(ops, |ops|, Build(a.request));
              w > 0 && phase.reply.cached == ops[w - 1].value && phase.reply.readAt - ops[w - 1].at < run.cfg.cache.ttl
  {
    AskedReply(run, n, a);
    ResponsesAreHistory(run, n);
    if LookUp(run.cfg, After(run, n).shared, a.request, run.steps[n].world).1.Some? {
      HitsAreLatest(run.cfg.cache, CacheOps(run, n), Build(a.request), run.steps[n].world.readAt);
    }
  }

  /** The key was used, no operation since took it out, and its last write is in time. */
  predicate Holds(cfg: ResponseCache.Settings, ops: seq<ResponseCache.Op>, key: string, now: real) {
    var used, w := ResponseCache.LastUse(cfg, ops, |ops|, key), ResponseCache.LastWrite(ops, |ops|, key);
    && used > 0 && (forall m | used - 1 <= m < |ops| :: ResponseCache.Spares(cfg, ops, m, key))
    && w > 0 && now - ops[w - 1].at < cfg.ttl
  }

  lemma HitsIff(cfg: ResponseCache.Settings, ops: seq<ResponseCache.Op>, key: string, now: real)
    ensures ResponseCache.Get(cfg, Left(cfg, ops), key, now).1.Some? <==> Holds(cfg, ops, key, now)
  {
    ResponseCache.RecencyOrder(cfg, ops, |ops|);
    ResponseCache.PresentIff(cfg, ops, |ops|, key);
  }

  /** Exactly when a request is answered from the cache, in every run: when its own history holds the key. */
  lemma ResumeHitsIff(run: Run, n: nat, a: Asked)
    requires n < |run.steps| && AsksCache(run, n, a)
    ensures run.steps[n].id in After(run, n + 1).chats
    ensures var phase := After(run, n + 1).chats[run.steps[n].id].phase;
            phase.Ended?
            && (phase.reply.Hit?
                <==> Holds(run.cfg.cache, CacheOps(run, n), Build(a.request), run.steps[n].world.readAt))
  {
    AskedReply(run, n, a);
    ResponsesAreHistory(run, n);
    HitsIff(run.cfg.cache, CacheOps(run, n), Build(a.request), run.steps[n].world.readAt);
  }
}
