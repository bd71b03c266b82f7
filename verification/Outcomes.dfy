/**
 * What becomes of a request once its body is there: which answer goes with what it met.
 * GatewayRuns says what an answer implies; here what was met decides the answer.
 */
module Outcomes {
  import opened Wrappers
  import opened PolicyStore
  import opened CacheKey
  import opened Gateway
  import opened GatewayRuns
  import opened Histories
  import Pipeline
  import BedrockClient
  import ResponseCache
  import Router
  import Streaming

  // ----- Up to the upstream -----

  /** Step n resumes request c. */
  ghost predicate Resumes(run: Run, n: nat, c: Conversation) {
    && n < |run.steps| && run.steps[n].Resume?
    && var s, r := After(run, n), run.steps[n].id;
       r in s.chats && s.chats[r] == c && c.phase.Waiting? && c.gate.Admitted?
  }

  /** The body reads, its model is the tenant's to use and the input guardrail lets the text through. */
  predicate Passes(policy: TenantPolicy, body: Body, world: World) {
    body.Parsed? && !Forbidden(policy, body.chat) && LetThrough(policy, world.inputVerdict)
  }

  /** The first of the three that fails is the answer. */
  predicate TurnedDown(policy: TenantPolicy, body: Body, reply: Reply) {
    if !body.Parsed? then reply == BadBody
    else if Forbidden(policy, body.chat) then reply == ModelNotAllowed
    else reply == InputRejected
  }

  /** What the request asks for, field by field. */
  predicate AsksFor(cfg: Config, c: Conversation, chat: Chat, verdict: Pipeline.Verdict, a: Asked)
    requires c.gate.Admitted?
  {
    var policy := c.gate.policy;
    && a.chat == chat && a.verdict == verdict
    && a.request.tenantId == c.identity.tenant && a.request.applicationId == c.identity.application
    && a.request.policy == policy && a.request.messages == chat.messages
    && a.request.maxTokens == chat.maxTokens && a.request.temperature == chat.temperature
    && (chat.model.Some? ==> a.request.modelId == chat.model.value)
    && (chat.model.None? && |policy.models| > 0 ==> a.request.modelId == policy.models[0])
    && (chat.model.None? && |policy.models| == 0 ==> a.request.modelId == cfg.defaultModel)
  }

  lemma PreparedAsksFor(cfg: Config, c: Conversation, chat: Chat, verdict: Pipeline.Verdict)
    requires c.gate.Admitted? && !Forbidden(c.gate.policy, chat) && LetThrough(c.gate.policy, verdict)
    ensures var p := Prepare(cfg, c.identity, c.gate.policy, chat, verdict);
            p.Success? && AsksFor(cfg, c, chat, verdict, p.value)
  {
    PreparedIsCleared(cfg, c.identity, c.gate.policy, chat, verdict);
    Pipeline.ResolvedModel(c.gate.policy, chat.model, cfg.defaultModel);
  }

  lemma ResumedTurnedDown(cfg: Config, s: Shared, c: Conversation, body: Body, world: World)
    requires c.gate.Admitted? && !Passes(c.gate.policy, body, world)
    ensures var (next, d) := Resumed(cfg, s, c, body, world);
            next == s && d.phase.Ended? && TurnedDown(c.gate.policy, body, d.phase.reply)
            && d == c.(phase := d.phase)
  {
    if body.Parsed? {
      PreparedIsCleared(cfg, c.identity, c.gate.policy, body.chat, world.inputVerdict);
    }
  }

  /**
   * In every run, a request that does not pass is turned down for the first reason there is,
   * and changes nothing else.
   */
  lemma FirstReasonDecides(run: Run, n: nat, c: Conversation)
    requires Resumes(run, n, c) && !Passes(c.gate.policy, run.steps[n].body, run.steps[n].world)
    ensures var d := Lookup(After(run, n + 1).chats, run.steps[n].id);
            && d.Some? && d.value.phase.Ended? && d.value == c.(phase := d.value.phase)
            && TurnedDown(c.gate.policy, run.steps[n].body, d.value.phase.reply)
    ensures After(run, n + 1).shared == After(run, n).shared
  {
    AfterNext(run, n);
    ResumedTurnedDown(run.cfg, After(run, n).shared, c, run.steps[n].body, run.steps[n].world);
  }

  lemma ResumedAsks(cfg: Config, s: Shared, c: Conversation, body: Body, world: World)
    requires c.gate.Admitted? && Passes(c.gate.policy, body, world)
    ensures var p := Prepare(cfg, c.identity, c.gate.policy, body.chat, world.inputVerdict);
            && p.Success? && AsksFor(cfg, c, body.chat, world.inputVerdict, p.value)
            && Resumed(cfg, s, c, body, world).1.asked == Some(p.value)
  {
    PreparedAsksFor(cfg, c, body.chat, world.inputVerdict);
  }

  /**
   * In every run, a request that passes asks for exactly what its sender, its policy and its
   * body say: the model is the one it names, else the first of the tenant's list, else the
   * gateway's own.
   */
  lemma PassingAsks(run: Run, n: nat, c: Conversation) returns (a: Asked)
    requires Resumes(run, n, c) && Passes(c.gate.policy, run.steps[n].body, run.steps[n].world)
    ensures AsksFor(run.cfg, c, run.steps[n].body.chat, run.steps[n].world.inputVerdict, a)
    ensures var d := Lookup(After(run, n + 1).chats, run.steps[n].id); d.Some? && d.value.asked == Some(a)
    ensures Prepare(run.cfg, c.identity, c.gate.policy, run.steps[n].body.chat, run.steps[n].world.inputVerdict)
            == Success(a)
    ensures !run.steps[n].body.chat.stream ==> AsksCache(run, n, a)
  {
    var step := run.steps[n];
    AfterNext(run, n);
    ResumedAsks(run.cfg, After(run, n).shared, c, step.body, step.world);
    a := Prepare(run.cfg, c.identity, c.gate.policy, step.body.chat, step.world.inputVerdict).value;
  }

  // ----- What the upstream answered is what the request gets -----

  /** Step n brings the router's loop t to request a: the cache does not hold its key. */
  ghost predicate Routes(run: Run, n: nat, a: Asked, t: Router.Tour)
    requires n < |run.steps|
  {
    && AsksCache(run, n, a)
    && !Holds(run.cfg.cache, CacheOps(run, n), Build(a.request), run.steps[n].world.readAt)
    && t == Router.Tour(run.cfg.router, After(run, n).shared.circuits,
                        Router.Candidates(run.cfg.router.routeSets, a.request.modelId, a.request.policy.routeSet),
                        run.steps[n].world.legs)
  }

  /** The request has ended with this answer and this many upstream calls. */
  ghost predicate EndsWith(run: Run, n: nat, reply: Reply, calls: nat)
    requires n < |run.steps| && run.steps[n].Resume?
  {
    var d := Lookup(After(run, n + 1).chats, run.steps[n].id);
    d.Some? && d.value.phase == Ended(reply) && d.value.calls == calls
  }

  lemma RoutedReply(run: Run, n: nat, a: Asked, t: Router.Tour)
    requires n < |run.steps| && Routes(run, n, a, t)
    ensures EndsWith(run, n, Conclude(a.request.policy, Router.Route(t), run.steps[n].world), Router.TotalCalls(t))
  {
    AfterNext(run, n);
    ResponsesAreHistory(run, n);
    HitsIff(run.cfg.cache, CacheOps(run, n), Build(a.request), run.steps[n].world.readAt);
    assert t == TourOf(run.cfg, After(run, n).shared, a.request, run.steps[n].world);
  }

  /** And its time: what the router slept between upstream calls. */
  lemma RoutedSleeps(run: Run, n: nat, a: Asked, t: Router.Tour)
    requires n < |run.steps| && Routes(run, n, a, t)
    ensures RequestSleep(run.cfg, After(run, n).shared, a.request, run.steps[n].world) == Router.TotalSleep(t)
  {
    ResponsesAreHistory(run, n);
    HitsIff(run.cfg.cache, CacheOps(run, n), Build(a.request), run.steps[n].world.readAt);
    assert t == TourOf(run.cfg, After(run, n).shared, a.request, run.steps[n].world);
  }

  /** A completion as it is answered and cached: word for word, with the candidate that gave it. */
  predicate IsAnswer(response: ResponseCache.CachedResponse, c: BedrockClient.Completion, model: string) {
    && response.text == c.text && response.stopReason == c.stopReason
    && response.inputTokens == c.inputTokens && response.outputTokens == c.outputTokens && response.modelId == model
  }

  lemma ServedRoute(t: Router.Tour, i: nat, result: BedrockClient.ConverseResult)
    requires Router.FirstToServe(Router.Visits(t), i, result)
    ensures var outcome := Router.Route(t);
            outcome.Routed? && outcome.result == result && outcome.model == t.candidates[i]
    ensures Router.TotalCalls(t) == Router.UpstreamCalls(Router.Visits(t), i + 1)
  {
    var at := Router.RouteContract(t);
    assert at == i;
  }

  lemma FailedRoute(t: Router.Tour, i: nat, error: BedrockClient.InvocationError)
    requires Router.LastCalled(Router.Visits(t), i, error)
    ensures Router.Route(t) == Router.Failed(error)
    ensures Router.TotalCalls(t) == Router.UpstreamCalls(Router.Visits(t), |t.candidates|)
  {
    var at := Router.RouteContract(t);
    assert !Router.Route(t).Routed?;
    if Router.Route(t).Failed? {
      assert at == i;
    }
  }

  /**
   * In every run, a completion that the output guardrail lets through reaches its request:
   * if candidate i is the first to serve, its result is the answer, word for word, and is
   * cached; held back by the guardrail it is neither.  Retries and fallbacks before it do
   * not count against it.
   */
  lemma ServedIsAnswered(run: Run, n: nat, a: Asked, t: Router.Tour, i: nat, result: BedrockClient.ConverseResult)
    requires n < |run.steps| && Routes(run, n, a, t) && Router.FirstToServe(Router.Visits(t), i, result)
    ensures var world, calls := run.steps[n].world, Router.UpstreamCalls(Router.Visits(t), i + 1);
            var verdict := world.outputVerdict(result.completion.text);
            if LetThrough(a.request.policy, verdict) then
              exists response ::
                && IsAnswer(response, result.completion, t.candidates[i])
                && EndsWith(run, n, Fresh(response, verdict, world.writtenAt), calls)
            else EndsWith(run, n, OutputRejected, calls)
  {
    RoutedReply(run, n, a, t);
    ServedRoute(t, i, result);
    ServedConcludes(a.request.policy, Router.Route(t), run.steps[n].world, result, t.candidates[i]);
  }

  lemma ServedConcludes(policy: TenantPolicy, outcome: Router.Outcome, world: World,
                        result: BedrockClient.ConverseResult, model: string)
    requires outcome.Routed? && outcome.result == result && outcome.model == model
    ensures var verdict, reply := world.outputVerdict(result.completion.text), Conclude(policy, outcome, world);
            if LetThrough(policy, verdict) then
              reply.Fresh? && IsAnswer(reply.response, result.completion, model)
              && reply == Fresh(reply.response, verdict, world.writtenAt)
            else reply == OutputRejected
  {
    Pipeline.FailsClosed(policy, world.outputVerdict(result.completion.text));
  }

  /** If no candidate serves, the error of the last one called is the answer. */
  lemma LastErrorIsAnswered(run: Run, n: nat, a: Asked, t: Router.Tour, i: nat, error: BedrockClient.InvocationError)
    requires n < |run.steps| && Routes(run, n, a, t) && Router.LastCalled(Router.Visits(t), i, error)
    ensures EndsWith(run, n, UpstreamFailed(error), Router.UpstreamCalls(Router.Visits(t), |t.candidates|))
  {
    RoutedReply(run, n, a, t);
    FailedRoute(t, i, error);
  }

  /** If every circuit refuses, all routes are unavailable and nothing was called. */
  lemma AllSkippedIsUnavailable(run: Run, n: nat, a: Asked, t: Router.Tour)
    requires n < |run.steps| && Routes(run, n, a, t)
    requires forall k | 0 <= k < |t.candidates| :: Router.Visits(t)[k].Skipped?
    ensures EndsWith(run, n, Reply.AllRoutesUnavailable, 0)
  {
    RoutedReply(run, n, a, t);
    var at := Router.RouteContract(t);
    Router.UnavailableIffNoCall(t);
    assert !Router.Route(t).Routed? && !Router.Route(t).Failed?;
  }

  /** One of these three is always so. */
  lemma SomeOutcome(t: Router.Tour) returns (i: nat)
    ensures var vs := Router.Visits(t);
            || (i < |vs| && vs[i].Served? && Router.FirstToServe(vs, i, vs[i].result))
            || (i < |vs| && vs[i].Erred? && Router.LastCalled(vs, i, vs[i].error))
            || forall k | 0 <= k < |vs| :: vs[k].Skipped?
  {
    i := Router.RouteContract(t);
  }

  /**
   * Attempt by attempt: if the candidates before i do not serve, i's circuit lets it through,
   * its first k attempts fail for a moment within the retries, and the next one replies,
   * then that reply is the answer.
   */
  lemma ReplyAfterRetries(run: Run, n: nat, a: Asked, t: Router.Tour, i: nat, k: nat, c: BedrockClient.Completion)
    requires n < |run.steps| && Routes(run, n, a, t) && i < |t.candidates| && !Router.Visits(t)[i].Skipped?
    requires forall j | 0 <= j < i :: !Router.Visits(t)[j].Served?
    requires k == 0 || k <= run.cfg.router.maxRetries
    requires forall j | 0 <= j < k :: BedrockClient.IsTransient(t.legs(i).script(j))
    requires t.legs(i).script(k) == BedrockClient.Reply(c)
    requires LetThrough(a.request.policy, run.steps[n].world.outputVerdict(c.text))
    ensures exists response, calls ::
              && IsAnswer(response, c, t.candidates[i])
              && EndsWith(run, n, Fresh(response, run.steps[n].world.outputVerdict(c.text),
                                        run.steps[n].world.writtenAt),
                          calls)
  {
    Router.VisitOutcome(t, i, k);
    ServedIsAnswered(run, n, a, t, i, BedrockClient.ConverseResult(c, k));
  }

  /** A fresh answer is written under the request's key; no other answer is. */
  function Written(key: string, reply: Reply): seq<ResponseCache.Op> {
    match reply
    case Fresh(response, _, at) => [ResponseCache.Write(key, response, at)]
    case _ => []
  }

  lemma AskedOps(run: Run, n: nat, a: Asked)
    requires n < |run.steps| && AsksCache(run, n, a)
    ensures var step, d := run.steps[n], Lookup(After(run, n + 1).chats, run.steps[n].id);
            && d.Some? && d.value.phase.Ended?
            && StepOps(run.cfg, After(run, n), step)
               == [ResponseCache.Read(Build(a.request), step.world.readAt)]
                  + Written(Build(a.request), d.value.phase.reply)
  {
    AfterNext(run, n);
  }

  /** What a request does to the cache: it reads its key, and writes its answer exactly when the answer is fresh. */
  lemma OnlyFreshIsCached(run: Run, n: nat, a: Asked)
    requires n < |run.steps| && AsksCache(run, n, a)
    ensures var key, world, d := Build(a.request), run.steps[n].world, Lookup(After(run, n + 1).chats, run.steps[n].id);
            && d.Some? && d.value.phase.Ended?
            && CacheOps(run, n + 1)
               == CacheOps(run, n) + ([ResponseCache.Read(key, world.readAt)] + Written(key, d.value.phase.reply))
  {
    AskedOps(run, n, a);
    OpsNext(run, n);
  }

  // ----- Streams -----

  lemma ResumedStreams(cfg: Config, s: Shared, c: Conversation, body: Body, world: World)
    requires c.gate.Admitted? && Passes(c.gate.policy, body, world) && body.chat.stream
    ensures var d := Resumed(cfg, s, c, body, world).1;
            && (d.phase == Ended(CircuitOpen) || d.phase == Open(Streaming.Playback(world.answer, Streaming.Unstarted)))
            && d.calls == c.calls
  {
    PreparedAsksFor(cfg, c, body.chat, world.inputVerdict);
  }

  /**
   * In every run, a request for a stream that passes gets the stream that its upstream
   * answers with, not yet started, unless its circuit is open (`StreamRefusedIffHistory`).
   */
  lemma StreamIsOpened(run: Run, n: nat, c: Conversation)
    requires Resumes(run, n, c) && Passes(c.gate.policy, run.steps[n].body, run.steps[n].world)
    requires run.steps[n].body.chat.stream
    ensures var d := Lookup(After(run, n + 1).chats, run.steps[n].id);
            && d.Some? && d.value.calls == c.calls
            && (d.value.phase == Ended(CircuitOpen)
                || d.value.phase == Open(Streaming.Playback(run.steps[n].world.answer, Streaming.Unstarted)))
  {
    AfterNext(run, n);
    ResumedStreams(run.cfg, After(run, n).shared, c, run.steps[n].body, run.steps[n].world);
  }
}
