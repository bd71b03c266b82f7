/**
 * Where the answer of a cache hit comes from, over every interleaving of chat and admin
 * steps.
 */
module CacheProvenance {
  import opened Wrappers
  import opened PolicyStore
  import opened CacheKey
  import opened Gateway
  import opened GatewayRuns
  import BedrockClient
  import ResponseCache
  import Router

  /**
   * Request w obtained this answer from upstream, passed it through its output guardrail and
   * wrote it under this key.
   */
  predicate Wrote(s: State, w: nat, key: string, e: ResponseCache.Entry) {
    w in s.chats &&
    var c := s.chats[w];
    && c.asked.Some? && Build(c.asked.value.request) == key
    && c.calls > 0 && c.gate.Admitted?
    && c.phase.Ended? && Published(c.phase.reply, c.gate.policy, e)
  }

  predicate Published(reply: Reply, policy: TenantPolicy, e: ResponseCache.Entry) {
    reply.Fresh? && reply.response == e.value && reply.writtenAt == e.cachedAt && LetThrough(policy, reply.verdict)
  }

  ghost predicate Written(s: State, key: string) {
    key in s.shared.responses.entries ==> exists w :: Wrote(s, w, key, s.shared.responses.entries[key])
  }

  /** An entry was there before, or is the answer just settled. */
  predicate Explained(before: ResponseCache.Store, after: ResponseCache.Store, key: string, e: ResponseCache.Entry,
                      r: Request)
  {
    key in after.entries ==>
      || (key in before.entries && after.entries[key] == before.entries[key])
      || (key == Build(r) && after.entries[key] == e)
  }

  lemma SettleExplained(cfg: Config, s: Shared, r: Request, routing: Routing, world: World, key: string)
    ensures var (next, reply) := Settle(cfg, s, r, routing, world);
            if reply.Fresh?
            then && Explained(s.responses, next.responses, key, ResponseCache.Entry(reply.writtenAt, reply.response), r)
                 && LetThrough(r.policy, reply.verdict) && routing.outcome.Routed?
            else next.responses == s.responses
  {
    var reply := Conclude(r.policy, routing.outcome, world);
    if reply.Fresh? {
      Pipeline.FailsClosed(r.policy, reply.verdict);
      ResponseCache.SetEntries(cfg.cache, s.responses, Build(r), reply.response, reply.writtenAt);
    }
  }

  lemma RoutedCalls(t: Router.Tour)
    requires RouterRun(t).outcome.Routed?
    ensures RouterRun(t).calls > 0
  {
    Router.UnavailableIffNoCall(t);
  }

  /**
   * Whatever a request finds or leaves in the cache is explained: a hit by an entry in time,
   * an entry by what was there or by its own fresh answer.
   */
  lemma CompleteExplained(cfg: Config, s: Shared, r: Request, world: World, key: string)
    ensures var (next, reply, calls) := Complete(cfg, s, r, world);
            && (key in next.responses.entries ==>
                  || (key in s.responses.entries && next.responses.entries[key] == s.responses.entries[key])
                  || (key == Build(r) && calls > 0 && Published(reply, r.policy, next.responses.entries[key])))
            && (reply.Hit? ==>
                  && Build(r) in s.responses.entries && reply.cached == s.responses.entries[Build(r)].value
                  && reply.readAt - s.responses.entries[Build(r)].cachedAt < cfg.cache.ttl)
  {
    var (responses, cached) := LookUp(cfg, s, r, world);
    if cached.None? {
      var t := TourOf(cfg, s, r, world);
      var routing := RouterRun(t);
      SettleExplained(cfg, s.(responses := responses), r, routing, world, key);
      if routing.outcome.Routed? {
        RoutedCalls(t);
      }
    }
  }

  lemma ResumedExplained(cfg: Config, s: Shared, c: Conversation, body: Body, world: World, key: string)
    requires c.gate.Admitted? && Proper(cfg, c) && c.phase.Waiting?
    ensures var (next, d) := Resumed(cfg, s, c, body, world);
            && (key in next.responses.entries ==>
                  || (key in s.responses.entries && next.responses.entries[key] == s.responses.entries[key])
                  || (&& d.asked.Some? && Build(d.asked.value.request) == key && d.calls > 0 && d.gate == c.gate
                      && d.phase.Ended? && Published(d.phase.reply, d.gate.policy, next.responses.entries[key])))
            && (d.phase.Ended? && d.phase.reply.Hit? ==>
                  d.asked.Some? &&
                  var own := Build(d.asked.value.request);
                  && own in s.responses.entries && d.phase.reply.cached == s.responses.entries[own].value
                  && d.phase.reply.readAt - s.responses.entries[own].cachedAt < cfg.cache.ttl)
  {
    if body.Parsed? {
      var p := Prepare(cfg, c.identity, c.gate.policy, body.chat, world.inputVerdict);
      if p.Success? && !body.chat.stream {
        CompleteExplained(cfg, s, p.value.request, world, key);
      }
    }
  }

  /** An entry of the cache after a step is one from before, or the answer of the request that resumed. */
  lemma NextEntry(cfg: Config, s: State, n: nat, step: Step, next: State, key: string)
    requires next == Next(cfg, s, n, step) && key in next.shared.responses.entries
    requires forall r | r in s.chats :: Proper(cfg, s.chats[r])
    ensures var before, after := s.shared.responses.entries, next.shared.responses.entries;
            || (key in before && after[key] == before[key])
            || (step.Resume? && Wrote(next, step.id, key, after[key]))
  {
    if step.Resume? && step.id in s.chats && s.chats[step.id].phase.Waiting? && s.chats[step.id].gate.Admitted? {
      ResumedExplained(cfg, s.shared, s.chats[step.id], step.body, step.world, key);
    }
  }

  lemma NextWritten(cfg: Config, s: State, n: nat, step: Step, next: State, key: string)
    requires Written(s, key) && n !in s.chats && next == Next(cfg, s, n, step)
    requires forall r | r in s.chats :: Proper(cfg, s.chats[r])
    ensures Written(next, key)
  {
    var before, after := s.shared.responses.entries, next.shared.responses.entries;
    if key in after {
      NextEntry(cfg, s, n, step, next, key);
      if key in before && after[key] == before[key] {
        var w :| Wrote(s, w, key, before[key]);
        EndedKept(cfg, s, n, step, w);
        assert Wrote(next, w, key, after[key]);
      }
    }
  }

  lemma {:induction false} AlwaysWritten(run: Run, n: nat, key: string)
    requires n <= |run.steps|
    ensures Written(After(run, n), key)
  {
    if n > 0 {
      var m: nat := n - 1;
      AlwaysWritten(run, m, key);
      ChatsAreArrivals(run, m);
      forall r | r in After(run, m).chats
        ensures Proper(run.cfg, After(run, m).chats[r])
      {
        AlwaysProper(run, m, r);
      }
      AfterNext(run, m);
      NextWritten(run.cfg, After(run, m), m, run.steps[m], After(run, n), key);
    }
  }

  predicate IsHit(s: State, r: nat) {
    r in s.chats && s.chats[r].phase.Ended? && s.chats[r].phase.reply.Hit?
  }

  /** A hit is made by its own request, resuming. */
  lemma HitComesFromResume(cfg: Config, s: State, n: nat, step: Step, next: State, r: nat)
    requires !IsHit(s, r) && next == Next(cfg, s, n, step) && IsHit(next, r)
    ensures step.Resume? && step.id == r && r in s.chats && s.chats[r].phase.Waiting? && s.chats[r].gate.Admitted?
    ensures next.chats[r] == Resumed(cfg, s.shared, s.chats[r], step.body, step.world).1
  {
  }

  /** Request w wrote, before step m, what request r hit on at that step. */
  predicate Source(run: Run, m: nat, w: nat, c: Conversation)
    requires m <= |run.steps| && c.asked.Some? && c.phase.Ended? && c.phase.reply.Hit?
  {
    var s := After(run, m);
    w in s.chats && s.chats[w].phase.Ended? && s.chats[w].phase.reply.Fresh? &&
    var reply := s.chats[w].phase.reply;
    && Wrote(s, w, Build(c.asked.value.request), ResponseCache.Entry(reply.writtenAt, reply.response))
    && reply.response == c.phase.reply.cached
    && c.phase.reply.readAt - reply.writtenAt < run.cfg.cache.ttl
    && s.chats[w].asked.value.request == c.asked.value.request
  }

  /** The hit that step m makes finds an entry in time under its own key. */
  lemma HitEntry(run: Run, m: nat, n: nat, r: nat)
    requires n == m + 1 <= |run.steps| && !IsHit(After(run, m), r) && IsHit(After(run, n), r)
    ensures run.steps[m].Resume? && run.steps[m].id == r && r in After(run, m).chats
    ensures var c, d := After(run, m).chats[r], After(run, n).chats[r];
            && d.identity == c.identity && d.gate == c.gate && d.asked.Some? && Proper(run.cfg, d)
            && var key, entries := Build(d.asked.value.request), After(run, m).shared.responses.entries;
               && key in entries && d.phase.reply.cached == entries[key].value
               && d.phase.reply.readAt - entries[key].cachedAt < run.cfg.cache.ttl
  {
    var s, next, step := After(run, m), After(run, n), run.steps[m];
    AfterNext(run, m);
    HitComesFromResume(run.cfg, s, m, step, next, r);
    ChatsAreArrivals(run, m);
    GateKept(run.cfg, s, m, step, r);
    AlwaysProper(run, m, r);
    AlwaysProper(run, n, r);
    ResumedExplained(run.cfg, s.shared, s.chats[r], step.body, step.world, Build(next.chats[r].asked.value.request));
  }

  lemma SourceOf(run: Run, m: nat, n: nat, r: nat) returns (w: nat)
    requires n == m + 1 <= |run.steps| && !IsHit(After(run, m), r) && IsHit(After(run, n), r)
    ensures var c := After(run, n).chats[r];
            run.steps[m].Resume? && run.steps[m].id == r && c.asked.Some? && Source(run, m, w, c)
  {
    HitEntry(run, m, n, r);
    var s, c := After(run, m), After(run, n).chats[r];
    var key := Build(c.asked.value.request);
    AlwaysWritten(run, m, key);
    w :| Wrote(s, w, key, s.shared.responses.entries[key]);
    AlwaysProper(run, m, w);
    SameRequest(run, m, w, r, c);
  }

  /** Two requests with one key asked the same thing under the same policy: an epoch names one policy of a tenant. */
  lemma SameRequest(run: Run, m: nat, w: nat, r: nat, c: Conversation)
    requires m <= |run.steps| && w in After(run, m).chats && r in After(run, m).chats
    requires c.identity == After(run, m).chats[r].identity && c.gate == After(run, m).chats[r].gate
    requires c.asked.Some? && Proper(run.cfg, c)
    requires var d := After(run, m).chats[w];
             d.asked.Some? && Proper(run.cfg, d) && Build(d.asked.value.request) == Build(c.asked.value.request)
    ensures After(run, m).chats[w].asked.value.request == c.asked.value.request
  {
    var a, b := After(run, m).chats[w].asked.value.request, c.asked.value.request;
    KeyIsUnambiguous(a, b);
    if w <= r {
      EpochDiscipline(run, m, w, r);
    } else {
      EpochDiscipline(run, m, r, w);
    }
  }

  /**
   * In every run a hit returns, within the time to live, an answer that an earlier request
   * obtained from upstream: a request of the same tenant and application, for the same
   * model, parameters and messages, under a policy equal in every field, whose output
   * guardrail let the answer through.  A late write made under an old epoch is therefore
   * never served to a request of a new one.
   */
  lemma {:induction false} HitProvenance(run: Run, n: nat, r: nat) returns (m: nat, w: nat)
    requires n <= |run.steps| && IsHit(After(run, n), r)
    ensures m < n && run.steps[m].Resume? && run.steps[m].id == r
    ensures var c := After(run, n).chats[r]; c.asked.Some? && Source(run, m, w, c)
  {
    var last: nat := n - 1;
    ChatsAreArrivals(run, last);
    if IsHit(After(run, last), r) {
      m, w := HitProvenance(run, last, r);
      EndedKept(run.cfg, After(run, last), last, run.steps[last], r);
    } else {
      m := last;
      w := SourceOf(run, m, n, r);
    }
  }

  // ----- Where a fresh answer comes from -----

  /** Candidate i's attempt k gave this completion, and the output guardrail was asked about its text. */
  predicate FromUpstream(cfg: Config, r: Request, world: World, i: nat, k: nat, reply: Reply)
    requires reply.Fresh?
  {
    var candidates := Router.Candidates(cfg.router.routeSets, r.modelId, r.policy.routeSet);
    && i < |candidates| && reply.response.modelId == candidates[i]
    && world.legs(i).script(k).Reply? &&
    var completion := world.legs(i).script(k).completion;
    && reply.response.text == completion.text && reply.response.stopReason == completion.stopReason
    && reply.response.inputTokens == completion.inputTokens && reply.response.outputTokens == completion.outputTokens
    && reply.verdict == world.outputVerdict(completion.text) && reply.writtenAt == world.writtenAt
  }

  lemma ServedByAttempt(t: Router.Tour, i: nat, result: BedrockClient.ConverseResult)
    requires i < |t.candidates| && Router.VisitOf(t, i).Served? && Router.VisitOf(t, i).result == result
    ensures t.legs(i).script(result.retryCount) == BedrockClient.Reply(result.completion)
  {
    BedrockClient.RetryContract(t.legs(i).script, t.cfg.maxRetries);
  }

  lemma RoutedByAttempt(t: Router.Tour) returns (i: nat)
    requires Router.Route(t).Routed?
    ensures i < |t.candidates| && t.candidates[i] == Router.Route(t).model
    ensures var result := Router.Route(t).result;
            t.legs(i).script(result.retryCount) == BedrockClient.Reply(result.completion)
  {
    i := Router.RouteContract(t);
    Router.VisitAt(t, i);
    ServedByAttempt(t, i, Router.Route(t).result);
  }

  lemma CompletedFromUpstream(cfg: Config, s: Shared, r: Request, world: World) returns (i: nat, k: nat)
    requires Complete(cfg, s, r, world).1.Fresh?
    ensures FromUpstream(cfg, r, world, i, k, Complete(cfg, s, r, world).1)
  {
    var t := TourOf(cfg, s, r, world);
    i := RoutedByAttempt(t);
    k := Router.Route(t).result.retryCount;
  }

  predicate IsFresh(s: State, r: nat) {
    r in s.chats && s.chats[r].phase.Ended? && s.chats[r].phase.reply.Fresh?
  }

  lemma FreshComesFromResume(cfg: Config, s: State, n: nat, step: Step, r: nat)
    requires !IsFresh(s, r) && IsFresh(Next(cfg, s, n, step), r)
    ensures step.Resume? && step.id == r && r in s.chats && s.chats[r].phase.Waiting? && s.chats[r].gate.Admitted?
  {
  }

  lemma ResumedFromUpstream(cfg: Config, s: Shared, c: Conversation, body: Body, world: World) returns (i: nat, k: nat)
    requires c.gate.Admitted? && c.phase.Waiting?
    requires var d := Resumed(cfg, s, c, body, world).1; d.phase.Ended? && d.phase.reply.Fresh?
    ensures var d := Resumed(cfg, s, c, body, world).1;
            d.asked.Some? && FromUpstream(cfg, d.asked.value.request, world, i, k, d.phase.reply)
  {
    var p := Prepare(cfg, c.identity, c.gate.policy, body.chat, world.inputVerdict);
    i, k := CompletedFromUpstream(cfg, s, p.value.request, world);
  }

  /**
   * In every run a fresh answer is, word for word, a completion that one of the request's
   * own candidates gave in one attempt.
   */
  lemma {:induction false} FreshProvenance(run: Run, n: nat, r: nat) returns (m: nat, i: nat, k: nat)
    requires n <= |run.steps| && IsFresh(After(run, n), r)
    ensures m < n && run.steps[m].Resume? && run.steps[m].id == r
    ensures var c := After(run, n).chats[r];
            c.asked.Some? && FromUpstream(run.cfg, c.asked.value.request, run.steps[m].world, i, k, c.phase.reply)
  {
    var last: nat := n - 1;
    ChatsAreArrivals(run, last);
    if IsFresh(After(run, last), r) {
      m, i, k := FreshProvenance(run, last, r);
      EndedKept(run.cfg, After(run, last), last, run.steps[last], r);
    } else {
      m := last;
      FreshComesFromResume(run.cfg, After(run, last), last, run.steps[last], r);
      var s, step := After(run, last), run.steps[last];
      i, k := ResumedFromUpstream(run.cfg, s.shared, s.chats[r], step.body, step.world);
    }
  }
}
