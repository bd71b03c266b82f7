/**
 * The chat and admin handlers (services/gateway/api/routes.py, api/admin_routes.py) over
 * the gateway's own mutable objects.  Each method is one step of the event loop and is
 * proved to be that step of module Gateway on the state the objects hold together.
 */
module Handlers {
  import opened Wrappers
  import opened PolicyStore
  import opened Pipeline
  import opened CacheKey
  import opened Gateway
  import PolicyCache
  import RateLimiter
  import BedrockClient
  import Breaker
  import ResponseCache
  import Router
  import Streaming

  /** What the router brought back is settled. */
  predicate Settled(cfg: Config, s: Shared, r: Request, world: World,
                    done: Shared, reply: Reply, calls: nat, slept: BedrockClient.Seconds)
  {
    var t := TourOf(cfg, s, r, world);
    && (done, reply) == Settle(cfg, s, r, RouterRun(t), world)
    && calls == RouterRun(t).calls && slept == Router.TotalSleep(t)
  }

  lemma RoutedSettles(cfg: Config, s: Shared, r: Request, world: World, routing: Routing, slept: BedrockClient.Seconds,
                      responses: ResponseCache.Store, reply: Reply)
    requires routing == RouterRun(TourOf(cfg, s, r, world)) && slept == Router.TotalSleep(TourOf(cfg, s, r, world))
    requires reply == Conclude(r.policy, routing.outcome, world) && responses == CacheWrite(cfg, s.responses, r, reply)
    ensures Settled(cfg, s, r, world, s.(responses := responses, circuits := routing.circuits), reply, routing.calls,
                    slept)
  {
  }

  /** A request that misses leaves the state `missed`, goes to the router and settles. */
  lemma CompleteMiss(cfg: Config, s: Shared, missed: Shared, r: Request, world: World,
                     done: Shared, reply: Reply, calls: nat, slept: BedrockClient.Seconds)
    requires LookUp(cfg, s, r, world) == (missed.responses, None) && missed == s.(responses := missed.responses)
    requires Settled(cfg, missed, r, world, done, reply, calls, slept)
    ensures (done, reply, calls) == Complete(cfg, s, r, world) && slept == RequestSleep(cfg, s, r, world)
  {
    assert TourOf(cfg, missed, r, world) == TourOf(cfg, s, r, world);
  }

  class GatewayApp {
    const cfg: Config
    const store: InMemoryPolicyStore
    const policyCache: PolicyCache.PolicySnapshotCache
    const limiter: RateLimiter.TokenBucketRateLimiter
    const breaker: Breaker.CircuitBreaker
    const router: Router.CertifiedRouter
    const responseCache: ResponseCache.InMemoryResponseCache

    ghost function Footprint(): set<object>
      reads limiter, breaker
    {
      {store, policyCache, responseCache} + limiter.Repr + breaker.Repr
    }

    /** The objects are wired together and share nothing. */
    ghost predicate Valid()
      reads limiter, breaker, Footprint()
    {
      && limiter.Valid() && breaker.Valid() && responseCache.Valid()
      && policyCache.store == store && policyCache.ttl == cfg.policyTtl && responseCache.cfg == cfg.cache
      && router.breaker == breaker && router.cfg == cfg.router && router.Wired()
      && limiter.Repr !! breaker.Repr
      && store !in limiter.Repr + breaker.Repr
      && policyCache !in limiter.Repr + breaker.Repr
      && responseCache !in limiter.Repr + breaker.Repr
    }

    /** The state the objects hold. */
    ghost function Contents(): Shared
      reads store, policyCache, limiter, breaker, responseCache
    {
      Shared(store.policies, policyCache.snapshots, limiter.Contents, breaker.Contents, responseCache.Contents())
    }

    constructor (cfg: Config, policies: Policies)
      ensures Valid() && fresh(Footprint())
      ensures this.cfg == cfg && Contents() == Initial(policies)
    {
      this.cfg := cfg;
      var store := new InMemoryPolicyStore(policies);
      var breaker := new Breaker.CircuitBreaker(cfg.router.breaker);
      this.store, this.breaker := store, breaker;
      policyCache := new PolicyCache.PolicySnapshotCache(store, cfg.policyTtl);
      limiter := new RateLimiter.TokenBucketRateLimiter();
      var client := new BedrockClient.Client(cfg.router.maxRetries, cfg.router.baseBackoff);
      router := new Router.CertifiedRouter(cfg.router, breaker, client);
      responseCache := new ResponseCache.InMemoryResponseCache(cfg.cache);
    }

    /** The chat handler up to where it waits for the body. */
    method Arrive(id: Identity, clock: Clock) returns (gate: Gate)
      requires Valid()
      modifies Footprint()
      ensures Valid() && fresh(Footprint() - old(Footprint()))
      ensures (Contents(), gate) == Admit(cfg, old(Contents()), id, clock)
    {
      var policy := policyCache.Get(id.tenant, clock.checkAt, clock.stampAt);
      if policy.None? {
        return NotProvisioned;
      }
      if Blocking(policy.value.state) {
        return Blocked(policy.value);
      }
      var allowed := limiter.Allow(policy.value.tenantId, EffectiveLimit(policy.value), clock.limitAt);
      gate := if allowed then Admitted(policy.value) else OverQuota(policy.value);
    }

    /** The chat handler from its body on. */
    method Resume(c: Conversation, body: Body, world: World) returns (d: Conversation)
      requires Valid() && c.gate.Admitted?
      modifies Footprint()
      ensures Valid() && fresh(Footprint() - old(Footprint()))
      ensures (Contents(), d) == Resumed(cfg, old(Contents()), c, body, world)
    {
      if !body.Parsed? {
        return c.(phase := Ended(BadBody));
      }
      var prepared := Prepare(cfg, c.identity, c.gate.policy, body.chat, world.inputVerdict);
      if prepared.Failure? {
        return c.(phase := Ended(prepared.error));
      }
      var asked := prepared.value;
      if body.chat.stream {
        var allowed := breaker.Allow(asked.request.modelId, world.permitAt);
        return c.(asked := Some(asked), phase := if allowed then Opened(world.answer) else Ended(CircuitOpen));
      }
      var reply, calls, slept := Answer(asked.request, world);
      d := c.(asked := Some(asked), phase := Ended(reply), calls := calls);
    }

    /** Cache, router, output guardrail, cache write. */
    method Answer(r: Request, world: World) returns (reply: Reply, calls: nat, slept: BedrockClient.Seconds)
      requires Valid()
      modifies Footprint()
      ensures Valid() && fresh(Footprint() - old(Footprint()))
      ensures (Contents(), reply, calls) == Complete(cfg, old(Contents()), r, world)
      ensures slept == RequestSleep(cfg, old(Contents()), r, world)
    {
      var cached := responseCache.Fetch(Build(r), world.readAt);
      if cached.Some? {
        return Hit(cached.value, world.readAt), 0, 0.0;
      }
      ghost var missed := Contents();
      reply, calls, slept := AskUpstream(r, world);
      CompleteMiss(cfg, old(Contents()), missed, r, world, Contents(), reply, calls, slept);
    }

    /** Router, output guardrail, cache write. */
    method AskUpstream(r: Request, world: World) returns (reply: Reply, calls: nat, slept: BedrockClient.Seconds)
      requires Valid()
      modifies breaker.Repr, responseCache
      ensures Valid() && fresh(breaker.Repr - old(breaker.Repr)) && limiter.Repr == old(limiter.Repr)
      ensures Settled(cfg, old(Contents()), r, world, Contents(), reply, calls, slept)
    {
      var outcome;
      outcome, calls, slept := Route(r, world);
      ghost var routed := Contents();
      reply := Publish(r, outcome, world);
      assert Contents() == routed.(responses := responseCache.Contents());
      RoutedSettles(cfg, old(Contents()), r, world, Routing(outcome, routed.circuits, calls), slept,
                    responseCache.Contents(), reply);
    }

    /** Output guardrail, then cache write. */
    method Publish(r: Request, outcome: Router.Outcome, world: World) returns (reply: Reply)
      requires responseCache.Valid() && responseCache.cfg == cfg.cache
      modifies responseCache
      ensures responseCache.Valid() && reply == Conclude(r.policy, outcome, world)
      ensures responseCache.Contents()
              == CacheWrite(cfg, old(responseCache.Contents()), r, reply)
    {
      reply := Conclude(r.policy, outcome, world);
      if reply.Fresh? {
        responseCache.Put(Build(r), reply.response, reply.writtenAt);
      }
    }

    /** The router's part of an answer. */
    method Route(r: Request, world: World) returns (outcome: Router.Outcome, calls: nat, slept: BedrockClient.Seconds)
      requires Valid()
      modifies breaker.Repr
      ensures Valid() && fresh(Footprint() - old(Footprint()))
      ensures Contents() == old(Contents()).(circuits := Contents().circuits)
      ensures var t := TourOf(cfg, old(Contents()), r, world);
              Routing(outcome, Contents().circuits, calls) == RouterRun(t) && slept == Router.TotalSleep(t)
    {
      outcome, calls, slept := router.Call(r.modelId, r.policy.routeSet, world.legs);
    }

    /** The streaming handler, from where its stream waits to where it waits next. */
    method Advance(c: Conversation, at: real) returns (d: Conversation)
      requires Valid() && c.phase.Open? && c.asked.Some?
      modifies breaker.Repr
      ensures Valid() && fresh(Footprint() - old(Footprint()))
      ensures (Contents(), d) == Advanced(cfg, old(Contents()), c, at)
    {
      var model := c.asked.value.request.modelId;
      match Streaming.Advance(c.phase.stream)
      case Paused(next) =>
        d := Pulled(c).(phase := Open(next));
      case Over(played) =>
        d := Pulled(c).(phase := Ended(Streamed(played.frames, played.recorded)));
        if played.recorded == Some(Streaming.Succeeded) {
          breaker.RecordSuccess(model, at);
        } else if played.recorded == Some(Streaming.Errored) {
          breaker.RecordFailure(model, at);
        }
    }

    /** The admin handler from its body on: the flip, then the push to the snapshot cache. */
    method SetTenantState(tenant: string, state: TenantState) returns (updated: Option<TenantPolicy>)
      requires Valid()
      modifies Footprint()
      ensures Valid() && Footprint() == old(Footprint())
      ensures Contents() == Administered(old(Contents()), Flip(tenant, state))
      ensures updated == Lookup(Contents().policies, tenant)
    {
      updated := store.SetState(tenant, state);
      if updated.Some? {
        policyCache.Invalidate(tenant);
      }
    }
  }
}
