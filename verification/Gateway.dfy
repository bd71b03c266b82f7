/**
 * The gateway as one event loop (services/gateway/api/routes.py, api/admin_routes.py).
 *
 * A handler runs alone until it waits, so a run is a sequence of steps: a chat request
 * arrives and goes through the gate, up to the point where it waits for its body; it
 * resumes with its body and runs to its answer, or opens a stream; a stream goes on from
 * where it waits to where it waits next, or ends; an administrator changes a tenant's state.  Whatever the gateway
 * cannot foresee - clocks, bodies, guardrail verdicts, upstream replies, the order of the
 * steps - is part of the steps.  A request is named by the number of the step in which it
 * arrived.
 */
module Gateway {
  import opened Wrappers
  import opened PolicyStore
  import opened Pipeline
  import opened CacheKey
  import PolicyCache
  import RateLimiter
  import Breaker
  import ResponseCache
  import BedrockClient
  import Router
  import Sse
  import Streaming
  import Json

  datatype Config = Config(policyTtl: real, cache: ResponseCache.Settings, router: Router.Config, defaultModel: string)

  datatype Identity = Identity(tenant: string, application: string)

  /** The state that all requests share. */
  datatype Shared = Shared(
    policies: Policies,
    snapshots: PolicyCache.Snapshots,
    levels: map<string, RateLimiter.Level>,
    circuits: Router.Circuits,
    responses: ResponseCache.Store)

  // ----- Up to the body: policy, kill switch, rate limit -----

  datatype Gate =
    | NotProvisioned
    | Blocked(policy: TenantPolicy)
    | OverQuota(policy: TenantPolicy)
    | Admitted(policy: TenantPolicy)

  /** The clock as the gate reads it: at the snapshot check, at the stamp of a fetched snapshot, at the limiter. */
  datatype Clock = Clock(checkAt: real, stampAt: real, limitAt: real)

  function Resolve(cfg: Config, s: Shared, tenant: string, clock: Clock)
    : (PolicyCache.Snapshots, Option<TenantPolicy>)
  {
    PolicyCache.Fetch(s.policies, s.snapshots, cfg.policyTtl, tenant, clock.checkAt, clock.stampAt)
  }

  function Admit(cfg: Config, s: Shared, id: Identity, clock: Clock): (Shared, Gate) {
    var (snapshots, found) := Resolve(cfg, s, id.tenant, clock);
    match found
    case None => (s.(snapshots := snapshots), NotProvisioned)
    case Some(policy) =>
      if Blocking(policy.state) then (s.(snapshots := snapshots), Blocked(policy)) else
      var visit := RateLimiter.Visit(EffectiveLimit(policy), clock.limitAt);
      var (level, allowed) := RateLimiter.Serve(Lookup(s.levels, policy.tenantId), visit);
      (s.(snapshots := snapshots, levels := s.levels[policy.tenantId := level]),
       if allowed then Admitted(policy) else OverQuota(policy))
  }

  // ----- From the body on -----

  datatype Chat = Chat(model: Option<string>, messages: seq<Message>, maxTokens: int, temperature: Json.Token,
                       stream: bool)

  datatype Body = Unreadable | Invalid | Parsed(chat: Chat)

  /**
   * What a request meets once it goes on: verdicts, replies, the clock at each stage, and
   * the upstream and client of its stream.
   */
  datatype World = World(
    inputVerdict: Verdict,
    outputVerdict: string -> Verdict,
    permitAt: real,
    readAt: real,
    legs: Router.Legs,
    writtenAt: real,
    answer: Streaming.Answer)

  /** A chat request that passed the input guardrail, and the verdict it passed on. */
  datatype Asked = Asked(chat: Chat, verdict: Verdict, request: Request)

  datatype Reply =
    | Denied
    | BadBody
    | ModelNotAllowed
    | InputRejected
    | CircuitOpen
    | Hit(cached: ResponseCache.CachedResponse, readAt: real)
    | UpstreamFailed(error: BedrockClient.InvocationError)
    | AllRoutesUnavailable
    | OutputRejected
    | Fresh(response: ResponseCache.CachedResponse, verdict: Verdict, writtenAt: real)
    | Streamed(frames: seq<Sse.Frame>, outcome: Option<Streaming.Outcome>)

  /** The model allowlist, then the input guardrail. */
  function Prepare(cfg: Config, id: Identity, policy: TenantPolicy, chat: Chat, verdict: Verdict)
    : Result<Asked, Reply>
  {
    match ResolveModel(policy, chat.model, cfg.defaultModel)
    case None => Failure(ModelNotAllowed)
    case Some(model) =>
      if Proceeds(Screen(policy, verdict)) then
        Success(Asked(chat, verdict, Request(id.tenant, id.application, policy, model, chat.maxTokens,
                                             chat.temperature, chat.messages)))
      else
        Failure(InputRejected)
  }

  /** The router's loop for a request. */
  function TourOf(cfg: Config, s: Shared, r: Request, world: World): Router.Tour {
    Router.Tour(cfg.router, s.circuits, Router.Candidates(cfg.router.routeSets, r.modelId, r.policy.routeSet),
                world.legs)
  }

  function ToCache(result: BedrockClient.ConverseResult, model: string): ResponseCache.CachedResponse {
    var c := result.completion;
    ResponseCache.CachedResponse(c.text, c.stopReason, c.inputTokens, c.outputTokens, model)
  }

  /** What the router's outcome becomes: the output guardrail's decision on a text, an error otherwise. */
  function Conclude(policy: TenantPolicy, outcome: Router.Outcome, world: World): (reply: Reply)
    ensures !reply.Hit? && !reply.Streamed?
  {
    match outcome
    case Routed(result, model, _) =>
      var verdict := world.outputVerdict(result.completion.text);
      if Proceeds(Screen(policy, verdict)) then Fresh(ToCache(result, model), verdict, world.writtenAt)
      else OutputRejected
    case Failed(error) => UpstreamFailed(error)
    case AllRoutesUnavailable => AllRoutesUnavailable
  }

  function LookUp(cfg: Config, s: Shared, r: Request, world: World)
    : (ResponseCache.Store, Option<ResponseCache.CachedResponse>)
  {
    ResponseCache.Get(cfg.cache, s.responses, Build(r), world.readAt)
  }

  /** What the router leaves behind: its outcome, the circuits, and the upstream calls made. */
  datatype Routing = Routing(outcome: Router.Outcome, circuits: Router.Circuits, calls: nat)

  function RouterRun(t: Router.Tour): Routing {
    Routing(Router.Route(t), Router.CircuitsAfter(t, Router.Visited(Router.Visits(t))), Router.TotalCalls(t))
  }

  /** A fresh answer is written to the cache; no other reply is. */
  function CacheWrite(cfg: Config, responses: ResponseCache.Store, r: Request, reply: Reply): ResponseCache.Store {
    if reply.Fresh? then ResponseCache.Set(cfg.cache, responses, Build(r), reply.response, reply.writtenAt)
    else responses
  }

  /** Output guardrail and cache write once the router is done. */
  function Settle(cfg: Config, s: Shared, r: Request, routing: Routing, world: World): (Shared, Reply) {
    var reply := Conclude(r.policy, routing.outcome, world);
    (s.(responses := CacheWrite(cfg, s.responses, r, reply), circuits := routing.circuits), reply)
  }

  /** Cache, router, output guardrail, cache write; with the upstream calls made. */
  function Complete(cfg: Config, s: Shared, r: Request, world: World): (result: (Shared, Reply, nat))
    ensures SamePlane(result.0, s)
  {
    var (responses, cached) := LookUp(cfg, s, r, world);
    match cached
    case Some(response) => (s.(responses := responses), Hit(response, world.readAt), 0)
    case None =>
      var routing := RouterRun(TourOf(cfg, s, r, world));
      var (next, reply) := Settle(cfg, s.(responses := responses), r, routing, world);
      (next, reply, routing.calls)
  }

  /** How long the request's router sleeps between upstream calls. */
  function RequestSleep(cfg: Config, s: Shared, r: Request, world: World): BedrockClient.Seconds {
    if LookUp(cfg, s, r, world).1.Some? then 0.0 else Router.TotalSleep(TourOf(cfg, s, r, world))
  }

  /** Policies, snapshots and rate limits are the same. */
  predicate SamePlane(s: Shared, t: Shared) {
    s.policies == t.policies && s.snapshots == t.snapshots && s.levels == t.levels
  }

  // ----- Requests and steps -----

  datatype Phase = Waiting | Open(stream: Streaming.Stream) | Ended(reply: Reply)

  /**
   * One chat request: who, what the gate decided, what was asked, where it stands, and the
   * upstream calls it has started.
   */
  datatype Conversation = Conversation(identity: Identity, gate: Gate, asked: Option<Asked>, phase: Phase, calls: nat)

  datatype State = State(shared: Shared, chats: map<nat, Conversation>)

  datatype Step =
    | Arrive(identity: Identity, clock: Clock)
    | Resume(id: nat, body: Body, world: World)
    | Advance(id: nat, at: real)
    | Administer(flip: Flip)

  function Arrived(id: Identity, gate: Gate): Conversation {
    Conversation(id, gate, None, if gate.Admitted? then Waiting else Ended(Denied), 0)
  }

  function Opened(answer: Streaming.Answer): Phase {
    Open(Streaming.Playback(answer, Streaming.Unstarted))
  }

  function Permitted(cfg: Config, s: Shared, model: string, at: real): (Shared, bool) {
    var (circuit, allowed) := Breaker.Permit(cfg.router.breaker, Breaker.Entry(s.circuits, model), at);
    (s.(circuits := s.circuits[model := circuit]), allowed)
  }

  function Resumed(cfg: Config, s: Shared, c: Conversation, body: Body, world: World): (result: (Shared, Conversation))
    requires c.gate.Admitted?
    ensures SamePlane(result.0, s)
  {
    match body
    case Unreadable => (s, c.(phase := Ended(BadBody)))
    case Invalid => (s, c.(phase := Ended(BadBody)))
    case Parsed(chat) =>
      match Prepare(cfg, c.identity, c.gate.policy, chat, world.inputVerdict)
      case Failure(reply) => (s, c.(phase := Ended(reply)))
      case Success(asked) =>
        if chat.stream then
          var (next, allowed) := Permitted(cfg, s, asked.request.modelId, world.permitAt);
          (next, c.(asked := Some(asked), phase := if allowed then Opened(world.answer) else Ended(CircuitOpen)))
        else
          var (next, reply, calls) := Complete(cfg, s, asked.request, world);
          (next, c.(asked := Some(asked), phase := Ended(reply), calls := calls))
  }

  /** The upstream stream is opened by its first pull; every later resumption only goes on. */
  function Pulled(c: Conversation): Conversation
    requires c.phase.Open?
  {
    if c.phase.stream.stage.Unstarted? then c.(calls := c.calls + 1) else c
  }

  /** A stream goes on; when it is over its outcome, if it has one, is recorded for its model. */
  function Advanced(cfg: Config, s: Shared, c: Conversation, at: real): (Shared, Conversation)
    requires c.phase.Open? && c.asked.Some?
  {
    match Streaming.Advance(c.phase.stream)
    case Paused(next) => (s, Pulled(c).(phase := Open(next)))
    case Over(played) =>
      var model := c.asked.value.request.modelId;
      (s.(circuits := Streaming.Record(cfg.router.breaker, s.circuits, model, played.recorded, at)),
       Pulled(c).(phase := Ended(Streamed(played.frames, played.recorded))))
  }

  /** An admin flip and its push to the snapshot cache; an unknown tenant changes nothing. */
  function Administered(s: Shared, flip: Flip): Shared {
    if flip.tenant in s.policies then
      s.(policies := WithState(s.policies, flip.tenant, flip.state), snapshots := s.snapshots - {flip.tenant})
    else s
  }

  /** Step n of a run. */
  function Next(cfg: Config, s: State, n: nat, step: Step): State {
    match step
    case Arrive(id, clock) =>
      var (shared, gate) := Admit(cfg, s.shared, id, clock);
      State(shared, s.chats[n := Arrived(id, gate)])
    case Resume(r, body, world) =>
      if r in s.chats && s.chats[r].phase.Waiting? && s.chats[r].gate.Admitted? then
        var (shared, c) := Resumed(cfg, s.shared, s.chats[r], body, world);
        State(shared, s.chats[r := c])
      else s
    case Advance(r, at) =>
      if r in s.chats && s.chats[r].phase.Open? && s.chats[r].asked.Some? then
        var (shared, c) := Advanced(cfg, s.shared, s.chats[r], at);
        State(shared, s.chats[r := c])
      else s
    case Administer(flip) => s.(shared := Administered(s.shared, flip))
  }

  function Initial(start: Policies): Shared {
    Shared(start, map[], map[], map[], ResponseCache.EMPTY)
  }

  /** A run: the settings, the policies it starts from, and its steps. */
  datatype Run = Run(cfg: Config, start: Policies, steps: seq<Step>)

  /** The state after the first n steps. */
  function After(run: Run, n: nat): State
    requires n <= |run.steps|
  {
    if n == 0 then State(Initial(run.start), map[]) else Next(run.cfg, After(run, n - 1), n - 1, run.steps[n - 1])
  }

  /** Every policy stands under its own tenant's name. */
  predicate WellKeyed(policies: Policies) {
    forall tenant | tenant in policies :: policies[tenant].tenantId == tenant
  }
}
