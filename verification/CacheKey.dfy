/**
 * The key of the response cache (services/gateway/cache/keys.py): the canonical JSON text
 * of what a request asks for.  The source hashes that text with SHA-256; here the text
 * itself is the key, which is the assumption that the digest does not collide.
 */
module CacheKey {
  import opened Wrappers
  import opened PolicyStore
  import opened Json

  datatype Message = Message(role: string, content: string)

  /** What `build_cache_key` is given. */
  datatype Request = Request(
    tenantId: string,
    applicationId: string,
    policy: TenantPolicy,
    modelId: string,
    maxTokens: int,
    temperature: Token,
    messages: seq<Message>)

  /** `policy.route_set or "default"`. */
  function RouteId(routeSet: Option<string>): string {
    match routeSet
    case None => "default"
    case Some(name) => if name == "" then "default" else name
  }

  function MessageItems(messages: seq<Message>): Items {
    if messages == [] then EndItems else
    var m := messages[0];
    Item(Object(Member("content", Text(m.content), Member("role", Text(m.role), EndMembers))),
         MessageItems(messages[1..]))
  }

  /** The payload with its keys in sorted order, as `sort_keys=True` prints them. */
  function Payload(r: Request): Members {
    Member("application_id", Text(r.applicationId),
    Member("guardrail_version", Text(r.policy.guardrailPolicy),
    Member("inference_parameters",
           Object(Member("max_tokens", Int(r.maxTokens), Member("temperature", Number(r.temperature), EndMembers))),
    Member("model_route_id", Text(RouteId(r.policy.routeSet)),
    Member("model_version", Text(r.modelId),
    Member("normalized_messages", Array(MessageItems(r.messages)),
    Member("policy_epoch", Int(r.policy.policyEpoch),
    Member("prompt_template_version", Null,
    Member("retrieval_context_hash", Null,
    Member("tenant_id", Text(r.tenantId),
    Member("tool_schema_version", Null, EndMembers)))))))))))
  }

  function Build(r: Request): string {
    Dumps(COMPACT, Object(Payload(r)))
  }

  lemma {:induction false} MessagesInjective(a: seq<Message>, b: seq<Message>)
    requires MessageItems(a) == MessageItems(b)
    ensures a == b
  {
    if a != [] {
      MessagesInjective(a[1..], b[1..]);
      assert a == [a[0]] + a[1..] && b == [b[0]] + b[1..];
    }
  }

  /** Two route sets are keyed alike: no name and an empty name count as "default". */
  predicate SameRoute(a: Option<string>, b: Option<string>) {
    a == b || (a in {None, Some(""), Some("default")} && b in {None, Some(""), Some("default")})
  }

  /** Two requests share a key exactly when they agree on everything the key is meant to tell apart. */
  lemma KeyIsUnambiguous(a: Request, b: Request)
    ensures Build(a) == Build(b)
            <==> (&& a.tenantId == b.tenantId
                  && a.applicationId == b.applicationId
                  && SameRoute(a.policy.routeSet, b.policy.routeSet)
                  && a.modelId == b.modelId
                  && a.maxTokens == b.maxTokens
                  && a.temperature == b.temperature
                  && a.policy.guardrailPolicy == b.policy.guardrailPolicy
                  && a.policy.policyEpoch == b.policy.policyEpoch
                  && a.messages == b.messages)
  {
    if Build(a) == Build(b) {
      DumpsInjective(COMPACT, Object(Payload(a)), Object(Payload(b)));
      PayloadInjective(a, b);
    }
  }

  lemma PayloadInjective(a: Request, b: Request)
    requires Payload(a) == Payload(b)
    ensures a.tenantId == b.tenantId && a.applicationId == b.applicationId && a.modelId == b.modelId
    ensures RouteId(a.policy.routeSet) == RouteId(b.policy.routeSet)
    ensures a.maxTokens == b.maxTokens && a.temperature == b.temperature && a.messages == b.messages
    ensures a.policy.guardrailPolicy == b.policy.guardrailPolicy && a.policy.policyEpoch == b.policy.policyEpoch
  {
    assert Int(a.maxTokens) == Int(b.maxTokens) && Int(a.policy.policyEpoch) == Int(b.policy.policyEpoch);
    IntTextInjective(a.maxTokens, b.maxTokens);
    IntTextInjective(a.policy.policyEpoch, b.policy.policyEpoch);
    MessagesInjective(a.messages, b.messages);
  }
}
