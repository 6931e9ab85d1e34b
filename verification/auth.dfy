/**
 * The authentication middleware: it turns the caller's verified claims into
 * a request context that carries the caller's namespace and pod, and only
 * then calls the wrapped handler. Token verification is an oracle: the
 * middleware receives its answer, the claims or an error message.
 */
module Auth {
  import opened Common

  /**
   * Context keys: the two the bridge stores values under, and the keys of
   * any other values the request context already carries.
   */
  datatype ContextKey = NamespaceKey | PodKey | OtherKey(id: string)

  /** The values a request context carries under the bridge's keys. */
  type Context = map<ContextKey, string>

  /**
   * The parts of a verified token's claims the bridge reads: the
   * `kubernetes.io` claim, absent from a token that has none. Its `pod`
   * sub-claim, the pod's name, is absent from a token not bound to a pod.
   */
  datatype Claims = Claims(kubernetes: Option<KubernetesClaims>)

  datatype KubernetesClaims = KubernetesClaims(namespace: string, pod: Option<string>)

  /**
   * Whether the claims carry both pointers the handlers follow without a
   * nil check; reading the namespace or the pod name of other claims panics.
   */
  predicate PodBound(c: Claims)
  {
    c.kubernetes.Some? && c.kubernetes.value.pod.Some?
  }

  function ClaimedNamespace(c: Claims): string
    requires PodBound(c)
  {
    c.kubernetes.value.namespace
  }

  function ClaimedPod(c: Claims): string
    requires PodBound(c)
  {
    c.kubernetes.value.pod.value
  }

  /** A derived context with `value` stored under `key` (context.WithValue). */
  function WithValue(ctx: Context, key: ContextKey, value: string): Context
  {
    ctx[key := value]
  }

  /** The namespace stored in the context; reading an absent value panics in the code. */
  function GetNamespace(ctx: Context): string
    requires NamespaceKey in ctx
  {
    ctx[NamespaceKey]
  }

  /** The pod name stored in the context; reading an absent value panics in the code. */
  function GetPod(ctx: Context): string
    requires PodKey in ctx
  {
    ctx[PodKey]
  }

  /** Storing under one key leaves the value under the other key as it was. */
  lemma KeysIndependent(ctx: Context, value: string)
    ensures NamespaceKey in ctx ==> GetNamespace(WithValue(ctx, PodKey, value)) == GetNamespace(ctx)
    ensures PodKey in ctx ==> GetPod(WithValue(ctx, NamespaceKey, value)) == GetPod(ctx)
    ensures GetNamespace(WithValue(ctx, NamespaceKey, value)) == value
    ensures GetPod(WithValue(ctx, PodKey, value)) == value
  {
  }

  /** The context the middleware hands on: the caller's namespace, then the caller's pod. */
  function ScopeContext(ctx: Context, namespace: string, podName: string): (r: Context)
    ensures NamespaceKey in r && PodKey in r
    ensures GetNamespace(r) == namespace
    ensures GetPod(r) == podName
    ensures r.Keys == ctx.Keys + {NamespaceKey, PodKey}
    // every other value of the request context is handed on unchanged
    ensures forall k :: k in ctx && k != NamespaceKey && k != PodKey ==> r[k] == ctx[k]
  {
    WithValue(WithValue(ctx, NamespaceKey, namespace), PodKey, podName)
  }

  /** Variables the router extracted from the request path. */
  type Vars = map<string, string>

  /**
   * What the wrapped handler does: the response written by the middleware,
   * a panic on a missing claim (net/http recovers it and drops the
   * connection), or the handler's call and result.
   */
  datatype Wrapped<W, R> =
    | Rejected(status: int, message: string)
    | Panicked
    | Invoked(ctx: Context, w: W, r: R, vars: Vars, result: Option<Error>)

  const StatusUnauthorized: int := 401

  /**
   * The middleware around `handler`: without claims it answers 401 with the
   * verification error and never calls the handler; with claims that lack
   * the `kubernetes.io` claim or its pod it panics; otherwise it calls the
   * handler once, with the same writer, request and variables and a context
   * scoped to the caller's namespace and pod that keeps every other value of
   * the request context, and returns what it returns.
   */
  function WrapHandler<W(==), R(==)>(
    handler: (Context, W, R, Vars) -> Option<Error>,
    claims: Result<Claims, string>,
    ctx: Context, w: W, r: R, vars: Vars): (res: Wrapped<W, R>)
    ensures res.Rejected? <==> claims.Failure?
    ensures res.Rejected? ==> res.status == StatusUnauthorized && res.message == claims.error
    ensures res.Panicked? <==> claims.Success? && !PodBound(claims.value)
    ensures res.Invoked? ==>
      && claims.Success? && PodBound(claims.value)
      && res.w == w && res.r == r && res.vars == vars
      && NamespaceKey in res.ctx && PodKey in res.ctx
      && GetNamespace(res.ctx) == ClaimedNamespace(claims.value)
      && GetPod(res.ctx) == ClaimedPod(claims.value)
      && (forall k :: k in ctx && k != NamespaceKey && k != PodKey ==> k in res.ctx && res.ctx[k] == ctx[k])
      && res.result == handler(res.ctx, w, r, vars)
  {
    match claims
    case Failure(msg) => Rejected(StatusUnauthorized, msg)
    case Success(c) =>
      if !PodBound(c) then Panicked
      else
        var scoped := ScopeContext(ctx, ClaimedNamespace(c), ClaimedPod(c));
        Invoked(scoped, w, r, vars, handler(scoped, w, r, vars))
  }
}
