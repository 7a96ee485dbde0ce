/** The two credential checks of the gateway: the `/stats` route, which reads
    only the `Authorization` header, and the real-time upgrade gate, which
    reads the header first and falls back to the `auth` query parameter. */
module Auth {
  import opened Wrappers

  /** The credentials one request carries, as already extracted: the raw
      `Authorization` header and the `auth` query parameter, each of which
      may be absent. */
  datatype Request = Request(authorization: Option<string>, authQuery: Option<string>)

  /** The only header value either check accepts. */
  function Bearer(key: string): (h: string)
    ensures |h| == |key| + 7 && h[..7] == "Bearer " && h[7..] == key
  {
    "Bearer " + key
  }

  predicate HeaderMatches(req: Request, key: string) {
    req.authorization == Some(Bearer(key))
  }

  predicate QueryMatches(req: Request, key: string) {
    req.authQuery == Some(key)
  }

  // ---------------------------------------------------------------------
  // GET /stats
  // ---------------------------------------------------------------------

  datatype Body<S> = ErrorBody(error: string) | StatsBody(stats: S)

  /** What the route sends back, and how many times it asked the room
      coordinator for its statistics while answering. */
  datatype StatsReply<S> = StatsReply(status: nat, body: Body<S>, getStatsCalls: nat)

  /** The `/stats` handler. `stats` stands for the value the room
      coordinator's `getStats()` would return; the reply counts the call. */
  function StatsRoute<S>(req: Request, key: string, stats: S): (r: StatsReply<S>)
    ensures r.status == 200 <==> HeaderMatches(req, key)
    ensures r.status != 200 ==> r == StatsReply(401, ErrorBody("Unauthorized"), 0)
    ensures r.status == 200 ==> r.body == StatsBody(stats) && r.getStatsCalls == 1
  {
    if req.authorization != Some(Bearer(key)) then
      StatsReply(401, ErrorBody("Unauthorized"), 0)
    else
      StatsReply(200, StatsBody(stats), 1)
  }

  // ---------------------------------------------------------------------
  // Socket.IO allowRequest
  // ---------------------------------------------------------------------

  datatype Source = Header | Query

  /** Which credential let the attempt in, if any. */
  datatype Decision = Accepted(via: Source) | Rejected

  /** The upgrade gate's decision, header first, query as the fallback. */
  function UpgradeDecision(req: Request, key: string): (d: Decision)
    ensures d.Accepted? <==> HeaderMatches(req, key) || QueryMatches(req, key)
  {
    if req.authorization == Some(Bearer(key)) then Accepted(Header)
    else if req.authQuery == Some(key) then Accepted(Query)
    else Rejected
  }

  /** The arguments `allowRequest` hands to the transport's callback. */
  datatype Callback = Callback(err: Option<string>, success: bool)

  /** `allowRequest`: `(null, true)` on acceptance, `('Unauthorized', false)`
      otherwise. */
  function AllowRequest(req: Request, key: string): (cb: Callback)
    ensures cb.success <==> HeaderMatches(req, key) || QueryMatches(req, key)
    ensures cb.success <==> cb.err.None?
    ensures !cb.success ==> cb.err == Some("Unauthorized")
  {
    match UpgradeDecision(req, key)
    case Accepted(_) => Callback(None, true)
    case Rejected => Callback(Some("Unauthorized"), false)
  }

  /** A matching header decides the attempt, whatever the query says. */
  lemma HeaderFirst(req: Request, key: string)
    requires HeaderMatches(req, key)
    ensures forall q :: UpgradeDecision(req.(authQuery := q), key) == Accepted(Header)
  {
  }

  /** Without a matching header the query alone decides: the attempt is
      accepted through it exactly when it equals the key. */
  lemma QueryFallback(req: Request, key: string)
    requires !HeaderMatches(req, key)
    ensures UpgradeDecision(req, key) == Accepted(Query) <==> QueryMatches(req, key)
    ensures UpgradeDecision(req, key) != Accepted(Header)
    ensures AllowRequest(req, key).success <==> QueryMatches(req, key)
  {
  }

  /** A request with neither credential never passes either check. */
  lemma NoCredentialsRejected(key: string)
    ensures !AllowRequest(Request(None, None), key).success
    ensures StatsRoute(Request(None, None), key, ()).status == 401
  {
  }

  /** Every rejection looks the same to the client: neither the reply of
      `/stats` nor the callback of the gate depends on what was sent. */
  lemma RejectionsAreOpaque<S>(a: Request, b: Request, keyA: string, keyB: string, sa: S, sb: S)
    ensures !AllowRequest(a, keyA).success && !AllowRequest(b, keyB).success ==>
      AllowRequest(a, keyA) == AllowRequest(b, keyB)
    ensures StatsRoute(a, keyA, sa).status == 401 && StatsRoute(b, keyB, sb).status == 401 ==>
      StatsRoute(a, keyA, sa) == StatsRoute(b, keyB, sb)
  {
  }

  /** `/stats` ignores the query: two requests with the same header get the
      same reply. */
  lemma StatsIgnoresQuery<S>(req: Request, q: Option<string>, key: string, stats: S)
    ensures StatsRoute(req.(authQuery := q), key, stats) == StatsRoute(req, key, stats)
  {
  }

  /** The asymmetry between the two checks: whatever `/stats` accepts, the
      gate accepts too, but a correct `auth` query alone passes the gate and
      is refused by `/stats`. */
  lemma StatsStricterThanGate<S>(req: Request, key: string, stats: S)
    ensures StatsRoute(req, key, stats).status == 200 ==> AllowRequest(req, key).success
    ensures var queryOnly := Request(None, Some(key));
      AllowRequest(queryOnly, key).success && StatsRoute(queryOnly, key, stats).status == 401
  {
  }
}
