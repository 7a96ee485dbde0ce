/** Facts that hold of the running gateway because startup validated its
    configuration before either credential check could run. */
module Gateway {
  import opened Wrappers
  import opened Config
  import opened Auth

  /** Once startup has gone on to listen, the key is non-empty, so neither
      an empty `auth` query nor a bare `Bearer ` header nor a request with
      no credentials gets through either check. */
  lemma EmptyCredentialsRejected<S>(env: Env, stats: S)
    requires Resolve(env).Listening?
    ensures var key := Resolve(env).settings.authKey;
      && !AllowRequest(Request(None, None), key).success
      && !AllowRequest(Request(None, Some("")), key).success
      && !AllowRequest(Request(Some("Bearer "), None), key).success
      && StatsRoute(Request(Some("Bearer "), Some("")), key, stats).status == 401
  {
    var key := Resolve(env).settings.authKey;
    assert Bearer(key) != "Bearer " by {
      assert |Bearer(key)| > 7;
    }
  }

  /** With the configured key, the request `Authorization: Bearer <key>`
      passes both checks, and `/stats` returns the coordinator's statistics
      as they are. */
  lemma ConfiguredKeyAccepted<S>(env: Env, query: Option<string>, stats: S)
    requires Resolve(env).Listening?
    ensures var key := Resolve(env).settings.authKey;
      var req := Request(Some("Bearer " + env.authKey.value), query);
      && UpgradeDecision(req, key) == Accepted(Header)
      && StatsRoute(req, key, stats) == StatsReply(200, StatsBody(stats), 1)
  {
  }
}
