/** The configuration and its validation: where the positivity of every price comes from. */
module Config {
  import opened Wrappers
  import opened Pricing

  datatype CurveConfig = CurveConfig(
    floorTollSats: int, anonymousCap: int, escalationSlope: int, enrollmentStakeSats: int)

  datatype RateLimitConfig = RateLimitConfig(requestsPerSecond: real, burst: int)

  datatype LndConfig = LndConfig(host: string, tlsCertPath: string, macaroonPath: string)

  datatype BitcoindConfig = BitcoindConfig(host: string, rpcUser: string, rpcPass: string, minConfirmations: int)

  datatype RouteConfig = RouteConfig(pathPrefix: string, upstream: string, priceSats: int)

  datatype Config = Config(
    listenAddr: string,
    lnd: Option<LndConfig>,
    bitcoind: Option<BitcoindConfig>,
    rateLimit: Option<RateLimitConfig>,
    curve: Option<CurveConfig>,
    routes: seq<RouteConfig>)

  /** The error that validate returns first, named by the field it complains about. */
  function Complaint(cfg: Config): Option<string> {
    if cfg.listenAddr == "" then Some("listen_addr")
    else if cfg.lnd.None? && cfg.bitcoind.None? then Some("no backend")
    else if cfg.lnd.Some? && cfg.bitcoind.Some? then Some("two backends")
    else if cfg.lnd.Some? && cfg.lnd.value.host == "" then Some("lnd.host")
    else if cfg.lnd.Some? && cfg.lnd.value.tlsCertPath == "" then Some("lnd.tls_cert_path")
    else if cfg.lnd.Some? && cfg.lnd.value.macaroonPath == "" then Some("lnd.macaroon_path")
    else if cfg.bitcoind.Some? && cfg.bitcoind.value.host == "" then Some("bitcoind.host")
    else if cfg.bitcoind.Some? && cfg.bitcoind.value.rpcUser == "" then Some("bitcoind.rpc_user")
    else if cfg.bitcoind.Some? && cfg.bitcoind.value.rpcPass == "" then Some("bitcoind.rpc_password")
    else if cfg.bitcoind.Some? && cfg.bitcoind.value.minConfirmations < 0 then Some("bitcoind.min_confirmations")
    else if cfg.rateLimit.Some? && cfg.rateLimit.value.requestsPerSecond <= 0.0 then
      Some("rate_limit.requests_per_second")
    else if cfg.rateLimit.Some? && cfg.rateLimit.value.burst <= 0 then Some("rate_limit.burst")
    else if cfg.curve.Some? && cfg.curve.value.floorTollSats <= 0 then Some("curve.floor_toll_sats")
    else if cfg.curve.Some? && cfg.curve.value.anonymousCap <= 0 then Some("curve.anonymous_cap")
    else if cfg.curve.Some? && cfg.curve.value.escalationSlope <= 0 then Some("curve.escalation_slope")
    else if cfg.curve.Some? && cfg.curve.value.enrollmentStakeSats <= 0 then Some("curve.enrollment_stake_sats")
    else if cfg.curve.Some? && cfg.bitcoind.Some? then Some("curve needs lnd")
    else if cfg.routes == [] then Some("routes")
    else RouteComplaint(cfg.routes)
  }

  function RouteComplaint(routes: seq<RouteConfig>): Option<string> {
    if routes == [] then None
    else if routes[0].pathPrefix == "" then Some("path_prefix")
    else if routes[0].upstream == "" then Some("upstream")
    else if routes[0].priceSats <= 0 then Some("price_sats")
    else RouteComplaint(routes[1..])
  }

  /** The Go types of the price fields. */
  predicate InRange(c: CurveConfig) {
    c.floorTollSats <= MAX_INT64 && c.escalationSlope <= MAX_INT64 && c.enrollmentStakeSats <= MAX_INT64
  }

  /** What the metered handler relies on. */
  predicate Sound(c: CurveConfig) {
    c.floorTollSats > 0 && c.anonymousCap > 0 && c.escalationSlope > 0 && c.enrollmentStakeSats > 0 && InRange(c)
  }

  lemma {:induction false} RoutesArePriced(routes: seq<RouteConfig>, i: nat)
    requires RouteComplaint(routes).None? && i < |routes|
    ensures routes[i].priceSats > 0 && routes[i].pathPrefix != "" && routes[i].upstream != ""
  {
    if i > 0 { RoutesArePriced(routes[1..], i - 1); }
  }

  predicate GoodRoute(r: RouteConfig) {
    r.pathPrefix != "" && r.upstream != "" && r.priceSats > 0
  }

  predicate GoodBackend(cfg: Config) {
    match (cfg.lnd, cfg.bitcoind)
    case (Some(l), None) => l.host != "" && l.tlsCertPath != "" && l.macaroonPath != ""
    case (None, Some(b)) =>
      b.host != "" && b.rpcUser != "" && b.rpcPass != "" && b.minConfirmations >= 0 && cfg.curve.None?
    case _ => false
  }

  predicate GoodCurve(c: CurveConfig) {
    c.floorTollSats > 0 && c.anonymousCap > 0 && c.escalationSlope > 0 && c.enrollmentStakeSats > 0
  }

  lemma {:induction false} RoutesAreGoodIff(routes: seq<RouteConfig>)
    ensures RouteComplaint(routes).None? <==> forall i :: 0 <= i < |routes| ==> GoodRoute(routes[i])
  {
    if routes == [] {
    } else {
      RoutesAreGoodIff(routes[1..]);
      assert forall i :: 0 <= i < |routes[1..]| ==> routes[1..][i] == routes[i + 1];
      if forall i :: 0 <= i < |routes| ==> GoodRoute(routes[i]) {
        forall i | 0 <= i < |routes[1..]| ensures GoodRoute(routes[1..][i]) { assert GoodRoute(routes[i + 1]); }
      }
      if RouteComplaint(routes).None? {
        forall i | 0 <= i < |routes| ensures GoodRoute(routes[i]) {
          if i > 0 { assert GoodRoute(routes[1..][i - 1]); }
        }
      }
    }
  }

  /** No complaint is made about sound configurations, and only about others. */
  lemma NoComplaintIff(cfg: Config)
    ensures Complaint(cfg).None? <==>
            && cfg.listenAddr != "" && GoodBackend(cfg)
            && (cfg.rateLimit.Some? ==> cfg.rateLimit.value.requestsPerSecond > 0.0 && cfg.rateLimit.value.burst > 0)
            && (cfg.curve.Some? ==> GoodCurve(cfg.curve.value))
            && cfg.routes != [] && forall i :: 0 <= i < |cfg.routes| ==> GoodRoute(cfg.routes[i])
  {
    RoutesAreGoodIff(cfg.routes);
  }

  /** A configuration without complaint prices everything above zero, and meters only over Lightning. */
  lemma ValidatedIsSound(cfg: Config)
    requires Complaint(cfg).None? && (cfg.curve.Some? ==> InRange(cfg.curve.value))
    ensures cfg.curve.Some? ==> Sound(cfg.curve.value) && cfg.lnd.Some?
    ensures forall i :: 0 <= i < |cfg.routes| ==> cfg.routes[i].priceSats > 0
    ensures cfg.lnd.Some? != cfg.bitcoind.Some?
    ensures cfg.rateLimit.Some? ==> cfg.rateLimit.value.requestsPerSecond > 0.0 && cfg.rateLimit.value.burst > 0
  {
    forall i | 0 <= i < |cfg.routes| ensures cfg.routes[i].priceSats > 0 { RoutesArePriced(cfg.routes, i); }
  }
}
