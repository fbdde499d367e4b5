/**
 The JavaScript client's engine against the metered proxy: one honest client that
 pays what it is asked, from one address, one call after the other, while the
 proxy sweeps its anonymous counters and limits challenges as it pleases.
*/
module Client {
  import opened Wrappers
  import opened Stores
  import opened Pricing
  import opened Config
  import opened Credentials
  import opened Encodings
  import opened Wire
  import opened Metered
  import opened Names
  import opened ProxyHandler

  /** Where lnd's payment hashes and the proxy's random identifiers come from. */
  datatype Supply = Supply(key: set<string> -> string, principal: set<string> -> string)

  ghost predicate Fresh(supply: Supply) {
    forall taken: set<string> :: supply.key(taken) !in taken && supply.principal(taken) !in taken
  }

  /**
   The proxy, the page's sessionStorage and what the client has done so far.  When
   storage is not usable, setting it is silently ignored and reading it gives null.
  */
  datatype World = World(
    server: State, storage: bool, stored: Option<Macaroon>, fetches: nat, payments: nat, paid: int)

  /**
   What one round of the engine meets: whether the anonymous counters have been
   swept since the last challenge (an enrollment payment does not look at them, so
   it makes no difference on which side of it), whether the proxy has been
   restarted since the last round, and whether the rate limiter lets a request for
   a challenge pass.
  */
  datatype Weather = Weather(swept: bool, restarted: bool, allowed: bool)

  const CALM := Weather(false, false, true)

  function Calm(rounds: nat): seq<Weather> {
    seq(rounds, _ => CALM)
  }

  /** A call that is still recursing when its rounds are over yields no response. */
  datatype Ending = Response(r: Metered.Response) | StillRunning

  /** Nothing fails; the limiter's verdict matters to requests for a challenge only. */
  function EnvOf(supply: Supply, s: State, allowed: bool): Env {
    Env(supply.key(s.invoices.Keys), supply.principal(Identifiers(s.minted)), allowed, false, false,
        NoFault, NoFault, false)
  }

  function StoredCredential(w: World): Presented {
    if w.storage && w.stored.Some? then Credential(w.stored.value) else NoCredential
  }

  function Fetch(
    c: CurveConfig, supply: Supply, w: World, ip: string, allowed: bool, credential: Presented, token: TokenView)
    : (World, Metered.Response)
  {
    var (server, r) := Serve(c, w.server, Request(ip, credential, token), EnvOf(supply, w.server, allowed));
    (w.(server := server, fetches := w.fetches + 1), r)
  }

  /** The wallet pays the invoice and has the preimage. */
  function Pay(c: CurveConfig, w: World, key: string, price: int): World {
    w.(server := Step(c, w.server, Settle(key)), payments := w.payments + 1, paid := w.paid + price)
  }

  function Under(c: CurveConfig, w: World, weather: Weather): World {
    var server := if weather.swept then Step(c, w.server, SweepAnonymous) else w.server;
    w.(server := if weather.restarted then Step(c, server, Restart) else server)
  }

  /** One round of engine: fetch, pay if challenged, fetch again with the same credential. */
  function Round(c: CurveConfig, supply: Supply, w: World, ip: string, allowed: bool)
    : (World, Metered.Response, Option<Metered.Response>)
  {
    var credential := StoredCredential(w);
    var (w1, challenge) := Fetch(c, supply, w, ip, allowed, credential, NoToken);
    if !challenge.TollChallenge? && !challenge.EnrollmentChallenge? then (w1, challenge, None)
    else
      var w2 := Pay(c, w1, challenge.key, challenge.price);
      var (w3, answer) := Fetch(c, supply, w2, ip, allowed, credential, Token(challenge.key, true));
      (w3, challenge, Some(answer))
  }

  /**
   engine, for as many rounds as there is weather.  A successful answer to an
   enrollment challenge runs it again, whether or not the credential could be kept.
  */
  function Engine(c: CurveConfig, supply: Supply, w: World, ip: string, sky: seq<Weather>): (World, Ending)
    decreases |sky|
  {
    if sky == [] then (w, StillRunning)
    else
      var (w', challenge, answer) := Round(c, supply, Under(c, w, sky[0]), ip, sky[0].allowed);
      if answer.None? then (w', Response(challenge))
      else if challenge.EnrollmentChallenge? && answer.value.Enrolled? then
        Engine(c, supply, Keep(w', answer.value.credential), ip, sky[1..])
      else (w', Response(answer.value))
  }

  /** credentialStore.set. */
  function Keep(w: World, credential: Macaroon): World {
    if w.storage then w.(stored := Some(credential)) else w
  }

  // --- What the client can count on ---

  predicate Tidy(s: State) {
    && s.used <= s.invoices.Keys
    && s.pendingEnrollments <= s.invoices.Keys
    && (forall p :: p in s.principals ==> p in Identifiers(s.minted))
  }

  /** The page has no credential, or one whose principal has made n requests. */
  predicate Anonymous(w: World, ip: string, n: int) {
    Tidy(w.server) && StoredCredential(w) == NoCredential && AnonCount(w.server, ip) == n
  }

  predicate Member(w: World, n: int) {
    && Tidy(w.server) && w.storage && w.stored.Some?
    && var p := w.stored.value.id;
       && w.stored == Some(MintCredential(w.server.epoch, p))
       && p in w.server.principals && w.server.principals[p] == n
  }

  lemma AnonymousRound(c: CurveConfig, supply: Supply, w: World, ip: string, n: int)
    requires Sound(c) && Fresh(supply) && Anonymous(w, ip, n) && n < c.anonymousCap
    ensures var (w', challenge, answer) := Round(c, supply, w, ip, true);
            && challenge.TollChallenge? && answer == Some(Forwarded)
            && Anonymous(w', ip, n + 1) && w'.storage == w.storage
            && w'.fetches == w.fetches + 2 && w'.payments == w.payments + 1
            && w'.paid == w.paid + c.floorTollSats
  {
    var key := supply.key(w.server.invoices.Keys);
    assert key !in w.server.invoices;
    ChallengeIsTidy(w.server, c.floorTollSats, Toll, EnvOf(supply, w.server, true));
  }

  lemma ChallengeIsTidy(s: State, price: int, kind: Kind, env: Env)
    requires Tidy(s)
    ensures Tidy(Challenge(s, price, kind, env).0)
  {
    IdentifiersAppend(s.minted, RootKey(s.epoch), env.newKey);
  }

  lemma MemberRound(c: CurveConfig, supply: Supply, w: World, ip: string, n: int, allowed: bool)
    requires Sound(c) && Fresh(supply) && Member(w, n) && NextPrice(c, n) > 0
    ensures var (w', challenge, answer) := Round(c, supply, w, ip, allowed);
            && challenge.TollChallenge? && answer == Some(Forwarded)
            && Member(w', n + 1) && AnonCount(w'.server, ip) == AnonCount(w.server, ip)
            && w'.fetches == w.fetches + 2 && w'.payments == w.payments + 1
            && w'.paid == w.paid + NextPrice(c, n)
  {
    var key := supply.key(w.server.invoices.Keys);
    assert key !in w.server.invoices;
    ChallengeIsTidy(w.server, NextPrice(c, n), Toll, EnvOf(supply, w.server, allowed));
  }

  lemma EnrollingRound(c: CurveConfig, supply: Supply, w: World, ip: string, n: int)
    requires Sound(c) && Fresh(supply) && Anonymous(w, ip, n) && n >= c.anonymousCap
    ensures var (w', challenge, answer) := Round(c, supply, w, ip, true);
            && challenge.EnrollmentChallenge? && answer.Some? && answer.value.Enrolled?
            && (w.storage ==> Member(Keep(w', answer.value.credential), 0))
            && (!w.storage ==> Anonymous(Keep(w', answer.value.credential), ip, n))
            && w'.storage == w.storage
            && w'.fetches == w.fetches + 2 && w'.payments == w.payments + 1
            && w'.paid == w.paid + c.enrollmentStakeSats
  {
    var key := supply.key(w.server.invoices.Keys);
    assert key !in w.server.invoices;
    var env := EnvOf(supply, w.server, true);
    ChallengeIsTidy(w.server, c.enrollmentStakeSats, Enrollment, env);
    var s2 := Step(c, Challenge(w.server, c.enrollmentStakeSats, Enrollment, env).0, Settle(key));
    IdentifiersAppend(s2.minted, CredentialKey(s2.epoch), supply.principal(Identifiers(s2.minted)));
  }

  // --- Calls ---

  /** A sweep or a restart lets an anonymous client start over. */
  function CountUnder(n: int, weather: Weather): int {
    if weather.swept || weather.restarted then 0 else n
  }

  lemma WeatherStartsOver(c: CurveConfig, w: World, ip: string, n: int, weather: Weather)
    requires Anonymous(w, ip, n)
    ensures Anonymous(Under(c, w, weather), ip, CountUnder(n, weather))
    ensures var w' := Under(c, w, weather);
            w'.storage == w.storage && w'.fetches == w.fetches && w'.payments == w.payments && w'.paid == w.paid
  {
  }

  /** The state of the page and the proxy once an enrollment has been answered. */
  function AfterEnrolling(c: CurveConfig, supply: Supply, w: World, ip: string): World {
    var (w', _, answer) := Round(c, supply, w, ip, true);
    if answer.Some? && answer.value.Enrolled? then Keep(w', answer.value.credential) else w'
  }

  lemma EngineEnrolls(c: CurveConfig, supply: Supply, w: World, ip: string, n: int, sky: seq<Weather>)
    requires Sound(c) && Fresh(supply) && Anonymous(w, ip, n) && n >= c.anonymousCap
    requires sky != [] && !Eased(sky[0])
    ensures var w' := AfterEnrolling(c, supply, w, ip);
            && Engine(c, supply, w, ip, sky) == Engine(c, supply, w', ip, sky[1..])
            && (if w.storage then Member(w', 0) else Anonymous(w', ip, n))
            && w'.storage == w.storage
            && w'.fetches == w.fetches + 2 && w'.payments == w.payments + 1
            && w'.paid == w.paid + c.enrollmentStakeSats
  {
    hide Tidy, Serve;
    EnrollingRound(c, supply, w, ip, n);
  }

  lemma AnonymousCall(c: CurveConfig, supply: Supply, w: World, ip: string, n: int, sky: seq<Weather>)
    requires Sound(c) && Fresh(supply) && Anonymous(w, ip, n)
    requires sky != [] && sky[0].allowed && CountUnder(n, sky[0]) < c.anonymousCap
    ensures var (w', r) := Engine(c, supply, w, ip, sky);
            && r == Response(Forwarded)
            && Anonymous(w', ip, CountUnder(n, sky[0]) + 1) && w'.storage == w.storage
            && w'.fetches == w.fetches + 2 && w'.payments == w.payments + 1
            && w'.paid == w.paid + c.floorTollSats
  {
    hide Serve;
    WeatherStartsOver(c, w, ip, n, sky[0]);
    AnonymousRound(c, supply, Under(c, w, sky[0]), ip, CountUnder(n, sky[0]));
  }

  /** The limiter's denial ends a call without a payment. */
  lemma RefusedCall(c: CurveConfig, supply: Supply, w: World, ip: string, n: int, sky: seq<Weather>)
    requires Anonymous(w, ip, n) && sky != [] && !sky[0].allowed
    ensures var (w', r) := Engine(c, supply, w, ip, sky);
            && r == Response(RateLimited) && w'.storage == w.storage
            && w'.fetches == w.fetches + 1 && w'.payments == w.payments && w'.paid == w.paid
  {
    WeatherStartsOver(c, w, ip, n, sky[0]);
  }

  lemma MemberCall(c: CurveConfig, supply: Supply, w: World, ip: string, n: int, sky: seq<Weather>)
    requires Sound(c) && Fresh(supply) && Member(w, n) && NextPrice(c, n) > 0
    requires sky != [] && !sky[0].restarted
    ensures var (w', r) := Engine(c, supply, w, ip, sky);
            && r == Response(Forwarded)
            && Member(w', n + 1)
            && w'.fetches == w.fetches + 2 && w'.payments == w.payments + 1
            && w'.paid == w.paid + NextPrice(c, n)
  {
    hide Serve;
    MemberRound(c, supply, Under(c, w, sky[0]), ip, n, sky[0].allowed);
  }

  /** A price that is not positive is never asked: the member is told that there is no challenge. */
  lemma UnpayableCall(c: CurveConfig, supply: Supply, w: World, ip: string, n: int, sky: seq<Weather>)
    requires Member(w, n) && NextPrice(c, n) <= 0 && sky != [] && !sky[0].restarted
    ensures var (w', r) := Engine(c, supply, w, ip, sky);
            r == Response(ChallengeError) && w'.fetches == w.fetches + 1 && w'.payments == w.payments
            && w'.paid == w.paid
  {
    hide NextPrice;
  }

  /** A restart leaves the page with a credential of the old process, which ends the call. */
  lemma StaleMemberCall(c: CurveConfig, supply: Supply, w: World, ip: string, n: int, sky: seq<Weather>)
    requires Member(w, n) && sky != [] && sky[0].restarted
    ensures Engine(c, supply, w, ip, sky).1 == Response(InvalidCredential)
  {
    var epoch, p := w.server.epoch, w.stored.value.id;
    OtherKeysNeverValidate(epoch + 1, CredentialKey(epoch), p, []);
    assert AttenuateAll(MintCredential(epoch, p), []) == MintCredential(epoch, p);
  }

  /** The call that enrolls: two fetches and the stake, then two more and the first curve price. */
  lemma EnrollingCall(c: CurveConfig, supply: Supply, w: World, ip: string, n: int, sky: seq<Weather>)
    requires Sound(c) && Fresh(supply) && Anonymous(w, ip, n) && n >= c.anonymousCap && w.storage
    requires |sky| > 1 && !Eased(sky[0]) && !sky[1].restarted
    ensures var (w', r) := Engine(c, supply, w, ip, sky);
            && r == Response(Forwarded)
            && Member(w', 1)
            && w'.fetches == w.fetches + 4 && w'.payments == w.payments + 2
            && w'.paid == w.paid + c.enrollmentStakeSats + c.floorTollSats
  {
    hide Round, AfterEnrolling, Serve;
    EngineEnrolls(c, supply, w, ip, n, sky);
    MemberCall(c, supply, AfterEnrolling(c, supply, w, ip), ip, 0, sky[1..]);
  }

  // --- Without storage ---

  /** Weather that keeps a client from having to enroll. */
  predicate Eased(weather: Weather) {
    weather.swept || weather.restarted || !weather.allowed
  }

  /** The first round with such weather, if there is one. */
  function FirstEased(sky: seq<Weather>): (i: nat)
    ensures i <= |sky| && (i < |sky| ==> Eased(sky[i]))
    ensures forall j :: 0 <= j < i ==> !Eased(sky[j])
  {
    if sky == [] || Eased(sky[0]) then 0 else 1 + FirstEased(sky[1..])
  }

  /** Whether the client gets as far as a floor challenge, after a sweep or a restart. */
  predicate EndsInToll(sky: seq<Weather>) {
    FirstEased(sky) < |sky| && sky[FirstEased(sky)].allowed
  }

  function EndOf(sky: seq<Weather>): Ending {
    if FirstEased(sky) == |sky| then StillRunning
    else Response(if EndsInToll(sky) then Forwarded else RateLimited)
  }

  lemma EasedShift(sky: seq<Weather>)
    requires sky != [] && !Eased(sky[0])
    ensures FirstEased(sky) == 1 + FirstEased(sky[1..])
    ensures EndsInToll(sky) == EndsInToll(sky[1..]) && EndOf(sky) == EndOf(sky[1..])
  {
  }

  /**
   Without storage the credential is gone as soon as it is bought, so a client
   past the anonymous cap enrolls over and over, paying a stake each time, until a
   sweep or a restart lets it in for the floor or the limiter turns it away.
  */
  lemma {:induction false} WithoutStorage(
    c: CurveConfig, supply: Supply, w: World, ip: string, n: int, sky: seq<Weather>)
    returns (after: World)
    requires Sound(c) && Fresh(supply) && Anonymous(w, ip, n) && n >= c.anonymousCap && !w.storage
    ensures Engine(c, supply, w, ip, sky) == (after, EndOf(sky))
    ensures after.payments == w.payments + FirstEased(sky) + (if EndsInToll(sky) then 1 else 0)
    ensures after.paid == w.paid + c.enrollmentStakeSats * FirstEased(sky)
                          + (if EndsInToll(sky) then c.floorTollSats else 0)
    decreases |sky|
  {
    hide Round, AfterEnrolling, Serve;
    after := Engine(c, supply, w, ip, sky).0;
    if sky == [] {
    } else if !sky[0].allowed {
      RefusedCall(c, supply, w, ip, n, sky);
    } else if sky[0].swept || sky[0].restarted {
      AnonymousCall(c, supply, w, ip, n, sky);
    } else {
      EasedShift(sky);
      EngineEnrolls(c, supply, w, ip, n, sky);
      var rest := WithoutStorage(c, supply, AfterEnrolling(c, supply, w, ip), ip, n, sky[1..]);
      Distribute(c.enrollmentStakeSats, 1, FirstEased(sky[1..]));
    }
  }

  /** So with neither a sweep nor a restart nor a denial it never ends. */
  lemma WithoutStorageNeverEnds(c: CurveConfig, supply: Supply, w: World, ip: string, n: int, sky: seq<Weather>)
    returns (after: World)
    requires Sound(c) && Fresh(supply) && Anonymous(w, ip, n) && n >= c.anonymousCap && !w.storage
    requires forall i :: 0 <= i < |sky| ==> !Eased(sky[i])
    ensures Engine(c, supply, w, ip, sky) == (after, StillRunning)
    ensures after.payments == w.payments + |sky|
    ensures after.paid == w.paid + c.enrollmentStakeSats * |sky|
  {
    hide Engine, Anonymous;
    after := WithoutStorage(c, supply, w, ip, n, sky);
  }

  /**
   A call comes to an end within its rounds exactly if the credential can be kept,
   or none is asked for, or some round is eased by a sweep, a restart or a denial.
  */
  lemma CallEndsIff(c: CurveConfig, supply: Supply, w: World, ip: string, n: int, sky: seq<Weather>)
    requires Sound(c) && Fresh(supply) && Anonymous(w, ip, n) && |sky| >= 2
    ensures Engine(c, supply, w, ip, sky).1 != StillRunning
            <==> w.storage || n < c.anonymousCap || exists i :: 0 <= i < |sky| && Eased(sky[i])
  {
    hide Round, Serve, AfterEnrolling;
    if !sky[0].allowed {
      RefusedCall(c, supply, w, ip, n, sky);
    } else if CountUnder(n, sky[0]) < c.anonymousCap {
      AnonymousCall(c, supply, w, ip, n, sky);
    } else if w.storage && sky[1].restarted {
      EngineEnrolls(c, supply, w, ip, n, sky);
      StaleMemberCall(c, supply, AfterEnrolling(c, supply, w, ip), ip, 0, sky[1..]);
    } else if w.storage {
      EnrollingCall(c, supply, w, ip, n, sky);
    } else {
      var after := WithoutStorage(c, supply, w, ip, n, sky);
    }
  }

  function Iterate(call: World -> World, w: World, n: nat): World {
    if n == 0 then w else call(Iterate(call, w, n - 1))
  }

  /** n calls, each allowed to recurse `depth` times in all. */
  function Calls(c: CurveConfig, supply: Supply, w: World, ip: string, n: nat, depth: nat): World {
    Iterate(x => Engine(c, supply, x, ip, Calm(depth)).0, w, n)
  }

  /** What the n-th call costs a client that starts with nothing. */
  function CallPrice(c: CurveConfig, n: nat): int {
    if n <= c.anonymousCap then c.floorTollSats
    else (if n == c.anonymousCap + 1 then c.enrollmentStakeSats else 0) + NextPrice(c, n - c.anonymousCap - 1)
  }

  /** What n calls cost together. */
  function Bill(c: CurveConfig, n: nat): int {
    if n == 0 then 0 else Bill(c, n - 1) + CallPrice(c, n)
  }

  predicate PositiveAt(c: CurveConfig, count: int) {
    StaysPositive(count, c.floorTollSats, c.escalationSlope)
  }

  /** The int64 price of each of n calls is positive: a test on the configuration. */
  predicate Payable(c: CurveConfig, n: nat) {
    forall k: nat :: k < n - c.anonymousCap ==> PositiveAt(c, k)
  }

  lemma PositiveIff(c: CurveConfig, count: nat)
    requires Sound(c)
    ensures NextPrice(c, count) > 0 <==> PositiveAt(c, count)
  {
    CurvePrice64SignIff(count + 1, c.floorTollSats, c.escalationSlope);
  }

  /** Where a client that started at w stands after n calls. */
  predicate Standing(c: CurveConfig, w: World, ip: string, n: nat, after: World)
    requires c.anonymousCap >= 0
  {
    && after.paid == w.paid + Bill(c, n)
    && after.storage
    && (if n <= c.anonymousCap then Anonymous(after, ip, n) else Member(after, n - c.anonymousCap))
    && after.payments == w.payments + n + (if n <= c.anonymousCap then 0 else 1)
    && after.fetches == w.fetches + 2 * n + (if n <= c.anonymousCap then 0 else 2)
  }

  /** One call more: the resource for its price, or no challenge where the price is not positive. */
  lemma OneMoreCall(c: CurveConfig, supply: Supply, w: World, ip: string, n: nat, before: World, depth: nat)
    requires Sound(c) && Fresh(supply) && depth >= 2
    requires Standing(c, w, ip, n, before)
    ensures var (after, r) := Engine(c, supply, before, ip, Calm(depth));
            && after.fetches <= before.fetches + 4 && after.payments <= before.payments + 2
            && (if n < c.anonymousCap || PositiveAt(c, n - c.anonymousCap)
                then r == Response(Forwarded) && Standing(c, w, ip, n + 1, after)
                else r == Response(ChallengeError) && after.paid == before.paid)
  {
    hide Round, Serve, NextPrice, PositiveAt, Tidy;
    if n < c.anonymousCap {
      AnonymousCall(c, supply, before, ip, n, Calm(depth));
    } else if n == c.anonymousCap {
      PositiveIff(c, 0);
      FirstPrice(c);
      EnrollingCall(c, supply, before, ip, n, Calm(depth));
    } else {
      PositiveIff(c, n - c.anonymousCap);
      if NextPrice(c, n - c.anonymousCap) > 0 {
        MemberCall(c, supply, before, ip, n - c.anonymousCap, Calm(depth));
      } else {
        UnpayableCall(c, supply, before, ip, n - c.anonymousCap, Calm(depth));
      }
    }
  }

  lemma FirstPrice(c: CurveConfig)
    ensures NextPrice(c, 0) == c.floorTollSats
  {
  }

  lemma PayableNext(c: CurveConfig, n: nat)
    requires c.anonymousCap >= 0
    ensures Payable(c, n + 1) <==> Payable(c, n) && (n < c.anonymousCap || PositiveAt(c, n - c.anonymousCap))
  {
  }

  lemma {:induction false} IterationsStand(c: CurveConfig, w: World, ip: string, call: World -> World, n: nat)
    requires Sound(c) && Standing(c, w, ip, 0, w) && Payable(c, n)
    requires forall m: nat, x {:trigger Standing(c, w, ip, m, x), call(x)} ::
               Standing(c, w, ip, m, x) && Payable(c, m + 1) ==> Standing(c, w, ip, m + 1, call(x))
    ensures Standing(c, w, ip, n, Iterate(call, w, n))
  {
    if n == 0 {
    } else {
      PayableNext(c, n - 1);
      IterationsStand(c, w, ip, call, n - 1);
      assert Standing(c, w, ip, n - 1 + 1, call(Iterate(call, w, n - 1)));
    }
  }

  lemma CallsStand(c: CurveConfig, supply: Supply, w: World, ip: string, n: nat, depth: nat)
    requires Sound(c) && Fresh(supply) && Anonymous(w, ip, 0) && w.storage && Payable(c, n) && depth >= 2
    ensures Standing(c, w, ip, n, Calls(c, supply, w, ip, n, depth))
  {
    hide Engine, Payable;
    var call := x => Engine(c, supply, x, ip, Calm(depth)).0;
    forall m: nat, x {:trigger Standing(c, w, ip, m, x), call(x)} | Standing(c, w, ip, m, x) && Payable(c, m + 1)
      ensures Standing(c, w, ip, m + 1, call(x))
    {
      PayableNext(c, m);
      OneMoreCall(c, supply, w, ip, m, x, depth);
    }
    IterationsStand(c, w, ip, call, n);
  }

  // --- Such clients exist ---

  /** A supply that never repeats itself exists, and a page just opened is an anonymous client. */
  lemma HonestClientsExist(durable: bool, ip: string) returns (supply: Supply, w: World)
    ensures Fresh(supply) && Anonymous(w, ip, 0) && w.storage && w.server == Init(durable)
  {
    supply := Supply(taken => Unseen(taken), taken => Unseen(taken));
    w := World(Init(durable), true, None, 0, 0, 0);
    forall taken: set<string> ensures Unseen(taken) !in taken {
      UnseenIsNew(taken);
    }
  }

  // --- The bill in closed form ---

  /** The last of n calls is priced within int64. */
  predicate Priced(c: CurveConfig, n: nat) {
    n > c.anonymousCap ==> Fits(c, n - c.anonymousCap - 1)
  }

  lemma PricedBefore(c: CurveConfig, n: nat)
    requires Sound(c) && Priced(c, n) && n > 0
    ensures Priced(c, n - 1)
    ensures n > c.anonymousCap ==>
              NextPrice(c, n - c.anonymousCap - 1) ==
              CurvePrice(n - c.anonymousCap, c.floorTollSats, c.escalationSlope)
  {
    if n > c.anonymousCap {
      var k := n - c.anonymousCap - 1;
      AtMostProduct(c.escalationSlope, k);
      CurvePrice64Exact(k + 1, c.floorTollSats, c.escalationSlope);
      if k > 0 { MulMonotone(c.escalationSlope, k - 1, k); }
    }
  }

  lemma {:induction false} PricedIsPayable(c: CurveConfig, n: nat)
    requires Sound(c) && Priced(c, n)
    ensures Payable(c, n)
  {
    if n == 0 {
    } else {
      PricedBefore(c, n);
      PricedIsPayable(c, n - 1);
      PayableNext(c, n - 1);
      if n > c.anonymousCap { FittingPricesPass(c, n - c.anonymousCap - 1); }
    }
  }

  lemma {:induction false} AnonymousBill(c: CurveConfig, n: nat)
    requires n <= c.anonymousCap
    ensures Bill(c, n) == n * c.floorTollSats
  {
    if n == 0 {
    } else {
      AnonymousBill(c, n - 1);
      Distribute(c.floorTollSats, n - 1, 1);
    }
  }

  lemma {:induction false} MemberBill(c: CurveConfig, n: nat)
    requires Sound(c) && n >= 1 && Priced(c, c.anonymousCap + n)
    ensures Bill(c, c.anonymousCap + n) ==
            Bill(c, c.anonymousCap) + c.enrollmentStakeSats + CurveCost(n, c.floorTollSats, c.escalationSlope)
  {
    hide NextPrice, CurvePrice;
    PricedBefore(c, c.anonymousCap + n);
    if n == 1 {
      assert CurveCost(0, c.floorTollSats, c.escalationSlope) == 0;
    } else {
      MemberBill(c, n - 1);
    }
  }

  /** cap * floor + stake + floor * n + slope * n * (n - 1) / 2. */
  function FullBill(c: CurveConfig, n: nat): real {
    (c.anonymousCap * c.floorTollSats + c.enrollmentStakeSats) as real
    + CurveCum(n as real, c.floorTollSats as real, c.escalationSlope as real)
  }

  lemma BillInFull(c: CurveConfig, n: nat)
    requires Sound(c) && n >= 1 && Priced(c, c.anonymousCap + n)
    ensures Bill(c, c.anonymousCap + n) as real == FullBill(c, n)
  {
    AnonymousBill(c, c.anonymousCap);
    MemberBill(c, n);
    CurveSum(n, c.floorTollSats, c.escalationSlope);
  }

  /**
   After the cap and n more calls a client has paid cap * floor + stake plus the
   calculator's cumulative curve for n requests, with one payment per call and
   one for the enrollment.
  */
  lemma TotalPaid(c: CurveConfig, supply: Supply, w: World, ip: string, n: nat, depth: nat) returns (after: World)
    requires Sound(c) && Fresh(supply) && Anonymous(w, ip, 0) && w.storage && depth >= 2
    requires n >= 1 && Priced(c, c.anonymousCap + n)
    ensures after == Calls(c, supply, w, ip, c.anonymousCap + n, depth)
    ensures Standing(c, w, ip, c.anonymousCap + n, after)
    ensures (after.paid - w.paid) as real == FullBill(c, n)
  {
    hide Calls, Standing, Payable, Priced;
    after := Calls(c, supply, w, ip, c.anonymousCap + n, depth);
    PricedIsPayable(c, c.anonymousCap + n);
    CallsStand(c, supply, w, ip, c.anonymousCap + n, depth);
    FullBillPaid(c, w, ip, n, after);
  }

  lemma FullBillPaid(c: CurveConfig, w: World, ip: string, n: nat, after: World)
    requires Sound(c) && n >= 1 && Priced(c, c.anonymousCap + n) && Standing(c, w, ip, c.anonymousCap + n, after)
    ensures (after.paid - w.paid) as real == FullBill(c, n)
  {
    BillInFull(c, n);
  }

  // --- Which calls are served ---

  /** The call after n others brings the resource. */
  predicate Served(c: CurveConfig, supply: Supply, w: World, ip: string, n: nat, depth: nat) {
    Engine(c, supply, Calls(c, supply, w, ip, n, depth), ip, Calm(depth)).1 == Response(Forwarded)
  }

  /** The call after n payable ones is served exactly if it is payable too. */
  lemma NextCallServedIff(c: CurveConfig, supply: Supply, w: World, ip: string, n: nat, depth: nat)
    requires Sound(c) && Fresh(supply) && Anonymous(w, ip, 0) && w.storage && Payable(c, n) && depth >= 2
    ensures Served(c, supply, w, ip, n, depth) <==> Payable(c, n + 1)
  {
    hide Engine, Payable, Calls, Standing;
    PayableNext(c, n);
    CallsStand(c, supply, w, ip, n, depth);
    OneMoreCall(c, supply, w, ip, n, Calls(c, supply, w, ip, n, depth), depth);
  }

  /** A serial honest client has all of n calls served exactly if the price of each is positive. */
  lemma {:induction false} CallsServedIff(c: CurveConfig, supply: Supply, w: World, ip: string, n: nat, depth: nat)
    requires Sound(c) && Fresh(supply) && Anonymous(w, ip, 0) && w.storage && depth >= 2
    ensures (forall k: nat :: k < n ==> Served(c, supply, w, ip, k, depth)) <==> Payable(c, n)
  {
    hide Served, Anonymous;
    if n == 0 {
      NothingToPay(c);
    } else {
      PayableNext(c, n - 1);
      CallsServedIff(c, supply, w, ip, n - 1, depth);
      if Payable(c, n - 1) { NextCallServedIff(c, supply, w, ip, n - 1, depth); }
    }
  }

  lemma NothingToPay(c: CurveConfig)
    requires c.anonymousCap >= 0
    ensures Payable(c, 0)
  {
  }

  // --- The same over the wire ---

  /** What lnd, the macaroon library and the wallet make of a payment hash. */
  datatype Carrier = Carrier(
    macaroon: string -> seq<Byte>,
    invoice: string -> string,
    preimage: string -> seq<Byte>,
    unmarshal: Unmarshal,
    sha256: seq<Byte> -> seq<Byte>)

  /** The key is the hex form of a 32-byte hash, and its macaroon, invoice and preimage belong to it. */
  predicate Carries(b: Carrier, key: string) {
    && HexDecode(key).Ok? && |HexDecode(key).value| == 32 && HexEncode(HexDecode(key).value) == key
    && b.macaroon(key) != [] && b.unmarshal(b.macaroon(key)) == Some(key)
    && b.invoice(key) != [] && QuoteFree(b.invoice(key)) && !EndsWith(b.invoice(key), "type=")
    && |b.preimage(key)| == 32 && b.sha256(b.preimage(key)) == HexDecode(key).value
  }

  function KindOf(challenge: Metered.Response): Kind
    requires challenge.TollChallenge? || challenge.EnrollmentChallenge?
  {
    if challenge.TollChallenge? then Toll else Enrollment
  }

  /** The challenge printed and parsed: what the client sees of it. */
  function Seen(b: Carrier, challenge: Metered.Response): Option<Parsed>
    requires challenge.TollChallenge? || challenge.EnrollmentChallenge?
  {
    ParseChallenge(ChallengeHeader(KindOf(challenge), b.macaroon(challenge.key), b.invoice(challenge.key)))
  }

  /** The header that the client sends after paying, as the proxy sees it. */
  function SentBack(b: Carrier, seen: Parsed, key: string): TokenView {
    ViewAuthorization(BuildAuthHeader(seen.macaroon, HexEncode(b.preimage(key))), b.unmarshal, b.sha256)
  }

  lemma ArrivesIntact(b: Carrier, challenge: Metered.Response)
    requires challenge.TollChallenge? || challenge.EnrollmentChallenge?
    requires Carries(b, challenge.key)
    ensures var seen := Seen(b, challenge);
            && seen.Some?
            && (seen.value.kind == "enrollment" <==> challenge.EnrollmentChallenge?)
            && SentBack(b, seen.value, challenge.key) == Token(challenge.key, true)
  {
    var key := challenge.key;
    ChallengeBecomesToken(KindOf(challenge), b.macaroon(key), HexDecode(key).value, b.invoice(key), b.preimage(key),
                          b.unmarshal, b.sha256);
  }

  /**
   A round with real headers, and whether it has enrolled the client; a challenge
   that cannot be parsed is handed back to the page.
  */
  function WireRound(c: CurveConfig, supply: Supply, b: Carrier, w: World, ip: string, allowed: bool)
    : (res: (World, Metered.Response, bool))
    ensures res.2 ==> res.1.Enrolled?
  {
    var credential := StoredCredential(w);
    var (w1, challenge) := Fetch(c, supply, w, ip, allowed, credential, NoToken);
    if !challenge.TollChallenge? && !challenge.EnrollmentChallenge? then (w1, challenge, false)
    else
      var seen := Seen(b, challenge);
      if seen.None? then (w1, challenge, false)
      else
        var w2 := Pay(c, w1, challenge.key, challenge.price);
        var token := SentBack(b, seen.value, challenge.key);
        var (w3, answer) := Fetch(c, supply, w2, ip, allowed, credential, token);
        (w3, answer, seen.value.kind == "enrollment" && answer.Enrolled?)
  }

  /** engine with real headers. */
  function WireEngine(c: CurveConfig, supply: Supply, b: Carrier, w: World, ip: string, sky: seq<Weather>)
    : (World, Ending)
    decreases |sky|
  {
    if sky == [] then (w, StillRunning)
    else
      var (w', answer, again) := WireRound(c, supply, b, Under(c, w, sky[0]), ip, sky[0].allowed);
      if again then WireEngine(c, supply, b, Keep(w', answer.credential), ip, sky[1..])
      else (w', Response(answer))
  }

  /** The page pays at most once a round, exactly the price asked, and only a challenge that it can read. */
  lemma PaysOnlyWhatItReads(
    c: CurveConfig, supply: Supply, b: Carrier, w: World, ip: string, allowed: bool)
    ensures var (w', r, _) := WireRound(c, supply, b, w, ip, allowed);
            var challenge := Fetch(c, supply, w, ip, allowed, StoredCredential(w), NoToken).1;
            if (challenge.TollChallenge? || challenge.EnrollmentChallenge?) && Seen(b, challenge).Some?
            then w'.payments == w.payments + 1 && w'.paid == w.paid + challenge.price && w'.fetches == w.fetches + 2
            else w'.payments == w.payments && w'.paid == w.paid && w'.fetches == w.fetches + 1 && r == challenge
  {
    hide Serve, Seen, SentBack;
  }

  lemma ServeKeepsInvoices(c: CurveConfig, s: State, req: Request, env: Env)
    ensures var (s', r) := Serve(c, s, req, env);
            if r.TollChallenge? || r.EnrollmentChallenge?
            then r.key == env.newKey && s'.invoices.Keys == s.invoices.Keys + {r.key}
            else s'.invoices == s.invoices
  {
    hide NextPrice, Buy, Enroll;
    EnrollKeepsInvoices(s, req.token, env);
    BuyKeepsInvoices(s, req.token, Use.Anonymous(req.ip), env);
    if req.credential.Credential? { BuyKeepsInvoices(s, req.token, ForPrincipal(req.credential.m.id), env); }
  }

  lemma BuyKeepsInvoices(s: State, token: TokenView, use: Use, env: Env)
    ensures var (s', r) := Buy(s, token, use, env);
            s'.invoices == s.invoices && !r.TollChallenge? && !r.EnrollmentChallenge?
  {
  }

  lemma EnrollKeepsInvoices(s: State, token: TokenView, env: Env)
    ensures var (s', r) := Enroll(s, token, env);
            s'.invoices == s.invoices && !r.TollChallenge? && !r.EnrollmentChallenge?
  {
  }

  /** A round adds the invoice it is challenged with, and no other. */
  lemma RoundKeepsInvoices(c: CurveConfig, supply: Supply, w: World, ip: string, allowed: bool)
    ensures var (w', challenge, answer) := Round(c, supply, w, ip, allowed);
            if answer.Some?
            then challenge.key == supply.key(w.server.invoices.Keys)
                 && (answer.value.Enrolled? || answer.value.Forwarded? ==>
                       w'.server.invoices.Keys == w.server.invoices.Keys + {challenge.key})
                 && w.server.invoices.Keys + {challenge.key} <= w'.server.invoices.Keys
            else w'.server.invoices == w.server.invoices
  {
    hide Serve;
    var credential := StoredCredential(w);
    ServeKeepsInvoices(c, w.server, Request(ip, credential, NoToken), EnvOf(supply, w.server, allowed));
    var (w1, challenge) := Fetch(c, supply, w, ip, allowed, credential, NoToken);
    if challenge.TollChallenge? || challenge.EnrollmentChallenge? {
      var w2 := Pay(c, w1, challenge.key, challenge.price);
      assert w2.server.invoices.Keys == w1.server.invoices.Keys;
      ServeKeepsInvoices(c, w2.server, Request(ip, credential, Token(challenge.key, true)),
                         EnvOf(supply, w2.server, allowed));
    }
  }

  lemma {:induction false} EngineKeepsInvoices(c: CurveConfig, supply: Supply, w: World, ip: string, sky: seq<Weather>)
    ensures w.server.invoices.Keys <= Engine(c, supply, w, ip, sky).0.server.invoices.Keys
    decreases |sky|
  {
    hide Round;
    if sky == [] {
    } else {
      var w0 := Under(c, w, sky[0]);
      var (w', challenge, answer) := Round(c, supply, w0, ip, sky[0].allowed);
      RoundKeepsInvoices(c, supply, w0, ip, sky[0].allowed);
      if answer.Some? && challenge.EnrollmentChallenge? && answer.value.Enrolled? {
        EngineKeepsInvoices(c, supply, Keep(w', answer.value.credential), ip, sky[1..]);
      }
    }
  }

  /** Every invoice that the run adds is carried. */
  ghost predicate AllCarried(b: Carrier, before: World, after: World) {
    forall key :: key in after.server.invoices && key !in before.server.invoices ==> Carries(b, key)
  }

  /**
   What is proved of the engine above holds of the engine that prints and parses:
   headers, tokens and keys come through for every invoice of the run.
  */
  lemma {:induction false} WireEngineIsEngine(
    c: CurveConfig, supply: Supply, b: Carrier, w: World, ip: string, sky: seq<Weather>)
    requires Fresh(supply) && AllCarried(b, w, Engine(c, supply, w, ip, sky).0)
    ensures WireEngine(c, supply, b, w, ip, sky) == Engine(c, supply, w, ip, sky)
    decreases |sky|
  {
    hide Serve, Carries, Seen, SentBack;
    if sky == [] {
    } else {
      var w0, allowed := Under(c, w, sky[0]), sky[0].allowed;
      var (w', challenge, answer) := Round(c, supply, w0, ip, allowed);
      RoundKeepsInvoices(c, supply, w0, ip, allowed);
      if answer.Some? {
        if challenge.EnrollmentChallenge? && answer.value.Enrolled? {
          EngineKeepsInvoices(c, supply, Keep(w', answer.value.credential), ip, sky[1..]);
        }
        assert w0.server.invoices == w.server.invoices;
        ArrivesIntact(b, challenge);
        if challenge.EnrollmentChallenge? && answer.value.Enrolled? {
          WireEngineIsEngine(c, supply, b, Keep(w', answer.value.credential), ip, sky[1..]);
        }
      }
    }
  }

  /** Two keys on top of a set of names, and then names never seen. */
  ghost function KeyAfter(base: set<string>, first: string, second: string, taken: set<string>): string {
    if taken == base then first else if taken == base + {first} then second else Unseen(taken)
  }

  lemma TwoKeySupply(base: set<string>, first: string, second: string) returns (supply: Supply)
    requires first !in base && second !in base && first != second
    ensures Fresh(supply) && supply.key(base) == first && supply.key(base + {first}) == second
  {
    supply := Supply(taken => KeyAfter(base, first, second, taken), taken => Unseen(taken));
    forall taken: set<string> ensures Unseen(taken) !in taken {
      UnseenIsNew(taken);
    }
    assert base + {first} != base by { assert first in base + {first}; }
  }

  lemma TwoKeyCarrier(hash1: seq<Byte>, hash2: seq<Byte>) returns (b: Carrier)
    requires |hash1| == 32 && |hash2| == 32 && HexEncode(hash1) != HexEncode(hash2)
    ensures Carries(b, HexEncode(hash1)) && Carries(b, HexEncode(hash2))
  {
    var first, second := HexEncode(hash1), HexEncode(hash2);
    b := Carrier(key => if key == first then [1] else [2], _ => "lnbc1",
                 key => if key == first then hash1 else hash2,
                 raw => Some(if raw == [1] then first else second), preimage => preimage);
    HexRoundTrip(hash1);
    HexRoundTrip(hash2);
  }

  /** An enrollment and the request after it add two invoices. */
  lemma EnrollingInvoices(c: CurveConfig, supply: Supply, w: World, ip: string, n: int)
    requires Sound(c) && Fresh(supply) && Anonymous(w, ip, n) && n >= c.anonymousCap && w.storage
    ensures var base := w.server.invoices.Keys;
            var first := supply.key(base);
            Engine(c, supply, w, ip, Calm(2)).0.server.invoices.Keys == base + {first} + {supply.key(base + {first})}
  {
    hide Serve, Round, Tidy;
    EnrollingRound(c, supply, w, ip, n);
    RoundKeepsInvoices(c, supply, w, ip, true);
    var (w', challenge, answer) := Round(c, supply, w, ip, true);
    var w1 := Keep(w', answer.value.credential);
    FirstPrice(c);
    MemberRound(c, supply, w1, ip, 0, true);
    RoundKeepsInvoices(c, supply, w1, ip, true);
    assert Calm(2)[1..][0] == CALM;
  }

  /**
   The premises of WireEngineIsEngine can be met together: for every client at the
   cap and every two payment hashes that are new to lnd there are a supply and a
   carrier with which it enrolls and is served.
  */
  lemma HonestWireExists(c: CurveConfig, w: World, ip: string, n: int, hash1: seq<Byte>, hash2: seq<Byte>)
    returns (supply: Supply, b: Carrier)
    requires Sound(c) && Anonymous(w, ip, n) && n >= c.anonymousCap && w.storage
    requires |hash1| == 32 && |hash2| == 32 && HexEncode(hash1) != HexEncode(hash2)
    requires HexEncode(hash1) !in w.server.invoices && HexEncode(hash2) !in w.server.invoices
    ensures Fresh(supply) && AllCarried(b, w, Engine(c, supply, w, ip, Calm(2)).0)
    ensures Engine(c, supply, w, ip, Calm(2)).1 == Response(Forwarded)
    ensures WireEngine(c, supply, b, w, ip, Calm(2)) == Engine(c, supply, w, ip, Calm(2))
  {
    hide Serve, Engine, WireEngine, HexEncode, Carries, Tidy;
    supply := TwoKeySupply(w.server.invoices.Keys, HexEncode(hash1), HexEncode(hash2));
    b := TwoKeyCarrier(hash1, hash2);
    EnrollingInvoices(c, supply, w, ip, n);
    EnrollingCall(c, supply, w, ip, n, Calm(2));
    WireEngineIsEngine(c, supply, b, w, ip, Calm(2));
  }

  // --- The engine as it runs in the page ---

  class Page {
    var proxy: Handler
    const supply: Supply
    const carrier: Carrier
    const storage: bool
    const ip: string
    var stored: Option<Macaroon>
    var fetches: nat
    var payments: nat
    var paid: int

    constructor (proxy: Handler, supply: Supply, carrier: Carrier, storage: bool, ip: string)
      ensures this.proxy == proxy && this.supply == supply && this.carrier == carrier
      ensures this.storage == storage && this.ip == ip
      ensures stored.None? && fetches == 0 && payments == 0 && paid == 0
    {
      this.proxy, this.supply, this.carrier, this.storage, this.ip := proxy, supply, carrier, storage, ip;
      stored, fetches, payments, paid := None, 0, 0, 0;
    }

    ghost function View(): World
      reads this, proxy, proxy.verifier, proxy.verifier.lnd, proxy.verifier.st, proxy.principals
    {
      World(proxy.View(), storage, stored, fetches, payments, paid)
    }

    method FetchUrl(allowed: bool, credential: Presented, token: TokenView) returns (r: Metered.Response)
      modifies this`fetches
      modifies proxy, proxy.verifier, proxy.verifier.lnd`invoices, proxy.verifier.st`used, proxy.principals
      ensures (View(), r) == Fetch(proxy.curve, supply, old(View()), ip, allowed, credential, token)
    {
      var env := Env(supply.key(proxy.verifier.lnd.invoices.Keys), supply.principal(Identifiers(proxy.verifier.minted)),
                     allowed, false, false, NoFault, NoFault, false);
      assert env.On(proxy.verifier.st.backend) == env == EnvOf(supply, proxy.View(), allowed);
      r := proxy.ServeMetered(Request(ip, credential, token), env, 0);
      fetches := fetches + 1;
    }

    method PayInvoice(key: string, price: int)
      modifies this`payments, this`paid, proxy.verifier.lnd`invoices
      ensures View() == Pay(proxy.curve, old(View()), key, price)
    {
      var lnd := proxy.verifier.lnd;
      if key in lnd.invoices {
        lnd.invoices := lnd.invoices[key := lnd.invoices[key].(settled := true)];
      }
      payments, paid := payments + 1, paid + price;
    }

    /** The proxy's ten-minute sweep and its restart, if they fall into this round. */
    method Await(weather: Weather)
      modifies this`proxy, proxy`anonCounts
      ensures proxy.curve == old(proxy.curve) && View() == Under(proxy.curve, old(View()), weather)
      ensures proxy == old(proxy)
              || (fresh(proxy) && fresh(proxy.verifier) && fresh(proxy.principals)
                  && proxy.verifier.lnd == old(proxy.verifier.lnd)
                  && (proxy.verifier.st == old(proxy.verifier.st) || fresh(proxy.verifier.st)))
    {
      if weather.swept {
        proxy.SweepAnonCounts();
      }
      if weather.restarted {
        proxy := ProxyHandler.Restart(proxy);
      }
    }

    method OneRound(allowed: bool) returns (r: Metered.Response, again: bool)
      modifies this`fetches, this`payments, this`paid
      modifies proxy, proxy.verifier, proxy.verifier.lnd`invoices, proxy.verifier.st`used, proxy.principals
      ensures (View(), r, again) == WireRound(proxy.curve, supply, carrier, old(View()), ip, allowed)
    {
      hide Serve, ParseChallenge, ViewAuthorization, Step;
      var credential := if storage && stored.Some? then Credential(stored.value) else NoCredential;
      var challenge := FetchUrl(allowed, credential, NoToken);
      if !challenge.TollChallenge? && !challenge.EnrollmentChallenge? {
        return challenge, false;
      }
      var seen := Seen(carrier, challenge);
      if seen.None? {
        return challenge, false;
      }
      PayInvoice(challenge.key, challenge.price);
      r := FetchUrl(allowed, credential, SentBack(carrier, seen.value, challenge.key));
      again := seen.value.kind == "enrollment" && r.Enrolled?;
    }

    /** engine: the recursion of the page, as long as the weather lasts. */
    method Run(sky: seq<Weather>) returns (r: Ending)
      modifies this`proxy, this`stored, this`fetches, this`payments, this`paid
      modifies proxy, proxy.verifier, proxy.verifier.lnd`invoices, proxy.verifier.st`used, proxy.principals
      ensures (View(), r) == WireEngine(old(proxy.curve), supply, carrier, old(View()), ip, sky)
      decreases |sky|
    {
      hide Under, WireRound;
      if sky == [] {
        return StillRunning;
      }
      Await(sky[0]);
      var answer, again := OneRound(sky[0].allowed);
      if !again {
        return Response(answer);
      }
      if storage {
        stored := Some(answer.credential);
      }
      r := Run(sky[1..]);
    }
  }

  /** A page opened against a proxy just started. */
  method Open(curve: CurveConfig, backend: Backend, supply: Supply, carrier: Carrier, storage: bool, ip: string)
    returns (page: Page)
    ensures page.View() == World(Init(backend.SQLite?), storage, None, 0, 0, 0)
    ensures page.ip == ip && Anonymous(page.View(), ip, 0)
  {
    var proxy := Start(curve, backend);
    page := new Page(proxy, supply, carrier, storage, ip);
  }
}
