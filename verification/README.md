# A verified model of the Bitcoin paywall

The paywall is a reverse proxy that answers unpaid requests with HTTP 402. It
takes payment on chain (one fresh address per request) or over Lightning (one
invoice per request, L402 tokens), and can meter callers along a rising cost
curve: a few anonymous requests at a floor price, then an enrollment stake, then
prices that grow with every request of the enrolled principal. This project
models that logic in Dafny and proves what it keeps, for all inputs and all runs.

## Layout

| file | models |
|---|---|
| `pricing.dfy` | the cost curve, its int64 arithmetic, its sum, and the cost of resetting identities |
| `satoshis.dfy` | the float64-to-satoshi conversion of the bitcoind client |
| `stores.dfy` | MemStore and SQLiteStore, with stores that fail |
| `onchain.dfy` | the on-chain verifier, one call at a time, as functions and as the class |
| `onchain_protocol.dfy` | the on-chain verifier with one program counter per call, interleaved with issuing, pruning, faults and crashes |
| `onchain_traces.dfy` | pruning and the two backends, compared over whole traces |
| `onchain_payers.dfy` | the payer's side: what a challenge promises, and who is let in |
| `encodings.dfy`, `wire.dfy` | hex and base64 (RFC 4648), the challenge header and the L402 token, Go against JavaScript |
| `credentials.dfy` | enrollment credentials over a symbolic MAC chain |
| `config.dfy` | configuration validation |
| `metered.dfy` | the metered proxy as a state machine over whole runs |
| `answers.dfy` | what is answered against what was paid, for one request, from its header, and over runs |
| `limits.dfy` | how far its results reach: revenue, single use and lost payments, each with its exact condition |
| `proxy_handler.dfy` | the same as the objects of the program: handler, verifier, principal store, lnd client |
| `client.dfy` | the JavaScript engine composed with the proxy |
| `metering.dfy` | credentialed handlers interleaved at the principal store's lock |
| `limiter.dfy` | the per-IP token buckets and their eviction |
| `sums.dfy`, `names.dfy`, `wrappers.dfy` | sums over maps, fresh names, Option and Result |

State that the program changes in place (stores, verifiers, handler, limiter map,
the page) is a class whose methods are proved equal to functions over values;
the theorems are about those functions.

## What came out

- The calculator calls `floor + sqrt(2 * stake * slope)` the floor that no reset
  strategy can beat. It is a floor under every strategy only if the stake or the slope is zero
  (`Pricing.FigureIsAFloorIff`, `Pricing.FlatCurveMeetsFigure`); otherwise resetting at the rounded optimum beats
  it, as it does at the calculator's own defaults (`Pricing.DefaultsUndercutTheFigure`).
  `Pricing.CalculatorFigureHoldsIff` says which strategies meet the figure,
  `Pricing.NoResetStrategyBeatsTheFloor` gives the bound that holds for all of them, and
  `Pricing.FloorIsAttained` shows that it cannot be raised.
- The int64 price is right exactly while the true price fits (`Pricing.CurvePrice64Exact`). For every request
  count it is known when the computed price keeps the floor and when it is positive
  (`Pricing.CurvePrice64SignIff`); validated configurations fail both (`Pricing.OverflowUndercutsTheFloor`).
- The operator receives a stake per enrollment and min(floor, stake) per forward in all
  runs exactly if no wrapped price lies strictly between zero and min(floor, stake) at
  a count that is reached, and invoices of somebody else on the same lnd node, which
  buy a forward too because the payment macaroon's signature is not verified, are
  worth min(floor, stake) (`Limits.FloorHoldsIff`). Both are tests on the configuration
  (`Limits.UnderpricedIff`), and a run breaks the floor wherever one of them fails.
- At-most-once acceptance on chain needs neither the `used` table nor a reliable
  store: it also holds when the IsUsed test is dropped (`OnchainProtocol.AtMostOnce`).
- SQLite truncates the expiry, so it refuses a payment that MemStore accepts in the
  last fraction of a second, and only there (`OnchainTraces.SQLiteRefinesMem`,
  `OnchainTraces.WindowIsReal`). It accepts only where MemStore does exactly as long as its
  look-ups succeed and its deletes are carried out (`OnchainTraces.AcceptanceRefinesIff`).
- A Lightning payment is spent once over all processes exactly if the store is SQLite
  (`Limits.SpentOnceIff`); with MemStore a token passes again after a restart (`Metered.MemStoreForgets`).
- A payment is marked used without buying anything exactly if the reply to the mark can
  be lost, or the mark succeeds and the random source fails (`Limits.NothingLostIff`).
- A browser without sessionStorage that has reached the anonymous cap enrolls again
  and again, paying a stake in every round, until the ten-minute sweep of the
  anonymous counters, a restart or the rate limiter ends it (`Client.WithoutStorage`, `Client.CallEndsIff`).
- The client misreads an enrollment challenge exactly if the invoice ends in
  `type=`; the macaroon can never cause it (`Wire.ChallengeRoundTrip`).
- Evicting idle addresses from the rate limiter is unobservable exactly if
  burst <= 600 * requests_per_second (`Limiter.SweepingUnnoticedIff`). Validation does
  not ask for that.
- Handlers that read a principal's count before either has incremented it quote one
  price twice (`Metering.ConcurrentQuotesCoincide`); still every request is counted once.

## Model

| member | source | states |
|---|---|---|
| Pricing.CurveSum | examples/cost-calculator/index.html:176 | The sum of the first n curve prices is the calculator's closed form floor\*n + slope\*n\*(n-1)/2, for every n. |
| Pricing.CurvePrice64Exact | internal/payment/pricing.go:6-11 | The wrapped int64 price equals the true price if and only if slope\*(n-1) <= 2^63-1-floor. |
| Pricing.CurvePrice64Rises | internal/payment/pricing.go:6-11 | Within that bound the price is never below the floor and strictly increases with the request number. |
| Pricing.CurvePrice64SignIff | internal/payment/pricing.go:6-11 | For every request count, the wrapped price is at least the floor iff the increment reduced to 64 bits leaves room for it, and positive iff that holds or the reduced increment exceeds 2^64 - floor. |
| Pricing.OverflowUndercutsTheFloor | internal/payment/pricing.go:6-11 | Validated configurations on the wrong side of both tests: a price of 4 where the floor is 10, and a negative price. |
| Pricing.NoResetStrategyBeatsTheFloor | examples/cost-calculator/index.html:191-193 | For every list of identities and request counts, (2T - 2\*floor\*M + slope\*M)^2 >= 8\*stake\*slope\*M^2, and the base is not negative. |
| Pricing.FloorIsAttained | examples/cost-calculator/index.html:191-193 | Equal identities at the optimal interval meet that bound with equality. |
| Pricing.CalculatorFigureHoldsIff | examples/cost-calculator/index.html:190-193 | A list of identities costs at least the calculator's figure per request if and only if the sum of (mStar - m_i)^2 is at least the number of requests. |
| Pricing.FigureIsAFloorIff | examples/cost-calculator/index.html:269 | With a positive slope, every list of identities meets the figure if and only if the stake is zero. |
| Pricing.FlatCurveMeetsFigure | examples/cost-calculator/index.html:190-193 | With no slope every list of identities meets it. |
| Pricing.DefaultsUndercutTheFigure | examples/cost-calculator/index.html:168 | At floor 10, slope 10 and stake 100000, 141 requests per identity cost less than the figure. |
| Satoshis.ConversionIsExact | internal/payment/onchain/client.go:87-93 | Every amount up to 21\*10^14 satoshis survives both roundings, with error below 0.467, whatever the rounding within relative error 2^-53. |
| Satoshis.ConversionIsExactIff | internal/payment/onchain/client.go:87-93 | An amount survives every such rounding if and only if two relative errors on it stay below one half. |
| Satoshis.PriceTestIsExact | internal/payment/onchain/verifier.go:130-136 | The price test on the converted float decides as on the true amount. |
| Satoshis.OneBitcoin | internal/payment/onchain/client.go:92 | One bitcoin converts to a hundred million satoshis. |
| Stores.TokenStore.IsUsed | internal/store/store.go:60-65 | Answers whether the key is spent; only SQLite can fail. |
| Stores.TokenStore.MarkUsed | internal/store/sqlite.go:58-67 | Adds exactly the key, unless the call is refused; an error can also follow a mark that was made. |
| Stores.TokenStore.AddPending | internal/store/sqlite.go:73-82 | Adds or replaces exactly one entry, its expiry cut to whole seconds by SQLite and exact in MemStore. |
| Stores.TokenStore.GetPending | internal/store/sqlite.go:84-97 | The entry as stored, absence as absence, failure as failure. |
| Stores.TokenStore.DeletePending | internal/store/store.go:90-95 | Removes exactly the address, unless the call is refused. |
| Stores.TokenStore.PruneExpiredPending | internal/store/store.go:97-106 | The deleting loop of MemStore and the statement of SQLite both remove the prunable entries and nothing else. |
| Stores.StaleIsPruned | internal/store/sqlite.go:107-115 | A prune takes every entry that has been expired for a second, and MemStore's takes exactly the expired ones. |
| Onchain.TrimSpaceTrims | internal/payment/onchain/verifier.go:101 | Trimming removes only blanks, from both ends, and leaves none there. |
| Onchain.Verifier.IssueChallenge | internal/payment/onchain/verifier.go:74-96 | New store and answer of the method are those of the specification: no price or no address is an error, otherwise the address is pending for an hour. |
| Onchain.Verifier.VerifyProof | internal/payment/onchain/verifier.go:100-145 | New store and answer of the method are those of the specification, which the protocol reduces to and the traces are about. |
| OnchainPayers.IssuedIff | internal/payment/onchain/verifier.go:74-96 | A challenge is issued exactly for a positive price, with an address and a store that answers; address, amount and lifetime are told in that order, and what is told is what is pending. |
| OnchainPayers.DeadlineIsTold | internal/payment/onchain/verifier.go:85-93 | The payer has at least the time the challenge tells him from the whole second of issuing, and at most a second more. |
| OnchainPayers.PayerIsServedIff | internal/payment/onchain/verifier.go:100-145 | Over every trace, with attempts before paying, other callers, pruning and faults in between, whoever first hands in a paid address is accepted if and only if the price has arrived and the hour has not passed (its whole second, with SQLite). |
| OnchainPayers.VerifyTouchesOne | internal/payment/onchain/verifier.go:117-144 | A verification leaves every other address as it was. |
| OnchainPayers.VerifyTakesIff | internal/payment/onchain/verifier.go:125-144 | Its own address it takes when accepting or finding it expired, marks used when accepting, and leaves alone otherwise, so that an early attempt costs nothing. |
| OnchainProtocol.StepKeepsInv | internal/payment/onchain/verifier.go:61-145 | Every instruction of every call, every issue step, prune, clock tick and crash keeps the invariant: mutual exclusion, true knowledge at every program counter, and exclusive claims. |
| OnchainProtocol.AtMostOnce | internal/payment/onchain/verifier.go:100-145 | In every interleaved run, with faults, crashes, either backend, and with or without the IsUsed test, an address is accepted at most once, and then was unexpired and paid its offered price. |
| OnchainProtocol.AcceptedStaysUsed | internal/store/sqlite.go:58-67 | With SQLite an accepted address is in the used table ever after, restarts included. |
| OnchainProtocol.SoloCallIsVerified | internal/payment/onchain/verifier.go:100-145 | The instructions of a VerifyProof that runs alone add up to the sequential specification, faults included. |
| OnchainProtocol.SoloIssueIsIssued | internal/payment/onchain/verifier.go:74-96 | So do those of an IssueChallenge. |
| OnchainTraces.PruningIsUnobservable | internal/payment/onchain/verifier.go:61-69 | Under a nondecreasing clock every VerifyProof returns what it would without any pruning, for either store and with faults. |
| OnchainTraces.SQLiteRefinesMem | internal/store/sqlite.go:73-115 | Over one trace SQLite answers as MemStore does, except that inside the sub-second window it denies; so it accepts only where MemStore does. |
| OnchainTraces.WindowIsReal | internal/store/sqlite.go:73-97 | A trace in which MemStore accepts and SQLite denies. |
| OnchainTraces.AcceptanceRefines | internal/payment/onchain/verifier.go:106-144 | Over every trace with any faults in issuing, and lost replies or failing marks in verifying, SQLite accepts only where MemStore does. |
| OnchainTraces.AcceptanceRefinesIff | internal/payment/onchain/verifier.go:106-144 | A combination of faults leaves that true of all traces if and only if the look-ups succeed and the delete is carried out. |
| OnchainTraces.FailedCallIsRetried | internal/payment/onchain/verifier.go:138-144 | After any other combination the client is accepted in a later call than MemStore's. |
| Encodings.HexRoundTrip | internal/payment/lightning/verifier.go:112 | Decoding hex inverts encoding, with two digits per byte. |
| Encodings.HexReencodes | internal/payment/lightning/token.go:48-58 | Re-encoding decoded hex gives the text in lower case. |
| Encodings.HexDecodesIff | internal/payment/lightning/token.go:48-58 | A string decodes if and only if it has an even number of hex digits, in either case. |
| Encodings.HexIgnoresCase | internal/payment/lightning/token.go:35-41 | Lower-casing makes no difference to what is decoded. |
| Encodings.HexAlphabet | internal/payment/lightning/verifier.go:112 | Digits are printed in lower case and read in both (section 8 of RFC 4648). |
| Encodings.Base64RoundTrip | internal/payment/lightning/verifier.go:78 | Decoding base64 inverts encoding for every byte string. |
| Encodings.BreaksAreSkipped | internal/payment/lightning/token.go:26 | A line break anywhere makes no difference to what base64 decodes. |
| Encodings.DecodedIsBase64 | internal/payment/lightning/token.go:26-29 | What decodes is whole groups of four letters of the alphabet, with at most two pads, at the end. |
| Encodings.Base64Alphabet | internal/payment/lightning/verifier.go:78 | The alphabet is that of Table 1 of RFC 4648. |
| Encodings.ZeroPadBits | internal/payment/lightning/verifier.go:78 | The character before a pad has an index divisible by four (section 3.5 of RFC 4648). |
| Wire.MatchType | examples/browser-paywall/l402-paywall.js:69 | What the type pattern finds in a printed header, in all three cases. |
| Wire.MatchIff | examples/browser-paywall/l402-paywall.js:67-69 | The pattern yields the leftmost non-empty quoted value after its key, and yields one if and only if there is one. |
| Wire.PlainTexts | internal/payment/lightning/verifier.go:79-182 | The challenge and token texts, written out. |
| Wire.ChallengeRoundTrip | examples/browser-paywall/l402-paywall.js:65-72 | The client parses what the proxy printed, macaroon, invoice and type, if and only if it is a toll or the invoice does not end in `type=`; for every macaroon and every quote-free invoice. |
| Wire.TokenRoundTrip | internal/payment/lightning/token.go:20-44 | Extracting and decoding inverts the client's header for every macaroon and 32-byte preimage, in hex of any case. |
| Wire.TokenHasParts | internal/payment/lightning/token.go:20-64 | A header seen as a token has the scheme, a base64 macaroon whose identifier is a 32-byte hash in hex, and a 32-byte preimage; it is seen with that hash as key, and as good exactly if the preimage hashes to it. |
| Wire.PartsMakeToken | internal/payment/lightning/token.go:20-64 | Every header with these parts is seen so. |
| Wire.NoTokenIff | internal/payment/lightning/verifier.go:138-143 | No token is seen exactly in a header of another scheme. |
| Wire.KeyIsLowerCaseId | internal/payment/lightning/verifier.go:246-256 | The anti-replay key is the identifier in lower case. |
| Wire.OneKeyPerHash | internal/payment/lightning/verifier.go:112-122 | Two identifiers share the used key if and only if they decode to one payment hash. |
| Wire.ChallengeBecomesToken | examples/browser-paywall/l402-paywall.js:91-93 | Printed, parsed, paid and sent back, a challenge reaches the verifier as its own key with a matching preimage. |
| Credentials.CredentialSoundness | internal/payment/lightning/credential.go:34-47 | A credential whose signature can be derived without the keys validates only if this process minted one for that principal, whatever caveats were added. |
| Credentials.CredentialCompleteness | internal/payment/lightning/credential.go:18-29 | A minted credential validates as its principal under any added conditions. |
| Credentials.OtherKeysNeverValidate | internal/payment/lightning/credential.go:14-17 | Payment macaroons and credentials of earlier processes never validate. |
| Credentials.ValidatesIff | internal/payment/lightning/credential.go:34-47 | What validates as p is exactly a credential minted for p with first-party conditions added. |
| Config.ValidatedIsSound | internal/config/config.go:105-143 | A configuration without complaint has positive prices on every route and in the curve, a positive rate and burst, exactly one backend, and a curve only over Lightning. |
| Config.NoComplaintIff | internal/config/config.go:70-145 | A configuration passes if and only if it has an address to listen on, one complete backend, sound optional sections and sound routes. |
| Limiter.ValidatedIsSane | internal/config/config.go:105-112 | A validated rate limit is one that the limiter's results are about. |
| Metered.StepKeepsInv | internal/proxy/proxy.go:190-318 | Every handler call, settlement, sweep and restart keeps eight invariants on ledger, invoices, counts, totals, keys, enrollments and prices. |
| Metered.Conservation | internal/payment/lightning/verifier.go:112-124 | In every process of every run, the used hashes are the payments the store remembers, each spent once, on one forward, one principal or one failed call; forwards are the request counts plus the anonymous ones, enrollments the accounts, each count that principal's forwards. |
| Metered.ConservationWithoutLoss | internal/proxy/proxy.go:224-267 | Where no mark succeeds with an error and randomness works, used hashes = request counts + anonymous forwards + principals, plus what SQLite kept from earlier processes. |
| Metered.NothingLost | internal/payment/lightning/verifier.go:214-236 | No payment is lost where each mark is refused, or succeeds with its reply and with working randomness. |
| Limits.NothingLostIff | internal/payment/lightning/verifier.go:214-236 | For each combination of mark fault, random failure and backend, all runs that meet it lose nothing if and only if it is of that kind. |
| Metered.MemStoreForgets | internal/store/store.go:44-58 | A run in which MemStore lets one token through twice, around a restart. |
| Limits.SpentOnceIff | internal/store/sqlite.go:47-67 | Over all processes of every run each payment hash is spent once, if and only if the store is SQLite. |
| Limits.RevenueFloor | internal/proxy/proxy.go:213-218 | Whatever clients do, received satoshis >= stake \* enrollments + min(floor, stake) \* forwards paid with the proxy's invoices, for all payments the store remembers, while no principal has come to a count with a price strictly between zero and min(floor, stake). |
| Limits.FloorHoldsIff | internal/payment/lightning/verifier.go:89-125 | All runs with at most so many forwards per principal and foreign invoices worth at least so much keep the full floor if and only if that worth is min(floor, stake) or more, or there are none, and no price up to that count is underpriced. |
| Limits.UnderpricedIff | internal/payment/pricing.go:6-11 | A price is underpriced if and only if slope \* count, reduced to 64 bits, lies in a window below 2^64. |
| Limits.UnderpricedBreaksFloor | internal/proxy/proxy.go:213-224 | A run for every configuration and count with such a price that ends below the floor. |
| Limits.ForeignInvoicesPass | internal/payment/lightning/verifier.go:89-125 | A run in which somebody else's invoice buys a forward, and keeps the floor if and only if it is worth min(floor, stake). |
| Metered.EnrollmentLifecycle | internal/proxy/proxy.go:382-398 | Every hash issued for enrollment is pending or used, pending hashes were issued, and a hash enrolls at most one principal, restarts included. |
| Metered.LeavesPendingUsed | internal/proxy/proxy.go:297-304 | A hash leaves the pending set only used, or with the process. |
| Metered.NeverUnknownPrincipal | internal/proxy/proxy.go:203-211 | The "unknown principal" answer is unreachable in every run, restarts included. |
| Metered.PricesArePositive | internal/proxy/proxy.go:213-220 | In every reachable state a challenge fails without lnd failing if and only if the caller's count fails the test for a positive price, and asks less than the floor if and only if it fails the test for the floor. |
| Metered.FittingPricesPass | internal/config/config.go:113-122 | A price that fits into int64 passes both tests under a validated curve. |
| Metered.FittingIsSafe | internal/payment/pricing.go:6-11 | Where the price after some count fits, no price up to it is underpriced. |
| Metered.NextPriceIsExact | internal/proxy/proxy.go:213-214 | While it fits into int64, the quoted price is the curve's price for the request count plus one, and at least the floor. |
| ProxyHandler.MemPrincipalStore.CreatePrincipal | internal/store/principal.go:29-34 | Adds the principal with count zero and changes no other. |
| ProxyHandler.MemPrincipalStore.GetPrincipal | internal/store/principal.go:36-44 | The record, or its absence. |
| ProxyHandler.MemPrincipalStore.IncrementRequestCount | internal/store/principal.go:46-55 | Raises that count by one and returns it; an unknown principal gives zero and no change. |
| ProxyHandler.LightningVerifier.IssueChallenge | internal/payment/lightning/verifier.go:57-82 | An invoice is added and a macaroon minted for its hash, unless the price is not positive or lnd fails. |
| ProxyHandler.LightningVerifier.VerifyProof | internal/payment/lightning/verifier.go:89-125 | Answer, used keys and spent payments follow the three checks and the mark. |
| ProxyHandler.LightningVerifier.CompleteEnrollment | internal/payment/lightning/verifier.go:191-237 | The same for an enrollment, which mints a credential only if everything succeeds. |
| ProxyHandler.Handler.ServeMetered | internal/proxy/proxy.go:190-295 | One request moves the whole proxy and answers exactly as the state machine says. |
| ProxyHandler.Handler.ServeCredentialed | internal/proxy/proxy.go:196-243 | So does the credentialed tier. |
| ProxyHandler.Handler.CompleteEnrollment | internal/proxy/proxy.go:297-318 | So does an enrollment payment. |
| ProxyHandler.Handler.IncrementAnonCount | internal/proxy/proxy.go:360-364 | Raises the counter of that address by one, from zero if absent. |
| ProxyHandler.Handler.SweepAnonCounts | internal/proxy/proxy.go:366-378 | The deleting loop is the sweep event of the state machine. |
| ProxyHandler.Restart | internal/payment/lightning/verifier.go:37-52 | New objects with new keys around the same lnd, and the same store if it is SQLite, are the restart event of the state machine. |
| Answers.GrantedIsPaid | internal/payment/lightning/verifier.go:89-125 | A request that is forwarded or enrolled carried the preimage of a settled invoice that was unspent, and exactly that key is used afterwards. |
| Answers.PaidIsGranted | internal/proxy/proxy.go:224-267 | When nothing fails, a good payment of an admitted caller is always honoured, as an enrollment exactly if it is pending as one, and raises exactly the count of the account or address it came from. |
| Answers.RefusalsIff | internal/proxy/proxy.go:195-276 | For each refusal, who gets it. |
| Answers.InvalidTokenIff | internal/proxy/proxy.go:229-232 | When nothing fails, a token for a known invoice is invalid if and only if its preimage is wrong, its invoice open or its key spent. |
| Answers.RefusalChangesNothing | internal/proxy/proxy.go:224-263 | A refusal leaves everything as it was, unless a mark or the random source failed half-way, when it costs the payment. |
| Answers.ChallengesIff | internal/proxy/proxy.go:270-294 | Who is challenged, for what, and that the challenge's invoice is the one added to lnd. |
| Answers.GrantedHeader | internal/payment/lightning/verifier.go:89-125 | From the header: what is handed out was asked for with the preimage of the payment hash it spends. |
| Answers.AnswersMatchPayments | internal/proxy/proxy.go:190-318 | Over every run, forwards and enrollments answered are as many as the payments spent on them; the rest are the lost ones. |
| Client.OneMoreCall | examples/browser-paywall/l402-paywall.js:601-681 | After n calls, one more takes at most four fetches and two payments and brings the resource if its price is positive, leaving the client standing after n + 1, and otherwise the error response without a payment. |
| Client.NextCallServedIff | internal/proxy/proxy.go:213-222 | After n payable calls, the next is served if and only if its int64 price is positive. |
| Client.CallsServedIff | examples/browser-paywall/l402-paywall.js:601-681 | All of n calls of a serial honest client are served, with recursion depth at most two, if and only if each of their prices is positive: a test on the configuration. |
| Client.TotalPaid | internal/proxy/proxy.go:278-294 | After cap + n calls the client has paid exactly cap\*floor + stake + floor\*n + slope\*n\*(n-1)/2, in cap + n + 1 payments. |
| Client.WithoutStorage | examples/browser-paywall/l402-paywall.js:31-41 | Without storage, a client at the cap pays one stake per round up to the first round that follows a sweep or a restart, which it leaves for the floor price, or that the limiter denies. |
| Client.WithoutStorageNeverEnds | examples/browser-paywall/l402-paywall.js:633-646 | With none of these, it recurses for as long as it is let and pays a stake in every round. |
| Client.CallEndsIff | examples/browser-paywall/l402-paywall.js:633-646 | A call comes to an end if and only if storage works, or the client is below the cap, or some round follows a sweep or a restart or is denied. |
| Client.HonestClientsExist | examples/browser-paywall/l402-paywall.js:601-604 | The premises of these results can be met: a page just opened against a proxy just started. |
| Client.ArrivesIntact | examples/browser-paywall/l402-paywall.js:614-631 | A challenge printed, parsed, paid and sent back is the kind and the token that the proxy expects. |
| Client.WireEngineIsEngine | examples/browser-paywall/l402-paywall.js:601-681 | The engine that goes through the real headers does what the engine of these results does, for every run whose invoices are well-formed. |
| Client.PaysOnlyWhatItReads | examples/browser-paywall/l402-paywall.js:611-633 | In a round the page pays at most once, the price asked, and only a challenge it can parse. |
| Client.HonestWireExists | examples/browser-paywall/l402-paywall.js:601-681 | For every client at the cap and any two new payment hashes the premises of that are met by a run that enrolls, recurses and is served. |
| Client.Page.Await | internal/proxy/proxy.go:366-378 | A sweep of the handler object and a restart into a new one are what the round's weather says. |
| Client.Page.OneRound | examples/browser-paywall/l402-paywall.js:601-639 | Fetch, parse, pay and fetch again, as the page does it, is one round of WireEngine. |
| Client.Page.Run | examples/browser-paywall/l402-paywall.js:601-681 | The engine as it changes the page, with real headers, against the handler object with its sweeps and restarts, is the function WireEngine. |
| Client.Open | internal/proxy/proxy.go:110-123 | A page opened against the objects of a fresh start is an anonymous client with nothing paid. |
| Metering.StepKeepsInv | internal/store/principal.go:36-55 | Every interleaved step keeps the history sequential, the counts right and the forwarded requests numbered. |
| Metering.NoLostMetering | internal/proxy/proxy.go:203-237 | With any interleaving of handlers, a RequestCount is the number of requests forwarded for that principal, and these were numbered 1 to the count without repetition. |
| Metering.EveryHandlerIsOnPath | internal/proxy/proxy.go:203-242 | In every run, what has happened to a handler that has forwarded is exactly: a read of the count, a payment found valid, and the increment whose number it got; likewise for challenged handlers, with the price quoted, and refused ones. |
| Metering.GetRefusesIff | internal/proxy/proxy.go:203-211 | A handler is turned away at the read exactly if there is no account. |
| Metering.EveryAnswerIsSequential | internal/proxy/proxy.go:203-214 | Every quoted price and returned count is what a meter serving one request at a time would answer at that point. |
| Metering.CountsNeverFall | internal/store/principal.go:46-55 | No run lowers a request count. |
| Metering.QuotesRise | internal/payment/pricing.go:6-11 | In the order of the reads a principal's prices never fall, and rise if and only if one of its requests was counted in between. |
| Metering.ConcurrentQuotesCoincide | internal/proxy/proxy.go:203-222 | Two handlers that both read before either counts are quoted the same price. |
| Limiter.SweepingUnnoticedIff | internal/proxy/proxy.go:411-438 | The evicting map gives the verdicts of one that never evicts, on all traffic and all cleanup schedules, if and only if burst <= 600 \* requests_per_second. |
| Limiter.VolleyPassesIff | internal/proxy/proxy.go:271-276 | n simultaneous requests of one address all pass if and only if n tokens are there, and then use exactly n. |
| Limiter.GrantedIsBounded | internal/proxy/proxy.go:411-421 | One address gets through no more than burst + requests_per_second \* elapsed time, also with eviction under the same condition. |
| Limiter.FreshVolleyPassesIff | internal/proxy/proxy.go:416 | An address not kept may send a burst at once, and no more. |
| Limiter.DrainedVolleyPassesIff | internal/proxy/proxy.go:271-276 | After a burst, n requests pass if and only if n is at most requests_per_second times the time since, and at most the burst. |
| Limiter.WaitingIsEnough | internal/proxy/proxy.go:411-421 | Whoever waits 1 / requests_per_second is let through, whatever was before. |
| Limiter.IpLimiters.Allow | internal/proxy/proxy.go:411-421 | Limiter lookup and token test change the map and answer as specified. |
| Limiter.IpLimiters.Cleanup | internal/proxy/proxy.go:423-438 | The deleting loop removes exactly the entries not seen for ten minutes. |

## Left out

- Pricing.FigureIsAFloorIff: takes the calculator's two square roots as real numbers whose squares are given; their rounding in JavaScript is not modelled.
- Satoshis.ConversionIsExact: assumes that bitcoind's decimal is parsed to within half an ulp and that the amount is not negative; subnormal results cannot occur at these sizes.
- OnchainTraces.PruningIsUnobservable: takes VerifyProof and IssueChallenge as single steps; their interleaving is in OnchainProtocol.
- OnchainTraces.SQLiteRefinesMem: is about traces without failing store calls, because the refusal halves differ as soon as a call fails; AcceptanceRefinesIff says which faults keep the acceptances in order, and AtMostOnce holds under all of them.
- Limits.RevenueFloor: with MemStore it is about the payments of the current process, since a restart lets earlier tokens pass again (SpentOnceIff).
- Client.TotalPaid: holds within the int64 bound, for a client that is alone on its address and with neither a sweep, a restart, a failure nor the rate limiter coming in between, because each of these changes the price asked.
- Client.CallEndsIff: the engine recurses without a bound, so it is given a sequence of rounds, and the statement is for every such sequence of two or more. Not among what a round can meet: a failing lnd, store or random source, which also ends a call; other clients behind the same address; and a restart within a round, between its challenge and its payment.
- Limiter.SweepingUnnoticedIff: reads one clock per request over real numbers; float rounding inside the token bucket library is not modelled, nor a requests_per_second that is NaN, which validation lets through.
- Metering.NoLostMetering: payment verification is one step with an arbitrary verdict; request counts are unbounded integers, so 2^63 requests of one principal are not modelled.
- Lightning handlers are atomic in `metered.dfy`: the Lightning verifier takes no lock between IsUsed and MarkUsed, so the model makes no claim about interleaved calls of it.
- MemStore and SQLiteStore are one class with a backend tag, since the interface is dispatched dynamically; their locks, the used_at column, SQL errors other than fault or no fault, and Close are not modelled.
- The maps of pointers to records (principals, limiters) are maps of values; nobody keeps a pointer across calls except the limiter that a request is using.
- SHA-256 is an arbitrary function, macaroon parsing an arbitrary partial function, and MACs are terms; third-party discharges, the macaroon library's key derivation and the binary encoding are not modelled. Strings that are identifiers are taken to be as unique as their random source promises.
- lnd is a map from payment hash to price and settled flag, bitcoind a source of fresh addresses and an oracle for received amounts; gRPC, JSON-RPC and TLS are left out.
- The JSON-body fallback after an enrollment (l402-paywall.js:648-659) is left out. It is reached only if the proxy restarts between an enrollment challenge and its payment: the new process does not know the hash as pending and forwards the paid request, so the answer is the upstream's, without a credential header, and the page parses its body.
- serveFlat and matchRoute: their one branch each adds nothing to the verifier they call; positivity of the route prices is in ValidatedIsSound.
- CORS headers, the settlement endpoint, client address parsing, YAML loading, process start-up and reverse-proxy forwarding are plumbing.
- The widget's modal, QR code, settlement polling and parseInvoiceAmount, and the calculator's controls and charts, are user interface.
