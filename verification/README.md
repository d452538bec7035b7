# CEP-8 payments: a Dafny model

This project models the CEP-8 payment stack of the ContextVM Rust SDK (`src/payments`, and the
parts of `src/transport` that feed it) and proves what the stack is for: no priced call
executes without a waiver, a claimed grant or a verified payment; no delivery of a request is
charged by both lifecycles, and no event gets a second transparent invoice inside its window;
a paid retry finds its grant, and finds it once. Where an invocation can be invoiced again,
the exact condition is proved.

| file | what it models |
|---|---|
| `Lru.dfy` | the bounded least-recently-used map that every cache of the stack is built on |
| `AuthorizationStore.dfy` | the explicit-gating store: granted and pending maps with lazy expiry, as a class |
| `StoreProperties.dfy` | the store against an unbounded TTL map: submap, agreement, conservation, survival, atomicity |
| `Gating.dfy` | the explicit-gating middleware as a concurrent protocol of handlers and verifiers |
| `Lifecycle.dfy` | one transparent lifecycle, with a panic possible at every await |
| `PendingPayments.dfy` | the transparent dedup cache, as a class |
| `TransparentDedup.dfy` | that cache under interleaving and stale clocks, and against a plain table of live payments |
| `Chain.dfy` | both middlewares in registration order: concurrent messages that become lifecycles or handlers |
| `Server.dfy` | sessions and mode negotiation in front of the chain |
| `Utf16.dfy`, `Jcs.dfy` | property order and text of RFC 8785 on JSON without fractions, and a reader for them |
| `Canonical.dfy` | the canonical invocation identity |
| `Backoff.dfy`, `ClientRetries.dfy` | the client's retry delays, raw-request cache, interceptions and retry tasks |
| `WalletChains.dfy` | the client's in-flight `pay_req` claims and wallet chains |
| `Heartbeats.dfy` | the client's shared heartbeat scheduler |
| `Redelivery.dfy` | one event delivered more than once, across a change of mode |
| `OfferCycles.dfy` | offer cycles of one identity, and when they overlap |
| `Settlement.dfy` | what a settled payment buys on the gating server |
| `Joint.dfy` | one client and the gating server as a single system: the paid round trip |

How to read it. State that the source updates under a lock is a class whose methods are the
critical sections; each method is proved equal to a function of the old contents, and the
properties are proved about that function. Code that awaits external calls or runs in
detached tasks is a state machine: a `Step` datatype, `Enabled`, `Next`, and theorems over
every sequence of steps. What a theorem says happened outside, such as a verification that
returned Ok, is an event of the run itself, not a flag of the model. Processors, senders, policies, callbacks, wallets and clocks are
parameters of the steps, so they answer anything, including an error or a panic. Time is in
whole milliseconds. Every operation reads its clock before it takes the lock, so a section's
instant is never assumed to be current. Store instants are not related to each other at all;
a dedup section's instant is at most the clock.

Where the code does less than one might expect, the exact condition is proved:

- The dedup cache is indistinguishable from a plain table of live payments if and only if no
  captured instant falls below one that had not fallen itself
  (`TransparentDedup.UnobservableIffValley`). A stale clock can make the early purge visible.
- An event redelivered after its session changed mode can be invoiced by both middlewares, the
  first invoice still open: neither looks at the other's memory. In every reachable state an
  event with an open invoice has no other invoice or offer if and only if the gating
  middleware is not registered, or the limits leave no room for a payment or no window
  (`Redelivery.InvoicedOnceIff`).
- Offer cycles of one identity can overlap, so two offers for it can be open at once. They do not
  overlap in a run if and only if every entry that meets a running cycle of its identity finds
  a live grant or a live pending entry (`OfferCycles.OneCycleIffGuarded`).
- The retry delays never shrink if and only if the retry budget is at most 2^31: the retry
  count is cast to a signed 32-bit integer (`Backoff.NonDecreasingIffBudgetFits`).
- The bare middleware chain lets a priced request through free if and only if the session is
  in explicit gating on a server that registered only the transparent middleware
  (`Chain.TerminalNeedsGrounds`). Negotiation never produces that combination
  (`Server.PricedRequestsArePaidFor`).
- A pending entry has no running cycle behind it if and only if the handler that opened it
  panicked before its verifier was spawned (`Gating.NoOrphanPending`,
  `Gating.PanickedInitiationLeavesAnOrphan`): only verification runs under an unwind boundary.
- Claiming and setting pending in two separate calls reopens a paid invocation
  (`StoreProperties.SplitReopens`); the composed call does not
  (`StoreProperties.ComposedNeverReopens`).

Verify with `dafny verify dfyconfig.toml`.

## Model

| member | source | states |
|---|---|---|
| Lru.Survives | src/payments/authorization_store.rs:42-47 | in a bounded map, an entry nobody rewrites or removes outlives any accesses that use fewer than capacity other keys since its own last use |
| AuthorizationStore.KeyOfInjective | src/payments/authorization_store.rs:115-120 | two identities share a composite key exactly when they are equal, given delimiter-free public keys |
| AuthorizationStore.StepValid | src/payments/authorization_store.rs:125-264 | every operation keeps both maps within capacity, with recency order and contents in step |
| AuthorizationStore.Store.constructor | src/payments/authorization_store.rs:96-104 | starts empty, with a capacity of at least one for both maps |
| AuthorizationStore.Store.Grant | src/payments/authorization_store.rs:125-134 | stores the expiry as the newest grant and removes the pending entry, atomically |
| AuthorizationStore.Store.Claim | src/payments/authorization_store.rs:141-153 | consumes the grant in every case and succeeds exactly when it was live |
| AuthorizationStore.Store.TrySetPending | src/payments/authorization_store.rs:161-178 | sets a pending entry exactly when none is live; the read promotes |
| AuthorizationStore.Store.UpdatePendingTtl | src/payments/authorization_store.rs:184-197 | retimes a live pending entry and no other |
| AuthorizationStore.Store.GetPendingRemainingMs | src/payments/authorization_store.rs:204-215 | the remaining time, zero when absent or past; the read promotes |
| AuthorizationStore.Store.ClearPending | src/payments/authorization_store.rs:218-221 | removes the pending entry and touches no grant |
| AuthorizationStore.Store.ClaimOrSetPending | src/payments/authorization_store.rs:237-264 | claims, parks or opens in one section, and what each leaves behind |
| StoreProperties.NeverMintsAGrant | src/payments/authorization_store.rs:125-153 | after every run the bounded grants are a submap of the unbounded ones, and every claim the bounded store answers the unbounded one answers too |
| StoreProperties.AgreesWithinCapacity | src/payments/authorization_store.rs:125-264 | while a run names at most capacity identities, every answer equals the unbounded store's |
| StoreProperties.GrantConservation | src/payments/authorization_store.rs:125-153 | in every run and for every identity, grants made = claims answered with success + expired at claim + overwritten + evicted + held |
| StoreProperties.GrantSurvives | src/payments/authorization_store.rs:132-133 | an unclaimed grant is held until at least capacity other identities are granted after it, whatever happens to the pending map |
| StoreProperties.PendingSurvives | src/payments/authorization_store.rs:166-177 | a pending entry that nothing accesses in its map stays while fewer than capacity other identities are used there since its own last use, however many grants are issued or claimed, its own included |
| StoreProperties.TracesExplainRun | src/payments/authorization_store.rs:125-264 | every run acts on each map as a list of reads, writes and removals, so neither map's pressure reaches the other |
| StoreProperties.ComposedIsClaimThenTrySet | src/payments/authorization_store.rs:237-264 | the composed call is an uninterrupted claim followed by an attempt to set pending |
| StoreProperties.ComposedNeverReopens | src/payments/authorization_store.rs:237-264 | with a live pending entry, and any live grants, retimes and reads of the same identity and any traffic below capacity landing first, the caller is never told to open a payment |
| StoreProperties.SplitReopens | src/payments/authorization_store.rs:141-178 | in every such state the two separate calls do open a second payment when a grant lands between them |
| Gating.ForwardsArePaidFor | src/payments/server_explicit_gating.rs:284-565 | in every interleaving and for each identity, claim-forwards <= payments whose verification returned Ok in the run <= offers whose publish returned Ok in it; each forward spends a different one of those payments, of its own identity, and a handler forwards without a claim only after its initiation answered waived |
| Gating.PhasesFollowAnswers | src/payments/server_explicit_gating.rs:324-565 | in every run each handler and verifier is exactly where the answers it got put it: waived, rejected, failed or panicked initiation, delivered, refused or panicked publish, returned verification, settlement |
| Gating.EntryAnswers | src/payments/server_explicit_gating.rs:284-321 | an entry claims, parks or opens exactly as a grant, else a pending entry, else neither is live at its instant |
| Gating.OneVerifierPerOffer | src/payments/server_explicit_gating.rs:440-516 | verifiers, spawned by a step of their own, match the published offers one to one, apart from handlers about to spawn theirs |
| Gating.ClaimIsFinal | src/payments/server_explicit_gating.rs:284-295 | no step of any run takes a claim back or moves it to another payment |
| Gating.GatedRequestIsDropped | src/payments/server_explicit_gating.rs:440-477 | a handler that published an offer never forwards its request |
| Gating.NoOrphanPending | src/payments/server_explicit_gating.rs:297-564 | a pending entry belongs to the cycle that last opened it, in flight with its handler or its verifier unless the handler panicked; a cycle that is over released exactly once, any other not at all |
| Gating.ParkedBehindACycle | src/payments/server_explicit_gating.rs:297-317 | every -32043 parks its client behind a cycle for the same invocation |
| Gating.PanickedInitiationLeavesAnOrphan | src/payments/server_explicit_gating.rs:324-333 | for every identity and capacity, a panic in initiation leaves a pending entry with no cycle running |
| Lifecycle.Outcome | src/payments/server_payments.rs:507-711 | every run, with a panic possible at every await, ends as the outside answers say: its result, whether it was waived, invoiced and verified, and how often it was forwarded |
| Lifecycle.FailureClassification | src/payments/server_payments.rs:473-503 | on every failing exit the failure is pre-invoice exactly when the invoice publish did not return Ok; a run forwards at most once, only if the price was waived or the payment verified, and never after a rejection |
| Lifecycle.VerifiedIsForwarded | src/payments/server_payments.rs:644-711 | a verified payment is forwarded whether the acceptance publish succeeds or fails, exactly unless a panic comes first |
| Lifecycle.AdvanceOk | src/payments/server_payments.rs:507-711 | the invariant that every await of every run keeps, tied to what the outside answered, and that the issued flag never lags the publish |
| Lifecycle.RunLifecycleInner | src/payments/server_payments.rs:507-711 | the call sequence with its early returns computes the finished run |
| Lifecycle.RunLifecycle | src/payments/server_payments.rs:448-504 | the unwind boundary turns a panic into the failure that the issued flag implies, so result and forwards are those the outside answers say |
| PendingPayments.PendingCache.constructor | src/payments/server_payments.rs:187-205 | a zero maximum becomes capacity one with every priced request refused |
| PendingPayments.PendingCache.PurgeExpiredPending | src/payments/server_payments.rs:261-272 | removes exactly the expired entries among the 25 least recently used |
| PendingPayments.PendingCache.FindExpired | src/payments/server_payments.rs:384-396 | finds the most recently used expired entry, or none when all are live |
| PendingPayments.PendingCache.Admit | src/payments/server_payments.rs:339-412 | purge, then join a live entry, refuse when full of live ones, or start and insert |
| PendingPayments.PendingCache.CleanUp | src/payments/server_payments.rs:421-434 | removes the entry only if it still belongs to the failed lifecycle |
| PendingPayments.PurgedKeeps | src/payments/server_payments.rs:261-272 | the purge keeps every live entry, unchanged, and adds none |
| PendingPayments.NoLiveEviction | src/payments/server_payments.rs:370-412 | whatever a section decides, every entry live at its instant stays unchanged |
| TransparentDedup.NoSecondChargeInWindow | src/payments/server_payments.rs:349-434 | in every interleaving, with stale clocks, purges, overwrites and foreign cleanups, once an invoice is published no other lifecycle for that event id starts inside its window |
| TransparentDedup.RefinesLiveTable | src/payments/server_payments.rs:370-412 | with instants that do not go back, the cache decides exactly as an unordered table of live payments |
| TransparentDedup.StaleInstantIsObservable | src/payments/server_payments.rs:349-372 | any instant that falls below one that had not fallen itself makes some run decide differently |
| TransparentDedup.UnobservableIffValley | src/payments/server_payments.rs:349-412 | the exact condition on captured instants under which purge depth and recency are unobservable |
| Chain.ChargedAtMostOnce | src/payments/server_transport_payments.rs:171-192 | in every interleaving of messages, lifecycles, handlers and verifiers, one delivery of a message is at most one of a lifecycle and a handler, shares it with no other delivery, and is charged by at most one; an unpriced one by none |
| Chain.GroundedUnlessUngated | src/payments/server_explicit_gating.rs:231-295 | outside the one ungated combination, the events of the run justify a priced message at the terminal: its lifecycle forwarded it once after a waiver or a verified payment, or its handler met a waiver or a payment for its own identity whose verification returned Ok and that no other handler spent |
| Chain.TerminalNeedsGrounds | src/payments/server_payments.rs:303-326 | over every run, that promise holds for a policy and a mode if and only if the mode is not gating on a transparent-only server |
| Chain.OnlyUnpaidIsDropped | src/payments/server_payments.rs:378-419 | in every run a dropped message is priced and has neither lifecycle nor handler; in gating it has no identity |
| Chain.ForwardedReachesTerminal | src/transport/server/middleware.rs:95-140 | in every reachable state a message its lifecycle or handler forwarded, and one that costs nothing, reaches the terminal by its own next steps |
| Chain.TransparentDecides | src/payments/server_payments.rs:303-419 | the transparent middleware passes on what is not its business, starts a lifecycle where the cache says start, and drops the rest |
| Chain.GatingDecides | src/payments/server_explicit_gating.rs:231-276 | the gating middleware passes on what is not its business, turns a request with an identity into a handler for it, and drops one without |
| Server.NegotiationIs | src/transport/server/mod.rs:2478-2537 | the session after a message and whether it is dispatched, for every tag, support and session: what is asked, what is in force, what must be disclosed again, and who is turned away |
| Server.NoGatingWithoutSupport | src/transport/server/mod.rs:2478-2537 | no inbound message puts a session in gating on a server without it |
| Server.ChainRuns | src/transport/server/mod.rs:3028-3047 | every run of the server is a run of the chain under the negotiated modes |
| Server.PricedRequestsArePaidFor | src/transport/server/mod.rs:3028-3047 | under either policy and whatever clients send, renegotiate or lose, in every interleaving each delivery is charged by at most one lifecycle, and the events of the run justify every priced one at the handler, as above |
| Redelivery.SecondInvoiceNeedsModeChange | src/payments/server_payments.rs:315-318 | of two deliveries of one event, never two have open invoices, and an offer beside an open invoice means they were dispatched in different modes |
| Redelivery.RedeliveryInvoicesTwice | src/transport/server/mod.rs:2492-2496 | for every priced event with an identity and all limits with room and a window, a server with both middlewares reaches a state with an open invoice and an offer for it |
| Redelivery.InvoicedOnceIff | src/payments/server_payments.rs:315-412 | an event with an open invoice has no other invoice or offer in any reachable state, if and only if gating is not registered or the limits leave no room or no window |
| OfferCycles.OneCycleIffGuarded | src/payments/server_explicit_gating.rs:402-415 | throughout a run at most one cycle of an identity is in flight, if and only if every entry that meets one finds a live grant or pending entry |
| OfferCycles.EntryOpens | src/payments/server_explicit_gating.rs:284-321 | in every reachable state an entry opens a cycle exactly when it finds neither a live grant nor a live pending entry |
| OfferCycles.ExpiryOpensTwoOffers | src/payments/server_explicit_gating.rs:402-415 | for every identity, capacity and timing, an entry after the pending window of the first can lead to two open offers |
| Utf16.EncodeIsReadBack | src/payments/canonical.rs:62-94 | every property name is read back from its UTF-16 code units by a decoder written after RFC 2781 |
| Utf16.EncodeInjective | src/payments/canonical.rs:62-94 | so distinct property names have distinct UTF-16 forms |
| Utf16.LexPrecedes | src/payments/canonical.rs:62-94 | the order of names is that of the first code unit that differs, a proper prefix first |
| Utf16.SortedIsStrict | src/payments/canonical.rs:62-94 | an object's properties have a strict order by UTF-16 units, each listed once |
| Utf16.SortedIsUnique | src/payments/canonical.rs:62-94 | any strictly ordered listing of an object's properties is that one |
| Jcs.ReadsBack | src/payments/canonical.rs:62-94 | a JSON reader written after RFC 8259 gets every value back from its canonical text, whatever delimited text follows |
| Jcs.NamesAreInOrder | src/payments/canonical.rs:62-94 | read back from the text of any object, the names come in the order of section 3.2.3 of RFC 8785, each once |
| Jcs.EscapeIsMinimal | src/payments/canonical.rs:62-94 | only quotes, backslashes and controls are escaped, in the short form where there is one, else in lower-case hexadecimal |
| Jcs.PrintDecode | src/payments/canonical.rs:62-94 | so no two values share a canonical text, whatever follows it |
| Canonical.FailsExactlyOnUnsafeIntegers | src/payments/canonical.rs:100-116 | canonicalization fails exactly when some path into the params that does not start at their `_meta` leads to an integer beyond 2^53 - 1 in magnitude |
| Canonical.SameTextIffSameInvocation | src/payments/canonical.rs:62-94 | equal text exactly when methods agree and params agree in every entry but `_meta`; absent and null params differ |
| Canonical.TextIsTheInvocation | src/payments/canonical.rs:62-94 | read as JSON, the text is the object of the method and the params without `_meta`, and nothing else |
| Canonical.MetaIsIgnored | src/payments/canonical.rs:62-94 | `_meta` changes neither text nor failure, whatever it holds |
| Canonical.SameKeyIffSameInvocation | src/payments/canonical.rs:48-57 | callers share an authorization key exactly when they are one client, one method and params equal in every entry but `_meta` |
| Backoff.BackoffIs | src/payments/client_payments.rs:405-409 | the delay in whole numbers: `retry_after` times three halves per retry made, in milliseconds rounded down, held between one and ten seconds |
| Backoff.WithinBand | src/payments/client_payments.rs:405-409 | every delay is between one and ten seconds |
| Backoff.NonDecreasingIffBudgetFits | src/payments/client_payments.rs:405-409 | for a constant `retry_after` the delays of a budget never shrink, if and only if it is at most 2^31 |
| Backoff.CastShrinksDelay | src/payments/client_payments.rs:405-409 | at 2^31 retries the delay drops back to the floor |
| ClientRetries.RawRequestCache.constructor | src/payments/client_payments.rs:522-523 | starts empty with room for 1000 requests |
| ClientRetries.RawRequestCache.CacheRawRequest | src/payments/client_payments.rs:536-549 | records the request under its id and carries the retry counter over |
| ClientRetries.RawRequestCache.OnTerminalResponse | src/payments/client_payments.rs:834-887 | one reaction per terminal: deliver, pay, or retry after a delay; a plain terminal drops the cached request |
| ClientRetries.RawRequestCache.InterceptPaymentRequired | src/payments/client_payments.rs:893-996 | intercepts only with a callback and a cached request, and replays that request |
| ClientRetries.RawRequestCache.InterceptPaymentPending | src/payments/client_payments.rs:1002-1081 | intercepts only below the budget, and counts the retry in the entry |
| ClientRetries.ReactionIs | src/payments/client_payments.rs:834-1081 | what the terminal hook does, from what the cache holds: pay, retry or deliver, and every entry and counter afterwards |
| ClientRetries.ReactionTouches | src/payments/client_payments.rs:893-1048 | an intercepted request becomes the newest; without a callback a -32042 changes nothing |
| ClientRetries.RecordedIs | src/payments/client_payments.rs:536-549 | a recorded request is filed under its id as the newest, with its counter, and changes no other entry |
| ClientRetries.RunIsBooked | src/payments/client_payments.rs:893-1081 | in every run sends, silent ends and visible answers are exactly those of its events: failed sends, sweeps, panics and cancellations are silent; deliveries, refusals and failed retries are visible |
| ClientRetries.OneAnswerPerRequest | src/payments/client_payments.rs:834-1081 | in every run and for every id, visible answers + silent ends + events on the wire + running tasks = application sends, and sends <= application sends + retries + approvals |
| ClientRetries.RetryBudget | src/payments/client_payments.rs:1013-1048 | while a request stays cached, its retries never exceed what is left of the budget, across re-sends and payments |
| ClientRetries.TotalWaitIsBounded | src/payments/client_payments.rs:1013-1048 | the waits scheduled for it meanwhile sum to at most ten seconds for each retry its counter leaves |
| ClientRetries.WaitsNeverShrink | src/payments/client_payments.rs:1013-1048 | for a constant `retry_after` they are the backoff sequence from its counter on, and never shrink when the budget is at most 2^31 |
| ClientRetries.RetriesRepeatTheRequest | src/transport/client/mod.rs:760-770 | if ids are not reused, every event on the wire repeats what the application sent under its id |
| WalletChains.PayReqClaims.OnPaymentRequired | src/payments/client_payments.rs:617-731 | claims and spawns exactly for an offer that passes every gate and is not in flight |
| WalletChains.PayReqClaims.Release | src/payments/client_payments.rs:733-747 | gives up that claim and no other |
| WalletChains.OneWalletChainPerPayReq | src/payments/client_payments.rs:703-747 | in every interleaving the in-flight set is the set of running chains, and no two share a `pay_req` |
| WalletChains.WalletNeedsEveryYes | src/payments/client_payments.rs:633-806 | in every run the wallet is called for a chain once if its handler said yes and else never, and only if the policy, if any, said yes and the offer passed every gate |
| WalletChains.GatedOfferGetsAChain | src/payments/client_payments.rs:633-719 | an offer gets a chain exactly when it passes every gate and its `pay_req` is not in flight |
| Heartbeats.HeartbeatState.Insert | src/payments/client_payments.rs:1088-1102 | tracks a token once and leaves an existing deadline alone |
| Heartbeats.HeartbeatState.EnsureScheduler | src/payments/client_payments.rs:1126-1134 | hands out the duty to spawn exactly when nobody has it and an entry exists |
| Heartbeats.HeartbeatState.Tick | src/payments/client_payments.rs:1148-1160 | drops expired entries, and clears the flag exactly when it stops on an empty map |
| Heartbeats.HeartbeatState.Stop | src/payments/client_payments.rs:1170-1172 | removes one token |
| Heartbeats.NoLostWakeup | src/payments/client_payments.rs:1088-1172 | in every interleaving the flag is set exactly when one scheduler is live; until disposal a nonempty map means the flag is set or a registrar is on its way to set it |
| Heartbeats.TokensBeatIndependently | src/payments/client_payments.rs:1088-1172 | in every interleaving each token is tracked from its first registration, with that deadline, until it is stopped or a tick finds the deadline reached |
| Heartbeats.EnsureStartsScheduler | src/payments/client_payments.rs:1126-1134 | that registrar leaves exactly one live scheduler behind |
| Settlement.RunIsItsOps | src/payments/server_explicit_gating.rs:284-565 | every run of the gating protocol acts on the store as its sequence of store operations |
| Settlement.SettledPaymentForwardsOnce | src/payments/server_explicit_gating.rs:505-565 | in the protocol, the first handler to enter inside the window after a settlement is forwarded on that very payment, and through any further run no other handler is, overlapping cycles included |
| Joint.PayerIsServed | src/payments/client_payments.rs:893-996 | for every request with an identity, every client with a callback, every capacity and timing, one joint run sends, offers, pays, settles and retries, and forwards the retry alone on the payment |
| Joint.ReachableIsSound | src/payments/client_payments.rs:905-945 | in every joint state a handler for one of the client's invocations was started for an event of its own that computes that key and is what its id stands for |
| Joint.PaidRetryIsForwardedOnce | src/payments/server_explicit_gating.rs:260-295 | client and server in one run: once a payment for the client's event settles, the first handler to enter for an event under the same id is forwarded on that payment, and no other handler ever is |
| Joint.ApprovalsWithinOffers | src/payments/client_payments.rs:893-996 | in every joint state the payments the client approved for an invocation, under whatever ids, are no more than the offers published for it |

## Left out

- Relays, gift wrapping, signing, discovery, the gateway and proxy shells, `rmcp` conversion and the `contextvm-ffi` crate: input and output, cryptography and marshalling.
- SHA-256: an identity carries the canonical text itself, so collision freedom is not claimed.
- JSON numbers with a fraction or exponent: `1` and `1.0` print alike, so distinct values would share a text. `Jcs.Print` covers the integers that fit the source's two integer widths.
- `server_payments_utils.rs`: processor maps, capability matching, verification timeouts and invoice resolution are settled by reading one branch each, and enter the model as the outcome of initiation.
- Error builders, the 1 to 2 second clamp of `-32043`, tags, options, logs and serde details.
- Publication of the `-32043` response itself: whether it succeeds changes no state.
- At most one offer per identity: not promised by the source, where a cycle does not own its pending entry; `OfferCycles` says when it holds.
- Gating.ForwardsArePaidFor: models `handle` and `spawn_verification` as protocol steps on a value of the store, because other tasks run between their critical sections; the sections themselves are the methods of `AuthorizationStore.Store`.
- Gating.NoOrphanPending: a cancelled handler task is not modelled; a panicked one is.
- TransparentDedup.NoSecondChargeInWindow: a waived request whose downstream handler panics counts as pre-invoice and may run again, as in the source.
- PendingPayments.PendingCache.Admit: the shared future a duplicate awaits is the number of its lifecycle, so sameness of two futures is equality of numbers.
- Backoff.WithinBand: floating point is read as exact reals; rounding, and the not-a-number product of a zero `retry_after` with an overflowing power, are not modelled.
- ClientRetries.OneAnswerPerRequest: terminals without a correlation entry pass through the engine untouched and are not counted; correlation entries are consumed at most once, as the correlation store promises.
- WalletChains.OneWalletChainPerPayReq: disposal, which clears the claim set while chains may still run, is not modelled; synthesized declines are not counted.
- Chain.ChargedAtMostOnce: what `handle` returns to its caller, and the route cleanup that follows a drop, are not modelled; a duplicate that joins a lifecycle is dropped at once.
- Server.PricedRequestsArePaidFor: the frames of an oversized message are not modelled, only that its dispatch comes later, under the mode captured with some frame.
- Joint.ApprovalsWithinOffers: `-32043` and other terminals may reach the client at any time; only the arrival of `-32042` is tied to the server.
- Heartbeats.NoLostWakeup: the beats themselves are not modelled; one may be emitted after a stop, because beats leave after the lock is released.
- The payment-lifetime touch loop: its exit cleanup removes by key, not by owner, and the correlation store it refreshes is not part of this model.
- Joint.PaidRetryIsForwardedOnce: expiry and eviction are excluded by its premises, because either one loses a grant by design.
