# Banking backend: a verified model

This project models the money-moving core of the mobile banking backend and proves what it keeps over every run:
card payments through Clip, QR payments through SIP/BMSC, the backoffice ledger that credits wallets, the card
table, the push-token registry, biometric login, the transaction charts, the fee split, the SIP idempotency key and
the name utilities. Check it with `dafny verify dfyconfig.toml`.

## How the model is built

*Payments as a transition system.* `PaymentMachine` runs any number of `createPayment`, `processPayment`,
`verifyPaymentStatus`, `handleClipWebhook`, `createSipQr` and `handleSipCallback` handlers interleaved. Each
`await` of the source is one turn, answered by an environment that may return, reject before the effect, or reject
after it (the lock request alone either answers or rejects without taking the lock). A handler's program counter
holds exactly its local variables, so stale reads and lost updates are part of the model: a repository merge is a
read turn and a write turn. The database is a table with its unique indexes, the named lock a map from lock names
to holders, the ledger a sequence of accepted top-ups. The flag `dedup` chooses the ledger: one that answers 409 to
a key it already holds (and may lose an answer after crediting), or a naive one that credits every request it
accepts.

*The layers.* `Payments` has the rows and the row updates. `PaymentTable`, `PaymentSafety`, `LockProtocol`,
`ProviderIds`, `ChargeBindings`, `CreditOnce`, `CallbackRuns`, `ChargeOnce` and `SipAliases` each carry one
inductive invariant of the same machine. `PaymentTheorems` holds the results about all runs, including a refinement
of the whole system to a two-rule specification (`Accounts`: a payment falls due, a due payment is paid once).
Safety alone would also hold of a system that does nothing, so `Undisturbed` and `UndisturbedSip` prove the other
half: every run in which a delivery is waiting can go on to the credit, with exactly the stated rows, ledger and
locks, and `Lifecycle` that any run can be followed by a whole card or QR payment, from creation to credit.
`PaymentStore` is the repositories as a class over the same row updates, and `LockConnections` shows that the
machine's lock is the database's re-entrant `NamedLock` when each delivery has its own connection;
`SharedConnections` says what happens when it has not.

*The rest.* Code that updates tables is a class whose methods are proved against a function of the old table
(`Cards`, `PushRegistry`, `Biometric`, `SipToken`), and the invariants are proved over every sequence of those
operations, each taken as one step. `OverlappingCards`, `OverlappingTokens`, `OverlappingSends` and
`OverlappingLogins` take these operations apart at their awaits: for usable cards, owners, device ids, sends and
logins there is an interleaving that fails and a theorem over all interleavings saying exactly when the promise
holds or, for logins, by how much it can fail. The charts keep the source's loops and its mutation of `Date`
objects, over a calendar proved equal to the closed form ECMAScript uses. Pure utilities are functions (`Fees`,
`SipKey`, `Names`).

*Assumptions stated as predicates.* `CreditOnce.Careful` and `ChargeBindings.Honest` (no process or verify write on
a credited payment, nothing rejects after a successful top-up, the provider never reuses a payment id and answers
about the id asked), `CallbackRuns.OneAtATime` (one callback per alias at a time; process and verify are not called
on QR payments) and `ChargeOnce.Orderly` (requests one at a time, every charge reply is recorded) appear as
`requires` of the theorems that need them and of no others. `GoodRuns` shows that such runs reach a credit.

*Where a promise fails.* A payment has at most one answered charge more than recorded replies that map to PENDING
(`ChargeOnce.ChargesBounded`), so a second one happens only after a recorded reply that maps to PENDING
(`ChargeOnce.SecondChargeNeedsReopening`) and is possible after every such reply
(`SecondCharge.ReopenedCanBeCharged`); `SecondCharge.RefundedIsChargedTwice` is such a run. "At most one physical
card per user" fails exactly under the two guards of `PhysicalCards.OnePhysicalCardExactly`, with a failing run for
each. A COMPLETED QR payment is credited exactly unless a callback abandoned it
(`Stranded.CompletedIsCreditedUnlessAbandoned`), and then never. After a QR was saved, and over completion, top-up
and mismatch writes, a repeated request gets the original answer if and only if no mismatch was recorded
(`PaymentStore.CachedReplyAgrees`). `Fees.StoredRateSuffices` shows that a stored row gives its net back if and
only if the fee rate has two decimals, which the default 0.052 does not (`DefaultRateIsTruncated`).
`PushRegistry.RegisterRefused` says exactly when a registration is refused, and `Names.ParseStable` exactly when
parsing is stable. `Calendar.MonthKeyOfIso` shows that chart month keys match ISO dates exactly in the years 1000
to 9999, because one template pads the year and the other does not.

## Model

| member | source | states |
|---|---|---|
| `PaymentTheorems.OneShotCredit` | src/services/payment.service.ts:198-434 | at every moment of every interleaved run with any failures, the ledger has at most one entry per payment, each entry is the net amount fixed at creation of an existing payment, and the total credited is the sum of those amounts over the credited payments |
| `PaymentTheorems.RunRefines` | src/services/payment.service.ts:198-434 | every run of the full system, seen through its accounts, is a run of the specification where payments fall due with a fixed amount and each is paid at most once |
| `PaymentTheorems.StepRefines` | src/services/bmsc.payment.service.ts:138-240 | each single step opens one account, pays one due and unpaid account its own amount, or is invisible to the accounts |
| `PaymentTheorems.AccountsBalanced` | src/utils/topup.utils.ts:46-54 | in every run of the specification the money paid out equals the sum of the amounts due on the paid accounts |
| `PaymentTheorems.MarkerSoundness` | src/services/payment.service.ts:324-401 | in every reachable state, a stored COMPLETED top-up marker, whether from the normal, the conflict or a stale merge path, has a ledger entry under that row's key with the marker's amount |
| `PaymentTheorems.NoCreditWithoutConfirmation` | src/services/payment.service.ts:244-305 | a row is COMPLETED or credited only if an earlier webhook turn read an approved, succeeded or completed status for it (Clip), or an earlier callback named its alias and agreed on amount within 0.01 and currency where given (SIP) |
| `PaymentTheorems.AlwaysSafe` | src/repositories/payment.repository.ts:161-195 | the joint invariant of rows, program counters and ledger holds in every reachable state |
| `PaymentSafety.SafeStep` | src/services/payment.service.ts:198-434 | every step of every handler, including each rejected await and each lost answer, keeps the joint invariant |
| `PaymentTable.TableStep` | prisma/schema.prisma:254-282 | every step keeps idempotency keys and aliases unique and every row's creation columns unchanged, and only adds to rows, ledger and history |
| `ProviderIds.IdsAlways` | prisma/schema.prisma:278 | in every run no two rows of one provider share a provider payment id |
| `ProviderIds.IdsStep` | src/repositories/payment.repository.ts:116-159 | every step keeps provider payment ids unique, since every write is guarded by the index |
| `Payments.MapClipStatusBeforeWebhook` | src/services/payment.service.ts:465-473 | for every status string, the value process and verify write is never COMPLETED |
| `Payments.MergeMarker` | src/repositories/payment.repository.ts:178-185 | a merge stores the marker it is given and otherwise keeps the one that was read |
| `LockProtocol.MutualExclusion` | src/repositories/payment.repository.ts:197-211 | in every run two webhook deliveries are never inside the critical section of the same key |
| `LockProtocol.ReleasedExactlyOnce` | src/services/payment.service.ts:221-434 | a delivery that acquired the lock has released it exactly once when it is over, however it ended, and not before |
| `NamedLock.HeldUntilFreed` | src/repositories/payment.repository.ts:197-224 | over any history of lock calls, a connection that has not released as often as it acquired still holds the name at exactly that depth, and every other connection is refused |
| `NamedLock.FreedByHolder` | src/repositories/payment.repository.ts:213-224 | acquired on a free name and released once, the name is free again whatever other connections tried meanwhile |
| `LockConnections.GrantedExactly` | src/services/payment.service.ts:221-226 | in every run a delivery about to lock can be granted the lock exactly when the database would grant it to that delivery's own connection |
| `LockConnections.LocksRefine` | src/services/payment.service.ts:221-434 | in every run each turn changes the locks by exactly the database operation it issues on its own connection |
| `SharedConnections.TogetherExactlyIfShared` | src/repositories/payment.repository.ts:197-224 | for any assignment of deliveries to connections, two can be inside one key's section at once, in some history, if and only if they share a connection |
| `SharedConnections.InsideOnlyIfShared` | src/repositories/payment.repository.ts:197-224 | after any history of entering and leaving, deliveries inside one key's section use one connection |
| `SharedConnections.SharedGoInTogether` | src/services/payment.service.ts:221-226 | a history in which two deliveries on one connection are both inside |
| `CreditOnce.LockAndMarkerSuffice` | src/services/payment.service.ts:221-434 | with a ledger that never deduplicates, in careful runs, every Clip payment is credited at most once under any interleaving of deliveries and any changes of provider status |
| `CreditOnce.CreditStep` | src/repositories/payment.repository.ts:161-224 | each careful step keeps: whoever holds the lock and has reread the row knows of any credit, and an unrecorded credit belongs to the lock holder about to record it |
| `SecondCharge.ErasedMarkerCreditsTwice` | src/services/payment.service.ts:160-196 | why care is needed: with a ledger that never deduplicates, any run can be followed by a card payment, a verify and a redelivery that credit one payment twice |
| `MovedId.MovedIdCreditsTwice` | src/services/payment.service.ts:160-262 | why honesty is needed: when verify is answered with another payment's id, a run that is careful in every step lets a delivery reread a row whose key it does not hold, and credits that row twice |
| `MovedId.MoveReadyReached` | src/services/payment.service.ts:42-140 | the state that run starts from is reached from nothing, carefully in every step |
| `MovedId.MovedIdFromNothing` | src/services/payment.service.ts:42-262 | such a run from nothing: two payments created and charged, their ids moved, one of them credited twice |
| `SecondCharge.VerifyErasesMarker` | src/repositories/payment.repository.ts:116-159 | verifying a payment replaces its payload, so a stored marker is gone, and touches nothing else |
| `ChargeBindings.BindStep` | src/services/payment.service.ts:203-262 | with an honest provider, the row reread under the lock is the row whose key names the lock, in every state |
| `ChargeOnce.ChargesBounded` | src/services/payment.service.ts:79-188 | with requests one at a time and charge replies recorded, a payment never has more than one answered charge beyond the replies recorded for it that map to PENDING |
| `ChargeOnce.AtMostOneAnsweredCharge` | src/services/payment.service.ts:79-140 | hence at most one answered charge until a reply recorded for that payment maps to PENDING |
| `ChargeOnce.SecondChargeNeedsReopening` | src/services/payment.service.ts:130-188 | a second answered charge of a payment happens only after process, verify or webhook recorded, for that payment, a reply that maps to PENDING |
| `SecondCharge.ReopenedCanBeCharged` | src/services/payment.service.ts:85-137 | conversely, every orderly run that has just recorded such a reply can go on, still orderly, to one more answered charge of that payment |
| `SecondCharge.ChargedTwice` | src/services/payment.service.ts:42-140 | any idle orderly run can be followed by a payment that is created, charged with a reply mapping to PENDING, and charged again |
| `SecondCharge.RefundedIsChargedTwice` | src/utils/payment.utils.ts:90-114 | a run from nothing in which the status `refunded` leads to two answered charges of one payment |
| `ChargeOnce.NeverPendingAgain` | src/services/payment.service.ts:130-137 | with more answered charges than such replies, the row is PENDING only while an answer is being written |
| `ChargeOnce.ProcessRefusedAfterCharge` | src/services/payment.service.ts:85-100 | with more answered charges than such replies, a later `processPayment` ends at its first check and changes no row |
| `ChargeOnce.RefundedIsUnknown` | src/utils/payment.utils.ts:90-114 | the status `refunded` is mapped to PENDING |
| `SipAliases.OneAliasPerKey` | src/services/bmsc.payment.service.ts:47-115 | under every interleaving of QR requests, any two posts to SIP under one idempotency key carry one alias, the alias of the single row stored under that key before the post |
| `SipAliases.RetryOnceAfterRefresh` | src/services/sip.bmsc.service.ts:31-45 | one request posts at most twice; the second post repeats the first and directly follows a token refresh |
| `CallbackRuns.CompletedAbsorbing` | src/services/bmsc.payment.service.ts:151-227 | once COMPLETED, a SIP row stays COMPLETED for the rest of the run |
| `CallbackRuns.TopupAtMostOnce` | src/services/bmsc.payment.service.ts:200-240 | over all callbacks, each abortable at any await, the ledger is asked at most once per SIP payment, and only after it is COMPLETED |
| `CallbackRuns.OneTransactionPerAlias` | src/repositories/bmsc.payment.repository.ts:165-193 | a transaction under an alias's reference is the only one, belongs to that alias's user, and has the amount of every ledger entry for that payment |
| `CallbackRuns.ReferenceInjective` | src/services/bmsc.payment.service.ts:200-226 | two aliases have the same transaction reference exactly when they are equal |
| `CallbackRuns.SeqStep` | src/services/bmsc.payment.service.ts:138-272 | every step keeps: a running callback's row is not topped up yet, or is completed by it, and each recorded transaction matches a row |
| `Stranded.CompletedIsCreditedUnlessAbandoned` | src/services/bmsc.payment.service.ts:200-240 | in every sequential run, a COMPLETED SIP payment with no callback on its way to the ledger is credited if and only if no callback step so far abandoned it: a rejected completion, transaction or refetch, no wallet, or an uncredited top-up |
| `Stranded.StrandedForever` | src/services/bmsc.payment.service.ts:151-227 | a COMPLETED SIP payment that was abandoned is never credited later, since no callback retries the top-up |
| `Stranded.StrandStep` | src/services/bmsc.payment.service.ts:151-240 | one step: stranded afterwards exactly when stranded before or abandoned by this step |
| `Undisturbed.WebhookCredits` | src/services/payment.service.ts:198-400 | from any run, an approved delivery on an unmarked payment can proceed to one new ledger entry of the fixed amount, the COMPLETED row with its marker and the provider's answer, the lock free again and nothing else changed |
| `Undisturbed.WebhookRepairsMarker` | src/services/payment.service.ts:366-388 | when the ledger already holds the key, the delivery adds no entry and stores the COMPLETED marker |
| `Undisturbed.RedeliveryIsHarmless` | src/services/payment.service.ts:306-323 | a redelivery on a marked payment makes no top-up request, keeps the marker and frees the lock |
| `UndisturbedSip.CallbackCredits` | src/services/bmsc.payment.service.ts:138-272 | from any run, a matching callback on an open payment can proceed to one transaction and one ledger entry of the same fixed amount and a COMPLETED row holding marker and callback, no other row changed |
| `UndisturbedSip.MismatchFails` | src/services/bmsc.payment.service.ts:157-199 | a disagreeing callback leaves the row FAILED with the reason, amount checked before currency, and no transaction or credit |
| `UndisturbedSip.QrIssued` | src/services/bmsc.payment.service.ts:76-133 | a first QR request stores exactly one PENDING row under its key with a fresh alias, posts that alias once and saves the QR in the row |
| `UndisturbedSip.ProcessCharges` | src/services/payment.service.ts:79-140 | processing a PENDING payment makes one charge, records the provider's id and reply, turns an approval into PROCESSING, and credits nothing |
| `Lifecycle.CardPayment` | src/services/payment.service.ts:42-434 | any run can be followed by a whole card payment, created, charged with an approval and confirmed by webhook, after which the ledger has gained exactly the net amount fixed at creation and the row is COMPLETED and marked |
| `Lifecycle.QrPayment` | src/services/bmsc.payment.service.ts:31-272 | any run can be followed by a whole QR payment, requested under a new key and paid by an agreeing callback, after which one transaction and one credit of the fixed net amount exist |
| `Lifecycle.UnknownKeyUncredited` | src/services/payment.service.ts:324-326 | a deduplicating ledger never holds a key that no payment row has |
| `GoodRuns.OrderlyCardPayment` | src/services/payment.service.ts:42-434 | after any idle orderly run a whole card payment stays orderly and ends credited |
| `GoodRuns.CarefulCardPayment` | src/services/payment.service.ts:42-434 | after any careful run a whole card payment with a new provider id stays careful and honest and ends credited |
| `GoodRuns.SequentialQrPayment` | src/services/bmsc.payment.service.ts:31-272 | after any idle sequential run a whole QR payment stays sequential and ends credited |
| `GoodRuns.EmptyRun` | src/services/payment.service.ts:42-434 | the run with no request is orderly, careful and sequential, so all of the above apply from the start |
| `PaymentStore.Store.InsertRow` | prisma/schema.prisma:270-278 | an insert succeeds exactly when the key is free and then adds one PENDING row under a new id |
| `PaymentStore.Store.CreatePayment` | src/repositories/payment.repository.ts:21-56 | the new row holds the given amounts, MXN by default, and the net amount as MXN net when none is given |
| `PaymentStore.Store.CreateSipPayment` | src/repositories/bmsc.payment.repository.ts:21-59 | the new row is a SIP row under its alias with net amount zero |
| `PaymentStore.Store.UpdatePaymentStatus` | src/repositories/payment.repository.ts:116-159 | succeeds exactly when the row exists and no other row of its provider has the new id; the row then has the status, the reply's id when it has one and the reply as its whole payload, and no other row changes |
| `PaymentStore.Store.MergeWebhookProcessingResult` | src/repositories/payment.repository.ts:161-195 | the payload keeps every field not given and the marker unless a new one is given |
| `PaymentStore.Store.SaveSipQrResponse` | src/repositories/bmsc.payment.repository.ts:93-110 | succeeds exactly when the row exists and no other row has the QR's id; the reply rebuilt from the row is then the original one |
| `PaymentStore.Store.MarkFailed` | src/repositories/bmsc.payment.repository.ts:115-128 | the row is FAILED and its payload is only the reason |
| `PaymentStore.Store.CompleteSipPayment` | src/repositories/bmsc.payment.repository.ts:134-159 | the row is COMPLETED and its payload gains the callback, keeping the rest |
| `PaymentStore.Store.CreateTopupIfNotExists` | src/repositories/bmsc.payment.repository.ts:165-193 | afterwards exactly one transaction has the reference, the earlier ones are untouched, and one was added only if there was none |
| `PaymentStore.Store.AcquirePaymentLock` | src/repositories/payment.repository.ts:197-211 | succeeds exactly when the caller's connection holds the name afterwards, and then every other connection is refused; otherwise nothing changes |
| `PaymentStore.Store.ReleasePaymentLock` | src/repositories/payment.repository.ts:213-224 | the last release of the holder lets any connection in, a release by anyone else changes nothing, and no other name is touched |
| `PaymentStore.CachedReplyAgrees` | src/services/bmsc.payment.service.ts:51-75 | after any history of completion, top-up and mismatch writes, the reply rebuilt from the row equals the original reply if and only if no mismatch was recorded |
| `PaymentStore.MismatchStays` | src/repositories/bmsc.payment.repository.ts:115-128 | once a mismatch is recorded, no later write brings the transaction id of the reply back |
| `PaymentStore.MergesKeepReply` | src/repositories/payment.repository.ts:178-185 | any number of completion and top-up merges leaves the rebuilt reply unchanged |
| `SipToken.TokenCache.RefreshToken` | src/services/sip.auth.service.ts:32-59 | a failed refresh leaves no cached token, a successful one caches the new token with its expiry |
| `SipToken.TokenCache.GetToken` | src/services/sip.auth.service.ts:24-31 | an unexpired cached token is returned without asking SIP; otherwise the token is a fresh one or none |
| `SipToken.TokenCache.WithToken` | src/services/sip.bmsc.service.ts:31-45 | the call is sent at most twice, the second time exactly after a 401 and with the refreshed token, and the result is that of the last attempt |
| `SipKey.BaseStringInjective` | src/utils/payment.utils.ts:71-88 | two requests have the same base string if and only if user, cents, currency and UTC minute all agree |
| `SipKey.KeysCollideExactly` | src/utils/payment.utils.ts:71-88 | under an injective hash, two requests share an idempotency key if and only if they are the same request in the same minute |
| `SipKey.ToFixed2Injective` | src/utils/payment.utils.ts:71-88 | two amounts print the same exactly when they round to the same cents |
| `SipKey.BucketInjective` | src/utils/payment.utils.ts:71-88 | the padded time bucket determines year, month, day, hour and minute |
| `Cards.ApplyKeeps` | src/services/card.service.ts:43-792 | every card operation keeps the table invariant, loses no row, and takes an owner off a card only by an unlink that retired it |
| `Cards.ActiveCardsAreUsable` | src/services/card.service.ts:43-100 | in every reachable table an ACTIVE or BLOCKED card has an owner and a prospera id |
| `Cards.ChangesHandsOnlyByUnlink` | src/services/card.service.ts:758-792 | if a card has two different owners at two moments of a run, an unlink that retired it lies between |
| `OverlappingCards.KeptExactly` | src/services/card.service.ts:736-792 | with every check and write apart and any interleaving, an owner kept a card over a stretch of a run if and only if in it there was no unlink of theirs, no unlink let through for an earlier owner and no gift to somebody who had looked before |
| `OverlappingCards.LostInFlight` | src/middlewares/validateCardOwnership.ts:18-35 | if a request in flight finds its card no longer the user's it was let through for, one of those three writes took the card while it waited |
| `OverlappingCards.UnlinkTakesFromNewOwner` | src/services/card.service.ts:758-792 | a run in which two unlinks by one user are checked side by side and the second takes the card from the user it was assigned to in between |
| `OverlappingCards.UsableExactly` | src/services/card.service.ts:43-241 | over any interleaved run, every ACTIVE or BLOCKED card stayed usable if and only if no stop, unstop or activation wrote its status on a card whose owner an unlink had taken since the request was let through, with nobody given it since |
| `OverlappingCards.OrphanedByUnlink` | src/repositories/card.repository.ts:219-228 | in every run, a status lands on a card without an owner exactly when such an unlink happened while the request was in flight |
| `OverlappingCards.StillIssued` | src/services/card.service.ts:174-177 | whatever the interleaving, an ACTIVE or BLOCKED card has a prospera id |
| `OverlappingCards.CanOutliveUnlink` | src/services/card.service.ts:193-234 | after any run in which a status request and an unlink of one card are both about to write, the card can end ACTIVE or BLOCKED with no owner |
| `OverlappingCards.CanBeOrphaned` | src/services/card.service.ts:166-241 | and every run with an issued card of some user leads there |
| `OverlappingCards.StopOutlivesUnlink` | src/services/card.service.ts:166-199 | such a run from nothing: a stop is checked, an unlink goes through, and the stop writes |
| `OverlappingCards.TwoAssignmentsSideBySide` | src/services/card.service.ts:739-753 | a run in which two assignments look side by side and the card goes from one user to the other without an unlink |
| `Cards.DebitLookupFindsProsperaId` | src/services/card.service.ts:251-257 | in whatever order a user's cards are listed, the first ACTIVE one has a prospera id, and none is found only if none is ACTIVE |
| `Cards.FirstActiveFound` | src/services/card.service.ts:251-257 | the search returns an ACTIVE card with no ACTIVE card before it, and finds one exactly when there is one |
| `PhysicalCards.OnePhysicalCardExactly` | src/services/card.service.ts:466-756 | over a whole run a user never had two physical cards if and only if no request was supplied while they owned a PENDING or BLOCKED one and no assignment named a free physical card while they owned any |
| `PhysicalCards.OneStaysExactly` | src/repositories/card.repository.ts:178-188 | for each single operation, a user with at most one physical card keeps at most one if and only if the operation meets neither of those two guards |
| `PhysicalCards.TwoRequestsTwoCards` | src/services/card.service.ts:457-687 | a run of two ordered requests that leaves one user with two physical cards, since the first is PENDING and is not seen |
| `PhysicalCards.AssignedSecondCard` | src/services/card.service.ts:736-756 | a run in which an assignment gives a second card to a user whose first card the request's query would have seen |
| `OverlappingCards.TwoCardsSideBySide` | src/services/card.service.ts:457-472 | after any run with two cards in stock, two requests side by side by a user without a card give them both |
| `Cards.CardTable.ActivateCard` | src/services/card.service.ts:43-100 | an owner's batch card with a wallet and an issued prospera id becomes ACTIVE with that id, unless the id is taken; any other request changes nothing |
| `Cards.CardTable.StopCard` | src/services/card.service.ts:166-199 | an owner's card with a prospera id becomes BLOCKED once the backoffice accepts; any other request changes nothing |
| `Cards.CardTable.UnstopCard` | src/services/card.service.ts:201-241 | an owner's card with a prospera id becomes ACTIVE once the backoffice accepts; any other request changes nothing |
| `Cards.CardTable.CreateVirtualCard` | src/services/card.service.ts:304-342 | adds one ACTIVE virtual card of that user with the issued id, or changes nothing |
| `Cards.CardTable.RequestPhysicalCard` | src/services/card.service.ts:440-731 | a user without a physical card gets an available inventory card, or a new PENDING one when there is none and the order succeeds; a card taken from inventory stays assigned even if the address is then rejected |
| `Cards.CardTable.AssignCard` | src/services/card.service.ts:736-756 | only a card without an owner is taken, and nothing else about it changes |
| `Cards.CardTable.UnlinkCard` | src/services/card.service.ts:758-792 | an owner's card with a prospera id loses its owner and becomes INACTIVE only after the backoffice retired it |
| `Cards.CardTable.HandleBulkOrderCardNotification` | src/services/webhooks.service.ts:14-45 | the loop applies the notices in order up to the first refused update and keeps the table invariant |
| `PushRegistry.RegistryAlwaysOk` | src/repositories/pushDeviceToken.repository.ts:16-65 | after any history of registrations and deactivations no two rows share a token or a non-empty device id |
| `OverlappingTokens.DevicesUniqueExactly` | src/repositories/pushDeviceToken.repository.ts:31-52 | with lookup and write apart and any interleaving, device ids stayed unique if and only if no first registration was written after another row had got its device |
| `OverlappingTokens.TokensAlwaysUnique` | src/repositories/pushDeviceToken.repository.ts:31-65 | whatever the interleaving, no two rows share a token |
| `OverlappingTokens.TwoRowsOneDevice` | src/repositories/pushDeviceToken.repository.ts:31-52 | a run in which two users register one device side by side and two rows get its id |
| `PushRegistry.RegisterOwnsToken` | src/repositories/pushDeviceToken.repository.ts:23-65 | a successful registration leaves exactly one row with the token, active and owned by that user, and no other row changes |
| `PushRegistry.RegisterIdempotent` | src/repositories/pushDeviceToken.repository.ts:23-65 | repeating a successful registration succeeds and changes nothing |
| `PushRegistry.RegisterRefused` | prisma/schema.prisma:347-362 | a registration is refused if and only if its device is known and its token sits on another row, or the row it would write has the empty device id and the user already has one |
| `PushRegistry.SendRetiresExactlyTheDead` | src/services/notification.service.ts:26-99 | after a send the user's active rows are those found minus exactly the ones rejected with an invalid-token code, and no other user lost one |
| `OverlappingSends.OthersLoseExactly` | src/services/notification.service.ts:26-80 | with listing, sends and writes apart, in every run a send costs another user an active row if and only if that row got the token after the send had listed it |
| `OverlappingSends.AnotherUserLoses` | src/services/notification.service.ts:72-80 | a run in which a token is registered to another user after it was answered dead, and their row is switched off |
| `PushRegistry.Registry.UpsertDeviceToken` | src/repositories/pushDeviceToken.repository.ts:23-65 | the table becomes the registered one or stays as it was on a refused write |
| `PushRegistry.Registry.DeactivateToken` | src/repositories/pushDeviceToken.repository.ts:16-22 | exactly the row with the token is switched off; it fails only when there is none |
| `PushRegistry.Registry.SendToUser` | src/services/notification.service.ts:26-99 | the loop counts deliveries and dead tokens exactly, their sum is at most the tokens found, and exactly the dead rows are switched off |
| `Charts.BuildDailyData` | src/services/transactions.service.ts:78-132 | seven points Monday to Sunday with their labels, amounts and increments, nothing after today, although the loop moves `now` to midnight |
| `Charts.MondayOfWeek` | src/services/transactions.service.ts:94-97 | the computed day is a Monday and today is `(dow + 6) % 7` days after it |
| `Charts.TodayOnce` | src/services/transactions.service.ts:99-129 | exactly the point at index `(dow + 6) % 7` is marked current |
| `ChartTotals.WeekConserves` | src/services/transactions.service.ts:253 | for every transaction list the weekly total is the sum of the amounts dated Monday to today whose date ends the string or is followed by `T`, hence of all amounts dated Monday to today when every timestamp is so written |
| `Charts.BuildMonthlyData` | src/services/transactions.service.ts:134-191 | five consecutive months across year boundaries with labels, amounts and increments, only the last marked current |
| `ChartTotals.MonthsConserve` | src/services/transactions.service.ts:163-188 | for every transaction list the monthly total is the sum of the amounts dated in the queried window and in a four-digit year; no other transaction falls in any bucket |
| `ChartTotals.MonthsConserveAll` | src/services/transactions.service.ts:221-253 | with a current year from 1001 to 9999 the monthly total is the sum of every amount dated in the queried window |
| `ChartTotals.BucketsConserve` | src/services/transactions.service.ts:85-90 | for any chart of consecutive, injectively named buckets, each transaction whose key names a bucket is counted once and no other is counted |
| `ChartTotals.IsoNotExtended` | src/services/transactions.service.ts:87-108 | no ISO date is a proper beginning of another, so a date followed by other text matches no day |
| `Charts.Window` | src/services/transactions.service.ts:209-227 | the queried dates are Monday and Sunday of the week, or the first day four months back and the last day of this month |
| `ChartTotals.DailyChart` | src/services/transactions.service.ts:245-259 | the answer pairs the weekly chart with its conserved total |
| `ChartTotals.MonthlyChart` | src/services/transactions.service.ts:245-259 | the answer pairs the monthly chart with its conserved total |
| `Charts.PercentageWithinHalf` | src/services/transactions.service.ts:112-120 | with a positive previous amount the shown increment is within half a point of the true one |
| `Charts.Accumulate` | src/services/transactions.service.ts:85-90 | every key of the map holds the sum of the amounts with that key |
| `Charts.TotalBalance` | src/services/transactions.service.ts:253 | the reduced total is the sum of the points |
| `Calendar.CivilRoundTrip` | src/services/transactions.service.ts:164-165 | naming a civil date and reading back its year, month and day are inverse |
| `Calendar.ClosedForm` | src/services/transactions.service.ts:164-165 | adding up civil month lengths gives the leap-year formula, and dates the epoch the weekday is counted from |
| `Calendar.IsoInjective` | src/services/transactions.service.ts:102-106 | two days have the same ISO date exactly when they are the same day |
| `Calendar.MonthKeyOfIso` | src/services/transactions.service.ts:156-165 | the first seven characters of an ISO date are its month's key exactly in the years 1000 to 9999 |
| `Fees.CalculateFees` | src/utils/payment.utils.ts:25-45 | `applyFee` undoes the gross, and gross is fee plus net |
| `Fees.StoredRowBalances` | src/services/payment.service.ts:50-58 | the stored amount is stored fee plus stored net exactly when the rounding residues do not carry, hence whenever the net is whole cents, and is never off by more than a cent |
| `Fees.FractionalCentsMayNotBalance` | prisma/schema.prisma:260-265 | a net of half a cent at rate one half stores 0.01, 0.01 and 0.01 |
| `Fees.StoredAmountRecoversNet` | src/utils/exchangeRate.utils.ts:9-11 | the stored amount less the fee rate is within half a cent of the requested net |
| `Fees.StoredRateSuffices` | prisma/schema.prisma:263 | every net can be read back from its row to within half a cent if and only if the rate has two decimals |
| `Fees.DefaultRateIsTruncated` | src/config/config.ts:60 | at the default rate a net of 94.80 is charged 100 and reads back as 95 |
| `Biometric.OneLoginPerChallenge` | src/services/auth.biometric.service.ts:62-98 | in any run two successful verifications of one challenge are the same operation |
| `OverlappingLogins.LoginsBounded` | src/services/auth.biometric.service.ts:65-86 | with the awaits apart and any interleaving, a challenge logs in at most once more than verifications read it unspent while another already had |
| `OverlappingLogins.AllReadyLogIn` | src/services/auth.biometric.service.ts:65-98 | after any run, as many further logins of the challenge can follow as verifications have read it unspent and have a signature that stands |
| `OverlappingLogins.OverlapLogsInTwice` | src/services/auth.biometric.service.ts:65-86 | after any run that ends in an overlapping read with both signatures standing, two further logins can follow |
| `OverlappingLogins.TwoLoginsSideBySide` | src/services/auth.biometric.service.ts:65-86 | a run in which two verifications read one challenge side by side and both log in |
| `Biometric.LoginProvenance` | src/services/auth.biometric.service.ts:62-98 | every login follows a challenge issued to that device, within its stored expiry, and returns the user of the device's latest enrolment, whose key accepted the signature over that challenge |
| `Biometric.LoginGranted` | src/services/auth.biometric.service.ts:62-98 | conversely, an unspent challenge in time with a standing enrolment and an accepted signature logs that user in |
| `Biometric.IssuedOnce` | src/repositories/loginChallenges.repository.ts:4-18 | a challenge id is issued at most once in a run |
| `Biometric.CredentialOrigin` | src/repositories/deviceCredentials.repository.ts:5-33 | an active credential is the device's latest enrolment and was not revoked since |
| `Biometric.BiometricAuth.CreateChallenge` | src/services/auth.biometric.service.ts:38-60 | a challenge is stored exactly when the device has an active credential and the id is new |
| `Biometric.BiometricAuth.VerifyChallenge` | src/services/auth.biometric.service.ts:62-98 | the verdict is the first failing check in the source's order, and only a success consumes the challenge |
| `Biometric.BiometricAuth.EnrollDevice` | src/services/auth.biometric.service.ts:21-36 | the device's credential becomes the given key and user, active |
| `Names.FullNameOfParsed` | scripts/utils/format.utils.ts:20-46 | for every string, building a full name from the parsed parts gives its words joined by single spaces |
| `Names.ParseStable` | src/utils/buildFullName.ts:8-18 | parsing the built name gives the same parts if and only if the input is empty or has a non-space character |
| `Names.PartsAreWords` | scripts/utils/format.utils.ts:25 | trimming and splitting at space runs gives exactly the maximal non-space runs, or one empty part |
| `Names.WordsOfJoin` | src/utils/buildFullName.ts:14-18 | words joined by single spaces read back as the same words |

## Left out

- CreditOnce.LockAndMarkerSuffice: speaks of Clip payments in careful and honest runs; `SecondCharge.ErasedMarkerCreditsTwice` and `MovedId.MovedIdCreditsTwice` show that it fails without either.
- ChargeOnce.AtMostOneAnsweredCharge: counts answered charges; a charge whose answer is lost is not counted, because the backend cannot know of it.
- Charts.Window: needs a clock past the year 100, since `new Date(y, ...)` reads smaller years as 1900 and up.
- Cards.CardTable.RequestPhysicalCard: addresses, delivery data and the bulk order's contents are reduced to accepted or rejected.
- PaymentStore.Store.AcquirePaymentLock: the five-second wait of `GET_LOCK` is reduced to granted or refused at once.
- LockConnections.LocksRefine: gives each delivery its own connection; what sharing a pooled connection changes is `SharedConnections.TogetherExactlyIfShared`.
- LockProtocol.ReleasedExactlyOnce: a lock whose grant is lost on the way back is not modelled; the source would never release it.
- Biometric.OneLoginPerChallenge: takes each operation as one step; overlapping verifications are in `OverlappingLogins`.
- Cards.ChangesHandsOnlyByUnlink: takes each operation as one step; with the awaits apart it is `OverlappingCards.KeptExactly`.
- Cards.ActiveCardsAreUsable: takes each operation as one step; with the awaits apart it is `OverlappingCards.UsableExactly`.
- Cards.DebitLookupFindsProsperaId: takes each operation as one step; `OverlappingCards.StillIssued` is what it needs when they overlap.
- PhysicalCards.OnePhysicalCardExactly: takes each operation as one step; `OverlappingCards.TwoCardsSideBySide` shows two requests side by side that each find a card.
- PushRegistry.SendRetiresExactlyTheDead: takes a whole send as one step; with the awaits apart it is `OverlappingSends.OthersLoseExactly`.
- Biometric.LoginProvenance: takes each operation as one step, so the credential is read together with the challenge.
- SipToken.TokenCache.WithToken: one request at a time uses the cache; concurrent requests could refresh it side by side.
- PushRegistry.RegistryAlwaysOk: takes each operation as one step; overlapping registrations are in `OverlappingTokens`.
- PaymentStore.CachedReplyAgrees: starts from a saved QR; an unsaved QR, or a process or verify write on the row, also loses the reply.
- Errors after a successful top-up: a conflict error, which only the backoffice client raises, is taken to come from the top-up itself; the later merge, mail and notice fail with other errors and take the failure branch.
- Timestamps that do not start with an ISO date: the chart theorems speak of dated transactions, whatever follows the date.
- Time zones other than UTC, IEEE floating point and NaN: amounts are reals or whole cents and dates are UTC days.
- Hashing, random aliases, challenge ids and signatures: an injective function, fresh values and an arbitrary acceptance predicate.
- MySQL collations: keys, aliases, tokens and statuses compare by exact characters, and statuses are lower-cased in ASCII.
- Columns such as `updated_at`, `last_used_at` and `process_attempts`: no branch of the modelled code reads them.
- Emails, push notices, receipts and client responses: their failures are rejected awaits, their contents are not modelled.
- The operations on payments run as turns of a transition system on values; update in place is modelled by the `PaymentStore` class.
- `extractClipWebhookPaymentId`, `getCardStatusByUser` and `buildBobMxnRate`: a first-match search, a tally and a quotient that no modelled state depends on.
- Profile, news, campaign, ramp and investment code: reads and writes of single rows without rules across operations.
- Controllers, routes, validators, configuration and the bulk scripts other than their card writes: plumbing around the modelled code.
