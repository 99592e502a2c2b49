# Snack Manager, verified

A model, in Dafny, of the parts of Snack Manager where a mistake costs a sale, a card, a customer's
data or a cent: the offline mutation queue and its tenant boundary, the loyalty enrolment and ledger,
contract and invoice arithmetic, the kitchen board, and the host cache of the public site.

`dafny verify dfyconfig.toml` checks everything.

## What is modelled

**The offline queue** (`Queue*.dfy`, `FlushPass.dfy`, `SyncQueue.dfy`, `PairedClient.dfy`). A till keeps one
durable record (epoch, scope, retired scopes, purge flag, entries, rejections), the tenant's cells and an
identity. Every body that runs under the shared store lock is a *section*: a function of the disk, of the
volatile fields of one window and of how many of its writes get through. A crash or a refused write leaves
the disk after a prefix of the section's writes. `QueueWorld` lets any number of windows enqueue, flush,
acknowledge and use their scoped store while one lifecycle window boots, pairs and forgets, and may die at
any write; `QueueInvariant` to `QueueRuns` show that every step keeps one invariant; `QueueTheorems`,
`QueueRecovery` and `QueueLimits` draw the conclusions, and `QueueAnswers` says when each section goes through and what
it leaves. A network pass is an automaton of its awaits
(`FlushPass`). `SyncQueue` and `PairedClient` are the classes with their fields, loops and writes; each method
is proved to do exactly one section, or the sections of the lifecycle in their order, on whatever the storage
refuses. The KDS runs the same lifecycle with the unprotected purge (`protect == false`), but over five keys of its own:
the perimeter of the model is the till's six, and the theorems reach the KDS only up to that renaming, which is not proved.

**Loyalty** (`LoyaltyModel`, `LoyaltyFacts`, `LoyaltyLedger`, `LoyaltyTheorems`, `LoyaltyOperations`, `LoyaltyAnswers`,
`DemoLoyalty`, `Enrolment`, `EnrolmentProofs`, `EnrolmentCodes`).
The server is a state and a function per request, and a class that changes its maps in place. The till is a
panel with a persisted phase and one callback at a time; answers are lost, writes are refused, the till
restarts, other tills ask, and the clock advances.

**Contracts and invoices** (`Contracts`, `Billing`, `Vat`, `CheckDigits`). Amounts are integers of cents, rates are
exact rationals, the price grid is a parameter, a month is its absolute number.

**Reconciliation** (`Tickets`, `KitchenBoard`, `HostModel`, `HostCache`).

A run is a chain of states, each linked to the next by an action (`Wrappers.Chained`, `Wrappers.Reaches`); what the
theorems call reachable is what any such run leads to.

## What the model shows about the code

These are results about the code as it is; each has its lemma below.

- `enqueue` does not look at the path it is given. An entry that gets through can be read back if and only if
  its path starts with "/"; otherwise no window reads the queue again (`EnqueueReadableIffRooted`).
- A pairing whose last save is refused, followed by a second pairing that dies after writing its intent, leaves an
  identity that names another scope than the durable one, and every later boot stops
  (`RefusedSaveStrandsTheTill`). One uninterrupted boot recovers if and only if the identity names the durable
  scope (`RecoveryUnderRefusals`), which always holds when no write is refused (`CrashRecovery`).
- With two windows that purge, the early return of `completeClear` leaves the window's purge flag set, and the next
  bind writes it: the disk then holds a scope with a purge pending, which no fresh window can bind
  (`TwoPurgersLockTheNextTenantOut`). With one lifecycle window the flag is never set beside a scope.
- A loyalty operation id protects the direct earning that carries it and nothing else: an order is protected by its
  client id alone, and the id it carries is kept but never read. Under one id the server credits the direct earning,
  once, and every completed sale whose order carried it, so at most once if and only if the id served for one of these
  at most (`CreditsUnderAnOperation`); each further sale credits in full (`EachSaleCredits`), after a direct earning or
  after another sale (`TwoChannelsCreditTwice`, `TwoSalesCreditTwice`).
- A payment that falls due within the year is hidden from a client if and only if the frozen discount covers the bill of
  the month and one of the twelve months starts without it and owes something at the public price (`PaymentHiddenIff`).
- Entries of no scope on a till that names no device are kept by every boot and refuse every pairing; a pairing that dies
  on its intent then leaves a till that no boot recovers (`UnownedMatterRefusesPairing`).
- The payment score of a client who has left rises, from 50 to 80, when a piece becomes overdue (`ScoreRisesIff`).
- Luhn's key does not detect a zero and a nine that change places, although the comment above it says that it detects
  two digits that are inverted (`LuhnDetectsSwapsButZeroNine`). With the exception for La Poste a wrong digit can go
  undetected in three ways, each with its condition (`SiretDetectsOneError`).
- Gross to net to gross gives a gross amount back if and only if it is the gross of some net amount
  (`GrossNetGrossIff`); at 20 % every sixth one is not, and comes back a cent higher (`GrossNetGrossAtTwenty`).

## Model

| member | source | states |
|---|---|---|
| SyncQueue.KeyValueStore.Perform | packages/client-core/src/storage.ts:11-15 | a write or a removal either happens as a whole or is refused and changes nothing |
| SyncQueue.IdentitiesAreUnique | packages/client-core/src/sync-queue.ts:225-235 | the one pass with a set of seen ids answers true exactly when no id appears twice across entries and rejections |
| SyncQueue.SyncQueue.InvalidateScope | packages/client-core/src/sync-queue.ts:452-464 | the first invalidation raises the generation once; later ones change nothing |
| SyncQueue.SyncQueue.ReadDurableState | packages/client-core/src/sync-queue.ts:247-288 | a stored snapshot, or the v1 keys, are read back exactly when they have the shape required of a snapshot |
| SyncQueue.SyncQueue.RefreshBeforeMutation | packages/client-core/src/sync-queue.ts:440-450 | a window takes the disk's lists over only while epoch and scope are its own; otherwise it is invalidated and the disk untouched |
| SyncQueue.SyncQueue.PersistSnapshot | packages/client-core/src/sync-queue.ts:556-596 | the snapshot is written before the v1 keys are cleaned, a refusal in the clean-up is swallowed, and the disk is the one after a prefix of these writes |
| SyncQueue.SyncQueue.Enqueue | packages/client-core/src/sync-queue.ts:763-807 | disk, fields and verdict after the section are those of the specification, however many of its writes get through |
| SyncQueue.SyncQueue.AcquitterRejets | packages/client-core/src/sync-queue.ts:698-722 | the same for the acknowledgement of rejections: the given ids leave, or those that the window shows when none are given |
| SyncQueue.SyncQueue.Sort | packages/client-core/src/sync-queue.ts:921-935 | the loop splits the queue into what stays, in order, and the new rejections, latest first |
| SyncQueue.SyncQueue.CommitOutcomes | packages/client-core/src/sync-queue.ts:918-953 | the commit of a pass, including a `clear` that is called while the snapshot is being written: durable, then unpublished |
| SyncQueue.SyncQueue.AssertDurableScope | packages/client-core/src/sync-queue.ts:466-483 | a lost scope invalidates the window and says whether it was retired |
| SyncQueue.SyncQueue.ScopedRead | packages/client-core/src/sync-queue.ts:504-539 | a scoped read gives the cell only if the authority captured before the lock is still the window's and the disk's |
| SyncQueue.SyncQueue.ScopedPerform | packages/client-core/src/sync-queue.ts:504-539 | a scoped write reaches the disk on the same condition, and changes nothing otherwise |
| SyncQueue.SyncQueue.BindScope | packages/client-core/src/sync-queue.ts:598-623 | the tests before the first await and the claim of the scope, write by write |
| SyncQueue.SyncQueue.RunBindScope | packages/client-core/src/sync-queue.ts:625-676 | retired, pending, foreign or non-empty disks are refused untouched; a claim writes the flag that the window remembers |
| SyncQueue.SyncQueue.Clear | packages/client-core/src/sync-queue.ts:978-998 | a window without authority is turned away untouched; otherwise the generation moves before anything is awaited |
| SyncQueue.SyncQueue.WriteTombstone | packages/client-core/src/sync-queue.ts:1055-1066 | the v1 keys are overwritten first, then the tombstone; a refusal before it leaves the fields as they were |
| SyncQueue.SyncQueue.RunClear | packages/client-core/src/sync-queue.ts:1000-1108 | every branch of the purge, protected or not, write by write |
| SyncQueue.SyncQueue.CompleteClear | packages/client-core/src/sync-queue.ts:1110-1139 | the acknowledgement of a purge, with its early return |
| SyncQueue.Transport.SendQueued | packages/client-core/src/api.ts:206-221 | a send is logged with the generation it left under and answered by a classified response |
| SyncQueue.SyncQueue.AfterAnswer | packages/client-core/src/sync-queue.ts:866-883 | after an answer, others having run: a recorded outcome or the end of the pass; an unreadable check of a delivery becomes a failure |
| SyncQueue.SyncQueue.RunFlush | packages/client-core/src/sync-queue.ts:849-970 | with anything happening at every await: its sends and outcomes are those of one pass, it counts them, only its last send may leave under another generation; it stops early only when the generation moved, the authority was lost or the disk cannot be read, and otherwise commits at the end; alone, it reaches the end and commits on the disk it found |
| SyncQueue.SyncQueue.Flush | packages/client-core/src/sync-queue.ts:828-847 | the gate and the photograph: the pass is over the queue of the disk that was found, and nothing is sent only when the gate, the disk or an empty queue says so; alone, that disk is the one of the call and the pass reaches its end |
| FlushPass.AnswerDecides | packages/client-core/src/api.ts:206-221 | a success takes the entry off; any other final answer makes it a rejection with its id, path, body and amount and the answer's reason and status; otherwise the mutation stays field by field, with one more attempt |
| FlushPass.PassSendsInOrder | packages/client-core/src/sync-queue.ts:859-914 | however its awaits end, a pass sends in queue order and nothing twice |
| FlushPass.PassKeepsSubjectOrder | packages/client-core/src/sync-queue.ts:859-914 | an entry with a subject is sent only once every earlier one of that subject was sent in the pass and closed |
| FlushPass.FinishedPassTriedAll | packages/client-core/src/sync-queue.ts:859-914 | a pass that reaches its end has sent an entry, and has an outcome for it, if and only if no earlier entry of its subject failed; so every entry without a subject |
| FlushPass.LostCheckAfterAnswer | packages/client-core/src/sync-queue.ts:866-883 | a pass cut off after an answer records nothing; a delivery whose check cannot be read is kept in the queue and blocks its subject |
| QueueFacts.CommitConserves | packages/client-core/src/sync-queue.ts:918-946 | what a commit takes off entries and rejections together is exactly what the server confirmed |
| QueueFacts.StillQueuedKeepsPayload | packages/client-core/src/sync-queue.ts:925-936 | every entry that stays has the id, verb, path, body, subject, amount and date of the one it comes from, and every entry without a final outcome stays |
| QueueFacts.StillQueuedSorted | packages/client-core/src/sync-queue.ts:921-935 | a commit keeps the order of what stays |
| QueueFacts.WipeLands | packages/client-core/src/sync-queue.ts:1055-1066 | before its third write a purge has purged nothing; from then on the tombstone is durable |
| QueueSections.CommitValid | packages/client-core/src/sync-queue.ts:918-946 | whatever another window committed meanwhile, the lists after a commit have the required shape and unique ids |
| QueueAnswers.EnqueueSucceedsIff | packages/client-core/src/sync-queue.ts:763-807 | an enqueue returns if and only if the window holds the durable scope, the amount is absent or a non-negative safe integer, the id is new and the snapshot is written; the queue is then the old one followed by the entry |
| QueueAnswers.AcknowledgeSucceedsIff | packages/client-core/src/sync-queue.ts:698-722 | so does an acknowledgement, which takes off exactly the rejections that bear one of the ids and keeps the others in order |
| QueueAnswers.CommitLandsIff | packages/client-core/src/sync-queue.ts:915-946 | a commit reaches the disk if and only if its pass is current, the window's epoch and scope are the durable ones and the snapshot is written, and it decides the queue as the disk has it |
| QueueAnswers.LatestRefusalFirst | packages/client-core/src/sync-queue.ts:937-945 | of two refusals of one pass the later stands first |
| QueueAnswers.CheckHoldsIff | packages/client-core/src/sync-queue.ts:466-483 | the check around a send passes if and only if the window still holds the durable scope; otherwise it is invalidated and told whether its scope was retired |
| QueueAnswers.ScopedGuardIff | packages/client-core/src/sync-queue.ts:504-539 | so for the scoped store and the authority captured before the lock |
| QueueAnswers.BindSucceedsIff | packages/client-core/src/sync-queue.ts:598-676 | a window without a scope binds one if and only if the disk can be read, the scope was never retired, nothing is pending, no other scope is durable, a fresh pairing finds no work, and the claim is written |
| QueueAnswers.PurgeSucceedsIff | packages/client-core/src/sync-queue.ts:1000-1108 | a purge goes through if and only if the window holds the durable scope, there is no work or no protection, and the tombstone is written; the scope is then retired, one epoch on |
| QueueAnswers.PurgeOfAnUnreadableDisk | packages/client-core/src/sync-queue.ts:1010-1022 | a disk that cannot be read stops a protected purge and not an unprotected one |
| QueueAnswers.SnapshotReplacesTheOldKeys | packages/client-core/src/sync-queue.ts:556-596 | a snapshot that is written takes the place of the v1 keys, which hold nothing after the second write of the clean-up and are gone at its end |
| QueueAnswers.SettledTillBootsWithoutWriting | apps/pos/src/client.ts:239-281 | a till whose identity is in order boots without a single write |
| QueueAnswers.UndoTouchesItsOwnIntent | packages/client-core/src/storage.ts:72-84 | a pairing that failed puts back what stood before, but only over its own intent |
| QueueAnswers.PairingPairs | apps/pos/src/client.ts:308-345 | with every write granted, a pairing of an unpaired till without work pairs it under the new scope |
| QueueAnswers.ForgettingUnpairs | apps/pos/src/client.ts:392-404 | with every write granted, an unpairing leaves nothing of the tenant and retires its scope |
| QueueAnswers.TenantsFollowEachOther | apps/pos/src/client.ts:308-404 | one tenant after the other: unpaired and paired again, the till is under the new scope with nothing of the first left but its retired mark |
| QueueDataSteps.EnqueueInv | packages/client-core/src/sync-queue.ts:763-807 | an enqueue by any window keeps the world's invariant |
| QueueDataSteps.ScopedWriteInv | packages/client-core/src/sync-queue.ts:504-539 | so does a scoped write |
| QueuePassSteps.PassCommitInv | packages/client-core/src/sync-queue.ts:915-953 | so does the commit of a pass, current or cut off |
| QueuePassSteps.AttachInv | packages/client-core/src/sync-queue.ts:625-676 | so does a window that binds the scope it finds |
| QueueLifeSteps.AdvanceStep | apps/pos/src/client.ts:239-404 | so does every section of boot, pairing and unpairing, at every write |
| QueueRuns.NextInv | packages/client-core/src/sync-queue.ts:300-1140 | the invariant is kept by every step of every window |
| QueueTheorems.StartInv | packages/client-core/src/sync-queue.ts:369-418 | it holds on an installation, on an upgrade of a paired till from the v1 keys and after an earlier session |
| QueueTheorems.NothingIsLost | packages/client-core/src/sync-queue.ts:369-418 | over every run, what was accepted, v1 keys included, is on the disk as it was enqueued, field by field, or among the rejections with an answer the server gave for it, or was confirmed, or was refused and then acknowledged by hand; only the unprotected purge is excluded |
| QueueTheorems.EnqueuedIsKept | packages/client-core/src/sync-queue.ts:763-807 | the same said of the call: after an enqueue that returned and any run, the very mutation handed over is still there or was answered for |
| QueueTheorems.TenantIsolation | packages/client-core/src/sync-queue.ts:504-539 | over every run, whenever a scope is durable, every tenant cell was written under it |
| QueueTheorems.ScopedReadsAreOwn | packages/client-core/src/sync-queue.ts:504-539 | a scoped read that is let through reads what its own scope wrote |
| QueueTheorems.RetiredOnlyGrows | packages/client-core/src/sync-queue.ts:1023-1070 | over every run the retired scopes only grow and the epoch never falls, although a purge writes the copy a window holds in memory |
| QueueTheorems.RetiredScopeNeverReturns | packages/client-core/src/sync-queue.ts:631-654 | a scope that was ever retired is never durable again |
| QueueTheorems.DurableQueueInOrder | packages/client-core/src/sync-queue.ts:925-945 | the durable entries always stand in the order in which they were enqueued |
| QueueTheorems.SubjectOrder | packages/client-core/src/sync-queue.ts:838-914 | across passes, windows and replays, an entry with a subject is about to be sent only when every earlier one was confirmed or refused for good |
| QueueTheorems.PassesHoldRecorded | packages/client-core/src/sync-queue.ts:828-847 | a pass only ever holds, and so sends, what was enqueued under each id |
| QueueTheorems.CutPassIsHarmless | packages/client-core/src/sync-queue.ts:978-998 | a pass cut off by a purge sends at most once more and writes nothing |
| QueueTheorems.CommitsStayInTheirEpoch | packages/client-core/src/sync-queue.ts:918-946 | what a pass commits, it commits in the epoch and under the scope it photographed |
| QueueTheorems.NeverLockedOut | packages/client-core/src/sync-queue.ts:225-288 | every snapshot that any run writes can be read back |
| QueueTheorems.EnqueueReadableIffRooted | packages/client-core/src/sync-queue.ts:763-807 | an enqueue that gets through can be read back if and only if its path starts with a slash |
| QueueRecovery.BootRecoversIff | apps/pos/src/client.ts:239-281 | for every disk, one uninterrupted boot ends paired or fully unpaired if and only if a condition on the disk holds, and otherwise stops |
| QueueRecovery.RecoverableIffOwned | apps/pos/src/client.ts:239-281 | on the disks that runs reach, the condition is that the identity names the durable scope |
| QueueRecovery.CrashRecovery | apps/pos/src/client.ts:231-404 | when no write is refused, from a crash at any write of any run one uninterrupted boot ends paired or fully unpaired |
| QueueRecovery.RecoveryUnderRefusals | apps/pos/src/client.ts:308-352 | with refused writes, exactly when the identity still names the durable scope |
| QueueLimits.RefusedSaveStrandsTheTill | apps/pos/src/client.ts:308-352 | a concrete run with one refused save after which no boot recovers |
| QueueLimits.UnownedMatterRefusesPairing | packages/client-core/src/sync-queue.ts:646-650 | a disk with entries of no scope and no device: the boot keeps them and ends unpaired, every pairing is refused and undone, and one that dies on its intent cannot be recovered |
| QueueLimits.BindWritesTheRememberedFlag | packages/client-core/src/sync-queue.ts:625-676 | a bind writes a pending purge if and only if the window still remembers one |
| QueueLimits.TwoPurgersLockTheNextTenantOut | packages/client-core/src/sync-queue.ts:657-663 | two windows that purge leave the next tenant's scope durable with a purge pending, and no fresh window can bind it |
| PairedClient.IdentityLeavesLast | packages/client-core/src/storage.ts:33-46 | wherever a purge stops, as long as a key of the perimeter is left so is the identity; run to its end it leaves none; no other key is touched |
| PairedClient.PairedClient.PurgeKeysWithIdentityLast | packages/client-core/src/storage.ts:33-46 | every key once, the identity last, stopped by the first refusal; an identity outside the keys is an error and purges nothing |
| PairedClient.PairedClient.RestoreScopedIdentity | packages/client-core/src/storage.ts:91-110 | the identity if it decodes, else a purge of the perimeter |
| PairedClient.PairedClient.RestoreIdentityIfUnchanged | packages/client-core/src/storage.ts:72-84 | the old identity comes back only over the caller's own write |
| PairedClient.PairedClient.FinishInterruptedUnpair | apps/pos/src/client.ts:231-236 | the purge of the cells, then the acknowledgement |
| PairedClient.PairedClient.LoadPairedDevice | apps/pos/src/client.ts:239-281 | however the storage behaves its sections are those of the lifecycle; when nothing is refused it is the uninterrupted boot, and it succeeds exactly on the disks that can be recovered |
| PairedClient.PairedClient.PairFresh | apps/pos/src/client.ts:308-345 | intent, bind, identity; a bind that fails is undone |
| PairedClient.PairedClient.PersistKnown | apps/pos/src/client.ts:308-352 | for a device already paired: nothing when it is the same one, otherwise the bind of the scope it keeps and then the identity |
| PairedClient.PairedClient.ForgetPairedDevice | apps/pos/src/client.ts:392-404 | the queue, then the cells, then the acknowledgement; a queue without authority refuses and nothing changes |
| LoyaltyModel.Units | apps/pos/src/demo-loyalty.ts:194-203 | no unit exactly below the minimum purchase, from there on the number of whole hundred cents in it, never more than the maximum |
| LoyaltyFacts.ServeKept | apps/pos/src/demo-loyalty.ts:228-497 | every request keeps ids and phones distinct, one operation per card, cards in use exactly once acknowledged, and balances equal to earned less spent |
| LoyaltyAnswers.ForeignSessionIsRefused | apps/pos/src/demo-loyalty.ts:185-192 | another session than the one that prepared an operation gets 403 from each of the four routes, at any moment, and changes nothing |
| LoyaltyAnswers.CardsOnlyToTheirSession | apps/pos/src/demo-loyalty.ts:245-413 | over any session a card is only given to the session that first prepared its operation, and it is the card that this operation holds |
| LoyaltyAnswers.UnknownOperation | apps/pos/src/demo-loyalty.ts:245-413 | an unknown operation is opened by its preparation for half an hour, and answered 404 or 409 otherwise |
| LoyaltyAnswers.ClosedOperation | apps/pos/src/demo-loyalty.ts:245-413 | handed over, refused or late, an operation answers 410 and changes nothing, except an acknowledgement given again |
| LoyaltyAnswers.ReadyOperation | apps/pos/src/demo-loyalty.ts:245-413 | an open operation with a card gives the same card to every question, and its hand-over puts that card in use |
| LoyaltyAnswers.PreparedOperation | apps/pos/src/demo-loyalty.ts:245-413 | an open operation without a card makes one, not yet in use, if and only if the terms are accepted and nobody has the phone, and is otherwise refused for good |
| LoyaltyAnswers.NationalForm | apps/pos/src/demo-loyalty.ts:115-118 | a French number written from abroad stands for the national one |
| LoyaltyAnswers.EarningAnswers | apps/pos/src/demo-loyalty.ts:449-488 | a new operation id credits the card in use that is named, and no other, by the points of the purchase |
| LoyaltyAnswers.EarningReplays | apps/pos/src/demo-loyalty.ts:455-461 | a replay at any later moment answers the same points, whatever it says of the purchase, and changes nothing |
| LoyaltyAnswers.SaleAnswers | apps/pos/src/demo-loyalty.ts:543-615 | what each answer about a waiting sale does: cancelled, left waiting, credited to the card of the order alone, or failed |
| LoyaltyTheorems.UsableIffAcknowledged | apps/pos/src/demo-loyalty.ts:157-170 | over any session a card serves exactly when it is the seeded one or its operation was acknowledged |
| LoyaltyTheorems.ResolveFindsTheCard | apps/pos/src/demo-loyalty.ts:157-170 | a member id, a code and a phone with a digit each find their own card, and only in use |
| LoyaltyTheorems.OneCardPerOperation | apps/pos/src/demo-loyalty.ts:353-413 | over any session an operation makes at most one card, and every other card than the seeded one belongs to the operation that made it |
| LoyaltyTheorems.AcknowledgementReplays | apps/pos/src/demo-loyalty.ts:312-346 | once acknowledged, every replay by the owner succeeds at any later moment, expired or not, and changes nothing |
| LoyaltyTheorems.CreditsAtMostOnce | apps/pos/src/demo-loyalty.ts:451-486 | over any run each operation and each sale credits at most once |
| LoyaltyTheorems.SettledCreditsNothing | apps/pos/src/demo-loyalty.ts:543-593 | what is settled, one way or another, credits nothing any more, and no line of the ledger is ever taken back |
| LoyaltyTheorems.CancelledNeverCredits | apps/pos/src/demo-loyalty.ts:543-615 | a sale cancelled or refunded while its earning was pending, by the cancel route or by a status answer, even one that says delivered and paid, never credits afterwards |
| LoyaltyTheorems.CirculationIsTheLedger | apps/pos/src/demo-loyalty.ts:451-615 | whatever is asked, the points in circulation grow by exactly what the ledger credits |
| LoyaltyTheorems.BalanceIsTheLedger | apps/pos/src/demo-loyalty.ts:451-615 | each balance is earned less spent, never negative, and earned is the seed plus what the ledger gave that card |
| LoyaltyOperations.CreditsUnderAnOperation | apps/pos/src/demo-loyalty.ts:449-593 | over any session the credits under an operation id are its direct earning, once, and every completed sale whose order carried it: at most one if and only if it served for one of these at most |
| LoyaltyOperations.EachSaleCredits | apps/pos/src/demo-loyalty.ts:499-593 | a sale with a new client id credits in full, whatever was credited before under the id that it carries |
| LoyaltyOperations.TwoChannelsCreditTwice | apps/pos/src/demo-loyalty.ts:449-593 | from any state, a purchase told directly and with an order under the same id is credited twice |
| LoyaltyOperations.TwoSalesCreditTwice | apps/pos/src/demo-loyalty.ts:499-593 | from any state, so is one told with two orders |
| DemoLoyalty.DemoLoyalty.constructor | apps/pos/src/demo-loyalty.ts:120-146 | the seeded state |
| DemoLoyalty.DemoLoyalty.Handle | apps/pos/src/demo-loyalty.ts:228-638 | any request or order answer, in place: answer and maps become those of the request on the state, so every theorem over sessions is one over runs of this method |
| EnrolmentProofs.NextInv | apps/pos/src/LoyaltyPanel.tsx:127-478 | every step of the panel, every exchange, lost or not, and every request of another till keep the invariant |
| EnrolmentProofs.StoreInv | apps/pos/src/LoyaltyPanel.tsx:127-163 | so does every write of the phase and every removal, refused or not |
| EnrolmentProofs.ReadInv | apps/pos/src/LoyaltyPanel.tsx:248-338 | so does the opening of the panel on any phase |
| EnrolmentProofs.NoRecoveryAfterHandOver | apps/pos/src/LoyaltyPanel.tsx:458-474 | once a hand-over is on the disk the till never asks for that card again |
| EnrolmentProofs.OneLiveOperation | apps/pos/src/LoyaltyPanel.tsx:361-445 | however answers are lost and the till restarts, at most one of its operations can still make or activate a card |
| EnrolmentProofs.HandOverRefusedIffLate | apps/pos/src/LoyaltyPanel.tsx:210-246 | a hand-over that the till sends is refused exactly when it is late and was not acknowledged before |
| EnrolmentProofs.ConfirmedCardsServe | apps/pos/src/LoyaltyPanel.tsx:210-246 | a card whose hand-over was confirmed to the till serves |
| EnrolmentProofs.HandOverResumes | apps/pos/src/LoyaltyPanel.tsx:270-290 | after a restart, one opening closes a hand-over that was on the disk, and confirms it unless it is too late |
| EnrolmentProofs.LostCardResumes | apps/pos/src/LoyaltyPanel.tsx:165-208 | after a creation whose answer was lost, one opening shows the code of the card made then, and makes no other |
| EnrolmentCodes.CodeShownIsTheCards | apps/pos/src/LoyaltyPanel.tsx:165-208 | however the till got there, the code on the panel, or about to be, is that of the card which the server holds for the operation under way |
| EnrolmentCodes.NewCardIsShown | apps/pos/src/LoyaltyPanel.tsx:361-417 | the form sent from a blank panel, every answer in time: one new card, its code on the panel, the disk waiting for its hand-over |
| EnrolmentCodes.NewCardServes | apps/pos/src/LoyaltyPanel.tsx:458-474 | and handed over in time the card serves and the panel is blank again |
| EnrolmentCodes.TakenPhoneIsRefused | apps/pos/src/LoyaltyPanel.tsx:425-434 | a phone that somebody has makes no card and leaves the panel blank |
| EnrolmentCodes.PreparationResumes | apps/pos/src/LoyaltyPanel.tsx:270-290 | a preparation on the disk comes back to the form, with the same operation |
| EnrolmentCodes.ClosedOperationIsForgotten | apps/pos/src/LoyaltyPanel.tsx:144-163 | an operation over for good is forgotten by one opening |
| EnrolmentCodes.RetryShowsTheCard | apps/pos/src/LoyaltyPanel.tsx:447-456 | one press of the retry shows the code of a card whose answer or phase was lost |
| EnrolmentCodes.MadeMeanwhileIsShown | apps/pos/src/LoyaltyPanel.tsx:383-391 | a preparation that finds its card made goes on to show it |
| EnrolmentCodes.ReplayConfirms | apps/pos/src/LoyaltyPanel.tsx:210-246 | one press of the replay confirms a hand-over that went unanswered, unless it is too late |
| Contracts.DiscountIsHalfUpPerComponent | packages/contracts/src/crm.ts:635-646 | the frozen discount exceeds half the public price by exactly half a cent per odd component |
| Contracts.BillAgainstQuote | packages/contracts/src/crm.ts:803-813 | the first bill is the quote, less one cent for each line of it that joins two odd prices |
| Contracts.BillIsQuoteIff | packages/contracts/src/crm.ts:803-813 | bill and quote agree exactly when no line of the quote joins two odd prices |
| Contracts.BillIsQuoteToday | packages/contracts/src/crm.ts:214-227 | on the grid in force they always agree |
| Contracts.AdditionAtPublicPrice | packages/contracts/src/crm.ts:671-675 | under a frozen discount an addition raises the bill by its public price exactly when the discount was not larger than the price before |
| Contracts.FrozenAtSignature | packages/contracts/src/crm.ts:692-695 | what is added to a signed contract is paid at its public price; what is removed never makes the bill negative nor larger |
| Contracts.DiscountIsFrozen | packages/contracts/src/crm.ts:671-695 | up to its date, excluded, the discount is the frozen amount, never more than the price; without date, amount or time there is none |
| Contracts.OptionsAddTheirPrice | packages/contracts/src/crm.ts:523-542 | each option adds its own price, and only the ordering module is free under Boost |
| Contracts.DueLines | packages/contracts/src/crm.ts:772-791 | while the software can bear the discount it pays all of it, ten months of what is left if yearly, and the services are due whole; beyond that only a services line with the rest of both; no line is zero |
| Contracts.MonthlyLinesSumToTheBill | packages/contracts/src/crm.ts:772-791 | for a monthly client the lines sum to the monthly bill |
| Contracts.MonthDueIs | packages/contracts/src/crm.ts:709-722 | what one month owes: the services, and ten months of software in the anniversary month |
| Contracts.NormalisedMrrIsASum | packages/contracts/src/crm.ts:739-745 | the normalised revenue is the sum over the due lines, a yearly one for a twelfth rounded down |
| Contracts.YearOfDues | packages/contracts/src/crm.ts:709-745 | any twelve consecutive months owe ten times the software and twelve times the services, and at most ten cents more than twelve normalised months |
| Contracts.NextDue | packages/contracts/src/billing.ts:1208-1244 | the loop of twelve tries, and nothing for a client who is not billable or has nothing recurrent |
| Contracts.FirstOwingIsFirst | packages/contracts/src/billing.ts:1228-1240 | what is found is the first month that owes; nothing is found only when none does |
| Contracts.PositiveBillIsProjected | packages/contracts/src/billing.ts:1208-1244 | a billable client with a positive bill today is always shown a payment within twelve months, even if the discount lapses on the way |
| Contracts.PaymentHiddenIff | packages/contracts/src/billing.ts:1208-1244 | given the bill of the month as recurrent amount, a payment that falls due within the year is not shown if and only if that bill is zero and one of the twelve months starts without the discount and owes something at the public price |
| Billing.SummarizeOutstanding | packages/contracts/src/billing.ts:555-607 | the one pass computes the sums, the counts and the oldest overdue deadline |
| Billing.DueByStatus | packages/contracts/src/billing.ts:415-422 | settled, cancelled and draft pieces and credit notes owe nothing; any other owes its amount and is late exactly past its deadline, whatever it was stored as |
| Billing.SummariesAddUp | packages/contracts/src/billing.ts:555-607 | the summary of two lists is the sum of theirs, with the older of their deadlines: with that of a single piece (`SummaryOfOne`) it determines every summary |
| Billing.ScoreIs | packages/contracts/src/billing.ts:640-679 | the score of each account by the delay of its oldest overdue piece |
| Billing.OldestIsEarliest | packages/contracts/src/billing.ts:583-589 | the oldest is the deadline of an overdue piece and none is older |
| Billing.OutstandingOverTime | packages/contracts/src/billing.ts:555-607 | with the same pieces the balance is constant, the overdue part never shrinks, and the oldest overdue deadline never changes |
| Billing.CreditNoteChangesNothing | packages/contracts/src/billing.ts:1116-1163 | a credit note, wherever it stands and whatever its amount, changes nothing in the balance |
| Billing.ScoreRisesIff | packages/contracts/src/billing.ts:640-679 | the payment score rises in one case exactly: a client who left, whose first piece becomes overdue by less than fifteen days |
| Billing.ChurnedScoreRises | packages/contracts/src/billing.ts:640-679 | a concrete such client |
| Vat.NetPlusTaxIsGross | packages/contracts/src/billing.ts:1390-1450 | on every regime net and tax make the gross, and the stored amount is the one its basis says |
| Vat.SplitIsNearest | packages/contracts/src/billing.ts:1415-1450 | the tax on a net basis and the net on a gross one are the nearest cents to the exact ones |
| Vat.MarkedPieceKeepsItsRegime | packages/contracts/src/billing.ts:1508-1522 | a fully marked piece keeps its rate and basis, any other is read at 20 % on a net amount |
| Vat.DocumentAgreesWithTotals | packages/contracts/src/billing.ts:1671-1697 | the split printed on the document is the split of the invoice's totals, marked or not |
| Vat.NetGrossNet | packages/contracts/src/billing.ts:1433-1450 | net to gross to net gives back every amount at every positive rate |
| Vat.GrossNetGrossIff | packages/contracts/src/billing.ts:1433-1450 | at every positive rate, gross to net to gross gives an amount back if and only if it is the gross of some net amount |
| Vat.GrossNetGrossAtTwenty | packages/contracts/src/billing.ts:1433-1450 | at 20 % every amount comes back but those three above a multiple of six, which come back one cent higher |
| Vat.NegationIff | packages/contracts/src/billing.ts:1421-1431 | on a net basis a negated amount negates all three figures exactly when the tax is not a half cent |
| Vat.NoHalfCentAtTwenty | packages/contracts/src/billing.ts:106-109 | at the rate in force it never is |
| CheckDigits.LuhnOk | packages/contracts/src/billing.ts:1747-1758 | the loop from the right computes the Luhn test, for any length |
| CheckDigits.LuhnByTwos | packages/contracts/src/billing.ts:1747-1758 | from the right, the last digit counts once and the one before it doubled with its figures added, and so on by twos |
| CheckDigits.LuhnDetectsOneError | packages/contracts/src/billing.ts:1747-1758 | every wrong digit is detected |
| CheckDigits.LuhnDetectsSwapsButZeroNine | packages/contracts/src/billing.ts:1747-1758 | every two neighbours that change places are detected, except a zero and a nine, which never are |
| CheckDigits.SiretDetectsOneError | packages/contracts/src/billing.ts:1769-1776 | when one wrong digit of a SIRET goes undetected, in all cases: never away from La Poste, off by five in its branch numbers, and where the digit makes or unmakes its SIREN exactly when it makes up the remainder of the other rule |
| CheckDigits.OneKeyPerSiren | packages/contracts/src/billing.ts:1785-1792 | the numeric key is the one number below 97 that is twelve more than three times the SIREN, but for multiples of 97 |
| CheckDigits.VatKeyDetectsOneError | packages/contracts/src/billing.ts:1785-1792 | a numeric key detects every wrong digit of the SIREN |
| CheckDigits.VatKeyDetectsSwaps | packages/contracts/src/billing.ts:1785-1792 | and every two of its digits that change places |
| Tickets.FirstTerminalElseHighest | packages/client-core/src/types.ts:142-147 | whatever statuses come in, the first terminal one is final, and without one the highest rank wins |
| Tickets.MergeUniqueIff | packages/client-core/src/hooks.ts:84-94 | a merge keeps ids unique if and only if no order behind the one it matched carries the incoming id |
| Tickets.MergeTakesTheIncoming | packages/client-core/src/hooks.ts:84-94 | a merge shows the incoming id, content and client id, and leaves every other order in its place |
| Tickets.MergeGood | packages/client-core/src/hooks.ts:84-94 | with ids and client ids one to one, a merge adds at most the incoming order and sends none back |
| Tickets.PollShowsTheServer | apps/kds/src/useBoard.ts:152-173 | after a poll the board remembers the hand-overs that the server still lists and shows exactly its other tickets, each in the most advanced of the statuses that the board and the rows give it |
| Tickets.RowOnBoard | apps/kds/src/useBoard.ts:161-173 | with each ticket listed once, that status is the merge of the board's with the row's, or the row's for a new ticket |
| Tickets.AdvanceAnswers | apps/kds/src/useBoard.ts:233-265 | a hand-over takes the ticket off the board and remembers it; any other gesture moves that ticket alone, unless the board is further |
| Tickets.TicketsNeverGoBack | apps/kds/src/useBoard.ts:161-265 | over any interleaving of late polls and gestures, a ticket that stays on the board never goes back |
| KitchenBoard.KitchenBoard.MergeOrder | packages/client-core/src/hooks.ts:84-94 | the search and the replacement |
| KitchenBoard.KitchenBoard.Poll | apps/kds/src/useBoard.ts:152-173 | forget the confirmed hand-overs, merge row by row, filter |
| KitchenBoard.KitchenBoard.Advance | apps/kds/src/useBoard.ts:233-265 | the optimistic move, once its gesture is durable |
| HostModel.OnlyTheLatestAnswer | apps/web/src/proxy.ts:241-309 | over any run a restaurant is only given for a host of which the API's latest believable answer is that restaurant |
| HostModel.TableBounded | apps/web/src/proxy.ts:168-184 | the table never exceeds 500 entries, holds a host once, and stands in the order of the answers, so that the oldest answer leaves first |
| HostModel.ImmediateAnswersAreRecent | apps/web/src/proxy.ts:162-166 | an answer given without waiting is at most five minutes old, one minute when it is a refusal |
| HostModel.LookupAnswers | apps/web/src/proxy.ts:241-251 | a lookup is answered at once exactly while the last entry of its host lives, and otherwise waits for one call |
| HostModel.AnswersAreKept | apps/web/src/proxy.ts:253-282 | a 404 refuses the host for a minute and a valid slug serves its restaurant for five, last in the table; the others stay, but the first one of a full table |
| HostModel.SilenceRepeatsTheLastAnswer | apps/web/src/proxy.ts:307-313 | when the API says nothing, those who wait get the last known answer, expired or not, or none |
| HostCache.HostCache.LireCache | apps/web/src/proxy.ts:162-166 | the last known answer, fresh or not |
| HostCache.HostCache.EcrireCache | apps/web/src/proxy.ts:168-184 | delete, evict the first key of a full table, insert at the end |
| HostCache.HostCache.Resoudre | apps/web/src/proxy.ts:241-251 | a fresh entry answers, a call in flight is joined, otherwise one leaves with the stale entry in hand |
| HostCache.HostCache.InterrogerApi | apps/web/src/proxy.ts:253-282 | a 404 is an answer and is kept; anything that cannot be believed falls back and keeps nothing |

## Left out

- Three or more windows that pair at the same time, or two that run the lifecycle, beyond the run of
  `TwoPurgersLockTheNextTenantOut`: identity and scope may then differ.
- A queue that does not require a scope, the trimming of scopes and their limit of 200 characters, and the
  generic path of `hydrate` without a scope.
- JSON text: a snapshot is a value with a validity predicate; creation dates, finite numbers and unknown fields are not
  checked. Storage corrupted from outside is only ever read as unreadable.
- The labels of the queue's state (`lastError`, `lastSyncAt`, `syncing`), its subscribers and the number of entries left
  that a flush returns.
- Lock fairness and microtask timing: a section excludes the others, nothing more. Ids and pairing scopes are fresh.
- PairedClient.PairedClient.LoadPairedDevice: its sections follow each other in the method without other windows between
  them; what other windows do between sections is in `QueueWorld`.
- SyncQueue.SyncQueue.RunFlush: what others do at an await is anything at all, so the method says nothing of the disk
  when the pass was cut off; `CutPassIsHarmless` does.
- SyncQueue.SyncQueue.BindScope: a bind in flight is not waited for, and the scope comes trimmed and within its limit.
- SyncQueue.SyncQueue.Clear: a second call while a purge runs does not join it.
- SyncQueue.SyncQueue.RunClear: the branch of a queue that does not require a scope.
- QueueTheorems.StartInv: a disk with entries of no scope and no device is not where runs start, because no pairing
  succeeds there; `UnownedMatterRefusesPairing` says what happens on it.
- The heartbeat, the brand and the `suspended` flag.
- The keys of the KDS: the proofs are over the till's perimeter.
- The values of tenant cells: a cell is the scope under which it was written, or the identity.
- Two callbacks of the enrolment panel at once (a panel closed while it loads and opened again, or a replayed
  confirmation pressed twice): one callback runs at a time, and a restart kills it.
- A session that expires (status 401) during an enrolment is a restart here; a till that changes session between two
  openings is not part of this model.
- Routes, headers and bodies that are not the ones above, aliases, masked phones and ledger entry texts of the loyalty
  server; ids are the numbers of its sequence.
- The one-off services of a proposal, the end date of the discount on the calendar, and years that do not have four
  digits.
- Labels, reminders, legal mentions and gaps of an invoice; amounts and rates are exact, not floating point.
- VAT keys with letters, and the removal of spaces and capitals before a check.
- The board's hydration, its cadence and its socket; the real server, which lists board tickets in any order and as
  late as it likes.
- The classification of a host before it is looked up, and what is served for a verdict.
