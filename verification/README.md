# Verified model of the proxy panel manager's hard core

The repository manages proxy nodes on remote 3x-ui and S-UI panels and sells them by the month.
This project models, in Dafny, the parts where money, remote state and concurrency meet, and proves
what they keep.

* **Renewals** (`Calendar`, `RenewalRows`, `RenewalSaga`, `RenewalSafety`, `RenewalAgreement`,
  `RenewalFlag`, `RenewalProgress`, `RenewalEffects`, `PanelEffects`, `FinanceService`). A renewal debits the balance, writes the new expiry to
  a panel and commits locally. `RenewalSaga` is a state machine with one worker per customer node (the
  node lock), the local rows and one remote client per node; every await is a step, every database or
  panel call may take effect, take effect with its answer lost, or not take effect, a worker may die
  between any two steps, and everybody else may edit rows and clients at any time. The class
  `FinanceService` is the service itself, written over mutable rows, and its invariant says that it is a
  run of that machine. What a worker read from or wrote to the panel is kept as a history (`events`) that
  no branch looks at. `RenewalEffects` and `PanelEffects` say field by field what a step writes to rows and
  panels, and how a purchase and a recovery pass end.
* **The S-UI network** (`JsonValues`, `Texts`, `SuiNetwork`, `NetworkMeaning`, `OutboundImport`, `OutboundNaming`,
  `ReadBack`, `ImportedRows`, `PanelNetwork`, `SoundImports`, `ImportFailures`, `RouteInsertion`). The guards that keep references between
  rules, inbounds and outbounds intact, the import that renames, rewrites and orders outbounds, its creation
  and rollback on a panel, and the route rule inserted for a new inbound.
* **Locks and coordination** (`LockNames`, `LockService`, `LockSites`, `Coordination`, `TaskRuns`,
  `FreezeLimits`, `StaleLocks`). The re-entrant named locks, the order in which call sites nest them, and the tasks that write
  panel clients under them.
* **Credits** (`Credits`, `CreditSafety`, `CreditEffects`, `CreditService`). Cards of the external system, local cards and
  recharge orders, interleaved with whole renewal runs on one ledger.
* **Share links** (`PercentCoding`, `Urls`, `ShareLinks`, `SharedSettings`). The links printed for an inbound's clients, down to
  the UTF-8 bytes of their percent-encoding, and the import that reads such links.
* **In the browser** (`PanelFields`, `PanelEditing`, `JsonTexts`, `ApiClient`). The codec for panel values with JSON inside
  strings, and the client that shares reads in flight.

Money is counted in the smallest unit. Time is integer milliseconds in the proleptic Gregorian calendar at
a fixed offset. JSON is an inductive datatype with ordered fields; numbers are the text JavaScript prints.
A transaction is one step; a failed remote write has been applied or not by the time of the read-back.
The ledger keeps every entry ever written, and `stored` says which are still in the table, so clearing
history does not break the sums.

## What the code does not keep

Where the code falls short of what it is for, the project keeps the code as it is, shows a run or an input,
and proves the exact or a checkable condition.

* `route.final` given as a list: `assertSuiNetwork` reads the list, `assertSuiResourceUnused` compares the
  whole value, so deleting the outbound it names is accepted (`FinalListExample`). Every other accepted
  write keeps the network (`AcceptedWriteKeepsNetwork`, an if and only if).
* The import and the panel disagree about what a reference is. The import counts only strings in link fields
  and does not look below such a field; `assertSuiNetwork` throws at any other entry, goes on below, and
  compares tags that are not strings by value. So a row prepared in order can be refused when it is created:
  a group with an entry that is no string (`BadEntryExample`), an unknown detour below a `default`
  (`HiddenLinkExample`), a reference to an outbound named by a number (`NumberedTagExample`). A creation is let
  through if and only if every detour and group of the row, at any depth, names only the panel, the rows
  before it and itself (`CreationAccepted`); the whole import follows from that row by row (`ImportSuiRows`).
  Rows whose link fields hold nothing but names are never refused (`SoundRowsAreImported`).
* `assertSuiNetwork` does not look at `default` fields, the guard of a deletion does: a rollback can be blocked
  by a `default` that already dangled or is malformed, on the panel or in an imported row (`BadDefaultExample`;
  `CleanupAccepted`, an if and only if). For rows as above, from a panel on which `default` fields resolve too,
  no rollback is blocked (`SoundRowsAreImported`).
* Imported rows are counted under their tags as written and renamed under their trimmed tags, so beside a row
  "hk" a row " hk " takes over the references to "hk" (`TwinNamesExample`). A reference to a name one row is
  written with follows that row if and only if no later row comes as the same name (`FollowsItsRow`).
* An inverted rule in front of the inserted route rule takes the new inbound's traffic
  (`InvertedRuleIntercepts`).
* The rollback write after a failed local commit is not announced by the write-started flag when the
  renewal found the target on the panel before it wrote itself; recovery may then refund as if nothing had
  been written (`UnflaggedUndoExample`). `FlagStep` and `FlagRun` say that this is the only such write, and
  `UndisturbedIsFlagged` that it needs somebody else's edit of the client. Without such a write a refund always
  means that nothing was sent or that the panel was last seen at the snapshot, and in any run it fails to
  mean that exactly for a row with an unannounced rollback that was last seen elsewhere (`RefundAgreement`).
* `withRenewalLock` takes the lock of the service node it read before locking and, unlike the jobs, does not
  check again; a save on the panel page can then write a client with a pending renewal
  (`StaleRenewalIsWritten`). `updateCustomerNode` checks again only the target of a move, not the service
  node it leaves; its compensating write can then hit a renewal that began there in between
  (`StaleRebindIsWritten`). A step makes such a write possible if and only if it is a debit for a client
  somebody has passed the checks for, or a rebind without the lock of the client it finds (`HarmOpens`); along
  a run the freeze holds if and only if there is no such step (`FrozenRun`), in particular with the jobs' check
  in both places (`FreshIsHarmless`).
* The same stale reads break the lock order, and so does an edit of a client through the panel-wide save
  unless its service node sorts first. In exactly these cases the nesting can end up in a waiting circle with
  a flow that keeps the order (`NodeSiteCircles`, `UpdateSiteCircles`, `EditSiteCircles`).
* A VMess link keeps its security only when that reads "tls" without surrounding space, while the server
  name is printed after trimming; the import then reads the server name if and only if the raw value is
  "tls" (`ShareVmessRoundTrip`; `SpacedSecurityExample` loses it). It also reads an IPv6 address without its
  brackets, a VLESS link with them.
* A panel value that was edited is not always shown again as it was typed: a text "true" or serialized JSON is
  shown as the value in it, and a number, `null` or plain text in place of serialized JSON as the text it is
  stored as. It is shown as typed if and only if neither happens at any depth (`EditRoundTrip`).
* A payment notification for an expired order answers that the order was closed, but the closing is rolled
  back with the exception; nothing is credited and the order stays open (`ExpiredOrderStaysOpen`).

## Model

| member | source | states |
|---|---|---|
| `Calendar.AddMonths` | apps/api/src/modules/finance/finance.service.ts:605-611 | the step-by-step date arithmetic lands in the month `months` later with the day clamped to that month's length |
| `Calendar.YearStart` | apps/api/src/modules/finance/finance.service.ts:605-611 | the first day of every year in closed form, with the leap days of the Gregorian calendar |
| `Calendar.MonthsOfYear` | apps/api/src/modules/finance/finance.service.ts:605-611 | the twelve month lengths of every year |
| `Calendar.LocalTime` | apps/api/src/modules/finance/finance.service.ts:605-611 | local dates run ahead of UTC by the offset, and day 0 is 1 January 1970 |
| `Calendar.MonthsAreLong` | apps/api/src/modules/finance/finance.service.ts:605-611 | adding m months moves a date by at least 28 * m days, for every date and count |
| `Calendar.LatestDate` | apps/api/src/modules/finance/finance.service.ts:613-615 | the result is at least now and every date that is there, and is one of them |
| `Calendar.TargetIsFar` | apps/api/src/modules/finance/finance.service.ts:145-146 | a renewal's target lies 28 * m days beyond now, the stored expiry and the expiry on the panel |
| `Calendar.NeverBoth` | apps/api/src/modules/finance/finance.service.ts:617-623 | no remote state matches both the target and the snapshot of a renewal |
| `Calendar.WholeSecondsMatch` | apps/api/src/modules/sui/sui-business.service.ts:202-203 | the expiry floored to whole seconds for S-UI still matches its target when read back |
| `RenewalRows.PostKeepsLedger` | apps/api/src/modules/finance/finance.service.ts:155-202 | a balance change with its log entry keeps every balance equal to opening plus entries and every entry starting where the customer's last one ended |
| `RenewalSafety.EveryRunKeepsInv` | apps/api/src/modules/finance/finance.service.ts:110-584 | in every run with failures, lost answers, crashes and other actors: one debit per renewal, refunds only with the refunded mark, one pending renewal per node, workers hold the stored detail |
| `RenewalSafety.FourStates` | apps/api/src/modules/finance/finance.service.ts:110-584 | in every run a renewal is pending, successful, refunded or up for reconciliation, its entries add up to minus the amount or to nothing accordingly, and the last three states never change again |
| `RenewalSafety.RemoteAgreement` | apps/api/src/modules/finance/finance.service.ts:249-409 | a success was last seen or verified at the target and not at the snapshot; a refund means that no write was announced and the target never sent, or that the snapshot was last seen |
| `RenewalSafety.LedgerExplainsBalances` | apps/api/src/modules/finance/finance.service.ts:155-202 | balances are never negative, equal opening plus entries, and each customer's consecutive entries chain after to before |
| `RenewalSafety.RunExtends` | apps/api/src/modules/finance/finance.service.ts:392-409 | entries are never lost, terms of a renewal never change, the write-started flag is never unset, closed renewals stay as they are |
| `RenewalAgreement.CommitsMatchThePanel` | apps/api/src/modules/finance/finance.service.ts:249-390 | while nobody else edits the client, the step that commits a success finds the panel at the target and the step that commits a refund finds it at the snapshot, never both |
| `RenewalFlag.FlagStep` | apps/api/src/modules/finance/finance.service.ts:401-409 | a step keeps "no write without the flag" exactly when it is not the rollback of a renewal that never set it |
| `RenewalFlag.FlagRun` | apps/api/src/modules/finance/finance.service.ts:275-284 | the same along whole runs, both directions |
| `RenewalFlag.UndisturbedIsFlagged` | apps/api/src/modules/finance/finance.service.ts:336-346 | that rollback cannot happen while nobody else edits the client |
| `RenewalFlag.RefundAgreement` | apps/api/src/modules/finance/finance.service.ts:249-409 | in every run without an unannounced rollback, so in every run in which nobody else edits the client, a refund means that nothing was ever sent to the panel or that it was last seen at the snapshot; in any run a refund lacks that meaning exactly when the row holds an unannounced rollback and was last seen elsewhere |
| `RenewalFlag.UnflaggedUndoExample` | apps/api/src/modules/finance/finance.service.ts:336-346 | a concrete run that ends in such a refund |
| `RenewalProgress.RecoveryProgress` | apps/api/src/modules/finance/finance.service.ts:213-284 | from every reachable pending renewal with complete records and a free lock, a resume pass with successful reads and local commits closes it in at most five steps of its own, however the remote write ends and whatever others do in between as long as the records and the client stay |
| `RenewalEffects.CommitRenews` | apps/api/src/modules/finance/finance.service.ts:286-320 | the step that makes a pending renewal a success sets the node's expiry to the renewal's target, makes it active without a reason, and changes no other field, row, balance or entry |
| `RenewalEffects.NodesChangeByCommit` | apps/api/src/modules/finance/finance.service.ts:286-320 | beside edits by others, such a commit is the only step that changes a node row |
| `RenewalEffects.CreationCharges` | apps/api/src/modules/finance/finance.service.ts:138-198 | a renewal is created only by the debit of its node's worker, for a node that may be renewed and a balance that covers months times the node's price; that is the amount, the target lies those months beyond the latest of now, the node's expiry and the panel's, and row, balance and entry are all that changes |
| `RenewalEffects.DebitCharges` | apps/api/src/modules/finance/finance.service.ts:138-198 | a debit that takes effect charges exactly the renewals that may be charged, and else changes nothing |
| `RenewalEffects.RefundPaysBack` | apps/api/src/modules/finance/finance.service.ts:527-582 | the step that makes a renewal refunded returns its whole amount with one entry and leaves every node as it is |
| `RenewalEffects.EveryRowWasRequested` | apps/api/src/modules/finance/finance.service.ts:110-137 | in every run a renewal has the months of a request that was made and the snapshot the panel showed at a read |
| `RenewalEffects.EveryRowWasCharged` | apps/api/src/modules/finance/finance.service.ts:138-198 | in every run a renewal was charged as above by one of the steps and keeps those terms |
| `RenewalEffects.EveryClosingHappened` | apps/api/src/modules/finance/finance.service.ts:286-375 | in every run a success renewed its node, and a refund was paid back, by one of the steps |
| `RenewalEffects.WantedFlag` | apps/api/src/modules/finance/finance.service.ts:633-635 | a worker that begins wants its client enabled when the node had expired, and as it was found otherwise |
| `PanelEffects.PanelWrites` | apps/api/src/modules/finance/finance.service.ts:275-346 | beside edits by others a panel changes only by a worker whose flag is stored, which writes the target with the wanted flag, or by one whose commit failed, which writes the snapshot back |
| `PanelEffects.NotesAreTrue` | apps/api/src/modules/finance/finance.service.ts:249-390 | every step adds at most one note to a renewal; what was seen was on the panel, and what was confirmed is there afterwards |
| `PanelEffects.RecoveryVerdict` | apps/api/src/modules/finance/finance.service.ts:249-284 | from every reachable pending renewal with complete records and a free lock, an undisturbed pass renews the node, refunds the charge or leaves it to a person, exactly as what the panel shows, the stored flag and the end of the one write say |
| `PanelEffects.PurchaseConcludes` | apps/api/src/modules/finance/finance.service.ts:110-211 | from every reachable state a customer who may renew, can pay and has no pending renewal on the node gets the months for months times the price when the panel takes the write, and the balance back when it refuses |
| `FinanceService.FinanceService.DebitTransaction` | apps/api/src/modules/finance/finance.service.ts:138-198 | the debit's row updates in order equal the transaction of the machine, and throw in the same cases |
| `FinanceService.FinanceService.FinalizeTransaction` | apps/api/src/modules/finance/finance.service.ts:288-320 | the same for the local commit, including the missing debit entry; a commit sets the node's expiry to the target and makes it active |
| `FinanceService.FinanceService.RefundTransaction` | apps/api/src/modules/finance/finance.service.ts:527-582 | the same for the refund |
| `FinanceService.FinanceService.ReconcileTransaction` | apps/api/src/modules/finance/finance.service.ts:481-516 | the same for the mark for reconciliation |
| `FinanceService.FinanceService.ReadBeforeWrite` | apps/api/src/modules/finance/finance.service.ts:249-273 | the first read leads to finishing, writing, refunding, reconciling or waiting, as a step of the machine |
| `FinanceService.FinanceService.MarkRemoteWriteStarted` | apps/api/src/modules/finance/finance.service.ts:401-409 | the worker goes on to write only when the flag is stored in the row it holds |
| `FinanceService.FinanceService.ReadAfterFailure` | apps/api/src/modules/finance/finance.service.ts:377-390 | after a throwing write the read-back decides, as a step of the machine |
| `FinanceService.FinanceService.CommitRenewal` | apps/api/src/modules/finance/finance.service.ts:286-328 | after the local commit and the read that checks it: done, thrown, or a pending renewal whose write must be undone |
| `FinanceService.FinanceService.FinalizeRenewal` | apps/api/src/modules/finance/finance.service.ts:286-375 | a completed answer means a successful row, a refunded answer a refunded row, anything else no success |
| `FinanceService.FinanceService.CompletePendingRenewal` | apps/api/src/modules/finance/finance.service.ts:249-284 | the same for the whole completion, which stays a run of the machine and releases its node; it gives up only for a call that failed, or leaves the renewal to a person |
| `FinanceService.FinanceService.RenewCustomerNode` | apps/api/src/modules/finance/finance.service.ts:110-211 | the same for the entry point; a refusal means that nothing was charged under this key or it had failed before, an answer of success or refund that a step of the run did so, and anything thrown that a call of this worker failed |
| `FinanceService.FinanceService.RecoverPendingRenewals` | apps/api/src/modules/finance/finance.service.ts:213-236 | the recovery pass runs at most once at a time, stays a run of the machine, keeps everything that was closed, and resumes every listed renewal that can be resumed when its turn comes |
| `SuiNetwork.AssertSuiNetwork` | apps/api/src/modules/sui/sui-network.ts:26-43 | the walk accepts exactly the panels in which every reference at any depth names an existing tag and is well formed |
| `SuiNetwork.AssertSuiResourceUnused` | apps/api/src/modules/sui/sui-network.ts:45-57 | the walk accepts exactly when no reference it looks at names the tag |
| `NetworkMeaning.NetworkMeans` | apps/api/src/modules/sui/sui-network.ts:17-43 | the assertion accepts exactly the panels in which, over objects at any depth and their fields, every routing rule chooses a name or a non-empty list of names, and every inbound, outbound, detour, group and default exit is well formed and names rows of the panel |
| `NetworkMeaning.UnusedMeans` | apps/api/src/modules/sui/sui-network.ts:45-57 | a name may go away exactly when none of the fields the check looks at, at any depth, is malformed or mentions it |
| `SuiNetwork.CheckNetworkWrite` | apps/api/src/modules/sui/sui.service.ts:334-356 | the sequence of checks accepts exactly the writes that pass both guards on the right candidates |
| `NetworkMeaning.WriteMeans` | apps/api/src/modules/sui/sui.service.ts:334-356 | a write is let through exactly when the panel with it is sound in that sense and the row it replaces or deletes keeps its name or is not mentioned |
| `NetworkMeaning.RuleWithoutOutbound` | apps/api/src/modules/sui/sui-network.ts:33-35 | a configuration with a rule that routes but names no outbound, at any depth, is refused by every panel |
| `NetworkMeaning.RuleWithoutOutboundExample` | apps/api/src/modules/sui/sui-network.ts:33-35 | such a write on a panel with the inbound the rule names |
| `SuiNetwork.AcceptedWriteKeepsNetwork` | apps/api/src/modules/sui/sui.service.ts:334-356 | every accepted create, edit, rename and delete leaves a panel that passes the network assertion, if and only if it does not delete the last outbound named by a list in `route.final` |
| `SuiNetwork.FinalListExample` | apps/api/src/modules/sui/sui-network.ts:45-50 | a panel on which such a deletion is accepted and leaves a dangling reference |
| `OutboundImport.OrderRows` | apps/api/src/modules/sui/outbound-import.ts:73-91 | the result is a permutation in which every reference is available or earlier; failure means that no order of the rows is |
| `OutboundImport.PrepareSuiOutbounds` | apps/api/src/modules/sui/outbound-import.ts:14-92 | the whole preparation: the tags follow the naming rules, the result is an ordered permutation of the rows with references followed, and each failure means exactly what it says |
| `OutboundImport.PlannedTagsAreFresh` | apps/api/src/modules/sui/outbound-import.ts:20-49 | planned tags are non-empty, pairwise distinct and not occupied |
| `OutboundImport.PlanIsUnique` | apps/api/src/modules/sui/outbound-import.ts:20-49 | the naming rules leave no choice: two plans agree |
| `OutboundImport.FreeTag` | apps/api/src/modules/sui/outbound-import.ts:40-44 | the suffix search ends at the first free suffixed tag |
| `OutboundImport.RenamingKeepsMeaning` | apps/api/src/modules/sui/outbound-import.ts:50-72 | for trimmed tags a reference to a uniquely named row follows it to its new tag, a reference to anything not imported is left alone, and only a name imported twice is ambiguous |
| `OutboundImport.DepsOfRewrite` | apps/api/src/modules/sui/outbound-import.ts:50-66 | rewriting maps every reference to its image and makes or removes none |
| `OutboundImport.RewriteKeepsTheRest` | apps/api/src/modules/sui/outbound-import.ts:50-66 | rewriting changes nothing but reference names |
| `OutboundImport.FollowedRow` | apps/api/src/modules/sui/outbound-import.ts:67-72 | a prepared row has its planned tag, no id, and the images of its references |
| `OutboundImport.RewriteToItself` | apps/api/src/modules/sui/outbound-import.ts:50-66 | rewriting every name to itself changes nothing |
| `Texts.TrimTakesSpace` | apps/api/src/modules/sui/outbound-import.ts:31 | trimming takes white space off both ends and nothing else |
| `Texts.DecimalIsNumber` | apps/api/src/modules/sui/outbound-import.ts:43 | the text of a number is its decimal digits without a leading zero |
| `OutboundNaming.PlanMeans` | apps/api/src/modules/sui/outbound-import.ts:29-47 | a plan gives each row exactly its trimmed tag of 1 to 160 characters where that is free, and else, when renaming was asked for, its first 150 characters, a dash and the least free number from 2 |
| `OutboundNaming.RenamedKeepsPrefix` | apps/api/src/modules/sui/outbound-import.ts:40-44 | a name of up to 150 characters is a proper prefix of its replacement |
| `OutboundNaming.RenamedExample` | apps/api/src/modules/sui/outbound-import.ts:40-44 | an occupied "hk" becomes "hk-2", and nothing else is a plan |
| `OutboundNaming.DepsAre` | apps/api/src/modules/sui/outbound-import.ts:50-66 | a row depends on a name exactly when a link field that is not below another link field is the name or a list with it |
| `OutboundNaming.FollowsItsRow` | apps/api/src/modules/sui/outbound-import.ts:23-72 | a reference to a name one row is written with follows that row if and only if no later row has the same name after trimming |
| `OutboundNaming.TwinNamesExample` | apps/api/src/modules/sui/outbound-import.ts:46-71 | rows "hk" and " hk ", where references to "hk" go to the second |
| `OutboundNaming.PreparedRow` | apps/api/src/modules/sui/outbound-import.ts:28-72 | a prepared row keeps its name and all its properties beside id and tag, in which only references follow |
| `ReadBack.StoredRowMatches` | apps/api/src/modules/nodes/panel-network.service.ts:61-77 | a row read back with only its id added matches what was sent |
| `ReadBack.MatchesEverywhere` | apps/api/src/modules/nodes/panel-network.service.ts:61-77 | a row matches exactly when every place of the expected value, at any depth, is there with the same shape or the same plain value |
| `ImportedRows.CreationAccepted` | apps/api/src/modules/sui/sui-network.ts:26-43 | a new outbound is let through if and only if every detour and group in it, at any depth, is well formed and names only outbounds of the panel or itself |
| `ImportedRows.CleanupAccepted` | apps/api/src/modules/nodes/panel-network.service.ts:413-427 | taking back the row created last is accepted if and only if no `default` of the original panel or of an earlier imported row names it or is malformed, and no link of the row itself does |
| `PanelNetwork.PanelNetworkService.CreateRows` | apps/api/src/modules/nodes/panel-network.service.ts:371-386 | without failing calls creation stops exactly at the first row the guard does not admit, and else creates all; every created row was admissible, the network is kept, and the panel is the original plus the created prefix |
| `PanelNetwork.PanelNetworkService.Cleanup` | apps/api/src/modules/nodes/panel-network.service.ts:411-436 | undoing any created prefix in reverse restores the panel; without failing calls it does so if and only if every row of the prefix is removable |
| `PanelNetwork.PanelNetworkService.ImportSuiRows` | apps/api/src/modules/nodes/panel-network.service.ts:346-437 | all or nothing: imported in full with the network intact, or panel and local rows as before, or a reported failed cleanup; without failing calls it is imported exactly when every prepared row is admissible, and else its cleanup fails exactly when a row before the first inadmissible one is not removable |
| `SoundImports.SoundRowsAreImported` | apps/api/src/modules/sui/outbound-import.ts:50-91 | rows whose link fields hold only names, prepared for a panel whose tags are strings, are all admissible, and all removable where the panel's `default` fields resolve |
| `ImportFailures.BadEntryExample` | apps/api/src/modules/sui/sui-network.ts:17-23 | a prepared row refused for an entry that is no string |
| `ImportFailures.HiddenLinkExample` | apps/api/src/modules/sui/outbound-import.ts:50-66 | a prepared row refused for a detour below a link field |
| `ImportFailures.NumberedTagExample` | apps/api/src/modules/nodes/panel-network.service.ts:363-367 | a prepared row refused for its reference to an outbound named by a number |
| `ImportFailures.BadDefaultExample` | apps/api/src/modules/sui/sui-network.ts:45-57 | a created row whose own malformed `default` blocks its removal |
| `RouteInsertion.InsertRoute` | apps/api/src/modules/nodes/panel-network.service.ts:567-580 | the rule goes in front of the first rule that settles traffic without naming inbounds |
| `RouteInsertion.InsertAtIs` | apps/api/src/modules/nodes/panel-network.service.ts:567-580 | that is the first rule without inbounds that does more than sniff, resolve or hijack DNS |
| `RouteInsertion.OthersKeepTheirDecision` | apps/api/src/modules/nodes/panel-network.service.ts:567-580 | under first-match semantics traffic from every other inbound gets the same decision as before |
| `RouteInsertion.SteeringOnPanel` | apps/api/src/modules/nodes/panel-network.service.ts:567-580 | on a panel without dangling names traffic from the new inbound goes to the chosen outbound if and only if no earlier DNS hijack takes it |
| `RouteInsertion.InvertedRuleIntercepts` | apps/api/src/modules/nodes/panel-network.service.ts:574-578 | with an inverted rule in front it does not |
| `LockService.LockNamesFor` | apps/api/src/shared/database-lock.service.ts:47-52 | the names to take are those asked for and not held, once each, sorted |
| `LockService.DatabaseLockService.PerformWithLock` | apps/api/src/shared/database-lock.service.ts:25-45 | the operation runs under the name; it is refused exactly when a request was not granted, right there, and else throws exactly where it reaches a throw or does all its work; afterwards exactly the earlier locks are held |
| `LockService.DatabaseLockService.PerformWithLocks` | apps/api/src/shared/database-lock.service.ts:47-73 | the same for several names, also when only some could be taken |
| `LockService.DatabaseLockService.Perform` | apps/api/src/shared/database-lock.service.ts:25-73 | for any nesting of calls: all work runs in order under every lock around it; the answer, the work done and the requests made are exactly those of the operation up to a throw or the first request that is not granted |
| `LockService.NothingAsked` | apps/api/src/shared/database-lock.service.ts:25-52 | an operation whose locks are all held already is never refused: it does all its work up to a throw |
| `LockNames.SameName` | apps/api/src/shared/database-lock.service.ts:9-26 | two keys share a name exactly when they are of one class and their ids agree as far as 64 characters reach |
| `LockNames.ShortIdsDiffer` | apps/api/src/shared/database-lock.service.ts:9-26 | so different keys with ids of up to 40 characters have different names |
| `LockNames.NoCircle` | apps/api/src/shared/database-lock.service.ts:9-23 | holders that ask in the global order never wait in a circle, of any length |
| `LockService.OrderedRunsNeverCircle` | apps/api/src/shared/database-lock.service.ts:25-73 | the same for the requests of any runs of orderly operations |
| `LockSites.NodeSiteOrdered` | apps/api/src/modules/finance/finance.service.ts:473-479 | the nesting of a renewal or a job keeps the order if and only if the binding still has the locked name |
| `LockSites.NodeSiteCircles` | apps/api/src/modules/finance/finance.service.ts:473-479 | it can end up in a waiting circle with an orderly flow if and only if the binding has another name |
| `LockSites.UpdateSiteOrdered` | apps/api/src/modules/nodes/nodes.service.ts:1013-1026 | the nesting of an edit of a binding keeps the order if and only if the customer node is still bound to one of the two service nodes locked for |
| `LockSites.UpdateSiteCircles` | apps/api/src/modules/nodes/nodes.service.ts:1013-1026 | it can end up in a waiting circle with an orderly flow if and only if it is not |
| `LockSites.SaveSiteOrdered` | apps/api/src/modules/sui/sui.service.ts:178-186 | the nesting of a panel save always keeps the order |
| `LockSites.EditSiteOrdered` | apps/api/src/modules/xui/xui.service.ts:1206-1216 | an edit of a client through that save keeps it if and only if its service node comes first on the panel |
| `LockSites.EditSiteCircles` | apps/api/src/modules/xui/xui.service.ts:1206-1216 | it can end up in a waiting circle with an orderly flow if and only if another service node of the panel comes before |
| `Coordination.FrozenWhilePending` | apps/api/src/modules/jobs/jobs.service.ts:160-291 | in every interleaving of renewals, jobs, rebinds, binds, unbinds and saves without a harmful debit or rebind, only renewals change a client with a pending renewal |
| `Coordination.FreshIsHarmless` | apps/api/src/modules/jobs/jobs.service.ts:160-291 | a renewal or rebind that holds the lock of the binding it finds, as the jobs check, is not harmful |
| `Coordination.StepKeepsInv` | apps/api/src/modules/nodes/nodes.service.ts:944-1239 | every step of every task keeps one node per client and what each task past its checks relies on |
| `TaskRuns.EveryTaskArms` | apps/api/src/modules/nodes/nodes.service.ts:944-1239 | from every state in which nobody is at work, a task takes its locks and may then write exactly its clients if and only if the rows allow what it is for; else it gives up and changes nothing |
| `TaskRuns.WorkIsDone` | apps/api/src/modules/nodes/nodes.service.ts:944-1239 | an allowed write happens and no other does; a rebind moves, an unbind and a failed bind delete the binding, a renewal is settled, and a task that ends gives back its locks and nothing else |
| `Coordination.DebitThreatens` | apps/api/src/modules/finance/finance.service.ts:473-479 | a debit under whatever lock makes a write of its client by somebody else possible at once if and only if a task that is free to lock the client had passed its checks for it |
| `FreezeLimits.HarmOpens` | apps/api/src/modules/nodes/nodes.service.ts:1013-1046 | a step is harmful if and only if steps that hold the locks they rely on can lead from it to a write of a client with a pending renewal |
| `FreezeLimits.FrozenRun` | apps/api/src/modules/jobs/jobs.service.ts:160-291 | along every run no such write can be brought about at any point if and only if no step is harmful |
| `StaleLocks.StaleRenewalIsWritten` | apps/api/src/modules/sui/sui.service.ts:195-212 | a run in which a stale renewal's client is written by a save |
| `FreezeLimits.StaleRebindThreat` | apps/api/src/modules/nodes/nodes.service.ts:1036-1046 | whenever a rebind has left a client whose lock it does not hold, a bind and a renewal can complete there and its compensating write still goes through |
| `StaleLocks.StaleRebindIsWritten` | apps/api/src/modules/nodes/nodes.service.ts:1013-1046 | a run from an idle start in which a stale rebind's compensating write hits the client of a pending renewal |
| `Credits.ValidAmount` | apps/api/src/modules/cards/external-cards.service.ts:108-113 | an accepted amount is positive and at most 99999999.99 |
| `CreditEffects.ValidAmountIs` | apps/api/src/modules/cards/external-cards.service.ts:108-113 | a decimal is accepted as so many cents exactly when it is exactly that many and within the bounds |
| `CreditSafety.EveryRunKeepsInv` | apps/api/src/modules/cards/external-cards.service.ts:16-106 | every run of renewals, cards and orders keeps all rows, entries and activations consistent |
| `CreditSafety.BalancesExplained` | apps/api/src/modules/customers/customers.service.ts:129-163 | under any interleaving balances are non-negative and equal opening plus entries, and every entry's after minus before is its amount |
| `CreditSafety.ReceiptsCreditedOnce` | apps/api/src/modules/cards/external-cards.service.ts:55-74 | a receipt has exactly one credit when completed, of its stored amount to its customer, and none otherwise |
| `CreditSafety.ActivatedOnlyAfterRefusal` | apps/api/src/modules/cards/external-cards.service.ts:16-53 | the external system is asked again about a card only after a definite refusal |
| `CreditSafety.AmountsAreFinal` | apps/api/src/modules/cards/external-cards.service.ts:82-95 | from activation on amount and customer of a receipt never change |
| `CreditSafety.OrdersAndCardsCreditedOnce` | apps/api/src/modules/payments/payments.service.ts:408-474 | an order has one credit of its amount when paid, before it expired, and none otherwise; a local card at most one, of its amount to its user |
| `CreditSafety.ExpiredOrderStaysOpen` | apps/api/src/modules/payments/payments.service.ts:431-434 | a notification for an expired order changes nothing, its status included |
| `CreditEffects.OrderStep` | apps/api/src/modules/payments/payments.service.ts:425-474 | an order becomes paid only by a notification in time, for a waiting order of an active customer, whose amount, where it names one, rounds to the order's; its customer's balance grows by that amount with one entry and nothing else changes |
| `CreditEffects.EveryPaidOrderWasPaid` | apps/api/src/modules/payments/payments.service.ts:408-474 | in every run a paid order was paid so by one of the steps, at the time it says |
| `CreditEffects.CardStep` | apps/api/src/modules/cards/cards.service.ts:252-302 | a local card becomes used only by the redemption of an unused, enabled card by an active customer, whose balance grows by its amount |
| `CreditEffects.EveryUsedCardWasRedeemed` | apps/api/src/modules/cards/cards.service.ts:252-302 | in every run a used card that is still there was redeemed so by one of the steps |
| `CreditEffects.ReceiptStep` | apps/api/src/modules/cards/external-cards.service.ts:55-74 | a receipt becomes completed only by the credit of an activated receipt of an active customer, whose balance grows by its amount |
| `CreditEffects.EveryCompletedReceiptWasCredited` | apps/api/src/modules/cards/external-cards.service.ts:55-74 | in every run a completed receipt was credited so by one of the steps |
| `CreditEffects.AmountsWereNamed` | apps/api/src/modules/cards/external-cards.service.ts:44-91 | in every run the amount of a receipt is a valid one that the external system confirmed as money for this card, or that an administrator entered |
| `CreditEffects.AnswersDecide` | apps/api/src/modules/cards/external-cards.service.ts:33-47 | money of a valid amount activates a receipt, a definite refusal declines it, anything else leaves it open |
| `CreditService.CreditService.CreditTransaction` | apps/api/src/modules/cards/external-cards.service.ts:55-74 | the row updates of a credit equal the transaction of the machine |
| `CreditService.CreditService.RedeemLocalCardTransaction` | apps/api/src/modules/cards/cards.service.ts:252-302 | the same for a local card |
| `CreditService.CreditService.CompleteRechargeOrderTransaction` | apps/api/src/modules/payments/payments.service.ts:408-474 | the same for a payment notification, whose own closing of an order is lost when it throws |
| `CreditService.CreditService.AdjustBalance` | apps/api/src/modules/customers/customers.service.ts:129-163 | add, subtract and set change one balance by one entry, and are refused exactly when the customer is missing or the result negative |
| `CreditService.CreditService.Redeem` | apps/api/src/modules/cards/external-cards.service.ts:16-53 | a credited or replayed answer means a completed receipt of that customer; a refusal means that the card was not open for the customer or not creditable, and anything thrown a failed write or an answer without money |
| `CreditService.CreditService.ResolveReceipt` | apps/api/src/modules/cards/external-cards.service.ts:82-95 | a credited or replayed answer means a completed receipt, a refusal a receipt that is not open or a wrong amount |
| `CreditService.CreditService.RecoverCredits` | apps/api/src/modules/cards/external-cards.service.ts:96-105 | every listed receipt is tried in the pass, unless its lock is taken or it cannot be credited |
| `PercentCoding.DecodeEncode` | apps/api/src/modules/xui/share-links.ts:29 | percent-decoding undoes percent-encoding for every text, over its UTF-8 bytes |
| `Urls.QueryRoundTrip` | apps/api/src/modules/xui/share-links.ts:114-141 | a printed query reads back as the same names and values in the same order |
| `Urls.LinkRoundTrip` | apps/api/src/modules/xui/share-links.ts:29 | a printed link reads back as its user, host, port, query and fragment |
| `ShareLinks.ParamPresent` | apps/api/src/modules/xui/share-links.ts:117-139 | every value set on the query is found under its name, an absent one nowhere |
| `ShareLinks.ShareVlessRoundTrip` | apps/api/src/modules/xui/outbound-import.ts:41-98 | reading a printed VLESS link over TCP, WebSocket or gRPC gives the address, port, user, network, path, host or service name, a set TLS server name, and for Reality the key and short id |
| `ShareLinks.ShareVlessUser` | apps/api/src/modules/xui/outbound-import.ts:41-98 | it also gives the encryption of the inbound and the flow the client may use |
| `ShareLinks.ShareVmessRoundTrip` | apps/api/src/modules/xui/outbound-import.ts:100-122 | the same for VMess with its cipher, and the exact condition under which the server name survives |
| `SharedSettings.VlessMeans` | apps/api/src/modules/xui/share-links.ts:113-256 | over the inbound's JSON: a VLESS link is printed exactly for a client with an id, a known network and with Reality a key and a name, and the import reads from it the path, host, service name, server name, key and short id that the JSON sets first, or the defaults |
| `SharedSettings.VmessMeans` | apps/api/src/modules/xui/share-links.ts:32-62 | the same for VMess, with the exact condition for printing it and for the server name |
| `SharedSettings.QueryMeans` | apps/api/src/modules/xui/share-links.ts:113-141 | every transport, TLS and user value of a printed VLESS query is the one the JSON sets first, or the default |
| `ShareLinks.SpacedSecurityExample` | apps/api/src/modules/xui/share-links.ts:32-62 | a stream with security " tls " whose printed link is read without its server name |
| `PanelFields.RoundTrip` | apps/admin-web/src/panel-fields.ts:482-537 | encoding a decoded value gives it back if and only if its serialized strings are in canonical form, to any depth |
| `JsonTexts.LawsAreMet` | apps/admin-web/src/panel-fields.ts:482-537 | the laws assumed of the JSON parser and printer can be met: a printer in JSON's syntax is injective on the values a parser can return |
| `PanelFields.DecodesInPlace` | apps/admin-web/src/panel-fields.ts:482-502 | decoding acts place by place under each place's field name and leaves values under secret names untouched |
| `PanelEditing.SecretFieldIs` | apps/admin-web/src/panel-fields.ts:479-481 | a field is secret exactly when one of the words stands anywhere in its name, or "auth" at its end, in any case |
| `PanelEditing.TextIsShown` | apps/admin-web/src/panel-fields.ts:482-491 | a text is shown as the truth value it names, as the JSON in it, or as it is |
| `PanelEditing.DecodedIsOpen` | apps/admin-web/src/panel-fields.ts:482-502 | no text outside secret fields is left undecoded, at any depth |
| `PanelEditing.EditRoundTrip` | apps/admin-web/src/panel-fields.ts:503-537 | what is stored for an edited value is shown as it was typed if and only if no typed text is shown as something else and serialized JSON was replaced only by lists, objects and truth values, at any depth |
| `PanelEditing.TextLawsAreMet` | apps/admin-web/src/panel-fields.ts:503-537 | the laws assumed of JSON's texts there can be met together with the others |
| `ApiClient.ApiClient.Api` | apps/web-shared/api-client.ts:10-23 | a shared read joins only a request for its path begun after the last write; a write ends all sharing |
| `ApiClient.ApiClient.Cleanup` | apps/web-shared/api-client.ts:20-21 | a settling read removes its own entry and no other |
| `ApiClient.ApiClient.FetchEnds` | apps/web-shared/api-client.ts:54-81 | a read goes on to a retry exactly after a 502, 503 or 504, a timeout or a network failure, at most twice and only in its own generation; nothing else is retried |
| `ApiClient.ApiClient.DelayEnds` | apps/web-shared/api-client.ts:94-115 | after its delay a request fetches again only in its own generation; an answered attempt whose own timeout cuts in is delayed once more, anything else gives up |
| `ApiClient.ApiClient.Run` | apps/web-shared/api-client.ts:10-115 | any events in any order are handled one by one, each with its exact effect on the requests and fetches; the invariant holds and later fetches of reads belong to no earlier generation |
| `ApiClient.ApiClient.FetchesAreBounded` | apps/web-shared/api-client.ts:24-36 | a write fetches once, a read at most three times |
| `ApiClient.ApiClient.NoFetchAfterCancel` | apps/web-shared/api-client.ts:82-87 | after a cancellation no read of before starts another fetch |

## Left out

- Share links of other protocols and transports, the derivation of X25519 keys, and the tags of imported outbounds.
- Hosts that the URL standard rewrites (upper-case percent-encodings, IPv6 addresses not in compressed form) and malformed escapes in queries.
- `createInbound` beyond the route rule (creation of inbound and client, their rollback), `publish`, and the `localId` update of an import.
- Rename recovery in `SuiService.save`: only its locks, pending guard and network check are modelled.
- `XuiService` apart from the reads and writes of a node's client and the nesting of its locks.
- Tasks that write clients under other guards (quota sync, service-node edits, traffic reset) in `Coordination`.
- The identity of a client (email, UUID, subscription id), its traffic quota and its renaming.
- New customers and deleted ones: the set of customers is fixed along a run.
- The check for pending renewals before balance history is cleared: the model lets history be cleared at any time.
- The select of at most 20 stale rows in the recovery jobs: any list may be recovered.
- Time zones and daylight saving in date arithmetic, and the limits of JavaScript dates.
- Row ids that are numeric strings, and UTF-16 code units in string lengths and sorting.
- An original that is a string or array while the edited value is an object: its own properties are not looked up when encoding.
- Signature checks of payment notifications, card codes, encryption and hashing; duplicate callback rows.
- Process death inside a method of a class: the machines have it as a step after any other step.
- LockService.DatabaseLockService.GetLock: a database connection that fails counts as a request that was not granted.
- FinanceService.FinanceService.CommitRenewal: the commit and the read that checks it are one step, because nobody else writes a renewal whose node lock is held.
- PanelFields.RoundTrip: `JSON.parse` and `JSON.stringify` are parameters tied by laws for the values a parser can return: keys once each and in the order JavaScript keeps, numbers that read as the text they print as, or infinities.
- JavaScript's own order of integer-like keys outside `PanelFields`: no modelled result depends on it.
- ShareLinks.ShareVmessRoundTrip: base64 (section 4 of RFC 4648) is a parameter whose decoder undoes its encoder.
- ApiClient.ApiClient.Run: timeouts and aborts are results of a fetch, and response bodies are not modelled.
