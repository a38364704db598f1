# Verification of the procurement backend's core

This project models the parts of the procurement backend that promise something over whole runs, and
proves those promises. It covers

- the action gateway: one durable row per idempotency key, leases, recovery and reconciliation, under
  every interleaving of processes, crashes, expired leases and late writes;
- the workflow editor: validation with cycle search, longest-path layout, edge-id repair, the
  invoice-match upgrade, and the store of drafts and versions;
- the Odoo import: candidates, document and line upserts with counters, the quantity ledger, the
  derived order status, and importing the same snapshot again;
- printers and parsers: canonical JSON, the supplier confirmation block, CSV rows, the JPEG header scan;
- small concurrent machines: collaboration actions, QR onboarding sessions, approval decisions, and the
  Advanced SLA profiles.

Code that changes state step by step is a class or a method here, proved against functions of the old
state; protocols are step systems whose runs are sequences of states, and their theorems quantify over
all runs. Every database transaction is one atomic step. Quantities and prices are exact numbers,
SHA-256 does not collide and a signed token cannot be forged.

Where the code does less than its documentation or its names suggest, the model follows the code, and a
theorem says exactly when the promise holds:

- a final gateway row can be overwritten: by a late owner, exactly while some execution of its key is not
  done (`GatewayProtocol.FinalStaysExactlyWhenDone`, reached in `GatewayProtocol.FinalRowsCanBeOverwritten`),
  and by a denied call that has already looked (`GatewayProtocol.FinalStaysDespiteDenials`); an action that
  is not an external write can run twice at once (`GatewayProtocol.LookupRunsTwice`);
- `sent` on an approval row stays exactly if no request is still sending
  (`ApprovalDecision.SentIsFinalUnlessSending`, reached in `ApprovalDecision.SentCanBeLost`);
- a failed send of an approval can be tried again by every approver of the same conclusion except the one whose
  send failed: the look before the claim answers him that his decision is being processed
  (`ApprovalDecision.SentAgainExactly`, reached in `ApprovalDecision.FailedSenderIsBlocked`);
- a collaboration key is committed for good exactly when it is completed, which a saved commit is only after
  the `await` it waits at (`Collaboration.CommittedForGoodExactlyWhenCompleted`, reached in
  `Collaboration.NotForGoodWhileWaiting`); another human's action
  under the same key on the same work item displaces the record that would stop a second commit until then
  (`Collaboration.OncePerTaskUnlessDisplaced`);
- a collaboration request repeated after a failed save is answered ok exactly if the callback threw after
  its metadata write (`Collaboration.RepeatedAfterFailure`);
- importing a snapshot twice is not always a no-op (`OdooReimport.RefusedInvoiceIsStoredLater`), and
  `OdooSnapshot.SnapshotReimport` gives the exact condition;
- a rollback to a version that lacks a draft removes the draft, and a later one can bring it back at a lower
  revision: revisions never fall exactly if every version has the stored declared drafts
  (`EditorStore.RevisionsNeverFall`, reached in `EditorStore.RevisionFallsWithoutCover`);
- the duplicate-notification guard of the invoice-match upgrade never holds, so the upgrade always adds five
  nodes; an eligible draft whose name is blank is refused when the upgrade is written
  (`EditorStore.UpgradeThroughStore`);
- an `apply` that is aborted while it is suspended leaves its onboarding session `applying` for good, until
  its profile starts anew (`WeixinOnboarding.AbortedApplyIsStuck`).

## Model

| member | source | states |
|---|---|---|
| ActionGateway.Gateway.ReadFinal | apps/api/src/action-gateway.ts:196-208 | only rows in a terminal status yield their stored result |
| ActionGateway.Gateway.StoreFinal | apps/api/src/action-gateway.ts:257-267 | an unconditional upsert: status from the result, lease cleared, the attempt set only on insert, no other key touched |
| ActionGateway.Gateway.ReserveRow | apps/api/src/action-gateway.ts:210-255 | the reservation transaction equals `Reserve`: new row, replay, exhausted retries, retry, live lease, takeover with recovery for external writes |
| ActionGateway.Gateway.Begin | apps/api/src/action-gateway.ts:81-144 | everything up to the first `await` equals `BeginSpec` on the row and in-flight entry of its key and leaves every other key alone |
| ActionGateway.Gateway.Settle | apps/api/src/action-gateway.ts:146-160 | an uncertain answer to an external write goes to reconciliation, any other answer is stored with its retry flag |
| ActionGateway.Gateway.SettleReconciliation | apps/api/src/action-gateway.ts:273-295 | a verified write is stored as completed, an unverified one as manual reconciliation, never as retryable |
| GatewayProtocol.StepKeepsInv | apps/api/src/action-gateway.ts:129-160 | for an external write every step of every process keeps: all requests but the last never started, one executor, attempts bound the calls, a retryable row means nothing is out |
| GatewayProtocol.ExternalWriteAtMostOnce | apps/api/src/action-gateway.ts:210-295 | over every run of any number of processes an external write has one executor at a time, at most one effect, and at most max(1, retries + 1) connector calls |
| GatewayProtocol.RetryableMeansUntouched | apps/api/src/action-gateway.ts:384-403 | in every reachable state a `retryable_failed` row means no live executor, no effect, and no request that could still take effect |
| GatewayProtocol.AtMostOnceExactlyForExternalWrites | apps/api/src/action-gateway.ts:384-389 | at-most-once over every run holds if and only if the action is classified as an external write |
| GatewayProtocol.LookupRunsTwice | apps/api/src/action-gateway.ts:210-255 | a run in which an action that is no external write has two executors and two effects |
| GatewayProtocol.SoloFinalIsAbsorbing | apps/api/src/action-gateway.ts:81-144 | with one process, across crashes and restarts, a terminal row never changes again |
| GatewayProtocol.SoloLaterCallsReplay | apps/api/src/action-gateway.ts:81-128 | and every later call returns the stored result and starts nothing |
| GatewayProtocol.FinalStaysExactlyWhenDone | apps/api/src/action-gateway.ts:257-267 | from any reachable state with a final row, no run without denied calls changes the row if and only if every execution of its key is done |
| GatewayProtocol.FinalStaysDespiteDenials | apps/api/src/action-gateway.ts:81-127 | with denied calls that are past `readFinal`, exactly if besides the row already is the one a denial writes |
| GatewayProtocol.BeginIsAStep | apps/api/src/action-gateway.ts:81-144 | what one process does before its first `await` is no step or one step of the interleaved protocol |
| GatewayHistory.AnswersAreStored | apps/api/src/action-gateway.ts:146-160 | an answer is in the row it closes: ok or verified means `completed`, unverified `manual_reconciliation`, a safe failure `retryable_failed`, any other `failed`; an uncertain answer to an external write leaves the row and goes on to verification; the lease goes and the attempt stays |
| GatewayHistory.RowsAreEarned | apps/api/src/action-gateway.ts:146-295 | over every run of any number of processes whatever a row says some earlier answer said, in its own words |
| GatewayHistory.SuccessWasReported | apps/api/src/action-gateway.ts:273-295 | over every run a row holds ok exactly if it is `completed`, and then the connector answered ok or a verification confirmed the write |
| GatewayHistory.EnterIsGranted | apps/api/src/action-gateway.ts:210-255 | a call is given the row exactly if nobody had it, a retry is left or the lease has run out; it gets a new lease and attempt, and sends a request unless it takes over an external write; otherwise the row stays, or fails for good once its retries are used up |
| GatewayHistory.EveryRetryIsGranted | apps/api/src/action-gateway.ts:227-243 | the bound on connector calls is met: for every number up to max(1, retries + 1) some run makes that many calls |
| WorkflowValidation.CycleSearch.Visit | apps/api/src/editor.ts:1341-1371 | the recursive search visits exactly the unvisited part, finishes nodes in post-order, and fails only on a real directed cycle |
| WorkflowValidation.ValidateWorkflow | apps/api/src/editor.ts:1341-1371 | accepts exactly the valid workflows (local checks, unique ids, attached edges, no directed cycle), and a reported problem is really there |
| WorkflowValidation.PostOrderIsAcyclic | apps/api/src/editor.ts:1341-1371 | a finished post-order over all edges rules out every directed cycle |
| EditorLayout.Layers | apps/api/src/editor.ts:289-308 | the queue loop ends on every graph, and on an acyclic one gives each node the length of the longest path that reaches it |
| EditorLayout.Arrange | apps/api/src/editor.ts:309-318 | every node gets the place its layer and its rank in the layer determine |
| EditorLayout.EditorLayout | apps/api/src/editor.ts:289-320 | nodes with a position keep it, all others get their computed place, in order and otherwise unchanged |
| EditorLayout.SpotsDiffer | apps/api/src/editor.ts:314-318 | no two computed positions coincide |
| EditorLayout.ColumnsAreCentred | apps/api/src/editor.ts:314-318 | a column hangs centred at height 256 with its nodes 164 apart in node order, and columns stand 310 apart, the first at 56 |
| EditorLayout.EdgesGoRight | apps/api/src/editor.ts:299-317 | on an acyclic graph every edge goes strictly to the right |
| EditorLayout.RepairEdgeIds | apps/api/src/editor.ts:329-339 | after the repair all edge ids are present and distinct, ends and texts unchanged, and first uses of an id keep it |
| EditorLayout.RepairIsStable | apps/api/src/editor.ts:329-340 | the repair changes nothing if and only if edge ids are present and distinct, and its own result is left alone |
| Decimals.FindAvailable | apps/api/src/editor.ts:555-560 | the loop ends and finds a name that is not in use |
| Decimals.SearchIsLeast | apps/api/src/editor.ts:555-560 | no smaller free number is skipped |
| InvoiceMatchUpgrade.UpgradeKeepsValid | apps/api/src/editor.ts:555-618 | upgrading a valid eligible draft gives a valid draft if and only if it has at most 195 nodes |
| InvoiceMatchUpgrade.UpgradeLeavesTheRest | apps/api/src/editor.ts:562-618 | every other node stays in place, exactly the edges leaving the legacy node go, and every new edge leads to a new node |
| InvoiceMatchUpgrade.UpgradeIsDone | apps/api/src/editor.ts:562-618 | planning on the result reports that it is already current |
| InvoiceMatchUpgrade.PlanExactly | apps/api/src/editor.ts:563-577 | a draft is eligible exactly if it is `invoice-match` with exactly one legacy match node and no line-level one, and already current exactly if it has a line-level node and no legacy one |
| InvoiceMatchWiring.UpgradeIsWired | apps/api/src/editor.ts:374-385 | over the upgraded draft's own nodes and edges: each label of the line match leads to its branch, approval leads only to payable and payable only to the ERP write-back, and the branches are entered only there |
| InvoiceMatchWiring.SevereIsNeverPaid | apps/api/src/editor.ts:374-385 | no path leads from the exception node to the approval, payable or ERP node |
| InvoiceMatchWiring.PaidOnlyAfterMatching | apps/api/src/editor.ts:374-385 | every path from an old node to the ERP write-back ends in line match, perhaps approval, payable, ERP |
| InvoiceMatchWiring.AddedAreReached | apps/api/src/editor.ts:374-385 | every added node is reached from the line match |
| EditorStore.NextVersionIsUnused | apps/api/src/editor.ts:1307-1317 | the next version name differs from every stored one, whatever those look like |
| EditorContents.NextVersionIsNext | apps/api/src/editor.ts:1307-1317 | the next version is the one after the highest patch number among the pack's own first version and the stored ones of its line |
| EditorStore.EditorStore.SaveWorkflow | apps/api/src/editor.ts:966-1000 | saving equals `Save`: revision required, found, matching, name and description trimmed, valid, then one draft at its next revision |
| EditorStore.EditorStore.PublishAll | apps/api/src/editor.ts:1003-1013 | publishing stamps every listed draft, stores them as a snapshot, and makes that version the current one |
| EditorStore.EditorStore.RollBack | apps/api/src/editor.ts:1015-1031 | rolling back replaces the declared drafts by the snapshot's, one revision on, under a new current version |
| EditorStore.EditorStore.ImportBlueprint | apps/api/src/editor.ts:867-943 | an import equals `Import`: key checks, replay, expectations, already current, validation, then all drafts and the key together |
| EditorStore.EditorStore.constructor | apps/api/src/editor.ts:1147-1152 | a start stores the missing default drafts, keeps every stored one, and makes a first version only where there is none |
| EditorStore.SeedKeeps | apps/api/src/editor.ts:1147-1184 | a start on valid drafts, with or without versions, gives a store that meets the invariant |
| EditorStore.StepKeepsInv | apps/api/src/editor.ts:867-1031 | start, save, upgrade, publish, rollback and import keep drafts and snapshots valid, published revisions at or below draft revisions, version names distinct and exactly one version current |
| EditorStore.RunKeepsInv | apps/api/src/editor.ts:867-1031 | the same over every run of operations |
| EditorStore.SaveWritesWhatItNamed | apps/api/src/editor.ts:966-1000 | a save writes one draft from the revision its caller named to the next, or nothing |
| EditorStore.ImportWritesWhatItNamed | apps/api/src/editor.ts:867-943 | an import writes only drafts named at their present revision and leaves what is published; refused or replayed it changes nothing |
| EditorStore.RollbackFallsUnlessCovered | apps/api/src/editor.ts:1015-1031 | a rollback loses no draft and lowers no revision if and only if the version holds every stored declared draft |
| EditorStore.RevisionsNeverFall | apps/api/src/editor.ts:867-1031 | over every run no draft of a store is lost or falls to a lower revision, if and only if every stored version has all the declared drafts that are stored |
| EditorStore.RevisionFallsWithoutCover | apps/api/src/editor.ts:1015-1031 | publishing before and after a pack gains a workflow, then rolling back to the older and to the newer version, takes that workflow's draft from revision 3 to revision 2 |
| EditorStore.UpgradeThroughStore | apps/api/src/editor.ts:955-964 | upgrading a stored eligible draft succeeds exactly for its present revision, at most 195 nodes and a name that is not blank, and then nothing is left to upgrade |
| EditorContents.RollbackBringsBack | apps/api/src/editor.ts:1015-1031 | after a rollback each declared draft of the version has its name, description, nodes and edges, a new current version holds just these drafts, and other drafts are untouched |
| EditorContents.PublishStamps | apps/api/src/editor.ts:1003-1013 | publishing changes no content: each declared draft gets its own revision and the new version's name, and the version holds exactly these drafts |
| EditorContents.PublishedComesBack | apps/api/src/editor.ts:1003-1031 | publish, do anything, roll back to what was published: every declared draft has the content it was published with |
| EditorContents.VersionComesBack | apps/api/src/editor.ts:1015-1031 | the same for every version a store holds, over every run of operations after it was made |
| EditorContents.RunKeepsOneEach | apps/api/src/editor.ts:867-1031 | no run makes a version in which one id stands for two drafts, so every version can come back |
| EditorContents.SeedStoresDefaults | apps/api/src/editor.ts:1147-1152 | a start stores exactly the missing defaults, as they are, and a first version holds the declared drafts |
| EditorContents.SaveTakesThePatch | apps/api/src/editor.ts:978-986 | a saved draft has each field from the patch where it gives one, otherwise its own; name and description are trimmed |
| EditorContents.SavingAgainKeepsContent | apps/api/src/editor.ts:978-986 | a saved draft can be saved again without a patch, and only its revision moves |
| EditorContents.ImportTakesTheBlueprints | apps/api/src/editor.ts:902-920 | a successful import stores every declared default with its content one revision on, and leaves all other drafts alone |
| EditorContents.ImportAnswers | apps/api/src/editor.ts:867-900 | which requests are refused, replayed or let through, by the trimmed key, the stored drafts and the named revisions |
| EditorContents.SameMeansSame | apps/api/src/editor.ts:512-530 | with ids present and telling, the comparison of an import finds a draft current if and only if it has the blueprint's texts, nodes and edges in whatever order |
| EditorContents.ImportSettles | apps/api/src/editor.ts:841-900 | after a successful import the next one under a fresh key is already current |
| EditorContents.ImportReplays | apps/api/src/editor.ts:868-879 | the same request again is a replay, whatever happened to the drafts |
| QuantityLedger.PersistKeepsLedger | apps/api/src/odoo-procurement-sync.ts:582-614 | every accepted event keeps each cached projection equal to the sum and the list of its ledger events, and event names unique |
| QuantityLedger.PersistEffect | packages/core/src/procurement-model.ts:684-714 | an event is appended once, or it had been posted before word for word and nothing changes |
| QuantityLedger.PersistSums | apps/api/src/odoo-procurement-sync.ts:582-614 | a posting adds its amount to its own line, dimension and source entity, and to nothing else |
| QuantityLedger.ReceiptFollowed | apps/api/src/odoo-procurement-sync.ts:525-544 | after a receipt line is followed its postings add up to its quantity if and only if the correction was not posted before under the same revision |
| QuantityLedger.ConfirmationFilled | apps/api/src/odoo-procurement-sync.ts:497-523 | after a fill-up the line is confirmed in full and not beyond an earlier confirmation, if and only if that fill-up is new under its revision |
| LedgerLimits.TakenExactly | packages/core/src/procurement-model.ts:684-714 | an event is taken if and only if its line fits, it is not zero, and it is in the ledger word for word or its name is new and the sums of its line stay within their limits |
| LedgerLimits.NeverBelowNothing | packages/core/src/procurement-model.ts:684-714 | over every run of imports and other postings no sum is negative and no line has more cancelled than ordered |
| OdooLifecycle.Post | apps/api/src/odoo-procurement-sync.ts:497-544 | the two posting loops equal `PostAll`, failures included |
| OdooLifecycle.FollowAllConverges | apps/api/src/odoo-procurement-sync.ts:525-544 | after the receipt loop a line's corrections add up to its quantity if and only if its correction was new when its turn came; of lines with one id the last wins |
| OdooLifecycle.ConfirmAllConverges | apps/api/src/odoo-procurement-sync.ts:497-523 | after the confirmation loop a line is filled up, and not beyond an earlier confirmation, if and only if its fill-up was new when its turn came; of jobs for one line the last wins |
| OdooLifecycle.DistinctConverges | apps/api/src/odoo-procurement-sync.ts:497-544 | where ids do not repeat, the ledger before the import decides |
| OdooLifecycle.StatusesDerived | apps/api/src/odoo-procurement-sync.ts:552-580 | each order's row depends on its own lines only, gets a new version exactly for a new status, at the time of its latest receipt or of the import, and no other row changes |
| OdooLifecycle.TestsReadTheLedger | apps/api/src/odoo-procurement-sync.ts:555-558 | the tests on cached projections are tests on ledger sums |
| OdooLifecycle.ImportConverges | apps/api/src/odoo-procurement-sync.ts:480-580 | after any successful import caches are ledger sums, receipts and confirmations have converged, the last row of an id winning, and an order with received quantity is `received` exactly when received plus cancelled covers every line |
| OdooLifecycle.LedgerAlwaysAgrees | apps/api/src/odoo-procurement-sync.ts:582-660 | over every run of imports and other postings, whatever they repeat, every projection is the sum of its events |
| OdooTables.DocsUnchanged | apps/api/src/odoo-procurement-sync.ts:396-443 | storing candidates leaves the document table alone if and only if each candidate alone would |
| OdooTables.LinesUnchanged | apps/api/src/odoo-procurement-sync.ts:445-478 | the same for lines |
| OdooTables.DocsLeft | apps/api/src/odoo-procurement-sync.ts:396-443 | after storing distinct documents exactly the accepted ones are stored as their own, with the merged status |
| OdooTables.LinesLeft | packages/persistence/src/twin-projection-enqueue.ts:122-174 | after storing distinct lines the accepted ones are held word for word and the others are without a document, under another one, or absent |
| OdooImport.Importer.UpsertDocument | apps/api/src/odoo-procurement-sync.ts:396-443 | each branch: the row written or not, one counter raised, an issue exactly for a skip |
| OdooImport.Importer.UpsertLine | apps/api/src/odoo-procurement-sync.ts:445-478 | each branch for lines, and failure where the table refuses the new place |
| OdooImport.Importer.UpsertDocuments | apps/api/src/odoo-procurement-sync.ts:192-194 | the loop accepts exactly the candidates not skipped, and each waiting candidate becomes one counted outcome |
| OdooImport.Importer.Run | apps/api/src/odoo-procurement-sync.ts:163-217 | the import equals `Import`, all or nothing; everything seen is handled except the replaced suppliers, and issues are the incoming ones plus the skips |
| OdooTallies.ImportIsTallied | apps/api/src/odoo-procurement-sync.ts:396-478 | for every kind `created` counts exactly the rows new in the tables, and `updated` exactly the rows with a new version |
| OdooStatuses.UpsertExactly | apps/api/src/odoo-procurement-sync.ts:396-443 | a document is stored as it is where its id, foreign object and invoice number are free; where it is its own row it takes over every field but the creation time and, once it has gone further, a mere `confirmed`; anything else changes nothing |
| OdooStatuses.ConfirmedNeverFallsBack | apps/api/src/odoo-procurement-sync.ts:702-707 | over a whole import an order that Odoo holds confirmed and that has gone further here keeps its status or moves to the one its receipts say |
| OdooStatuses.StagesAdded | apps/api/src/odoo-procurement-sync.ts:497-580 | a successful import adds exactly the confirmations Odoo dates and the receipts of orders whose status it derived, and only the last receipt of a complete order completes it |
| OdooStatuses.StatusTimeIsLatest | apps/api/src/odoo-procurement-sync.ts:546-572 | a derived status is dated by the revision of the order's latest receipt, by time and then by id, or by the import where there is none |
| OdooCandidates.BuildCandidates | apps/api/src/odoo-procurement-sync.ts:219-394 | the builder's loops compute `Drafted`: candidates, counters and issues of a snapshot |
| OdooContents.DraftedContents | apps/api/src/odoo-procurement-sync.ts:219-394 | the candidates in closed form: a supplier a partner, as its last valid master says or else observed, then the documents of exactly the good orders, receipts and invoices, in order, with their good lines; receipts find orders by good order lines or by a name no two orders share |
| OdooContents.OrderContents | apps/api/src/odoo-procurement-sync.ts:280-325 | a complete order of a known supplier becomes one document with its good lines and names an order only if its name is unique; any other leaves documents, lines and indexes alone |
| OdooContents.ReceiptContents | apps/api/src/odoo-procurement-sync.ts:328-358 | a finished receipt becomes one document exactly if its lines point at one order, or else its order name is known, and keeps exactly the lines that point at a good line of that order with a positive quantity |
| OdooContents.InvoiceContents | apps/api/src/odoo-procurement-sync.ts:360-392 | a complete invoice of a known supplier becomes one document with its good lines, any other nothing |
| OdooFields.LinesAreTheRows | apps/api/src/odoo-procurement-sync.ts:305-391 | the candidate lines are exactly those of kept rows, each with the number, document, order line and quantity of its own row |
| OdooFields.DocsAreTheRows | apps/api/src/odoo-procurement-sync.ts:271-384 | beside suppliers the candidate documents are exactly those of kept orders, receipts and invoices, each with its row's number, times and the status its state stands for |
| OdooFields.SuppliersAreTheRows | apps/api/src/odoo-procurement-sync.ts:229-269 | the supplier candidates are exactly those of partners some row brings, described by the last master that names them or else observed on an order or invoice |
| OdooFields.FoundBelongs | apps/api/src/odoo-procurement-sync.ts:328-336 | a receipt belongs to the only order its lines point at, or else to the order that alone has its order name |
| OdooFields.NumberAfterIs | apps/api/src/odoo-procurement-sync.ts:723-726 | a partner name is its prefix and the numeral of a positive number, without a leading zero |
| OdooArrivals.ReceivedIsTheRow | apps/api/src/odoo-procurement-sync.ts:525-544 | end to end: after a successful import the postings under a stored receipt line add up to its row's quantity, if and only if they did before or the missing part is new under the receipt's revision |
| OdooArrivals.ConfirmedIsTheRow | apps/api/src/odoo-procurement-sync.ts:497-523 | end to end: a stored line of an order in state `purchase` or `done` is confirmed up to its row's quantity and no further than it was, if and only if it was or the rest is new under this import |
| OdooArrivals.StatusIsTheRows | apps/api/src/odoo-procurement-sync.ts:552-570 | end to end: a stored order with any received quantity is `received` if its stored lines all are, counting cancellations, and otherwise `partially_received` |
| OdooCounts.DraftedCounts | apps/api/src/odoo-procurement-sync.ts:230-390 | `seen` is the number of rows of each kind, of the lines of rows that are kept, and of masters and newly observed partners |
| OdooCounts.DraftedIsSound | apps/api/src/odoo-procurement-sync.ts:219-394 | every row seen is skipped or waiting, except replaced masters, every receipt line belongs to an order line of its receipt's order, and each issue is incoming or one skip |
| OdooSnapshot.ImportSnapshot | apps/api/src/odoo-procurement-sync.ts:163-217 | a known key replays its run or refuses another snapshot and writes nothing; otherwise the store becomes the import of the snapshot's candidates or stays, every row is counted, and seen equals created, updated, unchanged and skipped, for suppliers if and only if valid masters have distinct partners |
| OdooSnapshot.CandidatesDistinct | apps/api/src/odoo-procurement-sync.ts:219-394 | rows with distinct ids give candidates with distinct ids, across all kinds |
| OdooReposting.PostQuiet | apps/api/src/odoo-procurement-sync.ts:497-544 | posting leaves the ledger alone if and only if every single line would |
| OdooReposting.FollowAllSettles | apps/api/src/odoo-procurement-sync.ts:525-544 | once followed, a receipt line is settled whatever the other lines post |
| OdooReposting.RepostingIsQuiet | apps/api/src/odoo-procurement-sync.ts:497-544 | posting the same candidates at another time adds nothing if and only if no confirmed line is short |
| OdooReposting.FreshMeansCovered | apps/api/src/odoo-procurement-sync.ts:512-523 | a line filled up with a new event is not short afterwards |
| OdooReposting.DerivingAgain | apps/api/src/odoo-procurement-sync.ts:552-580 | statuses derived from a ledger stay when derived from it again |
| OdooReimport.ReimportIsNoOp | apps/api/src/odoo-procurement-sync.ts:163-217 | importing the same candidates again changes no row, event or stage if and only if stored orders are confirmed or at the imported status, refusals still have a reason, and no confirmed line is short |
| OdooSnapshot.SnapshotReimport | apps/api/src/odoo-procurement-sync.ts:163-217 | for distinct ids, importing one snapshot again under another key and time changes no version, event, stage or status if and only if stored orders are confirmed or at the imported status, refusals still have a reason, and no confirmed line is short |
| OdooSnapshot.ReimportWithoutStrayReceipts | apps/api/src/odoo-procurement-sync.ts:396-443 | with no receipt on an order outside `purchase` and `done`, exactly if refusals still have a reason and no confirmed line is short |
| OdooReimport.RefusedInvoiceIsStoredLater | apps/api/src/odoo-procurement-sync.ts:413-419 | a snapshot whose refused invoice is stored by the next import of the same snapshot |
| CanonicalJson.CanonicalIsInjective | apps/api/src/collaboration-channels.ts:186-193 | two JSON values have the same canonical text if and only if they are equal up to key order |
| CanonicalJson.ValuesDecode | apps/api/src/odoo-procurement-sync.ts:773-780 | unique decoding: equal texts followed by anything that cannot continue a value come from equal values and equal rests |
| JsonText.UnquoteQuote | apps/api/src/collaboration-channels.ts:186-193 | reading a quoted string back gives the string and what followed it (section 7 of RFC 8259) |
| JsonText.AscendingUnique | apps/api/src/collaboration-channels.ts:189-191 | the sorted key list is determined by the set of keys |
| Collaboration.FingerprintInjective | apps/api/src/collaboration-channels.ts:195-204 | two payloads have the same fingerprint if and only if they are the same |
| Collaboration.ControlPlane.RequestAction | apps/api/src/collaboration-channels.ts:253-305 | one request up to the `await` of its commit equals `Handle` on the whole state: replay, reuse, confirmation, expiry, commit |
| Collaboration.ControlPlane.Commit | apps/api/src/collaboration-channels.ts:344-360 | up to the `await` a commit has written assignment and metadata and waits, or has put the assignment back |
| Collaboration.ControlPlane.CompleteCommit | apps/api/src/collaboration-channels.ts:361-363 | after the `await` the key is completed with the outcome that is answered |
| Collaboration.AttemptsAreConfirmed | apps/api/src/collaboration-channels.ts:253-305 | in every interleaving at the `await`, each attempt had its own unexpired confirmation issued to that human for that payload, and no nonce serves twice |
| Collaboration.OncePerTaskUnlessDisplaced | apps/api/src/collaboration-channels.ts:167-185 | in every interleaving a key commits at most once on one work item, unless in between another human wrote an action under the same idempotency key there |
| Collaboration.CommitsAgainExactly | apps/api/src/collaboration-channels.ts:262-305 | a confirmed request under a key saved before commits again if and only if the key is not completed and its work item has no record by this human, and then the earlier commit still waits |
| Collaboration.CommittedForGoodExactlyWhenCompleted | apps/api/src/collaboration-channels.ts:344-363 | no run commits a saved key on its work item again if and only if the key is completed; then no run commits it anywhere, and every saved commit that no longer waits has completed its key |
| Collaboration.KeysApartCommitOnce | apps/api/src/collaboration-channels.ts:253-363 | where no request begins while a commit under its own key waits, each key commits at most once and all ok replies to a key agree |
| Collaboration.OneCommitPerKey | apps/api/src/collaboration-channels.ts:253-363 | in every interleaving the same holds for a key the tenant uses for one human and one work item |
| Collaboration.OkRepliesWereWritten | apps/api/src/index.ts:415-432 | every ok reply reports an action written under its key, by an attempt whose callback saved it or threw only afterwards, or already in the metadata at the start |
| Collaboration.FailedCommitChangesNoAssignment | apps/api/src/collaboration-channels.ts:344-374 | a failed commit leaves every effective assignment as it was |
| Collaboration.ReusedKeyIsDetected | apps/api/src/collaboration-channels.ts:262-280 | a completed key answers its own payload with its outcome and any other payload with an error |
| Collaboration.RepeatedAfterFailure | apps/api/src/index.ts:415-432 | after a failed commit the same request, repeated at any later time, is answered ok if and only if the callback had written the metadata, must be confirmed again if and only if it had not, and the assignment is the old one |
| CollaborationAssignments.AttemptAssigns | apps/api/src/collaboration-channels.ts:344-360 | a saved attempt's effective assignment, its reply and the metadata all name the requested human and role, the actor, or the earlier holder, each with its state |
| CollaborationAssignments.NothingElseAssigns | apps/api/src/collaboration-channels.ts:344-360 | only a saved attempt on the work item itself moves its effective assignment |
| CollaborationAssignments.HeldByTheLastSaved | apps/api/src/collaboration-channels.ts:344-408 | in every interleaving a work item is held by whom the last saved action on it assigns, and each attempt was one its actor might make under the holder before it |
| CollaborationAssignments.RefusedExactly | apps/api/src/collaboration-channels.ts:365-408 | a request is refused as malformed, unknown or forbidden exactly by its own fields, the known work items, and the roles and holder |
| CollaborationAssignments.AcceptedExactly | apps/api/src/collaboration-channels.ts:294-304 | in every interleaving a token that was handed out is accepted if and only if it was handed to this human for this payload, has not expired and no attempt has used it |
| CollaborationAssignments.AskedThenAccepted | apps/api/src/collaboration-channels.ts:278-304 | a request that only lacks its confirmation gets one that lives for the full time or is still alive, and the same request with this token is accepted until then |
| ConfirmationBlock.ParseConfirmation | apps/api/src/procurement-inbound-email.ts:184-238 | the loop over the rows equals `Parse`, every refusal included |
| ConfirmationRoundTrip.AcceptedCoversEveryLine | apps/api/src/procurement-inbound-email.ts:184-238 | any accepted reply confirms every order line exactly once with positive quantity, price not negative, a date and the order's currency; line numbers are then distinct |
| ConfirmationRoundTrip.AcceptedExactly | apps/api/src/procurement-inbound-email.ts:184-238 | a reply is accepted with given confirmations if and only if its block names the order first, its LINE rows say exactly these, one order line each in the order's currency, and there are as many as the order has lines with distinct numbers |
| ConfirmationRoundTrip.PrintedBlockParses | apps/api/src/procurement-inbound-email.ts:167-238 | for fields on one line without bars, closing markers and space entities, parsing the printed block gives back every line if and only if line numbers are distinct, quantities positive, prices not negative, dates present and the currency trimmed |
| ConfirmationRoundTrip.LineReadsBack | apps/api/src/procurement-inbound-email.ts:172-211 | the five fields of a printed line are read back under their keys |
| ConfirmationRoundTrip.BlockIsFound | packages/core/src/procurement-supplier-reply.ts:109-122 | a printed block survives quote stripping and is found between its markers, row by row |
| ConfirmationRoundTrip.TrimmedRows | apps/api/src/procurement-inbound-email.ts:202-203 | trimming the block as a whole does not change its rows |
| CsvRows.ReadRows | apps/api/src/procurement-document-parser.ts:44-61 | the character loop equals `Parse` on every text |
| CsvRows.ParseWrite | apps/api/src/procurement-document-parser.ts:44-61 | reading any admissibly quoted table gives its values, clipped, without a blank last row |
| CsvRows.RoundTrip | apps/api/src/procurement-document-parser.ts:44-61 | for every table, parsing the fully quoted text (section 2 of RFC 4180) gives the table back if and only if no row is empty, it fits, has no carriage return, and its last row has text |
| JpegScan.JpegSize | apps/api/src/procurement-document-parser.ts:71-83 | the scan ends, reads only inside the buffer, and finds a size exactly when a chain of segments reaches a frame header, and then the big-endian words of that header |
| JpegScan.PrintedSizeIsFound | apps/api/src/procurement-document-parser.ts:71-83 | for every printed image, whatever stray bytes and segments come before its frame header, the scan finds its width and height |
| WeixinOnboarding.SessionsStaySound | infra/hermes/weixin_onboarding_service.py:108-255 | in every interleaving: one registered session per profile, credentials exactly in `ready` or `applying`, unregistered sessions cancelled and empty, refreshes bounded |
| WeixinOnboarding.OneApplyAtATime | infra/hermes/weixin_onboarding_service.py:178-207 | at most one `apply` is in flight per record |
| WeixinOnboarding.RemovedIsNeverRevived | infra/hermes/weixin_onboarding_service.py:209-255 | whatever is suspended when a session is removed, it stays cancelled, unregistered and without credentials |
| WeixinOnboarding.AbortedApplyIsStuck | infra/hermes/weixin_onboarding_service.py:178-221 | a session being applied stays so over every run until its profile starts anew, if and only if the coroutine that applied it is gone |
| WeixinOnboarding.StepKeepsRecords | infra/hermes/weixin_onboarding_service.py:108-255 | every step keeps the session invariant |
| WeixinOnboarding.StepKeepsTasks | infra/hermes/weixin_onboarding_service.py:132-255 | every step keeps what is known of each suspended coroutine and of the record locks |
| WeixinOnboarding.Manager.Start | infra/hermes/weixin_onboarding_service.py:108-130 | the registry after a start: the profile's old session removed, the new one registered |
| WeixinOnboarding.Manager.Locked | infra/hermes/weixin_onboarding_service.py:132-207 | what a coroutine does once it has the record's lock, case by case, equals the step system's step |
| WeixinHistory.ChangeIsCaused | infra/hermes/weixin_onboarding_service.py:108-255 | a session record changes only for a reason: each new status has the one step and answer that can bring it |
| WeixinHistory.ReplyIsTaken | infra/hermes/weixin_onboarding_service.py:141-176 | what each answer of the QR service does to a session that is still registered |
| WeixinHistory.CodeIsTaken | infra/hermes/weixin_onboarding_service.py:239-256 | a renewed code is the one polled next, a missing one is an error |
| WeixinHistory.ApplyIsTaken | infra/hermes/weixin_onboarding_service.py:178-207 | an apply takes a ready session; if it fails the session is ready again with the same credentials, if it succeeds the session ends without them |
| WeixinHistory.StatusPolls | infra/hermes/weixin_onboarding_service.py:132-150 | asking for the status polls an open session, after a new code if its time is up and it may have one |
| WeixinHistory.StartRegisters | infra/hermes/weixin_onboarding_service.py:108-130 | a start registers one fresh session and cancels exactly the registered ones of its profile |
| WeixinHistory.CredentialsWereConfirmed | infra/hermes/weixin_onboarding_service.py:157-176 | over every run the credentials a session holds are the ones the service confirmed for this very session |
| ApprovalDecision.DecisionTable.ClaimDecision | apps/api/src/editor-approval.ts:68-110 | the claim transaction: first claim owns, same conclusion replays or waits or takes over, the opposite conflicts |
| ApprovalDecision.DecisionTable.Mark | apps/api/src/editor-approval.ts:132-143 | marking touches only a row of the same conclusion |
| ApprovalDecision.Agreement | apps/api/src/editor-approval.ts:68-152 | over every run Temporal is sent one conclusion, all senders and positive answers agree, and `sent` implies it was delivered or audited |
| ApprovalDecision.ConclusionIsFinal | apps/api/src/editor-approval.ts:68-110 | the conclusion of a row never changes |
| ApprovalDecision.SentIsFinalUnlessSending | apps/api/src/editor-approval.ts:68-143 | a sent row stays sent over every continuation if and only if no request is still sending |
| ApprovalDecision.ClaimExactly | apps/api/src/editor-approval.ts:68-110 | who is given the row: the first claim, and one of the same conclusion after a failed send or an expired lease; what every other claim answers |
| ApprovalDecision.SentAgainExactly | apps/api/src/editor-approval.ts:68-130 | with nobody under way an approver can get an unsent row sent if and only if he has its conclusion and is not the one whose own send failed |
| SlaLifecycle.SlaTables.PublishProfile | apps/api/src/procurement-advanced-sla.ts:234-238 | publishing equals `Publish`: the live profile is retired and the draft goes live with a fresh unpaused control |
| SlaLifecycle.SlaTables.ApplyImport | apps/api/src/procurement-advanced-sla.ts:205-227 | applying equals `Apply`: hash, versions and state are checked, an applied batch only replays |
| SlaLifecycle.OneLiveOneApplied | apps/api/src/procurement-advanced-sla.ts:165-242 | over every run at most one profile is live, its control has its version, and of the batches against one draft version at most one is applied |
| SlaLifecycle.AppliedOnce | apps/api/src/procurement-advanced-sla.ts:205-227 | a batch changes its draft at most once, whatever happens later |
| SlaLifecycle.PausedExactly | apps/api/src/procurement-advanced-sla.ts:101-118 | over every run the kill switch refuses a message of the live profile exactly while it is paused |
| SlaEffects.PublishExactly | apps/api/src/procurement-advanced-sla.ts:234-238 | publishing succeeds exactly for a ready version-2 draft at the named version without a control; it goes live with the activated sections, and of the others exactly the live one is retired |
| SlaEffects.PatchExactly | apps/api/src/procurement-advanced-sla.ts:160-163 | a patch writes the sections of the draft its caller named and nothing else |
| SlaEffects.RetireExactly | apps/api/src/procurement-advanced-sla.ts:240-242 | retiring takes the live profile out of service and keeps what it says |
| SlaEffects.ControlExactly | apps/api/src/procurement-advanced-sla.ts:167-172 | the kill switch moves exactly for the live profile at the named versions, to what was asked |
| SlaEffects.ApplyExactly | apps/api/src/procurement-advanced-sla.ts:205-227 | applying a batch writes the previewed sections into its draft exactly if every check holds, and marks it applied |
| SlaEffects.PreviewedThenApplied | apps/api/src/procurement-advanced-sla.ts:173-227 | a sound preview is applied, whatever happened since, if and only if its draft is still at the previewed version and nobody applied it; then the draft says what the preview showed, and again it only replays |
| SlaEffects.SectionsWereBrought | apps/api/src/procurement-advanced-sla.ts:153-238 | over every run a profile says what its creation, a patch, an applied preview or its activation brought |
| SlaEffects.PublishedSaysTheSame | apps/api/src/procurement-advanced-sla.ts:153-242 | over every run what went live says the same for good |
| SlaLifecycle.Diff | apps/api/src/procurement-advanced-sla.ts:383 | the counters of the rule diff are the sizes of the four sets they stand for |
| SlaLifecycle.CountersCountRules | apps/api/src/procurement-advanced-sla.ts:383 | the counters add up to the numbers of new and of old rules if and only if no rule id repeats on that side |

## Left out

- HTTP routing, permissions, sessions, rate limits and response texts: plumbing around the modelled code.
- Connectors, mail, Odoo, WhatsApp, Temporal and file storage: foreign calls, present only as answers a step may bring.
- The gateway without a database, with its bounded result map, and its public demo answers: forgetting keys gives up at-most-once by design.
- Gateway input resolution and the reading of error texts: the two error patterns are flags of an answer.
- Error messages, evidence records, projection jobs and audit details: written beside the modelled rows and never read by them; a stage event is its identifying part.
- The search for rejected and neighbouring rows in Odoo's own service, and time zones in date parsing: rows arrive trimmed, with dates as numbers.
- Optional business fields of documents and lines: carried as one text of details, compared as a whole; the order an invoice points at is part of them.
- String order in `localeCompare`: receipts of one time are ordered by their ids' characters.
- Case folding beyond ASCII, and line separators other than carriage return and line feed, in the confirmation block.
- The order in which the store lists drafts: the model lists them in the pack's order. The positions, icons and edge ids that a start fills in on stored drafts: they change no revision (`EditorLayout.EditorLayout` and `EditorLayout.RepairEdgeIds` are that code), and on drafts that have them nothing (`EditorLayout.RepairIsStable`).
- Editor runs, rule sets and the migration of old tables: inserts and updates by key without a protocol.
- Teams cards and their signed tokens, and roles beyond the two that manage.
- PNG and GIF headers: fixed offsets without a loop.
- The version-1 Advanced SLA CSV and the rule schemas: a batch carries its parsed sections as one text.
