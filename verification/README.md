# Verification of the planning backend

A Dafny model of the parts of the production planning backend that carry state or have to be exact:
how data gets in from the ERP, how it is stored and compared, and how planners and the replanning
engine change the plan. `dafny verify dfyconfig.toml` checks everything.

| file | what it models |
|---|---|
| Prelude.dfy, Texts.dfy, Decimal.dfy, Floats.dfy | strings in code point order, stripping, stable sorting; integers and floats as texts |
| SyncModel.dfy, SyncService.dfy | one synchronisation run: its effect on the store as a function, and the same run as mutable batches over a transactional session |
| SyncProtocol.dfy | the ERP changing while full, incremental and failing runs fetch from it |
| MockErp.dfy | the mock connector: its changes and its filtered fetches |
| Normalizer.dfy, MappingLaws.dfy, OrderIds.dfy | raw records to orders, operations and masters; what a cell decides; what an order id stands for |
| ErpFormats.dfy, ErpParsers.dfy, ParserLaws.dfy, ErpColumns.dfy | the formats of the export and their parsers, and what each kind of column gives back |
| ErpRecords.dfy, ErpExports.dfy, ErpTables.dfy | the columns of orders, operations, machines and calendars; whole exports printed and normalised back; both sides written out column by column |
| IsoTime.dfy, JsonText.dfy, SnapshotCodec.dfy, SnapshotIdentity.dfy, SnapshotLaws.dfy | the snapshot codec, from domain values to canonical JSON text and back |
| AuditDiff.dfy, AuditKeys.dfy | flattening and diffing documents for audit rows, and which keys the flattened view can bear |
| ScheduleVersions.dfy, ScheduleOutcomes.dfy | approval, publication, writeback gateways and replanning of schedule versions |
| Overlays.dfy, OverlayServices.dfy | overrides, holds, moves and locks over time; the services that change them |
| SnapshotIndex.dfy, DataQuality.dfy, Ids.dfy | snapshot indexes and queries, the data quality report and gate, sortable identifiers |

Code that changes state is a class whose methods are proved against a function or a step of a state
machine; the properties over all runs and histories are lemmas about those.

Results where the code does less than its own text says:

- `sync_service.py` says that records changed during a run are picked up again rather than lost. With any
  number of runs at once that holds for changes stamped strictly after the run started, as long as runs
  complete in the order of their starts or displace nothing (`SyncProtocol.Convergence`). A change in the very
  instant of the start is lost (`TiedStampIsLost`). A run that completes after one that began later loses
  exactly the rows that `LateRunLosesExactly` and `LateRunLosesOperationsExactly` name; `OverlappingRunsLose` is
  such a history. The scheduler keeps its own jobs from overlapping, but an API request may start a run at
  any time. An operation can also be left out because its order was unknown at the time; `StrandedExactly`
  says exactly when.
- A publication that fails after the gateway has answered is rolled back in the database only: the plan is at
  the ERP, and the version is still APPROVED or, for a replan, does not exist (`SentIsPublishedExactly`).
- Reservations are disjoint for locks made by the lock service only: `move_order` adds its lock without
  the conflict check (`MoveMayOverlap`). Live locks conflict at no time exactly when no move took what a
  live lock that it keeps had reserved (`MoveOverlapsExactly`, `NeverConflictingExactly`). The slot of a move
  can outlive it when it expires (`CompanionOutlivesMoveExactly`).
- An order without an external reference is exported under its own order id and comes back under another one
  (`UnreferencedIsRenamed`), and its operations with it (`OperationsFollowOrder`); a shift without weekdays
  comes back as Monday to Friday, one without a name with a number for a name, and seconds of a shift are
  dropped (`ShiftsSurviveExactly`); percentages keep four decimals of a ratio, part sizes six digits.
- Two rows of an order export with different numbers can compose one id: `SO` with line -12 and `SO-` with
  line 12. `OrderIds.SameIdExactly` says that nothing else does.
- `dumps` promises deterministic text. Equal values of one type have one text only where every number is of
  the type its annotation names: 1 and 1.0 in a float field are equal and have two texts
  (`PromotedNumberChangesText`); `CanonicalExactly` says when a value has its canonical text.
- The flattened view of a document is faithful for non-empty keys without `.` and `[`. Another key beside
  these does no harm exactly when it is not empty and does not read as a path, as `a.b` and `a[0]` do
  (`OneMoreKeyExactly`).

`withhold_data_quality_blocked` says that the set of unscheduled orders does not change. Behind the gate, with
the report of the same snapshot, that is right (`ScheduleBehindGate`); the function alone adds a listed order
that the scheduler did not report (`EveryOrderAccounted`).

## Model

| member | source | states |
|---|---|---|
| SyncModel.LatestCompleted | backend/app/db/repositories/sync_runs.py:42-52 | The watermark is the latest start among the completed runs and of no other run; it is missing exactly when no run completed. |
| SyncModel.LastWordWins | backend/app/integration/normalizer.py:87-97 | After any list of progress reports the status is the last one, and every optional field has the value of the last report that carried it; order, routing data and quantity never change. |
| SyncModel.RoutingRefinesFold | backend/app/integration/sync_service.py:456-566 | However the reports were split into in-batch and deferred ones, every operation in the store ends as its batch copy, else its stored copy, with all its reports applied in chronological order. |
| SyncModel.MergeReferential | backend/app/integration/sync_service.py:385-417 | A completed run keeps the foreign key from operations to orders, pruning included. |
| SyncModel.FullRunClosesMissing | backend/app/integration/sync_service.py:517-542 | After a full run without pruning that fetched an order, a stored order that was not fetched is unchanged when it was COMPLETED, PACKED, SHIPPED or CANCELLED; in each of the other eleven statuses it is CANCELLED and marked with the start of the run, and nothing else of it changes. |
| SyncService.ReportsAreChronological | backend/app/integration/sync_service.py:379-381 | The reports of a run are handled by time, those of one time by operation, and none is lost. |
| SyncService.LatestReportDecides | backend/app/integration/sync_service.py:456-566 | In whatever order the ERP serves the reports, after a run an operation shows the status of a report about it than which none about it is later. |
| SyncService.Operation.Apply | backend/app/integration/normalizer.py:87-97 | Applying a report in place is the report function on which the fold is built. |
| SyncService.Session.Rollback | backend/app/integration/sync_service.py:309-312 | A rollback restores the data and the run rows of the last commit. |
| SyncService.Session.UpsertOrders | backend/app/db/repositories/orders.py:39-80 | Orders and operations are merged over the stored ones; only a replacing upsert deletes, and only operations of the given orders that are not among the given ones. |
| SyncService.Validate | backend/app/integration/sync_service.py:385-418 | Exactly the operations whose order is neither in the batch nor stored are dropped, one issue each. |
| SyncService.RouteUpdate | backend/app/integration/sync_service.py:464-470 | One report is either applied to its batch operation and counted, or deferred. |
| SyncService.ApplyProgress | backend/app/integration/sync_service.py:456-475 | The batch operations hold the fold of their reports, the deferred list holds the other reports in order, and the two counts add up to the number of reports. |
| SyncService.ApplyDeferredProgress | backend/app/integration/sync_service.py:544-566 | Stored operations hold the fold of their deferred reports; applied reports plus unknown-operation issues equal the number of deferred reports. |
| SyncService.SplitByOrder | backend/app/integration/sync_service.py:491-507 | The batch is split into operations of fetched orders and the others, losing none. |
| SyncService.UpsertBatch | backend/app/integration/sync_service.py:488-507 | The two upserts together store the orders and all batch operations, and delete only what a full run replaces. |
| SyncService.Reconcile | backend/app/integration/sync_service.py:517-542 | Incremental runs and an empty full fetch change nothing; pruning keeps exactly the fetched orders with their operations; otherwise the orders that were not fetched are cancelled and marked, but for those that were COMPLETED, PACKED, SHIPPED or CANCELLED. |
| SyncService.Upsert | backend/app/integration/sync_service.py:477-515 | All writes of a run add up to the merge function of the protocol; written plus unknown reports equal all reports. |
| SyncService.WriteBatch | backend/app/integration/sync_service.py:306-310 | Validation, routing and upserts from a normalised batch produce the merge. |
| SyncService.Run | backend/app/integration/sync_service.py:265-333 | A completed run commits the merge and its completed row together; a run that fails at a fetch or later leaves the data of the last commit and only adds a failed row; `since` is the watermark of the completed runs. |
| SyncService.Finish | backend/app/integration/sync_service.py:597-618 | The last run row gets its final status and is committed with the data. |
| MockErp.DerivedReportAgrees | backend/app/integration/mock_connector.py:278-289 | The progress report derived from an operation says nothing that its row does not say. |
| MockErp.MockConnector.ReportProgress | backend/app/integration/mock_connector.py:439-458 | Progress on an operation changes that one row, stamps it now, and is a change the protocol allows; an unknown operation changes nothing. |
| MockErp.MockConnector.AddOrder | backend/app/integration/mock_connector.py:405-412 | The loop puts the order and then its operations one by one, all stamped now; the rows are those after these changes of the protocol. |
| MockErp.MockConnector.FetchOrders | backend/app/integration/mock_connector.py:464-480 | The connector serves exactly the order rows stamped strictly after `since`, or fails. |
| MockErp.MockConnector.FetchOperations | backend/app/integration/mock_connector.py:333-339 | The same for operations, leaving out those whose order the connector does not have. |
| MockErp.MockConnector.FetchProductionStatus | backend/app/integration/mock_connector.py:364-374 | Exactly the operations of served orders, stamped after `since`, that are in progress, completed, in rework or on hold or have a quantity done, each with one report of its own values and stamp. |
| SyncProtocol.StepKeepsInv | backend/app/integration/sync_service.py:9-26 | Every step of the protocol (clock, ERP change or removal, start, fetches, commit, failure) keeps the invariant that rows at or before the watermark are in step with the store, with any number of runs under way, as long as a run does not complete after one that began later. |
| SyncProtocol.Convergence | backend/app/integration/sync_service.py:17-23 | Over every interleaving in which a change is stamped after the starts so far and a run completes in start order or displaces nothing, an accepted order that differs from its stored copy is in the next incremental fetch; an operation that no completed run has left unwritten is either in that fetch too, or due but not served by the ERP because its order is not. |
| SyncProtocol.OrderlyIsSafe | backend/app/integration/sync_service.py:265-333 | Runs that overlap but complete in the order of their starts satisfy the hypothesis of that theorem. |
| SyncProtocol.CompletionKeepsInvExactly | backend/app/integration/sync_service.py:265-333 | A completion, in any order, keeps the invariant exactly when it is in start order or displaces no settled row. |
| SyncProtocol.LateRunLosesExactly | backend/app/integration/sync_service.py:477-542 | A run that completes after one that began later loses exactly the orders, settled by the watermark, of which it holds something else than the ERP has, or which it lacks and prunes or closes; all of them changed after it began. |
| SyncProtocol.LateRunLosesOperationsExactly | backend/app/integration/sync_service.py:477-566 | The same for operations, with the progress reports that the run has fetched. |
| SyncProtocol.FailureChangesNothing | backend/app/integration/sync_service.py:12-15 | A failed run changes neither the data nor the watermark. |
| SyncProtocol.QuietErpIsCopied | backend/app/integration/sync_service.py:17-23 | Under the same hypothesis every accepted order that is not stamped after the watermark is copied exactly, and every such operation that no completed run has left unwritten. |
| SyncProtocol.StrandedExactly | backend/app/integration/sync_service.py:401-417 | A completing run leaves a due operation unwritten exactly when its order was not served, or is neither in the batch nor stored, or was deleted by a pruning full run. |
| SyncProtocol.SoundErpConverges | backend/app/integration/sync_service.py:17-23 | When the ERP always serves an acceptable order for every operation, and runs complete in start order, every differing operation is in the next incremental fetch as well. |
| SyncProtocol.ReturnedExactlyWhenStampedAfterStart | backend/app/integration/mock_connector.py:464-480 | After a run completes, a row is served to the next incremental run exactly when it was stamped strictly after that run started. |
| SyncProtocol.RemovedOrderStaysOpenExactly | backend/app/integration/sync_service.py:517-542 | An order that the ERP removed and has not restored: a full run that began after the removal leaves it open exactly when it was open, pruning is off and the run fetched no order at all, whatever else happened in between. |
| SyncProtocol.TiedStampIsLost | backend/app/integration/mock_connector.py:476 | A change made in the very instant a run started, after its fetch, is never picked up: the promise of the module needs strictly later stamps. |
| SyncProtocol.OverlappingRunsLose | backend/app/integration/sync_service.py:265-333 | A reachable history: the run that began first completes last and puts an old copy back that no incremental run will correct. |
| Normalizer.MapRecord | backend/app/integration/normalizer.py:265-337 | A record is mapped field by field from its own cells with fallbacks; it is given up exactly when it has the wrong entity, no payload, or a required field that is missing or invalid; its issues are exactly those of its fields, in table order. |
| Normalizer.FieldFromOwnCell | backend/app/integration/normalizer.py:294-337 | With one table row per target, a field depends on its own cell only. |
| Normalizer.UnusableIsReported | backend/app/integration/normalizer.py:265-337 | A record that is given up has at least one issue, and every issue names the record. |
| Normalizer.RefIsText | backend/app/integration/normalizer.py:346-372 | A usable record has a non-empty order number, so the silent `return None` for an empty one is never reached. |
| Normalizer.ShippedRefMapped | backend/app/integration/field_maps.py:117 | The required `ORDER_NO` row of the shipped table parses every non-empty cell to a non-empty text. |
| Normalizer.ComposedIsNoDuplicate | backend/app/integration/codes.py:125-127 | A composed order id never equals an id with a `-DUPn` suffix. |
| OrderIds.IdReads | backend/app/integration/codes.py:125-127 | An id begins with the order number and a dash, and what follows reads back as the line, in exactly two characters for 0 to 99. |
| OrderIds.SameIdExactly | backend/app/integration/codes.py:125-127 | Two rows compose one id exactly when number and line agree, or when a line below -9 has a sign that reads as the dash at the end of the other number. |
| OrderIds.DuplicateExactly | backend/app/integration/normalizer.py:148-176 | The next usable row of any list gets a duplicate issue exactly when an earlier one has its number and line; without one it keeps its composed id, with one it is kept under another id and names its original. |
| OrderIds.TwoLinesTwoOrders | backend/app/integration/normalizer.py:140-178 | Two lines of one order are two orders under their own ids, without a suffix and without a duplicate issue. |
| OrderIds.SecondCopySuffix | backend/app/integration/normalizer.py:148-176 | The second row with one number and line gets the suffix -DUP1. |
| OrderIds.KeptExactly | backend/app/integration/normalizer.py:375-391 | A usable row becomes an order, with all its fields, exactly when they give every attribute that the constructor needs and none that it does not know; otherwise, and only then, it is reported as malformed. |
| OrderIds.NumbersAsKeys | backend/app/integration/normalizer.py:345-373 | A number mapped as such is a line when it is whole, and an order number by its digits. |
| MappingLaws.CellDecidesField | backend/app/integration/normalizer.py:265-344 | A field is the parsed value of its cell; a blank, missing or rejected cell gives the default, or nothing when the field is required; an unknown code always gives the default. |
| MappingLaws.CellsDecideIssues | backend/app/integration/normalizer.py:265-344 | The issues of a record are exactly those of its blank required cells, its unknown codes and its rejected values. |
| MappingLaws.UsableExactly | backend/app/integration/normalizer.py:265-344 | A record is given up exactly for a wrong entity, a missing payload, or a required cell that is blank or rejected; an unknown code never costs a record. |
| MappingLaws.LineNumberReads | backend/app/integration/parsers.py:55-72 | A line number reads as the integer with its sign, whatever white space is around it. |
| Normalizer.DuplicateIdInjective | backend/app/integration/normalizer.py:157-160 | Two `-DUPn` ids coincide only for the same original and the same counter. |
| Normalizer.GivenIdsDistinct | backend/app/integration/normalizer.py:157-171 | The ids given out for any list of composed ids are pairwise different. |
| Normalizer.NextId | backend/app/integration/normalizer.py:157-171 | One step of the counter: the next record gets its composed id, or that id with the number of its copy. |
| Normalizer.NormalizeOrder | backend/app/integration/normalizer.py:148-176 | One order record: an item with the mapped fields, the next id and the tag of its original, or none; with exactly the issues of its fields, its line number, its copy and its construction. |
| Normalizer.NormalizeOrders | backend/app/integration/normalizer.py:140-178 | For every list of records the items and issues are those of each record after the ones before it; all order ids are pairwise different, and a ledger accounts for each record by one item or by an issue of its own that names it. |
| Normalizer.NormalizeOperation | backend/app/integration/normalizer.py:186-206 | One operation record is kept, with its own fields and under the order id composed from its cells, exactly when it is usable, names an order line, its id is new and its constructor accepts the fields; an id whose construction fails counts as seen. The issues are exactly those that say so. |
| Normalizer.NormalizeOperations | backend/app/integration/normalizer.py:180-209 | Items, issues and seen ids are those of each record after the ones before it; operation ids are pairwise different, and every record is accounted for by an item or an issue of its own. |
| Normalizer.NormalizeMaster | backend/app/integration/normalizer.py:238-258 | One master record is kept exactly when it is usable, its identifier is new and its constructor accepts the fields; an identifier whose construction fails counts as seen. The issues are exactly those that say so. |
| Normalizer.NormalizeSimple | backend/app/integration/normalizer.py:227-263 | Items, issues and seen identifiers are those of each record after the ones before it; identifiers of items are pairwise different, and every record is accounted for by an item or an issue of its own. |
| ErpFormats.StrSetSurvivesExactly | backend/app/integration/mock_connector.py:73-74 | A printed set of texts reads back as itself exactly when no member is blank, padded or holds `;`. |
| ErpFormats.TextSurvivesExactly | backend/app/integration/parsers.py:46-52 | An optional text survives `or ""` exactly when it is missing, or not blank and trimmed. |
| ErpFormats.Invert | backend/app/integration/codes.py:117-122 | The inverted table has every enum value and the first code that maps to it. |
| ErpFormats.EnumSurvives | backend/app/integration/parsers.py:226-244 | Every value printed with a code of a vocabulary is read back as itself. |
| ErpFormats.TablesAreVocabularies | backend/app/integration/codes.py:28-114 | The seven code tables of the export are vocabularies: distinct, trimmed, upper-case codes without separators. |
| ErpFormats.TableValuesDiffer | backend/app/integration/codes.py:28-122 | No two codes of a table share a value, so the inverted table gives every member its own code. |
| ErpFormats.RouteSurvives | backend/app/integration/field_maps.py:84-87 | A route printed with `>` is read back as the same list of process types, whatever its length and repetitions. |
| ErpFormats.ProcessSetSurvives | backend/app/integration/field_maps.py:90-91 | A set of process types printed as sorted codes is read back as the same set. |
| ErpFormats.PercentSurvivesExactly | backend/app/integration/mock_connector.py:69-70 | A ratio printed as a percentage survives exactly when it has at most four decimals and the range of its parser admits it: not negative for efficiencies, at most one for ratios. |
| ErpFormats.CyclesSurviveExactly | backend/app/integration/parsers.py:151-161 | A machine-to-minutes map, with minutes printed as floats, survives exactly when no key is padded or holds `;` or `=`. |
| ErpFormats.SizeSurvivesExactly | backend/app/integration/parsers.py:164-171 | A part size printed with `:g` survives exactly when each measure has at most six significant digits. |
| ErpFormats.FlagSurvives | backend/app/integration/parsers.py:91-101 | `Y` and `N` are read back as the flag. |
| Floats.ReprSurvives | backend/app/integration/parsers.py:67-72 | The text that `str` writes of a float, positional or with an exponent, is read back as the same number. |
| Floats.GeneralSurvivesExactly | backend/app/integration/mock_connector.py:224 | The text that `:g` writes is read back as the same number exactly when it has at most six significant digits. |
| Floats.TwoPlacesReads | backend/app/integration/mock_connector.py:69-70 | The text with two decimals is read back as the number rounded to two places. |
| ErpParsers.WindowsSurvive | backend/app/integration/parsers.py:174-186 | Every list of downtime windows is read back as itself. |
| ErpParsers.DatesSurvive | backend/app/integration/parsers.py:147-148 | Every list of dates is read back as itself. |
| ErpParsers.ShiftsSurviveExactly | backend/app/integration/parsers.py:209-223 | A list of shifts is read back as itself exactly when every shift has a name, starts and ends on whole minutes and has its weekdays, at least one, in ascending order. |
| IsoTime.MinutesSurviveExactly | backend/app/integration/mock_connector.py:81-90 | A time printed as `%H:%M` is read back without its seconds, so it survives exactly when it has none. |
| ErpFormats.ShiftDaysSurviveExactly | backend/app/integration/parsers.py:189-223 | The weekdays of a shift survive exactly when they are ascending, distinct and not empty; an empty list comes back as Monday to Friday. |
| ParserLaws.EnumExactly | backend/app/integration/parsers.py:225-245 | A text is known exactly when, but for case and white space, it is a code or a value of the vocabulary; codes come first. |
| ParserLaws.CommaIgnored | backend/app/integration/parsers.py:68-73 | Thousands separators make no difference to a number. |
| ParserLaws.FlagExactly | backend/app/integration/parsers.py:91-101 | Which words are read as yes and which as no, and that there is no other. |
| ParserLaws.StampForms | backend/app/integration/parsers.py:104-122 | A date alone is its midnight, and a final Z stands for UTC. |
| ParserLaws.DateOfStamp | backend/app/integration/parsers.py:125-130 | Of a timestamp only the date counts where a date is expected. |
| ParserLaws.CyclesAscend | backend/app/integration/mock_connector.py:185-187 | The entries of a mapping are printed by their keys. |
| ParserLaws.WeekdayExactly | backend/app/integration/parsers.py:189-205 | Weekdays are known by three letters, from Monday. |
| ErpColumns.ColumnSurvivesExactly | backend/app/integration/mock_connector.py:57-98 | For each of the 21 kinds of columns: the attribute comes back from the cell printed of it, without an issue, exactly when the format carries it. |
| ErpColumns.ColumnsSurviveExactly | backend/app/integration/normalizer.py:294-337 | A printed record with different column names maps, without an issue, to the attributes it was printed from exactly when every column carries its own. |
| ErpRecords.OrderNames | backend/app/integration/field_maps.py:116-162 | The 45 sources and the 45 targets of the order table are pairwise different. |
| ErpRecords.OrderTable | backend/app/integration/field_maps.py:116-162 | The order table is one table, whatever the order holds. |
| ErpRecords.OperationTable | backend/app/integration/field_maps.py:165-191 | The operation table is one table, whatever the operation and its order hold. |
| ErpRecords.MachineTable | backend/app/integration/field_maps.py:193-216 | The machine table is one table, whatever the machine holds. |
| ErpRecords.CalendarTable | backend/app/integration/field_maps.py:245-253 | The calendar table is one table, whatever the calendar holds. |
| ErpExports.UnreferencedIsRenamed | backend/app/integration/mock_connector.py:126 | An order without an external reference never comes back under its own id. |
| ErpExports.OrderSurvivesExactly | backend/app/integration/mock_connector.py:124-171 | For every order and any records before it: printing and normalising gives back all 45 columns and the id, without an issue, exactly when every column carries its attribute, the id is the one composed from order number and line, and no earlier row had it. |
| ErpExports.OrdersSurviveExactly | backend/app/integration/normalizer.py:140-178 | A whole export of orders comes back, one item for each and no issue, exactly when every order does on its own and no two have one id. |
| ErpExports.OperationsFollowOrder | backend/app/integration/mock_connector.py:176-177 | Whatever an order holds, its operations compose the same order id as the order itself, so an order that comes back under another id takes its operations along. |
| ErpExports.OperationSurvivesExactly | backend/app/integration/mock_connector.py:174-203 | The same for an operation under its own order: all columns but order number and line come back, which only have to compose the id of the order. |
| ErpExports.OperationsSurviveExactly | backend/app/integration/normalizer.py:180-209 | A whole export of operations comes back exactly when every operation does on its own and no two have one id. |
| ErpExports.MachinesSurviveExactly | backend/app/integration/mock_connector.py:206-231 | A whole export of machines comes back exactly when every column of every machine carries its attribute and no two have one id. |
| ErpExports.CalendarsSurviveExactly | backend/app/integration/mock_connector.py:265-275 | The same for calendars, whose payload has one entry that no row of the table reads. |
| ErpTables.PrintedOrdersSurviveExactly | backend/app/integration/mock_connector.py:124-171 | The rows that the printer writes for orders, column by column, give back every attribute under its own name, without an issue, exactly when every order is carried and no two have one id. |
| ErpTables.OrderTableRows | backend/app/integration/field_maps.py:116-162 | The table that reads orders is this one, row by row: column, attribute, parser, required or default. |
| ErpTables.PrintedOperationsSurviveExactly | backend/app/integration/mock_connector.py:173-203 | The same for the rows of operations, whose order keys only compose the id of their order. |
| ErpTables.OperationTableRows | backend/app/integration/field_maps.py:165-191 | The table that reads operations, row by row. |
| ErpTables.PrintedMachinesSurviveExactly | backend/app/integration/mock_connector.py:206-231 | The same for the rows of machines. |
| ErpTables.MachineTableRows | backend/app/integration/field_maps.py:193-216 | The table that reads machines, row by row. |
| ErpTables.PrintedCalendarsSurviveExactly | backend/app/integration/mock_connector.py:265-275 | The same for the rows of calendars. |
| ErpTables.CalendarTableRows | backend/app/integration/field_maps.py:245-253 | The table that reads calendars, row by row. |
| IsoTime.DateSurvives | backend/app/db/snapshot_codec.py:46-47 | A date printed in ISO form is read back as itself. |
| IsoTime.TimeSurvives | backend/app/db/snapshot_codec.py:48-49 | A time of day survives with and without microseconds. |
| IsoTime.StampSurvives | backend/app/db/snapshot_codec.py:145-152 | A UTC timestamp survives printing and parsing. |
| IsoTime.MonthLengths | backend/app/integration/parsers.py:108-140 | The months have their lengths, and leap years are those of the Gregorian calendar. |
| JsonText.LoadsRender | backend/app/db/snapshot_codec.py:65-71 | Reading JSON text as `dumps` or `_sort_key` writes it (escapes, surrogate pairs, sorted keys, either separators) gives the value back, enum members as their strings. |
| JsonText.SameTextSamePlain | backend/app/db/snapshot_codec.py:65-71 | Equal texts come from equal JSON values. |
| SnapshotCodec.EncodingIsJson | backend/app/db/snapshot_codec.py:36-61 | Encoding yields JSON, and yields null for `None` alone. |
| SnapshotCodec.TypedEncodable | backend/app/db/snapshot_codec.py:42-45 | A well-typed value holds no naive datetime, so its encoding never fails. |
| SnapshotCodec.DecodeDataclass | backend/app/db/snapshot_codec.py:155-167 | The loop that fills the keyword arguments gives what decoding by hints gives: unknown keys and underscore fields ignored, missing fields defaulted, failure when a field without default is missing or a field does not decode. |
| SnapshotCodec.RoundTrip | backend/app/db/snapshot_codec.py:36-167 | For every well-typed value and hint built from scalars, enums, dates, `Any`, Optional, list, set, tuple, dict and nested dataclasses, decoding the encoding gives the value back up to UTC, underscore fields and the promotion of `bool` to `int` and of integers to `float`, whether it is passed on directly or through its JSON text. |
| SnapshotCodec.TextRoundTrip | backend/app/db/snapshot_codec.py:226-249 | A stored text can be read and decodes to the value it was made from. |
| SnapshotIdentity.NormIsIdentityExactly | backend/app/db/snapshot_codec.py:86-153 | A well-typed value is its own normal form exactly when every number is of its annotated type, every datetime is in UTC and every underscore field holds its default. |
| SnapshotIdentity.ComesBackExactly | backend/app/db/snapshot_codec.py:226-249 | Exactly these values come back from their stored text as they were. |
| SnapshotLaws.EncodableExactly | backend/app/db/snapshot_codec.py:36-62 | A value is refused exactly when a naive datetime stands somewhere in it, outside underscore fields. |
| SnapshotLaws.ScalarReading | backend/app/db/snapshot_codec.py:89-152 | What each scalar annotation makes of a JSON value, and that it fails for every other value. |
| SnapshotLaws.ScalarsAreTyped | backend/app/db/snapshot_codec.py:99-116 | Which values the scalar annotations admit, with the numbers that Python would promote. |
| SnapshotLaws.EncodedSetOrder | backend/app/db/snapshot_codec.py:58-66 | An encoded set is arranged by the type names of its members, members of one type by their texts. |
| SnapshotCodec.SameKeySameValue | backend/app/db/snapshot_codec.py:65-66 | Two well-typed values with the same `_sort_key` are the same value. |
| SnapshotCodec.KeySeparates | backend/app/db/snapshot_codec.py:65-66 | So the key orders the encoded members of a set totally. |
| SnapshotCodec.EnumerationFree | backend/app/db/snapshot_codec.py:56-57 | A set gets one encoding in whatever order its members are enumerated. |
| SnapshotCodec.NormKeepsEncoding | backend/app/db/snapshot_codec.py:36-61 | Zones and underscore fields never reach the encoding. |
| SnapshotCodec.CanonicalText | backend/app/db/snapshot_codec.py:69-71 | Different values of one type have different texts, and where every number is of the type its annotation names, the same value has the same text. |
| SnapshotCodec.NormTwice | backend/app/db/snapshot_codec.py:89-142 | The normal form that decoding returns is well-typed and its own normal form, so a second round trip changes nothing. |
| SnapshotCodec.PromotedNumberChangesText | backend/app/db/snapshot_codec.py:38-39 | An `int` in a float field and the equal `float` are one value with two texts. |
| SnapshotCodec.CanonicalExactly | backend/app/db/snapshot_codec.py:69-71 | A value has the text of its normal form exactly when no `bool` stands for an `int` and no `int` or `bool` for a `float` anywhere inside. |
| SnapshotCodec.AnySurvivesExactly | backend/app/db/snapshot_codec.py:91-92 | A value in an `Any` field comes back exactly when it was JSON already, and through text exactly when it also has no enum members. |
| AuditDiff.Flatten | backend/app/services/audit_service.py:104-116 | The shared dictionary holds the leaves of the document over what was there before, in whatever order they were written. |
| AuditDiff.FlattenJson | backend/app/services/audit_service.py:126-130 | The flattened view holds leaves of the document under the texts of their paths, and nothing else. |
| AuditDiff.PathTextInjective | backend/app/services/audit_service.py:104-116 | Paths over non-empty keys without `.` and `[` have distinct texts. |
| AuditDiff.GoodKeyExactly | backend/app/services/audit_service.py:104-116 | The good keys are the non-empty ones without a dot and without an opening bracket. |
| AuditDiff.NothingOverwritten | backend/app/services/audit_service.py:104-116 | With such keys two different leaves never write to the same entry. |
| AuditDiff.FlatHoldsEveryLeaf | backend/app/services/audit_service.py:126-130 | With such keys the view tells the leaf at every path, or that there is none. |
| AuditDiff.FlattenInjective | backend/app/services/audit_service.py:126-130 | With such keys two documents with one view are equal. |
| AuditDiff.DiffMaps | backend/app/services/audit_service.py:139-147 | The loop collects exactly the keys that one side lacks or whose values differ in the sense of Python, with both sides and `None` for a missing one. |
| AuditDiff.PlainIsPyEqual | backend/app/services/audit_service.py:144 | The comparison is the equality of Python: numbers and booleans by value, texts, lists and dictionaries by content, and nothing else is equal. |
| AuditDiff.EqualIsSame | backend/app/services/audit_service.py:144 | For documents without booleans that equality is identity. |
| AuditDiff.JsonDiff | backend/app/services/audit_service.py:133-147 | Both maps have the same keys; on good keys both are empty exactly when the documents are equal in the sense of Python, and for documents without booleans exactly when they are the same. |
| AuditDiff.DiffSidesShareKeys | backend/app/services/audit_service.py:133-147 | Each side lists exactly the changed keys, so swapping the arguments swaps the maps. |
| AuditDiff.DiffListsDisagreements | backend/app/services/audit_service.py:133-147 | The diff lists a path exactly when one document lacks a leaf there or the leaves differ in the sense of Python, with the old leaf or `None`. |
| AuditDiff.EmptyDiffMeansEqual | backend/app/services/audit_service.py:133-147 | An empty diff means that the documents are equal in the sense of Python, and conversely. |
| AuditDiff.DottedKeyCollides | backend/app/services/audit_service.py:109 | A key with a dot and a nested object have one flattened view. |
| AuditDiff.BracketKeyCollides | backend/app/services/audit_service.py:114 | A key with an index in brackets and a list have one flattened view. |
| AuditDiff.EmptyKeyVanishes | backend/app/services/audit_service.py:109 | An empty key disappears from the view. |
| AuditKeys.PathTextInjectiveWith | backend/app/services/audit_service.py:104-116 | Path texts stay unambiguous with one more key beside good ones, unless the key is empty or is itself the text of a good path, even where the key overlaps itself. |
| AuditKeys.SecondCopyHides | backend/app/services/audit_service.py:104-116 | A key with the text of any path of a document, however deep and through any indexes, adds nothing to the view when it holds what that path leads to. |
| AuditKeys.OneMoreKeyExactly | backend/app/services/audit_service.py:104-116 | With one more key beside good ones, different documents have different views exactly when the key is not empty and is not the text of a good path; a list at the top is left out for a key that begins with a bracket. |
| ScheduleVersions.ScheduleService.ListVersions | backend/app/db/repositories/schedule.py:118-126 | The page holds the newest versions in a status, at most a thousand; what is missing is older than a full page. |
| ScheduleVersions.ScheduleService.SetStatus | backend/app/db/repositories/schedule.py:143-169 | A status changes only along the seven transitions of the table; asking for the current one changes nothing. |
| ScheduleVersions.ScheduleService.SupersedeListed | backend/app/services/schedule_service.py:423-431 | Exactly the listed versions other than the kept one (for replanning: those with a replan trigger) become SUPERSEDED. |
| ScheduleVersions.ScheduleService.ApproveVersion | backend/app/services/schedule_service.py:315-343 | A draft becomes APPROVED and every other approved version SUPERSEDED; the errors are the reason, a missing version, a wrong status, in that order. |
| ScheduleVersions.ScheduleService.RejectVersion | backend/app/services/schedule_service.py:345-371 | A draft or approved version becomes REJECTED, and nothing else changes. |
| ScheduleVersions.ScheduleService.SupersedeOthers | backend/app/db/repositories/schedule.py:171-184 | Afterwards no version other than the kept one is approved or published; rows differ only in that live ones other than it are superseded. |
| ScheduleVersions.ScheduleService.PublishVersion | backend/app/services/schedule_service.py:373-421 | With the built-in gateway an approved version with a valid reason is published by hand in every mode, and automatically exactly under CONTROLLED_AUTO with a rule that allows it; it is sent and gets a SENT receipt in every mode but READ_ONLY. Other live versions are superseded; errors in the order of the source. |
| ScheduleVersions.ScheduleService.UseGateway | backend/app/services/writeback_service.py:76-83 | Without an injected gateway READ_ONLY gets the read-only one and every other mode the sending one; the gateway chosen at first use is kept. |
| ScheduleOutcomes.PublishOutcome | backend/app/services/schedule_service.py:373-421 | A manual publication completely, for every gateway: which request publishes, with which receipt, what is sent, and that nothing else changes. |
| ScheduleOutcomes.PublicationReachesErp | backend/app/integration/writeback.py:124-184 | With the built-in gateway a manual publication of an approved version is sent with a SENT receipt in APPROVAL, WRITEBACK and CONTROLLED_AUTO; READ_ONLY alone skips. |
| ScheduleOutcomes.AutomaticPublicationReachesErp | backend/app/services/replanning_service.py:116-221 | A replan is sent exactly under CONTROLLED_AUTO, with a rule that exists and allows it, when the decision is to replan without approval. |
| ScheduleOutcomes.EvaluateOutcome | backend/app/services/replanning_service.py:116-221 | A replanning evaluation completely: when it changes nothing, and the status, receipt and people of the new version otherwise. |
| ScheduleOutcomes.DecisionOutcomes | backend/app/services/schedule_service.py:315-371 | Generation, approval and rejection completely: which request changes which rows to what. |
| ScheduleOutcomes.ReplansByTrigger | backend/app/services/replanning_service.py:258-273 | A version stems from a replan when its trigger begins with that word. |
| ScheduleOutcomes.OneMoreRequest | backend/app/services/schedule_service.py:144-421 | Requests are carried out one after the other. |
| ScheduleVersions.ScheduleService.Evaluate | backend/app/services/replanning_service.py:116-221 | An evaluation generates a candidate and rejects it, leaves it pending, approves it or publishes it, with the errors of those steps. |
| ScheduleVersions.ScheduleService.Execute | backend/app/core/db.py:127-138 | A request that raises, or whose commit fails, leaves the versions as they were, while what it sent stays sent; every request keeps the state safe. |
| ScheduleVersions.AtMostOneFitsPage | backend/app/services/schedule_service.py:423-431 | When at most one version has the status, the page of a thousand lists all of them, so the limit never hides one. |
| ScheduleVersions.ExecSafe | backend/app/services/schedule_service.py:19-22 | Every request keeps at most one APPROVED and at most one PUBLISHED version, and a published one has an approver and an accepted receipt. |
| ScheduleVersions.RunsSafe | backend/app/services/schedule_service.py:19-22 | The same over every sequence of requests. |
| ScheduleVersions.ExecMoves | backend/app/db/repositories/schedule.py:20-31 | A request moves a version along the transition table or leaves its status alone, and never changes its trigger. |
| ScheduleVersions.FinalStatesStay | backend/app/db/repositories/schedule.py:20-31 | SUPERSEDED and REJECTED are never left, over any sequence of requests. |
| ScheduleVersions.PublishedOnlyThroughGateway | backend/app/services/writeback_service.py:91-130 | A version becomes PUBLISHED only from APPROVED by hand or by a replan that needs no approval in CONTROLLED_AUTO, always with an accepted receipt of that attempt. |
| ScheduleVersions.CandidateFollowsDecision | backend/app/services/replanning_service.py:150-221 | A triggered evaluation leaves its candidate REJECTED, DRAFT, APPROVED or PUBLISHED exactly as the decision and the mode say. |
| ScheduleVersions.PendingAfterProposal | backend/app/services/replanning_service.py:258-273 | A new proposal replaces exactly the older proposals on the page of newest drafts. |
| ScheduleVersions.RunsKeepOnePending | backend/app/services/replanning_service.py:258-273 | While an evaluation sees at most a page of drafts, at most one replanning proposal awaits approval between requests. |
| ScheduleVersions.SentIsPublishedExactly | backend/app/services/schedule_service.py:385-405 | A request sends at most one version, and only an approved one or its own new candidate; afterwards that version is PUBLISHED exactly when the request commits. Otherwise the plan is at the ERP while the version is still APPROVED or, for a replan, does not exist. |
| ScheduleVersions.RunsAccountForSent | backend/app/services/schedule_service.py:385-405 | Over any sequence of requests: every transmission that was not rolled back is of a version that is published or superseded now, and its number is never sent again; in READ_ONLY the built-in gateways send nothing. |
| ScheduleVersions.SentByRequest | backend/app/core/db.py:127-138 | Every transmission of a run comes from one of its requests, and is lost exactly when that request did not commit. |
| Overlays.LatestIsMaximum | backend/app/services/snapshot_service.py:50-65 | The latest decision is a hold or release in force, and no other one ranks later by creation time and id. |
| Overlays.DecisionOrderFree | backend/app/services/snapshot_service.py:50-65 | It depends neither on the order of the override list nor on rows that are not in force. |
| Overlays.ActionKeepsInv | backend/app/services/override_service.py:110-322 | Every action of the two services keeps the invariant of the overlay rows. |
| Overlays.ClockKeepsInv | backend/app/domain/models.py:361-362 | So does the passing of time. |
| Overlays.HistoriesKeepInv | backend/app/services/override_service.py:110-322 | Over every history and at every later instant: active companion locks belong to the active move of their order; at most one active override per order of each exclusive kind; at most one hold decision in force per order; live locks conflict only when the later one came from a move. |
| Overlays.NoMovesNoConflicts | backend/app/services/lock_service.py:208-245 | Without moves, live reservations of a machine are pairwise disjoint, no order is locked twice and live sequences share no order. |
| Overlays.OverlapsExactly | backend/app/domain/models.py:55-56 | Two windows overlap exactly when some instant lies in both, or an empty one stands strictly inside the other. |
| Overlays.NoDoubleBooking | backend/app/services/lock_service.py:208-245 | In instants: over every history without moves, no two live reservations of one machine have an instant in common. |
| Overlays.OneRequestPerKind | backend/app/services/override_service.py:110-322 | Over every history an order has at most one active request to set its priority, force it, move it or assign its machine. |
| Overlays.MoveLockReads | backend/app/services/override_service.py:236-262 | The lock of a move: a slot of the given minutes, one minute at least, or a pin that ends with the move. |
| Overlays.HoldTakesEffect | backend/app/services/override_service.py:161-209 | Right after a hold the order is held; right after a release it is not, unless the ERP holds it. |
| Overlays.HoldLastsUntilItExpires | backend/app/services/override_service.py:161-209 | Until anything else is decided a hold lasts exactly until it expires, and a release for good, the ERP hold aside. |
| Overlays.CompanionOutlivesMoveExactly | backend/app/services/override_service.py:473-497 | Over every history, a companion lock is live although its move is not in force exactly when it is a slot, the move has expired (it was neither cancelled nor replaced) and the slot ends later. |
| Overlays.CancelReleasesExactly | backend/app/services/override_service.py:499-518 | Cancelling a move releases exactly the active locks that share creator, creation time and machine with a move of that order by the same creator. |
| Overlays.CancelReleasesOwnLock | backend/app/services/override_service.py:299-322 | When the clock advances between actions, cancelling an active move releases its own companion lock and no other lock. |
| Overlays.ManualLocksSurvive | backend/app/services/override_service.py:499-518 | When the clock advances between actions, no move and no cancel releases a lock made by the lock service. |
| Overlays.MoveMayOverlap | backend/app/services/override_service.py:212-262 | A move can reserve a slot that is already taken, because it does not check conflicts. |
| Overlays.MoveOverlapsExactly | backend/app/services/override_service.py:212-262 | From a state in which no two live locks conflict, a move leaves none exactly when its own lock is not live or conflicts with no live lock other than those it releases, which a planner can see before the move. |
| Overlays.NeverConflictingExactly | backend/app/services/override_service.py:212-262 | Over every history, live locks conflict at no instant exactly when every move reserved something that no live lock it kept had reserved. |
| OverlayServices.LatestHoldDecision | backend/app/services/snapshot_service.py:50-65 | The running comparison computes the latest decision. |
| OverlayServices.OverlayStore.Deactivate | backend/app/db/repositories/overlays.py:107-122 | Afterwards no override of the kind is active on the order; rows differ only in that active ones of that kind on that order are not active any more. |
| OverlayServices.OverlayStore.ReleaseMoveLocks | backend/app/services/override_service.py:499-518 | Exactly the ORDER and TIME_SLOT locks of the order filed under the key of one of its moves become inactive. |
| OverlayServices.OverrideService.AdjustPriority | backend/app/services/override_service.py:325-357 | Raising or lowering a priority adds one override, after the range, reason, order and expiry checks. |
| OverlayServices.OverrideService.SetPriority | backend/app/services/override_service.py:110-136 | Setting a priority replaces the previous one. |
| OverlayServices.OverrideService.ForceNext | backend/app/services/override_service.py:138-158 | Forcing an order next replaces the previous request. |
| OverlayServices.OverrideService.HoldOrder | backend/app/services/override_service.py:161-186 | A hold is refused when the order is held already, and otherwise replaces a release. |
| OverlayServices.OverrideService.ReleaseOrder | backend/app/services/override_service.py:188-209 | Only a planner's hold can be released. |
| OverlayServices.OverrideService.MoveOrder | backend/app/services/override_service.py:212-262 | A move ends earlier moves and assignments of the order, releases their locks and adds its own; each refusal leaves everything unchanged. |
| OverlayServices.OverrideService.LockMachineAssignment | backend/app/services/override_service.py:264-296 | Pinning an order to a machine replaces the previous assignment. |
| OverlayServices.OverrideService.CancelOverride | backend/app/services/override_service.py:299-322 | An active override is cancelled, a move with its lock; a missing or inactive one is refused. |
| OverlayServices.LockService.CheckConflicts | backend/app/services/lock_service.py:209-245 | The loop reports a conflict exactly when a live lock conflicts with the requested one; for a reservation, when some instant of its window is reserved on that machine already. |
| OverlayServices.LockService.CreateLock | backend/app/services/lock_service.py:74-149 | A lock is added exactly when the request passes its checks and conflicts with no live lock; a checked reservation is refused exactly when a live one of that machine has an instant in common with it. |
| OverlayServices.WindowCases | backend/app/services/lock_service.py:182-206 | Which window a request gets, for every combination of given bounds, and when it is refused. |
| OverlayServices.CheckedExactly | backend/app/services/lock_service.py:74-124 | Which lock requests reach the conflict check, kind by kind. |
| OverlayServices.CheckedRefusals | backend/app/services/lock_service.py:74-124 | A lock request is refused as not found only for an unknown machine or order, and as a conflict before the conflict check only for a closed order. |
| OverlayServices.PreparedExactly | backend/app/services/override_service.py:359-371 | Which requests about an order get through, and which of the three errors the others get. |
| OverlayServices.MoveAllowedExactly | backend/app/services/override_service.py:212-262 | A move gets through exactly when it lies ahead and before its expiry, on a known machine that may take the open order. |
| OverlayServices.LockService.ReleaseLock | backend/app/services/lock_service.py:151-171 | Exactly an existing active lock can be released, and only it changes. |
| SnapshotIndex.IndexUnique | backend/app/domain/snapshot.py:55-68 | The definition of an index (each group holds exactly its rows, each as often as it is filed, in order) leaves no choice. |
| SnapshotIndex.KeyedOnce | backend/app/domain/snapshot.py:55-67 | When rows are filed under their own ids, an index lists each of them once. |
| SnapshotIndex.BuildIndex | backend/app/domain/snapshot.py:55-67 | Grouping and sorting gives that index, in whatever order the dictionary is walked. |
| SnapshotIndex.BuildDependents | backend/app/domain/snapshot.py:70-74 | The dependents index is the exact converse of the dependency sets. |
| SnapshotIndex.LastPutWins | backend/app/domain/snapshot.py:76-78 | Of the added operations the last one given for an id is kept; other rows stay. |
| SnapshotIndex.PlanningSnapshot.AddOperations | backend/app/domain/snapshot.py:76-79 | Adding operations stores them and leaves all indexes exact. |
| SnapshotIndex.PlanningSnapshot.OperationsForOrder | backend/app/domain/snapshot.py:82-85 | The query gives exactly the operations of the order, ascending by sequence and then by id, when the index is exact or empty; a non-empty index is trusted as it is. |
| SnapshotIndex.PlanningSnapshot.MachinesInGroup | backend/app/domain/snapshot.py:94-97 | The same for the machines of a group, ascending by preference and then by id. |
| SnapshotIndex.PlanningSnapshot.DependentsOf | backend/app/domain/snapshot.py:105-108 | The query gives exactly the orders that depend on the given one. |
| SnapshotIndex.PlanningSnapshot.ActiveExpedites | backend/app/domain/snapshot.py:119-127 | Every order with an active expedite whose time has come and is not over gets its first one of maximal boost, and no other order appears. |
| DataQuality.Schedule.WithholdBlocked | backend/app/engines/pipeline.py:241-279 | The rewritten list is the sorted union of the kept items and one new item for each withheld order nothing else reports. |
| DataQuality.WithheldMembers | backend/app/engines/pipeline.py:255-278 | Which items the result holds, by the old items alone. |
| DataQuality.EveryOrderAccounted | backend/app/engines/pipeline.py:247-254 | The unscheduled orders afterwards are the old ones and the withheld ones, so the set is unchanged exactly when every withheld order was reported before. |
| DataQuality.OthersUntouched | backend/app/engines/pipeline.py:256-260 | No withheld order keeps a `no_priority` item, and every other order keeps its items, each as often. |
| DataQuality.WithholdingTwice | backend/app/engines/pipeline.py:279 | The list is sorted, and a second application changes nothing. |
| DataQuality.RefusedOrders | backend/app/engines/scheduling/candidates.py:116-135 | The scheduler reports every open order that has no priority or is not schedulable, and no other order before it starts placing. |
| DataQuality.RefusedMembers | backend/app/engines/scheduling/candidates.py:116-135 | Each of them with its reason: the status first, else the missing priority. |
| DataQuality.ReasonTextShows | backend/app/engines/pipeline.py:265-277 | The text names the number of issues, the first three messages and how many more there are. |
| DataQuality.ResultOrder | backend/app/engines/pipeline.py:281 | The items ascend by order and then by operation. |
| DataQuality.Report.UnschedulableOrderIds | backend/app/engines/data_quality/engine.py:151-173 | The report lists exactly the open orders with a blocking issue, once each, in order of their ids. |
| DataQuality.BlockingMembers | backend/app/engines/data_quality/engine.py:151-176 | The issues listed for an order are exactly the blocking issues of that open order. |
| DataQuality.GateKeepsOrders | backend/app/engines/pipeline.py:249-254 | Behind the gate, relabelling orders that the report lists never changes the set of unscheduled orders. |
| DataQuality.ScheduleBehindGate | backend/app/engines/pipeline.py:209-238 | The scheduler sees the priorities without the blocked orders. Exactly which items are reported in the end: a blocked order keeps what is said about its status and later on, and gets one item with its issues and readiness when nothing else is left to say; other orders keep theirs. The set of unscheduled orders never changes. |
| Ids.Encode | backend/app/core/ids.py:11-16 | The shifting loop gives the base-32 numeral of the value with exactly the given number of digits. |
| Ids.EncodingOrder | backend/app/core/ids.py:8-16 | For all integers the texts of one width compare and coincide exactly as the values modulo 32 to that width do. |
| Ids.EncodingFaithful | backend/app/core/ids.py:11-16 | Below 32 to the width the texts are distinct and ordered like the numbers. |
| Ids.NewId | backend/app/core/ids.py:19-24 | An id has ten characters of the millisecond and sixteen of the random part, after its prefix and an underscore if there is one. |
| Ids.AlphabetIsCrockford | backend/app/core/ids.py:8 | The alphabet is the digits and the capital letters without I, L, O and U. |
| Ids.IdsSortByTime | backend/app/core/ids.py:19-24 | Ids of one prefix sort by millisecond whatever the random parts are, then by the random part. |
| Ids.WidthOverflow | backend/app/core/ids.py:13-15 | Beyond its width the encoder keeps only the low digits, so a later value can sort first. |
| Texts.StrLessExactly | backend/app/engines/pipeline.py:281 | Texts compare at their first difference, by code point, and a prefix comes before what it begins. |
| Texts.StripExactly | backend/app/services/base.py:78-87 | Stripping takes all white space from both ends and nothing else. |
| Texts.SpaceCodes | backend/app/services/base.py:78-87 | White space is the 29 code points that Python strips. |
| Texts.CaseChanges | backend/app/integration/parsers.py:228-244 | Upper and lower case differ by 32 code points for the letters of ASCII, and no other character changes. |
| Texts.ReasonExactly | backend/app/services/base.py:78-87 | A reason counts exactly when 1 to 2000 characters are left between its white space. |
| Texts.SortIsStable | backend/app/integration/sync_service.py:379-381 | Sorting keeps the order of what compares both ways. |

## Left out

- SyncProtocol.Convergence: assumes that an ERP change is stamped strictly after the starts of all runs so far; `TiedStampIsLost` shows a change lost without that. Nothing is promised about operations that a completed run has left unwritten.
- SyncProtocol.SoundErpConverges: stated for completions in start order, not for late ones that displace nothing.
- SyncService.Run: a process that dies between the two commits leaves a `running` row; that is not modelled. Retries appear only as a fetch that fails or not.
- SyncService.Validate: the issues about unknown customers, machines and calendars, which drop nothing, are left out, because those masters are not in the model of a run.
- Synchronisation of customers, materials, machines, tooling and calendars, which follows the path of orders with a plain upsert; the reconciliation grade.
- The remaining order and operation attributes, which a run copies unchanged, are single numbers in SyncModel.
- Normalizer.NormalizeOrders: a constructor fails for a missing or an unknown keyword only; a table that maps `order_id`, `attributes` or an identifier that cannot be hashed is not modelled.
- OrderIds.DuplicateExactly: stated for lines above -10; for the others `OrderIds.SameIdExactly` says which rows share an id.
- Floats.ReadFloat: floats are the decimal numbers that `repr` writes, without infinities, `NaN` and `-0.0`; a text with more digits is not rounded to the nearest double, and integers beyond 2**53 are not rounded either.
- ErpFormats.PercentSurvivesExactly: multiplying and dividing by 100 is exact here. With doubles the rounding to twelve decimals in the parser gives back every ratio of four decimals below 4096, but from 4096.0003 on not all of them (4337.0021 is lost).
- Floats.TwoPlacesReads: a tie is rounded by the decimal digits, where Python looks at the binary value of the product; ratios of at most four decimals meet no tie.
- ErpParsers.ParseInteger: underscores and digits outside ASCII, and letters outside ASCII where codes are compared without case, are left out. Texts within a list or a mapping that stands in place of a text are quoted without escapes.
- ErpParsers.ParseStamp: timestamps are in UTC, as the domain model asks; other offsets and ISO forms that `isoformat` does not write are left out.
- The exports of customers, materials and tooling, and the production status feed, which have the same kinds of columns.
- SnapshotCodec.RoundTrip: other coercions than those of Python's numeric tower (a text where a number is expected, `str()` of a number, an integer beyond 2**53 in a float field) count as failures; floats are compared by their texts, so `-0.0` is not `0.0`; unions of several types, `frozenset`, dictionary keys other than strings, and checks in `__post_init__` are not modelled, and which exception is raised is not told apart.
- SnapshotCodec.ToJson: datetimes carry their UTC reading and a zone; arithmetic between zones is not modelled, nor are ISO forms that `isoformat` does not write.
- JsonText.LoadsRender: the reader covers text as the codec writes it, not all of JSON; `NaN` and infinities are left out, and so are gzip and digests.
- AuditDiff.BracketKeyCollides: the shortest example, with the first item of a list; `AuditKeys.OneMoreKeyExactly` is about every key.
- AuditKeys.OneMoreKeyExactly: about one key beside good ones, not several; a key that begins with `[` is judged in documents that are not lists at the top.
- The contents of audit rows, alerts, explanations, notifications and metrics.
- ScheduleVersions.RunsSafe: requests come one after the other; two sessions that interleave between check and write, such as two approvals at once, are not modelled.
- Overlays.HistoriesKeepInv: actions come one after the other; two lock creations that both check before either writes are not modelled.
- ScheduleVersions.ScheduleService.Evaluate: the event detection, the pipeline and the decision of the replanning policy are inputs.
- ScheduleVersions.ScheduleService.PublishVersion: a gateway that raises has sent nothing; receipts of failed publications are rolled back with the request that obtained them.
- OverlayServices.LockService.CreateLock: the equivalence with shared instants is stated for a positive configured length and stored windows that are not empty; an empty one strictly inside another counts as a conflict as well (`Overlays.OverlapsExactly`).
- OverlayServices.OverrideService.MoveOrder: the constraint engine's eligibility answer and the minutes it gives are inputs.
- DataQuality.Schedule.WithholdBlocked: the texts and the readiness of the scheduler's own items are left empty; what the scheduler reports about its candidates is an input, and so are the issues that the rules find.
- Ids.NewId: the clock and the random source are inputs.
- The engines (calendars, constraints, priority, scheduling, simulation), the HTTP layer, authentication, workers, row mappers and the frontend.
