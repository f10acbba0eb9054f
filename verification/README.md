# A verified model of the ERP agent's cores

This project models, in Dafny 4.11, the parts of the ERP agent whose correctness
is a matter of protocol or arithmetic, and proves what they promise:

- **Payroll** (`Payroll*.dfy`): rule documents are folded into components,
  components are checked and sorted into a plan, the plan is executed into a
  payslip. The folded dictionary is related to a per-code meaning, the depth-first
  sort to cycles of the dependency graph, execution to a meaning given by recursion
  over dependencies, and the net pay to the lines of the payslip. The order of
  declarations inside a document is shown to decide nothing (`PayrollOrder.dfy`). For
  the documents that ship, a dry run is followed from its declarations to the last cent.
  `PayrollMeaning.dfy` says what a component is declaration by declaration, and
  `PayrollLedger.dfy` what stands on a payslip step by step.
- **Chat** (`Chat*.dfy`, `DevCareLoop.dfy`): a turn is a loop over model replies
  with tool rounds, run against a model, a database and a client that may do
  anything: replies are a script of any content, queries may fail, raise or be
  cancelled, loading and saving may fail, and the client may leave at any event.
  Transcripts are capped when stored, healed when loaded and compressed before each
  call, which may raise: answers are JSON values (`JsonValue.dfy`), and some of them
  cannot be summarised. `ChatEvents.dfy` says what a client sees and the audit log holds,
  `ChatTurn.dfy` what one turn is, `ChatService.dfy` how it runs, and `ChatRuns.dfy`
  what holds when any number of turns interleave; `ChatExamples.dfy` follows one reply
  that is stored and cannot be looked back on.
- **Bills** (`Bills*.dfy`): uploading, staging and committing purchase invoices, and
  the transactional writer with its keys and audit rows; the tax number check digit.
- **DevCare records** (`DevCareRecords.dfy`, `DevCareConsistency.dfy`,
  `DevCareExamples.dfy`, `DevCareCommit.dfy`, `DevCareRules.dfy`): validated changes,
  the pending store, the write executor, what a commit keeps, and the shipped rules.
- **Streaming and export** (`SseFraming.dfy`, `CsvExport.dfy`): event framing from
  server to both browser readers, and the table's CSV download.
- `Wrappers.dfy`, `Text.dfy` and `Tables.dfy` hold what several of these share.

Objects whose methods update fields are classes here, loops are loops, and each
such method is proved against a function or predicate whose properties are then
proved as lemmas. A decimal is a `real`; a dictionary whose order matters is a
sequence with distinct keys; a database table is a sequence of rows.

## What the proofs found

- A lock on a component covers its type, phase, primitive and parameters. It does
  not cover `inputs_required`: a higher layer that repeats the structure, sets no
  parameter and lists other inputs is let through
  (`PayrollRules.LockLeavesInputsOpen`).
- `build` checks that a dependency exists, not that its phase comes no later, and
  nothing compares the `base_components` of a TSU with its `inputs_required`. A built
  plan runs to the end if and only if every base of every TSU is declared among its
  inputs and belongs to a component of the same or an earlier phase
  (`PayrollPay.BuiltPlanRuns`, `PayrollExamples.LaterPhaseIsAccepted`,
  `PayrollExamples.UndeclaredBaseIsAccepted`).
- The docstring of `select_primary_citation` says the last of equals wins; `max`
  keeps the first (`PayrollRules.PrimaryIsFirstOfHighest`). Resolved components
  never have ties, so the audited citation is still the topmost document.
- An answer is stored whatever it is, and summarised before every later call of its
  conversation. Summarising raises for a block whose kind is a list or an object, and
  for a table whose columns or rows are a number other than zero, or true. Compressing
  a transcript raises if and only if the last plain answer of some past turn loads as
  an envelope with such a block (`ChatCompression.CompressionRaisesExactlyWhen`). A
  saved turn leaves a conversation like that if and only if its own answer is one
  (`ChatTurn.UnanswerableExactlyAfterFault`); from then on no turn of it asks the model
  or is stored, and each shows one error message, until the conversation is deleted
  (`ChatTurn.UnanswerableStaysSo`, `ChatRuns.StuckUntilDeleted`). The reply
  `{"blocks":[{"kind":"table","columns":["a"],"rows":3}]}` does it
  (`ChatExamples.CountedRowsStick`).
- A turn that ends with status "ok" has been stored if and only if saving found the
  conversation still there: `append_turn` returns False for one deleted meanwhile,
  and the turn does not look at that (`ChatService.ChatService.StreamTurn`,
  `ChatTurn.EndingIgnoresDeletion`).
- The transcript is loaded before the `try` of `stream_turn`. A turn whose load raises
  ends without a summary and without an error event; a turn that is over has exactly
  one summary if and only if its transcript could be loaded
  (`ChatRuns.OneSummaryExactlyWhenLoaded`, `ChatRuns.LoadFailureIsSilent`). DevCare
  loads before its `try` as well (`DevCareLoop.DevCareService.StreamTurn`).
- The comment at `logic/bills/service.py:145` says that only a stage call that ends ok
  can leave a committable plan. The plan is stored before the query for duplicates,
  which may raise: a stage call that does not return ok leaves a plan if and only if
  nothing is objected to, the bill has a number and that query raises
  (`BillsService.RefusedStageLeavesPlanExactlyWhen`), and then a commit writes it
  (`BillsExamples.RaisedStageIsWritten`). Commits execute only what a stage call
  returned ok for if and only if none follows such a call
  (`BillsService.CommitsExecuteOkStagesExactlyWhen`).
- `stage` lets through an "ambiguous" decision with a key and a "matched" one without,
  which the executor refuses. It can write an accepted plan if and only if every
  decision is "new" or "matched" with a key (`BillsService.AcceptedPlansCanBeWritten`,
  `BillsExamples.AcceptedButRefused`).
- A proposal id that ends in ":plan" shares the key space of staged plans; a commit
  that meets a proposal there raises instead of answering
  (`BillsService.BillService.Commit`, `BillsExamples.SuffixedIdCrashes`). The results
  about commits hold for all other ids.
- The comment in `logic/bills/matching.py` calls both 502267583 and 502667583
  well-formed; the check digit rejects the first (`BillsTaxId.PtWeights`).
- DevCare checks uniqueness when a change is staged, not when it is committed. A commit
  keeps the table consistent if and only if the check, run at that moment on the row
  the change leaves, would pass (`DevCareConsistency.CommitKeepsExactlyWhenFree`). Three
  ways to miss it are in `DevCareExamples`: a stale check, a create that names a target,
  and an update that gives part of a multi-field set.
- A printed CSV reads back as the table if and only if no row is without cells and the
  last row is not a single empty cell (`CsvExport.PrintedTableReadsBack`).
- Capping to zero messages when no question is present keeps everything, because a
  slice from minus zero is the whole list (`ChatTranscript.CapWithoutQuestion`).

## Model

| member | source | states |
|---|---|---|
| PayrollRounding.RoundToIntMeaning | logic/payroll/rounding.py:20-22 | rounding a count of quanta gives the nearest integer and, on a tie, the one the method names; no other integer qualifies |
| PayrollRounding.ApplyIsNearestMultiple | logic/payroll/rounding.py:20-22 | the result is a multiple of the quantum, at most half a quantum away, and no multiple is nearer |
| PayrollRounding.ApplyMonotone | logic/payroll/rounding.py:20-22 | a larger amount never rounds to less |
| PayrollRounding.ApplyFixesMultiples | logic/payroll/rounding.py:20-22 | exactly the multiples of the quantum are left alone; rounding twice is rounding once |
| PayrollRounding.ApplyIsOdd | logic/payroll/rounding.py:20-22 | rounding commutes with changing sign |
| PayrollRounding.MethodsDifferOnlyOnTies | logic/payroll/rounding.py:7-11 | two methods disagree only on exact ties, and half-up and half-down disagree on exactly those |
| PayrollRounding.MultiplesAreClosed | logic/payroll/rounding.py:20-22 | sums and differences of rounded amounts need no rounding |
| PayrollRounding.QuantumSays | logic/payroll/rounding.py:20-22 | no decimal places count in units and each further place in tenths of the quantum before, so two places in hundredths |
| PayrollRules.Resolve | logic/payroll/rules/resolver.py:90-122 | it fails at the first declaration that overrides a locked component, naming it and its layer, and only then: an enabled declaration whose code has a live declaration below it, the lowest of them locked, and that sets a parameter or differs from the lowest in kind, phase or primitive; otherwise the dictionary holds each code's meaning, in order of lowest live declaration |
| PayrollRules.ConflictIsOverride | logic/payroll/rules/resolver.py:54-83 | at any declaration of any stack, the check for a lock objects if and only if the declaration overrides one in that sense, said over the declarations below it |
| PayrollRules.ResolutionKeepsLocks | logic/payroll/rules/resolver.py:96-115 | over whole stacks: refused exactly at the first override of a lock, resolved exactly when there is none |
| PayrollMeaning.MeaningSays | logic/payroll/rules/resolver.py:47-75 | the meaning of a code, said over the declarations still standing: structure and lock of the lowest, each parameter as the topmost that sets it has it, the inputs of the topmost that lists any, one citation for each, in order |
| PayrollRules.MeaningStep | logic/payroll/rules/resolver.py:47-75 | merging one declaration is one step of the per-code meaning: structure from the lowest live layer, parameters overlaid, inputs from the topmost that lists any, citations appended |
| PayrollRules.MeaningOfMore | logic/payroll/rules/resolver.py:47-75 | so is a declaration that conflicts, as far as the meaning goes: disabling removes the code, anything else extends it |
| PayrollRules.LockedComponentKeepsItsRule | logic/payroll/rules/resolver.py:54-61 | while nothing conflicts, a locked component keeps the type, phase, primitive and parameters of its lowest live declaration through every layer |
| PayrollRules.LockLeavesInputsOpen | logic/payroll/rules/resolver.py:70 | exactly when a layer that is let through changes the inputs of a locked component, and that such a layer exists |
| PayrollRules.SelectPrimaryCitation | logic/payroll/engine/audit.py:8-17 | nothing for an empty chain, otherwise the citation `max` by layer picks |
| PayrollRules.PrimaryIsFirstOfHighest | logic/payroll/engine/audit.py:17 | on ties the first citation of the highest layer wins |
| PayrollRules.PrimaryIsLastWhenRising | logic/payroll/engine/audit.py:17 | with rising layers the last citation wins |
| PayrollRules.StackLayersRise | logic/payroll/rules/resolver.py:96-104 | along a stack of documents the declarations of one code come from ever higher layers |
| PayrollRules.AuditCitesTopmostLayer | logic/payroll/engine/audit.py:8-17 | the citation picked for a resolved component names the topmost document that still contributes to it |
| PayrollPlan.TopologicalSorter.constructor | logic/payroll/rules/plan.py:45-47 | the sorter starts from the index by code with nothing visited |
| PayrollPlan.TopologicalSorter.Visit | logic/payroll/rules/plan.py:49-62 | a visit terminates and keeps what is emitted distinct and after its dependencies; it emits only what the component needs, in depth-first post-order, or reports a walk that runs into itself |
| PayrollPlan.TopologicalSort | logic/payroll/rules/plan.py:44-66 | it fails exactly when the in-phase graph has a cycle and then names one; otherwise it returns a permutation with dependencies first, in depth-first order, and leaves an ordered input unchanged |
| PayrollPlan.OrderedIsAcyclic | logic/payroll/rules/plan.py:52-57 | a list with dependencies first exists only without cycles, self-loops included |
| PayrollPlan.CalculationPlanBuilder.Build | logic/payroll/rules/plan.py:73-135 | the first component that fails a check decides the error; then the first phase with a cycle; otherwise every component once, in phase order, sorted inside its phase, numbered from zero |
| PayrollPlan.ComponentErrorSays | logic/payroll/rules/plan.py:82-110 | a component is refused for the first input that no component declares; failing that, for a primitive that is not registered; failing that, for parameters the primitive does not take; and for nothing else |
| PayrollPlan.PlanSays | logic/payroll/rules/plan.py:112-135 | every component has its step, with its code, phase, primitive, parameters, inputs and citations; steps are numbered from zero and the phases follow the order inputs, gross, pre-tax deductions, tax, post-tax, employer |
| PayrollPlan.BuiltPlanRespectsInputs | logic/payroll/rules/plan.py:82-90 | in a built plan every input comes before its use if and only if no component depends on a later phase |
| PayrollExecutor.TsuContributionExecute | logic/payroll/primitives/tsu.py:30-52 | the first base without an amount is reported; otherwise the rounded product of rate and sum of bases |
| PayrollExecutor.Executor.Execute | logic/payroll/engine/executor.py:15-71 | the payslip of the amounts each step produces from those before it, line by line as PayrollLedger.PayslipIsLedger says, or the first error |
| PayrollExecutor.OutcomeAt | logic/payroll/engine/executor.py:27-57 | every step ran on exactly what the steps before it produced |
| PayrollExecutor.ExecutionRefinesMeaning | logic/payroll/engine/executor.py:27-57 | each recorded amount is the component's amount by recursion over its dependencies, a definition that mentions no order |
| PayrollPay.ExecutionSucceeds | logic/payroll/primitives/tsu.py:36-43 | for steps that passed `build`, the first n run through if and only if every base of each TSU among them is declared and is the code of an earlier step; otherwise the first step that lacks one fails and names it |
| PayrollPay.BuiltPlanRuns | logic/payroll/engine/executor.py:27-57 | the plan built from a rule stack runs to the end if and only if every base of every TSU is declared among its inputs and lies in the same or an earlier phase, a property of the components alone; a missing base is the only failure |
| PayrollPay.OrderDoesNotMatter | logic/payroll/engine/executor.py:27-61 | two orders of the same steps that both succeed give the same amounts, bucket totals and net pay |
| PayrollPay.DeclarationOrderDoesNotMatter | logic/payroll/rules/plan.py:112-126 | rule stacks that declare the same components in different orders build plans that succeed together and then pay the same, component by component and in the net |
| PayrollPay.DeclarationOrderKeepsAcceptance | logic/payroll/rules/plan.py:82-126 | two such stacks pass the checks together and have a cycle together |
| PayrollPay.ResolvedIsBuildable | logic/payroll/rules/resolver.py:103-115 | what resolving yields has one component per code, each with a citation |
| PayrollPay.ResolvedStackRuns | logic/payroll/engine/executor.py:27-57 | from documents to payslip: the plan of a resolved stack runs to the end if and only if every base of every TSU is declared and in time |
| PayrollOrder.OwnDecides | logic/payroll/rules/resolver.py:103-115 | what a code means, and whether its declarations conflict, depends on the declarations of that code alone |
| PayrollOrder.DocumentOrderKeepsComponents | logic/payroll/rules/resolver.py:90-122 | permuting the declarations inside each document of a stack keeps whether it resolves and, up to order, every component |
| PayrollPay.PayslipCitesTopmostLayer | logic/payroll/engine/executor.py:36-43 | from documents to payslip: each audit entry cites the topmost document that still contributes to its component |
| PayrollPay.LinesMatchAudit | logic/payroll/engine/executor.py:44-57 | every payslip line points at the audit entry with its step and amount, lines come in step order, and every step of a list's phases has a line there; which phases those are is in PayrollLedger.PayslipIsLedger |
| PayrollPay.TotalIsMultiple | logic/payroll/engine/executor.py:59-60 | every bucket total is a multiple of the quantum |
| PayrollPay.NetPayIsExact | logic/payroll/engine/executor.py:59-61 | the final rounding changes nothing: net is gross less deductions, employer lines excluded; step by step in PayrollLedger.PayslipIsLedger |
| PayrollPay.TsuAmount | logic/payroll/primitives/tsu.py:36-46 | with a non-negative salary, a TSU over different gross components is a rounded fraction of a base that gross pay bounds |
| PayrollPay.DeductionsBounded | logic/payroll/engine/executor.py:87-95 | with a non-negative salary, k TSU deductions over gross components take at most their rates of gross plus k half quanta |
| PayrollPay.NetPayLowerBound | logic/payroll/engine/executor.py:59-61 | with a non-negative salary and only TSU deductions over gross components, net pay is at least (1 - sum of rates) of gross less k half quanta |
| PayrollPay.NetPayNonNegative | logic/payroll/engine/executor.py:59-61 | with a non-negative salary and one TSU deduction over gross components, net pay is never negative |
| PayrollService.PayrollService.LookUp | logic/payroll/public/service.py:72-130 | the period, employee and contract a plan is built from, or the first of them, in that order, that is missing |
| PayrollService.PayrollService.BuildCalculationPlan | logic/payroll/public/service.py:160-179 | the first missing record; once all are there, a plan of what the documents resolve to, or the reason there is none: the first override of a lock, a refused component, or a cycle |
| PayrollService.PayrollService.DryRunPayslip | logic/payroll/public/service.py:181-201 | the first missing record, the time input last; once all are there, the payslip of that plan under the default policy, or the reason there is none |
| PayrollService.DefaultIsCents | logic/payroll/rounding.py:14-22 | the default policy rounds any amount to whole cents, half a cent away from zero |
| PayrollService.EveryPayslipAddsUp | logic/payroll/public/service.py:181-201 | whatever the documents say, a payslip's net is its gross lines less its deduction lines, to the last cent |
| PayrollLedger.PayslipIsLedger | logic/payroll/engine/executor.py:27-95 | step i has a line among the earnings if and only if its phase is gross, among the deductions if and only if it is a pre-tax deduction, tax or post-tax, among the employer's contributions if and only if it is the employer's, and nowhere if it is an input; each line has its step's code, amount and rate; each audit entry holds what its step was given; and the net is the sum of plus the amount of every gross step and minus that of the three kinds of deduction |
| PayrollLedger.EveryPayslipIsLedger | logic/payroll/public/service.py:181-201 | so is every payslip a dry run ends in, whatever the documents say, for a plan of what they resolve to |
| PayrollService.ExecutionFailsOnlyForBases | logic/payroll/public/service.py:196-201 | whatever the documents say, execution fails if and only if some TSU has a base it does not declare or that comes in a later phase, and the error names the base the first such step lacks |
| PayrollOrder.DocumentOrderDoesNotMatter | logic/payroll/public/service.py:181-201 | permuting the declarations inside each document changes neither whether a dry run ends in a payslip, nor the stage at which it is refused, nor the net or any line that is paid |
| PayrollShipped.ShippedResolves | business_rules/payroll/statutory_pt.yaml:5-23 | the shipped documents resolve to the salary and the employee contribution, in that order |
| PayrollShipped.ShippedPlan | business_rules/payroll/statutory_pt.yaml:5-23 | they have exactly one plan |
| PayrollShipped.ShippedNeverRefused | business_rules/payroll/statutory_pt.yaml:5-23 | once its records are found, a dry run over them never fails |
| PayrollShipped.ShippedDryRun | business_rules/payroll/statutory_pt.yaml:14-23 | for any salary it pays the rounded salary less the rounded contribution, and never less than nothing for a salary that is not negative |
| PayrollExamples.LaterPhaseIsAccepted | logic/payroll/rules/plan.py:82-90 | a stack with a base in a later phase passes every check, and every plan for it fails, naming that base |
| PayrollExamples.UndeclaredBaseIsAccepted | logic/payroll/rules/plan.py:99-110 | a stack whose TSU forgets to list its base passes every check, and every plan for it fails, naming that base |
| ChatTranscript.SanitizeHeals | logic/chat/history.py:44-53 | any suffix of a well-paired transcript loads as something the model can be sent, or as nothing |
| ChatTranscript.SendableSays | logic/chat/history.py:44-53 | what can be sent starts with what the user typed; the message after tool calls holds a result for each of them, in order and no other, and results stand nowhere else |
| ChatTranscript.CapKeepsLongestTurns | logic/chat/history.py:17-41 | an over-long transcript with a boundary is cut to its longest turn suffix that fits, or to the latest turn alone when none fits |
| ChatTranscript.CapIsIdempotent | logic/chat/history.py:17-41 | capping twice is capping once |
| ChatTranscript.CapWithoutQuestion | logic/chat/history.py:17-41 | a transcript without a question is cut to its newest messages, except that a cap of zero keeps all of it |
| ChatTranscript.SaveThenLoad | logic/chat/history.py:206-251 | what is saved from a boundary on loads back as exactly its cap, which is all of it when it fits, and stays sendable |
| ChatTranscript.NaiveSliceIsNotSendable | logic/chat/history.py:17-41 | cutting at a fixed count can orphan a tool result, and the cap does not |
| ChatCompression.StripIsLightAndStable | logic/chat/service.py:542-579 | when nothing raises, stripping leaves no table, chart or report, keeps every other block and member, and is idempotent, provided only that what was loaded and stripped loads back |
| ChatCompression.StripContent | logic/chat/service.py:542-562 | the loop strips block by block and raises for the first block that cannot be summarised; anything but an envelope is left as it is |
| ChatCompression.StrippingRaisesExactlyWhen | logic/chat/service.py:542-579 | stripping raises if and only if the answer loads as an envelope with a block whose kind is a list or an object, or a table whose columns or rows are a nonzero number or true |
| ChatCompression.NotesSay | logic/chat/service.py:565-579 | what is left of a chart or a report is its title, of a table the note below |
| ChatCompression.TableNoteSays | logic/chat/service.py:571-576 | the number of rows in decimal, then the number of columns, then their names or that there are none, then the caption if there is one |
| ChatCompression.NamesAreListed | logic/chat/service.py:573 | the column names are joined by a comma and a space, names that are no strings as Python prints them |
| ChatCompression.StripHidesCells | logic/chat/service.py:542-579 | answers that differ only in the cells of their tables are stripped to the same string or raise alike: no row data reaches the model |
| ChatCompression.CellsMayDiffer | logic/chat/service.py:565-575 | any other rows, as many of them, count as other cells of a table that lists its rows |
| ChatCompression.CompressPast | logic/chat/service.py:504-536 | the loop reduces each past turn to its question and its last plain answer, keeping stray messages, or raises for the first of those answers that cannot be stripped |
| ChatCompression.CompressPastTurns | logic/chat/service.py:484-501 | everything before the last question is compressed and the rest is kept as it is, or the exception of the past passed on |
| ChatCompression.CompressionRaisesExactlyWhen | logic/chat/service.py:484-579 | a transcript cannot be compressed if and only if the last plain answer of some past turn holds a block the code cannot deal with |
| ChatCompression.CompressionDistributes | logic/chat/service.py:504-536 | compressing distributes over concatenation at a turn boundary, and the first part that raises decides |
| ChatCompression.OneTurn | logic/chat/service.py:516-531 | one past turn becomes its question plus its last plain answer, stripped, or raises for that answer |
| ChatCompression.CompressionPreservesConversation | logic/chat/service.py:484-536 | unless compressing raises, all questions survive in order, the turn in progress is verbatim, and past turns hold no tool blocks |
| ChatCompression.CompressionIsIdempotent | logic/chat/service.py:484-562 | what has been compressed does not raise, and compressing it again changes nothing, provided only that what was loaded and stripped loads back |
| ChatCompression.CompressionStaysSendable | logic/chat/service.py:484-501 | a sendable transcript is sendable after compression, unless that raises |
| ChatHistory.HistoryStore.CreateConversation | logic/chat/history.py:140-149 | a new conversation belongs to its session and changes no turn |
| ChatHistory.HistoryStore.DeleteConversation | logic/chat/history.py:190-196 | only the owner deletes, and then exactly the conversation and its turns go |
| ChatHistory.HistoryStore.AppendTurn | logic/chat/history.py:206-239 | only the owner stores a turn, one row with the capped transcript, and everything stored keeps loading soundly |
| ChatHistory.HistoryStore.GetTranscript | logic/chat/history.py:241-251 | the healed transcript of the latest turn, or nothing for a stranger; sound if everything stored is |
| ChatHistory.HistoryStore.SavedTurnIsLoaded | logic/chat/history.py:206-251 | loading right after saving gives back the cap of what was saved |
| ChatHistory.LatestIsSound | logic/chat/history.py:241-251 | the latest row of any conversation loads soundly if every row does |
| ChatHistory.CapHeals | logic/chat/history.py:17-53 | the cap of a well-paired transcript loads soundly wherever the cut fell |
| ChatHistory.WithoutIsLoadable | logic/chat/history.py:190-196 | deleting a conversation keeps the rest loadable |
| ChatEvents.Client.Receive | logic/chat/service.py:75-78 | one more event reaches the client, which may leave only if its patience is bounded |
| ChatTurn.AskedIsSendable | logic/chat/service.py:168-234 | whatever was loaded and however many rounds ran, the transcript is sendable, with or without a final answer |
| ChatTurn.AskedCompresses | logic/chat/service.py:484-501 | what is compressed in any call of a turn is what was loaded, so a turn that can make its first call can make them all |
| ChatTurn.CutOffSays | logic/chat/service.py:108-121 | a reply that was cut off gets the message for a full context if it asked for a tool, and the one for an answer too large if it did not |
| ChatTurn.CodesSay | logic/chat/service.py:106-159 | an error message carries the code for a truncated or for an unparsed answer exactly when that was the trouble, and the internal one for whatever raised |
| ChatTurn.RoundStepsSay | logic/chat/service.py:86-232 | a tool round shows its usage if reported, what the model wrote unless that is blank, and then for each tool call, in order, its query and the code of its failure if it failed |
| ChatTurn.RaiseSays | logic/chat/service.py:161-241 | which exception ends a tool round: the first query that cannot be announced, else what running them raised, else the first result that cannot be turned into text, else none |
| ChatTurn.EndingIgnoresDeletion | logic/chat/service.py:147-157 | a turn whose conversation was deleted meanwhile ends like one that was stored, "ok" included, with nothing stored |
| ChatTurn.ProblemsGoWithErrors | logic/chat/service.py:80-241 | for a client that stays, status "error" and an error event go together, and a turn that is "ok" was stored unless its conversation is gone |
| ChatTurn.SavedRowIsLoadable | logic/chat/service.py:118-150 | the row a turn leaves loads soundly, with its answer or with the question alone |
| ChatTurn.TurnKeepsEverythingSound | logic/chat/service.py:55-246 | a turn sends only lists that can be sent and leaves everything stored loadable, if that held before |
| ChatTurn.UnanswerableStaysSo | logic/chat/service.py:80-83 | a turn of a conversation whose past cannot be compressed sends nothing, stores nothing, shows no step or block and ends with that one error, unless the client leaves first; so the next one finds it unchanged |
| ChatTurn.UnanswerableExactlyAfterFault | logic/chat/service.py:136-150 | a saved turn leaves its conversation like that if and only if its own answer cannot be summarised, the cap included |
| ChatEvents.SummaryLaw | logic/chat/service.py:248-272 | what one more step adds to a summary: a usage step adds one call and its four counts, each to its own total, a query step one query, reasoning nothing; without steps everything is zero |
| ChatEvents.SummarySays | logic/chat/service.py:248-272 | the row of a turn carries its id, its status and, field by field, the totals counted over its steps |
| ChatTurn.AnsweredTurnTotals | logic/chat/service.py:86-89 | the usage steps of an answered turn total what its replies reported, each of them once |
| ChatService.ChatService.CallClaude | logic/chat/service.py:274-295 | each call sends exactly the compressed transcript, or raises with nothing sent |
| ChatService.ChatService.Ask | logic/chat/service.py:83-84 | a call of a turn goes out unless the past it loaded cannot be compressed |
| ChatService.ChatService.EmitEnvelope | logic/chat/service.py:331-361 | a parsed answer streams its blocks and then its citations, an unparsed one an error, and what was streamed is what is returned for saving |
| ChatService.ChatService.AnnounceQueries | logic/chat/service.py:170-174 | the queries are announced in order, up to the first whose input cannot be read, and nothing else is shown |
| ChatService.ChatService.RecordResults | logic/chat/service.py:181-232 | one audit row, one streamed step and one result per query, in order, also when the client leaves half way or a result cannot be turned into text |
| ChatService.ChatService.RunRound | logic/chat/service.py:161-234 | a completed round shows its reasoning and queries, logs each query and returns results for its calls, id by id; one in which something raises shows that error |
| ChatService.ChatService.FinishTruncated | logic/chat/service.py:108-134 | a reply cut off ends in error, with one message for a cut in a tool round and another for a cut answer, and stores the question with the steps shown, without the half-written reply; for a client that stays it is stored exactly when the database takes it |
| ChatService.ChatService.FinishAnswered | logic/chat/service.py:136-159 | an answer stores the blocks, citations and steps streamed before it was saved; for a client that stays, "ok" exactly for a parsed answer whose saving did not fail, and stored exactly when the database takes it |
| ChatService.ChatService.Conclude | logic/chat/service.py:106-159 | a truncated reply or one without tool calls ends the turn, whichever comes first |
| ChatService.ChatService.TakeReply | logic/chat/service.py:86-234 | one reply ends the turn as the replies so far call for, or adds one round whose results answer its calls |
| ChatService.ChatService.Save | logic/chat/service.py:147-150 | a turn is stored if and only if the conversation still exists and the database takes it |
| ChatService.ChatService.EmitUsage | logic/chat/service.py:86-89 | reported usage becomes one streamed step and touches nothing else |
| ChatService.ChatService.RunTurn | logic/chat/service.py:80-241 | the loop sends the transcript after every completed round, or raises before the first call; it shows and logs the steps of those rounds, ends as the replies call for, and stores at most one row |
| ChatService.ChatService.StreamTurn | logic/chat/service.py:55-246 | a stranger is refused without a trace and a read that raises before the turn begins leaves nothing, not even an event; otherwise the rounds, steps, stored row, status and error messages follow the model's replies, one summary is written whatever the exit, with calls, queries, input, output and both cache totals each counted over the steps shown; "ok" means a shown answer, no error event, and stored unless the conversation was deleted; everything sent stays sendable, everything stored loadable, and no conversation changes hands |
| ChatRuns.TurnIsMoves | logic/chat/service.py:55-246 | whatever a turn of the service does is the series of its moves in the order in which they happen: load, per round the call, its steps and its completion, the last call and its steps, the end |
| ChatRuns.InterleavingsStaySound | logic/chat/service.py:55-246 | over every interleaving of any number of turns, each loading before another has saved, and of deletions: every list ever sent starts with a question, pairs each tool call with its results in order and orphans no result, and everything stored loads as something sendable |
| ChatRuns.StuckUntilDeleted | logic/chat/service.py:55-246 | over every interleaving, a conversation whose past cannot be compressed, and of which no turn is under way that loaded anything else, is never asked about, shown a step for or stored to again until it is deleted |
| ChatRuns.TurnsOfSays | logic/chat/history.py:206-239 | the stored turns of a conversation meant there are its rows, in order, and no others |
| ChatRuns.InterleavingsAreAccounted | logic/chat/service.py:176-272 | over every interleaving the log holds, for each turn so far, the query rows of the steps it has shown, no summary while it runs and one when it is over |
| ChatRuns.OneSummaryExactlyWhenLoaded | logic/chat/service.py:66-272 | an authorized turn that is over has exactly one summary if and only if its transcript could be loaded, each of its fields counted over the steps shown, with a query count equal to its query rows; if loading raised the log holds nothing of it |
| ChatRuns.LoadFailureIsSilent | logic/chat/service.py:66-80 | a load that raises changes nothing and leaves no summary |
| ChatExamples.CountedRowsRaise | logic/chat/service.py:565-575 | a past answer whose table gives its rows as a number makes compressing raise |
| ChatExamples.CountedRowsStick | logic/chat/service.py:136-150 | the reply with that table ends its turn in error and is stored; whatever the model would say next, the next turn does not ask it, stores nothing and shows one error |
| DevCareLoop.DevCareService.HandleTools | logic/devcare/service.py:108-116 | handled calls give one result each, in order, and the blocks shown are the outcomes' blocks; the first call that raises ends the round with its error |
| DevCareLoop.DevCareService.Answer | logic/devcare/service.py:92-104 | an answer is shown unless empty, then stored with everything shown; for an operator who stays an error is shown exactly when saving fails |
| DevCareLoop.DevCareService.StreamTurn | logic/devcare/service.py:64-119 | a stranger is refused, and a read that raises before the turn begins leaves nothing; otherwise at most MAX_TOOL_ROUNDS + 1 calls, each sendable, a row stored only for an answer, with the blocks of its rounds, and for an operator who stays exactly the error messages the replies lead to; everything stored keeps loading soundly |
| DevCareLoop.DevCareService.TakeReply | logic/devcare/service.py:84-116 | one reply ends the turn as the replies call for, or adds one round with a result for each call |
| DevCareLoop.AnsweredExactlyWithinBound | logic/devcare/service.py:77-116 | an operator who stays gets an answer if and only if some reply among the first MAX_TOOL_ROUNDS + 1 has no tool calls and every reply before it is a tool round in which nothing raises |
| DevCareLoop.FirstRaisedSays | logic/devcare/service.py:108-116 | the first tool call to raise decides what a round ends with, and without one nothing is raised |
| DevCareLoop.PlainSendsAreSendable | logic/devcare/service.py:70-116 | the uncompressed lists of every call are sendable |
| DevCareLoop.DevSavedRowIsLoadable | logic/devcare/service.py:99-102 | the stored row loads soundly |
| SseFraming.WithKeepalive | logic/chat/app.py:193-222 | a keepalive for every wait that runs out, before the event it waited for, and no event lost or moved |
| SseFraming.FramesArrive | ui/chat/sse.js:14-25 | cutting text as it arrives gives the frames and the remainder of the whole text |
| SseFraming.ParseChunk | ui/chat/sse.js:28-37 | the last event name and the joined data lines, or nothing without data |
| SseFraming.NameSays | ui/chat/sse.js:28-37 | the name is that of the last line that starts with "event:", trimmed, and "message" without one |
| SseFraming.DataSays | ui/chat/sse.js:28-37 | the data are those of all lines that start with "data:", trimmed, one after the other |
| SseFraming.LinesSay | ui/devcare/app.js:264-265 | how either reader sees lines: splitting ends one at a line feed, a regular expression also at a carriage return and at the Unicode separators, and the character that ends it belongs to none |
| SseFraming.StreamSse | ui/chat/sse.js:14-26 | for every chunking the indexOf loop yields what the frames of the whole text parse to |
| SseFraming.ReadOperations | ui/devcare/app.js:257-274 | for every chunking the split and pop loop yields what the frames of the whole text match |
| SseFraming.MatchParts | ui/devcare/app.js:263-267 | the complete parts are matched in order |
| SseFraming.MatchedSays | ui/devcare/app.js:263-267 | a part is the event of its first "event: " line that goes on, with the data of its first "data: " line that goes on, and nothing without either |
| SseFraming.ReadersRecoverEvent | logic/chat/app.py:183-186 | both readers recover the event from the frame the server formats |
| SseFraming.EveryChunkingDeliversEvents | logic/chat/app.py:183-222 | for every sequence of events with JSON text as data, placement of keepalives and chunking, both readers deliver exactly the events sent, in order |
| SseFraming.PrintableIsWireText | logic/chat/app.py:183-186 | what the results above ask of names and data holds of any printable ASCII text without a space at either end |
| CsvExport.PrintRow | ui/chat/renderers/table.js:78-81 | a row is its encoded cells joined by commas |
| CsvExport.DownloadCsv | ui/chat/renderers/table.js:76-84 | the file is the byte order mark and the encoded header and rows |
| CsvExport.ReadCell | ui/chat/renderers/table.js:86-94 | whatever commas, quotes or line breaks a cell holds, it reads back from its encoding |
| CsvExport.GuardSays | ui/chat/renderers/table.js:86-90 | a cell gets an apostrophe exactly when it starts with an equals sign, a plus, a minus or an at sign, and a missing one is blank |
| CsvExport.QuotingSays | ui/chat/renderers/table.js:91-93 | a cell is quoted exactly when it holds a quote, a comma or a line break |
| CsvExport.ReadTable | ui/chat/renderers/table.js:76-84 | a table without empty rows reads back whole, or short of a last blank row |
| CsvExport.PrintedTableReadsBack | ui/chat/renderers/table.js:76-94 | the table that is printed is the header and every row, each value as it is or guarded, and the file reads back as it if and only if no row is empty and the last is not a single blank cell |
| CsvExport.WideTableReadsBack | ui/chat/renderers/table.js:76-94 | every table of two or more columns reads back |
| CsvExport.NothingReadsAsFormula | ui/chat/renderers/table.js:76-94 | whatever the table holds, no cell read back from the file starts with a character a spreadsheet takes for a formula |
| BillsTaxId.OneWrongDigit | logic/bills/tax_id.py:14-25 | for any weights distinct and nonzero modulo 11, two valid numbers one digit apart both end in 0 with remainders 0 and 1 |
| BillsTaxId.SwappedDigits | logic/bills/tax_id.py:14-25 | the same for two weighted digits swapped |
| BillsTaxId.PtWeights | logic/bills/tax_id.py:3 | the published weights qualify, the blind spot exists, and of the two numbers named in the matcher's comment only one is valid |
| BillsTaxId.NifLaw | logic/bills/tax_id.py:6-25 | over all strings: no verdict exactly when the value, without the blanks around it and an optional "PT", is not nine digits; otherwise right if and only if the first eight weighted by 9 down to 2 and the ninth sum to a multiple of 11, or the ninth is 0 where the eight leave 1 |
| BillsWriter.BillWriteExecutor.CheckColumns | logic/bills/write_executor.py:30-34 | columns pass exactly when all are allowed, and a refusal names one that is not |
| BillsWriter.BillWriteExecutor.CheckPlan | logic/bills/write_executor.py:64-79 | a plan passes exactly when header, lines and new records keep to the rule's columns |
| BillsWriter.EntityRowIsRecord | logic/bills/write_executor.py:48-60 | a created record holds what was proposed, the rule's default for every other default column, the time and the operator, its key, and no other column |
| BillsWriter.BillWriteExecutor.ResolveEntity | logic/bills/write_executor.py:48-60 | a matched key is used as it is, a confirmed new record is created under the next key as EntityRowIsRecord says, anything else is refused |
| BillsWriter.BillWriteExecutor.InsertLine | logic/bills/write_executor.py:106-118 | one line under the next key, pointing at its document and its matched or created article, the article being the record EntityRowIsRecord says, or the reason it is refused |
| BillsWriter.BillWriteExecutor.InsertHeader | logic/bills/write_executor.py:86-102 | one header under the next key, for the supplier and the type of document, in three statements, or the reason there is none |
| BillsWriter.BillWriteExecutor.InsertLines | logic/bills/write_executor.py:104-118 | the lines are written in order, each on top of the ones before it, in as many statements as they take, or the first that cannot be written, or the first statement that fails, ends it |
| BillsWriter.BillWriteExecutor.Execute | logic/bills/write_executor.py:62-127 | all or nothing: it succeeds if and only if nothing in the plan or the tables stands in the way, none of the statements the plan takes fails, and the commit does not, and then writes the plan and its audit row together, the rows being those of WriteFollowsPlan; otherwise the tables are unchanged |
| BillsWriter.BillWriteExecutor.RecordFailure | logic/bills/audit_writer.py:55-68 | a failed write adds at most its own audit row |
| BillsWriter.LinesAreKeyed | logic/bills/write_executor.py:104-118 | lines and created articles get consecutive keys from the old maximum and every line points at its document |
| BillsWriter.WriteIsSound | logic/bills/write_executor.py:81-127 | for a rule that leaves key columns to the executor, one write keeps keys unique in every table, appends one header and its lines, and its result names exactly the rows inserted |
| BillsWriter.WriteFollowsPlan | logic/bills/write_executor.py:86-117 | the header and each line hold the plan's columns, except that no caller can set a key, the document type, the supplier or a draft default, and the header its time and operator, and no other column; each line points at its matched or created article; each created supplier and article is exactly what was proposed, the rule's defaults for what was not, the time, the operator and the key |
| BillsWriter.RunsAuditEveryDocument | logic/bills/audit_writer.py:44-53 | from an empty audit table, after any mix of successful, failed and unrecorded attempts, the "ok" audit rows are in one-to-one correspondence, in order, with the documents written |
| BillsService.Rematch | logic/bills/service.py:108-132 | only "new" decisions are made again, from the edited bill; nothing when a query for one of them raises |
| BillsService.RematchingDecides | logic/bills/service.py:108-142 | decision by decision: "new" ones are made again and keep their tick if they are still "new", all others stay, and it raises exactly when a query it needs does |
| BillsService.SupplierIsDecided | logic/bills/matching.py:44-74 | the supplier is the one found by tax number if there is exactly one; otherwise the name decides: one is matched, several are ambiguous, none is new and takes name and number |
| BillsService.ArticleIsDecided | logic/bills/matching.py:58-74 | an article is decided by its description, and raises exactly when that query does |
| BillsService.BuildColumns | logic/bills/service.py:82-106 | the columns of the fields that have a value and the required fields that have none |
| BillsService.BuiltColumnsAreDeclared | logic/bills/service.py:82-106 | built columns are declared ones, and without an objection every required attribute is among them |
| BillsService.BuiltColumnsHoldValues | logic/bills/service.py:82-106 | a column is built exactly when some attribute field that takes it has something to write, a blank not counting where one is required, and holds what the last such field writes |
| BillsService.BillValueReads | logic/bills/service.py:75-80 | each name reads the attribute of the bill it names, and no other |
| BillsService.LineValueReads | logic/bills/service.py:75-80 | the same for the attributes of a line |
| BillsService.MissingAreNamed | logic/bills/service.py:88-98 | a field is named as missing exactly when it is a required attribute without a value |
| BillsService.PlanHoldsBill | logic/bills/service.py:188-205 | the plan is the bill: its id, its decisions, a line for each line and decision, and in every column the attribute the rule puts there |
| BillsService.NothingMissing | logic/bills/service.py:88-90 | nothing is missing exactly when every required attribute has a value |
| BillsService.StageAcceptsExactly | logic/bills/service.py:160-201 | stage objects to nothing if and only if the tax number is not nine digits with a wrong check digit, lines and decisions are equal in number, every decision is confirmed or picked, and every required field is there |
| BillsService.ViolationsSay | logic/bills/service.py:160-201 | each kind of objection is raised exactly when there is reason to: a tax number shaped right whose check digit is wrong, lines and decisions that differ in number, new records nobody confirmed, ambiguous ones nobody picked, required fields without a value |
| BillsService.AcceptedPlansCanBeWritten | logic/bills/service.py:144-208 | an accepted plan passes every whitelist and resolves if and only if each decision is "new" or "matched" with a key; a new supplier carries the edited name and tax number, never nine digits with a wrong check digit |
| BillsService.PurchaseInvoiceIsSound | business_rules/bills/purchase_invoice.yaml:1-31 | the shipped rule protects its key columns and allows what matching proposes |
| BillsService.ShippedStageAccepts | business_rules/bills/purchase_invoice.yaml:1-31 | under the shipped rule stage objects to nothing if and only if the tax number is not nine digits with a wrong check digit, the decisions are settled and there is a date, a total and a description of every line |
| BillsService.PendingProposalStore.Put | logic/bills/pending.py:12-13 | an item replaces what was under its key |
| BillsService.PendingProposalStore.Pop | logic/bills/pending.py:18-19 | an item is handed out once |
| BillsService.BillService.Upload | logic/bills/service.py:35-53 | a tax number of nine digits with a wrong check digit is cleared before anything is matched on it, and no other; the proposal is stored without touching any plan; nothing is stored when a query raises |
| BillsService.BillService.Stage | logic/bills/service.py:144-217 | the reply, what the store keeps and what the history says of a stage call, for each way it can go: malformed edits, a rematch query that raises, objections, a duplicate query that raises after the plan is stored, ok |
| BillsService.RefusedStageLeavesPlanExactlyWhen | logic/bills/service.py:144-217 | when a stage call is malformed, objected to, raised or ok, and what plan it leaves: one that does not return ok still leaves a plan if and only if nothing is objected to, the bill has a number and the query for duplicates raises |
| BillsService.ArmedIsPromisedUnlessRaised | logic/bills/service.py:144-147 | the plan a commit would find is the one a stage call returned ok for, unless the latest stage call raised after storing its plan |
| BillsService.BillService.Review | logic/bills/service.py:160-205 | the violations in the order the checks come, and the plan |
| BillsService.BillService.Commit | logic/bills/service.py:219-233 | a commit executes exactly the plan the latest stage call for its id left, if no commit came since, which is the plan a stage call returned ok for unless that call raised; otherwise the database is untouched |
| BillsService.StageCoupled | logic/bills/service.py:147-206 | however a stage call goes, the store stays in step with the history of calls, for every id at once |
| BillsService.CommitCoupled | logic/bills/service.py:219-228 | so does committing |
| BillsService.UploadCoupled | logic/bills/service.py:52 | so does uploading |
| BillsService.ArmingStage | logic/bills/service.py:144-217 | an armed plan comes from the latest stage call, with no stage or commit of that id after it; that call returned ok or raised, and it returned ok exactly when the plan is one promised |
| BillsService.ExecutedOnce | logic/bills/service.py:219-233 | two commits never execute the plan of the same stage call |
| BillsService.CommitsExecuteOkStagesExactlyWhen | logic/bills/service.py:144-233 | over any history, every commit that executes finds a plan that a stage call returned ok for if and only if no commit comes after a stage call that raised with its plan stored and nothing of that id but uploads in between |
| BillsExamples.AcceptedButRefused | logic/bills/service.py:181-190 | a supplier picked among several, or matched without a key, is accepted by stage and refused by the executor |
| BillsExamples.RaisedStageLeavesPlan | logic/bills/service.py:205-217 | an acceptable bill whose duplicate query raises leaves a plan that no stage call returned ok for |
| BillsExamples.RaisedStageIsWritten | logic/bills/service.py:205-233 | a commit after that writes the document |
| BillsExamples.SuffixedIdCrashes | logic/bills/service.py:169-220 | edits posted under an id ending in the plan suffix make the commit of the id in front of it crash, with the database untouched |
| DevCareRecords.CoerceFields | logic/devcare/validator.py:72-109 | the typed columns of the fields given; one objection for each unknown field, each required field that is missing, each value that is mistyped, and each length, format, bound and allowed-value check a value fails |
| DevCareRecords.CheckUniqueness | logic/devcare/validator.py:111-134 | an objection for exactly the complete uniqueness sets another active row holds |
| DevCareRecords.CheckReferences | logic/devcare/validator.py:136-149 | an objection for exactly the given, well-typed fields whose value is in no row of the referenced column |
| DevCareRecords.Validate | logic/devcare/validator.py:32-70 | a change for exactly the requests without objections, else the objections in order, unknown fields first in any order |
| DevCareRecords.WriteExecutor.Execute | logic/devcare/write_executor.py:38-51 | one change happens entirely and reports its key, or the tables stay as they were |
| DevCareRecords.WriteExecutor.CreateRow | logic/devcare/write_executor.py:60-74 | one row under the next key, with defaults, soft-delete and audit columns |
| DevCareRecords.WriteExecutor.UpdateRow | logic/devcare/write_executor.py:76-90 | only the row with the key changes, in the columns set; setting nothing is refused |
| DevCareRecords.WriteExecutor.DeleteRow | logic/devcare/write_executor.py:92-110 | a soft delete only marks the row with the key, a hard delete removes it |
| DevCareConsistency.TakenIsAgreement | logic/devcare/validator.py:111-134 | the uniqueness query finds exactly the active rows that agree with the row left behind, NULL never agreeing |
| DevCareConsistency.ValidationAcceptsExactly | logic/devcare/validator.py:32-158 | validation objects to nothing if and only if the operation is allowed, the target is the only row with its key, every field is known, typed and meets each of its checks, required ones are there, no uniqueness set is taken and every reference is found |
| DevCareConsistency.ObjectionsSay | logic/devcare/validator.py:32-158 | each objection is raised if and only if there is its reason to: operation, target, unknown, missing, mistyped or unaccepted field, set taken, reference missed; a target that is not there only when nothing else is wrong |
| DevCareConsistency.OneTarget | logic/devcare/validator.py:151-158 | in a table with distinct keys the target check passes exactly when the row exists |
| DevCareConsistency.CoercedHoldsValues | logic/devcare/validator.py:84-92 | a column is there exactly when a field that takes it was given and read well, and holds what the last such field reads as |
| DevCareConsistency.ChecksSay | logic/devcare/validator.py:95-109 | a value fails a check exactly when it is a text too long or badly formed, a number too small or too large, or none of the values allowed |
| DevCareConsistency.CoercionObjectionsSay | logic/devcare/validator.py:72-109 | a field is objected to as missing, mistyped or not accepted exactly when it is |
| DevCareConsistency.DanglingSays | logic/devcare/validator.py:136-149 | a reference is missed exactly when it was given, reads well and is in no row of the referenced column, as NULL is in none |
| DevCareConsistency.CreateKeepsExactlyWhenFree | logic/devcare/write_executor.py:60-74 | a create keeps the table consistent exactly when no set is taken at that moment |
| DevCareConsistency.UpdateKeepsExactlyWhenFree | logic/devcare/write_executor.py:76-90 | so does an update, for the row as it will be |
| DevCareConsistency.SoftDeleteKeeps | logic/devcare/write_executor.py:97-110 | a soft delete always does |
| DevCareConsistency.HardDeleteKeeps | logic/devcare/write_executor.py:93-96 | so does a hard delete |
| DevCareConsistency.CommitTouchesOnlyItsRow | logic/devcare/write_executor.py:60-110 | a commit adds one row that holds the validated columns, the rule's defaults, the active mark, time, operator and key, and nothing else, or changes only the validated columns and the stamps of the row with the key, or removes that row; every other row stays as it is |
| DevCareConsistency.AppliedSays | logic/devcare/write_executor.py:30-84 | the executor takes a change exactly when it touches declared columns only and, being an update, has something to set |
| DevCareConsistency.ReportedKeySays | logic/devcare/write_executor.py:38-74 | the key a commit reports is that of the row it adds, or else of the row it was for |
| DevCareConsistency.CommitKeepsExactlyWhenFree | logic/devcare/write_executor.py:38-51 | for a well-formed rule, any commit keeps keys and active unique values distinct if and only if the uniqueness check would pass now on the row it leaves |
| DevCareConsistency.ValidatedFacts | logic/devcare/validator.py:32-134 | a validated change touches declared columns only, names a target unless it creates, and takes no set given in full |
| DevCareConsistency.ValidatedIsFree | logic/devcare/validator.py:111-134 | a change validated against the current table meets the commit condition, for every uniqueness set given whole or not at all |
| DevCareConsistency.RunsStayConsistent | logic/devcare/validator.py:111-158 | along every run whose commits apply freshly validated changes, keys and active unique values stay distinct |
| DevCareConsistency.RunsKeepRows | logic/devcare/write_executor.py:92-110 | with soft deletion no run ever removes a row or changes its key |
| DevCareRules.ShippedRulesAreWellFormed | business_rules/devcare/patient.yaml:1-92 | the patient, doctor and specialty documents meet what the results above ask of a rule, and their uniqueness sets are always given whole |
| DevCareExamples.StaleCreateCollides | logic/devcare/service.py:186-202 | two creates staged together and committed one after the other duplicate a value |
| DevCareExamples.CreateWithTargetCollides | logic/devcare/validator.py:128-130 | a create that names a target is not checked against that row |
| DevCareExamples.PartialUpdateCollides | logic/devcare/validator.py:115-122 | an update of half a uniqueness set is not checked on it |
| DevCareCommit.PendingChangeStore.Stage | logic/devcare/pending.py:23-27 | a change waits under its id |
| DevCareCommit.PendingChangeStore.Pop | logic/devcare/pending.py:29-34 | a change is handed out once and only to the conversation that staged it |
| DevCareCommit.ChangeService.StageChange | logic/devcare/service.py:121-184 | a change is staged exactly when conversation and entity are known and every check of validation is met; otherwise the answer is which of them is unknown, or exactly the objections that are due |
| DevCareCommit.ChangeService.CommitChange | logic/devcare/service.py:186-211 | a commit takes out the change its conversation staged, executes it against the tables of the moment or not at all, and audits it once with the row as it was; it succeeds exactly when the row can be read, unless it is created, and the database takes the change; anything else changes nothing |
| DevCareCommit.ChangeService.Attempt | logic/devcare/service.py:193-197 | the row about to change and the outcome of executing; a read that raises prevents the execution, and a create reads nothing |
| DevCareCommit.ImageSays | logic/devcare/service.py:213-221 | the row recorded as it was is one with the key the change names; nothing is recorded of a create, nor when there is no such row |
| DevCareCommit.TakenOutOnce | logic/devcare/service.py:186-202 | over any history no staged change is taken out, executed or audited twice |
| DevCareCommit.TakenOutWasStaged | logic/devcare/service.py:186-197 | what is committed was staged before under its id, unchanged |
| DevCareCommit.StagedArePendingOrAudited | logic/devcare/service.py:186-211 | staged changes are pending or audited: the counts add up after any history |
| DevCareCommit.EventKeepsConsistent | logic/devcare/service.py:186-197 | one call keeps a consistent table consistent exactly when it does not execute a change that is no longer free |
| DevCareCommit.ConsistentExactlyWithoutStaleCommits | logic/devcare/service.py:186-211 | over any history of the service a table stays consistent throughout if and only if no commit was stale |
| DevCareCommit.UndisturbedCommitIsNotStale | logic/devcare/service.py:121-197 | a commit is not stale if its table is as it was when the change was staged |
| Tables.NextKeyIsFresh | logic/bills/write_executor.py:36-41 | appending under MAX + 1 keeps keys unique and moves the next key up by one |
| Tables.NextKeyIsOneMore | logic/bills/write_executor.py:36-41 | the next key is 1 in a table without keys and otherwise one more than the greatest |

## Left out

- JSON, YAML and pydantic parsing: models start from parsed documents, bills, replies and edits; answers are loaded JSON values, of which it is assumed only that what was loaded and stripped is dumped so that it loads back.
- SQL text, the SQL filter and the database engines: a table is a sequence of rows and a transaction a private copy that is kept or dropped; any statement of a write, its commit, and any query of a bill or of a turn may fail.
- A query that raises while DevCare validates: the call fails before anything is staged.
- JSON nested deeper than the interpreter can follow, on which reading an answer raises.
- Empty messages, which the model's interface may refuse: an empty reply is stored and sent again like any other.
- Audit files: appending to one is taken to succeed.
- Concurrent writers: like the code's own comments, one writer at a time is assumed between reading MAX and inserting; calls of the bills service and of DevCare staging follow one another, chat turns interleave.
- Clocks, uuids and network calls are parameters; fresh ids are assumed unused.
- Decimal's 28-digit context limit: amounts are exact reals.
- The description, quantity, tax treatment and exempt amount of a payslip line, and the timestamp of an audit entry, which the amounts do not depend on.
- The older float-based payroll path (`logic/payroll/engine.py`, `calculator.py`, `validator.py`, `router.py`, `conversation.py`).
- `_estimate_cost_usd` and the cost total of a summary, which are floats; title generation, prompts, reports and the knowledge store.
- Creating and changing employees, contracts, periods and time inputs, which are plain upserts; the hours of a time input, which no primitive reads.
- The HTTP routes, cookies and DOM code around both stream readers; `TextDecoder` is assumed to have decoded the chunks.
- Whitespace and digits outside ASCII in `strip`, `trim` and `isdigit`, and the separators U+001C to U+001F, which `strip` takes for blanks; the modelled wire text is ASCII, as `json.dumps` writes it.
- The wording of an exception: the message an error event carries is the text the service derives from it.
- OCR, image preparation and the QR field merge before an upload; arithmetic warnings and match labels and candidates, which decide nothing.
- The JSONL mirror of the bills audit, which is outside the transaction; only the database table is counted.
- Forms and lookups of the DevCare conversation; a tool call there gives any payload and perhaps a block.
- Decimal field values in DevCare: a value is text, a whole number or NULL; patterns and the reading of a field's type are functions of its text.
- An empty uniqueness set in a DevCare rule, which the code would turn into a malformed query, a uniqueness set or reference that names an undeclared field, and two entities that share a table.
- RFC 4180 reading is defined here, since the repository only prints.
