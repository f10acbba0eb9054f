/** Where staging and committing bills part ways, on concrete proposals. */
module BillsExamples {
  import opened Wrappers
  import opened Tables
  import opened BillsTaxId
  import opened BillsModel
  import opened BillsWriter
  import opened BillsService

  const BILL := Bill("Papelaria", None, None, Some("7"), Some("2026-01-31"), None, None, None, None, Some("12.30"), [])

  function ProposalWith(m: MatchResult): BillProposal { BillProposal(BILL, m, []) }

  const NOBODY := Reader(taxId => Some([]), name => Some([]), name => Some([]), ref => Some([]))

  /** A supplier the operator picked among several, and a match without its key. */
  const PICKED := MatchResult(Ambiguous, Some(4), None, false)
  const KEYLESS := MatchResult(Matched, None, None, false)

  /** Stage accepts both, and the executor refuses both. */
  lemma AcceptedButRefused(m: MatchResult)
    requires m == PICKED || m == KEYLESS
    ensures CanRematch(ProposalWith(m), NOBODY)
    ensures var p := Rematched(ProposalWith(m), NOBODY);
            && Violations(p, PURCHASE_INVOICE) == []
            && !AllResolvable(PlanOf("bill_1", p, PURCHASE_INVOICE))
  {
    hide Violations, ColumnsFor, IsBadNif;
    SettledIsAccepted(m, NOBODY);
  }

  /** A settled decision on the bill passes every check of stage. */
  lemma SettledIsAccepted(m: MatchResult, reader: Reader)
    requires m.status != New && IsSettled(m)
    ensures CanRematch(ProposalWith(m), reader) && Rematched(ProposalWith(m), reader) == ProposalWith(m)
    ensures Violations(ProposalWith(m), PURCHASE_INVOICE) == []
  {
    hide Violations, ColumnsFor, IsBadNif;
    var p := Rematched(ProposalWith(m), reader);
    assert p.lineMatches == [] && p.supplierMatch == m && p.bill == BILL;
    MissingIsNotBad();
    HeaderIsThere(p);
    StageAcceptsExactly(p, PURCHASE_INVOICE);
  }

  const KNOWN := MatchResult(Matched, Some(4), None, false)

  /** The database goes away for the last query of the stage call. */
  const FLAKY := NOBODY.(documentsByRef := ref => None)

  /** The stage call raises, and leaves a plan that no stage call returned ok for. */
  lemma RaisedStageLeavesPlan(id: string)
    ensures var edited := Some(ProposalWith(KNOWN));
            var calls := [StageCall(id, edited, PURCHASE_INVOICE, FLAKY)];
            && StageReply(id, edited, PURCHASE_INVOICE, FLAKY) == Raised
            && Armed(calls, id) == Some(PlanOf(id, ProposalWith(KNOWN), PURCHASE_INVOICE)) && Promised(calls, id) == None
  {
    hide Violations, PlanOf, CanRematch, Rematched;
    SettledIsAccepted(KNOWN, FLAKY);
    assert "7" != "";
  }

  /** A commit after it writes the document. */
  method RaisedStageIsWritten(executor: BillWriteExecutor, id: string) returns (staged: StageResult, r: CommitResult)
    requires "31" in executor.db.tiposDoc && !IsPlanId(id)
    modifies executor
    ensures staged.Raised? && r.Wrote? && |executor.db.documents| == |old(executor.db).documents| + 1
  {
    hide PlanOf, StageReply, StageCall, Armed, Promised, CanWrite, IsWrite;
    var service := new BillService(PURCHASE_INVOICE, executor);
    RaisedStageLeavesPlan(id);
    staged := service.Stage(id, Some(ProposalWith(KNOWN)), FLAKY);
    KnownCanBeWritten(executor.db, id);
    CallIsPlain(id);
    ghost var executed, before := None, executor.db;
    r, executed := service.Commit(id, "operator", "now", n => false, false, true);
    OneDocumentMore(before, executor.db, executed, r, executor.operatorKey);
  }

  lemma CallIsPlain(id: string)
    requires !IsPlanId(id)
    ensures PlainIds([] + [StageCall(id, Some(ProposalWith(KNOWN)), PURCHASE_INVOICE, FLAKY)])
    ensures [] + [StageCall(id, Some(ProposalWith(KNOWN)), PURCHASE_INVOICE, FLAKY)] ==
            [StageCall(id, Some(ProposalWith(KNOWN)), PURCHASE_INVOICE, FLAKY)]
  {
    hide CanRematch, Rematched, Violations, PlanOf;
  }

  lemma KnownCanBeWritten(db: Database, id: string)
    requires "31" in db.tiposDoc
    ensures CanWrite(db, PlanOf(id, ProposalWith(KNOWN), PURCHASE_INVOICE), PURCHASE_INVOICE)
  {
    hide Violations, ColumnsFor, Writable, KeysProtected;
    SettledIsAccepted(KNOWN, NOBODY);
    PurchaseInvoiceIsSound();
    AcceptedPlansCanBeWritten(id, ProposalWith(KNOWN), PURCHASE_INVOICE, NOBODY);
  }

  lemma OneDocumentMore(before: Database, after: Database, plan: Option<WritePlan>, r: CommitResult, operatorKey: int)
    requires r.Wrote? ==> plan.Some? && CanWrite(before, plan.value, PURCHASE_INVOICE)
                          && IsWrite(before, after, plan.value, PURCHASE_INVOICE, "operator", "now", operatorKey, r.result)
    ensures r.Wrote? ==> |after.documents| == |before.documents| + 1
  {
    hide WriteLines, HeaderRow;
  }

  lemma HeaderIsThere(p: BillProposal)
    requires p.bill == BILL
    ensures HeaderComplete(p, PURCHASE_INVOICE)
  {
    ShippedHeaderComplete(p);
  }

  /** Edits posted under an id that ends in the plan suffix take a plan's place, and
      the commit of the id in front of it crashes. */
  method SuffixedIdCrashes(executor: BillWriteExecutor, id: string, edits: BillProposal, reader: Reader)
    returns (r: CommitResult)
    requires CanRematch(edits, reader)
    modifies executor
    ensures r.Crashed? && executor.db == old(executor.db)
  {
    hide StageCall, StageReply, PlanLeft, Rematched, CanRematch, PlainIds, Armed, Promised, CanWrite, IsWrite, Coupled;
    var service := new BillService(PURCHASE_INVOICE, executor);
    var staged := service.Stage(PlanKey(id), Some(edits), reader);
    assert Edits(Some(edits), reader) == Some(StagedProposal(Rematched(edits, reader)));
    assert |PlanKey(PlanKey(id))| > |PlanKey(id)|;
    ghost var executed;
    r, executed := service.Commit(id, "", "", n => false, false, true);
  }
}
