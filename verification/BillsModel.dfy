/** Bills, match decisions, write plans and the rule document they are built
    from. */
module BillsModel {
  import opened Wrappers
  import opened Tables

  // ---- the purchase invoice rule -------------------------------------------

  /** Where a field's value comes from: a match decision or an attribute of the
      bill or line. */
  datatype Source = FromMatch | FromAttribute(name: string)

  datatype FieldRule = FieldRule(name: string, column: string, source: Source, required: bool)

  datatype MatchTarget = MatchTarget(createDefaults: Row, createColumns: set<string>)

  datatype PurchaseRule = PurchaseRule(
    document: string,
    version: int,
    headerFields: seq<FieldRule>,
    supplierColumn: string,
    tipoDocCode: string,
    draftDefaults: Row,
    createdAt: Option<string>,
    createdBy: Option<string>,
    lineFields: seq<FieldRule>,
    articleColumn: string,
    parentFk: string,
    supplier: MatchTarget,
    article: MatchTarget)

  function Columns(fields: seq<FieldRule>): set<string> {
    set i | 0 <= i < |fields| :: fields[i].column
  }

  // ---- bills ---------------------------------------------------------------

  /** Extracted amounts and dates are kept as the text that is written. */
  datatype BillLine = BillLine(description: string, quantity: Option<string>, unitPrice: Option<string>,
                               vatRate: Option<string>, total: Option<string>)

  datatype Bill = Bill(supplierName: string, supplierTaxId: Option<string>, buyerTaxId: Option<string>,
                       number: Option<string>, issueDate: Option<string>, dueDate: Option<string>, currency: Option<string>,
                       netTotal: Option<string>, vatTotal: Option<string>, grossTotal: Option<string>,
                       lines: seq<BillLine>)

  datatype MatchStatus = Matched | Ambiguous | New

  type Proposed = map<string, Option<string>>

  datatype MatchResult = MatchResult(status: MatchStatus, chave: Option<int>, proposedNew: Option<Proposed>, confirmed: bool)

  datatype BillProposal = BillProposal(bill: Bill, supplierMatch: MatchResult, lineMatches: seq<MatchResult>)

  datatype LinePlan = LinePlan(article: MatchResult, columns: map<string, string>)

  datatype WritePlan = WritePlan(proposalId: string, supplier: MatchResult, header: map<string, string>, lines: seq<LinePlan>)

  /** What the executor can turn into a key. */
  predicate Resolvable(m: MatchResult) {
    || (m.status == Matched && m.chave.Some?)
    || (m.status == New && m.confirmed && m.proposedNew.Some?)
  }
}
