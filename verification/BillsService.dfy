/** Staging and committing bills: which stage calls leave a plan to commit, that a
    plan is executed at most once, and when an accepted plan can be written. */
module BillsService {
  import opened Wrappers
  import opened Tables
  import opened BillsTaxId
  import opened BillsModel
  import opened BillsWriter

  // ---- matching ------------------------------------------------------------

  /** The read-only queries: keys of the rows each of them returns, or nothing when
      the query raises. */
  datatype Reader = Reader(
    suppliersByTaxId: string -> Option<seq<int>>,
    suppliersByName: string -> Option<seq<int>>,
    articlesByName: string -> Option<seq<int>>,
    documentsByRef: string -> Option<seq<int>>)

  function SupplierProposal(bill: Bill): Proposed {
    map["Nome" := Some(bill.supplierName), "NCont" := bill.supplierTaxId]
  }

  function LineProposal(line: BillLine): Proposed {
    map["Nome" := Some(line.description)]
  }

  function ResolveRows(rows: seq<int>, proposed: Proposed): MatchResult {
    if |rows| == 1 then MatchResult(Matched, Some(rows[0]), None, false)
    else if |rows| > 1 then MatchResult(Ambiguous, None, None, false)
    else MatchResult(New, None, Some(proposed), false)
  }

  function ResolveQuery(rows: Option<seq<int>>, proposed: Proposed): Option<MatchResult> {
    match rows
    case None => None
    case Some(found) => Some(ResolveRows(found, proposed))
  }

  /** By tax number if that finds exactly one, otherwise by name; nothing when a query
      raises. */
  function MatchSupplier(bill: Bill, reader: Reader): Option<MatchResult> {
    if bill.supplierTaxId.None? || bill.supplierTaxId.value == "" then MatchSupplierByName(bill, reader)
    else
      match reader.suppliersByTaxId(bill.supplierTaxId.value)
      case None => None
      case Some(rows) =>
        if |rows| == 1 then Some(MatchResult(Matched, Some(rows[0]), None, false)) else MatchSupplierByName(bill, reader)
  }

  function MatchSupplierByName(bill: Bill, reader: Reader): Option<MatchResult> {
    ResolveQuery(reader.suppliersByName(bill.supplierName), SupplierProposal(bill))
  }

  function MatchLine(line: BillLine, reader: Reader): Option<MatchResult> {
    ResolveQuery(reader.articlesByName(line.description), LineProposal(line))
  }

  /** A decision that is still "new" keeps the operator's tick. */
  function KeepConfirmation(m: MatchResult, again: Option<MatchResult>): Option<MatchResult> {
    match again
    case None => None
    case Some(result) => Some(if result.status == New then result.(confirmed := m.confirmed) else result)
  }

  /** "New" decisions are made again from the edited bill; the rest may be the
      operator's own pick and stays. */
  function RematchSupplier(m: MatchResult, bill: Bill, reader: Reader): Option<MatchResult> {
    if m.status == New then KeepConfirmation(m, MatchSupplier(bill, reader)) else Some(m)
  }

  function RematchLine(m: MatchResult, line: BillLine, reader: Reader): Option<MatchResult> {
    if m.status == New then KeepConfirmation(m, MatchLine(line, reader)) else Some(m)
  }

  // ---- what matching decides -----------------------------------------------

  /** One row is a match, several leave the choice open, none proposes a new record;
      nothing is confirmed. */
  ghost predicate IsDecision(m: MatchResult, rows: seq<int>, proposed: Proposed) {
    && (m.status == Matched <==> |rows| == 1) && (m.status == New <==> |rows| == 0)
    && m.chave == (if |rows| == 1 then Some(rows[0]) else None)
    && m.proposedNew == (if |rows| == 0 then Some(proposed) else None)
    && !m.confirmed
  }

  /** The number to look a supplier up by, if there is one. */
  ghost predicate ByTaxId(bill: Bill, number: string) {
    bill.supplierTaxId == Some(number) && number != ""
  }

  /** The supplier is the one found by tax number if there is exactly one, whatever its
      name; otherwise the name decides, and a new record takes name and number. */
  lemma SupplierIsDecided(bill: Bill, reader: Reader)
    ensures var found := MatchSupplier(bill, reader);
            && (forall number :: ByTaxId(bill, number) && reader.suppliersByTaxId(number).None? ==> found.None?)
            && (forall number, key :: ByTaxId(bill, number) && reader.suppliersByTaxId(number) == Some([key]) ==>
                  found == Some(MatchResult(Matched, Some(key), None, false)))
            && ((forall number :: ByTaxId(bill, number) ==>
                   reader.suppliersByTaxId(number).Some? && |reader.suppliersByTaxId(number).value| != 1) ==>
                  && (found.Some? <==> reader.suppliersByName(bill.supplierName).Some?)
                  && (found.Some? ==> IsDecision(found.value, reader.suppliersByName(bill.supplierName).value,
                                                 map["Nome" := Some(bill.supplierName), "NCont" := bill.supplierTaxId])))
  {
    if bill.supplierTaxId.Some? { assert ByTaxId(bill, bill.supplierTaxId.value) || bill.supplierTaxId.value == ""; }
  }

  lemma ArticleIsDecided(line: BillLine, reader: Reader)
    ensures MatchLine(line, reader).Some? <==> reader.articlesByName(line.description).Some?
    ensures MatchLine(line, reader).Some? ==>
              IsDecision(MatchLine(line, reader).value, reader.articlesByName(line.description).value, map["Nome" := Some(line.description)])
  {
  }

  /** `again` with the tick of `m`, which only a decision that is still "new" keeps. */
  ghost predicate IsTicked(r: MatchResult, m: MatchResult, again: MatchResult) {
    r == again.(confirmed := r.confirmed) && r.confirmed == if again.status == New then m.confirmed else again.confirmed
  }

  /** Rematching makes the "new" decisions again, keeps all others, and raises exactly
      when a query it needs does. */
  lemma RematchingDecides(p: BillProposal, reader: Reader)
    ensures CanRematch(p, reader) <==>
            && (p.supplierMatch.status == New ==> MatchSupplier(p.bill, reader).Some?)
            && forall i :: 0 <= i < |p.lineMatches| && i < |p.bill.lines| && p.lineMatches[i].status == New ==>
                 MatchLine(p.bill.lines[i], reader).Some?
    ensures CanRematch(p, reader) ==>
              var r := Rematched(p, reader);
              && r.bill == p.bill && |r.lineMatches| == |p.lineMatches|
              && (if p.supplierMatch.status == New then IsTicked(r.supplierMatch, p.supplierMatch, MatchSupplier(p.bill, reader).value)
                  else r.supplierMatch == p.supplierMatch)
              && forall i :: 0 <= i < |p.lineMatches| ==>
                   if i < |p.bill.lines| && p.lineMatches[i].status == New
                   then IsTicked(r.lineMatches[i], p.lineMatches[i], MatchLine(p.bill.lines[i], reader).value)
                   else r.lineMatches[i] == p.lineMatches[i]
  {
    hide MatchSupplier, MatchLine;
  }

  function Shorter(a: nat, b: nat): nat {
    if a < b then a else b
  }

  /** The lines that have a decision to go with them. */
  function Paired(p: BillProposal): (n: nat)
    ensures n <= |p.bill.lines| && n <= |p.lineMatches|
  {
    Shorter(|p.bill.lines|, |p.lineMatches|)
  }

  /** Every query a rematch needs answers. */
  predicate CanRematch(p: BillProposal, reader: Reader) {
    && RematchSupplier(p.supplierMatch, p.bill, reader).Some?
    && forall i :: 0 <= i < Paired(p) ==> RematchLine(p.lineMatches[i], p.bill.lines[i], reader).Some?
  }

  function Rematched(p: BillProposal, reader: Reader): BillProposal
    requires CanRematch(p, reader)
  {
    p.(supplierMatch := RematchSupplier(p.supplierMatch, p.bill, reader).value,
       lineMatches := seq(|p.lineMatches|, i requires 0 <= i < |p.lineMatches| =>
         if i < Paired(p) then RematchLine(p.lineMatches[i], p.bill.lines[i], reader).value else p.lineMatches[i]))
  }

  /** Nothing when a query raises, which leaves the stored proposal alone. */
  method Rematch(p: BillProposal, reader: Reader) returns (r: Option<BillProposal>)
    ensures r == if CanRematch(p, reader) then Some(Rematched(p, reader)) else None
  {
    var supplier := RematchSupplier(p.supplierMatch, p.bill, reader);
    if supplier.None? { return None; }
    var lineMatches := p.lineMatches;
    for i := 0 to Paired(p)
      invariant |lineMatches| == |p.lineMatches|
      invariant forall k :: 0 <= k < i ==> RematchLine(p.lineMatches[k], p.bill.lines[k], reader) == Some(lineMatches[k])
      invariant forall k :: i <= k < |lineMatches| ==> lineMatches[k] == p.lineMatches[k]
    {
      var line := RematchLine(p.lineMatches[i], p.bill.lines[i], reader);
      if line.None? { return None; }
      lineMatches := lineMatches[i := line.value];
    }
    r := Some(p.(supplierMatch := supplier.value, lineMatches := lineMatches));
    assert lineMatches == Rematched(p, reader).lineMatches;
  }

  // ---- columns from fields -------------------------------------------------

  /** Attributes the bill does not have read as missing. */
  function BillValue(bill: Bill, name: string): Option<string> {
    match name
    case "supplier_name" => Some(bill.supplierName)
    case "supplier_tax_id" => bill.supplierTaxId
    case "buyer_tax_id" => bill.buyerTaxId
    case "number" => bill.number
    case "issue_date" => bill.issueDate
    case "due_date" => bill.dueDate
    case "currency" => bill.currency
    case "net_total" => bill.netTotal
    case "vat_total" => bill.vatTotal
    case "gross_total" => bill.grossTotal
    case _ => None
  }

  function LineValue(line: BillLine, name: string): Option<string> {
    match name
    case "description" => Some(line.description)
    case "quantity" => line.quantity
    case "unit_price" => line.unitPrice
    case "vat_rate" => line.vatRate
    case "total" => line.total
    case _ => None
  }

  /** Every name reads the attribute it names, and no other. */
  lemma BillValueReads(bill: Bill, s: string, v: Option<string>, name: string)
    ensures BillValue(bill.(supplierName := s), name) == if name == "supplier_name" then Some(s) else BillValue(bill, name)
    ensures BillValue(bill.(supplierTaxId := v), name) == if name == "supplier_tax_id" then v else BillValue(bill, name)
    ensures BillValue(bill.(buyerTaxId := v), name) == if name == "buyer_tax_id" then v else BillValue(bill, name)
    ensures BillValue(bill.(number := v), name) == if name == "number" then v else BillValue(bill, name)
    ensures BillValue(bill.(issueDate := v), name) == if name == "issue_date" then v else BillValue(bill, name)
    ensures BillValue(bill.(dueDate := v), name) == if name == "due_date" then v else BillValue(bill, name)
    ensures BillValue(bill.(currency := v), name) == if name == "currency" then v else BillValue(bill, name)
    ensures BillValue(bill.(netTotal := v), name) == if name == "net_total" then v else BillValue(bill, name)
    ensures BillValue(bill.(vatTotal := v), name) == if name == "vat_total" then v else BillValue(bill, name)
    ensures BillValue(bill.(grossTotal := v), name) == if name == "gross_total" then v else BillValue(bill, name)
  {
  }

  lemma LineValueReads(line: BillLine, s: string, v: Option<string>, name: string)
    ensures LineValue(line.(description := s), name) == if name == "description" then Some(s) else LineValue(line, name)
    ensures LineValue(line.(quantity := v), name) == if name == "quantity" then v else LineValue(line, name)
    ensures LineValue(line.(unitPrice := v), name) == if name == "unit_price" then v else LineValue(line, name)
    ensures LineValue(line.(vatRate := v), name) == if name == "vat_rate" then v else LineValue(line, name)
    ensures LineValue(line.(total := v), name) == if name == "total" then v else LineValue(line, name)
  {
  }

  predicate IsMissing(field: FieldRule, value: Option<string>) {
    field.required && (value.None? || value.value == "")
  }

  function ColumnsFor(fields: seq<FieldRule>, value: string -> Option<string>): map<string, string> {
    if fields == [] then map[]
    else
      var rest, f := ColumnsFor(fields[..|fields| - 1], value), fields[|fields| - 1];
      if f.source.FromMatch? || value(f.source.name).None? || IsMissing(f, value(f.source.name)) then rest
      else rest[f.column := value(f.source.name).value]
  }

  function MissingFields(fields: seq<FieldRule>, value: string -> Option<string>): seq<string> {
    if fields == [] then []
    else
      var rest, f := MissingFields(fields[..|fields| - 1], value), fields[|fields| - 1];
      if !f.source.FromMatch? && IsMissing(f, value(f.source.name)) then rest + [f.name] else rest
  }

  /** Shared by the header and the lines: match columns are the executor's. */
  method BuildColumns(fields: seq<FieldRule>, value: string -> Option<string>)
    returns (columns: map<string, string>, missing: seq<string>)
    ensures columns == ColumnsFor(fields, value) && missing == MissingFields(fields, value)
  {
    columns, missing := map[], [];
    for i := 0 to |fields|
      invariant columns == ColumnsFor(fields[..i], value) && missing == MissingFields(fields[..i], value)
    {
      assert fields[..i + 1][..i] == fields[..i];
      var f := fields[i];
      if f.source.FromAttribute? {
        var val := value(f.source.name);
        if IsMissing(f, val) {
          missing := missing + [f.name];
        } else if val.Some? {
          columns := columns[f.column := val.value];
        }
      }
    }
    assert fields[..|fields|] == fields;
  }

  /** Built columns are always declared ones, and a required attribute that raised
      no objection is among them. */
  lemma {:induction false} BuiltColumnsAreDeclared(fields: seq<FieldRule>, value: string -> Option<string>)
    ensures ColumnsFor(fields, value).Keys <= Columns(fields)
    ensures MissingFields(fields, value) == [] ==>
              forall i :: 0 <= i < |fields| && fields[i].required && fields[i].source.FromAttribute? ==>
                fields[i].column in ColumnsFor(fields, value)
  {
    if fields != [] {
      var rest, f := fields[..|fields| - 1], fields[|fields| - 1];
      BuiltColumnsAreDeclared(rest, value);
      forall c | c in Columns(rest) ensures c in Columns(fields) {
        var i :| 0 <= i < |rest| && rest[i].column == c;
        assert fields[i].column == c;
      }
      assert f.column in Columns(fields);
    }
  }

  predicate HasValue(value: Option<string>) {
    value.Some? && value.value != ""
  }

  /** The field has something to write: an attribute that is not null, and not blank
      where one is required. */
  ghost predicate Writes(f: FieldRule, value: string -> Option<string>) {
    f.source.FromAttribute? && value(f.source.name).Some? && (f.required ==> value(f.source.name) != Some(""))
  }

  /** Field `i` has something to write, and no later one with its column does. */
  ghost predicate Decides(fields: seq<FieldRule>, value: string -> Option<string>, i: int) {
    && 0 <= i < |fields| && Writes(fields[i], value)
    && forall j :: i < j < |fields| && Writes(fields[j], value) ==> fields[j].column != fields[i].column
  }

  lemma DecidesStep(fields: seq<FieldRule>, value: string -> Option<string>, i: int)
    requires fields != []
    ensures var n := |fields| - 1;
            && (Decides(fields, value, n) <==> Writes(fields[n], value))
            && (i != n ==>
                  (Decides(fields, value, i) <==>
                   Decides(fields[..n], value, i) && !(Writes(fields[n], value) && fields[n].column == fields[i].column)))
  {
    hide Writes;
  }

  lemma ColumnsStep(fields: seq<FieldRule>, value: string -> Option<string>)
    requires fields != []
    ensures var n := |fields| - 1;
            ColumnsFor(fields, value) ==
            if Writes(fields[n], value) then ColumnsFor(fields[..n], value)[fields[n].column := value(fields[n].source.name).value]
            else ColumnsFor(fields[..n], value)
    ensures Writes(fields[|fields| - 1], value) ==> value(fields[|fields| - 1].source.name).Some?
  {
  }

  /** The columns are exactly those of the fields that have something to write, and each
      holds the value of the last of them. */
  lemma {:induction false} BuiltColumnsHoldValues(fields: seq<FieldRule>, value: string -> Option<string>)
    ensures forall c :: c in ColumnsFor(fields, value) ==> exists i :: Decides(fields, value, i) && fields[i].column == c
    ensures forall i :: Decides(fields, value, i) ==>
              var c := fields[i].column;
              c in ColumnsFor(fields, value) && Some(ColumnsFor(fields, value)[c]) == value(fields[i].source.name)
  {
    if fields != [] {
      hide ColumnsFor, Decides, Writes;
      var n := |fields| - 1;
      var rest, columns := fields[..n], ColumnsFor(fields, value);
      BuiltColumnsHoldValues(rest, value);
      ColumnsStep(fields, value);
      DecidesStep(fields, value, n);
      forall c | c in columns ensures exists i :: Decides(fields, value, i) && fields[i].column == c {
        if !(Writes(fields[n], value) && fields[n].column == c) {
          assert c in ColumnsFor(rest, value);
          var i :| Decides(rest, value, i) && rest[i].column == c;
          InRange(rest, value, i);
          DecidesStep(fields, value, i);
          assert Decides(fields, value, i) && fields[i].column == c;
        }
      }
      forall i | Decides(fields, value, i) && i != n ensures Decides(rest, value, i) && rest[i] == fields[i] {
        DecidesStep(fields, value, i);
        InRange(rest, value, i);
      }
    }
  }

  lemma InRange(fields: seq<FieldRule>, value: string -> Option<string>, i: int)
    ensures Decides(fields, value, i) ==> 0 <= i < |fields|
  {
  }

  /** The missing fields are exactly the required attributes without a value. */
  lemma {:induction false} NothingMissing(fields: seq<FieldRule>, value: string -> Option<string>)
    ensures MissingFields(fields, value) == [] <==>
            forall i :: 0 <= i < |fields| && fields[i].source.FromAttribute? && fields[i].required ==> HasValue(value(fields[i].source.name))
  {
    if fields != [] {
      var n := |fields| - 1;
      NothingMissing(fields[..n], value);
      forall i | 0 <= i < n ensures fields[..n][i] == fields[i] {}
    }
  }

  /** A field is named as missing exactly when it is a required attribute without a
      value. */
  lemma {:induction false} MissingAreNamed(fields: seq<FieldRule>, value: string -> Option<string>, name: string)
    ensures name in MissingFields(fields, value) <==>
            exists i :: 0 <= i < |fields| && fields[i].name == name
              && fields[i].source.FromAttribute? && fields[i].required && !HasValue(value(fields[i].source.name))
  {
    if fields != [] {
      var n := |fields| - 1;
      MissingAreNamed(fields[..n], value, name);
      forall i | 0 <= i < n ensures fields[..n][i] == fields[i] {}
      assert fields[n] == fields[|fields| - 1];
    }
  }

  // ---- what stage objects to -----------------------------------------------

  datatype Violation =
    | BadTaxId
    | LineCountDiffers
    | SupplierUnconfirmed
    | ArticleUnconfirmed(line: nat)
    | ArticleUnpicked(line: nat)
    | SupplierUnpicked
    | HeaderFieldMissing(name: string)
    | LineFieldMissing(line: nat, name: string)

  function MatchObjections(lineMatches: seq<MatchResult>): seq<Violation> {
    if lineMatches == [] then []
    else
      var n := |lineMatches| - 1;
      var m := lineMatches[n];
      MatchObjections(lineMatches[..n])
        + (if m.status == New && !m.confirmed then [ArticleUnconfirmed(n)] else [])
        + (if m.status == Ambiguous && m.chave.None? then [ArticleUnpicked(n)] else [])
  }

  function LineObjections(p: BillProposal, fields: seq<FieldRule>, n: nat): seq<Violation>
    requires n <= |p.bill.lines|
  {
    if n == 0 then []
    else
      var missing := MissingFields(fields, name => LineValue(p.bill.lines[n - 1], name));
      LineObjections(p, fields, n - 1) + seq(|missing|, k requires 0 <= k < |missing| => LineFieldMissing(n - 1, missing[k]))
  }

  function HeadObjections(p: BillProposal): seq<Violation> {
    (if PtNifIsValid(p.bill.supplierTaxId) == Some(false) then [BadTaxId] else [])
      + (if |p.bill.lines| != |p.lineMatches| then [LineCountDiffers] else [])
      + (if p.supplierMatch.status == New && !p.supplierMatch.confirmed then [SupplierUnconfirmed] else [])
  }

  function UnpickedSupplier(p: BillProposal): seq<Violation> {
    if p.supplierMatch.status == Ambiguous && p.supplierMatch.chave.None? then [SupplierUnpicked] else []
  }

  function HeaderObjections(p: BillProposal, rule: PurchaseRule): seq<Violation> {
    var missing := MissingFields(rule.headerFields, name => BillValue(p.bill, name));
    seq(|missing|, k requires 0 <= k < |missing| => HeaderFieldMissing(missing[k]))
  }

  function Violations(p: BillProposal, rule: PurchaseRule): seq<Violation> {
    HeadObjections(p) + MatchObjections(p.lineMatches) + UnpickedSupplier(p)
      + HeaderObjections(p, rule) + LineObjections(p, rule.lineFields, Paired(p))
  }

  /** Confirmed if it creates a record, picked if several match. */
  predicate IsSettled(m: MatchResult) {
    (m.status == New ==> m.confirmed) && (m.status == Ambiguous ==> m.chave.Some?)
  }

  /** What stage asks of a proposal, check by check. */
  ghost predicate Acceptable(p: BillProposal, rule: PurchaseRule) {
    && !IsBadNif(p.bill.supplierTaxId)
    && |p.bill.lines| == |p.lineMatches|
    && IsSettled(p.supplierMatch) && (forall i :: 0 <= i < |p.lineMatches| ==> IsSettled(p.lineMatches[i]))
    && HeaderComplete(p, rule) && (forall i :: 0 <= i < Paired(p) ==> LineComplete(p, rule, i))
  }

  ghost predicate HeaderComplete(p: BillProposal, rule: PurchaseRule) {
    forall f :: 0 <= f < |rule.headerFields| && rule.headerFields[f].source.FromAttribute? && rule.headerFields[f].required ==>
      HasValue(BillValue(p.bill, rule.headerFields[f].source.name))
  }

  ghost predicate LineComplete(p: BillProposal, rule: PurchaseRule, i: nat)
    requires i < |p.bill.lines|
  {
    forall f :: 0 <= f < |rule.lineFields| && rule.lineFields[f].source.FromAttribute? && rule.lineFields[f].required ==>
      HasValue(LineValue(p.bill.lines[i], rule.lineFields[f].source.name))
  }

  lemma {:induction false} MatchesAreSettled(lineMatches: seq<MatchResult>)
    ensures MatchObjections(lineMatches) == [] <==> forall i :: 0 <= i < |lineMatches| ==> IsSettled(lineMatches[i])
  {
    if lineMatches != [] {
      var n := |lineMatches| - 1;
      MatchesAreSettled(lineMatches[..n]);
      assert |MatchObjections(lineMatches)| == 0 <==> |MatchObjections(lineMatches[..n])| == 0 && IsSettled(lineMatches[n]);
    }
  }

  lemma {:induction false} LinesAreComplete(p: BillProposal, rule: PurchaseRule, n: nat)
    requires n <= |p.bill.lines|
    ensures LineObjections(p, rule.lineFields, n) == [] <==> forall i :: 0 <= i < n ==> LineComplete(p, rule, i)
  {
    hide LineValue, MissingFields;
    if n > 0 {
      LinesAreComplete(p, rule, n - 1);
      var missing := MissingFields(rule.lineFields, name => LineValue(p.bill.lines[n - 1], name));
      NothingMissing(rule.lineFields, name => LineValue(p.bill.lines[n - 1], name));
      assert |LineObjections(p, rule.lineFields, n)| == |LineObjections(p, rule.lineFields, n - 1)| + |missing|;
      assert missing == [] <==> LineComplete(p, rule, n - 1);
    }
  }

  lemma HeaderIsComplete(p: BillProposal, rule: PurchaseRule)
    ensures HeaderObjections(p, rule) == [] <==> HeaderComplete(p, rule)
  {
    hide BillValue, MissingFields;
    NothingMissing(rule.headerFields, name => BillValue(p.bill, name));
    assert |HeaderObjections(p, rule)| == |MissingFields(rule.headerFields, name => BillValue(p.bill, name))|;
  }

  /** Stage objects to nothing exactly when every check is met. */
  lemma StageAcceptsExactly(p: BillProposal, rule: PurchaseRule)
    ensures Violations(p, rule) == [] <==> Acceptable(p, rule)
  {
    hide MatchObjections, HeaderObjections, LineObjections, PtNifIsValid, IsBadNif, HeaderComplete, LineComplete;
    NifLaw(p.bill.supplierTaxId);
    MatchesAreSettled(p.lineMatches);
    HeaderIsComplete(p, rule);
    LinesAreComplete(p, rule, Paired(p));
    assert |Violations(p, rule)| == |HeadObjections(p)| + |MatchObjections(p.lineMatches)| + |UnpickedSupplier(p)|
                                    + |HeaderObjections(p, rule)| + |LineObjections(p, rule.lineFields, Paired(p))|;
    assert HeadObjections(p) == [] && UnpickedSupplier(p) == [] <==>
           PtNifIsValid(p.bill.supplierTaxId) != Some(false) && |p.bill.lines| == |p.lineMatches| && IsSettled(p.supplierMatch);
  }

  /** Each objection is raised exactly when there is reason to. */
  lemma ViolationsSay(p: BillProposal, rule: PurchaseRule, i: nat, name: string)
    ensures var found := Violations(p, rule);
            && (BadTaxId in found <==> IsBadNif(p.bill.supplierTaxId))
            && (LineCountDiffers in found <==> |p.bill.lines| != |p.lineMatches|)
            && (SupplierUnconfirmed in found <==> p.supplierMatch.status == New && !p.supplierMatch.confirmed)
            && (SupplierUnpicked in found <==> p.supplierMatch.status == Ambiguous && p.supplierMatch.chave.None?)
            && (ArticleUnconfirmed(i) in found <==> i < |p.lineMatches| && p.lineMatches[i].status == New && !p.lineMatches[i].confirmed)
            && (ArticleUnpicked(i) in found <==> i < |p.lineMatches| && p.lineMatches[i].status == Ambiguous && p.lineMatches[i].chave.None?)
            && (HeaderFieldMissing(name) in found <==> name in MissingFields(rule.headerFields, n => BillValue(p.bill, n)))
            && (LineFieldMissing(i, name) in found <==>
                  i < |p.bill.lines| && i < |p.lineMatches| && name in MissingFields(rule.lineFields, n => LineValue(p.bill.lines[i], n)))
  {
    hide Violations, IsBadNif, MissingFields, BillValue, LineValue, MatchObjections, LineObjections, HeaderObjections, HeadObjections,
         UnpickedSupplier;
    HeadObjectionsSay(p);
    MatchObjectionsSay(p.lineMatches, i);
    HeaderObjectionsSay(p, rule, name);
    LineObjectionsSay(p, rule.lineFields, Paired(p), i, name);
    ViolationParts(p, rule, BadTaxId);
    ViolationParts(p, rule, LineCountDiffers);
    ViolationParts(p, rule, SupplierUnconfirmed);
    ViolationParts(p, rule, SupplierUnpicked);
    ViolationParts(p, rule, ArticleUnconfirmed(i));
    ViolationParts(p, rule, ArticleUnpicked(i));
    ViolationParts(p, rule, HeaderFieldMissing(name));
    ViolationParts(p, rule, LineFieldMissing(i, name));
  }

  lemma ViolationParts(p: BillProposal, rule: PurchaseRule, v: Violation)
    ensures v in Violations(p, rule) <==>
            || v in HeadObjections(p) || v in MatchObjections(p.lineMatches) || v in UnpickedSupplier(p)
            || v in HeaderObjections(p, rule) || v in LineObjections(p, rule.lineFields, Paired(p))
  {
    hide HeadObjections, MatchObjections, UnpickedSupplier, HeaderObjections, LineObjections;
  }

  lemma HeadObjectionsSay(p: BillProposal)
    ensures var found, unpicked := HeadObjections(p), UnpickedSupplier(p);
            && (forall v :: v in found ==> v == BadTaxId || v == LineCountDiffers || v == SupplierUnconfirmed)
            && (forall v :: v in unpicked ==> v == SupplierUnpicked)
            && (BadTaxId in found <==> IsBadNif(p.bill.supplierTaxId))
            && (LineCountDiffers in found <==> |p.bill.lines| != |p.lineMatches|)
            && (SupplierUnconfirmed in found <==> p.supplierMatch.status == New && !p.supplierMatch.confirmed)
            && (SupplierUnpicked in unpicked <==> p.supplierMatch.status == Ambiguous && p.supplierMatch.chave.None?)
  {
    hide PtNifIsValid, IsBadNif;
    NifLaw(p.bill.supplierTaxId);
  }

  lemma {:induction false} MatchObjectionsSay(lineMatches: seq<MatchResult>, i: nat)
    ensures var found := MatchObjections(lineMatches);
            && (forall v :: v in found ==> v.ArticleUnconfirmed? || v.ArticleUnpicked?)
            && (ArticleUnconfirmed(i) in found <==> i < |lineMatches| && lineMatches[i].status == New && !lineMatches[i].confirmed)
            && (ArticleUnpicked(i) in found <==> i < |lineMatches| && lineMatches[i].status == Ambiguous && lineMatches[i].chave.None?)
  {
    if lineMatches != [] {
      var n := |lineMatches| - 1;
      MatchObjectionsSay(lineMatches[..n], i);
      var unconfirmed := if lineMatches[n].status == New && !lineMatches[n].confirmed then [ArticleUnconfirmed(n)] else [];
      var unpicked := if lineMatches[n].status == Ambiguous && lineMatches[n].chave.None? then [ArticleUnpicked(n)] else [];
      assert MatchObjections(lineMatches) == MatchObjections(lineMatches[..n]) + unconfirmed + unpicked;
    }
  }

  lemma HeaderObjectionsSay(p: BillProposal, rule: PurchaseRule, name: string)
    ensures var found := HeaderObjections(p, rule);
            && (forall v :: v in found ==> v.HeaderFieldMissing?)
            && (HeaderFieldMissing(name) in found <==> name in MissingFields(rule.headerFields, n => BillValue(p.bill, n)))
  {
    hide MissingFields, BillValue;
    var missing := MissingFields(rule.headerFields, n => BillValue(p.bill, n));
    var found := HeaderObjections(p, rule);
    assert |found| == |missing| && forall k :: 0 <= k < |found| ==> found[k] == HeaderFieldMissing(missing[k]);
    if name in missing {
      var k :| 0 <= k < |missing| && missing[k] == name;
      assert found[k] == HeaderFieldMissing(name);
    }
  }

  lemma {:induction false} LineObjectionsSay(p: BillProposal, fields: seq<FieldRule>, n: nat, i: nat, name: string)
    requires n <= |p.bill.lines|
    ensures var found := LineObjections(p, fields, n);
            && (forall v :: v in found ==> v.LineFieldMissing?)
            && (LineFieldMissing(i, name) in found <==> i < n && name in MissingFields(fields, m => LineValue(p.bill.lines[i], m)))
  {
    hide MissingFields, LineValue;
    if n > 0 {
      LineObjectionsSay(p, fields, n - 1, i, name);
      var missing := MissingFields(fields, m => LineValue(p.bill.lines[n - 1], m));
      var before, found := LineObjections(p, fields, n - 1), LineObjections(p, fields, n);
      var added := seq(|missing|, k requires 0 <= k < |missing| => LineFieldMissing(n - 1, missing[k]));
      assert found == before + added;
      assert forall k :: 0 <= k < |added| ==> added[k] == LineFieldMissing(n - 1, missing[k]);
      if i == n - 1 && name in missing {
        var k :| 0 <= k < |missing| && missing[k] == name;
        assert added[k] == LineFieldMissing(i, name);
      }
    }
  }

  function PlanOf(id: string, p: BillProposal, rule: PurchaseRule): WritePlan {
    WritePlan(id, p.supplierMatch, ColumnsFor(rule.headerFields, name => BillValue(p.bill, name)),
              seq(Paired(p), i requires 0 <= i < Paired(p) =>
                LinePlan(p.lineMatches[i], ColumnsFor(rule.lineFields, name => LineValue(p.bill.lines[i], name)))))
  }

  // ---- stage and executor agree --------------------------------------------

  /** A decision the executor can act on once it has been confirmed. */
  predicate Decided(m: MatchResult) {
    m.status == New || (m.status == Matched && m.chave.Some?)
  }

  predicate AllDecided(plan: WritePlan) {
    Decided(plan.supplier) && forall k :: 0 <= k < |plan.lines| ==> Decided(plan.lines[k].article)
  }

  /** The rule lets the executor write what matching proposes. */
  predicate ProposalsAllowed(rule: PurchaseRule) {
    {"Nome", "NCont"} <= rule.supplier.createColumns && "Nome" in rule.article.createColumns
  }

  lemma {:induction false} NoMatchObjections(lineMatches: seq<MatchResult>)
    requires MatchObjections(lineMatches) == []
    ensures forall i :: 0 <= i < |lineMatches| ==> lineMatches[i].status == New ==> lineMatches[i].confirmed
  {
    if lineMatches != [] { NoMatchObjections(lineMatches[..|lineMatches| - 1]); }
  }

  lemma AcceptedParts(p: BillProposal, rule: PurchaseRule)
    requires Violations(p, rule) == []
    ensures !IsBadNif(p.bill.supplierTaxId)
    ensures |p.bill.lines| == |p.lineMatches| == Paired(p)
    ensures p.supplierMatch.status == New ==> p.supplierMatch.confirmed
    ensures MatchObjections(p.lineMatches) == []
  {
    hide MatchObjections, HeaderObjections, LineObjections, PtNifIsValid, IsBadNif;
    NifLaw(p.bill.supplierTaxId);
    assert |HeadObjections(p)| == 0 && |MatchObjections(p.lineMatches)| == 0;
  }

  /** What a rematched "new" decision proposes comes from the edited bill. */
  lemma RematchedIsFresh(p: BillProposal, reader: Reader)
    requires CanRematch(p, reader)
    ensures var r := Rematched(p, reader);
            && r.bill == p.bill && |r.lineMatches| == |p.lineMatches|
            && (r.supplierMatch.status == New ==> r.supplierMatch.proposedNew == Some(SupplierProposal(p.bill)))
            && (forall i :: 0 <= i < Paired(p) && r.lineMatches[i].status == New ==>
                  r.lineMatches[i].proposedNew == Some(LineProposal(p.bill.lines[i])))
  {
  }

  /** Main result: a plan that stage accepts passes every column whitelist, and the
      executor resolves all of it exactly when each decision is "new" or "matched"
      with a key; a "new" supplier is written with the edited name and tax number,
      and that number never has a wrong check digit. */
  lemma AcceptedPlansCanBeWritten(id: string, edited: BillProposal, rule: PurchaseRule, reader: Reader)
    requires CanRematch(edited, reader) && Violations(Rematched(edited, reader), rule) == [] && ProposalsAllowed(rule)
    ensures var plan := PlanOf(id, Rematched(edited, reader), rule);
            && Writable(plan, rule)
            && (AllResolvable(plan) <==> AllDecided(plan))
            && |plan.lines| == |edited.bill.lines|
            && (plan.supplier.status == New ==>
                  plan.supplier.proposedNew == Some(map["Nome" := Some(edited.bill.supplierName), "NCont" := edited.bill.supplierTaxId])
                  && !IsBadNif(edited.bill.supplierTaxId))
            && (forall k :: 0 <= k < |plan.lines| && plan.lines[k].article.status == New ==>
                  plan.lines[k].article.proposedNew == Some(map["Nome" := Some(edited.bill.lines[k].description)]))
  {
    hide Violations, ColumnsFor, MatchObjections, IsBadNif, Rematched, Columns;
    var r := Rematched(edited, reader);
    var plan := PlanOf(id, r, rule);
    AcceptedParts(r, rule);
    RematchedIsFresh(edited, reader);
    NoMatchObjections(r.lineMatches);
    BuiltColumnsAreDeclared(rule.headerFields, name => BillValue(r.bill, name));
    forall k | 0 <= k < |plan.lines|
      ensures plan.lines[k].columns.Keys <= Columns(rule.lineFields)
      ensures ProposedAllowed(plan.lines[k].article, rule.article)
      ensures Resolvable(plan.lines[k].article) <==> Decided(plan.lines[k].article)
    {
      BuiltColumnsAreDeclared(rule.lineFields, name => LineValue(r.bill.lines[k], name));
    }
  }

  /** The plan is the bill: its id, its decisions, and in each column of the header and
      of every line the attribute that some field takes there. */
  lemma PlanHoldsBill(id: string, p: BillProposal, rule: PurchaseRule)
    ensures var plan := PlanOf(id, p, rule);
            && plan.proposalId == id && plan.supplier == p.supplierMatch
            && |plan.lines| == (if |p.bill.lines| < |p.lineMatches| then |p.bill.lines| else |p.lineMatches|)
            && HoldsFields(plan.header, rule.headerFields, n => BillValue(p.bill, n))
            && forall k :: 0 <= k < |plan.lines| ==>
                 plan.lines[k].article == p.lineMatches[k]
                 && HoldsFields(plan.lines[k].columns, rule.lineFields, n => LineValue(p.bill.lines[k], n))
  {
    hide ColumnsFor, BillValue, LineValue;
    BuiltColumnsHoldValues(rule.headerFields, n => BillValue(p.bill, n));
    forall k | 0 <= k < Paired(p)
      ensures HoldsFields(ColumnsFor(rule.lineFields, n => LineValue(p.bill.lines[k], n)), rule.lineFields, n => LineValue(p.bill.lines[k], n))
    {
      BuiltColumnsHoldValues(rule.lineFields, n => LineValue(p.bill.lines[k], n));
    }
  }

  /** The columns of the fields that have something to write, with what they write. */
  ghost predicate HoldsFields(columns: map<string, string>, fields: seq<FieldRule>, value: string -> Option<string>) {
    && (forall c :: c in columns ==> exists i :: Decides(fields, value, i) && fields[i].column == c)
    && (forall i :: Decides(fields, value, i) ==>
          fields[i].column in columns && Some(columns[fields[i].column]) == value(fields[i].source.name))
  }

  // ---- the pending store ---------------------------------------------------

  datatype Item = StagedProposal(proposal: BillProposal) | StagedPlan(plan: WritePlan)

  const PLAN_SUFFIX := ":plan"

  function PlanKey(id: string): string {
    id + PLAN_SUFFIX
  }

  predicate IsPlanId(id: string) {
    |id| >= |PLAN_SUFFIX| && id[|id| - |PLAN_SUFFIX|..] == PLAN_SUFFIX
  }

  lemma PlanIdSays(id: string)
    ensures IsPlanId(id) <==> exists base: string :: id == base + ":plan"
  {
    if IsPlanId(id) { assert id == id[..|id| - 5] + ":plan"; }
    if base: string :| id == base + ":plan" { assert id[|base|..] == ":plan"; }
  }

  lemma PlanKeyFacts(a: string, b: string)
    ensures IsPlanId(PlanKey(a))
    ensures PlanKey(a) == PlanKey(b) <==> a == b
  {
    assert PlanKey(a)[..|a|] == a;
    assert PlanKey(b)[..|b|] == b;
  }

  /** The calls made of the service, oldest first: a stage call that returned ok with
      its plan, one that left no plan, or one that raised after storing its plan. */
  datatype Call =
    | Uploaded(id: string)
    | StagedOk(id: string, plan: WritePlan)
    | StagedNothing(id: string)
    | StageRaised(id: string, plan: WritePlan)
    | CommitTried(id: string)

  /** What a stage call leaves to commit. */
  function PlanLeft(call: Call): Option<WritePlan> {
    match call
    case StagedOk(_, plan) => Some(plan)
    case StageRaised(_, plan) => Some(plan)
    case _ => None
  }

  function Latest(calls: seq<Call>, id: string): Option<Call> {
    if calls == [] then None
    else
      var last := calls[|calls| - 1];
      if last.id != id || last.Uploaded? then Latest(calls[..|calls| - 1], id) else Some(last)
  }

  /** The plan a commit of `id` would find: the one the latest stage or commit call for
      it left. */
  function Armed(calls: seq<Call>, id: string): Option<WritePlan> {
    match Latest(calls, id)
    case None => None
    case Some(call) => PlanLeft(call)
  }

  /** The plan a commit of `id` should find: the one the latest stage call returned ok
      for, if no commit has come since. */
  function Promised(calls: seq<Call>, id: string): Option<WritePlan> {
    match Latest(calls, id)
    case Some(StagedOk(_, plan)) => Some(plan)
    case _ => None
  }

  /** What a commit finds is what a stage call returned ok for, except exactly when the
      latest one raised after storing its plan. */
  lemma ArmedIsPromisedUnlessRaised(calls: seq<Call>, id: string)
    ensures Armed(calls, id) == Promised(calls, id) <==> !(Latest(calls, id).Some? && Latest(calls, id).value.StageRaised?)
  {
  }

  /** No id in use ends in the suffix that marks plans. */
  ghost predicate PlainIds(calls: seq<Call>) {
    forall i :: 0 <= i < |calls| ==> !IsPlanId(calls[i].id)
  }

  ghost predicate HoldsArmed(pending: map<string, Item>, calls: seq<Call>, id: string) {
    match Armed(calls, id)
    case None => PlanKey(id) !in pending
    case Some(plan) => PlanKey(id) in pending && pending[PlanKey(id)] == StagedPlan(plan)
  }

  /** As long as ids and plan keys are kept apart, the store holds exactly the
      armed plans. */
  ghost predicate Coupled(pending: map<string, Item>, calls: seq<Call>) {
    PlainIds(calls) ==> forall id :: HoldsArmed(pending, calls, id)
  }

  lemma ArmedStep(calls: seq<Call>, call: Call, id: string)
    ensures Armed(calls + [call], id) == if call.id != id || call.Uploaded? then Armed(calls, id) else PlanLeft(call)
  {
    assert (calls + [call])[..|calls|] == calls;
  }

  lemma PlainStep(calls: seq<Call>, call: Call)
    requires PlainIds(calls + [call])
    ensures PlainIds(calls) && !IsPlanId(call.id)
  {
    var more := calls + [call];
    assert more[|calls|] == call;
    assert forall i :: 0 <= i < |calls| ==> more[i] == calls[i];
  }

  /** Storing a proposal does not touch any plan. */
  lemma UploadCoupled(pending: map<string, Item>, calls: seq<Call>, id: string, item: Item)
    requires Coupled(pending, calls)
    ensures Coupled(pending[id := item], calls + [Uploaded(id)])
  {
    var after, call := pending[id := item], Uploaded(id);
    if PlainIds(calls + [call]) {
      PlainStep(calls, call);
      forall other ensures HoldsArmed(after, calls + [call], other) {
        assert HoldsArmed(pending, calls, other);
        ArmedStep(calls, call, other);
        PlanKeyFacts(other, other);
      }
    }
  }

  /** A stage call first clears the plan, then keeps the edits, then stores a plan. */
  function StagedItems(pending: map<string, Item>, id: string, edits: Option<Item>, left: Option<WritePlan>): map<string, Item> {
    var cleared := pending - {PlanKey(id)};
    var kept := if edits.Some? then cleared[id := edits.value] else cleared;
    if left.Some? then kept[PlanKey(id) := StagedPlan(left.value)] else kept
  }

  /** Whatever way a stage call goes, the store stays in step with what it left. */
  lemma StageCoupled(pending: map<string, Item>, calls: seq<Call>, call: Call, edits: Option<Item>)
    requires Coupled(pending, calls) && (call.StagedOk? || call.StagedNothing? || call.StageRaised?)
    ensures Coupled(StagedItems(pending, call.id, edits, PlanLeft(call)), calls + [call])
  {
    var after := StagedItems(pending, call.id, edits, PlanLeft(call));
    if PlainIds(calls + [call]) {
      PlainStep(calls, call);
      forall other ensures HoldsArmed(after, calls + [call], other) {
        assert HoldsArmed(pending, calls, other);
        ArmedStep(calls, call, other);
        PlanKeyFacts(other, call.id);
      }
    }
  }

  lemma CommitCoupled(pending: map<string, Item>, calls: seq<Call>, id: string, done: bool)
    requires Coupled(pending, calls)
    ensures Coupled(if done then pending - {PlanKey(id)} - {id} else pending - {PlanKey(id)}, calls + [CommitTried(id)])
  {
    var after := if done then pending - {PlanKey(id)} - {id} else pending - {PlanKey(id)};
    var call := CommitTried(id);
    if PlainIds(calls + [call]) {
      PlainStep(calls, call);
      forall other ensures HoldsArmed(after, calls + [call], other) {
        assert HoldsArmed(pending, calls, other);
        ArmedStep(calls, call, other);
        PlanKeyFacts(other, id);
      }
    }
  }

  // ---- the service ---------------------------------------------------------

  predicate HasNumber(bill: Bill) {
    bill.number.Some? && bill.number.value != ""
  }

  /** Whether a document with the bill's own number is already there; nothing when the
      query raises, and no query without a number. */
  function IsDuplicate(bill: Bill, reader: Reader): Option<bool> {
    if !HasNumber(bill) then Some(false)
    else
      match reader.documentsByRef(bill.number.value)
      case None => None
      case Some(rows) => Some(rows != [])
  }

  datatype StageResult = Accepted(plan: WritePlan, duplicate: bool) | Objected(violations: seq<Violation>) | Malformed | Raised

  /** What a stage call answers. */
  function StageReply(id: string, edited: Option<BillProposal>, rule: PurchaseRule, reader: Reader): StageResult {
    if edited.None? then Malformed
    else if !CanRematch(edited.value, reader) then Raised
    else
      var p := Rematched(edited.value, reader);
      if Violations(p, rule) != [] then Objected(Violations(p, rule))
      else
        match IsDuplicate(p.bill, reader)
        case None => Raised
        case Some(duplicate) => Accepted(PlanOf(id, p, rule), duplicate)
  }

  /** The proposal a stage call keeps. */
  function Edits(edited: Option<BillProposal>, reader: Reader): Option<Item> {
    if edited.None? || !CanRematch(edited.value, reader) then None else Some(StagedProposal(Rematched(edited.value, reader)))
  }

  /** The proposal is kept as edited and rematched, whatever is objected to. */
  lemma EditsAreKept(edited: BillProposal, reader: Reader)
    ensures Edits(None, reader) == None
    ensures Edits(Some(edited), reader) == if CanRematch(edited, reader) then Some(StagedProposal(Rematched(edited, reader))) else None
  {
  }

  /** The stage call as it goes down in the history. */
  function StageCall(id: string, edited: Option<BillProposal>, rule: PurchaseRule, reader: Reader): Call {
    if edited.None? || !CanRematch(edited.value, reader) then StagedNothing(id)
    else
      var p := Rematched(edited.value, reader);
      if Violations(p, rule) != [] then StagedNothing(id)
      else if IsDuplicate(p.bill, reader).None? then StageRaised(id, PlanOf(id, p, rule))
      else StagedOk(id, PlanOf(id, p, rule))
  }

  /** Main result on one stage call: it returns ok exactly when it is logged so; and
      when it does not, it still leaves a plan to commit exactly when the proposal is
      acceptable, has a number, and the query for duplicates raises. */
  lemma RefusedStageLeavesPlanExactlyWhen(id: string, edited: Option<BillProposal>, rule: PurchaseRule, reader: Reader)
    ensures var reply, call := StageReply(id, edited, rule, reader), StageCall(id, edited, rule, reader);
            && (reply.Accepted? <==> call.StagedOk?) && (reply.Accepted? ==> PlanLeft(call) == Some(reply.plan))
            && (PlanLeft(call).Some? ==> PlanLeft(call) == Some(PlanOf(id, Rematched(edited.value, reader), rule)))
            && (reply.Malformed? <==> edited.None?)
            && (reply.Objected? <==>
                  edited.Some? && CanRematch(edited.value, reader) && !Acceptable(Rematched(edited.value, reader), rule))
            && (reply.Objected? ==> reply.violations == Violations(Rematched(edited.value, reader), rule))
            && (!reply.Accepted? ==>
                  (PlanLeft(call).Some? <==>
                   && edited.Some? && CanRematch(edited.value, reader) && Acceptable(Rematched(edited.value, reader), rule)
                   && edited.value.bill.number.Some? && edited.value.bill.number.value != ""
                   && reader.documentsByRef(edited.value.bill.number.value).None?))
            && (reply.Accepted? ==>
                  (reply.duplicate <==>
                   && edited.value.bill.number.Some? && edited.value.bill.number.value != ""
                   && reader.documentsByRef(edited.value.bill.number.value).Some?
                   && reader.documentsByRef(edited.value.bill.number.value).value != []))
  {
    hide Violations, Acceptable, PlanOf;
    if edited.Some? && CanRematch(edited.value, reader) {
      StageAcceptsExactly(Rematched(edited.value, reader), rule);
    }
  }

  datatype CommitResult = NothingStaged | Wrote(result: WriteResult) | WriteRefused(error: WriteError) | Crashed

  /** A tax number with a wrong check digit is taken off the bill. */
  ghost function Cleared(bill: Bill): Bill {
    if IsBadNif(bill.supplierTaxId) then bill.(supplierTaxId := None) else bill
  }

  class PendingProposalStore {
    var items: map<string, Item>

    constructor ()
      ensures items == map[]
    {
      items := map[];
    }

    method Put(key: string, value: Item)
      modifies this
      ensures items == old(items)[key := value]
    {
      items := items[key := value];
    }

    /** Takes the item out, if there is one. */
    method Pop(key: string) returns (r: Option<Item>)
      modifies this
      ensures r == if key in old(items) then Some(old(items)[key]) else None
      ensures items == old(items) - {key}
    {
      r := if key in items then Some(items[key]) else None;
      items := items - {key};
    }
  }

  class BillService {
    const rule: PurchaseRule
    const executor: BillWriteExecutor
    const store: PendingProposalStore
    ghost var calls: seq<Call>

    ghost predicate Valid()
      reads this, store
    {
      Coupled(store.items, calls)
    }

    constructor (rule: PurchaseRule, executor: BillWriteExecutor)
      ensures Valid() && this.rule == rule && this.executor == executor && calls == [] && fresh(store) && store.items == map[]
    {
      var proposals := new PendingProposalStore();
      this.rule, this.executor, this.store, this.calls := rule, executor, proposals, [];
    }

    /** A bill just extracted: a tax number with a wrong check digit is cleared
        before anything is matched on it. Nothing is stored when a query raises. */
    method Upload(freshId: string, extracted: Bill, reader: Reader) returns (r: Option<BillProposal>)
      requires Valid()
      modifies this, store
      ensures Valid()
      ensures r.None? ==> calls == old(calls) && store.items == old(store.items)
      ensures r.Some? ==> calls == old(calls) + [Uploaded(freshId)] && store.items == old(store.items)[freshId := StagedProposal(r.value)]
      ensures var bill := Cleared(extracted);
              r.Some? <==> MatchSupplier(bill, reader).Some? && forall i :: 0 <= i < |bill.lines| ==> MatchLine(bill.lines[i], reader).Some?
      ensures r.Some? ==>
                var p, bill := r.value, Cleared(extracted);
                && p.bill == bill && !IsBadNif(bill.supplierTaxId)
                && MatchSupplier(bill, reader) == Some(p.supplierMatch) && |p.lineMatches| == |bill.lines|
                && forall i :: 0 <= i < |bill.lines| ==> MatchLine(bill.lines[i], reader) == Some(p.lineMatches[i])
    {
      hide PtNifIsValid, IsBadNif, Coupled;
      var bill := extracted;
      NifLaw(extracted.supplierTaxId);
      MissingIsNotBad();
      if PtNifIsValid(bill.supplierTaxId) == Some(false) { bill := bill.(supplierTaxId := None); }
      var supplier := MatchSupplier(bill, reader);
      if supplier.None? { return None; }
      var lineMatches: seq<MatchResult> := [];
      for i := 0 to |bill.lines|
        invariant |lineMatches| == i && forall k :: 0 <= k < i ==> MatchLine(bill.lines[k], reader) == Some(lineMatches[k])
      {
        var line := MatchLine(bill.lines[i], reader);
        if line.None? { return None; }
        lineMatches := lineMatches + [line.value];
      }
      var p := BillProposal(bill, supplier.value, lineMatches);
      UploadCoupled(store.items, calls, freshId, StagedProposal(p));
      store.Put(freshId, StagedProposal(p));
      calls := calls + [Uploaded(freshId)];
      return Some(p);
    }

    /** `edited` is what the operator posts, or nothing when it does not validate. */
    method Stage(id: string, edited: Option<BillProposal>, reader: Reader) returns (r: StageResult)
      requires Valid()
      modifies this, store
      ensures Valid()
      ensures r == StageReply(id, edited, rule, reader)
      ensures calls == old(calls) + [StageCall(id, edited, rule, reader)]
      ensures store.items == StagedItems(old(store.items), id, Edits(edited, reader), PlanLeft(StageCall(id, edited, rule, reader)))
    {
      hide Coupled, Violations, Rematched, PlanOf, CanRematch;
      StageCoupled(store.items, calls, StageCall(id, edited, rule, reader), Edits(edited, reader));
      calls := calls + [StageCall(id, edited, rule, reader)];
      var _ := store.Pop(PlanKey(id));
      if edited.None? { return Malformed; }
      var p := Rematch(edited.value, reader);
      if p.None? { return Raised; }
      store.Put(id, StagedProposal(p.value));
      var violations, plan := Review(id, p.value);
      if violations != [] { return Objected(violations); }
      store.Put(PlanKey(id), StagedPlan(plan));
      var duplicate := IsDuplicate(p.value.bill, reader);
      if duplicate.None? { return Raised; }
      return Accepted(plan, duplicate.value);
    }

    /** The checks of a stage call, and the plan it would write. */
    method Review(id: string, p: BillProposal) returns (violations: seq<Violation>, plan: WritePlan)
      ensures violations == Violations(p, rule) && plan == PlanOf(id, p, rule)
    {
      hide ColumnsFor, MissingFields, PtNifIsValid, HeadObjections, MatchObjections;
      violations := ReviewHead(p);
      var objections := ReviewMatches(p.lineMatches);
      violations := violations + objections;
      if p.supplierMatch.status == Ambiguous && p.supplierMatch.chave.None? { violations := violations + [SupplierUnpicked]; }
      assert violations == HeadObjections(p) + MatchObjections(p.lineMatches) + UnpickedSupplier(p);
      var header, missing := BuildColumns(rule.headerFields, name => BillValue(p.bill, name));
      violations := violations + seq(|missing|, k requires 0 <= k < |missing| => HeaderFieldMissing(missing[k]));
      ghost var soFar := violations;
      var lines: seq<LinePlan> := [];
      for i := 0 to Paired(p)
        invariant |lines| == i && forall k :: 0 <= k < i ==>
                    lines[k] == LinePlan(p.lineMatches[k], ColumnsFor(rule.lineFields, name => LineValue(p.bill.lines[k], name)))
        invariant violations == soFar + LineObjections(p, rule.lineFields, i)
      {
        var columns;
        columns, missing := BuildColumns(rule.lineFields, name => LineValue(p.bill.lines[i], name));
        violations := violations + seq(|missing|, k requires 0 <= k < |missing| => LineFieldMissing(i, missing[k]));
        lines := lines + [LinePlan(p.lineMatches[i], columns)];
      }
      plan := WritePlan(id, p.supplierMatch, header, lines);
      assert lines == PlanOf(id, p, rule).lines;
    }

    method ReviewHead(p: BillProposal) returns (objections: seq<Violation>)
      ensures objections == HeadObjections(p)
    {
      hide PtNifIsValid;
      objections := [];
      if PtNifIsValid(p.bill.supplierTaxId) == Some(false) { objections := objections + [BadTaxId]; }
      if |p.bill.lines| != |p.lineMatches| { objections := objections + [LineCountDiffers]; }
      if p.supplierMatch.status == New && !p.supplierMatch.confirmed { objections := objections + [SupplierUnconfirmed]; }
    }

    method ReviewMatches(lineMatches: seq<MatchResult>) returns (objections: seq<Violation>)
      ensures objections == MatchObjections(lineMatches)
    {
      objections := [];
      for i := 0 to |lineMatches|
        invariant objections == MatchObjections(lineMatches[..i])
      {
        assert lineMatches[..i + 1][..i] == lineMatches[..i];
        var m := lineMatches[i];
        if m.status == New && !m.confirmed { objections := objections + [ArticleUnconfirmed(i)]; }
        if m.status == Ambiguous && m.chave.None? { objections := objections + [ArticleUnpicked(i)]; }
      }
      assert lineMatches[..|lineMatches|] == lineMatches;
    }

    /** Execute the plan in the store, once. With ids and plan keys kept apart, that is
        the one the latest stage call for the id left, if no commit came since;
        otherwise the database is not touched. It is the plan a stage call returned ok
        for unless the latest one raised. A proposal stored under a plan key makes the
        commit crash. */
    method Commit(id: string, operator: string, now: string, fails: nat -> bool, commitFails: bool, auditReachable: bool)
      returns (r: CommitResult, ghost executed: Option<WritePlan>)
      requires Valid()
      modifies this, store, executor
      ensures Valid() && calls == old(calls) + [CommitTried(id)]
      ensures PlainIds(old(calls)) ==> executed == Armed(old(calls), id) && !r.Crashed?
      ensures PlainIds(old(calls)) ==>
                (executed == Promised(old(calls), id) <==>
                 !(Latest(old(calls), id).Some? && Latest(old(calls), id).value.StageRaised?))
      ensures executed.None? <==> r.NothingStaged? || r.Crashed?
      ensures executed.Some? ==>
                (r.Wrote? <==> CanWrite(old(executor.db), executed.value, rule) && !commitFails
                               && NoneFail(fails, 0, PlanStatements(executed.value)))
      ensures r.WriteRefused? && r.error.StatementFailed? ==> exists n :: fails(n)
      ensures r.WriteRefused? && r.error.CommitFailed? ==> commitFails
      ensures r.WriteRefused? && !r.error.StatementFailed? && !r.error.CommitFailed? ==> !CanWrite(old(executor.db), executed.value, rule)
      ensures executed.None? ==> executor.db == old(executor.db)
      ensures r.Wrote? ==> CanWrite(old(executor.db), executed.value, rule)
                           && IsWrite(old(executor.db), executor.db, executed.value, rule, operator, now, executor.operatorKey, r.result)
      ensures r.WriteRefused? ==>
                var row := AuditRow(operator, executed.value.proposalId, WriteFailed, None);
                executor.db == if auditReachable then old(executor.db).(audit := old(executor.db).audit + [row]) else old(executor.db)
      ensures store.items == if r.Wrote? then old(store.items) - {PlanKey(id)} - {id} else old(store.items) - {PlanKey(id)}
      ensures r.Crashed? <==> PlanKey(id) in old(store.items) && old(store.items)[PlanKey(id)].StagedProposal?
    {
      hide Coupled, IsWrite, CanWrite, PlanStatements, NoneFail;
      if PlainIds(calls) { CoupledAt(store.items, calls, id); }
      ArmedIsPromisedUnlessRaised(calls, id);
      CommitCoupled(store.items, calls, id, false);
      CommitCoupled(store.items, calls, id, true);
      calls := calls + [CommitTried(id)];
      var popped := store.Pop(PlanKey(id));
      if popped.None? { return NothingStaged, None; }
      var item := popped.value;
      if item.StagedProposal? { return Crashed, None; }
      executed := Some(item.plan);
      var written := executor.Execute(item.plan, rule, operator, now, fails, commitFails);
      if written.Err? {
        executor.RecordFailure(operator, item.plan.proposalId, auditReachable);
        return WriteRefused(written.error), executed;
      }
      var _ := store.Pop(id);
      return Wrote(written.value), executed;
    }
  }

  lemma MissingIsNotBad()
    ensures !IsBadNif(None)
  {
  }

  lemma CoupledAt(pending: map<string, Item>, calls: seq<Call>, id: string)
    requires Coupled(pending, calls) && PlainIds(calls)
    ensures HoldsArmed(pending, calls, id)
  {
  }

  // ---- over every interleaving ---------------------------------------------

  /** Call `c` is a commit that finds a plan. */
  predicate Executes(calls: seq<Call>, c: nat)
    requires c < |calls|
  {
    calls[c].CommitTried? && Armed(calls[..c], calls[c].id).Some?
  }

  /** The stage call whose plan is armed: the latest one, and it returned ok or raised. */
  lemma {:induction false} ArmingStage(calls: seq<Call>, id: string) returns (s: nat)
    requires Armed(calls, id).Some?
    ensures s < |calls| && calls[s].id == id && Some(calls[s]) == Latest(calls, id) && PlanLeft(calls[s]) == Armed(calls, id)
    ensures calls[s].StagedOk? || calls[s].StageRaised?
    ensures calls[s].StagedOk? <==> Armed(calls, id) == Promised(calls, id)
    ensures forall j :: s < j < |calls| && calls[j].id == id ==> calls[j].Uploaded?
  {
    var n := |calls| - 1;
    if calls[n].id != id || calls[n].Uploaded? {
      s := ArmingStage(calls[..n], id);
    } else {
      s := n;
    }
  }

  /** Main result on interleavings: a commit that executes has a stage call of the same
      id before it that left the plan, with no stage or commit of that id in between,
      and two commits never share one: each plan left is executed at most once, and a
      call that left none never leads to a write. */
  lemma ExecutedOnce(calls: seq<Call>, c: nat, d: nat) returns (s: nat, t: nat)
    requires c < d < |calls| && Executes(calls, c) && Executes(calls, d)
    ensures s < c && calls[s].id == calls[c].id && PlanLeft(calls[s]) == Armed(calls[..c], calls[c].id)
    ensures t < d && calls[t].id == calls[d].id && PlanLeft(calls[t]) == Armed(calls[..d], calls[d].id)
    ensures forall j :: s < j < c && calls[j].id == calls[c].id ==> calls[j].Uploaded?
    ensures forall j :: t < j < d && calls[j].id == calls[d].id ==> calls[j].Uploaded?
    ensures s != t
  {
    s := ArmingStage(calls[..c], calls[c].id);
    t := ArmingStage(calls[..d], calls[d].id);
    assert forall j :: 0 <= j < c ==> calls[..c][j] == calls[j];
    assert forall j :: 0 <= j < d ==> calls[..d][j] == calls[j];
    if s == t {
      assert false;
    }
  }

  /** Over a whole history, every commit that executes finds a plan that a stage call
      returned ok for, exactly when no commit follows a stage call that raised after
      storing its plan with nothing but uploads of that id in between. */
  lemma {:induction false} CommitsExecuteOkStagesExactlyWhen(calls: seq<Call>)
    ensures (forall c :: 0 <= c < |calls| && Executes(calls, c) ==> Promised(calls[..c], calls[c].id) == Armed(calls[..c], calls[c].id)) <==>
            !exists s, c :: 0 <= s < c < |calls| && CommitsAfterRaise(calls, s, c)
  {
    hide Armed, Promised, PlanLeft;
    forall c | 0 <= c < |calls| && Executes(calls, c)
      ensures Promised(calls[..c], calls[c].id) == Armed(calls[..c], calls[c].id) <==> !exists s :: 0 <= s < c && CommitsAfterRaise(calls, s, c)
    {
      var s := ArmingStage(calls[..c], calls[c].id);
      assert forall j :: 0 <= j < c ==> calls[..c][j] == calls[j];
      if calls[s].StageRaised? { assert CommitsAfterRaise(calls, s, c); }
      forall t | 0 <= t < c && CommitsAfterRaise(calls, t, c) ensures t == s {}
    }
    forall s, c | 0 <= s < c < |calls| && CommitsAfterRaise(calls, s, c) ensures Executes(calls, c) {
      LatestIs(calls, s, c);
    }
  }

  ghost predicate CommitsAfterRaise(calls: seq<Call>, s: nat, c: nat)
    requires s < c < |calls|
  {
    && calls[s].StageRaised? && calls[c].CommitTried? && calls[s].id == calls[c].id
    && forall j :: s < j < c && calls[j].id == calls[c].id ==> calls[j].Uploaded?
  }

  lemma {:induction false} LatestIs(calls: seq<Call>, s: nat, c: nat)
    requires s < c < |calls| && CommitsAfterRaise(calls, s, c)
    ensures Latest(calls[..c], calls[c].id) == Some(calls[s]) && Executes(calls, c)
  {
    LatestFrom(calls[..c], calls[c].id, s);
  }

  lemma {:induction false} LatestFrom(calls: seq<Call>, id: string, s: nat)
    requires s < |calls| && calls[s].id == id && !calls[s].Uploaded?
    requires forall j :: s < j < |calls| && calls[j].id == id ==> calls[j].Uploaded?
    ensures Latest(calls, id) == Some(calls[s])
  {
    if s < |calls| - 1 { LatestFrom(calls[..|calls| - 1], id, s); }
  }

  // ---- the rule document that ships ----------------------------------------

  /** The purchase invoice rule, as its document declares it. */
  const PURCHASE_INVOICE := PurchaseRule(
    "purchase_invoice", 1,
    [FieldRule("supplier", "Entidade", FromMatch, true),
     FieldRule("doc_date", "Data", FromAttribute("issue_date"), true),
     FieldRule("due_date", "Vencimento", FromAttribute("due_date"), false),
     FieldRule("supplier_ref", "VRef", FromAttribute("number"), false),
     FieldRule("net", "Iliquido", FromAttribute("net_total"), false),
     FieldRule("vat", "IVA", FromAttribute("vat_total"), false),
     FieldRule("total", "Total", FromAttribute("gross_total"), true),
     FieldRule("notes", "Obs", FromAttribute("notes"), false)],
    "Entidade", "31",
    map["Estado" := Number(0), "ATCUD" := Text(""), "CodigoAT" := Text(""), "Certificacao" := Text("")],
    Some("DC"), Some("OC"),
    [FieldRule("article", "ChaveProd", FromMatch, false),
     FieldRule("description", "Descricao", FromAttribute("description"), true),
     FieldRule("quantity", "Quantidade", FromAttribute("quantity"), false),
     FieldRule("unit_price", "Punit", FromAttribute("unit_price"), false),
     FieldRule("vat_rate", "Iva", FromAttribute("vat_rate"), false),
     FieldRule("line_total", "Valor", FromAttribute("total"), false)],
    "ChaveProd", "Documento",
    MatchTarget(map["Tipo" := Number(1), "Listar" := Number(1)], {"Nome", "NCont"}),
    MatchTarget(map[], {"Nome"}))

  /** What the shipped rule asks of a bill: a date, a total, and a description of every
      line. */
  lemma ShippedStageAccepts(p: BillProposal)
    ensures Violations(p, PURCHASE_INVOICE) == [] <==>
            && !IsBadNif(p.bill.supplierTaxId) && |p.bill.lines| == |p.lineMatches|
            && IsSettled(p.supplierMatch) && (forall i :: 0 <= i < |p.lineMatches| ==> IsSettled(p.lineMatches[i]))
            && HasValue(p.bill.issueDate) && HasValue(p.bill.grossTotal)
            && forall i :: 0 <= i < |p.bill.lines| ==> p.bill.lines[i].description != ""
  {
    hide Violations, IsBadNif, IsSettled, BillValue, LineValue, HeaderComplete, LineComplete;
    StageAcceptsExactly(p, PURCHASE_INVOICE);
    ShippedHeaderComplete(p);
    if |p.bill.lines| == |p.lineMatches| {
      forall i | 0 <= i < |p.bill.lines| ensures LineComplete(p, PURCHASE_INVOICE, i) <==> p.bill.lines[i].description != "" {
        ShippedLineComplete(p, i);
      }
    }
  }

  lemma ShippedHeaderComplete(p: BillProposal)
    ensures HeaderComplete(p, PURCHASE_INVOICE) <==> HasValue(p.bill.issueDate) && HasValue(p.bill.grossTotal)
  {
    hide BillValue, HasValue;
    BillReads(p.bill);
    var fields := PURCHASE_INVOICE.headerFields;
    assert fields[1].source.name == "issue_date" && fields[6].source.name == "gross_total";
  }

  lemma BillReads(bill: Bill)
    ensures BillValue(bill, "issue_date") == bill.issueDate && BillValue(bill, "gross_total") == bill.grossTotal
  {
  }

  lemma ShippedLineComplete(p: BillProposal, i: nat)
    requires i < |p.bill.lines|
    ensures LineComplete(p, PURCHASE_INVOICE, i) <==> p.bill.lines[i].description != ""
  {
    hide LineValue;
    LineReads(p.bill.lines[i]);
    var fields := PURCHASE_INVOICE.lineFields;
    assert fields[1].source.name == "description";
  }

  lemma LineReads(line: BillLine)
    ensures LineValue(line, "description") == Some(line.description)
  {
  }

  /** It meets what the results about writing and staging ask of a rule. */
  lemma PurchaseInvoiceIsSound()
    ensures KeysProtected(PURCHASE_INVOICE) && ProposalsAllowed(PURCHASE_INVOICE)
  {
    assert "Entidade"[0] == 'E' && "TipoDoc"[0] == 'T' && CHAVE[0] == 'C';
    assert "Estado"[1] == 's' && "ATCUD"[0] == 'A' && "CodigoAT"[0] == 'C' && "CodigoAT"[1] == 'o' && "Certificacao"[1] == 'e';
    assert CHAVE[1] == 'h' && "Entidade"[1] == 'n';
    assert |"DC"| == 2 && |"OC"| == 2 && |CHAVE| == 5 && |"TipoDoc"| == 7 && |"Entidade"| == 8;
    assert "Documento"[0] == 'D' && |"ChaveProd"| == 9 && |"Nome"| == 4 && "NCont"[0] == 'N' && "Tipo"[0] == 'T' && "Listar"[0] == 'L';
    assert "ChaveProd"[0] == 'C';
  }
}
