/** Writing a plan: one transaction that creates what is new, inserts the draft
    document and its lines under fresh keys, and records itself. */
module BillsWriter {
  import opened Wrappers
  import opened Tables
  import opened BillsModel

  datatype WriteResult = WriteResult(
    documentChave: int,
    supplierChave: int,
    lineChaves: seq<int>,
    createdSupplier: bool,
    createdArticles: seq<int>)

  datatype AuditStatus = WriteOk | WriteFailed

  /** A row of the audit table; a failed write has no result. */
  datatype AuditRow = AuditRow(operator: string, proposalId: string, status: AuditStatus, result: Option<WriteResult>)

  /** The tables a write touches. `tiposDoc` maps document type codes to keys. */
  datatype Database = Database(
    suppliers: seq<Row>,
    articles: seq<Row>,
    documents: seq<Row>,
    lines: seq<Row>,
    tiposDoc: map<string, int>,
    audit: seq<AuditRow>)

  datatype WriteError =
    | ColumnNotWritable(column: string)
    | NotResolvable(status: MatchStatus)
    | UnknownDocumentType
    | StatementFailed
    | CommitFailed

  // ---- keys ----------------------------------------------------------------

  const CHAVE := "Chave"

  predicate HasKey(row: Row) {
    HasKeyIn(row, CHAVE)
  }

  function KeyOf(row: Row): int
    requires HasKey(row)
  {
    KeyIn(row, CHAVE)
  }

  function NextKey(table: seq<Row>): int {
    NextKeyIn(table, CHAVE)
  }

  ghost predicate UniqueKeys(table: seq<Row>) {
    UniqueKeysIn(table, CHAVE)
  }

  // ---- rows ----------------------------------------------------------------

  function TextRow(columns: map<string, string>): Row {
    map c | c in columns :: Text(columns[c])
  }

  function ProposedRow(proposed: Proposed): Row {
    map c | c in proposed :: if proposed[c].None? then Null else Text(proposed[c].value)
  }

  /** A created supplier or article: defaults, then what was proposed, then who
      and when. */
  function EntityRow(key: int, target: MatchTarget, proposed: Proposed, now: string, operatorKey: int): Row {
    map[CHAVE := Number(key)] + target.createDefaults + ProposedRow(proposed)
      + map["DC" := Text(now), "OC" := Number(operatorKey)]
  }

  /** Caller columns first, protected and computed ones last. */
  function HeaderRow(rule: PurchaseRule, columns: map<string, string>, key: int, tipoDoc: int, supplier: int,
                     now: string, operatorKey: int): Row
  {
    var own := TextRow(columns)[CHAVE := Number(key)]["TipoDoc" := Number(tipoDoc)][rule.supplierColumn := Number(supplier)];
    Stamped(Stamped(own + rule.draftDefaults, rule.createdAt, Text(now)), rule.createdBy, Number(operatorKey))
  }

  function LineRow(rule: PurchaseRule, columns: map<string, string>, key: int, document: int, article: int): Row {
    TextRow(columns)[CHAVE := Number(key)][rule.parentFk := Number(document)][rule.articleColumn := Number(article)]
  }

  /** The rule leaves the key columns to the executor. */
  ghost predicate KeysProtected(rule: PurchaseRule) {
    var protected := {CHAVE, "TipoDoc", rule.supplierColumn};
    && rule.supplierColumn != CHAVE && rule.supplierColumn != "TipoDoc"
    && rule.draftDefaults.Keys !! protected
    && (rule.createdAt.Some? ==> rule.createdAt.value !in protected)
    && (rule.createdBy.Some? ==> rule.createdBy.value !in protected)
    && rule.parentFk != CHAVE && rule.articleColumn != CHAVE && rule.parentFk != rule.articleColumn
    && CHAVE !in rule.supplier.createDefaults && CHAVE !in rule.supplier.createColumns
    && CHAVE !in rule.article.createDefaults && CHAVE !in rule.article.createColumns
  }

  lemma EntityRowKey(key: int, target: MatchTarget, proposed: Proposed, now: string, operatorKey: int)
    requires CHAVE !in target.createDefaults && CHAVE !in target.createColumns && proposed.Keys <= target.createColumns
    ensures var row := EntityRow(key, target, proposed, now, operatorKey); HasKey(row) && KeyOf(row) == key
  {
  }

  lemma HeaderRowKeys(rule: PurchaseRule, columns: map<string, string>, key: int, tipoDoc: int, supplier: int,
                      now: string, operatorKey: int)
    requires KeysProtected(rule)
    ensures var row := HeaderRow(rule, columns, key, tipoDoc, supplier, now, operatorKey);
            && HasKey(row) && KeyOf(row) == key
            && rule.supplierColumn in row && row[rule.supplierColumn] == Number(supplier)
            && "TipoDoc" in row && row["TipoDoc"] == Number(tipoDoc)
  {
  }

  lemma LineRowKeys(rule: PurchaseRule, columns: map<string, string>, key: int, document: int, article: int)
    requires KeysProtected(rule)
    ensures var row := LineRow(rule, columns, key, document, article);
            && HasKey(row) && KeyOf(row) == key
            && rule.parentFk in row && row[rule.parentFk] == Number(document)
            && rule.articleColumn in row && row[rule.articleColumn] == Number(article)
  {
  }

  // ---- what a successful write does ----------------------------------------

  /** The columns the executor refuses, in the order it looks. */
  predicate Writable(plan: WritePlan, rule: PurchaseRule) {
    && plan.header.Keys <= Columns(rule.headerFields)
    && (forall k :: 0 <= k < |plan.lines| ==> plan.lines[k].columns.Keys <= Columns(rule.lineFields))
    && ProposedAllowed(plan.supplier, rule.supplier)
    && (forall k :: 0 <= k < |plan.lines| ==> ProposedAllowed(plan.lines[k].article, rule.article))
  }

  predicate ProposedAllowed(m: MatchResult, target: MatchTarget) {
    m.status == New && m.proposedNew.Some? ==> m.proposedNew.value.Keys <= target.createColumns
  }

  /** Creating what is new: the row to add, if any, and the key to use. */
  function ResolvedKey(m: MatchResult, table: seq<Row>): int
    requires Resolvable(m)
  {
    if m.status == Matched then m.chave.value else NextKey(table)
  }

  function CreatedRows(m: MatchResult, table: seq<Row>, target: MatchTarget, now: string, operatorKey: int): seq<Row>
    requires Resolvable(m)
  {
    if m.status == Matched then [] else [EntityRow(NextKey(table), target, m.proposedNew.value, now, operatorKey)]
  }

  /** The articles, lines and keys after the first lines of a plan. */
  datatype LinesWritten = LinesWritten(articles: seq<Row>, lines: seq<Row>, lineChaves: seq<int>, createdArticles: seq<int>)

  function WriteLines(plans: seq<LinePlan>, articles: seq<Row>, lines: seq<Row>, document: int,
                      rule: PurchaseRule, now: string, operatorKey: int): LinesWritten
    requires forall k :: 0 <= k < |plans| ==> Resolvable(plans[k].article)
  {
    if plans == [] then LinesWritten(articles, lines, [], [])
    else
      var last := plans[|plans| - 1];
      var before := WriteLines(plans[..|plans| - 1], articles, lines, document, rule, now, operatorKey);
      WriteLine(before, last, document, rule, now, operatorKey)
  }

  function WriteLine(before: LinesWritten, plan: LinePlan, document: int, rule: PurchaseRule, now: string, operatorKey: int): LinesWritten
    requires Resolvable(plan.article)
  {
    var article := ResolvedKey(plan.article, before.articles);
    var key := NextKey(before.lines);
    LinesWritten(
      before.articles + CreatedRows(plan.article, before.articles, rule.article, now, operatorKey),
      before.lines + [LineRow(rule, plan.columns, key, document, article)],
      before.lineChaves + [key],
      if plan.article.status == Matched then before.createdArticles else before.createdArticles + [article])
  }

  function Written(db: Database, plan: WritePlan, rule: PurchaseRule, tipoDoc: int, now: string, operatorKey: int): (Database, WriteResult)
    requires Resolvable(plan.supplier) && forall k :: 0 <= k < |plan.lines| ==> Resolvable(plan.lines[k].article)
  {
    var supplier := ResolvedKey(plan.supplier, db.suppliers);
    var document := NextKey(db.documents);
    var w := WriteLines(plan.lines, db.articles, db.lines, document, rule, now, operatorKey);
    (Database(db.suppliers + CreatedRows(plan.supplier, db.suppliers, rule.supplier, now, operatorKey),
              w.articles,
              db.documents + [HeaderRow(rule, plan.header, document, tipoDoc, supplier, now, operatorKey)],
              w.lines, db.tiposDoc, db.audit),
     WriteResult(document, supplier, w.lineChaves, plan.supplier.status == New, w.createdArticles))
  }

  predicate AllResolvable(plan: WritePlan) {
    Resolvable(plan.supplier) && forall k :: 0 <= k < |plan.lines| ==> Resolvable(plan.lines[k].article)
  }

  /** Nothing in the plan or the tables stands in the way. */
  predicate CanWrite(db: Database, plan: WritePlan, rule: PurchaseRule) {
    Writable(plan, rule) && AllResolvable(plan) && rule.tipoDocCode in db.tiposDoc
  }

  // ---- the executor --------------------------------------------------------

  /** An open transaction: a private copy of the tables. Any statement may fail. */
  class Session {
    var work: Database
    var statement: nat
    const fails: nat -> bool

    constructor (db: Database, fails: nat -> bool)
      ensures work == db && statement == 0 && this.fails == fails
    {
      work := db;
      statement := 0;
      this.fails := fails;
    }

    /** Run one statement of the transaction. */
    method Step() returns (ok: bool)
      modifies this`statement
      ensures ok == !fails(old(statement)) && statement == old(statement) + 1
    {
      ok := !fails(statement);
      statement := statement + 1;
    }
  }

  /** How many statements it takes to resolve a decision: a new record needs its key and
      its row. */
  function Statements(m: MatchResult): nat {
    if m.status == New && m.confirmed && m.proposedNew.Some? then 2 else 0
  }

  /** Each line needs its article, its key and its row. */
  function LineStatements(plans: seq<LinePlan>): nat {
    if plans == [] then 0 else LineStatements(plans[..|plans| - 1]) + Statements(plans[|plans| - 1].article) + 2
  }

  /** The document type, the key and the row of the header, and the audit row. */
  function PlanStatements(plan: WritePlan): nat {
    Statements(plan.supplier) + 3 + LineStatements(plan.lines) + 1
  }

  lemma {:induction false} StatementsSoFar(plans: seq<LinePlan>, i: nat)
    requires i < |plans|
    ensures LineStatements(plans[..i + 1]) == LineStatements(plans[..i]) + Statements(plans[i].article) + 2 <= LineStatements(plans)
    decreases |plans| - i
  {
    assert plans[..i + 1][..i] == plans[..i];
    if i + 1 < |plans| { StatementsSoFar(plans, i + 1); } else { assert plans[..i + 1] == plans; }
  }

  ghost predicate NoneFail(fails: nat -> bool, n: nat, m: nat) {
    forall k :: n <= k < m ==> !fails(k)
  }

  /** The statement that failed is the last one run, and among the next `most`. */
  ghost predicate FailedWithin(fails: nat -> bool, n: nat, m: nat, most: nat) {
    n < m <= n + most && fails(m - 1)
  }

  /** The two tables a write may create records in. */
  datatype EntityTable = Suppliers | Articles

  function RowsOf(db: Database, table: EntityTable): seq<Row> {
    match table
    case Suppliers => db.suppliers
    case Articles => db.articles
  }

  function WithRows(db: Database, table: EntityTable, rows: seq<Row>): Database {
    match table
    case Suppliers => db.(suppliers := rows)
    case Articles => db.(articles := rows)
  }

  datatype LineInserted = LineInserted(article: int, created: bool, key: int)

  class BillWriteExecutor {
    var db: Database
    const operatorKey: int

    constructor (db: Database, operatorKey: int)
      ensures this.db == db && this.operatorKey == operatorKey
    {
      this.db := db;
      this.operatorKey := operatorKey;
    }

    static method CheckColumns(allowed: set<string>, columns: set<string>) returns (r: Result<(), WriteError>)
      ensures r.Ok? <==> columns <= allowed
      ensures r.Err? ==> r.error.ColumnNotWritable? && r.error.column in columns - allowed
    {
      if columns <= allowed { return Ok(()); }
      var bad :| bad in columns && bad !in allowed;
      return Err(ColumnNotWritable(bad));
    }

    /** The whitelist pass, before anything is written. */
    static method CheckPlan(plan: WritePlan, rule: PurchaseRule) returns (r: Result<(), WriteError>)
      ensures r.Ok? <==> Writable(plan, rule)
      ensures r.Err? ==> r.error.ColumnNotWritable?
    {
      r := CheckColumns(Columns(rule.headerFields), plan.header.Keys);
      if r.Err? { return; }
      for k := 0 to |plan.lines|
        invariant forall i :: 0 <= i < k ==> plan.lines[i].columns.Keys <= Columns(rule.lineFields)
      {
        r := CheckColumns(Columns(rule.lineFields), plan.lines[k].columns.Keys);
        if r.Err? { return; }
      }
      if plan.supplier.status == New && plan.supplier.proposedNew.Some? {
        r := CheckColumns(rule.supplier.createColumns, plan.supplier.proposedNew.value.Keys);
        if r.Err? { return; }
      }
      for k := 0 to |plan.lines|
        invariant forall i :: 0 <= i < k ==> ProposedAllowed(plan.lines[i].article, rule.article)
      {
        var article := plan.lines[k].article;
        if article.status == New && article.proposedNew.Some? {
          r := CheckColumns(rule.article.createColumns, article.proposedNew.value.Keys);
          if r.Err? { return; }
        }
      }
      r := Ok(());
    }

    /** The key of a supplier or article, creating the record when it is new. */
    method ResolveEntity(session: Session, m: MatchResult, table: EntityTable, target: MatchTarget, now: string)
      returns (r: Result<(int, bool), WriteError>)
      modifies session
      ensures r.Ok? ==> Resolvable(m) && r.value == (ResolvedKey(m, RowsOf(old(session.work), table)), m.status == New)
      ensures r.Ok? ==> session.work == WithRows(old(session.work), table, RowsOf(old(session.work), table) +
                          CreatedRows(m, RowsOf(old(session.work), table), target, now, operatorKey))
      ensures r.Err? ==> r.error == StatementFailed || (!Resolvable(m) && r.error == NotResolvable(m.status))
      ensures r.Ok? ==> session.statement == old(session.statement) + Statements(m)
                        && NoneFail(session.fails, old(session.statement), session.statement)
      ensures r.Err? && r.error == StatementFailed ==> FailedWithin(session.fails, old(session.statement), session.statement, Statements(m))
    {
      if m.status == Matched && m.chave.Some? {
        assert RowsOf(session.work, table) + [] == RowsOf(session.work, table);
        return Ok((m.chave.value, false));
      }
      if m.status == New && m.confirmed && m.proposedNew.Some? {
        var ok := session.Step();
        if !ok { return Err(StatementFailed); }
        var key := NextKey(RowsOf(session.work, table));
        ok := session.Step();
        if !ok { return Err(StatementFailed); }
        var row := EntityRow(key, target, m.proposedNew.value, now, operatorKey);
        session.work := WithRows(session.work, table, RowsOf(session.work, table) + [row]);
        return Ok((key, true));
      }
      return Err(NotResolvable(m.status));
    }

    /** One line of the document, and its article when that is new. */
    method InsertLine(session: Session, plan: LinePlan, document: int, rule: PurchaseRule, now: string)
      returns (r: Result<LineInserted, WriteError>)
      modifies session
      ensures r.Ok? ==> Resolvable(plan.article)
      ensures r.Ok? ==> r.value == LineInserted(ResolvedKey(plan.article, old(session.work).articles), plan.article.status == New,
                                                NextKey(old(session.work).lines))
      ensures r.Ok? ==> session.work == old(session.work).(
                          articles := old(session.work).articles
                                        + CreatedRows(plan.article, old(session.work).articles, rule.article, now, operatorKey),
                          lines := old(session.work).lines
                                     + [LineRow(rule, plan.columns, r.value.key, document, r.value.article)])
      ensures r.Err? ==> r.error == StatementFailed || (!Resolvable(plan.article) && r.error == NotResolvable(plan.article.status))
      ensures r.Ok? ==> session.statement == old(session.statement) + Statements(plan.article) + 2
                        && NoneFail(session.fails, old(session.statement), session.statement)
      ensures r.Err? && r.error == StatementFailed ==>
                FailedWithin(session.fails, old(session.statement), session.statement, Statements(plan.article) + 2)
    {
      hide Resolvable, CreatedRows, ResolvedKey, NextKey, LineRow;
      var article := ResolveEntity(session, plan.article, Articles, rule.article, now);
      if article.Err? { return Err(article.error); }
      var ok := session.Step();
      if !ok { return Err(StatementFailed); }
      var key := NextKey(session.work.lines);
      ok := session.Step();
      if !ok { return Err(StatementFailed); }
      session.work := session.work.(lines := session.work.lines + [LineRow(rule, plan.columns, key, document, article.value.0)]);
      return Ok(LineInserted(article.value.0, article.value.1, key));
    }

    /** The lines in order, each on top of the ones before it. */
    method InsertLines(session: Session, plans: seq<LinePlan>, document: int, rule: PurchaseRule, now: string)
      returns (r: Result<(seq<int>, seq<int>), WriteError>)
      modifies session
      ensures r.Ok? ==> forall k :: 0 <= k < |plans| ==> Resolvable(plans[k].article)
      ensures r.Ok? ==> session.work == old(session.work).(articles := session.work.articles, lines := session.work.lines)
      ensures r.Ok? ==> LinesWritten(session.work.articles, session.work.lines, r.value.0, r.value.1) ==
                        WriteLines(plans, old(session.work).articles, old(session.work).lines, document, rule, now, operatorKey)
      ensures r.Ok? ==> session.statement == old(session.statement) + LineStatements(plans)
                        && NoneFail(session.fails, old(session.statement), session.statement)
      ensures r.Err? && r.error != StatementFailed ==>
                exists k :: 0 <= k < |plans| && !Resolvable(plans[k].article) && r.error == NotResolvable(plans[k].article.status)
      ensures r.Err? && r.error == StatementFailed ==>
                FailedWithin(session.fails, old(session.statement), session.statement, LineStatements(plans))
    {
      hide Resolvable, WriteLines, LineRow, CreatedRows, ResolvedKey, NextKey, LineStatements, Statements;
      ghost var base, first := session.work, session.statement;
      var lineChaves: seq<int> := [];
      var createdArticles: seq<int> := [];
      NothingWritten(base, document, rule, now, operatorKey);
      for i := 0 to |plans|
        invariant forall k :: 0 <= k < i ==> Resolvable(plans[k].article)
        invariant session.work == base.(articles := session.work.articles, lines := session.work.lines)
        invariant session.statement == first + LineStatements(plans[..i]) && NoneFail(session.fails, first, session.statement)
        invariant LinesWritten(session.work.articles, session.work.lines, lineChaves, createdArticles) ==
                  WriteLines(plans[..i], base.articles, base.lines, document, rule, now, operatorKey)
      {
        OneMoreLine(plans, i, base, document, rule, now, operatorKey);
        StatementsSoFar(plans, i);
        var line := InsertLine(session, plans[i], document, rule, now);
        if line.Err? { return Err(line.error); }
        if line.value.created { createdArticles := createdArticles + [line.value.article]; }
        lineChaves := lineChaves + [line.value.key];
      }
      assert plans[..|plans|] == plans;
      return Ok((lineChaves, createdArticles));
    }

    /** The header under the next key, for the supplier that was resolved. */
    method InsertHeader(session: Session, plan: WritePlan, rule: PurchaseRule, supplier: int, now: string) returns (r: Result<int, WriteError>)
      modifies session
      ensures r.Ok? ==> rule.tipoDocCode in old(session.work).tiposDoc && r.value == NextKey(old(session.work).documents)
      ensures r.Ok? ==>
                session.work == old(session.work).(documents := old(session.work).documents
                  + [HeaderRow(rule, plan.header, r.value, old(session.work).tiposDoc[rule.tipoDocCode], supplier, now, operatorKey)])
      ensures r.Ok? ==> session.statement == old(session.statement) + 3 && NoneFail(session.fails, old(session.statement), session.statement)
      ensures r.Err? && r.error != StatementFailed ==> r.error == UnknownDocumentType && rule.tipoDocCode !in old(session.work).tiposDoc
      ensures r.Err? && r.error == StatementFailed ==> FailedWithin(session.fails, old(session.statement), session.statement, 3)
    {
      hide HeaderRow, NextKey;
      var ok := session.Step();
      if !ok { return Err(StatementFailed); }
      if rule.tipoDocCode !in session.work.tiposDoc { return Err(UnknownDocumentType); }
      var tipoDoc := session.work.tiposDoc[rule.tipoDocCode];
      ok := session.Step();
      if !ok { return Err(StatementFailed); }
      var document := NextKey(session.work.documents);
      var header := HeaderRow(rule, plan.header, document, tipoDoc, supplier, now, operatorKey);
      ok := session.Step();
      if !ok { return Err(StatementFailed); }
      session.work := session.work.(documents := session.work.documents + [header]);
      return Ok(document);
    }

    /** All or nothing: on success the tables hold exactly what the plan says, with
        the audit row; on any failure they are as before. `fails` says which
        statements the database refuses and `commitFails` whether the commit does. */
    method Execute(plan: WritePlan, rule: PurchaseRule, operator: string, now: string, fails: nat -> bool, commitFails: bool)
      returns (r: Result<WriteResult, WriteError>)
      modifies this`db
      ensures r.Err? ==> db == old(db)
      ensures r.Ok? ==> CanWrite(old(db), plan, rule)
      ensures r.Ok? ==> IsWrite(old(db), db, plan, rule, operator, now, operatorKey, r.value)
      ensures r.Err? && r.error != StatementFailed && r.error != CommitFailed ==> !CanWrite(old(db), plan, rule)
      ensures r.Ok? <==> CanWrite(old(db), plan, rule) && !commitFails && NoneFail(fails, 0, PlanStatements(plan))
      ensures r.Err? && r.error == StatementFailed ==> exists n :: 0 <= n < PlanStatements(plan) && fails(n)
      ensures r.Err? && r.error == CommitFailed ==> commitFails
    {
      hide Writable, Resolvable, WriteLines, HeaderRow, LineRow, CreatedRows, ResolvedKey, NextKey, LineStatements, Statements;
      var checked := CheckPlan(plan, rule);
      if checked.Err? { return Err(checked.error); }
      var session := new Session(db, fails);
      var supplier := ResolveEntity(session, plan.supplier, Suppliers, rule.supplier, now);
      if supplier.Err? { return Err(supplier.error); }
      var document := InsertHeader(session, plan, rule, supplier.value.0, now);
      if document.Err? { return Err(document.error); }
      var lines := InsertLines(session, plan.lines, document.value, rule, now);
      if lines.Err? { return Err(lines.error); }
      var result := WriteResult(document.value, supplier.value.0, lines.value.0, supplier.value.1, lines.value.1);
      var ok := session.Step();
      if !ok { return Err(StatementFailed); }
      session.work := session.work.(audit := session.work.audit + [AuditRow(operator, plan.proposalId, WriteOk, Some(result))]);
      if commitFails { return Err(CommitFailed); }
      db := session.work;
      return Ok(result);
    }

    /** A failed write is recorded in a session of its own, best effort. */
    method RecordFailure(operator: string, proposalId: string, reachable: bool)
      modifies this`db
      ensures db == if reachable then old(db).(audit := old(db).audit + [AuditRow(operator, proposalId, WriteFailed, None)]) else old(db)
    {
      if reachable { db := db.(audit := db.audit + [AuditRow(operator, proposalId, WriteFailed, None)]); }
    }
  }

  lemma NothingWritten(base: Database, document: int, rule: PurchaseRule, now: string, operatorKey: int)
    ensures WriteLines([], base.articles, base.lines, document, rule, now, operatorKey) ==
            LinesWritten(base.articles, base.lines, [], []) && LineStatements([]) == 0
  {
  }

  /** The next line, written on top of the ones before it. */
  lemma OneMoreLine(plans: seq<LinePlan>, i: nat, base: Database, document: int, rule: PurchaseRule, now: string, operatorKey: int)
    requires i < |plans| && forall k :: 0 <= k < i ==> Resolvable(plans[k].article)
    ensures Resolvable(plans[i].article) ==>
              var before := WriteLines(plans[..i], base.articles, base.lines, document, rule, now, operatorKey);
              var article, key := ResolvedKey(plans[i].article, before.articles), NextKey(before.lines);
              WriteLines(plans[..i + 1], base.articles, base.lines, document, rule, now, operatorKey) ==
              LinesWritten(before.articles + CreatedRows(plans[i].article, before.articles, rule.article, now, operatorKey),
                           before.lines + [LineRow(rule, plans[i].columns, key, document, article)],
                           before.lineChaves + [key],
                           if plans[i].article.status == New then before.createdArticles + [article] else before.createdArticles)
  {
    assert plans[..i + 1][..i] == plans[..i];
  }

  ghost predicate IsWrite(before: Database, after: Database, plan: WritePlan, rule: PurchaseRule, operator: string,
                          now: string, operatorKey: int, result: WriteResult)
    requires CanWrite(before, plan, rule)
  {
    var (written, expected) := Written(before, plan, rule, before.tiposDoc[rule.tipoDocCode], now, operatorKey);
    result == expected && after == written.(audit := before.audit + [AuditRow(operator, plan.proposalId, WriteOk, Some(result))])
  }

  // ---- what a write keeps --------------------------------------------------

  ghost predicate UniqueTables(db: Database) {
    UniqueKeys(db.suppliers) && UniqueKeys(db.articles) && UniqueKeys(db.documents) && UniqueKeys(db.lines)
  }

  lemma AppendedKey(table: seq<Row>, row: Row, first: seq<Row>, extra: nat)
    requires HasKey(row) && KeyOf(row) == NextKey(table) && NextKey(table) == NextKey(first) + extra
    ensures NextKey(table + [row]) == NextKey(first) + extra + 1
    ensures UniqueKeys(table) ==> UniqueKeys(table + [row])
  {
    NextKeyIsFresh(table, CHAVE, row);
  }

  ghost predicate KeyAt(first: seq<Row>, table: seq<Row>, keys: seq<int>, i: nat)
    requires i < |keys| && |table| == |first| + |keys|
  {
    HasKey(table[|first| + i]) && KeyOf(table[|first| + i]) == keys[i] == NextKey(first) + i
  }

  /** The rows appended to `first`, keyed one after the other from its old
      maximum. */
  ghost predicate KeyedRun(first: seq<Row>, table: seq<Row>, keys: seq<int>) {
    && |table| == |first| + |keys| && first <= table
    && (forall i :: 0 <= i < |keys| ==> KeyAt(first, table, keys, i))
    && NextKey(table) == NextKey(first) + |keys|
    && (UniqueKeys(first) ==> UniqueKeys(table))
  }

  lemma KeyedRunStep(first: seq<Row>, table: seq<Row>, keys: seq<int>, row: Row)
    requires KeyedRun(first, table, keys) && HasKey(row) && KeyOf(row) == NextKey(table)
    ensures KeyedRun(first, table + [row], keys + [KeyOf(row)])
  {
    hide UniqueKeys, NextKey;
    AppendedKey(table, row, first, |keys|);
    var longer, more := table + [row], keys + [KeyOf(row)];
    forall i | 0 <= i < |more| ensures KeyAt(first, longer, more, i) {
      if i < |keys| {
        assert KeyAt(first, table, keys, i);
        assert longer[|first| + i] == table[|first| + i];
      }
    }
  }

  function NewCount(plans: seq<LinePlan>): nat {
    if plans == [] then 0
    else NewCount(plans[..|plans| - 1]) + if plans[|plans| - 1].article.status == New then 1 else 0
  }

  lemma {:induction false} LinesAreKeyed(plans: seq<LinePlan>, articles: seq<Row>, lines: seq<Row>, document: int,
                                         rule: PurchaseRule, now: string, operatorKey: int)
    requires KeysProtected(rule)
    requires forall k :: 0 <= k < |plans| ==> Resolvable(plans[k].article) && ProposedAllowed(plans[k].article, rule.article)
    ensures var w := WriteLines(plans, articles, lines, document, rule, now, operatorKey);
            && KeyedRun(lines, w.lines, w.lineChaves) && |w.lineChaves| == |plans|
            && KeyedRun(articles, w.articles, w.createdArticles) && |w.createdArticles| == NewCount(plans)
            && forall i :: |lines| <= i < |w.lines| ==> rule.parentFk in w.lines[i] && w.lines[i][rule.parentFk] == Number(document)
  {
    hide KeyedRun, KeysProtected, EntityRow, LineRow, NextKey, KeyOf, HasKey, ProposedAllowed;
    if plans == [] {
      NothingKeyed(lines);
      NothingKeyed(articles);
    } else {
      var n := |plans| - 1;
      LinesAreKeyed(plans[..n], articles, lines, document, rule, now, operatorKey);
      var before := WriteLines(plans[..n], articles, lines, document, rule, now, operatorKey);
      var article, key := ResolvedKey(plans[n].article, before.articles), NextKey(before.lines);
      LineRowKeys(rule, plans[n].columns, key, document, article);
      KeyedRunStep(lines, before.lines, before.lineChaves, LineRow(rule, plans[n].columns, key, document, article));
      ArticleIsKeyed(plans[n].article, articles, before.articles, before.createdArticles, rule, now, operatorKey);
      KeyedRunGrows(lines, before.lines, before.lineChaves);
    }
  }

  lemma NothingKeyed(table: seq<Row>)
    ensures KeyedRun(table, table, [])
  {
  }

  lemma KeyedRunGrows(first: seq<Row>, table: seq<Row>, keys: seq<int>)
    requires KeyedRun(first, table, keys)
    ensures |table| == |first| + |keys| && first <= table
  {
  }

  lemma ArticleIsKeyed(m: MatchResult, first: seq<Row>, table: seq<Row>, keys: seq<int>, rule: PurchaseRule, now: string, operatorKey: int)
    requires KeyedRun(first, table, keys) && KeysProtected(rule) && Resolvable(m) && ProposedAllowed(m, rule.article)
    ensures KeyedRun(first, table + CreatedRows(m, table, rule.article, now, operatorKey),
                     if m.status == Matched then keys else keys + [ResolvedKey(m, table)])
  {
    hide KeyedRun, NextKey, EntityRow;
    if m.status == New {
      EntityRowKey(NextKey(table), rule.article, m.proposedNew.value, now, operatorKey);
      KeyedRunStep(first, table, keys, EntityRow(NextKey(table), rule.article, m.proposedNew.value, now, operatorKey));
    } else {
      assert table + [] == table;
    }
  }

  lemma SupplierIsKeyed(m: MatchResult, table: seq<Row>, rule: PurchaseRule, now: string, operatorKey: int)
    requires KeysProtected(rule) && Resolvable(m) && ProposedAllowed(m, rule.supplier)
    ensures KeyedRun(table, table + CreatedRows(m, table, rule.supplier, now, operatorKey),
                     if m.status == New then [ResolvedKey(m, table)] else [])
  {
    hide KeyedRun, NextKey, EntityRow;
    NothingKeyed(table);
    if m.status == New {
      EntityRowKey(NextKey(table), rule.supplier, m.proposedNew.value, now, operatorKey);
      KeyedRunStep(table, table, [], EntityRow(NextKey(table), rule.supplier, m.proposedNew.value, now, operatorKey));
      assert [] + [NextKey(table)] == [ResolvedKey(m, table)];
    } else {
      assert table + [] == table;
    }
  }

  /** Main result on one write: keys stay unique in every table, the document, its
      lines and the created articles take consecutive keys from the old maxima,
      every line points at the document and the document at its supplier, and the
      result names exactly the rows that were inserted. */
  lemma WriteIsSound(before: Database, after: Database, plan: WritePlan, rule: PurchaseRule, operator: string,
                     now: string, operatorKey: int, result: WriteResult)
    requires CanWrite(before, plan, rule) && KeysProtected(rule)
    requires IsWrite(before, after, plan, rule, operator, now, operatorKey, result)
    ensures UniqueTables(before) ==> UniqueTables(after)
    ensures KeyedRun(before.documents, after.documents, [result.documentChave])
    ensures KeyedRun(before.lines, after.lines, result.lineChaves) && |result.lineChaves| == |plan.lines|
    ensures KeyedRun(before.articles, after.articles, result.createdArticles)
    ensures |result.createdArticles| == NewCount(plan.lines)
    ensures KeyedRun(before.suppliers, after.suppliers, if result.createdSupplier then [result.supplierChave] else [])
    ensures result.createdSupplier <==> plan.supplier.status == New
    ensures !result.createdSupplier ==> plan.supplier.chave == Some(result.supplierChave)
    ensures forall i :: |before.lines| <= i < |after.lines| ==>
              rule.parentFk in after.lines[i] && after.lines[i][rule.parentFk] == Number(result.documentChave)
    ensures |after.documents| == |before.documents| + 1
    ensures var header := after.documents[|before.documents|];
            rule.supplierColumn in header && header[rule.supplierColumn] == Number(result.supplierChave)
    ensures after.audit == before.audit + [AuditRow(operator, plan.proposalId, WriteOk, Some(result))] && after.tiposDoc == before.tiposDoc
  {
    hide HeaderRow, WriteLines, NextKey, CreatedRows, KeysProtected, HasKey, KeyOf, EntityRow;
    var tipoDoc := before.tiposDoc[rule.tipoDocCode];
    var header := HeaderRow(rule, plan.header, result.documentChave, tipoDoc, result.supplierChave, now, operatorKey);
    HeaderRowKeys(rule, plan.header, result.documentChave, tipoDoc, result.supplierChave, now, operatorKey);
    NothingKeyed(before.documents);
    KeyedRunStep(before.documents, before.documents, [], header);
    assert [] + [KeyOf(header)] == [result.documentChave];
    LinesAreKeyed(plan.lines, before.articles, before.lines, result.documentChave, rule, now, operatorKey);
    SupplierIsKeyed(plan.supplier, before.suppliers, rule, now, operatorKey);
  }

  // ---- what the rows hold --------------------------------------------------

  /** The row holds the caller's columns, outside those the executor keeps. */
  ghost predicate Carries(row: Row, columns: map<string, string>, kept: set<string>) {
    forall c :: c in columns && c !in kept ==> c in row && row[c] == Text(columns[c])
  }

  /** A created record: what was proposed, missing values as NULL, then the defaults the
      rule gives for what was not, who and when, a key, and nothing else. */
  ghost predicate IsRecord(row: Row, target: MatchTarget, proposed: Proposed, now: string, operatorKey: int) {
    && row.Keys == {CHAVE, "DC", "OC"} + target.createDefaults.Keys + proposed.Keys
    && row["DC"] == Text(now) && row["OC"] == Number(operatorKey)
    && (forall c :: c in proposed && c != "DC" && c != "OC" ==> row[c] == if proposed[c].None? then Null else Text(proposed[c].value))
    && (forall c :: c in target.createDefaults && c !in proposed && c != "DC" && c != "OC" ==> row[c] == target.createDefaults[c])
  }

  /** Every column of the caller's is the column of some field. */
  ghost predicate AreDeclared(columns: map<string, string>, fields: seq<FieldRule>) {
    forall c :: c in columns ==> exists f :: 0 <= f < |fields| && fields[f].column == c
  }

  function Stamps(rule: PurchaseRule): set<string> {
    (if rule.createdAt.Some? then {rule.createdAt.value} else {}) + (if rule.createdBy.Some? then {rule.createdBy.value} else {})
  }

  /** The header holds the plan's columns except where the executor protects or
      presets them: no caller can set a key, the document type, the supplier, a draft
      default or a stamp. The stamps are the time and the operator, and there is no
      other column. */
  ghost predicate HeaderFollows(header: Row, plan: WritePlan, rule: PurchaseRule, tipoDoc: int, now: string, operatorKey: int) {
    && AreDeclared(plan.header, rule.headerFields)
    && header.Keys == plan.header.Keys + {CHAVE, "TipoDoc", rule.supplierColumn} + rule.draftDefaults.Keys + Stamps(rule)
    && Carries(header, plan.header, {CHAVE, "TipoDoc", rule.supplierColumn} + rule.draftDefaults.Keys + Stamps(rule))
    && header["TipoDoc"] == Number(tipoDoc)
    && (forall c :: c in rule.draftDefaults && c !in Stamps(rule) ==> header[c] == rule.draftDefaults[c])
    && (rule.createdBy.Some? ==> header[rule.createdBy.value] == Number(operatorKey))
    && (rule.createdAt.Some? && rule.createdAt != rule.createdBy ==> header[rule.createdAt.value] == Text(now))
  }

  /** Line `k` holds its columns and points at its article, and has no other column: the
      article is the matched one, or the one created for it once confirmed. */
  ghost predicate LineFollows(plans: seq<LinePlan>, k: nat, rule: PurchaseRule, articles: seq<Row>, lines: seq<Row>, w: LinesWritten,
                              now: string, operatorKey: int)
    requires k < |plans| && |w.lines| == |lines| + |plans|
    requires |w.createdArticles| == NewCount(plans) && |w.articles| == |articles| + NewCount(plans)
  {
    var row, m, j := w.lines[|lines| + k], plans[k].article, NewCount(plans[..k]);
    && AreDeclared(plans[k].columns, rule.lineFields)
    && row.Keys == plans[k].columns.Keys + {CHAVE, rule.parentFk, rule.articleColumn}
    && Carries(row, plans[k].columns, {CHAVE, rule.parentFk, rule.articleColumn})
    && if m.status == Matched then m.chave.Some? && row[rule.articleColumn] == Number(m.chave.value)
       else
         && m.status == New && m.confirmed && m.proposedNew.Some?
         && j < NewCount(plans) && row[rule.articleColumn] == Number(w.createdArticles[j])
         && IsRecord(w.articles[|articles| + j], rule.article, m.proposedNew.value, now, operatorKey)
  }

  lemma ProposedRowSays(proposed: Proposed)
    ensures ProposedRow(proposed).Keys == proposed.Keys
    ensures forall c :: c in proposed ==> ProposedRow(proposed)[c] == if proposed[c].None? then Null else Text(proposed[c].value)
  {
  }

  lemma EntityRowIsRecord(key: int, target: MatchTarget, proposed: Proposed, now: string, operatorKey: int)
    ensures IsRecord(EntityRow(key, target, proposed, now, operatorKey), target, proposed, now, operatorKey)
  {
    hide ProposedRow;
    ProposedRowSays(proposed);
    var row := EntityRow(key, target, proposed, now, operatorKey);
    assert row.Keys == {CHAVE, "DC", "OC"} + target.createDefaults.Keys + proposed.Keys;
  }

  lemma LineRowCarries(rule: PurchaseRule, columns: map<string, string>, key: int, document: int, article: int)
    ensures var row := LineRow(rule, columns, key, document, article);
            && row.Keys == columns.Keys + {CHAVE, rule.parentFk, rule.articleColumn}
            && Carries(row, columns, {CHAVE, rule.parentFk, rule.articleColumn})
  {
  }

  lemma WritableIsDeclared(plan: WritePlan, rule: PurchaseRule)
    requires Writable(plan, rule)
    ensures AreDeclared(plan.header, rule.headerFields)
    ensures forall k :: 0 <= k < |plan.lines| ==> AreDeclared(plan.lines[k].columns, rule.lineFields)
  {
  }

  lemma HeaderRowFollows(rule: PurchaseRule, plan: WritePlan, key: int, tipoDoc: int, supplier: int, now: string, operatorKey: int)
    requires KeysProtected(rule) && AreDeclared(plan.header, rule.headerFields)
    ensures HeaderFollows(HeaderRow(rule, plan.header, key, tipoDoc, supplier, now, operatorKey), plan, rule, tipoDoc, now, operatorKey)
  {
    hide AreDeclared;
  }

  lemma {:induction false} LinesFollowPlan(plans: seq<LinePlan>, articles: seq<Row>, lines: seq<Row>, document: int,
                                           rule: PurchaseRule, now: string, operatorKey: int)
    requires KeysProtected(rule) && forall k :: 0 <= k < |plans| ==> AreDeclared(plans[k].columns, rule.lineFields)
    requires forall k :: 0 <= k < |plans| ==> Resolvable(plans[k].article) && ProposedAllowed(plans[k].article, rule.article)
    ensures var w := WriteLines(plans, articles, lines, document, rule, now, operatorKey);
            && |w.lines| == |lines| + |plans| && |w.createdArticles| == NewCount(plans) && |w.articles| == |articles| + NewCount(plans)
            && forall k :: 0 <= k < |plans| ==> LineFollows(plans, k, rule, articles, lines, w, now, operatorKey)
  {
    hide KeysProtected, LineRow, NextKey, EntityRow, ProposedAllowed, Carries, IsRecord, AreDeclared;
    if plans != [] {
      var n := |plans| - 1;
      LinesFollowPlan(plans[..n], articles, lines, document, rule, now, operatorKey);
      var before, w := WriteLines(plans[..n], articles, lines, document, rule, now, operatorKey),
                       WriteLines(plans, articles, lines, document, rule, now, operatorKey);
      forall k | 0 <= k < n ensures LineFollows(plans, k, rule, articles, lines, w, now, operatorKey) {
        assert LineFollows(plans[..n], k, rule, articles, lines, before, now, operatorKey);
        assert plans[..n][..k] == plans[..k] && w.lines[|lines| + k] == before.lines[|lines| + k];
      }
      LastLineFollows(plans, articles, lines, before, document, rule, now, operatorKey);
    }
  }

  lemma LastLineFollows(plans: seq<LinePlan>, articles: seq<Row>, lines: seq<Row>, before: LinesWritten, document: int,
                        rule: PurchaseRule, now: string, operatorKey: int)
    requires plans != [] && KeysProtected(rule) && AreDeclared(plans[|plans| - 1].columns, rule.lineFields)
    requires var m := plans[|plans| - 1].article; Resolvable(m) && ProposedAllowed(m, rule.article)
    requires var done := NewCount(plans[..|plans| - 1]);
             |before.lines| == |lines| + |plans| - 1 && |before.createdArticles| == done && |before.articles| == |articles| + done
    ensures LineFollows(plans, |plans| - 1, rule, articles, lines,
                        WriteLine(before, plans[|plans| - 1], document, rule, now, operatorKey), now, operatorKey)
  {
    hide NextKey, EntityRow, LineRow, AreDeclared, IsRecord;
    var plan := plans[|plans| - 1];
    var article, key := ResolvedKey(plan.article, before.articles), NextKey(before.lines);
    LineRowKeys(rule, plan.columns, key, document, article);
    LineRowCarries(rule, plan.columns, key, document, article);
    if plan.article.status != Matched {
      EntityRowIsRecord(NextKey(before.articles), rule.article, plan.article.proposedNew.value, now, operatorKey);
    }
  }

  /** Main result on contents: a successful write stores the plan and nothing else
      of the caller's making. */
  lemma WriteFollowsPlan(before: Database, after: Database, plan: WritePlan, rule: PurchaseRule, operator: string,
                         now: string, operatorKey: int, result: WriteResult)
    requires CanWrite(before, plan, rule) && KeysProtected(rule)
    requires IsWrite(before, after, plan, rule, operator, now, operatorKey, result)
    ensures |after.documents| == |before.documents| + 1
            && HeaderFollows(after.documents[|before.documents|], plan, rule, before.tiposDoc[rule.tipoDocCode], now, operatorKey)
    ensures plan.supplier.status == Matched || (plan.supplier.status == New && plan.supplier.confirmed)
    ensures result.createdSupplier ==>
              && |after.suppliers| == |before.suppliers| + 1 && plan.supplier.proposedNew.Some?
              && IsRecord(after.suppliers[|before.suppliers|], rule.supplier, plan.supplier.proposedNew.value, now, operatorKey)
    ensures var w := LinesWritten(after.articles, after.lines, result.lineChaves, result.createdArticles);
            && |w.lines| == |before.lines| + |plan.lines| && |w.createdArticles| == NewCount(plan.lines)
            && |w.articles| == |before.articles| + NewCount(plan.lines)
            && forall k :: 0 <= k < |plan.lines| ==> LineFollows(plan.lines, k, rule, before.articles, before.lines, w, now, operatorKey)
  {
    hide HeaderRow, WriteLines, NextKey, EntityRow, HeaderFollows, IsRecord, LineFollows, Writable, AreDeclared;
    WritableIsDeclared(plan, rule);
    WritableProposals(plan, rule);
    HeaderRowFollows(rule, plan, result.documentChave, before.tiposDoc[rule.tipoDocCode], result.supplierChave, now, operatorKey);
    LinesFollowPlan(plan.lines, before.articles, before.lines, result.documentChave, rule, now, operatorKey);
    if result.createdSupplier {
      EntityRowIsRecord(NextKey(before.suppliers), rule.supplier, plan.supplier.proposedNew.value, now, operatorKey);
    }
  }

  lemma WritableProposals(plan: WritePlan, rule: PurchaseRule)
    requires Writable(plan, rule)
    ensures ProposedAllowed(plan.supplier, rule.supplier)
    ensures forall k :: 0 <= k < |plan.lines| ==> ProposedAllowed(plan.lines[k].article, rule.article)
  {
  }

  // ---- over a run ----------------------------------------------------------

  /** One attempt to write: committed, or failed and perhaps recorded. */
  datatype Attempt =
    | Committed(plan: WritePlan, operator: string, now: string, result: WriteResult)
    | Rejected(operator: string, proposalId: string, recorded: bool)

  ghost predicate IsAttempt(before: Database, after: Database, rule: PurchaseRule, operatorKey: int, attempt: Attempt) {
    match attempt
    case Committed(plan, operator, now, result) =>
      CanWrite(before, plan, rule) && IsWrite(before, after, plan, rule, operator, now, operatorKey, result)
    case Rejected(operator, proposalId, recorded) =>
      after == if recorded then before.(audit := before.audit + [AuditRow(operator, proposalId, WriteFailed, None)]) else before
  }

  ghost predicate IsHistory(dbs: seq<Database>, rule: PurchaseRule, operatorKey: int, attempts: seq<Attempt>) {
    |dbs| == |attempts| + 1 && forall i :: 0 <= i < |attempts| ==> IsAttempt(dbs[i], dbs[i + 1], rule, operatorKey, attempts[i])
  }

  /** The document keys of the audit rows that report success. */
  function AuditedDocuments(audit: seq<AuditRow>): seq<int> {
    if audit == [] then []
    else
      var rest, last := AuditedDocuments(audit[..|audit| - 1]), audit[|audit| - 1];
      if last.status == WriteOk && last.result.Some? then rest + [last.result.value.documentChave] else rest
  }

  lemma AuditStep(audit: seq<AuditRow>, row: AuditRow)
    ensures AuditedDocuments(audit + [row]) ==
            if row.status == WriteOk && row.result.Some? then AuditedDocuments(audit) + [row.result.value.documentChave]
            else AuditedDocuments(audit)
  {
    assert (audit + [row])[..|audit|] == audit;
  }

  lemma DocumentStep(first: seq<Row>, before: seq<Row>, after: seq<Row>, keys: seq<int>, key: int)
    requires KeyedRun(first, before, keys) && KeyedRun(before, after, [key])
    ensures KeyedRun(first, after, keys + [key])
  {
    hide UniqueKeys, NextKey;
    var all := keys + [key];
    assert |before| == |first| + |keys| && [key][0] == key;
    forall i | 0 <= i < |all|
      ensures KeyAt(first, after, all, i)
    {
      if i < |keys| {
        assert KeyAt(first, before, keys, i);
        assert after[|first| + i] == before[|first| + i];
      } else {
        assert KeyAt(before, after, [key], 0);
        assert after[|before| + 0] == after[|first| + i];
      }
    }
  }

  /** Main result over runs: starting from an empty audit table, after any mix of
      successful, refused and failed writes the documents added are, one for one
      and in order, the documents the successful audit rows name, and no key has
      been used twice in any table. */
  lemma {:induction false} RunsAuditEveryDocument(dbs: seq<Database>, rule: PurchaseRule, operatorKey: int, attempts: seq<Attempt>)
    requires IsHistory(dbs, rule, operatorKey, attempts) && KeysProtected(rule)
    requires UniqueTables(dbs[0]) && dbs[0].audit == []
    ensures UniqueTables(dbs[|attempts|])
    ensures KeyedRun(dbs[0].documents, dbs[|attempts|].documents, AuditedDocuments(dbs[|attempts|].audit))
  {
    hide UniqueTables, KeyedRun, IsWrite, CanWrite, KeysProtected, AuditedDocuments;
    if attempts == [] {
      NothingKeyed(dbs[0].documents);
      NothingAudited();
    } else {
      var n := |attempts| - 1;
      RunsAuditEveryDocument(dbs[..|attempts|], rule, operatorKey, attempts[..n]);
      assert IsAttempt(dbs[n], dbs[n + 1], rule, operatorKey, attempts[n]);
      match attempts[n] {
        case Committed(plan, operator, now, result) =>
          WriteIsSound(dbs[n], dbs[n + 1], plan, rule, operator, now, operatorKey, result);
          AuditStep(dbs[n].audit, AuditRow(operator, plan.proposalId, WriteOk, Some(result)));
          DocumentStep(dbs[0].documents, dbs[n].documents, dbs[n + 1].documents, AuditedDocuments(dbs[n].audit), result.documentChave);
        case Rejected(operator, proposalId, recorded) =>
          AuditStep(dbs[n].audit, AuditRow(operator, proposalId, WriteFailed, None));
          if recorded { SameTables(dbs[n], dbs[n + 1]); }
      }
    }
  }

  lemma NothingAudited()
    ensures AuditedDocuments([]) == []
  {
  }

  lemma SameTables(a: Database, b: Database)
    requires b == a.(audit := b.audit) && UniqueTables(a)
    ensures UniqueTables(b)
  {
  }
}
