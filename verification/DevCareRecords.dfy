/** DevCare record changes: validated against the table, staged for one
    conversation, executed once. */
module DevCareRecords {
  import opened Wrappers
  import opened Tables

  // ---- entity rules --------------------------------------------------------

  datatype Operation = Create | Update | Delete

  /** A field's validation: what is absent is not checked. */
  datatype Checks = Checks(maxLength: Option<nat>, format: Option<string -> bool>, minimum: Option<real>, maximum: Option<real>,
                           allowed: Option<seq<Value>>)

  /** `coerce` reads the posted text as the field's type, if it can. */
  datatype FieldRule = FieldRule(name: string, column: string, required: bool, coerce: string -> Option<Value>, checks: Checks)

  /** The value of `field` must be in `column` of some row of `table`. */
  datatype Reference = Reference(field: string, table: string, column: string)

  datatype SoftDelete = SoftDelete(column: string, activeValue: int, deletedValue: int)

  datatype EntityRule = EntityRule(
    primaryKey: string,
    operations: set<Operation>,
    fields: seq<FieldRule>,
    softDelete: Option<SoftDelete>,
    uniqueness: seq<seq<string>>,
    references: seq<Reference>,
    createdAt: Option<string>,
    createdBy: Option<string>,
    updatedAt: Option<string>,
    updatedBy: Option<string>,
    createDefaults: Row)

  type Fields = map<string, string>

  datatype Change = Change(operation: Operation, columns: Row, targetPk: Option<int>)

  datatype Check = MaxLength | Format | Minimum | Maximum | AllowedValue

  datatype Violation =
    | OperationNotAllowed
    | TargetRequired
    | UnknownField(name: string)
    | FieldRequired(name: string)
    | WrongType(name: string)
    | NotAccepted(name: string, check: Check)
    | NotUnique(fields: seq<string>)
    | ReferenceMissing(name: string)
    | TargetNotFound

  function FieldNamed(fields: seq<FieldRule>, name: string): Option<FieldRule> {
    if fields == [] then None
    else if fields[|fields| - 1].name == name then Some(fields[|fields| - 1])
    else FieldNamed(fields[..|fields| - 1], name)
  }

  /** The column of a declared field. */
  function ColumnOf(rules: seq<FieldRule>, name: string): string {
    var f := FieldNamed(rules, name);
    if f.None? then "" else f.value.column
  }

  // ---- validation ----------------------------------------------------------

  predicate Given(fields: Fields, name: string) {
    name in fields && fields[name] != ""
  }

  /** The typed columns of the fields that are given and have the right type. */
  function Coerced(rules: seq<FieldRule>, fields: Fields): Row {
    if rules == [] then map[]
    else
      var rest, f := Coerced(rules[..|rules| - 1], fields), rules[|rules| - 1];
      if !Given(fields, f.name) || f.coerce(fields[f.name]).None? then rest
      else rest[f.column := f.coerce(fields[f.name]).value]
  }

  /** Length and format are checked on text, bounds on numbers, the allowed values on
      anything. */
  predicate Meets(checks: Checks, check: Check, v: Value) {
    match check
    case MaxLength => checks.maxLength.Some? && v.Text? ==> |v.s| <= checks.maxLength.value
    case Format => checks.format.Some? && v.Text? ==> checks.format.value(v.s)
    case Minimum => checks.minimum.Some? && v.Number? ==> v.n as real >= checks.minimum.value
    case Maximum => checks.maximum.Some? && v.Number? ==> v.n as real <= checks.maximum.value
    case AllowedValue => checks.allowed.Some? ==> v in checks.allowed.value
  }

  const CHECK_ORDER := [MaxLength, Format, Minimum, Maximum, AllowedValue]

  /** One objection per check that is not met, in the order they are made. */
  function CheckObjections(f: FieldRule, v: Value, order: seq<Check>): seq<Violation> {
    if order == [] then []
    else
      var rest, last := CheckObjections(f, v, order[..|order| - 1]), order[|order| - 1];
      if Meets(f.checks, last, v) then rest else rest + [NotAccepted(f.name, last)]
  }

  function CoercionObjections(rules: seq<FieldRule>, fields: Fields, creating: bool): seq<Violation> {
    if rules == [] then []
    else
      var rest, f := CoercionObjections(rules[..|rules| - 1], fields, creating), rules[|rules| - 1];
      if !Given(fields, f.name) then (if creating && f.required then rest + [FieldRequired(f.name)] else rest)
      else
        match f.coerce(fields[f.name])
        case None => rest + [WrongType(f.name)]
        case Some(v) => rest + CheckObjections(f, v, CHECK_ORDER)
  }

  predicate IsActive(rule: EntityRule, row: Row) {
    match rule.softDelete
    case None => true
    case Some(s) => s.column in row && row[s.column] == Number(s.activeValue)
  }

  predicate AllIn(names: seq<string>, rules: seq<FieldRule>, columns: Row) {
    forall k :: 0 <= k < |names| ==>
      FieldNamed(rules, names[k]).Some? && ColumnOf(rules, names[k]) in columns
  }

  /** Another active row holds the same values; comparing with NULL never holds. */
  predicate Clashes(rule: EntityRule, names: seq<string>, columns: Row, row: Row, except: Option<int>)
    requires AllIn(names, rule.fields, columns)
  {
    && IsActive(rule, row)
    && (except.Some? ==> rule.primaryKey in row && row[rule.primaryKey] != Null && row[rule.primaryKey] != Number(except.value))
    && forall k :: 0 <= k < |names| ==>
         var c := ColumnOf(rule.fields, names[k]);
         c in row && row[c] != Null && row[c] == columns[c]
  }

  predicate IsTaken(rule: EntityRule, table: seq<Row>, names: seq<string>, columns: Row, except: Option<int>)
  {
    AllIn(names, rule.fields, columns) && exists i :: 0 <= i < |table| && Clashes(rule, names, columns, table[i], except)
  }

  function UniquenessObjections(rule: EntityRule, table: seq<Row>, sets: seq<seq<string>>, columns: Row, except: Option<int>): seq<Violation> {
    if sets == [] then []
    else
      var rest, names := UniquenessObjections(rule, table, sets[..|sets| - 1], columns, except), sets[|sets| - 1];
      if IsTaken(rule, table, names, columns, except) then rest + [NotUnique(names)] else rest
  }

  predicate IsTarget(rule: EntityRule, row: Row, pk: int) {
    rule.primaryKey in row && row[rule.primaryKey] == Number(pk)
  }

  function CountTargets(rule: EntityRule, table: seq<Row>, pk: int): nat {
    if table == [] then 0
    else CountTargets(rule, table[..|table| - 1], pk) + if IsTarget(rule, table[|table| - 1], pk) then 1 else 0
  }

  function UnknownNames(rules: seq<FieldRule>, fields: Fields): set<string> {
    set name | name in fields && FieldNamed(rules, name).None?
  }

  function UnknownObjections(names: seq<string>): seq<Violation> {
    seq(|names|, i requires 0 <= i < |names| => UnknownField(names[i]))
  }

  /** The other tables as they are, by name. */
  type Lookups = map<string, seq<Row>>

  predicate IsReferenced(lookups: Lookups, ref: Reference, v: Value) {
    v != Null && ref.table in lookups
    && exists i :: 0 <= i < |lookups[ref.table]| && ref.column in lookups[ref.table][i] && lookups[ref.table][i][ref.column] == v
  }

  /** The field is given, reads as its type, and refers to nothing. */
  predicate IsDangling(rules: seq<FieldRule>, lookups: Lookups, fields: Fields, ref: Reference) {
    var f := FieldNamed(rules, ref.field);
    Given(fields, ref.field) && f.Some? && f.value.coerce(fields[ref.field]).Some?
    && !IsReferenced(lookups, ref, f.value.coerce(fields[ref.field]).value)
  }

  function ReferenceObjections(rules: seq<FieldRule>, lookups: Lookups, fields: Fields, references: seq<Reference>): seq<Violation> {
    if references == [] then []
    else
      var rest, ref := ReferenceObjections(rules, lookups, fields, references[..|references| - 1]), references[|references| - 1];
      if IsDangling(rules, lookups, fields, ref) then rest + [ReferenceMissing(ref.field)] else rest
  }

  /** What the fields of a create or update give rise to; `unknown` lists the unknown
      names in whatever order they come. */
  function FieldObjections(rule: EntityRule, table: seq<Row>, lookups: Lookups, creating: bool, fields: Fields, targetPk: Option<int>,
                           unknown: seq<string>): seq<Violation>
  {
    UnknownObjections(unknown) + CoercionObjections(rule.fields, fields, creating)
      + UniquenessObjections(rule, table, rule.uniqueness, Coerced(rule.fields, fields), targetPk)
      + ReferenceObjections(rule.fields, lookups, fields, rule.references)
  }

  function Objections(rule: EntityRule, table: seq<Row>, lookups: Lookups, operation: Operation, fields: Fields, targetPk: Option<int>,
                      unknown: seq<string>): seq<Violation>
  {
    if operation !in rule.operations then [OperationNotAllowed]
    else if operation != Create && targetPk.None? then [TargetRequired]
    else
      var found := if operation == Delete then []
                   else FieldObjections(rule, table, lookups, operation == Create, fields, targetPk, unknown);
      if found == [] && operation != Create && CountTargets(rule, table, targetPk.value) != 1 then [TargetNotFound] else found
  }

  /** Whether validation gets as far as the fields. */
  predicate ReadsFields(rule: EntityRule, operation: Operation, targetPk: Option<int>) {
    operation in rule.operations && (operation == Create || (operation == Update && targetPk.Some?))
  }

  function ChangeFor(rule: EntityRule, operation: Operation, fields: Fields, targetPk: Option<int>): Change {
    Change(operation, if operation == Delete then map[] else Coerced(rule.fields, fields), targetPk)
  }

  /** The names no rule declares, in some order. */
  method ListUnknown(rules: seq<FieldRule>, fields: Fields) returns (unknown: seq<string>)
    ensures multiset(unknown) == multiset(UnknownNames(rules, fields))
  {
    unknown := [];
    var left := UnknownNames(rules, fields);
    while left != {}
      invariant left <= UnknownNames(rules, fields)
      invariant multiset(unknown) + multiset(left) == multiset(UnknownNames(rules, fields))
    {
      var name :| name in left;
      unknown := unknown + [name];
      left := left - {name};
    }
  }

  method CheckField(f: FieldRule, v: Value) returns (violations: seq<Violation>)
    ensures violations == CheckObjections(f, v, CHECK_ORDER)
  {
    var c := f.checks;
    violations := [];
    if c.maxLength.Some? && v.Text? && |v.s| > c.maxLength.value { violations := violations + [NotAccepted(f.name, MaxLength)]; }
    if c.format.Some? && v.Text? && !c.format.value(v.s) { violations := violations + [NotAccepted(f.name, Format)]; }
    if c.minimum.Some? && v.Number? && (v.n as real) < c.minimum.value { violations := violations + [NotAccepted(f.name, Minimum)]; }
    if c.maximum.Some? && v.Number? && (v.n as real) > c.maximum.value { violations := violations + [NotAccepted(f.name, Maximum)]; }
    if c.allowed.Some? && v !in c.allowed.value { violations := violations + [NotAccepted(f.name, AllowedValue)]; }
    ChecksInOrder(f, v);
  }

  lemma ChecksInOrder(f: FieldRule, v: Value)
    ensures CheckObjections(f, v, CHECK_ORDER) ==
            (if Meets(f.checks, MaxLength, v) then [] else [NotAccepted(f.name, MaxLength)])
            + (if Meets(f.checks, Format, v) then [] else [NotAccepted(f.name, Format)])
            + (if Meets(f.checks, Minimum, v) then [] else [NotAccepted(f.name, Minimum)])
            + (if Meets(f.checks, Maximum, v) then [] else [NotAccepted(f.name, Maximum)])
            + (if Meets(f.checks, AllowedValue, v) then [] else [NotAccepted(f.name, AllowedValue)])
  {
    hide CheckObjections, Meets;
    OneMoreCheck(f, v, [], MaxLength);
    OneMoreCheck(f, v, [MaxLength], Format);
    OneMoreCheck(f, v, [MaxLength, Format], Minimum);
    OneMoreCheck(f, v, [MaxLength, Format, Minimum], Maximum);
    OneMoreCheck(f, v, [MaxLength, Format, Minimum, Maximum], AllowedValue);
    assert [] + [MaxLength] == [MaxLength] && [MaxLength] + [Format] == [MaxLength, Format]
           && [MaxLength, Format] + [Minimum] == [MaxLength, Format, Minimum]
           && [MaxLength, Format, Minimum] + [Maximum] == [MaxLength, Format, Minimum, Maximum]
           && [MaxLength, Format, Minimum, Maximum] + [AllowedValue] == CHECK_ORDER;
  }

  lemma OneMoreCheck(f: FieldRule, v: Value, order: seq<Check>, check: Check)
    ensures CheckObjections(f, v, []) == []
    ensures CheckObjections(f, v, order + [check]) ==
            CheckObjections(f, v, order) + if Meets(f.checks, check, v) then [] else [NotAccepted(f.name, check)]
  {
    assert (order + [check])[..|order|] == order;
  }

  method CoerceFields(rule: EntityRule, creating: bool, fields: Fields)
    returns (columns: Row, violations: seq<Violation>, unknown: seq<string>)
    ensures columns == Coerced(rule.fields, fields) && multiset(unknown) == multiset(UnknownNames(rule.fields, fields))
    ensures violations == UnknownObjections(unknown) + CoercionObjections(rule.fields, fields, creating)
  {
    hide CheckObjections;
    unknown := ListUnknown(rule.fields, fields);
    columns, violations := map[], UnknownObjections(unknown);
    for i := 0 to |rule.fields|
      invariant columns == Coerced(rule.fields[..i], fields)
      invariant violations == UnknownObjections(unknown) + CoercionObjections(rule.fields[..i], fields, creating)
    {
      assert rule.fields[..i + 1][..i] == rule.fields[..i];
      var f := rule.fields[i];
      if !Given(fields, f.name) {
        if creating && f.required { violations := violations + [FieldRequired(f.name)]; }
      } else {
        var value := f.coerce(fields[f.name]);
        if value.None? {
          violations := violations + [WrongType(f.name)];
        } else {
          var found := CheckField(f, value.value);
          violations := violations + found;
          columns := columns[f.column := value.value];
        }
      }
    }
    assert rule.fields[..|rule.fields|] == rule.fields;
  }

  method CheckUniqueness(rule: EntityRule, table: seq<Row>, columns: Row, except: Option<int>) returns (violations: seq<Violation>)
    ensures violations == UniquenessObjections(rule, table, rule.uniqueness, columns, except)
  {
    violations := [];
    for s := 0 to |rule.uniqueness|
      invariant violations == UniquenessObjections(rule, table, rule.uniqueness[..s], columns, except)
    {
      assert rule.uniqueness[..s + 1][..s] == rule.uniqueness[..s];
      var names := rule.uniqueness[s];
      if IsTaken(rule, table, names, columns, except) { violations := violations + [NotUnique(names)]; }
    }
    assert rule.uniqueness[..|rule.uniqueness|] == rule.uniqueness;
  }

  method CheckReferences(rule: EntityRule, lookups: Lookups, fields: Fields) returns (violations: seq<Violation>)
    ensures violations == ReferenceObjections(rule.fields, lookups, fields, rule.references)
  {
    violations := [];
    for i := 0 to |rule.references|
      invariant violations == ReferenceObjections(rule.fields, lookups, fields, rule.references[..i])
    {
      assert rule.references[..i + 1][..i] == rule.references[..i];
      if IsDangling(rule.fields, lookups, fields, rule.references[i]) {
        violations := violations + [ReferenceMissing(rule.references[i].field)];
      }
    }
    assert rule.references[..|rule.references|] == rule.references;
  }

  method Validate(rule: EntityRule, table: seq<Row>, lookups: Lookups, operation: Operation, fields: Fields, targetPk: Option<int>)
    returns (r: Result<Change, seq<Violation>>, unknown: seq<string>)
    ensures ReadsFields(rule, operation, targetPk) ==> multiset(unknown) == multiset(UnknownNames(rule.fields, fields))
    ensures var objections := Objections(rule, table, lookups, operation, fields, targetPk, unknown);
            r == if objections == [] then Ok(ChangeFor(rule, operation, fields, targetPk)) else Err(objections)
  {
    hide Coerced, CoercionObjections, UniquenessObjections, ReferenceObjections, UnknownObjections, UnknownNames, CountTargets;
    unknown := [];
    if operation !in rule.operations { return Err([OperationNotAllowed]), unknown; }
    if operation != Create && targetPk.None? { return Err([TargetRequired]), unknown; }
    var violations: seq<Violation> := [];
    var columns: Row := map[];
    if operation != Delete {
      columns, violations, unknown := CoerceFields(rule, operation == Create, fields);
      var found := CheckUniqueness(rule, table, columns, targetPk);
      violations := violations + found;
      found := CheckReferences(rule, lookups, fields);
      violations := violations + found;
    }
    if violations == [] && operation != Create && CountTargets(rule, table, targetPk.value) != 1 { violations := [TargetNotFound]; }
    if violations != [] { return Err(violations), unknown; }
    return Ok(Change(operation, columns, targetPk)), unknown;
  }

  // ---- execution -----------------------------------------------------------

  function CreatedRow(rule: EntityRule, table: seq<Row>, columns: Row, now: string, operatorKey: int): Row {
    var keyed := map[rule.primaryKey := Number(NextKeyIn(table, rule.primaryKey))] + rule.createDefaults;
    var active := if rule.softDelete.None? then keyed else keyed[rule.softDelete.value.column := Number(rule.softDelete.value.activeValue)];
    Stamped(Stamped(active, rule.createdAt, Text(now)), rule.createdBy, Number(operatorKey)) + columns
  }

  /** The assignments of an UPDATE. */
  function Sets(rule: EntityRule, change: Change, now: string, operatorKey: int): Row {
    var own := if change.operation == Update then change.columns
               else if rule.softDelete.None? then map[]
               else map[rule.softDelete.value.column := Number(rule.softDelete.value.deletedValue)];
    Stamped(Stamped(own, rule.updatedAt, Text(now)), rule.updatedBy, Number(operatorKey))
  }

  /** UPDATE ... WHERE key = pk. */
  function UpdateWhere(rule: EntityRule, table: seq<Row>, pk: int, sets: Row): (after: seq<Row>)
    ensures |after| == |table|
    ensures forall i :: 0 <= i < |table| ==> after[i] == if IsTarget(rule, table[i], pk) then table[i] + sets else table[i]
  {
    seq(|table|, i requires 0 <= i < |table| => if IsTarget(rule, table[i], pk) then table[i] + sets else table[i])
  }

  /** DELETE ... WHERE key = pk. */
  function DeleteWhere(rule: EntityRule, table: seq<Row>, pk: int): seq<Row> {
    if table == [] then []
    else
      var rest, last := DeleteWhere(rule, table[..|table| - 1], pk), table[|table| - 1];
      if IsTarget(rule, last, pk) then rest else rest + [last]
  }

  predicate ColumnsDeclared(rule: EntityRule, columns: Row) {
    forall c :: c in columns ==> exists i :: 0 <= i < |rule.fields| && rule.fields[i].column == c
  }

  /** The table after a change, when the executor accepts it. */
  function Applied(rule: EntityRule, table: seq<Row>, change: Change, now: string, operatorKey: int): Option<seq<Row>> {
    if change.operation != Delete && !ColumnsDeclared(rule, change.columns) then None
    else
      match change.operation
      case Create => Some(table + [CreatedRow(rule, table, change.columns, now, operatorKey)])
      case Update =>
        if Sets(rule, change, now, operatorKey) == map[] then None
        else if change.targetPk.None? then Some(table)
        else Some(UpdateWhere(rule, table, change.targetPk.value, Sets(rule, change, now, operatorKey)))
      case Delete =>
        if change.targetPk.None? then Some(table)
        else if rule.softDelete.None? then Some(DeleteWhere(rule, table, change.targetPk.value))
        else Some(UpdateWhere(rule, table, change.targetPk.value, Sets(rule, change, now, operatorKey)))
  }

  datatype ExecuteError = UndeclaredColumn | NothingToSet | DatabaseFailed

  /** The key a successful change reports. */
  function ReportedKey(rule: EntityRule, table: seq<Row>, change: Change): Option<int> {
    if change.operation == Create then Some(NextKeyIn(table, rule.primaryKey)) else change.targetPk
  }

  class WriteExecutor {
    var tables: map<string, seq<Row>>
    const operatorKey: int

    constructor (tables: map<string, seq<Row>>, operatorKey: int)
      ensures this.tables == tables && this.operatorKey == operatorKey
    {
      this.tables := tables;
      this.operatorKey := operatorKey;
    }

    /** One change in one transaction: it happens entirely and reports its key, or
        the tables stay as they were. `fails` is the database refusing it. */
    method Execute(entity: string, rule: EntityRule, change: Change, now: string, fails: bool)
      returns (r: Result<Option<int>, ExecuteError>)
      requires entity in tables
      modifies this
      ensures r.Ok? <==> !fails && Applied(rule, old(tables)[entity], change, now, operatorKey).Some?
      ensures r.Ok? ==> r.value == ReportedKey(rule, old(tables)[entity], change)
      ensures r.Ok? ==> tables == old(tables)[entity := Applied(rule, old(tables)[entity], change, now, operatorKey).value]
      ensures r.Err? ==> tables == old(tables)
    {
      if change.operation != Delete && !ColumnsDeclared(rule, change.columns) { return Err(UndeclaredColumn); }
      match change.operation {
        case Create => r := CreateRow(entity, rule, change, now, fails);
        case Update => r := UpdateRow(entity, rule, change, now, fails);
        case Delete => r := DeleteRow(entity, rule, change, now, fails);
      }
    }

    method CreateRow(entity: string, rule: EntityRule, change: Change, now: string, fails: bool)
      returns (r: Result<Option<int>, ExecuteError>)
      requires entity in tables
      modifies this
      ensures r == if fails then Err(DatabaseFailed) else Ok(Some(NextKeyIn(old(tables)[entity], rule.primaryKey)))
      ensures tables == if fails then old(tables) else
                old(tables)[entity := old(tables)[entity] + [CreatedRow(rule, old(tables)[entity], change.columns, now, operatorKey)]]
    {
      var pk := NextKeyIn(tables[entity], rule.primaryKey);
      var row := map[rule.primaryKey := Number(pk)];
      row := row + rule.createDefaults;
      if rule.softDelete.Some? { row := row[rule.softDelete.value.column := Number(rule.softDelete.value.activeValue)]; }
      if rule.createdAt.Some? { row := row[rule.createdAt.value := Text(now)]; }
      if rule.createdBy.Some? { row := row[rule.createdBy.value := Number(operatorKey)]; }
      row := row + change.columns;
      if fails { return Err(DatabaseFailed); }
      tables := tables[entity := tables[entity] + [row]];
      return Ok(Some(pk));
    }

    method UpdateRow(entity: string, rule: EntityRule, change: Change, now: string, fails: bool)
      returns (r: Result<Option<int>, ExecuteError>)
      requires entity in tables && change.operation == Update
      modifies this
      ensures var sets := Sets(rule, change, now, operatorKey);
              && r == (if sets == map[] then Err(NothingToSet) else if fails then Err(DatabaseFailed) else Ok(change.targetPk))
              && tables == if r.Err? || change.targetPk.None? then old(tables) else
                   old(tables)[entity := UpdateWhere(rule, old(tables)[entity], change.targetPk.value, sets)]
    {
      var sets := change.columns;
      if rule.updatedAt.Some? { sets := sets[rule.updatedAt.value := Text(now)]; }
      if rule.updatedBy.Some? { sets := sets[rule.updatedBy.value := Number(operatorKey)]; }
      if sets == map[] { return Err(NothingToSet); }
      if fails { return Err(DatabaseFailed); }
      if change.targetPk.Some? { tables := tables[entity := UpdateWhere(rule, tables[entity], change.targetPk.value, sets)]; }
      return Ok(change.targetPk);
    }

    method DeleteRow(entity: string, rule: EntityRule, change: Change, now: string, fails: bool)
      returns (r: Result<Option<int>, ExecuteError>)
      requires entity in tables && change.operation == Delete
      modifies this
      ensures r == if fails then Err(DatabaseFailed) else Ok(change.targetPk)
      ensures tables == if fails || change.targetPk.None? then old(tables) else
                old(tables)[entity :=
                  if rule.softDelete.None? then DeleteWhere(rule, old(tables)[entity], change.targetPk.value)
                  else UpdateWhere(rule, old(tables)[entity], change.targetPk.value, Sets(rule, change, now, operatorKey))]
    {
      if fails { return Err(DatabaseFailed); }
      if change.targetPk.None? { return Ok(None); }
      if rule.softDelete.None? {
        tables := tables[entity := DeleteWhere(rule, tables[entity], change.targetPk.value)];
        return Ok(change.targetPk);
      }
      var sets := map[rule.softDelete.value.column := Number(rule.softDelete.value.deletedValue)];
      if rule.updatedAt.Some? { sets := sets[rule.updatedAt.value := Text(now)]; }
      if rule.updatedBy.Some? { sets := sets[rule.updatedBy.value := Number(operatorKey)]; }
      tables := tables[entity := UpdateWhere(rule, tables[entity], change.targetPk.value, sets)];
      return Ok(change.targetPk);
    }
  }
}
