/** What DevCare writes keep: distinct keys and, among active rows, distinct values
    on every uniqueness set. A commit keeps this exactly when the uniqueness check
    would still pass at that moment on the row it leaves behind. */
module DevCareConsistency {
  import opened Wrappers
  import opened Tables
  import opened DevCareRecords

  // ---- well-formed rules and consistent tables -----------------------------

  /** Key, soft-delete and audit columns. */
  ghost function Managed(rule: EntityRule): set<string> {
    {rule.primaryKey}
      + (if rule.softDelete.Some? then {rule.softDelete.value.column} else {})
      + (set c | c in {rule.createdAt, rule.createdBy, rule.updatedAt, rule.updatedBy} && c.Some? :: c.value)
  }

  /** Managed columns are not fields and do not overlap; defaults stay out of the
      key and of uniqueness sets, which name declared fields. */
  ghost predicate WellFormed(rule: EntityRule) {
    && (forall i :: 0 <= i < |rule.fields| ==> rule.fields[i].column !in Managed(rule))
    && rule.primaryKey !in rule.createDefaults
    && (forall c :: c in {rule.createdAt, rule.createdBy, rule.updatedAt, rule.updatedBy} && c.Some? ==>
          c.value != rule.primaryKey && (rule.softDelete.Some? ==> c.value != rule.softDelete.value.column))
    && (rule.softDelete.Some? ==>
          rule.softDelete.value.column != rule.primaryKey
          && rule.softDelete.value.activeValue != rule.softDelete.value.deletedValue)
    && (forall s :: 0 <= s < |rule.uniqueness| ==> Named(rule, rule.uniqueness[s]))
  }

  ghost predicate Named(rule: EntityRule, names: seq<string>) {
    forall k :: 0 <= k < |names| ==>
      FieldNamed(rule.fields, names[k]).Some? && ColumnOf(rule.fields, names[k]) !in rule.createDefaults
  }

  /** Two active rows hold the same values, none NULL, on a uniqueness set. */
  ghost predicate Agree(rule: EntityRule, names: seq<string>, a: Row, b: Row) {
    && IsActive(rule, a) && IsActive(rule, b)
    && forall k :: 0 <= k < |names| ==>
         var c := ColumnOf(rule.fields, names[k]);
         c in a && c in b && a[c] == b[c] && a[c] != Null
  }

  ghost predicate Distinct(rule: EntityRule, names: seq<string>, table: seq<Row>) {
    forall i, j :: 0 <= i < j < |table| ==> !Agree(rule, names, table[i], table[j])
  }

  ghost predicate Keyed(rule: EntityRule, table: seq<Row>) {
    (forall i :: 0 <= i < |table| ==> HasKeyIn(table[i], rule.primaryKey)) && UniqueKeysIn(table, rule.primaryKey)
  }

  ghost predicate Consistent(rule: EntityRule, table: seq<Row>) {
    Keyed(rule, table) && forall s :: 0 <= s < |rule.uniqueness| ==> Distinct(rule, rule.uniqueness[s], table)
  }

  // ---- the commit condition ------------------------------------------------

  /** The uniqueness check, run now on the row the change leaves. */
  ghost predicate StillFree(rule: EntityRule, table: seq<Row>, change: Change) {
    match change.operation
    case Create => forall s :: 0 <= s < |rule.uniqueness| ==> !IsTaken(rule, table, rule.uniqueness[s], change.columns, None)
    case Update =>
      change.targetPk.Some? ==>
        forall i, s :: 0 <= i < |table| && 0 <= s < |rule.uniqueness| ==>
          (IsTarget(rule, table[i], change.targetPk.value) && IsActive(rule, table[i]) ==>
             !IsTaken(rule, table, rule.uniqueness[s], table[i] + change.columns, change.targetPk))
    case Delete => true
  }

  ghost predicate LeavesManagedAlone(rule: EntityRule, change: Change) {
    change.columns.Keys !! Managed(rule)
  }

  /** `columns` and `row` hold the same thing on a uniqueness set. */
  ghost predicate Mirrors(rule: EntityRule, names: seq<string>, columns: Row, row: Row) {
    forall k :: 0 <= k < |names| ==>
      var c := ColumnOf(rule.fields, names[k]);
      (c in columns <==> c in row) && (c in columns ==> columns[c] == row[c])
  }

  /** The check finds exactly the rows that agree with the row left behind. */
  lemma TakenIsAgreement(rule: EntityRule, table: seq<Row>, names: seq<string>, columns: Row, row: Row, except: Option<int>)
    requires Named(rule, names) && Mirrors(rule, names, columns, row) && IsActive(rule, row) && Keyed(rule, table)
    ensures IsTaken(rule, table, names, columns, except) <==>
            exists j :: 0 <= j < |table| && (except.Some? ==> !IsTarget(rule, table[j], except.value)) && Agree(rule, names, row, table[j])
  {
    forall j | 0 <= j < |table| && (except.Some? ==> !IsTarget(rule, table[j], except.value)) && Agree(rule, names, row, table[j])
      ensures AllIn(names, rule.fields, columns) && Clashes(rule, names, columns, table[j], except)
    {
      assert HasKeyIn(table[j], rule.primaryKey);
    }
    if IsTaken(rule, table, names, columns, except) {
      var j :| 0 <= j < |table| && Clashes(rule, names, columns, table[j], except);
      assert Agree(rule, names, row, table[j]);
    }
  }

  lemma FieldNamedIsField(rules: seq<FieldRule>, name: string)
    requires FieldNamed(rules, name).Some?
    ensures exists i :: 0 <= i < |rules| && rules[i] == FieldNamed(rules, name).value
  {
    if rules[|rules| - 1].name != name {
      var rest := rules[..|rules| - 1];
      FieldNamedIsField(rest, name);
      var i :| 0 <= i < |rest| && rest[i] == FieldNamed(rest, name).value;
      assert rules[i] == rest[i];
    }
  }

  lemma UniqueColumnsAreFree(rule: EntityRule, s: nat, k: nat)
    requires WellFormed(rule) && s < |rule.uniqueness| && k < |rule.uniqueness[s]|
    ensures ColumnOf(rule.fields, rule.uniqueness[s][k]) !in Managed(rule)
    ensures ColumnOf(rule.fields, rule.uniqueness[s][k]) !in rule.createDefaults
  {
    hide Managed;
    assert Named(rule, rule.uniqueness[s]);
    FieldNamedIsField(rule.fields, rule.uniqueness[s][k]);
  }

  // ---- creating ------------------------------------------------------------

  lemma CreatedRowFacts(rule: EntityRule, table: seq<Row>, columns: Row, now: string, operatorKey: int)
    requires WellFormed(rule) && columns.Keys !! Managed(rule)
    ensures var row := CreatedRow(rule, table, columns, now, operatorKey);
            HasKeyIn(row, rule.primaryKey) && KeyIn(row, rule.primaryKey) == NextKeyIn(table, rule.primaryKey) && IsActive(rule, row)
    ensures forall c :: c !in Managed(rule) && c !in rule.createDefaults ==>
              var row := CreatedRow(rule, table, columns, now, operatorKey);
              (c in columns <==> c in row) && (c in columns ==> columns[c] == row[c])
  {
    assert rule.createdAt.Some? ==> rule.createdAt.value in Managed(rule);
    assert rule.createdBy.Some? ==> rule.createdBy.value in Managed(rule);
  }

  lemma AgreeIsSymmetric(rule: EntityRule, names: seq<string>, a: Row, b: Row)
    ensures Agree(rule, names, a, b) <==> Agree(rule, names, b, a)
  {
  }

  lemma DistinctAfterAppend(rule: EntityRule, names: seq<string>, table: seq<Row>, row: Row)
    requires Distinct(rule, names, table)
    ensures Distinct(rule, names, table + [row]) <==> !exists j :: 0 <= j < |table| && Agree(rule, names, row, table[j])
  {
    hide Agree;
    var after := table + [row];
    forall j | 0 <= j < |table| ensures Agree(rule, names, row, table[j]) <==> Agree(rule, names, after[j], after[|table|]) {
      AgreeIsSymmetric(rule, names, row, table[j]);
    }
  }

  lemma CreateKeepsExactlyWhenFree(rule: EntityRule, table: seq<Row>, change: Change, now: string, operatorKey: int)
    requires WellFormed(rule) && Consistent(rule, table) && LeavesManagedAlone(rule, change) && change.operation == Create
    ensures Consistent(rule, table + [CreatedRow(rule, table, change.columns, now, operatorKey)]) <==> StillFree(rule, table, change)
  {
    hide WellFormed, CreatedRow, IsTaken, Managed, Agree, Distinct, UniqueKeysIn;
    var row := CreatedRow(rule, table, change.columns, now, operatorKey);
    CreatedRowFacts(rule, table, change.columns, now, operatorKey);
    NextKeyIsFresh(table, rule.primaryKey, row);
    assert Keyed(rule, table + [row]);
    forall s | 0 <= s < |rule.uniqueness|
      ensures Distinct(rule, rule.uniqueness[s], table + [row]) <==> !IsTaken(rule, table, rule.uniqueness[s], change.columns, None)
    {
      var names := rule.uniqueness[s];
      forall k | 0 <= k < |names| ensures var c := ColumnOf(rule.fields, names[k]); c !in Managed(rule) && c !in rule.createDefaults {
        UniqueColumnsAreFree(rule, s, k);
      }
      SetIsNamed(rule, s);
      TakenIsAgreement(rule, table, names, change.columns, row, None);
      DistinctAfterAppend(rule, names, table, row);
    }
  }

  lemma SetIsNamed(rule: EntityRule, s: nat)
    requires WellFormed(rule) && s < |rule.uniqueness|
    ensures Named(rule, rule.uniqueness[s])
  {
  }

  // ---- updating ------------------------------------------------------------

  /** An UPDATE of one row either leaves the table distinct or makes that row agree
      with another. */
  lemma DistinctAfterUpdate(rule: EntityRule, names: seq<string>, table: seq<Row>, pk: int, sets: Row, t: nat)
    requires Keyed(rule, table) && Distinct(rule, names, table) && t < |table| && IsTarget(rule, table[t], pk)
    ensures Distinct(rule, names, UpdateWhere(rule, table, pk, sets)) <==>
            !exists j :: 0 <= j < |table| && !IsTarget(rule, table[j], pk) && Agree(rule, names, table[t] + sets, table[j])
  {
    hide Agree;
    var after := UpdateWhere(rule, table, pk, sets);
    forall j | 0 <= j < |table| ensures IsTarget(rule, table[j], pk) <==> j == t {
      assert HasKeyIn(table[j], rule.primaryKey) && HasKeyIn(table[t], rule.primaryKey);
      if j < t { assert KeyIn(table[j], rule.primaryKey) != KeyIn(table[t], rule.primaryKey); }
      if j > t { assert KeyIn(table[t], rule.primaryKey) != KeyIn(table[j], rule.primaryKey); }
    }
    forall j | 0 <= j < |table| && j != t
      ensures after[j] == table[j] && (Agree(rule, names, after[t], after[j]) <==> Agree(rule, names, after[j], after[t]))
    {
      AgreeIsSymmetric(rule, names, after[t], after[j]);
    }
    if j :| 0 <= j < |table| && !IsTarget(rule, table[j], pk) && Agree(rule, names, table[t] + sets, table[j]) {
      assert Agree(rule, names, after[t], after[j]);
      assert Agree(rule, names, after[if j < t then j else t], after[if j < t then t else j]);
    } else {
      forall i, j | 0 <= i < j < |after| ensures !Agree(rule, names, after[i], after[j]) {
        assert !Agree(rule, names, table[i], table[j]);
      }
    }
  }

  lemma KeysAfterUpdate(rule: EntityRule, table: seq<Row>, pk: int, sets: Row)
    requires Keyed(rule, table) && rule.primaryKey !in sets
    ensures Keyed(rule, UpdateWhere(rule, table, pk, sets))
    ensures forall i :: 0 <= i < |table| ==> UpdateWhere(rule, table, pk, sets)[i][rule.primaryKey] == table[i][rule.primaryKey]
  {
    var after := UpdateWhere(rule, table, pk, sets);
    assert forall i :: 0 <= i < |table| ==> after[i][rule.primaryKey] == table[i][rule.primaryKey];
  }

  lemma UpdateSetsFacts(rule: EntityRule, change: Change, now: string, operatorKey: int, row: Row)
    requires WellFormed(rule) && LeavesManagedAlone(rule, change) && change.operation == Update
    ensures var sets := Sets(rule, change, now, operatorKey);
            && rule.primaryKey !in sets
            && (IsActive(rule, row + sets) <==> IsActive(rule, row))
            && forall c :: c !in Managed(rule) ==>
                 (c in row + change.columns <==> c in row + sets) && (c in row + sets ==> (row + change.columns)[c] == (row + sets)[c])
  {
    assert rule.updatedAt.Some? ==> rule.updatedAt.value in Managed(rule);
    assert rule.updatedBy.Some? ==> rule.updatedBy.value in Managed(rule);
  }

  lemma NoTargetNoUpdate(rule: EntityRule, table: seq<Row>, pk: int, sets: Row)
    requires forall i :: 0 <= i < |table| ==> !IsTarget(rule, table[i], pk)
    ensures UpdateWhere(rule, table, pk, sets) == table
  {
  }

  lemma UpdateOfSet(rule: EntityRule, table: seq<Row>, change: Change, now: string, operatorKey: int, t: nat, s: nat)
    requires WellFormed(rule) && Consistent(rule, table) && LeavesManagedAlone(rule, change) && change.operation == Update
    requires change.targetPk.Some? && t < |table| && IsTarget(rule, table[t], change.targetPk.value) && s < |rule.uniqueness|
    ensures Distinct(rule, rule.uniqueness[s], UpdateWhere(rule, table, change.targetPk.value, Sets(rule, change, now, operatorKey))) <==>
            (IsActive(rule, table[t]) ==> !IsTaken(rule, table, rule.uniqueness[s], table[t] + change.columns, change.targetPk))
  {
    hide WellFormed, Sets, IsTaken, Managed, Distinct, IsTarget, Keyed;
    var sets, names := Sets(rule, change, now, operatorKey), rule.uniqueness[s];
    UpdateSetsFacts(rule, change, now, operatorKey, table[t]);
    DistinctAfterUpdate(rule, names, table, change.targetPk.value, sets, t);
    SetIsNamed(rule, s);
    forall k | 0 <= k < |names| ensures ColumnOf(rule.fields, names[k]) !in Managed(rule) { UniqueColumnsAreFree(rule, s, k); }
    if IsActive(rule, table[t]) {
      TakenIsAgreement(rule, table, names, table[t] + change.columns, table[t] + sets, change.targetPk);
    }
  }

  lemma UpdateKeepsExactlyWhenFree(rule: EntityRule, table: seq<Row>, change: Change, now: string, operatorKey: int)
    requires WellFormed(rule) && Consistent(rule, table) && LeavesManagedAlone(rule, change)
    requires change.operation == Update && change.targetPk.Some?
    ensures Consistent(rule, UpdateWhere(rule, table, change.targetPk.value, Sets(rule, change, now, operatorKey))) <==>
            StillFree(rule, table, change)
  {
    hide WellFormed, Sets, IsTaken, Managed, Distinct, IsTarget, UniqueKeysIn, UpdateWhere;
    var pk, sets := change.targetPk.value, Sets(rule, change, now, operatorKey);
    var after := UpdateWhere(rule, table, pk, sets);
    if t :| 0 <= t < |table| && IsTarget(rule, table[t], pk) {
      UpdateSetsFacts(rule, change, now, operatorKey, table[t]);
      KeysAfterUpdate(rule, table, pk, sets);
      OnlyOneTarget(rule, table, pk, t);
      forall s | 0 <= s < |rule.uniqueness|
        ensures Distinct(rule, rule.uniqueness[s], after) <==>
                (IsActive(rule, table[t]) ==> !IsTaken(rule, table, rule.uniqueness[s], table[t] + change.columns, change.targetPk))
      {
        UpdateOfSet(rule, table, change, now, operatorKey, t, s);
      }
    } else {
      NoTargetNoUpdate(rule, table, pk, sets);
    }
  }

  lemma OnlyOneTarget(rule: EntityRule, table: seq<Row>, pk: int, t: nat)
    requires Keyed(rule, table) && t < |table| && IsTarget(rule, table[t], pk)
    ensures forall i :: 0 <= i < |table| && IsTarget(rule, table[i], pk) ==> i == t
  {
    forall i | 0 <= i < |table| && IsTarget(rule, table[i], pk) ensures i == t {
      assert KeyIn(table[i], rule.primaryKey) == KeyIn(table[t], rule.primaryKey);
    }
  }

  // ---- deleting ------------------------------------------------------------

  lemma SoftDeleteKeeps(rule: EntityRule, table: seq<Row>, change: Change, now: string, operatorKey: int)
    requires WellFormed(rule) && Consistent(rule, table) && change.operation == Delete && rule.softDelete.Some? && change.targetPk.Some?
    ensures Consistent(rule, UpdateWhere(rule, table, change.targetPk.value, Sets(rule, change, now, operatorKey)))
  {
    hide IsTarget, Distinct, UniqueKeysIn, UpdateWhere, Agree;
    var pk, sets := change.targetPk.value, Sets(rule, change, now, operatorKey);
    KeysAfterUpdate(rule, table, pk, sets);
    if t :| 0 <= t < |table| && IsTarget(rule, table[t], pk) {
      forall s | 0 <= s < |rule.uniqueness| ensures Distinct(rule, rule.uniqueness[s], UpdateWhere(rule, table, pk, sets)) {
        DistinctAfterUpdate(rule, rule.uniqueness[s], table, pk, sets, t);
        forall j | 0 <= j < |table| ensures !Agree(rule, rule.uniqueness[s], table[t] + sets, table[j]) {
          InactiveAgreesWithNothing(rule, rule.uniqueness[s], table[t] + sets, table[j]);
        }
      }
    } else {
      NoTargetNoUpdate(rule, table, pk, sets);
    }
  }

  lemma InactiveAgreesWithNothing(rule: EntityRule, names: seq<string>, a: Row, b: Row)
    requires !IsActive(rule, a)
    ensures !Agree(rule, names, a, b)
  {
  }

  /** What is left after a hard delete keeps its order. */
  lemma {:induction false} DeleteWhereSource(rule: EntityRule, table: seq<Row>, pk: int, i: nat, j: nat) returns (i': nat, j': nat)
    requires i < j < |DeleteWhere(rule, table, pk)|
    ensures i' < j' < |table| && table[i'] == DeleteWhere(rule, table, pk)[i] && table[j'] == DeleteWhere(rule, table, pk)[j]
  {
    var n := |table| - 1;
    var rest := DeleteWhere(rule, table[..n], pk);
    if j < |rest| {
      i', j' := DeleteWhereSource(rule, table[..n], pk, i, j);
    } else {
      i' := DeleteWhereOne(rule, table[..n], pk, i);
      j' := n;
    }
  }

  lemma {:induction false} DeleteWhereOne(rule: EntityRule, table: seq<Row>, pk: int, i: nat) returns (i': nat)
    requires i < |DeleteWhere(rule, table, pk)|
    ensures i' < |table| && table[i'] == DeleteWhere(rule, table, pk)[i]
  {
    var n := |table| - 1;
    if i < |DeleteWhere(rule, table[..n], pk)| {
      i' := DeleteWhereOne(rule, table[..n], pk, i);
    } else {
      i' := n;
    }
  }

  lemma HardDeleteKeeps(rule: EntityRule, table: seq<Row>, pk: int)
    requires Consistent(rule, table)
    ensures Consistent(rule, DeleteWhere(rule, table, pk))
  {
    hide DeleteWhere, Agree;
    var after := DeleteWhere(rule, table, pk);
    forall i | 0 <= i < |after| ensures HasKeyIn(after[i], rule.primaryKey) {
      var i' := DeleteWhereOne(rule, table, pk, i);
    }
    forall i, j | 0 <= i < j < |after|
      ensures HasKeyIn(after[i], rule.primaryKey) && HasKeyIn(after[j], rule.primaryKey) ==>
                KeyIn(after[i], rule.primaryKey) != KeyIn(after[j], rule.primaryKey)
      ensures forall s :: 0 <= s < |rule.uniqueness| ==> !Agree(rule, rule.uniqueness[s], after[i], after[j])
    {
      var i', j' := DeleteWhereSource(rule, table, pk, i, j);
    }
  }

  // ---- the commit theorem --------------------------------------------------

  /** A commit keeps the table consistent exactly when the check would pass now. */
  lemma CommitKeepsExactlyWhenFree(rule: EntityRule, table: seq<Row>, change: Change, now: string, operatorKey: int, after: seq<Row>)
    requires WellFormed(rule) && Consistent(rule, table) && LeavesManagedAlone(rule, change)
    requires Applied(rule, table, change, now, operatorKey) == Some(after)
    ensures Consistent(rule, after) <==> StillFree(rule, table, change)
  {
    hide Consistent, WellFormed, UpdateWhere, DeleteWhere, Sets, CreatedRow, LeavesManagedAlone;
    match change.operation {
      case Create => CreateKeepsExactlyWhenFree(rule, table, change, now, operatorKey);
      case Update =>
        if change.targetPk.Some? { UpdateKeepsExactlyWhenFree(rule, table, change, now, operatorKey); }
      case Delete =>
        if change.targetPk.Some? {
          if rule.softDelete.Some? { SoftDeleteKeeps(rule, table, change, now, operatorKey); }
          else { HardDeleteKeeps(rule, table, change.targetPk.value); }
        }
    }
  }

  // ---- validation makes the condition hold ---------------------------------

  /** `change` is what validation makes of some request against `table`. */
  ghost predicate ValidatedAgainst(rule: EntityRule, table: seq<Row>, change: Change) {
    exists fields: Fields, lookups: Lookups, unknown: seq<string> ::
      Objections(rule, table, lookups, change.operation, fields, change.targetPk, unknown) == []
      && change == ChangeFor(rule, change.operation, fields, change.targetPk)
  }

  /** An update gives every field of a uniqueness set or none; a create names no
      target. One-field sets are always whole. */
  ghost predicate Whole(rule: EntityRule, change: Change) {
    match change.operation
    case Create => change.targetPk.None?
    case Update =>
      forall s :: 0 <= s < |rule.uniqueness| ==>
        AllIn(rule.uniqueness[s], rule.fields, change.columns)
        || forall k :: 0 <= k < |rule.uniqueness[s]| ==> ColumnOf(rule.fields, rule.uniqueness[s][k]) !in change.columns
    case Delete => true
  }

  lemma OneFieldSetsAreWhole(rule: EntityRule, change: Change)
    requires WellFormed(rule) && (change.operation == Create ==> change.targetPk.None?)
    requires forall s :: 0 <= s < |rule.uniqueness| ==> |rule.uniqueness[s]| == 1
    ensures Whole(rule, change)
  {
    forall s | 0 <= s < |rule.uniqueness| ensures Named(rule, rule.uniqueness[s]) {}
  }

  lemma {:induction false} CoercedIsDeclared(rules: seq<FieldRule>, fields: Fields, c: string)
    requires c in Coerced(rules, fields)
    ensures exists i :: 0 <= i < |rules| && rules[i].column == c
  {
    var n := |rules| - 1;
    if c in Coerced(rules[..n], fields) {
      CoercedIsDeclared(rules[..n], fields, c);
      var i :| 0 <= i < n && rules[..n][i].column == c;
      assert rules[i].column == c;
    } else {
      assert rules[n].column == c;
    }
  }

  /** What validation establishes: only declared columns, and no set it was given in
      full is taken. */
  lemma ValidatedFacts(rule: EntityRule, table: seq<Row>, change: Change)
    requires WellFormed(rule) && ValidatedAgainst(rule, table, change)
    ensures LeavesManagedAlone(rule, change) && ColumnsDeclared(rule, change.columns)
    ensures change.operation != Create ==> change.targetPk.Some?
    ensures change.operation == Delete ==> change.columns == map[]
    ensures change.operation != Delete ==>
              forall s :: 0 <= s < |rule.uniqueness| ==> !IsTaken(rule, table, rule.uniqueness[s], change.columns, change.targetPk)
  {
    hide CoercionObjections, Coerced, CountTargets, UniquenessObjections, IsTaken, UnknownObjections, ReferenceObjections;
    var fields: Fields, lookups: Lookups, unknown: seq<string> :|
      Objections(rule, table, lookups, change.operation, fields, change.targetPk, unknown) == []
      && change == ChangeFor(rule, change.operation, fields, change.targetPk);
    forall c | c in change.columns ensures c !in Managed(rule) && exists i :: 0 <= i < |rule.fields| && rule.fields[i].column == c {
      CoercedIsDeclared(rule.fields, fields, c);
    }
    if change.operation != Delete {
      var objections := FieldObjections(rule, table, lookups, change.operation == Create, fields, change.targetPk, unknown);
      assert objections == [];
      assert |UniquenessObjections(rule, table, rule.uniqueness, change.columns, change.targetPk)| == 0;
      SetsAreFree(rule, table, rule.uniqueness, change.columns, change.targetPk);
    }
  }

  /** Columns that give a whole set, or nothing of it, leave an active row free. */
  lemma WholeSetIsFree(rule: EntityRule, names: seq<string>, table: seq<Row>, columns: Row, pk: int, t: nat)
    requires Keyed(rule, table) && Distinct(rule, names, table) && Named(rule, names)
    requires t < |table| && IsTarget(rule, table[t], pk) && IsActive(rule, table[t])
    requires IsActive(rule, table[t] + columns)
    requires || AllIn(names, rule.fields, columns)
             || forall k :: 0 <= k < |names| ==> ColumnOf(rule.fields, names[k]) !in columns
    requires !IsTaken(rule, table, names, columns, Some(pk))
    ensures !IsTaken(rule, table, names, table[t] + columns, Some(pk))
  {
    hide IsTaken, Agree;
    OnlyOneTarget(rule, table, pk, t);
    TakenIsAgreement(rule, table, names, table[t] + columns, table[t] + columns, Some(pk));
    if AllIn(names, rule.fields, columns) {
      TakenIsAgreement(rule, table, names, columns, table[t] + columns, Some(pk));
    } else {
      forall j | 0 <= j < |table| && !IsTarget(rule, table[j], pk) ensures !Agree(rule, names, table[t] + columns, table[j]) {
        AgreeIsSymmetric(rule, names, table[t], table[j]);
        SameOnSet(rule, names, table[t], table[t] + columns, table[j]);
      }
    }
  }

  lemma SameOnSet(rule: EntityRule, names: seq<string>, a: Row, a': Row, b: Row)
    requires IsActive(rule, a) && IsActive(rule, a') && Mirrors(rule, names, a, a')
    ensures Agree(rule, names, a, b) <==> Agree(rule, names, a', b)
  {
  }

  /** A change validated against the current table passes the commit condition. */
  lemma ValidatedIsFree(rule: EntityRule, table: seq<Row>, change: Change)
    requires WellFormed(rule) && Consistent(rule, table) && ValidatedAgainst(rule, table, change) && Whole(rule, change)
    ensures LeavesManagedAlone(rule, change) && StillFree(rule, table, change)
  {
    hide IsTaken, Distinct, Keyed, AllIn, Named, ValidatedAgainst, IsTarget, Managed;
    ValidatedFacts(rule, table, change);
    if change.operation == Update {
      forall i, s | 0 <= i < |table| && 0 <= s < |rule.uniqueness|
        && IsTarget(rule, table[i], change.targetPk.value) && IsActive(rule, table[i])
        ensures !IsTaken(rule, table, rule.uniqueness[s], table[i] + change.columns, change.targetPk)
      {
        ColumnsKeepActive(rule, table[i], change);
        WholeSetIsFree(rule, rule.uniqueness[s], table, change.columns, change.targetPk.value, i);
      }
    }
  }

  lemma ColumnsKeepActive(rule: EntityRule, row: Row, change: Change)
    requires LeavesManagedAlone(rule, change)
    ensures IsActive(rule, row + change.columns) <==> IsActive(rule, row)
  {
  }

  // ---- what validation asks ------------------------------------------------

  /** A field given must read as its type and meet every check; a create needs the
      required ones. */
  ghost predicate IsFine(f: FieldRule, fields: Fields, creating: bool) {
    if f.name in fields && fields[f.name] != "" then
      f.coerce(fields[f.name]).Some? && forall check :: Meets(f.checks, check, f.coerce(fields[f.name]).value)
    else !(creating && f.required)
  }

  ghost predicate Acceptable(rule: EntityRule, table: seq<Row>, lookups: Lookups, operation: Operation, fields: Fields,
                             targetPk: Option<int>)
  {
    && operation in rule.operations
    && (operation != Create ==> targetPk.Some? && CountTargets(rule, table, targetPk.value) == 1)
    && (operation != Delete ==>
          && (forall name :: name in fields ==> FieldNamed(rule.fields, name).Some?)
          && (forall i :: 0 <= i < |rule.fields| ==> IsFine(rule.fields[i], fields, operation == Create))
          && (forall s :: 0 <= s < |rule.uniqueness| ==>
                !IsTaken(rule, table, rule.uniqueness[s], Coerced(rule.fields, fields), targetPk))
          && (forall i :: 0 <= i < |rule.references| ==> HasReferent(rule.fields, lookups, fields, rule.references[i])))
  }

  lemma ChecksAreMet(f: FieldRule, v: Value)
    ensures CheckObjections(f, v, CHECK_ORDER) == [] <==> forall check :: Meets(f.checks, check, v)
  {
    hide Meets, CheckObjections;
    ChecksInOrder(f, v);
    if CheckObjections(f, v, CHECK_ORDER) == [] {
      forall check ensures Meets(f.checks, check, v) {
        match check {
          case MaxLength =>
          case Format =>
          case Minimum =>
          case Maximum =>
          case AllowedValue =>
        }
      }
    }
  }

  lemma {:induction false} NothingDangles(rules: seq<FieldRule>, lookups: Lookups, fields: Fields, references: seq<Reference>)
    ensures ReferenceObjections(rules, lookups, fields, references) == [] <==>
            forall i :: 0 <= i < |references| ==> HasReferent(rules, lookups, fields, references[i])
  {
    hide IsDangling, HasReferent;
    if references != [] {
      var n := |references| - 1;
      NothingDangles(rules, lookups, fields, references[..n]);
      forall i | 0 <= i < n ensures references[..n][i] == references[i] {}
      DanglingSays(rules, lookups, fields, references[n]);
    }
  }

  lemma {:induction false} FieldsAreFine(rules: seq<FieldRule>, fields: Fields, creating: bool)
    ensures CoercionObjections(rules, fields, creating) == [] <==> forall i :: 0 <= i < |rules| ==> IsFine(rules[i], fields, creating)
  {
    if rules != [] {
      hide CheckObjections, Meets;
      var n := |rules| - 1;
      FieldsAreFine(rules[..n], fields, creating);
      forall i | 0 <= i < n ensures rules[..n][i] == rules[i] {}
      var f := rules[n];
      if Given(fields, f.name) && f.coerce(fields[f.name]).Some? { ChecksAreMet(f, f.coerce(fields[f.name]).value); }
    }
  }

  lemma {:induction false} SetsAreFree(rule: EntityRule, table: seq<Row>, sets: seq<seq<string>>, columns: Row, except: Option<int>)
    ensures UniquenessObjections(rule, table, sets, columns, except) == [] <==>
            forall s :: 0 <= s < |sets| ==> !IsTaken(rule, table, sets[s], columns, except)
  {
    hide IsTaken;
    if sets != [] {
      var n := |sets| - 1;
      SetsAreFree(rule, table, sets[..n], columns, except);
      forall s | 0 <= s < n ensures sets[..n][s] == sets[s] {}
    }
  }

  lemma NoUnknown(unknown: seq<string>, rules: seq<FieldRule>, fields: Fields)
    requires multiset(unknown) == multiset(UnknownNames(rules, fields))
    ensures UnknownObjections(unknown) == [] <==> forall name :: name in fields ==> FieldNamed(rules, name).Some?
  {
    hide FieldNamed;
    if unknown == [] {
      forall name | name in fields ensures FieldNamed(rules, name).Some? {
        assert name !in multiset(UnknownNames(rules, fields));
      }
    } else {
      assert unknown[0] in multiset(unknown);
      assert unknown[0] in UnknownNames(rules, fields);
    }
  }

  /** Validation objects to nothing exactly when every check is met. */
  lemma ValidationAcceptsExactly(rule: EntityRule, table: seq<Row>, lookups: Lookups, operation: Operation, fields: Fields,
                                 targetPk: Option<int>, unknown: seq<string>)
    requires ReadsFields(rule, operation, targetPk) ==> multiset(unknown) == multiset(UnknownNames(rule.fields, fields))
    ensures Objections(rule, table, lookups, operation, fields, targetPk, unknown) == [] <==>
            Acceptable(rule, table, lookups, operation, fields, targetPk)
  {
    hide IsTaken, CountTargets, Coerced, CoercionObjections, UniquenessObjections, IsFine, ReferenceObjections, HasReferent, UnknownNames,
         UnknownObjections, FieldNamed;
    FieldsAreFine(rule.fields, fields, operation == Create);
    SetsAreFree(rule, table, rule.uniqueness, Coerced(rule.fields, fields), targetPk);
    NothingDangles(rule.fields, lookups, fields, rule.references);
    if ReadsFields(rule, operation, targetPk) { NoUnknown(unknown, rule.fields, fields); }
    var found := FieldObjections(rule, table, lookups, operation == Create, fields, targetPk, unknown);
    assert |found| == |UnknownObjections(unknown)| + |CoercionObjections(rule.fields, fields, operation == Create)|
                      + |UniquenessObjections(rule, table, rule.uniqueness, Coerced(rule.fields, fields), targetPk)|
                      + |ReferenceObjections(rule.fields, lookups, fields, rule.references)|;
  }

  /** In a keyed table the count of targets is one exactly when there is one. */
  lemma {:induction false} OneTarget(rule: EntityRule, table: seq<Row>, pk: int)
    requires Keyed(rule, table)
    ensures CountTargets(rule, table, pk) == if exists i :: 0 <= i < |table| && IsTarget(rule, table[i], pk) then 1 else 0
  {
    if table != [] {
      var n := |table| - 1;
      var rest := table[..n];
      OneTarget(rule, rest, pk);
      assert HasKeyIn(table[n], rule.primaryKey);
      if i :| 0 <= i < n && IsTarget(rule, rest[i], pk) {
        assert IsTarget(rule, table[i], pk);
        assert KeyIn(table[i], rule.primaryKey) != KeyIn(table[n], rule.primaryKey);
      } else {
        assert forall i :: 0 <= i < n ==> rest[i] == table[i];
      }
    }
  }

  /** Field `i` is given and reads as its type. */
  ghost predicate Reads(rules: seq<FieldRule>, fields: Fields, i: int) {
    0 <= i < |rules| && rules[i].name in fields && fields[rules[i].name] != "" && rules[i].coerce(fields[rules[i].name]).Some?
  }

  /** Field `i` is read, and no later one with its column is. */
  ghost predicate Decides(rules: seq<FieldRule>, fields: Fields, i: int) {
    Reads(rules, fields, i) && forall j :: i < j && Reads(rules, fields, j) ==> rules[j].column != rules[i].column
  }

  lemma DecidesStep(rules: seq<FieldRule>, fields: Fields, i: int)
    requires rules != []
    ensures var n := |rules| - 1;
            && (Decides(rules, fields, n) <==> Reads(rules, fields, n))
            && (i != n && Decides(rules[..n], fields, i) ==>
                  0 <= i < n && (Decides(rules, fields, i) <==> !(Reads(rules, fields, n) && rules[n].column == rules[i].column)))
            && (i != n && Decides(rules, fields, i) ==> 0 <= i < n && Decides(rules[..n], fields, i))
  {
    var n := |rules| - 1;
    assert forall k :: k != n ==> (Reads(rules[..n], fields, k) <==> Reads(rules, fields, k));
  }

  /** The typed columns are exactly those of the fields that are read, and each holds what
      the last of them reads as. */
  lemma {:induction false} CoercedHoldsValues(rules: seq<FieldRule>, fields: Fields)
    ensures forall c :: c in Coerced(rules, fields) ==> exists i :: Decides(rules, fields, i) && rules[i].column == c
    ensures forall i :: Decides(rules, fields, i) ==>
              var c := rules[i].column;
              c in Coerced(rules, fields) && rules[i].coerce(fields[rules[i].name]) == Some(Coerced(rules, fields)[c])
  {
    if rules != [] {
      var n := |rules| - 1;
      var rest, columns := rules[..n], Coerced(rules, fields);
      CoercedHoldsValues(rest, fields);
      DecidesStep(rules, fields, n);
      forall c | c in columns ensures exists i :: Decides(rules, fields, i) && rules[i].column == c {
        if !(Reads(rules, fields, n) && rules[n].column == c) {
          assert c in Coerced(rest, fields);
          var i :| Decides(rest, fields, i) && rest[i].column == c;
          DecidesStep(rules, fields, i);
          assert Decides(rules, fields, i) && rules[i].column == c;
        }
      }
      forall i | Decides(rules, fields, i) && i != n ensures Decides(rest, fields, i) && rest[i] == rules[i] {
        DecidesStep(rules, fields, i);
      }
    }
  }

  // ---- what each objection means -------------------------------------------

  /** A value fails a check exactly when it is too long or badly formed for a text, too
      small or too large for a number, or none of the values allowed. */
  lemma ChecksSay(checks: Checks, v: Value)
    ensures !Meets(checks, MaxLength, v) <==> v.Text? && checks.maxLength.Some? && checks.maxLength.value < |v.s|
    ensures !Meets(checks, Format, v) <==> v.Text? && checks.format.Some? && !checks.format.value(v.s)
    ensures !Meets(checks, Minimum, v) <==> v.Number? && checks.minimum.Some? && (v.n as real) < checks.minimum.value
    ensures !Meets(checks, Maximum, v) <==> v.Number? && checks.maximum.Some? && checks.maximum.value < v.n as real
    ensures !Meets(checks, AllowedValue, v) <==>
            checks.allowed.Some? && forall k :: 0 <= k < |checks.allowed.value| ==> checks.allowed.value[k] != v
  {
  }

  /** A row counts unless the rule marks deleted rows and it is not marked as active. */
  lemma ActiveSays(rule: EntityRule, row: Row)
    ensures rule.softDelete.None? ==> IsActive(rule, row)
    ensures forall column, active, deleted :: rule.softDelete == Some(SoftDelete(column, active, deleted)) ==>
              (IsActive(rule, row) <==> HoldsNumber(row, column, active))
  {
  }

  lemma {:induction false} FieldNamedSays(rules: seq<FieldRule>, name: string)
    ensures FieldNamed(rules, name).None? <==> forall i :: 0 <= i < |rules| ==> rules[i].name != name
    ensures FieldNamed(rules, name).Some? ==> FieldNamed(rules, name).value in rules && FieldNamed(rules, name).value.name == name
  {
    if rules != [] {
      FieldNamedSays(rules[..|rules| - 1], name);
      forall i | 0 <= i < |rules| - 1 ensures rules[..|rules| - 1][i] == rules[i] {}
      assert rules == rules[..|rules| - 1] + [rules[|rules| - 1]];
    }
  }

  /** The field is asked for and blank. */
  ghost predicate IsLeftOut(f: FieldRule, fields: Fields, creating: bool) {
    creating && f.required && (f.name !in fields || fields[f.name] == "")
  }

  /** The field is given as a value that fails the check. */
  ghost predicate FailsCheck(f: FieldRule, fields: Fields, check: Check) {
    && f.name in fields && fields[f.name] != "" && f.coerce(fields[f.name]).Some?
    && !Meets(f.checks, check, f.coerce(fields[f.name]).value)
  }

  ghost predicate IsMistyped(f: FieldRule, fields: Fields) {
    f.name in fields && fields[f.name] != "" && f.coerce(fields[f.name]).None?
  }

  lemma CheckObjectionsSay(f: FieldRule, v: Value, check: Check, name: string)
    ensures NotAccepted(name, check) in CheckObjections(f, v, CHECK_ORDER) <==> name == f.name && !Meets(f.checks, check, v)
    ensures forall o :: o in CheckObjections(f, v, CHECK_ORDER) ==> o.NotAccepted?
  {
    hide Meets, CheckObjections;
    ChecksInOrder(f, v);
    match check {
      case MaxLength =>
      case Format =>
      case Minimum =>
      case Maximum =>
      case AllowedValue =>
    }
  }

  /** An objection for exactly the fields left out, the values mistyped, and the checks
      failed. */
  lemma {:induction false} CoercionObjectionsSay(rules: seq<FieldRule>, fields: Fields, creating: bool, name: string, check: Check)
    ensures var found := CoercionObjections(rules, fields, creating);
            && (FieldRequired(name) in found <==> exists i :: 0 <= i < |rules| && rules[i].name == name && IsLeftOut(rules[i], fields, creating))
            && (WrongType(name) in found <==> exists i :: 0 <= i < |rules| && rules[i].name == name && IsMistyped(rules[i], fields))
            && (NotAccepted(name, check) in found <==>
                  exists i :: 0 <= i < |rules| && rules[i].name == name && FailsCheck(rules[i], fields, check))
  {
    if rules == [] {
      assert CoercionObjections(rules, fields, creating) == [];
    } else {
      hide CoercionObjections, IsLeftOut, IsMistyped, FailsCheck;
      var n := |rules| - 1;
      CoercionObjectionsSay(rules[..n], fields, creating, name, check);
      assert forall i :: 0 <= i < n ==> rules[..n][i] == rules[i];
      LastObjections(rules, fields, creating);
      OneFieldSays(rules[n], fields, creating, name, check);
    }
  }

  lemma OneFieldSays(f: FieldRule, fields: Fields, creating: bool, name: string, check: Check)
    ensures var found := CoercionObjections([f], fields, creating);
            && (FieldRequired(name) in found <==> f.name == name && IsLeftOut(f, fields, creating))
            && (WrongType(name) in found <==> f.name == name && IsMistyped(f, fields))
            && (NotAccepted(name, check) in found <==> f.name == name && FailsCheck(f, fields, check))
  {
    hide CheckObjections, Meets;
    assert [f][..0] == [];
    if Given(fields, f.name) && f.coerce(fields[f.name]).Some? {
      CheckObjectionsSay(f, f.coerce(fields[f.name]).value, check, name);
    }
  }

  lemma LastObjections(rules: seq<FieldRule>, fields: Fields, creating: bool)
    requires rules != []
    ensures CoercionObjections(rules, fields, creating) ==
            CoercionObjections(rules[..|rules| - 1], fields, creating) + CoercionObjections([rules[|rules| - 1]], fields, creating)
  {
    assert [rules[|rules| - 1]][..0] == [];
  }

  /** The reference finds its row: nothing to look for, or a row of the table referred to
      that holds the value. */
  ghost predicate HasReferent(rules: seq<FieldRule>, lookups: Lookups, fields: Fields, ref: Reference) {
    && ref.field in fields && fields[ref.field] != "" && FieldNamed(rules, ref.field).Some?
    && FieldNamed(rules, ref.field).value.coerce(fields[ref.field]).Some? ==>
      var v := FieldNamed(rules, ref.field).value.coerce(fields[ref.field]).value;
      v != Null && ref.table in lookups && exists row :: row in lookups[ref.table] && ref.column in row && row[ref.column] == v
  }

  lemma DanglingSays(rules: seq<FieldRule>, lookups: Lookups, fields: Fields, ref: Reference)
    ensures IsDangling(rules, lookups, fields, ref) <==> !HasReferent(rules, lookups, fields, ref)
  {
    hide FieldNamed;
    if ref.table in lookups {
      var rows := lookups[ref.table];
      if row :| row in rows && ref.column in row {
        var i :| 0 <= i < |rows| && rows[i] == row;
      }
    }
  }

  lemma {:induction false} ReferenceObjectionsSay(rules: seq<FieldRule>, lookups: Lookups, fields: Fields, references: seq<Reference>, o: Violation)
    ensures o in ReferenceObjections(rules, lookups, fields, references) <==>
            o.ReferenceMissing? && exists i :: 0 <= i < |references| && references[i].field == o.name
                                               && !HasReferent(rules, lookups, fields, references[i])
  {
    if references == [] {
      assert ReferenceObjections(rules, lookups, fields, references) == [];
    } else {
      hide HasReferent, IsDangling;
      var n := |references| - 1;
      ReferenceObjectionsSay(rules, lookups, fields, references[..n], o);
      DanglingSays(rules, lookups, fields, references[n]);
      assert forall i :: 0 <= i < n ==> references[..n][i] == references[i];
    }
  }

  lemma {:induction false} UniquenessObjectionsSay(rule: EntityRule, table: seq<Row>, sets: seq<seq<string>>, columns: Row,
                                                   except: Option<int>, o: Violation)
    ensures o in UniquenessObjections(rule, table, sets, columns, except) <==>
            o.NotUnique? && o.fields in sets && IsTaken(rule, table, o.fields, columns, except)
  {
    if sets != [] {
      hide IsTaken;
      UniquenessObjectionsSay(rule, table, sets[..|sets| - 1], columns, except, o);
      assert sets == sets[..|sets| - 1] + [sets[|sets| - 1]];
    }
  }

  lemma {:induction false} CoercionObjectionKinds(rules: seq<FieldRule>, fields: Fields, creating: bool)
    ensures forall o :: o in CoercionObjections(rules, fields, creating) ==> o.FieldRequired? || o.WrongType? || o.NotAccepted?
  {
    if rules != [] {
      hide CheckObjections;
      var f := rules[|rules| - 1];
      CoercionObjectionKinds(rules[..|rules| - 1], fields, creating);
      if Given(fields, f.name) && f.coerce(fields[f.name]).Some? {
        CheckObjectionsSay(f, f.coerce(fields[f.name]).value, MaxLength, f.name);
      }
    }
  }

  lemma UnknownObjectionsSay(names: seq<string>, o: Violation)
    ensures o in UnknownObjections(names) <==> o.UnknownField? && o.name in names
  {
    if o.UnknownField? && o.name in names {
      var i :| 0 <= i < |names| && names[i] == o.name;
      assert UnknownObjections(names)[i] == o;
    }
  }

  /** The objections a change can meet, each for the one reason there is to raise it. */
  ghost predicate IsDue(rule: EntityRule, table: seq<Row>, lookups: Lookups, operation: Operation, fields: Fields, targetPk: Option<int>,
                        o: Violation)
  {
    match o
    case OperationNotAllowed => operation !in rule.operations
    case TargetRequired => operation in rule.operations && operation != Create && targetPk.None?
    case TargetNotFound =>
      && operation in rule.operations && operation != Create && targetPk.Some? && CountTargets(rule, table, targetPk.value) != 1
      && forall other :: !IsFieldDue(rule, table, lookups, operation, fields, targetPk, other)
    case _ => IsFieldDue(rule, table, lookups, operation, fields, targetPk, o)
  }

  /** Those about the fields of a create or an update. */
  ghost predicate IsFieldDue(rule: EntityRule, table: seq<Row>, lookups: Lookups, operation: Operation, fields: Fields, targetPk: Option<int>,
                         o: Violation)
  {
    && operation in rule.operations && (operation == Create || (operation == Update && targetPk.Some?))
    && match o
       case UnknownField(name) => name in fields && forall i :: 0 <= i < |rule.fields| ==> rule.fields[i].name != name
       case FieldRequired(name) => exists i :: 0 <= i < |rule.fields| && rule.fields[i].name == name
                                               && IsLeftOut(rule.fields[i], fields, operation == Create)
       case WrongType(name) => exists i :: 0 <= i < |rule.fields| && rule.fields[i].name == name && IsMistyped(rule.fields[i], fields)
       case NotAccepted(name, check) => exists i :: 0 <= i < |rule.fields| && rule.fields[i].name == name && FailsCheck(rule.fields[i], fields, check)
       case NotUnique(names) => names in rule.uniqueness && IsTaken(rule, table, names, Coerced(rule.fields, fields), targetPk)
       case ReferenceMissing(name) => exists i :: 0 <= i < |rule.references| && rule.references[i].field == name
                                                  && !HasReferent(rule.fields, lookups, fields, rule.references[i])
       case _ => false
  }

  lemma FieldObjectionsSay(rule: EntityRule, table: seq<Row>, lookups: Lookups, operation: Operation, fields: Fields, targetPk: Option<int>,
                           unknown: seq<string>, o: Violation)
    requires ReadsFields(rule, operation, targetPk) && multiset(unknown) == multiset(UnknownNames(rule.fields, fields))
    ensures o in FieldObjections(rule, table, lookups, operation == Create, fields, targetPk, unknown) <==>
            IsFieldDue(rule, table, lookups, operation, fields, targetPk, o)
  {
    hide CoercionObjections, UniquenessObjections, ReferenceObjections, UnknownObjections, IsTaken, Coerced, FieldNamed, HasReferent,
         IsLeftOut, IsMistyped, FailsCheck;
    UnknownObjectionsSay(unknown, o);
    UniquenessObjectionsSay(rule, table, rule.uniqueness, Coerced(rule.fields, fields), targetPk, o);
    ReferenceObjectionsSay(rule.fields, lookups, fields, rule.references, o);
    CoercionObjectionKinds(rule.fields, fields, operation == Create);
    match o {
      case UnknownField(name) =>
        FieldNamedSays(rule.fields, name);
        assert name in unknown <==> name in multiset(unknown);
      case FieldRequired(name) => CoercionObjectionsSay(rule.fields, fields, operation == Create, name, MaxLength);
      case WrongType(name) => CoercionObjectionsSay(rule.fields, fields, operation == Create, name, MaxLength);
      case NotAccepted(name, check) => CoercionObjectionsSay(rule.fields, fields, operation == Create, name, check);
      case _ =>
    }
  }

  lemma FieldsAreRead(rule: EntityRule, table: seq<Row>, lookups: Lookups, operation: Operation, fields: Fields, targetPk: Option<int>, o: Violation)
    requires IsFieldDue(rule, table, lookups, operation, fields, targetPk, o)
    ensures ReadsFields(rule, operation, targetPk) && !o.OperationNotAllowed? && !o.TargetRequired? && !o.TargetNotFound?
  {
  }

  /** Main result on objections: one is among those found exactly when it is due, the missing
      target only when nothing else is. */
  lemma ObjectionsSay(rule: EntityRule, table: seq<Row>, lookups: Lookups, operation: Operation, fields: Fields, targetPk: Option<int>,
                      unknown: seq<string>, o: Violation)
    requires ReadsFields(rule, operation, targetPk) ==> multiset(unknown) == multiset(UnknownNames(rule.fields, fields))
    ensures o in Objections(rule, table, lookups, operation, fields, targetPk, unknown) <==>
            IsDue(rule, table, lookups, operation, fields, targetPk, o)
  {
    hide FieldObjections, CountTargets, IsFieldDue;
    var found := FieldObjections(rule, table, lookups, operation == Create, fields, targetPk, unknown);
    forall other | IsFieldDue(rule, table, lookups, operation, fields, targetPk, other)
      ensures ReadsFields(rule, operation, targetPk) && !other.OperationNotAllowed? && !other.TargetRequired? && !other.TargetNotFound?
    {
      FieldsAreRead(rule, table, lookups, operation, fields, targetPk, other);
    }
    if ReadsFields(rule, operation, targetPk) {
      forall other ensures other in found <==> IsFieldDue(rule, table, lookups, operation, fields, targetPk, other) {
        FieldObjectionsSay(rule, table, lookups, operation, fields, targetPk, unknown, other);
      }
      if found != [] { assert found[0] in found; }
    }
  }

  // ---- what a commit leaves alone ------------------------------------------

  ghost function ColumnSet(column: Option<string>): set<string> {
    if column.Some? then {column.value} else {}
  }

  /** Who and when, in the columns the rule names for it. */
  ghost predicate IsStamped(row: Row, whenColumn: Option<string>, whoColumn: Option<string>, now: string, operatorKey: int) {
    && (whoColumn.Some? ==> whoColumn.value in row && row[whoColumn.value] == Number(operatorKey))
    && (whenColumn.Some? && whenColumn != whoColumn ==> whenColumn.value in row && row[whenColumn.value] == Text(now))
  }

  /** A created row: validated columns as they are, then defaults, active, under the next
      key, stamped, and with no other column. */
  ghost predicate IsCreated(rule: EntityRule, table: seq<Row>, change: Change, row: Row, now: string, operatorKey: int) {
    && HoldsNumber(row, rule.primaryKey, NextKeyIn(table, rule.primaryKey))
    && (rule.softDelete.Some? ==> HoldsNumber(row, rule.softDelete.value.column, rule.softDelete.value.activeValue))
    && IsStamped(row, rule.createdAt, rule.createdBy, now, operatorKey)
    && (forall c :: c in change.columns ==> c in row && row[c] == change.columns[c])
    && (forall c :: c in rule.createDefaults && c !in change.columns && c !in Managed(rule) ==> c in row && row[c] == rule.createDefaults[c])
    && row.Keys == CreatedColumns(rule, change)
  }

  ghost function CreatedColumns(rule: EntityRule, change: Change): set<string> {
    {rule.primaryKey} + change.columns.Keys + rule.createDefaults.Keys + ColumnSet(rule.createdAt) + ColumnSet(rule.createdBy)
      + if rule.softDelete.Some? then {rule.softDelete.value.column} else {}
  }

  /** A changed row: an update sets the validated columns, a soft delete marks the row as
      deleted, both stamp it, and neither touches anything else. */
  ghost predicate IsChanged(rule: EntityRule, change: Change, before: Row, after: Row, now: string, operatorKey: int) {
    && IsStamped(after, rule.updatedAt, rule.updatedBy, now, operatorKey)
    && (change.operation == Update ==> forall c :: c in change.columns ==> c in after && after[c] == change.columns[c])
    && (change.operation == Delete && rule.softDelete.Some? ==>
          HoldsNumber(after, rule.softDelete.value.column, rule.softDelete.value.deletedValue))
    && forall c :: c !in Touched(rule, change) ==> (c in before <==> c in after) && (c in before ==> before[c] == after[c])
  }

  ghost function Touched(rule: EntityRule, change: Change): set<string> {
    ColumnSet(rule.updatedAt) + ColumnSet(rule.updatedBy)
      + if change.operation == Update then change.columns.Keys
        else if rule.softDelete.Some? then {rule.softDelete.value.column}
        else {}
  }

  /** A commit adds one row, or changes or removes the one with the key, and leaves
      every other row as it is. */
  lemma CommitTouchesOnlyItsRow(rule: EntityRule, table: seq<Row>, change: Change, now: string, operatorKey: int, after: seq<Row>)
    requires WellFormed(rule) && LeavesManagedAlone(rule, change) && Applied(rule, table, change, now, operatorKey) == Some(after)
    ensures change.operation == Create ==>
              |after| == |table| + 1 && after[..|table|] == table && IsCreated(rule, table, change, after[|table|], now, operatorKey)
    ensures change.operation == Update || (change.operation == Delete && rule.softDelete.Some?) ==>
              |after| == |table| && forall i :: 0 <= i < |table| ==>
                if change.targetPk.Some? && IsTarget(rule, table[i], change.targetPk.value)
                then IsChanged(rule, change, table[i], after[i], now, operatorKey)
                else after[i] == table[i]
    ensures change.operation == Delete && rule.softDelete.None? && change.targetPk.Some? ==>
              forall row :: row in after <==> row in table && !IsTarget(rule, row, change.targetPk.value)
  {
    hide CreatedRow, ColumnsDeclared, DeleteWhere, Sets, Managed, WellFormed, IsCreated, IsChanged, NextKeyIn;
    match change.operation {
      case Create => CreatedAsValidated(rule, table, change, now, operatorKey);
      case Update =>
        forall row { ChangedAsValidated(rule, change, now, operatorKey, row); }
      case Delete =>
        if rule.softDelete.Some? {
          forall row { ChangedAsValidated(rule, change, now, operatorKey, row); }
        } else if change.targetPk.Some? {
          DeleteWhereKeeps(rule, table, change.targetPk.value);
        }
    }
  }

  /** The key a commit reports is that of the row it adds, or else of the row it was for. */
  lemma ReportedKeySays(rule: EntityRule, table: seq<Row>, change: Change, now: string, operatorKey: int, after: seq<Row>)
    requires WellFormed(rule) && LeavesManagedAlone(rule, change) && Applied(rule, table, change, now, operatorKey) == Some(after)
    ensures change.operation == Create ==>
              |after| == |table| + 1 && ReportedKey(rule, table, change).Some?
              && HoldsNumber(after[|table|], rule.primaryKey, ReportedKey(rule, table, change).value)
    ensures change.operation != Create ==> ReportedKey(rule, table, change) == change.targetPk
  {
    hide Applied, WellFormed, LeavesManagedAlone, NextKeyIn;
    CommitTouchesOnlyItsRow(rule, table, change, now, operatorKey, after);
  }

  /** The executor takes a change exactly when it touches declared columns only and, if it
      is an update, has something to set. */
  lemma AppliedSays(rule: EntityRule, table: seq<Row>, change: Change, now: string, operatorKey: int)
    ensures Applied(rule, table, change, now, operatorKey).Some? <==>
            && (change.operation != Delete ==> forall c :: c in change.columns ==> exists i :: 0 <= i < |rule.fields| && rule.fields[i].column == c)
            && (change.operation == Update ==> |change.columns| > 0 || rule.updatedAt.Some? || rule.updatedBy.Some?)
  {
    hide CreatedRow, UpdateWhere, DeleteWhere;
    if change.operation == Update {
      var sets := Sets(rule, change, now, operatorKey);
      assert rule.updatedAt.Some? ==> rule.updatedAt.value in sets;
      assert rule.updatedBy.Some? ==> rule.updatedBy.value in sets;
      assert |change.columns| > 0 ==> change.columns != map[];
      if change.columns != map[] {
        var c :| c in change.columns;
        assert c in sets;
      }
    }
  }

  lemma CreatedAsValidated(rule: EntityRule, table: seq<Row>, change: Change, now: string, operatorKey: int)
    requires WellFormed(rule) && LeavesManagedAlone(rule, change)
    ensures IsCreated(rule, table, change, CreatedRow(rule, table, change.columns, now, operatorKey), now, operatorKey)
  {
    hide NextKeyIn, CreatedRow, WellFormed, CreatedColumns, Managed;
    CreatedRowColumns(rule, table, change, now, operatorKey);
    CreatedRowValues(rule, table, change, now, operatorKey);
    CreatedRowDefaults(rule, table, change, now, operatorKey);
  }

  lemma CreatedRowColumns(rule: EntityRule, table: seq<Row>, change: Change, now: string, operatorKey: int)
    ensures CreatedRow(rule, table, change.columns, now, operatorKey).Keys == CreatedColumns(rule, change)
  {
    hide NextKeyIn;
  }

  lemma CreatedRowValues(rule: EntityRule, table: seq<Row>, change: Change, now: string, operatorKey: int)
    requires WellFormed(rule) && LeavesManagedAlone(rule, change)
    ensures var row := CreatedRow(rule, table, change.columns, now, operatorKey);
            && HoldsNumber(row, rule.primaryKey, NextKeyIn(table, rule.primaryKey))
            && (rule.softDelete.Some? ==> HoldsNumber(row, rule.softDelete.value.column, rule.softDelete.value.activeValue))
            && IsStamped(row, rule.createdAt, rule.createdBy, now, operatorKey)
  {
    hide NextKeyIn;
    assert rule.createdAt.Some? ==> rule.createdAt.value in Managed(rule);
    assert rule.createdBy.Some? ==> rule.createdBy.value in Managed(rule);
  }

  lemma CreatedRowDefaults(rule: EntityRule, table: seq<Row>, change: Change, now: string, operatorKey: int)
    requires WellFormed(rule) && LeavesManagedAlone(rule, change)
    ensures var row := CreatedRow(rule, table, change.columns, now, operatorKey);
            && (forall c :: c in change.columns ==> c in row && row[c] == change.columns[c])
            && (forall c :: c in rule.createDefaults && c !in change.columns && c !in Managed(rule) ==> c in row && row[c] == rule.createDefaults[c])
  {
    hide NextKeyIn;
    assert rule.createdAt.Some? ==> rule.createdAt.value in Managed(rule);
    assert rule.createdBy.Some? ==> rule.createdBy.value in Managed(rule);
  }

  lemma ChangedAsValidated(rule: EntityRule, change: Change, now: string, operatorKey: int, row: Row)
    requires WellFormed(rule) && LeavesManagedAlone(rule, change)
    ensures change.operation == Update || (change.operation == Delete && rule.softDelete.Some?) ==>
              IsChanged(rule, change, row, row + Sets(rule, change, now, operatorKey), now, operatorKey)
  {
    hide Touched, Sets;
    SetsTouch(rule, change, now, operatorKey);
    SetsHold(rule, change, now, operatorKey);
  }

  lemma SetsTouch(rule: EntityRule, change: Change, now: string, operatorKey: int)
    ensures change.operation == Update || (change.operation == Delete && rule.softDelete.Some?) ==>
              Sets(rule, change, now, operatorKey).Keys == Touched(rule, change)
  {
  }

  lemma SetsHold(rule: EntityRule, change: Change, now: string, operatorKey: int)
    requires WellFormed(rule) && LeavesManagedAlone(rule, change)
    ensures var sets := Sets(rule, change, now, operatorKey);
            && IsStamped(sets, rule.updatedAt, rule.updatedBy, now, operatorKey)
            && (change.operation == Update ==> forall c :: c in change.columns ==> c in sets && sets[c] == change.columns[c])
            && (change.operation == Delete && rule.softDelete.Some? ==>
                  HoldsNumber(sets, rule.softDelete.value.column, rule.softDelete.value.deletedValue))
  {
    assert rule.updatedAt.Some? ==> rule.updatedAt.value in Managed(rule);
    assert rule.updatedBy.Some? ==> rule.updatedBy.value in Managed(rule);
  }

  lemma {:induction false} DeleteWhereKeeps(rule: EntityRule, table: seq<Row>, pk: int)
    ensures forall row :: row in DeleteWhere(rule, table, pk) <==> row in table && !IsTarget(rule, row, pk)
  {
    if table != [] {
      var n := |table| - 1;
      DeleteWhereKeeps(rule, table[..n], pk);
      assert table == table[..n] + [table[n]];
    }
  }

  // ---- runs ----------------------------------------------------------------

  /** A commit of `change` takes `before` to `after`; a refused one changes nothing. */
  ghost predicate Commits(rule: EntityRule, before: seq<Row>, change: Change, after: seq<Row>) {
    after == before || exists now: string, operatorKey: int :: Applied(rule, before, change, now, operatorKey) == Some(after)
  }

  ghost predicate IsRun(rule: EntityRule, tables: seq<seq<Row>>, changes: seq<Change>) {
    |tables| == |changes| + 1 && forall i :: 0 <= i < |changes| ==> Commits(rule, tables[i], changes[i], tables[i + 1])
  }

  /** Along a run in which each commit applies a change validated against the table
      of that moment, the table stays consistent. */
  lemma {:induction false} RunsStayConsistent(rule: EntityRule, tables: seq<seq<Row>>, changes: seq<Change>, n: nat)
    requires WellFormed(rule) && IsRun(rule, tables, changes) && Consistent(rule, tables[0]) && n <= |changes|
    requires forall i :: 0 <= i < |changes| ==> ValidatedAgainst(rule, tables[i], changes[i]) && Whole(rule, changes[i])
    ensures Consistent(rule, tables[n])
  {
    hide Consistent, WellFormed, ValidatedAgainst, Whole, Applied;
    if n > 0 {
      RunsStayConsistent(rule, tables, changes, n - 1);
      var before, change, after := tables[n - 1], changes[n - 1], tables[n];
      assert Commits(rule, before, change, after);
      ValidatedIsFree(rule, before, change);
      if after != before {
        var now: string, operatorKey: int :| Applied(rule, before, change, now, operatorKey) == Some(after);
        CommitKeepsExactlyWhenFree(rule, before, change, now, operatorKey, after);
      }
    }
  }

  /** With soft deletion rows are never removed and never change key. */
  ghost predicate KeepsRows(rule: EntityRule, before: seq<Row>, after: seq<Row>) {
    |before| <= |after|
    && forall i :: 0 <= i < |before| && HasKeyIn(before[i], rule.primaryKey) ==>
         HasKeyIn(after[i], rule.primaryKey) && KeyIn(after[i], rule.primaryKey) == KeyIn(before[i], rule.primaryKey)
  }

  lemma CommitKeepsRows(rule: EntityRule, table: seq<Row>, change: Change, now: string, operatorKey: int, after: seq<Row>)
    requires WellFormed(rule) && rule.softDelete.Some? && LeavesManagedAlone(rule, change)
    requires Applied(rule, table, change, now, operatorKey) == Some(after)
    ensures KeepsRows(rule, table, after)
  {
    hide CreatedRow, ColumnsDeclared;
  }

  lemma {:induction false} RunsKeepRows(rule: EntityRule, tables: seq<seq<Row>>, changes: seq<Change>, n: nat)
    requires WellFormed(rule) && rule.softDelete.Some? && IsRun(rule, tables, changes) && n <= |changes|
    requires forall i :: 0 <= i < |changes| ==> LeavesManagedAlone(rule, changes[i])
    ensures KeepsRows(rule, tables[0], tables[n])
  {
    hide WellFormed, LeavesManagedAlone, Applied;
    if n > 0 {
      RunsKeepRows(rule, tables, changes, n - 1);
      var before, change, after := tables[n - 1], changes[n - 1], tables[n];
      assert Commits(rule, before, change, after);
      if after != before {
        var now: string, operatorKey: int :| Applied(rule, before, change, now, operatorKey) == Some(after);
        CommitKeepsRows(rule, before, change, now, operatorKey, after);
      }
    }
  }
}
