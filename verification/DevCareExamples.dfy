/** Where DevCare validation does not protect a commit: a stale check, a create
    that names a target, and a partly given uniqueness set. */
module DevCareExamples {
  import opened Wrappers
  import opened Tables
  import opened DevCareRecords
  import opened DevCareConsistency

  function TextField(name: string, column: string): FieldRule {
    FieldRule(name, column, false, text => Some(Text(text)), Checks(None, None, None, None, None))
  }

  function RuleWith(fields: seq<FieldRule>, uniqueness: seq<seq<string>>): EntityRule {
    EntityRule("Chave", {Create, Update, Delete}, fields, None, uniqueness, [], None, None, None, None, map[])
  }

  const CODED := RuleWith([TextField("code", "Codigo")], [["code"]])
  const PAIRED := RuleWith([TextField("code", "Codigo"), TextField("name", "Nome")], [["code", "name"]])

  function CodedRow(pk: int, code: string): Row { map["Chave" := Number(pk), "Codigo" := Text(code)] }
  function PairedRow(pk: int, code: string, name: string): Row { CodedRow(pk, code)["Nome" := Text(name)] }

  lemma CodedIsWellFormed()
    ensures WellFormed(CODED) && FieldNamed(CODED.fields, "code") == Some(CODED.fields[0]) && ColumnOf(CODED.fields, "code") == "Codigo"
  {
  }

  lemma CodedCreateIsValid(table: seq<Row>, targetPk: Option<int>)
    requires !IsTaken(CODED, table, ["code"], map["Codigo" := Text("A")], targetPk)
    ensures ValidatedAgainst(CODED, table, Change(Create, map["Codigo" := Text("A")], targetPk))
  {
    var fields: Fields := map["code" := "A"];
    CodedIsWellFormed();
    var rule, f := CODED, CODED.fields[0];
    assert rule.fields[..0] == [] && rule.uniqueness[..0] == [];
    assert Coerced([], fields) == map[];
    assert f.coerce(fields["code"]) == Some(Text("A"));
    ChecksAreMet(f, Text("A"));
    assert Coerced(rule.fields, fields) == map["Codigo" := Text("A")];
    assert CoercionObjections(rule.fields, fields, true) == [];
    assert UniquenessObjections(rule, table, rule.uniqueness, map["Codigo" := Text("A")], targetPk) == [];
    assert ReferenceObjections(rule.fields, map[], fields, rule.references) == [] && UnknownObjections([]) == [];
    assert Objections(rule, table, map[], Create, fields, targetPk, []) == [];
  }

  lemma CodedCreateAppends(table: seq<Row>, targetPk: Option<int>)
    ensures Applied(CODED, table, Change(Create, map["Codigo" := Text("A")], targetPk), "", 0) ==
            Some(table + [CodedRow(NextKeyIn(table, "Chave"), "A")])
  {
    var columns := map["Codigo" := Text("A")];
    assert CODED.fields[0].column == "Codigo";
    assert CreatedRow(CODED, table, columns, "", 0) == CodedRow(NextKeyIn(table, "Chave"), "A");
  }

  lemma CodedTables()
    ensures Consistent(CODED, []) && NextKeyIn([], "Chave") == 1
    ensures Consistent(CODED, [CodedRow(1, "A")]) && NextKeyIn([CodedRow(1, "A")], "Chave") == 2
    ensures !Consistent(CODED, [CodedRow(1, "A"), CodedRow(2, "A")])
  {
    CodedIsWellFormed();
    var one, two := [CodedRow(1, "A")], [CodedRow(1, "A"), CodedRow(2, "A")];
    assert one[..0] == [];
    assert Agree(CODED, CODED.uniqueness[0], two[0], two[1]);
  }

  /** Two creates staged before either is committed are both valid, and committing
      both duplicates the value. */
  lemma StaleCreateCollides()
    ensures var change := Change(Create, map["Codigo" := Text("A")], None);
            && WellFormed(CODED) && Consistent(CODED, []) && ValidatedAgainst(CODED, [], change)
            && Applied(CODED, [], change, "", 0) == Some([CodedRow(1, "A")])
            && Applied(CODED, [CodedRow(1, "A")], change, "", 0) == Some([CodedRow(1, "A"), CodedRow(2, "A")])
            && !Consistent(CODED, [CodedRow(1, "A"), CodedRow(2, "A")])
  {
    hide Applied, Consistent, NextKeyIn, ValidatedAgainst, WellFormed;
    CodedIsWellFormed();
    CodedTables();
    CodedCreateIsValid([], None);
    CodedCreateAppends([], None);
    CodedCreateAppends([CodedRow(1, "A")], None);
    assert [] + [CodedRow(1, "A")] == [CodedRow(1, "A")];
    assert [CodedRow(1, "A")] + [CodedRow(2, "A")] == [CodedRow(1, "A"), CodedRow(2, "A")];
  }

  /** A create that names a target skips that row in the check. */
  lemma CreateWithTargetCollides()
    ensures var change := Change(Create, map["Codigo" := Text("A")], Some(1));
            && Consistent(CODED, [CodedRow(1, "A")]) && ValidatedAgainst(CODED, [CodedRow(1, "A")], change)
            && Applied(CODED, [CodedRow(1, "A")], change, "", 0) == Some([CodedRow(1, "A"), CodedRow(2, "A")])
            && !Consistent(CODED, [CodedRow(1, "A"), CodedRow(2, "A")])
  {
    hide Applied, Consistent, NextKeyIn, ValidatedAgainst;
    CodedTables();
    CodedCreateIsValid([CodedRow(1, "A")], Some(1));
    CodedCreateAppends([CodedRow(1, "A")], Some(1));
    assert [CodedRow(1, "A")] + [CodedRow(2, "A")] == [CodedRow(1, "A"), CodedRow(2, "A")];
  }

  /** An update that gives one field of a two-field set is not checked on it. */
  lemma PartialUpdateCollides()
    ensures var table, change := [PairedRow(1, "A", "X"), PairedRow(2, "B", "X")], Change(Update, map["Codigo" := Text("A")], Some(2));
            && WellFormed(PAIRED) && Consistent(PAIRED, table) && ValidatedAgainst(PAIRED, table, change)
            && Applied(PAIRED, table, change, "", 0) == Some([PairedRow(1, "A", "X"), PairedRow(2, "A", "X")])
            && !Consistent(PAIRED, [PairedRow(1, "A", "X"), PairedRow(2, "A", "X")])
  {
    hide Applied, Consistent, ValidatedAgainst, WellFormed;
    PairedIsWellFormed();
    PairedTables();
    PairedUpdateIsValid([PairedRow(1, "A", "X"), PairedRow(2, "B", "X")], Change(Update, map["Codigo" := Text("A")], Some(2)));
    PairedUpdateApplies();
  }

  lemma TwoRows(rule: EntityRule, a: Row, b: Row)
    requires |rule.uniqueness| == 1 && HasKeyIn(a, rule.primaryKey) && HasKeyIn(b, rule.primaryKey)
    requires KeyIn(a, rule.primaryKey) != KeyIn(b, rule.primaryKey)
    ensures Consistent(rule, [a, b]) <==> !Agree(rule, rule.uniqueness[0], a, b)
  {
    hide Agree;
    var table := [a, b];
    assert table[0] == a && table[1] == b;
  }

  lemma PairedRowsAgree(p: int, q: int, code: string, code': string, name: string, name': string)
    ensures Agree(PAIRED, PAIRED.uniqueness[0], PairedRow(p, code, name), PairedRow(q, code', name')) <==> code == code' && name == name'
  {
    hide FieldNamed;
    PairedIsWellFormed();
    var names, a, b := PAIRED.uniqueness[0], PairedRow(p, code, name), PairedRow(q, code', name');
    assert ColumnOf(PAIRED.fields, names[0]) == "Codigo" && ColumnOf(PAIRED.fields, names[1]) == "Nome";
    assert a["Codigo"] == Text(code) && b["Codigo"] == Text(code') && a["Nome"] == Text(name) && b["Nome"] == Text(name');
  }

  lemma PairedTables()
    ensures Consistent(PAIRED, [PairedRow(1, "A", "X"), PairedRow(2, "B", "X")])
    ensures !Consistent(PAIRED, [PairedRow(1, "A", "X"), PairedRow(2, "A", "X")])
  {
    hide Consistent, Agree;
    TwoRows(PAIRED, PairedRow(1, "A", "X"), PairedRow(2, "B", "X"));
    TwoRows(PAIRED, PairedRow(1, "A", "X"), PairedRow(2, "A", "X"));
    PairedRowsAgree(1, 2, "A", "B", "X", "X");
    PairedRowsAgree(1, 2, "A", "A", "X", "X");
  }

  lemma PairedUpdateApplies()
    ensures Applied(PAIRED, [PairedRow(1, "A", "X"), PairedRow(2, "B", "X")], Change(Update, map["Codigo" := Text("A")], Some(2)), "", 0) ==
            Some([PairedRow(1, "A", "X"), PairedRow(2, "A", "X")])
  {
    var table, columns: Row := [PairedRow(1, "A", "X"), PairedRow(2, "B", "X")], map["Codigo" := Text("A")];
    assert PAIRED.fields[0].column == "Codigo";
    var after := UpdateWhere(PAIRED, table, 2, columns);
    assert !IsTarget(PAIRED, table[0], 2) && IsTarget(PAIRED, table[1], 2);
    assert PairedRow(2, "B", "X") + columns == PairedRow(2, "A", "X");
    assert after == [after[0], after[1]];
    var change := Change(Update, columns, Some(2));
    assert Sets(PAIRED, change, "", 0) == columns && columns != map[] by { assert "Codigo" in columns; }
  }

  lemma PairedIsWellFormed()
    ensures WellFormed(PAIRED)
    ensures FieldNamed(PAIRED.fields, "code") == Some(PAIRED.fields[0]) && FieldNamed(PAIRED.fields, "name") == Some(PAIRED.fields[1])
  {
    assert PAIRED.fields[..1] == [PAIRED.fields[0]];
  }

  lemma HalfIsNotChecked(table: seq<Row>)
    ensures !IsTaken(PAIRED, table, PAIRED.uniqueness[0], map["Codigo" := Text("A")], Some(2))
  {
    hide Clashes;
    PairedIsWellFormed();
    assert ColumnOf(PAIRED.fields, PAIRED.uniqueness[0][1]) == "Nome";
  }

  lemma PairedUpdateIsValid(table: seq<Row>, change: Change)
    requires change == Change(Update, map["Codigo" := Text("A")], Some(2))
    requires table == [PairedRow(1, "A", "X"), PairedRow(2, "B", "X")]
    ensures ValidatedAgainst(PAIRED, table, change)
  {
    hide FieldNamed, IsTaken;
    var rule, fields: Fields := PAIRED, map["code" := "A"];
    PairedIsWellFormed();
    assert rule.fields[..1] == [rule.fields[0]] && rule.fields[..1][..0] == [] && rule.uniqueness[..0] == [];
    assert rule.fields[0].coerce(fields["code"]) == Some(Text("A"));
    ChecksAreMet(rule.fields[0], Text("A"));
    assert Coerced(rule.fields[..1], fields) == map["Codigo" := Text("A")];
    assert CoercionObjections(rule.fields[..1], fields, false) == [];
    HalfIsNotChecked(table);
    assert UniquenessObjections(rule, table, rule.uniqueness, change.columns, Some(2)) == [];
    assert ReferenceObjections(rule.fields, map[], fields, rule.references) == [] && UnknownObjections([]) == [];
    assert table[..1][..0] == [] && !IsTarget(rule, table[0], 2) && IsTarget(rule, table[1], 2);
    assert CountTargets(rule, table[..1], 2) == 0;
    assert CountTargets(rule, table, 2) == 1;
    assert Objections(rule, table, map[], Update, fields, Some(2), []) == [];
  }
}
