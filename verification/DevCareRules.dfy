/** The DevCare rule documents that ship, with their field types and checks left
    open: they meet what the results about commits ask of a rule. */
module DevCareRules {
  import opened Wrappers
  import opened Tables
  import opened DevCareRecords
  import opened DevCareConsistency

  /** How a field of each type is read and how each field is checked. */
  datatype Reading = Reading(read: string -> string -> Option<Value>, checks: string -> Checks) {
    function Field(name: string, column: string, kind: string, required: bool): FieldRule {
      FieldRule(name, column, required, read(kind), checks(name))
    }
  }

  const KEPT := {"Chave", "Hist", "DC", "OC", "DUA", "OUA"}

  /** All three documents keep key, soft deletion and audit in the same columns. */
  function Document(fields: seq<FieldRule>, uniqueness: seq<seq<string>>, references: seq<Reference>, defaults: Row): EntityRule {
    EntityRule("Chave", {Create, Update, Delete}, fields, Some(SoftDelete("Hist", 0, 1)), uniqueness, references,
               Some("DC"), Some("OC"), Some("DUA"), Some("OUA"), defaults)
  }

  function Specialty(reading: Reading): EntityRule {
    Document([reading.Field("code", "Codigo", "string", true), reading.Field("name", "Nome", "string", true),
              reading.Field("notes", "Obs", "string", false), reading.Field("is_default", "Predefinido", "int", false)],
             [["code"]], [], map["Listar" := Number(1)])
  }

  function Doctor(reading: Reading): EntityRule {
    Document([reading.Field("name", "Nome", "string", true), reading.Field("specialty", "Especialidade", "int", false),
              reading.Field("license", "Cedula", "string", false), reading.Field("gender", "Sexo", "int", false),
              reading.Field("email", "Email", "string", false), reading.Field("phone", "Telefone1", "string", false),
              reading.Field("mobile", "Telefone2", "string", false), reading.Field("address", "Morada", "string", false),
              reading.Field("city", "Localidade", "string", false), reading.Field("postal_code", "CPostal", "string", false),
              reading.Field("notes", "Obs", "string", false), reading.Field("code", "Codigo", "string", false)],
             [], [Reference("specialty", "Especialidades", "Chave")], map["Listar" := Number(1)])
  }

  function Patient(reading: Reading): EntityRule {
    Document([reading.Field("name", "Nome", "string", true), reading.Field("gender", "Sexo", "int", false),
              reading.Field("birth_date", "DataNasc", "date", false), reading.Field("tax_id", "NCont", "string", false),
              reading.Field("phone", "Telefone1", "string", false), reading.Field("mobile", "Telefone2", "string", false),
              reading.Field("email", "Email", "string", false), reading.Field("address", "Morada", "string", false),
              reading.Field("city", "Localidade", "string", false), reading.Field("postal_code", "CPostal", "string", false),
              reading.Field("country", "Pais", "string", false), reading.Field("notes", "Obs", "string", false),
              reading.Field("code", "Codigo", "string", false)],
             [["tax_id"]], [], map["Tipo" := Number(0), "Listar" := Number(1)])
  }

  lemma DocumentIsWellFormed(fields: seq<FieldRule>, uniqueness: seq<seq<string>>, references: seq<Reference>, defaults: Row)
    requires forall i :: 0 <= i < |fields| ==> fields[i].column !in KEPT
    requires defaults.Keys !! KEPT
    requires forall s :: 0 <= s < |uniqueness| ==> Named(Document(fields, uniqueness, references, defaults), uniqueness[s])
    ensures WellFormed(Document(fields, uniqueness, references, defaults))
  {
    var rule := Document(fields, uniqueness, references, defaults);
    assert Managed(rule) <= KEPT;
    assert "Chave" in KEPT && |"Chave"| == 5 && |"Hist"| == 4 && |"DC"| == |"OC"| == 2 && |"DUA"| == |"OUA"| == 3;
  }

  /** Told apart from the kept columns by length, or by a letter. */
  predicate IsPlain(column: string) {
    |column| == 6 || |column| > 6 || (|column| == 5 && column[0] != 'C') || (|column| == 4 && column[0] != 'H')
    || (|column| == 3 && column[1] != 'U')
  }

  lemma PlainIsNotKept(column: string)
    requires IsPlain(column)
    ensures column !in KEPT
  {
    assert "Chave"[0] == 'C' && "Hist"[0] == 'H' && "DUA"[1] == 'U' && "OUA"[1] == 'U';
  }

  lemma {:induction false} FieldAt(rules: seq<FieldRule>, k: nat)
    requires k < |rules| && forall i :: k < i < |rules| ==> rules[i].name != rules[k].name
    ensures FieldNamed(rules, rules[k].name) == Some(rules[k])
  {
    if k < |rules| - 1 { FieldAt(rules[..|rules| - 1], k); }
  }

  lemma PlainDocument(rule: EntityRule, fields: seq<FieldRule>, uniqueness: seq<seq<string>>, references: seq<Reference>, defaults: Row)
    requires rule == Document(fields, uniqueness, references, defaults)
    requires forall i :: 0 <= i < |fields| ==> IsPlain(fields[i].column)
    requires forall c :: c in defaults ==> c == "Listar" || c == "Tipo"
    requires forall s :: 0 <= s < |uniqueness| ==> Named(rule, uniqueness[s])
    ensures WellFormed(rule)
  {
    forall i | 0 <= i < |fields| ensures fields[i].column !in KEPT { PlainIsNotKept(fields[i].column); }
    forall c | c in defaults ensures c !in KEPT {
      assert "Listar"[0] == 'L' && "Tipo"[0] == 'T';
      PlainIsNotKept(c);
    }
    DocumentIsWellFormed(fields, uniqueness, references, defaults);
  }

  /** Each shipped document is well formed, and its uniqueness sets have one field, so
      every update gives them whole. */
  lemma ShippedRulesAreWellFormed(reading: Reading, change: Change)
    ensures WellFormed(Specialty(reading)) && WellFormed(Doctor(reading)) && WellFormed(Patient(reading))
    ensures (change.operation == Create ==> change.targetPk.None?) ==>
              Whole(Specialty(reading), change) && Whole(Doctor(reading), change) && Whole(Patient(reading), change)
  {
    SpecialtyIsWellFormed(reading);
    DoctorIsWellFormed(reading);
    PatientIsWellFormed(reading);
    if change.operation == Create ==> change.targetPk.None? {
      hide WellFormed, Whole, Reading.Field;
      OneFieldSetsAreWhole(Specialty(reading), change);
      OneFieldSetsAreWhole(Doctor(reading), change);
      OneFieldSetsAreWhole(Patient(reading), change);
    }
  }

  lemma SpecialtyIsWellFormed(reading: Reading)
    ensures WellFormed(Specialty(reading))
  {
    hide WellFormed, FieldNamed;
    var rule := Specialty(reading);
    assert rule.fields[0].name == "code" && "name"[0] == 'n' && "notes"[0] == 'n' && "is_default"[0] == 'i';
    FieldAt(rule.fields, 0);
    assert "Codigo"[0] == 'C' && "Listar"[0] == 'L';
    PlainDocument(rule, rule.fields, rule.uniqueness, rule.references, rule.createDefaults);
  }

  lemma DoctorIsWellFormed(reading: Reading)
    ensures WellFormed(Doctor(reading))
  {
    hide WellFormed, FieldNamed;
    var rule := Doctor(reading);
    PlainDocument(rule, rule.fields, rule.uniqueness, rule.references, rule.createDefaults);
  }

  lemma TaxIdIsField(reading: Reading)
    ensures FieldNamed(Patient(reading).fields, "tax_id") == Some(reading.Field("tax_id", "NCont", "string", false))
  {
    hide FieldNamed;
    var fields := Patient(reading).fields;
    assert "tax_id"[0] == 't' && forall i :: 3 < i < |fields| ==> fields[i].name[0] != 't';
    FieldAt(fields, 3);
  }

  lemma PatientIsWellFormed(reading: Reading)
    ensures WellFormed(Patient(reading))
  {
    hide WellFormed, FieldNamed;
    var rule := Patient(reading);
    TaxIdIsField(reading);
    assert "NCont"[0] == 'N' && "Listar"[0] == 'L' && "Tipo"[0] == 'T';
    PlainDocument(rule, rule.fields, rule.uniqueness, rule.references, rule.createDefaults);
  }
}
