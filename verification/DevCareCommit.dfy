/** Staging and committing DevCare changes: a validated change waits under a fresh
    id for its conversation and is executed and audited at most once. */
module DevCareCommit {
  import opened Wrappers
  import opened Tables
  import opened DevCareRecords
  import opened DevCareConsistency

  datatype StagedChange = StagedChange(conversation: string, entity: string, change: Change)

  datatype AuditRow = AuditRow(operator: string, entity: string, operation: Operation, primaryKey: Option<int>,
                               before: Option<Row>, after: Option<Row>, ok: bool)

  class PendingChangeStore {
    var items: map<string, StagedChange>

    constructor ()
      ensures items == map[]
    {
      items := map[];
    }

    method Stage(id: string, staged: StagedChange)
      modifies this
      ensures items == old(items)[id := staged]
    {
      items := items[id := staged];
    }

    /** Hands a change out once, and only to the conversation that staged it. */
    method Pop(conversation: string, id: string) returns (r: Option<StagedChange>)
      modifies this
      ensures r.Some? <==> id in old(items) && old(items)[id].conversation == conversation
      ensures r.Some? ==> r.value == old(items)[id] && items == old(items) - {id}
      ensures r.None? ==> items == old(items)
    {
      if id !in items || items[id].conversation != conversation { return None; }
      r := Some(items[id]);
      items := items - {id};
    }
  }

  // ---- histories -----------------------------------------------------------

  /** What has happened: a change staged, or taken back out and audited, executed at
      `executedAt` unless that is absent. */
  datatype Event =
    | WasStaged(id: string, staged: StagedChange)
    | WasPopped(id: string, staged: StagedChange, executedAt: Option<string>, row: AuditRow)

  type Database = map<string, seq<Row>>

  ghost function PendingAfter(log: seq<Event>): map<string, StagedChange> {
    if log == [] then map[]
    else
      match log[|log| - 1]
      case WasStaged(id, staged) => PendingAfter(log[..|log| - 1])[id := staged]
      case WasPopped(id, _, _, _) => PendingAfter(log[..|log| - 1]) - {id}
  }

  ghost function AuditAfter(log: seq<Event>): seq<AuditRow> {
    if log == [] then []
    else if log[|log| - 1].WasPopped? then AuditAfter(log[..|log| - 1]) + [log[|log| - 1].row]
    else AuditAfter(log[..|log| - 1])
  }

  ghost function IssuedIn(log: seq<Event>): set<string> {
    set i | 0 <= i < |log| && log[i].WasStaged? :: log[i].id
  }

  /** The registry and what the database held at the start. */
  datatype Setting = Setting(rules: map<string, EntityRule>, initial: Database, operatorKey: int)

  ghost predicate IsSetting(s: Setting) {
    s.rules.Keys == s.initial.Keys && forall e :: e in s.rules ==> WellFormed(s.rules[e])
  }

  ghost function DatabaseAfter(s: Setting, log: seq<Event>): (db: Database)
    requires IsSetting(s)
    ensures db.Keys == s.rules.Keys
  {
    if log == [] then s.initial
    else
      var before, event := DatabaseAfter(s, log[..|log| - 1]), log[|log| - 1];
      if event.WasPopped? && event.executedAt.Some? && event.staged.entity in before then
        var after := Applied(s.rules[event.staged.entity], before[event.staged.entity], event.staged.change, event.executedAt.value, s.operatorKey);
        if after.None? then before else before[event.staged.entity := after.value]
      else before
  }

  /** Staging takes a fresh id and a change validated against the table of the
      moment; popping takes what is pending under the id, audits it and executes it
      or not. */
  ghost predicate Follows(s: Setting, past: seq<Event>, event: Event)
    requires IsSetting(s)
  {
    var db := DatabaseAfter(s, past);
    && event.staged.entity in s.rules
    && match event
       case WasStaged(id, staged) =>
         id !in IssuedIn(past) && ValidatedAgainst(s.rules[staged.entity], db[staged.entity], staged.change)
       case WasPopped(id, staged, executedAt, row) =>
         && id in PendingAfter(past) && PendingAfter(past)[id] == staged
         && (executedAt.Some? ==>
               Applied(s.rules[staged.entity], db[staged.entity], staged.change, executedAt.value, s.operatorKey).Some?)
         && row.entity == staged.entity && row.operation == staged.change.operation
         && row.after == (if staged.change.operation == Delete then None else Some(staged.change.columns))
         && (row.ok <==> executedAt.Some?)
         && row.primaryKey == (if executedAt.Some? then ReportedKey(s.rules[staged.entity], db[staged.entity], staged.change)
                               else staged.change.targetPk)
  }

  ghost predicate IsHistory(s: Setting, log: seq<Event>)
    requires IsSetting(s)
  {
    log == [] || (IsHistory(s, log[..|log| - 1]) && Follows(s, log[..|log| - 1], log[|log| - 1]))
  }

  lemma StagedIsValidated(rule: EntityRule, table: seq<Row>, lookups: Lookups, operation: Operation, fields: Fields,
                          targetPk: Option<int>, unknown: seq<string>)
    requires Objections(rule, table, lookups, operation, fields, targetPk, unknown) == []
    ensures ValidatedAgainst(rule, table, ChangeFor(rule, operation, fields, targetPk))
  {
    hide Objections;
  }

  // ---- the service ---------------------------------------------------------

  function FirstTarget(rule: EntityRule, table: seq<Row>, pk: int): Option<Row> {
    if table == [] then None
    else if IsTarget(rule, table[0], pk) then Some(table[0])
    else FirstTarget(rule, table[1..], pk)
  }

  /** The row a change is about to touch; a create touches none. */
  function ImageOf(rule: EntityRule, table: seq<Row>, change: Change): Option<Row> {
    if change.operation == Create || change.targetPk.None? then None else FirstTarget(rule, table, change.targetPk.value)
  }

  /** The row is one with the key the change names, and there is none exactly when no row
      has it. */
  lemma {:induction false} FirstTargetSays(rule: EntityRule, table: seq<Row>, pk: int)
    ensures FirstTarget(rule, table, pk).None? <==> forall i :: 0 <= i < |table| ==> !HoldsNumber(table[i], rule.primaryKey, pk)
    ensures FirstTarget(rule, table, pk).Some? ==>
              var row := FirstTarget(rule, table, pk).value; row in table && HoldsNumber(row, rule.primaryKey, pk)
  {
    if table != [] {
      FirstTargetSays(rule, table[1..], pk);
      assert table == [table[0]] + table[1..];
      forall i | 0 < i < |table| ensures table[i] == table[1..][i - 1] {}
    }
  }

  /** Nothing is recorded of a create; anything else records the row with the key it names. */
  lemma ImageSays(rule: EntityRule, table: seq<Row>, change: Change)
    ensures change.operation == Create ==> ImageOf(rule, table, change) == None
    ensures change.operation != Create ==>
              (ImageOf(rule, table, change).None? <==>
               change.targetPk.None? || forall i :: 0 <= i < |table| ==> !HoldsNumber(table[i], rule.primaryKey, change.targetPk.value))
    ensures change.operation != Create && ImageOf(rule, table, change).Some? ==>
              var row := ImageOf(rule, table, change).value; row in table && HoldsNumber(row, rule.primaryKey, change.targetPk.value)
  {
    if change.targetPk.Some? { FirstTargetSays(rule, table, change.targetPk.value); }
  }

  datatype StageError = ConversationUnknown | EntityUnknown | Rejected(violations: seq<Violation>)

  datatype CommitError = NoConversation | NothingStaged | Failed

  /** One event more: the change taken out, executed at `now` if the reply is a
      success, and audited with who did it, the row as it was and its key. */
  ghost predicate TookOut(before: seq<Event>, after: seq<Event>, id: string, operator: string, staged: StagedChange, now: string,
                          image: Option<Row>, r: Result<Option<int>, CommitError>)
  {
    && |after| == |before| + 1 && after[..|before|] == before
    && var event := after[|before|];
       && event.WasPopped? && event.id == id && event.staged == staged
       && event.executedAt == (if r.Ok? then Some(now) else None)
       && event.row.operator == operator && event.row.before == image
       && (r.Ok? ==> r.value == event.row.primaryKey)
  }

  class ChangeService {
    const rules: map<string, EntityRule>
    const pending: PendingChangeStore
    const executor: WriteExecutor
    var audit: seq<AuditRow>
    ghost const initial: Database
    ghost var log: seq<Event>

    ghost function Settings(): Setting
      reads this, executor
    {
      Setting(rules, initial, executor.operatorKey)
    }

    ghost predicate Valid()
      reads this, pending, executor
    {
      var s := Settings();
      && IsSetting(s) && IsHistory(s, log)
      && pending.items == PendingAfter(log)
      && executor.tables == DatabaseAfter(s, log)
      && audit == AuditAfter(log)
    }

    /** What executing a pending change would make of its table. */
    ghost function AppliedNow(staged: StagedChange, now: string): Option<seq<Row>>
      requires staged.entity in rules && staged.entity in executor.tables
      reads this, executor
    {
      Applied(rules[staged.entity], executor.tables[staged.entity], staged.change, now, executor.operatorKey)
    }

    /** What a commit of a pending change does, given what the database refuses. */
    ghost predicate Commits(staged: StagedChange, now: string, readFails: bool, writeFails: bool)
      reads this, executor
    {
      && staged.entity in rules && staged.entity in executor.tables
      && !(readFails && staged.change.operation != Create) && !writeFails && AppliedNow(staged, now).Some?
    }

    ghost function BeforeImage(staged: StagedChange, readFails: bool): Option<Row>
      reads this, executor
    {
      if readFails || staged.entity !in rules || staged.entity !in executor.tables then None
      else ImageOf(rules[staged.entity], executor.tables[staged.entity], staged.change)
    }

    constructor (rules: map<string, EntityRule>, executor: WriteExecutor)
      requires IsSetting(Setting(rules, executor.tables, executor.operatorKey))
      ensures Valid() && log == [] && initial == executor.tables && this.rules == rules && this.executor == executor && fresh(pending)
    {
      var store := new PendingChangeStore();
      this.rules, this.executor, this.pending, this.audit := rules, executor, store, [];
      this.initial, this.log := executor.tables, [];
    }

    /** Stages a change exactly when the conversation and entity are known and every
        check of validation is met. */
    method StageChange(conversationExists: bool, conversation: string, entity: string, operation: Operation, fields: Fields,
                       targetPk: Option<int>, lookups: Lookups, newId: string) returns (r: Result<string, StageError>)
      requires Valid() && newId !in IssuedIn(log)
      modifies this, pending
      ensures Valid()
      ensures
        r.Ok? <==>
        && conversationExists && entity in rules
        && Acceptable(rules[entity], executor.tables[entity], lookups, operation, fields, targetPk)
      ensures
        r.Ok? ==>
        && r.value == newId
        && log == old(log) + [WasStaged(newId, StagedChange(conversation, entity, ChangeFor(rules[entity], operation, fields, targetPk)))]
      ensures r.Err? ==> log == old(log)
      ensures r == Err(ConversationUnknown) <==> !conversationExists
      ensures r == Err(EntityUnknown) <==> conversationExists && entity !in rules
      ensures r.Err? && r.error.Rejected? ==>
                forall o :: o in r.error.violations <==> IsDue(rules[entity], executor.tables[entity], lookups, operation, fields, targetPk, o)
    {
      hide IsDue, Applied, WellFormed, ValidatedAgainst, PendingAfter, AuditAfter, DatabaseAfter, IsHistory, Objections, ChangeFor, Acceptable,
           UnknownNames;
      if !conversationExists { return Err(ConversationUnknown); }
      if entity !in rules { return Err(EntityUnknown); }
      var result, unknown := Validate(rules[entity], executor.tables[entity], lookups, operation, fields, targetPk);
      ValidationAcceptsExactly(rules[entity], executor.tables[entity], lookups, operation, fields, targetPk, unknown);
      if result.Err? {
        forall o ensures o in result.error <==> IsDue(rules[entity], executor.tables[entity], lookups, operation, fields, targetPk, o) {
          ObjectionsSay(rules[entity], executor.tables[entity], lookups, operation, fields, targetPk, unknown, o);
        }
        return Err(Rejected(result.error));
      }
      var staged := StagedChange(conversation, entity, result.value);
      pending.Stage(newId, staged);
      ghost var event := WasStaged(newId, staged);
      StagedIsValidated(rules[entity], executor.tables[entity], lookups, operation, fields, targetPk, unknown);
      HistoryExtends(Settings(), log, event);
      log := log + [event];
      return Ok(newId);
    }

    /** Reads the row about to change, unless the change is a create, and executes. */
    method Attempt(staged: StagedChange, now: string, readFails: bool, writeFails: bool)
      returns (before: Option<Row>, outcome: Result<Option<int>, ExecuteError>)
      requires staged.entity in rules && staged.entity in executor.tables
      modifies executor
      ensures before == old(BeforeImage(staged, readFails))
      ensures outcome.Ok? <==> old(Commits(staged, now, readFails, writeFails))
      ensures outcome.Ok? ==> outcome.value == ReportedKey(rules[staged.entity], old(executor.tables)[staged.entity], staged.change)
      ensures executor.tables ==
              if outcome.Ok? then old(executor.tables)[staged.entity := old(AppliedNow(staged, now)).value] else old(executor.tables)
    {
      hide Applied, ReportedKey, FirstTarget;
      var rule, change := rules[staged.entity], staged.change;
      before := None;
      if change.operation != Create {
        if readFails { return None, Err(DatabaseFailed); }
        if change.targetPk.Some? { before := FirstTarget(rule, executor.tables[staged.entity], change.targetPk.value); }
      }
      outcome := executor.Execute(staged.entity, rule, change, now, writeFails);
    }

    /** Takes out the change staged under `id` by this conversation, executes it at
        most once and audits it exactly once; anything else changes nothing. */
    method CommitChange(conversationExists: bool, conversation: string, operator: string, id: string, now: string,
                        readFails: bool, writeFails: bool) returns (r: Result<Option<int>, CommitError>)
      requires Valid()
      modifies this, pending, executor
      ensures Valid()
      ensures var takes := conversationExists && id in PendingAfter(old(log)) && PendingAfter(old(log))[id].conversation == conversation;
              if !takes then r == Err(if conversationExists then NothingStaged else NoConversation) && log == old(log) else
                var staged := PendingAfter(old(log))[id];
                && (r.Ok? <==> old(Commits(staged, now, readFails, writeFails))) && (r.Err? ==> r.error == Failed)
                && TookOut(old(log), log, id, operator, staged, now, old(BeforeImage(staged, readFails)), r)
    {
      hide Applied, WellFormed, LeavesManagedAlone, PendingAfter, AuditAfter, DatabaseAfter, IsHistory, Follows, ReportedKey, ImageOf,
           ValidatedAgainst;
      if !conversationExists { return Err(NoConversation); }
      var popped := pending.Pop(conversation, id);
      if popped.None? { return Err(NothingStaged); }
      var staged := popped.value;
      PendingIsValidated(Settings(), log, id);
      ghost var db := executor.tables;
      var before, outcome := Attempt(staged, now, readFails, writeFails);
      var change := staged.change;
      var row := AuditRow(operator, staged.entity, change.operation,
                          if outcome.Ok? then outcome.value else change.targetPk, before,
                          if change.operation == Delete then None else Some(change.columns), outcome.Ok?);
      audit := audit + [row];
      ghost var event := WasPopped(id, staged, if outcome.Ok? then Some(now) else None, row);
      PopFollows(Settings(), log, db, event);
      HistoryExtends(Settings(), log, event);
      log := log + [event];
      if outcome.Ok? { return Ok(outcome.value); }
      return Err(Failed);
    }
  }

  // ---- what every history keeps --------------------------------------------

  lemma FollowsKnownEntity(s: Setting, past: seq<Event>, event: Event)
    requires IsSetting(s) && Follows(s, past, event)
    ensures event.staged.entity in s.rules
  {
  }

  /** Taking out what is pending and auditing what came of it is a step of the history. */
  lemma PopFollows(s: Setting, past: seq<Event>, db: Database, event: Event)
    requires IsSetting(s) && db == DatabaseAfter(s, past) && event.WasPopped?
    requires event.id in PendingAfter(past) && PendingAfter(past)[event.id] == event.staged && event.staged.entity in s.rules
    requires var rule, table, change, row := s.rules[event.staged.entity], db[event.staged.entity], event.staged.change, event.row;
             && (event.executedAt.Some? ==> Applied(rule, table, change, event.executedAt.value, s.operatorKey).Some?)
             && row.entity == event.staged.entity && row.operation == change.operation
             && row.after == (if change.operation == Delete then None else Some(change.columns))
             && (row.ok <==> event.executedAt.Some?)
             && row.primaryKey == if row.ok then ReportedKey(rule, table, change) else change.targetPk
    ensures Follows(s, past, event)
  {
    hide Applied, WellFormed, PendingAfter, DatabaseAfter, ReportedKey;
  }

  lemma HistoryExtends(s: Setting, log: seq<Event>, event: Event)
    requires IsSetting(s) && IsHistory(s, log) && Follows(s, log, event)
    ensures IsHistory(s, log + [event])
    ensures PendingAfter(log + [event]) ==
            if event.WasStaged? then PendingAfter(log)[event.id := event.staged] else PendingAfter(log) - {event.id}
    ensures AuditAfter(log + [event]) == if event.WasPopped? then AuditAfter(log) + [event.row] else AuditAfter(log)
    ensures DatabaseAfter(s, log + [event]) == DatabaseBy(s, DatabaseAfter(s, log), event)
  {
    hide Applied, ValidatedAgainst, WellFormed, ReportedKey;
    assert (log + [event])[..|log|] == log;
  }

  ghost function DatabaseBy(s: Setting, db: Database, event: Event): Database
    requires IsSetting(s) && db.Keys == s.rules.Keys && event.staged.entity in s.rules
  {
    if event.WasStaged? || event.executedAt.None? then db
    else
      var e := event.staged.entity;
      var after := Applied(s.rules[e], db[e], event.staged.change, event.executedAt.value, s.operatorKey);
      if after.None? then db else db[e := after.value]
  }

  /** Whatever is pending was issued, for a known entity, and touches only declared
      columns. */
  lemma {:induction false} PendingIsValidated(s: Setting, log: seq<Event>, id: string)
    requires IsSetting(s) && IsHistory(s, log) && id in PendingAfter(log)
    ensures id in IssuedIn(log)
    ensures var staged := PendingAfter(log)[id];
            staged.entity in s.rules && LeavesManagedAlone(s.rules[staged.entity], staged.change)
  {
    hide WellFormed, ValidatedAgainst, LeavesManagedAlone, DatabaseAfter;
    var n := |log| - 1;
    if log[n].WasStaged? && log[n].id == id {
      var e := log[n].staged.entity;
      ValidatedFacts(s.rules[e], DatabaseAfter(s, log[..n])[e], log[n].staged.change);
    } else {
      PendingIsValidated(s, log[..n], id);
      var i :| 0 <= i < n && log[..n][i].WasStaged? && log[..n][i].id == id;
      assert log[i].WasStaged? && log[i].id == id;
    }
  }

  lemma {:induction false} PrefixIsHistory(s: Setting, log: seq<Event>, n: nat)
    requires IsSetting(s) && IsHistory(s, log) && n <= |log|
    ensures IsHistory(s, log[..n]) && (n < |log| ==> Follows(s, log[..n], log[n]))
  {
    hide Follows, IsSetting;
    if n == |log| {
      assert log[..n] == log;
    } else if n < |log| - 1 {
      PrefixIsHistory(s, log[..|log| - 1], n);
      assert log[..|log| - 1][..n] == log[..n];
    }
  }

  /** What is taken out was pending, and is executed only if the executor accepts it. */
  lemma PoppedFacts(s: Setting, past: seq<Event>, event: Event)
    requires IsSetting(s) && Follows(s, past, event) && event.WasPopped?
    ensures event.id in PendingAfter(past) && PendingAfter(past)[event.id] == event.staged && event.staged.entity in s.rules
    ensures event.executedAt.Some? ==>
              var e := event.staged.entity;
              Applied(s.rules[e], DatabaseAfter(s, past)[e], event.staged.change, event.executedAt.value, s.operatorKey).Some?
  {
    hide Applied, WellFormed, PendingAfter, DatabaseAfter, ReportedKey;
  }

  lemma {:induction false} TakenOutStaysOut(s: Setting, log: seq<Event>, i: nat, n: nat)
    requires IsSetting(s) && IsHistory(s, log) && i < n <= |log| && log[i].WasPopped?
    ensures log[i].id in IssuedIn(log[..n]) && log[i].id !in PendingAfter(log[..n])
  {
    hide WellFormed, ValidatedAgainst, DatabaseAfter, Applied, ReportedKey, IsHistory, IsSetting;
    PrefixIsHistory(s, log, n - 1);
    assert log[..n][..n - 1] == log[..n - 1];
    if i < n - 1 {
      TakenOutStaysOut(s, log, i, n - 1);
      var k :| 0 <= k < n - 1 && log[..n - 1][k].WasStaged? && log[..n - 1][k].id == log[i].id;
      assert log[..n][k].WasStaged? && log[..n][k].id == log[i].id;
    } else {
      PendingIsValidated(s, log[..i], log[i].id);
      var k :| 0 <= k < i && log[..i][k].WasStaged? && log[..i][k].id == log[i].id;
      assert log[..n][k].WasStaged? && log[..n][k].id == log[i].id;
    }
  }

  /** No staged change is taken out, executed or audited twice. */
  lemma TakenOutOnce(s: Setting, log: seq<Event>, i: nat, j: nat)
    requires IsSetting(s) && IsHistory(s, log) && i < j < |log| && log[i].WasPopped? && log[j].WasPopped?
    ensures log[i].id != log[j].id
  {
    TakenOutStaysOut(s, log, i, j);
    PrefixIsHistory(s, log, j);
  }

  /** Staged changes are either still pending or audited, each once. */
  lemma {:induction false} StagedArePendingOrAudited(s: Setting, log: seq<Event>)
    requires IsSetting(s) && IsHistory(s, log)
    ensures |PendingAfter(log)| + |AuditAfter(log)| == |IssuedIn(log)|
  {
    hide WellFormed, ValidatedAgainst, DatabaseAfter;
    if log == [] {
      assert IssuedIn(log) == {};
    } else {
      var past, event := log[..|log| - 1], log[|log| - 1];
      StagedArePendingOrAudited(s, past);
      IssuedGrows(log);
      var pending := PendingAfter(past);
      if event.WasStaged? {
        if event.id in pending { PendingIsValidated(s, past, event.id); assert false; }
        assert PendingAfter(log).Keys == pending.Keys + {event.id};
        assert |PendingAfter(log).Keys| == |pending.Keys| + 1;
      } else {
        assert PendingAfter(log).Keys == pending.Keys - {event.id};
        assert |PendingAfter(log).Keys| == |pending.Keys| - 1;
      }
    }
  }

  lemma IssuedGrows(log: seq<Event>)
    requires log != []
    ensures IssuedIn(log) == if log[|log| - 1].WasStaged? then IssuedIn(log[..|log| - 1]) + {log[|log| - 1].id} else IssuedIn(log[..|log| - 1])
  {
    var n := |log| - 1;
    forall id | id in IssuedIn(log[..n]) ensures id in IssuedIn(log) {
      var i :| 0 <= i < n && log[..n][i].WasStaged? && log[..n][i].id == id;
      assert log[i].WasStaged? && log[i].id == id;
    }
    forall id | id in IssuedIn(log) ensures id in IssuedIn(log[..n]) || (log[n].WasStaged? && id == log[n].id) {
      var i :| 0 <= i <= n && log[i].WasStaged? && log[i].id == id;
      if i < n { assert log[..n][i].WasStaged? && log[..n][i].id == id; }
    }
  }

  // ---- consistency over histories ------------------------------------------

  /** Event `i` executed a change on `entity` that was no longer free. */
  ghost predicate ExecutedStale(s: Setting, log: seq<Event>, entity: string, i: nat)
    requires IsSetting(s) && i < |log|
  {
    && log[i].WasPopped? && log[i].executedAt.Some? && log[i].staged.entity == entity && entity in s.rules
    && !StillFree(s.rules[entity], DatabaseAfter(s, log[..i])[entity], log[i].staged.change)
  }

  /** One event keeps a consistent table consistent exactly when it is not a stale
      execution. */
  lemma EventKeepsConsistent(s: Setting, log: seq<Event>, entity: string, i: nat)
    requires IsSetting(s) && IsHistory(s, log) && i < |log| && entity in s.rules
    requires Consistent(s.rules[entity], DatabaseAfter(s, log[..i])[entity])
    ensures Consistent(s.rules[entity], DatabaseAfter(s, log[..i + 1])[entity]) <==> !ExecutedStale(s, log, entity, i)
  {
    hide ValidatedAgainst, Consistent, LeavesManagedAlone, StillFree, Applied, DatabaseAfter, PendingAfter, AuditAfter,
         IsHistory, Follows, WellFormed;
    PrefixIsHistory(s, log, i);
    HistoryExtends(s, log[..i], log[i]);
    assert log[..i + 1] == log[..i] + [log[i]];
    FollowsKnownEntity(s, log[..i], log[i]);
    if log[i].WasPopped? && log[i].executedAt.Some? && log[i].staged.entity == entity {
      PoppedFacts(s, log[..i], log[i]);
      PendingIsValidated(s, log[..i], log[i].id);
      var table, change := DatabaseAfter(s, log[..i])[entity], log[i].staged.change;
      var after := Applied(s.rules[entity], table, change, log[i].executedAt.value, s.operatorKey);
      CommitKeepsExactlyWhenFree(s.rules[entity], table, change, log[i].executedAt.value, s.operatorKey, after.value);
    }
  }

  lemma DatabaseAtStart(s: Setting)
    requires IsSetting(s)
    ensures DatabaseAfter(s, []) == s.initial
  {
  }

  /** Over any history: the table of an entity stays consistent throughout exactly
      when no commit executed a change that was no longer free. */
  lemma {:induction false} ConsistentExactlyWithoutStaleCommits(s: Setting, log: seq<Event>, entity: string, n: nat)
    requires IsSetting(s) && IsHistory(s, log) && entity in s.rules && n <= |log|
    requires Consistent(s.rules[entity], s.initial[entity])
    ensures (forall m :: 0 <= m <= n ==> Consistent(s.rules[entity], DatabaseAfter(s, log[..m])[entity])) <==>
            (forall i :: 0 <= i < n ==> !ExecutedStale(s, log, entity, i))
  {
    hide WellFormed, Consistent, ExecutedStale, IsHistory, DatabaseAfter, IsSetting;
    if n == 0 {
      assert log[..0] == [];
      DatabaseAtStart(s);
    } else {
      ConsistentExactlyWithoutStaleCommits(s, log, entity, n - 1);
      if Consistent(s.rules[entity], DatabaseAfter(s, log[..n - 1])[entity]) {
        EventKeepsConsistent(s, log, entity, n - 1);
      }
    }
  }

  /** Every change taken out was staged before under its id, just as it is. */
  lemma {:induction false} TakenOutWasStaged(s: Setting, log: seq<Event>, n: nat, id: string) returns (staging: nat)
    requires IsSetting(s) && IsHistory(s, log) && n <= |log| && id in PendingAfter(log[..n])
    ensures staging < n && log[staging].WasStaged? && log[staging].id == id && log[staging].staged == PendingAfter(log[..n])[id]
  {
    hide IsSetting, IsHistory, Follows;
    assert log[..n][..n - 1] == log[..n - 1];
    if log[n - 1].WasStaged? && log[n - 1].id == id {
      staging := n - 1;
    } else {
      staging := TakenOutWasStaged(s, log, n - 1, id);
    }
  }

  /** A commit is not stale if the table is as it was when its change was staged. */
  lemma UndisturbedCommitIsNotStale(s: Setting, log: seq<Event>, commit: nat) returns (staging: nat)
    requires IsSetting(s) && IsHistory(s, log) && commit < |log| && log[commit].WasPopped? && log[commit].staged.entity in s.rules
    ensures staging < commit && log[staging].WasStaged? && log[staging].id == log[commit].id
    ensures var e := log[commit].staged.entity;
            && Whole(s.rules[e], log[commit].staged.change)
            && DatabaseAfter(s, log[..commit])[e] == DatabaseAfter(s, log[..staging])[e]
            && Consistent(s.rules[e], DatabaseAfter(s, log[..commit])[e])
            ==> !ExecutedStale(s, log, e, commit)
  {
    hide WellFormed, Consistent, ValidatedAgainst, StillFree, Whole, PendingAfter, DatabaseAfter, IsHistory, Applied;
    PrefixIsHistory(s, log, commit);
    PoppedFacts(s, log[..commit], log[commit]);
    staging := TakenOutWasStaged(s, log, commit, log[commit].id);
    PrefixIsHistory(s, log, staging);
    var e := log[commit].staged.entity;
    var table := DatabaseAfter(s, log[..staging])[e];
    if Whole(s.rules[e], log[commit].staged.change) && Consistent(s.rules[e], table) {
      ValidatedIsFree(s.rules[e], table, log[staging].staged.change);
    }
  }
}
