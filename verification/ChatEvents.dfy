/** What a turn streams to its client and what it writes to the audit log. */
module ChatEvents {
  import opened Wrappers
  import opened ChatHistory

  // ---- events --------------------------------------------------------------

  datatype ErrorCode = Unauthorized | AnswerTruncated | EnvelopeParse | Internal

  /** An error as the client sees it. */
  datatype Problem = Problem(code: ErrorCode, message: string)

  datatype Event =
    | StatusEvent
    | QueryingEvent(sql: string)
    | StepEvent(step: Step)
    | BlockEvent(block: string)
    | CitationEvent(citation: string)
    | ErrorEvent(problem: Problem)
    | DoneEvent

  /** What a stream of events has put on the screen. */
  datatype Shown = Shown(steps: seq<Step>, blocks: seq<string>, citations: seq<string>, problems: seq<Problem>)

  const NOTHING := Shown([], [], [], [])

  function Show(shown: Shown, e: Event): Shown {
    match e
    case StepEvent(step) => shown.(steps := shown.steps + [step])
    case BlockEvent(block) => shown.(blocks := shown.blocks + [block])
    case CitationEvent(citation) => shown.(citations := shown.citations + [citation])
    case ErrorEvent(problem) => shown.(problems := shown.problems + [problem])
    case StatusEvent => shown
    case QueryingEvent(_) => shown
    case DoneEvent => shown
  }

  function ShownBy(events: seq<Event>): Shown {
    if events == [] then NOTHING else Show(ShownBy(events[..|events| - 1]), events[|events| - 1])
  }

  /** The consumer of the event stream: it leaves after `patience` events. */
  class Client {
    var events: seq<Event>
    const patience: Option<nat>

    constructor (patience: Option<nat>)
      ensures events == [] && this.patience == patience
    {
      events := [];
      this.patience := patience;
    }

    /** Yield one event; `alive` says whether the generator is resumed. */
    method Receive(e: Event) returns (alive: bool)
      modifies this
      ensures events == old(events) + [e] && ShownBy(events) == Show(old(ShownBy(events)), e)
      ensures alive <==> patience.None? || |events| < patience.value
    {
      assert (events + [e])[..|events|] == events;
      events := events + [e];
      alive := patience.None? || |events| < patience.value;
    }
  }

  // ---- the audit log -------------------------------------------------------

  datatype TurnStatus = TurnOk | TurnError | TurnAborted

  datatype AuditRow =
    | QueryRow(turnId: string, sql: string, ok: bool)
    | TurnSummary(turnId: string, status: TurnStatus, claudeCalls: nat, sqlQueries: nat,
                  inputTokens: int, outputTokens: int, cacheReadTokens: int, cacheCreationTokens: int)

  function UsagesOf(steps: seq<Step>): seq<Step> {
    if steps == [] then []
    else
      var last := steps[|steps| - 1];
      var rest := UsagesOf(steps[..|steps| - 1]);
      if last.UsageStep? then rest + [last] else rest
  }

  function QueriesOf(steps: seq<Step>): seq<Step> {
    if steps == [] then []
    else
      var last := steps[|steps| - 1];
      var rest := QueriesOf(steps[..|steps| - 1]);
      if last.QueryStep? then rest + [last] else rest
  }

  function SumBy(steps: seq<Step>, tokens: Step -> int): int {
    if steps == [] then 0 else SumBy(steps[..|steps| - 1], tokens) + tokens(steps[|steps| - 1])
  }

  function InputOf(s: Step): int { if s.UsageStep? then s.usage.inputTokens else 0 }
  function OutputOf(s: Step): int { if s.UsageStep? then s.usage.outputTokens else 0 }
  function CacheReadOf(s: Step): int { if s.UsageStep? then s.usage.cacheReadTokens else 0 }
  function CacheCreationOf(s: Step): int { if s.UsageStep? then s.usage.cacheCreationTokens else 0 }

  function SummaryOf(turnId: string, steps: seq<Step>, status: TurnStatus): AuditRow {
    TurnSummary(turnId, status, |UsagesOf(steps)|, |QueriesOf(steps)|,
                SumBy(steps, InputOf), SumBy(steps, OutputOf), SumBy(steps, CacheReadOf), SumBy(steps, CacheCreationOf))
  }

  /** What steps add up to, one step at a time. */
  datatype Tally = Tally(calls: nat, queries: nat, input: int, output: int, cacheRead: int, cacheCreation: int)

  function Counted(t: Tally, step: Step): Tally {
    match step
    case UsageStep(u) =>
      Tally(t.calls + 1, t.queries, t.input + u.inputTokens, t.output + u.outputTokens,
            t.cacheRead + u.cacheReadTokens, t.cacheCreation + u.cacheCreationTokens)
    case QueryStep(_, _) => t.(queries := t.queries + 1)
    case ReasoningStep(_) => t
  }

  function TallyOf(steps: seq<Step>): Tally {
    if steps == [] then Tally(0, 0, 0, 0, 0, 0) else Counted(TallyOf(steps[..|steps| - 1]), steps[|steps| - 1])
  }

  /** The row says what the steps add up to, field by field. */
  ghost predicate IsSummaryOf(row: AuditRow, turnId: string, steps: seq<Step>, status: TurnStatus) {
    && row.TurnSummary? && row.turnId == turnId && row.status == status
    && var t := TallyOf(steps);
       && row.claudeCalls == t.calls && row.sqlQueries == t.queries
       && row.inputTokens == t.input && row.outputTokens == t.output
       && row.cacheReadTokens == t.cacheRead && row.cacheCreationTokens == t.cacheCreation
  }

  lemma {:induction false} SummarySays(turnId: string, steps: seq<Step>, status: TurnStatus)
    ensures IsSummaryOf(SummaryOf(turnId, steps, status), turnId, steps, status)
  {
    if steps != [] { SummarySays(turnId, steps[..|steps| - 1], status); }
  }

  /** What one more step adds to a summary, and that nothing adds up to nothing. */
  lemma SummaryLaw(turnId: string, steps: seq<Step>, step: Step, status: TurnStatus)
    ensures var row, more := SummaryOf(turnId, steps, status), SummaryOf(turnId, steps + [step], status);
            match step
            case UsageStep(u) =>
              && more.claudeCalls == row.claudeCalls + 1 && more.sqlQueries == row.sqlQueries
              && more.inputTokens == row.inputTokens + u.inputTokens && more.outputTokens == row.outputTokens + u.outputTokens
              && more.cacheReadTokens == row.cacheReadTokens + u.cacheReadTokens
              && more.cacheCreationTokens == row.cacheCreationTokens + u.cacheCreationTokens
            case QueryStep(_, _) => more == row.(sqlQueries := row.sqlQueries + 1)
            case ReasoningStep(_) => more == row
    ensures SummaryOf(turnId, [], status) == TurnSummary(turnId, status, 0, 0, 0, 0, 0, 0)
  {
    assert (steps + [step])[..|steps|] == steps;
  }

  /** The audit rows a turn's query steps stand for. */
  function QueryRows(turnId: string, steps: seq<Step>): seq<AuditRow> {
    if steps == [] then []
    else
      var last := steps[|steps| - 1];
      var rest := QueryRows(turnId, steps[..|steps| - 1]);
      if last.QueryStep? then rest + [QueryRow(turnId, last.sql, last.errorCode.None?)] else rest
  }

  lemma OneMoreStep(turnId: string, steps: seq<Step>, s: Step)
    ensures QueryRows(turnId, steps + [s]) ==
            if s.QueryStep? then QueryRows(turnId, steps) + [QueryRow(turnId, s.sql, s.errorCode.None?)] else QueryRows(turnId, steps)
  {
    assert (steps + [s])[..|steps|] == steps;
  }

  lemma {:induction false} QueryRowsMatchSummary(turnId: string, steps: seq<Step>, status: TurnStatus)
    ensures |QueryRows(turnId, steps)| == SummaryOf(turnId, steps, status).sqlQueries
  {
    if steps != [] { QueryRowsMatchSummary(turnId, steps[..|steps| - 1], status); }
  }

  // ---- reading the log -----------------------------------------------------

  function QueryRowsFor(audit: seq<AuditRow>, turnId: string): nat {
    if audit == [] then 0
    else
      var last := audit[|audit| - 1];
      QueryRowsFor(audit[..|audit| - 1], turnId) + if last.QueryRow? && last.turnId == turnId then 1 else 0
  }

  lemma {:induction false} LogConcat(a: seq<AuditRow>, b: seq<AuditRow>, turnId: string)
    ensures QueryRowsFor(a + b, turnId) == QueryRowsFor(a, turnId) + QueryRowsFor(b, turnId)
  {
    if b == [] {
      assert a + b == a;
    } else {
      assert (a + b)[..|a + b| - 1] == a + b[..|b| - 1];
      LogConcat(a, b[..|b| - 1], turnId);
    }
  }

  lemma {:induction false} QueryRowsInLog(turnId: string, steps: seq<Step>, other: string)
    ensures QueryRowsFor(QueryRows(turnId, steps), other) == if other == turnId then |QueriesOf(steps)| else 0
  {
    if steps != [] {
      var init, last := steps[..|steps| - 1], steps[|steps| - 1];
      QueryRowsInLog(turnId, init, other);
      if last.QueryStep? {
        var row := QueryRow(turnId, last.sql, last.errorCode.None?);
        LogConcat(QueryRows(turnId, init), [row], other);
        assert [row][..0] == [];
      }
    }
  }
}
