/** What one chat turn is: the model's replies as a script, the transcript they
    build up, the steps and answer they show, and how the turn ends. */
module ChatTurn {
  import opened Wrappers
  import opened Text
  import opened ChatTranscript
  import opened ChatCompression
  import opened ChatHistory
  import opened ChatEvents

  // ---- what the outside world may do ---------------------------------------

  datatype QueryOutcome = Rows(payload: string) | QueryFailed(payload: string, code: string)

  /** Running the queries of one round: every result, an exception, or the client
      going away while they run. `dumping` is what raises, if anything does, when a
      result is turned into text for the model. */
  datatype QueryBatch =
    | Ran(outcome: nat -> QueryOutcome, dumping: nat -> Option<string>)
    | BatchRaised(message: string)
    | BatchCancelled

  /** The envelope found in a final reply, once its blocks and citations are
      turned into events. */
  datatype ParsedAnswer = ParsedAnswer(blocks: seq<string>, citations: seq<string>)

  /** `announcing` is what raises, if anything does, when the query is looked up in the
      input of a tool call. */
  datatype Reply = Reply(
    usage: Option<Usage>,
    blocks: seq<Block>,
    truncated: bool,
    parsed: Result<ParsedAnswer, string>,
    announcing: nat -> Option<string>,
    queries: QueryBatch)

  /** One call to the model. */
  datatype Call = Replied(reply: Reply) | Raised(message: string) | Cancelled

  /** What happens when the conversation is looked up and then loaded: either read may
      raise. */
  datatype Loading = Loads | LookupRaises | LoadRaises

  /** What happens when the turn is saved: it is stored, the conversation has been
      deleted meanwhile, or the database fails. */
  datatype Saving = Stores | ConversationGone | SavingRaises(message: string)

  // ---- what a turn adds to the transcript ----------------------------------

  /** One tool round: the assistant's blocks and the results sent back. */
  datatype Exchange = Exchange(blocks: seq<Block>, results: seq<ToolResult>)

  predicate IsExchange(x: Exchange) {
    ToolIds(x.blocks) != [] && ResultIds(x.results) == ToolIds(x.blocks)
  }

  function MessagesOf(rounds: seq<Exchange>): Transcript {
    if rounds == [] then []
    else
      var last := rounds[|rounds| - 1];
      MessagesOf(rounds[..|rounds| - 1]) + [AssistantBlocks(last.blocks), UserResults(last.results)]
  }

  /** The transcript when the model is called after some rounds. */
  function Asked(loaded: Transcript, question: string, rounds: seq<Exchange>): Transcript {
    loaded + [UserText(question)] + MessagesOf(rounds)
  }

  ghost predicate AllExchanges(rounds: seq<Exchange>) {
    forall i :: 0 <= i < |rounds| ==> IsExchange(rounds[i])
  }

  lemma {:induction false} RoundsArePaired(rounds: seq<Exchange>)
    requires AllExchanges(rounds)
    ensures ToolsPaired(MessagesOf(rounds))
  {
    if rounds != [] {
      RoundsArePaired(rounds[..|rounds| - 1]);
      var last := rounds[|rounds| - 1];
      var pair := [AssistantBlocks(last.blocks), UserResults(last.results)];
      assert IsExchange(last) && Answers(pair[0], pair[1]);
      PairedConcat(MessagesOf(rounds[..|rounds| - 1]), pair);
    }
  }

  /** Whatever was loaded and however many rounds have run, the transcript is
      something the model can be sent, with or without a final answer. */
  lemma AskedIsSendable(loaded: Transcript, question: string, rounds: seq<Exchange>, answer: string)
    requires Sound(loaded) && AllExchanges(rounds)
    ensures Sendable(Asked(loaded, question, rounds))
    ensures Sendable(Asked(loaded, question, rounds) + [AssistantText(answer)])
  {
    RoundsArePaired(rounds);
    assert ToolsPaired([UserText(question)]) && ToolsPaired([AssistantText(answer)]);
    PairedConcat(loaded, [UserText(question)]);
    PairedConcat(loaded + [UserText(question)], MessagesOf(rounds));
    PairedConcat(Asked(loaded, question, rounds), [AssistantText(answer)]);
  }

  lemma MoreRounds(loaded: Transcript, question: string, rounds: seq<Exchange>, x: Exchange)
    ensures Asked(loaded, question, rounds + [x]) ==
            Asked(loaded, question, rounds) + [AssistantBlocks(x.blocks)] + [UserResults(x.results)]
  {
    assert (rounds + [x])[..|rounds|] == rounds;
  }

  // ---- the model's replies -------------------------------------------------

  function ToolUses(blocks: seq<Block>): (uses: seq<Block>)
    ensures forall i :: 0 <= i < |uses| ==> uses[i].ToolUse?
    ensures |uses| == |ToolIds(blocks)| && forall i :: 0 <= i < |uses| ==> uses[i].id == ToolIds(blocks)[i]
  {
    if blocks == [] then []
    else
      var last := blocks[|blocks| - 1];
      var rest := ToolUses(blocks[..|blocks| - 1]);
      if last.ToolUse? then rest + [last] else rest
  }

  function TextOf(blocks: seq<Block>): string {
    if blocks == [] then ""
    else
      var last := blocks[|blocks| - 1];
      TextOf(blocks[..|blocks| - 1]) + if last.TextBlock? then last.text else ""
  }

  /** The text of a reply is its text blocks, one after the other. */
  lemma {:induction false} TextSays(a: seq<Block>, b: seq<Block>, block: Block)
    ensures TextOf(a + b) == TextOf(a) + TextOf(b)
    ensures TextOf([block]) == match block { case TextBlock(text) => text case ToolUse(_, _, _) => "" }
  {
    if b == [] {
      assert a + b == a;
      assert TextOf([block][..0]) == "" && "" + TextOf([]) == "";
    } else {
      assert (a + b)[..|a + b| - 1] == a + b[..|b| - 1];
      TextSays(a, b[..|b| - 1], block);
    }
  }

  /** The message lists of the first `calls` model calls of a turn. */
  function Sends(codec: Codec, loaded: Transcript, question: string, rounds: seq<Exchange>, calls: nat): seq<Transcript>
    requires calls <= |rounds| + 1
  {
    seq(calls, k requires 0 <= k < calls => Shortened(codec, Asked(loaded, question, rounds[..k])))
  }

  lemma MoreSends(codec: Codec, loaded: Transcript, question: string, rounds: seq<Exchange>)
    ensures Sends(codec, loaded, question, rounds, |rounds| + 1) ==
            Sends(codec, loaded, question, rounds, |rounds|) + [Shortened(codec, Asked(loaded, question, rounds))]
  {
    assert rounds[..|rounds|] == rounds;
  }

  lemma SameSends(codec: Codec, loaded: Transcript, question: string, rounds: seq<Exchange>, x: Exchange)
    ensures Sends(codec, loaded, question, rounds + [x], |rounds| + 1) == Sends(codec, loaded, question, rounds, |rounds| + 1)
  {
    assert forall k :: 0 <= k <= |rounds| ==> (rounds + [x])[..k] == rounds[..k];
  }

  lemma {:induction false} RoundsAskNothing(rounds: seq<Exchange>)
    ensures forall i :: 0 <= i < |MessagesOf(rounds)| ==> !IsBoundary(MessagesOf(rounds)[i])
  {
    if rounds != [] { RoundsAskNothing(rounds[..|rounds| - 1]); }
  }

  /** What is compressed is what was loaded, in every call of a turn alike: a turn that
      can make its first call can make them all. */
  lemma AskedCompresses(codec: Codec, loaded: Transcript, question: string, rounds: seq<Exchange>)
    ensures var asked := Asked(loaded, question, rounds);
            && Past(asked) == loaded
            && Compress(codec, asked) == match Fault(codec, loaded) { case Some(e) => Err(e) case None => Ok(Shortened(codec, asked)) }
  {
    var current := [UserText(question)] + MessagesOf(rounds);
    RoundsAskNothing(rounds);
    PastOf(loaded, current);
    assert Asked(loaded, question, rounds) == loaded + current;
  }

  /** What a turn leaves in the transcript: its rounds and its answer, or just the
      question when no answer could be written. */
  function FinalTranscript(loaded: Transcript, question: string, rounds: seq<Exchange>, answer: Option<string>): Transcript {
    match answer
    case None => Asked(loaded, question, [])
    case Some(a) => Asked(loaded, question, rounds) + [AssistantText(a)]
  }

  /** The round sends back what the reply's queries returned, result by result. */
  ghost predicate IsRoundOf(call: Call, x: Exchange) {
    && call.Replied? && x.blocks == call.reply.blocks && call.reply.queries.Ran? && |x.results| == |ToolIds(x.blocks)|
    && forall k :: 0 <= k < |x.results| ==> x.results[k] == ToolResult(ToolIds(x.blocks)[k], call.reply.queries.outcome(k).payload)
  }

  /** The rounds are the replies the model gave, and the answer the one it ended on. */
  ghost predicate FollowsScript(script: seq<Call>, rounds: seq<Exchange>, answer: Option<string>) {
    && |rounds| <= |script|
    && (forall i :: 0 <= i < |rounds| ==> IsRoundOf(script[i], rounds[i]))
    && (answer.Some? ==>
          && |rounds| < |script| && script[|rounds|].Replied? && ToolIds(script[|rounds|].reply.blocks) == []
          && answer.value == Trim(TextOf(script[|rounds|].reply.blocks)))
  }

  // ---- the steps a reply stands for ----------------------------------------

  function UsageSteps(usage: Option<Usage>): seq<Step> {
    if usage.None? then [] else [UsageStep(usage.value)]
  }

  function ReasoningSteps(blocks: seq<Block>): seq<Step> {
    var reasoning := Trim(TextOf(blocks));
    if reasoning == "" then [] else [ReasoningStep(reasoning)]
  }

  function QueryStepOf(use: Block, outcome: QueryOutcome): Step
    requires use.ToolUse?
  {
    QueryStep(use.sql, if outcome.Rows? then None else Some(outcome.code))
  }

  function QuerySteps(uses: seq<Block>, outcome: nat -> QueryOutcome): seq<Step>
    requires forall i :: 0 <= i < |uses| ==> uses[i].ToolUse?
  {
    seq(|uses|, i requires 0 <= i < |uses| => QueryStepOf(uses[i], outcome(i)))
  }

  /** A tool round shows its usage, its reasoning and then each query. */
  function RoundSteps(call: Call): seq<Step> {
    if !call.Replied? || !call.reply.queries.Ran? then []
    else
      var reply := call.reply;
      UsageSteps(reply.usage) + ReasoningSteps(reply.blocks) + QuerySteps(ToolUses(reply.blocks), reply.queries.outcome)
  }

  lemma {:induction false} UsesAt(blocks: seq<Block>) returns (at: seq<nat>)
    ensures AreCalls(blocks, at) && |ToolUses(blocks)| == |at| && forall j :: 0 <= j < |at| ==> ToolUses(blocks)[j] == blocks[at[j]]
  {
    at := [];
    if blocks != [] {
      var n := |blocks| - 1;
      at := UsesAt(blocks[..n]);
      forall i: nat | i < n && blocks[i].ToolUse? ensures i in at { assert blocks[..n][i] == blocks[i]; }
      if blocks[n].ToolUse? { at := at + [n]; }
    }
  }

  /** What comes before the queries: the usage, if reported, and what the model wrote, unless
      that is blank. */
  ghost predicate IsPreamble(reply: Reply, steps: seq<Step>) {
    var written := TextOf(reply.blocks);
    var usage := match reply.usage { case None => [] case Some(u) => [UsageStep(u)] };
    if IsBlank(written) then steps == usage else steps == usage + [ReasoningStep(Trim(written))]
  }

  /** The steps of a tool round: after the preamble one for each tool call, with its query
      and the code of the failure if it failed. */
  lemma RoundStepsSay(reply: Reply) returns (at: seq<nat>)
    requires reply.queries.Ran?
    ensures AreCalls(reply.blocks, at)
    ensures var steps := RoundSteps(Replied(reply));
            var n := |steps| - |at|;
            && 0 <= n && IsPreamble(reply, steps[..n])
            && forall k :: 0 <= k < |at| ==>
                 steps[n + k] ==
                 QueryStep(reply.blocks[at[k]].sql, match reply.queries.outcome(k) { case Rows(_) => None case QueryFailed(_, code) => Some(code) })
  {
    hide ToolUses, TextOf, Trim, IsBlank, AreCalls;
    at := UsesAt(reply.blocks);
    BlankTrims(TextOf(reply.blocks));
    var lead := UsageSteps(reply.usage) + ReasoningSteps(reply.blocks);
    var steps := RoundSteps(Replied(reply));
    assert steps == lead + QuerySteps(ToolUses(reply.blocks), reply.queries.outcome);
    assert steps[..|lead|] == lead;
  }

  function ScriptSteps(script: seq<Call>, n: nat): seq<Step>
    requires n <= |script|
  {
    if n == 0 then [] else ScriptSteps(script, n - 1) + RoundSteps(script[n - 1])
  }

  /** What the model did in a turn: its rounds, its answer, how often it was called. */
  datatype Trace = Trace(rounds: seq<Exchange>, answer: Option<string>, calls: nat)

  /** The steps shown are those of the completed rounds, and with an answer only the
      usage of the last reply comes after them. */
  ghost predicate StepsFollow(script: seq<Call>, trace: Trace, steps: seq<Step>) {
    && |trace.rounds| <= |script| && ScriptSteps(script, |trace.rounds|) <= steps
    && (trace.answer.Some? ==>
          && |trace.rounds| < |script| && script[|trace.rounds|].Replied?
          && steps == ScriptSteps(script, |trace.rounds|) + UsageSteps(script[|trace.rounds|].reply.usage))
  }

  // ---- how a turn ends -----------------------------------------------------

  const NOT_FOUND := Problem(Unauthorized, "conversation not found")

  const NO_ROOM := Problem(AnswerTruncated,
    "Claude ran out of room while working on this and stopped before answering. Try breaking the question into smaller parts.")

  const TOO_LARGE := Problem(AnswerTruncated,
    "The answer was too large and got cut off. Ask for a narrower period, fewer columns, or a top-N instead.")

  function Failure(message: string): Problem { Problem(Internal, message) }

  function Unparsed(detail: string): Problem { Problem(EnvelopeParse, "could not parse assistant reply: " + detail) }

  /** A reply cut off in a tool round was not an answer that was too large. */
  function CutOff(blocks: seq<Block>): Problem {
    if ToolUses(blocks) != [] then NO_ROOM else TOO_LARGE
  }

  datatype Ending = Ending(status: TurnStatus, problems: seq<Problem>, saved: bool)

  function SavingProblems(saving: Saving): seq<Problem> {
    if saving.SavingRaises? then [Failure(saving.message)] else []
  }

  function FirstMessage(raising: nat -> Option<string>, n: nat): Option<string> {
    if n == 0 then None
    else if FirstMessage(raising, n - 1).Some? then FirstMessage(raising, n - 1)
    else raising(n - 1)
  }

  lemma {:induction false} FirstMessageStays(raising: nat -> Option<string>, i: nat, n: nat)
    requires i <= n && FirstMessage(raising, i).Some?
    ensures FirstMessage(raising, n) == FirstMessage(raising, i)
  {
    if i < n { FirstMessageStays(raising, i, n - 1); }
  }

  /** What raises in a tool round, if anything does: a tool call without a readable
      input, the queries themselves, or a result that cannot be turned into text. */
  function RoundRaise(reply: Reply): Option<string> {
    var n := |ToolUses(reply.blocks)|;
    var announcing := FirstMessage(reply.announcing, n);
    if announcing.Some? then announcing
    else
      match reply.queries
      case BatchRaised(message) => Some(message)
      case BatchCancelled => None
      case Ran(_, dumping) => FirstMessage(dumping, n)
  }

  lemma {:induction false} FirstMessageSays(raising: nat -> Option<string>, k: nat, n: nat)
    ensures FirstMessage(raising, n).None? <==> forall i: nat :: i < n ==> raising(i).None?
    ensures k < n && raising(k).Some? && (forall i: nat :: i < k ==> raising(i).None?) ==> FirstMessage(raising, n) == raising(k)
  {
    if n > 0 {
      FirstMessageSays(raising, k, n - 1);
    }
  }

  /** The `k`-th is the first of `n` to raise. */
  ghost predicate RaisesFirst(raising: nat -> Option<string>, k: nat, n: nat) {
    k < n && raising(k).Some? && forall i: nat :: i < k ==> raising(i).None?
  }

  ghost predicate NoneRaise(raising: nat -> Option<string>, n: nat) {
    forall i: nat :: i < n ==> raising(i).None?
  }

  /** Whatever raises first decides: announcing a query comes before running any, and
      running them before turning a result into text. */
  lemma RaiseSays(reply: Reply, at: seq<nat>, k: nat)
    requires AreCalls(reply.blocks, at)
    ensures RaisesFirst(reply.announcing, k, |at|) ==> RoundRaise(reply) == reply.announcing(k)
    ensures NoneRaise(reply.announcing, |at|) ==>
              match reply.queries
              case BatchRaised(message) => RoundRaise(reply) == Some(message)
              case BatchCancelled => RoundRaise(reply) == None
              case Ran(_, dumping) =>
                && (RaisesFirst(dumping, k, |at|) ==> RoundRaise(reply) == dumping(k))
                && (NoneRaise(dumping, |at|) ==> RoundRaise(reply) == None)
  {
    hide ToolUses, AreCalls, FirstMessage;
    var uses := UsesAt(reply.blocks);
    SameCalls(reply.blocks, at, uses);
    FirstMessageSays(reply.announcing, k, |at|);
    if reply.queries.Ran? { FirstMessageSays(reply.queries.dumping, k, |at|); }
  }

  /** How a reply ends the turn for a client that stays, if it does. */
  function EndingOf(reply: Reply, saving: Saving): Option<Ending> {
    if reply.truncated then Some(Ending(TurnError, [CutOff(reply.blocks)] + SavingProblems(saving), saving.Stores?))
    else if ToolUses(reply.blocks) == [] then
      match reply.parsed
      case Err(detail) => Some(Ending(TurnError, [Unparsed(detail)] + SavingProblems(saving), saving.Stores?))
      case Ok(_) => Some(Ending(if saving.SavingRaises? then TurnError else TurnOk, SavingProblems(saving), saving.Stores?))
    else
      match RoundRaise(reply)
      case Some(message) => Some(Ending(TurnError, [Failure(message)], false))
      case None => if reply.queries.BatchCancelled? then Some(Ending(TurnAborted, [], false)) else None
  }

  /** How a turn ends, from call `n` on, when the client stays to the end. */
  function PatientEnding(script: seq<Call>, n: nat, saving: Saving): Ending
    decreases |script| - n
  {
    if n >= |script| || script[n].Cancelled? then Ending(TurnAborted, [], false)
    else if script[n].Raised? then Ending(TurnError, [Failure(script[n].message)], false)
    else
      match EndingOf(script[n].reply, saving)
      case Some(ending) => ending
      case None => PatientEnding(script, n + 1, saving)
  }

  /** What keeps a turn from making any call: its past cannot be compressed. */
  function ObstacleOf(codec: Codec, loaded: Transcript): Option<Problem> {
    match Fault(codec, loaded)
    case None => None
    case Some(e) => Some(Failure(codec.describe(e)))
  }

  /** How a turn ends when the client stays to the end. */
  function TurnEnding(obstacle: Option<Problem>, script: seq<Call>, saving: Saving): Ending {
    match obstacle
    case Some(problem) => Ending(TurnError, [problem], false)
    case None => PatientEnding(script, 0, saving)
  }

  lemma {:induction false} SomeUse(blocks: seq<Block>)
    ensures ToolUses(blocks) != [] <==> exists b :: b in blocks && b.ToolUse?
  {
    if blocks != [] {
      SomeUse(blocks[..|blocks| - 1]);
      assert blocks == blocks[..|blocks| - 1] + [blocks[|blocks| - 1]];
    }
  }

  /** A reply cut off is blamed on its size exactly when it asked for nothing. */
  lemma CutOffSays(blocks: seq<Block>)
    ensures (exists b :: b in blocks && b.ToolUse?) ==> CutOff(blocks) == NO_ROOM
    ensures (forall b :: b in blocks ==> b.TextBlock?) ==> CutOff(blocks) == TOO_LARGE
  {
    hide ToolUses;
    SomeUse(blocks);
  }

  /** Which code an ending's error messages carry: one of their own for a reply that was cut
      off or could not be parsed, and "internal" for whatever raised. */
  lemma CodesSay(reply: Reply, saving: Saving)
    requires EndingOf(reply, saving).Some?
    ensures NOT_FOUND.code == Unauthorized
    ensures var problems := EndingOf(reply, saving).value.problems;
            && (forall k :: 1 <= k < |problems| ==> problems[k].code == Internal)
            && (reply.truncated ==> problems != [] && problems[0].code == AnswerTruncated)
            && (!reply.truncated && (forall b :: b in reply.blocks ==> b.TextBlock?) && reply.parsed.Err? ==>
                  problems != [] && problems[0] == Problem(EnvelopeParse, "could not parse assistant reply: " + reply.parsed.error))
            && (!reply.truncated && ((exists b :: b in reply.blocks && b.ToolUse?) || reply.parsed.Ok?) && problems != [] ==>
                  problems[0].code == Internal)
  {
    hide ToolUses, RoundRaise;
    SomeUse(reply.blocks);
  }

  predicate AnswersAtOnce(call: Call) {
    call.Replied? && !call.reply.truncated && ToolUses(call.reply.blocks) == [] && call.reply.parsed.Ok?
  }

  /** A turn ends the same whether it is stored or its conversation was deleted
      meanwhile, "ok" included; all that differs is that nothing is stored. */
  lemma {:induction false} EndingIgnoresDeletion(script: seq<Call>, n: nat)
    ensures PatientEnding(script, n, ConversationGone) == PatientEnding(script, n, Stores).(saved := false)
    ensures n < |script| && AnswersAtOnce(script[n]) ==> PatientEnding(script, n, ConversationGone) == Ending(TurnOk, [], false)
    decreases |script| - n
  {
    hide ToolUses;
    if n < |script| { EndingIgnoresDeletion(script, n + 1); }
  }

  /** "ok" and an error message exclude each other, "error" comes with one, and a turn
      that is ok has been stored unless its conversation is gone. */
  lemma {:induction false} ProblemsGoWithErrors(script: seq<Call>, n: nat, saving: Saving)
    ensures var ending := PatientEnding(script, n, saving);
            && (ending.status == TurnError <==> ending.problems != [])
            && (ending.status == TurnOk ==> !saving.SavingRaises? && (ending.saved <==> saving.Stores?))
            && (ending.status == TurnAborted ==> !ending.saved)
    decreases |script| - n
  {
    hide ToolUses;
    if n < |script| { ProblemsGoWithErrors(script, n + 1, saving); }
  }

  /** What the client is shown of an answer is what the reply said. */
  ghost predicate ShowsAnswer(script: seq<Call>, rounds: seq<Exchange>, shown: Shown) {
    && |rounds| < |script| && script[|rounds|].Replied? && script[|rounds|].reply.parsed.Ok?
    && shown.blocks == script[|rounds|].reply.parsed.value.blocks
    && shown.citations == script[|rounds|].reply.parsed.value.citations
  }

  // ---- what the replies reported -------------------------------------------

  /** The usage of the first `n` replies, added up. */
  function Reported(script: seq<Call>, n: nat): Usage
    requires n <= |script|
  {
    if n == 0 then Usage(0, 0, 0, 0)
    else
      var before, call := Reported(script, n - 1), script[n - 1];
      if !call.Replied? || call.reply.usage.None? then before
      else
        var u := call.reply.usage.value;
        Usage(before.inputTokens + u.inputTokens, before.outputTokens + u.outputTokens,
              before.cacheReadTokens + u.cacheReadTokens, before.cacheCreationTokens + u.cacheCreationTokens)
  }

  /** The steps add up to this usage. */
  ghost predicate AddUpTo(steps: seq<Step>, u: Usage) {
    var t := TallyOf(steps);
    t.input == u.inputTokens && t.output == u.outputTokens && t.cacheRead == u.cacheReadTokens && t.cacheCreation == u.cacheCreationTokens
  }

  lemma OneMoreCounted(steps: seq<Step>, step: Step)
    ensures TallyOf(steps + [step]) == Counted(TallyOf(steps), step)
  {
    assert (steps + [step])[..|steps|] == steps;
  }

  ghost predicate ReportNothing(steps: seq<Step>) {
    forall k :: 0 <= k < |steps| ==> !steps[k].UsageStep?
  }

  lemma {:induction false} OtherStepsAddNothing(steps: seq<Step>, more: seq<Step>, u: Usage)
    requires AddUpTo(steps, u) && ReportNothing(more)
    ensures AddUpTo(steps + more, u)
  {
    if more == [] {
      assert steps + more == steps;
    } else {
      var n := |more| - 1;
      OtherStepsAddNothing(steps, more[..n], u);
      OneMoreCounted(steps + more[..n], more[n]);
      assert steps + more[..n] + [more[n]] == steps + more;
    }
  }

  lemma {:induction false} ScriptAddsUp(script: seq<Call>, n: nat)
    requires n <= |script| && forall i :: 0 <= i < n ==> script[i].Replied? && script[i].reply.queries.Ran?
    ensures AddUpTo(ScriptSteps(script, n), Reported(script, n))
  {
    hide RoundSteps, AddUpTo;
    if n == 0 {
      NothingAddsUp();
    } else {
      ScriptAddsUp(script, n - 1);
      RoundAddsUp(script, n - 1, ScriptSteps(script, n - 1));
    }
  }

  lemma NothingAddsUp()
    ensures AddUpTo([], Usage(0, 0, 0, 0))
  {
  }

  lemma RoundAddsUp(script: seq<Call>, n: nat, before: seq<Step>)
    requires n < |script| && script[n].Replied? && script[n].reply.queries.Ran? && AddUpTo(before, Reported(script, n))
    ensures AddUpTo(before + RoundSteps(script[n]), Reported(script, n + 1))
  {
    hide ReasoningSteps, QuerySteps, ToolUses, UsageSteps, AddUpTo, ReportNothing, Reported;
    var reply := script[n].reply;
    var usage, other := UsageSteps(reply.usage), ReasoningSteps(reply.blocks) + QuerySteps(ToolUses(reply.blocks), reply.queries.outcome);
    UsageAddsUp(script, n, before);
    NoUsageThere(reply);
    OtherStepsAddNothing(before + usage, other, Reported(script, n + 1));
    assert RoundSteps(script[n]) == usage + other;
    assert before + usage + other == before + (usage + other);
  }

  lemma UsageAddsUp(script: seq<Call>, n: nat, before: seq<Step>)
    requires n < |script| && script[n].Replied? && AddUpTo(before, Reported(script, n))
    ensures AddUpTo(before + UsageSteps(script[n].reply.usage), Reported(script, n + 1))
  {
    var usage := script[n].reply.usage;
    if usage.Some? { OneMoreCounted(before, UsageStep(usage.value)); } else { assert before + [] == before; }
  }

  lemma NoUsageThere(reply: Reply)
    requires reply.queries.Ran?
    ensures var other := ReasoningSteps(reply.blocks) + QuerySteps(ToolUses(reply.blocks), reply.queries.outcome);
            ReportNothing(other)
  {
    hide ToolUses, TextOf, Trim;
    var reasoning, queries := ReasoningSteps(reply.blocks), QuerySteps(ToolUses(reply.blocks), reply.queries.outcome);
    assert forall k :: 0 <= k < |queries| ==> queries[k] == QueryStepOf(ToolUses(reply.blocks)[k], reply.queries.outcome(k));
    assert ReportNothing(reasoning) && ReportNothing(queries);
  }

  /** Main result on usage: the summary of an answered turn totals what its replies
      reported, each of them once. */
  lemma AnsweredTurnTotals(script: seq<Call>, trace: Trace, steps: seq<Step>)
    requires FollowsScript(script, trace.rounds, trace.answer) && StepsFollow(script, trace, steps) && trace.answer.Some?
    ensures AddUpTo(steps, Reported(script, |trace.rounds| + 1))
  {
    hide AddUpTo, ScriptSteps, UsageSteps;
    ScriptAddsUp(script, |trace.rounds|);
    UsageAddsUp(script, |trace.rounds|, ScriptSteps(script, |trace.rounds|));
  }

  /** How a turn ended. */
  datatype Exit = Exit(status: TurnStatus, saved: bool)

  /** A turn does what the model's replies call for: its rounds, its steps, its answer
      and, for a client that stays, its status and error messages. With an obstacle it
      makes no call, and the obstacle is all there is to show. */
  ghost predicate FollowsReplies(obstacle: Option<Problem>, script: seq<Call>, saving: Saving, patience: Option<nat>,
                                 trace: Trace, exit: Exit, shown: Shown)
  {
    && FollowsScript(script, trace.rounds, trace.answer) && AllExchanges(trace.rounds)
    && (trace.calls == |trace.rounds| + 1 || NeverAsked(trace, exit, shown))
    && StepsFollow(script, trace, shown.steps)
    && (obstacle.Some? ==> trace.calls == 0 && (exit.status == TurnError ==> shown.problems == [obstacle.value]))
    && (exit.status == TurnOk ==>
          trace.answer.Some? && shown.problems == [] && ShowsAnswer(script, trace.rounds, shown) && (exit.saved <==> saving.Stores?))
    && (exit.status == TurnError ==> shown.problems != [])
    && (exit.status == TurnAborted ==> !exit.saved)
    && (exit.saved ==> SavesOnReply(script, trace))
    && (patience.None? ==> Ending(exit.status, shown.problems, exit.saved) == TurnEnding(obstacle, script, saving))
  }

  /** What is saved comes from a last reply: its answer, or the question alone when it
      was cut off. */
  ghost predicate SavesOnReply(script: seq<Call>, trace: Trace) {
    && |trace.rounds| < |script| && script[|trace.rounds|].Replied?
    && (trace.answer.None? <==> script[|trace.rounds|].reply.truncated)
  }

  /** A turn that ends before its first call: nothing shown but errors, nothing saved. */
  predicate NeverAsked(trace: Trace, exit: Exit, shown: Shown) {
    trace == Trace([], None, 0) && shown.steps == [] && shown.blocks == [] && !exit.saved
  }

  // ---- a turn as a step of the whole system --------------------------------

  /** Everything a turn can change: the stored turns, the audit log and the lists
      sent to the model. */
  datatype World = World(turns: seq<TurnRow>, audit: seq<AuditRow>, sent: seq<Transcript>)

  datatype TurnRecord = TurnRecord(
    turnId: string,
    conversationId: string,
    loaded: Transcript,
    question: string,
    trace: Trace,
    exit: Exit,
    shown: Shown)

  /** The row a saved turn leaves behind. */
  function SavedRow(conversationId: string, question: string, loaded: Transcript, trace: Trace, shown: Shown): TurnRow {
    TurnRow(conversationId, question, shown.blocks, shown.citations, shown.steps,
            CapToTurnBoundary(FinalTranscript(loaded, question, trace.rounds, trace.answer), TRANSCRIPT_CAP))
  }

  /** One row, or none; a conversation deleted meanwhile is gone. */
  ghost predicate Stored(before: seq<TurnRow>, after: seq<TurnRow>, conversationId: string, row: TurnRow, saved: bool) {
    if saved then after == before + [row] else after == before || after == Without(before, conversationId)
  }

  /** A conversation changes hands in no turn; it may be deleted before a turn is saved. */
  ghost predicate OwnersKept(before: map<string, string>, after: map<string, string>, conversationId: string, saving: Saving) {
    after == before || (saving.ConversationGone? && after == before - {conversationId})
  }

  /** What one authorized turn does to the world: it asks the model again after every
      round, logs the queries it ran and one summary, and stores at most one row, built
      from what was shown. */
  ghost predicate IsTurn(codec: Codec, before: World, after: World, turn: TurnRecord) {
    && turn.loaded == Sanitize(LatestTranscript(before.turns, turn.conversationId))
    && AllExchanges(turn.trace.rounds)
    && (turn.trace.calls == |turn.trace.rounds| + 1 || (NeverAsked(turn.trace, turn.exit, turn.shown) && after.turns == before.turns))
    && (turn.trace.calls > 0 ==> Fault(codec, turn.loaded).None?)
    && after.sent == before.sent + Sends(codec, turn.loaded, turn.question, turn.trace.rounds, turn.trace.calls)
    && after.audit == before.audit + QueryRows(turn.turnId, turn.shown.steps) + [SummaryOf(turn.turnId, turn.shown.steps, turn.exit.status)]
    && Stored(before.turns, after.turns, turn.conversationId,
              SavedRow(turn.conversationId, turn.question, turn.loaded, turn.trace, turn.shown), turn.exit.saved)
  }

  ghost predicate AllSendable(lists: seq<Transcript>) {
    forall i :: 0 <= i < |lists| ==> Sendable(lists[i])
  }

  lemma {:induction false} SendsAreSendable(codec: Codec, loaded: Transcript, question: string, rounds: seq<Exchange>, calls: nat)
    requires Sound(loaded) && AllExchanges(rounds) && calls <= |rounds| + 1 && (calls > 0 ==> Fault(codec, loaded).None?)
    ensures AllSendable(Sends(codec, loaded, question, rounds, calls))
  {
    hide Compress, Shortened, Sendable, Asked, Sound, Fault;
    forall k | 0 <= k < calls ensures Sendable(Sends(codec, loaded, question, rounds, calls)[k]) {
      AskedIsSendable(loaded, question, rounds[..k], "");
      AskedCompresses(codec, loaded, question, rounds[..k]);
      CompressionStaysSendable(codec, Asked(loaded, question, rounds[..k]));
    }
  }

  lemma SavedRowIsLoadable(conversationId: string, question: string, loaded: Transcript, trace: Trace, shown: Shown)
    requires Sound(loaded) && AllExchanges(trace.rounds)
    ensures var row := SavedRow(conversationId, question, loaded, trace, shown);
            && Sound(Sanitize(row.transcript)) && row.conversationId == conversationId && row.userMessage == question
            && row.blocks == shown.blocks && row.citations == shown.citations && row.steps == shown.steps
  {
    hide Asked, Sound, CapToTurnBoundary;
    var final := FinalTranscript(loaded, question, trace.rounds, trace.answer);
    if trace.answer.Some? {
      AskedIsSendable(loaded, question, trace.rounds, trace.answer.value);
    } else {
      AskedIsSendable(loaded, question, [], "");
    }
    CapHeals(final);
  }

  /** Main result on one turn of the service: whatever the model replies, the database
      does and the client does, it sends only lists that can be sent and leaves
      everything stored loadable. */
  lemma TurnKeepsEverythingSound(codec: Codec, before: World, after: World, turn: TurnRecord)
    requires IsTurn(codec, before, after, turn) && Loadable(before.turns) && AllSendable(before.sent)
    ensures Loadable(after.turns) && AllSendable(after.sent)
  {
    hide Sends, SavedRow, Sendable, Sound, Sanitize, LatestTranscript, Without, AllExchanges, Fault, QueryRows, SummaryOf;
    LatestIsSound(before.turns, turn.conversationId);
    SendsAreSendable(codec, turn.loaded, turn.question, turn.trace.rounds, turn.trace.calls);
    SavedRowIsLoadable(turn.conversationId, turn.question, turn.loaded, turn.trace, turn.shown);
    WithoutIsLoadable(before.turns, turn.conversationId);
  }

  // ---- conversations that cannot be answered -------------------------------

  /** What the conversation would load cannot be compressed. */
  ghost predicate Unanswerable(codec: Codec, turns: seq<TurnRow>, conversationId: string) {
    Fault(codec, Sanitize(LatestTranscript(turns, conversationId))).Some?
  }

  /** A turn of such a conversation sends nothing, stores nothing, shows no step and no
      block, and ends with the one error message, unless the client leaves before it;
      so the next turn finds the conversation as it was. */
  lemma UnanswerableStaysSo(codec: Codec, before: World, after: World, turn: TurnRecord,
                            script: seq<Call>, saving: Saving, patience: Option<nat>)
    requires IsTurn(codec, before, after, turn) && Unanswerable(codec, before.turns, turn.conversationId)
    requires FollowsReplies(ObstacleOf(codec, turn.loaded), script, saving, patience, turn.trace, turn.exit, turn.shown)
    ensures after.sent == before.sent && after.turns == before.turns && Unanswerable(codec, after.turns, turn.conversationId)
    ensures turn.shown.steps == [] && turn.shown.blocks == [] && turn.exit.status != TurnOk
    ensures turn.exit.status == TurnError ==> turn.shown.problems == [Failure(codec.describe(Fault(codec, turn.loaded).value))]
    ensures patience.None? ==> turn.exit.status == TurnError
  {
    hide Fault, Sanitize, LatestTranscript, Stored, FollowsScript, ShowsAnswer, PatientEnding, QueryRows, SummaryOf, AllExchanges;
    assert Sends(codec, turn.loaded, turn.question, turn.trace.rounds, 0) == [];
    assert ScriptSteps(script, 0) == [];
  }

  /** How it gets there: a saved turn leaves a conversation that no later turn can
      answer exactly when its own answer, stored whatever it is, cannot be summarised. */
  lemma UnanswerableExactlyAfterFault(codec: Codec, before: World, after: World, turn: TurnRecord)
    requires IsTurn(codec, before, after, turn) && Loadable(before.turns) && turn.exit.saved
    ensures Unanswerable(codec, after.turns, turn.conversationId) <==>
            turn.trace.answer.Some? && HoldsFault(codec, turn.trace.answer.value)
  {
    hide Sends, Sanitize, HoldsFault, Fault, CapToTurnBoundary, QueryRows, SummaryOf, Sound, AllExchanges, FinalTranscript, LatestTranscript;
    var full := FinalTranscript(turn.loaded, turn.question, turn.trace.rounds, turn.trace.answer);
    LatestIsSound(before.turns, turn.conversationId);
    StartsWithQuestion(turn.loaded, turn.question, turn.trace.rounds, turn.trace.answer);
    SaveThenLoad(full, TRANSCRIPT_CAP);
    LatestOfAppended(before.turns, after.turns[|before.turns|]);
    FaultAfterTurn(codec, turn.loaded, turn.question, turn.trace.rounds, turn.trace.answer);
    if turn.trace.answer.Some? { EndsWithAnswer(turn.loaded, turn.question, turn.trace.rounds, turn.trace.answer.value); }
    CapKeepsFault(codec, full);
  }

  /** A fault in the last message is not cut off, and cutting adds none. */
  lemma CapKeepsFault(codec: Codec, full: Transcript)
    requires full != [] && IsBoundary(full[0])
    requires Fault(codec, full).Some? ==> full[|full| - 1].AssistantText? && HoldsFault(codec, full[|full| - 1].answer)
    ensures Fault(codec, CapToTurnBoundary(full, TRANSCRIPT_CAP)).Some? <==> Fault(codec, full).Some?
  {
    hide HoldsFault, Fault, CapToTurnBoundary, CompressTurns;
    CapIsTurnSuffix(full, TRANSCRIPT_CAP);
    var kept := CapToTurnBoundary(full, TRANSCRIPT_CAP);
    assert full == full[..|full| - |kept|] + kept;
    CompressionDistributes(codec, full[..|full| - |kept|], kept);
    if Fault(codec, full).Some? {
      assert kept[|kept| - 1] == full[|full| - 1];
      EndsItsTurn(kept);
      assert Chokes(codec, kept, |kept| - 1);
      FaultExactlyWhen(codec, kept);
    }
  }

  lemma EndsWithAnswer(loaded: Transcript, question: string, rounds: seq<Exchange>, answer: string)
    ensures var full := FinalTranscript(loaded, question, rounds, Some(answer)); full != [] && full[|full| - 1] == AssistantText(answer)
  {
  }

  lemma FaultOfTurn(codec: Codec, loaded: Transcript, question: string, body: Transcript)
    requires Fault(codec, loaded).None? && forall i :: 0 <= i < |body| ==> !IsBoundary(body[i])
    ensures Fault(codec, loaded + ([UserText(question)] + body)) == TurnFault(codec, body)
  {
    hide Fault, TurnFault, CompressTurns, FinalAnswer;
    var turn := [UserText(question)] + body;
    assert turn[1..] == body;
    OneTurn(codec, turn);
    CompressionDistributes(codec, loaded, turn);
  }

  /** Only the answer of a turn can make its transcript raise if what it loaded does
      not. */
  lemma FaultAfterTurn(codec: Codec, loaded: Transcript, question: string, rounds: seq<Exchange>, answer: Option<string>)
    requires Fault(codec, loaded).None?
    ensures Fault(codec, FinalTranscript(loaded, question, rounds, answer)).Some? <==> answer.Some? && HoldsFault(codec, answer.value)
  {
    hide Fault, HoldsFault, StripHeavyBlocks, LastAnswer;
    LastAnswerIs(MessagesOf(rounds), answer);
    match answer {
      case None =>
        FaultOfTurn(codec, loaded, question, []);
        assert Asked(loaded, question, []) == loaded + ([UserText(question)] + []);
      case Some(a) =>
        var body := MessagesOf(rounds) + [AssistantText(a)];
        RoundsAskNothing(rounds);
        FaultOfTurn(codec, loaded, question, body);
        assert Asked(loaded, question, rounds) + [AssistantText(a)] == loaded + ([UserText(question)] + body);
        StrippingRaisesExactlyWhen(codec, a);
    }
  }

  lemma LastAnswerIs(messages: Transcript, answer: Option<string>)
    ensures LastAnswer([]) == None
    ensures answer.Some? ==> LastAnswer(messages + [AssistantText(answer.value)]) == answer
  {
  }

  lemma StartsWithQuestion(loaded: Transcript, question: string, rounds: seq<Exchange>, answer: Option<string>)
    requires Sound(loaded)
    ensures var full := FinalTranscript(loaded, question, rounds, answer); full != [] && IsBoundary(full[0])
  {
  }

  lemma LatestOfAppended(turns: seq<TurnRow>, row: TurnRow)
    ensures LatestTranscript(turns + [row], row.conversationId) == row.transcript
  {
  }

  lemma EndsItsTurn(t: Transcript)
    requires |t| > 0 && IsBoundary(t[0]) && t[|t| - 1].AssistantText?
    ensures EndsTurn(t, |t| - 1)
  {
  }

  // ---- round by round ------------------------------------------------------

  /** The turn is about to make call `|rounds|`. */
  ghost predicate UnderWay(script: seq<Call>, saving: Saving, loaded: Transcript, question: string, rounds: seq<Exchange>,
                           transcript: Transcript, steps: seq<Step>)
  {
    && transcript == Asked(loaded, question, rounds) && AllExchanges(rounds) && FollowsScript(script, rounds, None)
    && steps == ScriptSteps(script, |rounds|)
    && PatientEnding(script, 0, saving) == PatientEnding(script, |rounds|, saving)
  }

  lemma TurnStarts(script: seq<Call>, saving: Saving, loaded: Transcript, question: string)
    ensures UnderWay(script, saving, loaded, question, [], loaded + [UserText(question)], [])
  {
  }

  /** Stopping early: only the steps of the completed rounds need to have been shown. */
  lemma StopsEarly(script: seq<Call>, saving: Saving, patience: Option<nat>, loaded: Transcript, question: string, rounds: seq<Exchange>,
                   transcript: Transcript, before: seq<Step>, exit: Exit, shown: Shown)
    requires UnderWay(script, saving, loaded, question, rounds, transcript, before) && before <= shown.steps
    requires exit.status != TurnOk && (exit.status == TurnError <==> shown.problems != [])
    requires exit.status == TurnAborted ==> !exit.saved
    requires exit.saved ==> SavesOnReply(script, Trace(rounds, None, |rounds| + 1))
    requires patience.None? ==> Ending(exit.status, shown.problems, exit.saved) == PatientEnding(script, |rounds|, saving)
    ensures FollowsReplies(None, script, saving, patience, Trace(rounds, None, |rounds| + 1), exit, shown)
  {
    hide Asked, AllExchanges, ScriptSteps, PatientEnding, IsRoundOf;
  }

  /** Stopping before the first call, because of an obstacle or because the client is
      gone. */
  lemma NeverCalls(obstacle: Option<Problem>, script: seq<Call>, saving: Saving, patience: Option<nat>, exit: Exit, shown: Shown)
    requires shown.steps == [] && shown.blocks == [] && !exit.saved
    requires || (patience.Some? && exit.status == TurnAborted)
             || (exit.status == TurnError && obstacle.Some? && shown.problems == [obstacle.value])
    ensures FollowsReplies(obstacle, script, saving, patience, Trace([], None, 0), exit, shown)
  {
  }

  lemma {:induction false} UsesAreCalls(blocks: seq<Block>)
    ensures ToolUses(blocks) == [] <==> ToolIds(blocks) == []
  {
  }

  /** Everything a completed round adds. */
  lemma RoundCompletes(script: seq<Call>, saving: Saving, loaded: Transcript, question: string, rounds: seq<Exchange>,
                       transcript: Transcript, before: seq<Step>, x: Exchange, steps: seq<Step>)
    requires UnderWay(script, saving, loaded, question, rounds, transcript, before)
    requires |rounds| < |script| && IsRoundOf(script[|rounds|], x) && IsExchange(x)
    requires script[|rounds|].Replied? && EndingOf(script[|rounds|].reply, saving).None?
    requires steps == before + RoundSteps(script[|rounds|])
    ensures UnderWay(script, saving, loaded, question, rounds + [x],
                     transcript + [AssistantBlocks(x.blocks)] + [UserResults(x.results)], steps)
  {
    hide Asked, RoundSteps, IsRoundOf, EndingOf, IsExchange;
    MoreRounds(loaded, question, rounds, x);
    assert PatientEnding(script, |rounds|, saving) == PatientEnding(script, |rounds| + 1, saving);
    assert ScriptSteps(script, |rounds| + 1) == ScriptSteps(script, |rounds|) + RoundSteps(script[|rounds|]);
  }

  /** The round of a reply, from its queries' results. */
  lemma RoundIsOf(call: Call, x: Exchange)
    requires call.Replied? && call.reply.queries.Ran? && x.blocks == call.reply.blocks
    requires var uses := ToolUses(x.blocks);
             && uses != [] && |x.results| == |uses|
             && forall i :: 0 <= i < |uses| ==> x.results[i] == ToolResult(uses[i].id, call.reply.queries.outcome(i).payload)
    ensures IsRoundOf(call, x) && IsExchange(x)
  {
    hide ToolUses, ToolIds;
    UsesAreCalls(x.blocks);
    assert forall i :: 0 <= i < |x.results| ==> ResultIds(x.results)[i] == ToolIds(x.blocks)[i];
  }

  /** A reply that is cut off ends the turn in error, with the question kept. */
  lemma TruncationFollows(script: seq<Call>, saving: Saving, patience: Option<nat>, loaded: Transcript, question: string,
                          rounds: seq<Exchange>, transcript: Transcript, before: seq<Step>, reply: Reply, exit: Exit, shown: Shown)
    requires UnderWay(script, saving, loaded, question, rounds, transcript, before)
    requires |rounds| < |script| && script[|rounds|] == Replied(reply) && reply.truncated
    requires exit.status == TurnError && shown.problems != [] && before <= shown.steps
    requires patience.None? ==> shown.problems == [CutOff(reply.blocks)] + SavingProblems(saving) && (exit.saved <==> saving.Stores?)
    ensures FollowsReplies(None, script, saving, patience, Trace(rounds, None, |rounds| + 1), exit, shown)
    ensures |transcript| >= |loaded| + 1 && transcript[..|loaded| + 1] == FinalTranscript(loaded, question, rounds, None)
  {
    hide UnderWay, FollowsReplies;
    StopsEarly(script, saving, patience, loaded, question, rounds, transcript, before, exit, shown);
    QuestionIsKept(script, saving, loaded, question, rounds, transcript, before);
  }

  lemma QuestionIsKept(script: seq<Call>, saving: Saving, loaded: Transcript, question: string, rounds: seq<Exchange>,
                       transcript: Transcript, before: seq<Step>)
    requires UnderWay(script, saving, loaded, question, rounds, transcript, before)
    ensures |transcript| >= |loaded| + 1 && transcript[..|loaded| + 1] == FinalTranscript(loaded, question, rounds, None)
  {
  }

  /** A reply without tool calls is the answer of the turn. */
  lemma AnswerFollows(script: seq<Call>, saving: Saving, patience: Option<nat>, loaded: Transcript, question: string,
                      rounds: seq<Exchange>, transcript: Transcript, before: seq<Step>, reply: Reply, exit: Exit, shown: Shown)
    requires UnderWay(script, saving, loaded, question, rounds, transcript, before)
    requires |rounds| < |script| && script[|rounds|] == Replied(reply) && !reply.truncated && ToolUses(reply.blocks) == []
    requires shown.steps == before + UsageSteps(reply.usage)
    requires exit.status == TurnOk ==>
               shown.problems == [] && (exit.saved <==> saving.Stores?)
               && reply.parsed.Ok? && shown.blocks == reply.parsed.value.blocks && shown.citations == reply.parsed.value.citations
    requires exit.status == TurnError ==> shown.problems != []
    requires exit.status == TurnAborted ==> !exit.saved && patience.Some?
    requires patience.None? ==>
               && (exit.saved <==> saving.Stores?)
               && exit.status == (if reply.parsed.Err? || saving.SavingRaises? then TurnError else TurnOk)
               && shown.problems == (if reply.parsed.Err? then [Unparsed(reply.parsed.error)] else []) + SavingProblems(saving)
    ensures var raw := Trim(TextOf(reply.blocks));
            && FollowsReplies(None, script, saving, patience, Trace(rounds, Some(raw), |rounds| + 1), exit, shown)
            && transcript + [AssistantText(raw)] == FinalTranscript(loaded, question, rounds, Some(raw))
  {
    hide Asked, ScriptSteps, IsRoundOf, TextOf, Trim;
    UsesAreCalls(reply.blocks);
    if patience.None? {
      assert [] + SavingProblems(saving) == SavingProblems(saving);
      assert PatientEnding(script, |rounds|, saving) == EndingOf(reply, saving).value;
    }
  }
}
