/** The DevCare conversation turn: the same transcript discipline as the chat,
    with a bound on tool rounds and nothing compressed. */
module DevCareLoop {
  import opened Wrappers
  import opened Text
  import opened ChatTranscript
  import opened ChatHistory
  import opened ChatEvents
  import opened ChatTurn

  const MAX_TOOL_ROUNDS := 10

  const TOO_MANY := Problem(Internal, "too many tool rounds; stopping")

  /** What handling one tool call gives: a payload for the model and perhaps a
      block for the operator. */
  datatype ToolOutcome = Handled(payload: string, block: Option<string>) | HandlingRaised(message: string)

  datatype DevCall = DevReplied(blocks: seq<Block>, tools: nat -> ToolOutcome) | DevRaised(message: string) | DevCancelled

  // ---- what the replies stand for ------------------------------------------

  /** The round sends back what handling each tool call gave. */
  ghost predicate IsDevRoundOf(call: DevCall, x: Exchange) {
    && call.DevReplied? && x.blocks == call.blocks && |x.results| == |ToolIds(x.blocks)|
    && forall k :: 0 <= k < |x.results| ==> call.tools(k).Handled? && x.results[k] == ToolResult(ToolIds(x.blocks)[k], call.tools(k).payload)
  }

  ghost predicate FollowsDevScript(script: seq<DevCall>, rounds: seq<Exchange>) {
    |rounds| <= |script| && forall i :: 0 <= i < |rounds| ==> IsDevRoundOf(script[i], rounds[i])
  }

  /** The blocks the first `n` tool calls of a reply show the operator. */
  function OutcomeBlocks(tools: nat -> ToolOutcome, n: nat): seq<string> {
    if n == 0 then []
    else
      var rest, last := OutcomeBlocks(tools, n - 1), tools(n - 1);
      if last.Handled? && last.block.Some? then rest + [last.block.value] else rest
  }

  /** The blocks of the first `n` rounds. */
  function ScriptBlocks(script: seq<DevCall>, n: nat): seq<string>
    requires n <= |script|
  {
    if n == 0 then []
    else if !script[n - 1].DevReplied? then ScriptBlocks(script, n - 1)
    else ScriptBlocks(script, n - 1) + OutcomeBlocks(script[n - 1].tools, |ToolIds(script[n - 1].blocks)|)
  }

  function AnswerBlocks(raw: string): seq<string> {
    if raw == "" then [] else [raw]
  }

  /** An answer is shown as it is; a blank one is not shown. */
  lemma AnswerIsShown(raw: string)
    ensures "" !in AnswerBlocks(raw) && (raw != "" ==> AnswerBlocks(raw) == [raw])
  {
  }

  /** The message lists of the first `calls` calls. */
  function PlainSends(loaded: Transcript, question: string, rounds: seq<Exchange>, calls: nat): seq<Transcript>
    requires calls <= |rounds| + 1
  {
    seq(calls, k requires 0 <= k < calls => Asked(loaded, question, rounds[..k]))
  }

  lemma MorePlainSends(loaded: Transcript, question: string, rounds: seq<Exchange>)
    ensures PlainSends(loaded, question, rounds, |rounds| + 1) ==
            PlainSends(loaded, question, rounds, |rounds|) + [Asked(loaded, question, rounds)]
  {
    assert rounds[..|rounds|] == rounds;
  }

  lemma SamePlainSends(loaded: Transcript, question: string, rounds: seq<Exchange>, x: Exchange)
    ensures PlainSends(loaded, question, rounds + [x], |rounds| + 1) == PlainSends(loaded, question, rounds, |rounds| + 1)
  {
    assert forall k :: 0 <= k <= |rounds| ==> (rounds + [x])[..k] == rounds[..k];
  }

  lemma PlainSendsAreSendable(loaded: Transcript, question: string, rounds: seq<Exchange>, calls: nat)
    requires Sound(loaded) && AllExchanges(rounds) && calls <= |rounds| + 1
    ensures AllSendable(PlainSends(loaded, question, rounds, calls))
  {
    hide Sendable, Asked, Sound;
    forall k | 0 <= k < calls ensures Sendable(PlainSends(loaded, question, rounds, calls)[k]) {
      AskedIsSendable(loaded, question, rounds[..k], "");
    }
  }

  /** The row a completed turn stores; DevCare keeps no citations and no steps. */
  function DevSavedRow(conversationId: string, question: string, loaded: Transcript, rounds: seq<Exchange>, answer: string,
                       blocks: seq<string>): TurnRow
  {
    TurnRow(conversationId, question, blocks, [], [],
            CapToTurnBoundary(Asked(loaded, question, rounds) + [AssistantText(answer)], TRANSCRIPT_CAP))
  }

  lemma DevSavedRowIsLoadable(conversationId: string, question: string, loaded: Transcript, rounds: seq<Exchange>,
                              answer: string, blocks: seq<string>)
    requires Sound(loaded) && AllExchanges(rounds)
    ensures var row := DevSavedRow(conversationId, question, loaded, rounds, answer, blocks);
            && Sound(Sanitize(row.transcript)) && row.conversationId == conversationId && row.userMessage == question
            && row.blocks == blocks && row.citations == [] && row.steps == []
  {
    hide Asked, Sound, CapToTurnBoundary;
    AskedIsSendable(loaded, question, rounds, answer);
    CapHeals(Asked(loaded, question, rounds) + [AssistantText(answer)]);
  }

  // ---- how a turn ends -----------------------------------------------------

  /** What the first of `n` tool calls to raise says, if one does. */
  function FirstRaised(tools: nat -> ToolOutcome, n: nat): Option<string> {
    if n == 0 then None
    else if FirstRaised(tools, n - 1).Some? then FirstRaised(tools, n - 1)
    else if tools(n - 1).HandlingRaised? then Some(tools(n - 1).message)
    else None
  }

  lemma {:induction false} RaisedFirst(tools: nat -> ToolOutcome, i: nat, n: nat)
    requires i <= n && FirstRaised(tools, i).Some?
    ensures FirstRaised(tools, n) == FirstRaised(tools, i)
  {
    if i < n { RaisedFirst(tools, i, n - 1); }
  }

  /** The first call to raise decides; without one nothing is raised. */
  lemma {:induction false} FirstRaisedSays(tools: nat -> ToolOutcome, k: nat, n: nat)
    ensures FirstRaised(tools, n).None? <==> forall i: nat :: i < n ==> tools(i).Handled?
    ensures k < n && tools(k).HandlingRaised? && (forall i: nat :: i < k ==> tools(i).Handled?) ==> FirstRaised(tools, n) == Some(tools(k).message)
  {
    if n > 0 { FirstRaisedSays(tools, k, n - 1); }
  }

  /** One more call shows its block if it has one. */
  lemma OutcomeBlocksSay(tools: nat -> ToolOutcome, n: nat)
    ensures OutcomeBlocks(tools, 0) == []
    ensures OutcomeBlocks(tools, n + 1) ==
            OutcomeBlocks(tools, n) + match tools(n) { case Handled(_, Some(block)) => [block] case _ => [] }
  {
  }

  datatype DevEnding = DevEnding(answered: bool, problems: seq<Problem>)

  /** How a turn ends, from call `n` on, for an operator who stays: after an answer,
      with one error message, or cancelled without any. */
  function PatientDevEnding(script: seq<DevCall>, n: nat, saving: Saving): DevEnding
    decreases |script| - n
  {
    if n > MAX_TOOL_ROUNDS then DevEnding(false, [TOO_MANY])
    else if n >= |script| || script[n].DevCancelled? then DevEnding(false, [])
    else if script[n].DevRaised? then DevEnding(false, [Failure(script[n].message)])
    else if ToolUses(script[n].blocks) == [] then DevEnding(true, SavingProblems(saving))
    else
      match FirstRaised(script[n].tools, |ToolUses(script[n].blocks)|)
      case Some(message) => DevEnding(false, [Failure(message)])
      case None => PatientDevEnding(script, n + 1, saving)
  }

  predicate IsToolRound(call: DevCall) {
    call.DevReplied? && ToolUses(call.blocks) != [] && FirstRaised(call.tools, |ToolUses(call.blocks)|).None?
  }

  /** Reply `k` is the answer, and every reply from `n` up to it a tool round. */
  predicate AnswersAt(script: seq<DevCall>, n: nat, k: nat) {
    && n <= k < |script| && k <= 10
    && script[k].DevReplied? && ToolUses(script[k].blocks) == []
    && forall i :: n <= i < k ==> IsToolRound(script[i])
  }

  /** The operator who stays gets an answer exactly when the model gives one within ten
      rounds, all of which go through. */
  lemma {:induction false} AnsweredExactlyWithinBound(script: seq<DevCall>, n: nat, saving: Saving)
    ensures PatientDevEnding(script, n, saving).answered <==> exists k :: AnswersAt(script, n, k)
    decreases |script| - n
  {
    hide ToolUses, FirstRaised;
    if n < |script| && n <= MAX_TOOL_ROUNDS && IsToolRound(script[n]) {
      AnsweredExactlyWithinBound(script, n + 1, saving);
      if PatientDevEnding(script, n + 1, saving).answered {
        var k :| AnswersAt(script, n + 1, k);
        assert AnswersAt(script, n, k);
      } else if k :| AnswersAt(script, n, k) {
        assert AnswersAt(script, n + 1, k);
      }
    } else if PatientDevEnding(script, n, saving).answered {
      assert AnswersAt(script, n, n);
    }
  }

  /** Everything authorized that happens: what was loaded, the rounds, the number of
      calls, the final reply's text and what was shown. */
  datatype DevTurn = DevTurn(loaded: Transcript, rounds: seq<Exchange>, calls: nat, answer: string, saved: bool, shown: Shown)

  datatype DevOutcome = DevRefused | DevNeverBegan | DevTook(turn: DevTurn)

  /** A turn does what the replies call for: at most `MAX_TOOL_ROUNDS + 1` calls, a row
      stored only with an answer, built from every block shown, and for an operator who
      stays the very error messages the replies lead to. */
  ghost predicate FollowsDevReplies(script: seq<DevCall>, saving: Saving, patience: Option<nat>, turn: DevTurn) {
    var n := |turn.rounds|;
    && AllExchanges(turn.rounds) && FollowsDevScript(script, turn.rounds)
    && n <= turn.calls <= n + 1 && turn.calls <= MAX_TOOL_ROUNDS + 1
    && turn.shown.steps == [] && turn.shown.citations == []
    && ScriptBlocks(script, n) <= turn.shown.blocks
    && (turn.saved ==>
          && n < |script| && script[n].DevReplied? && ToolUses(script[n].blocks) == []
          && turn.answer == Trim(TextOf(script[n].blocks)) && turn.shown.problems == []
          && turn.shown.blocks == ScriptBlocks(script, n) + AnswerBlocks(turn.answer))
    && (patience.None? ==>
          var ending := PatientDevEnding(script, 0, saving);
          turn.shown.problems == ending.problems && (turn.saved <==> ending.answered && saving.Stores?))
  }

  /** The turn is about to make call `|rounds|`. */
  ghost predicate DevUnderWay(script: seq<DevCall>, saving: Saving, loaded: Transcript, question: string, rounds: seq<Exchange>,
                              transcript: Transcript, blocks: seq<string>)
  {
    && transcript == Asked(loaded, question, rounds) && AllExchanges(rounds) && FollowsDevScript(script, rounds)
    && blocks == ScriptBlocks(script, |rounds|) && |rounds| <= MAX_TOOL_ROUNDS + 1
    && PatientDevEnding(script, 0, saving) == PatientDevEnding(script, |rounds|, saving)
  }

  lemma DevTurnStarts(script: seq<DevCall>, saving: Saving, loaded: Transcript, question: string)
    ensures DevUnderWay(script, saving, loaded, question, [], loaded + [UserText(question)], [])
    ensures PlainSends(loaded, question, [], 0) == [] && ShownBy([]) == NOTHING
  {
  }

  /** Ending without an answer. */
  lemma DevStopsEarly(script: seq<DevCall>, saving: Saving, patience: Option<nat>, loaded: Transcript, question: string, rounds: seq<Exchange>,
                      transcript: Transcript, before: seq<string>, turn: DevTurn)
    requires DevUnderWay(script, saving, loaded, question, rounds, transcript, before) && turn.rounds == rounds && !turn.saved
    requires |rounds| <= turn.calls <= |rounds| + 1 && turn.calls <= MAX_TOOL_ROUNDS + 1
    requires turn.shown.steps == [] && turn.shown.citations == [] && before <= turn.shown.blocks
    requires patience.None? ==> DevEnding(false, turn.shown.problems) == PatientDevEnding(script, |rounds|, saving)
    ensures FollowsDevReplies(script, saving, patience, turn)
  {
    hide Asked, AllExchanges, ScriptBlocks, PatientDevEnding, IsDevRoundOf;
  }

  /** A reply without tool calls is the answer. */
  lemma DevAnswerFollows(script: seq<DevCall>, saving: Saving, patience: Option<nat>, loaded: Transcript, question: string, rounds: seq<Exchange>,
                         transcript: Transcript, before: seq<string>, turn: DevTurn)
    requires DevUnderWay(script, saving, loaded, question, rounds, transcript, before)
    requires turn.rounds == rounds && turn.calls == |rounds| + 1 <= MAX_TOOL_ROUNDS + 1
    requires |rounds| < |script| && script[|rounds|].DevReplied? && ToolUses(script[|rounds|].blocks) == []
    requires turn.answer == Trim(TextOf(script[|rounds|].blocks))
    requires turn.shown.steps == [] && turn.shown.citations == [] && before <= turn.shown.blocks
    requires turn.saved ==> turn.shown.problems == [] && turn.shown.blocks == before + AnswerBlocks(turn.answer)
    requires patience.None? ==> (turn.saved <==> saving.Stores?) && turn.shown.problems == SavingProblems(saving)
    ensures FollowsDevReplies(script, saving, patience, turn)
  {
    hide Asked, AllExchanges, ScriptBlocks, IsDevRoundOf, TextOf, Trim, ToolUses, AnswerBlocks;
    assert PatientDevEnding(script, |rounds|, saving) == DevEnding(true, SavingProblems(saving));
  }

  /** The round of a reply, from what handling its tool calls gave. */
  lemma DevRoundIsOf(call: DevCall, x: Exchange)
    requires call.DevReplied? && x.blocks == call.blocks
    requires var uses := ToolUses(x.blocks);
             && uses != [] && |x.results| == |uses|
             && forall i :: 0 <= i < |uses| ==> call.tools(i).Handled? && x.results[i] == ToolResult(uses[i].id, call.tools(i).payload)
    ensures IsDevRoundOf(call, x) && IsExchange(x) && |ToolUses(x.blocks)| == |ToolIds(x.blocks)|
  {
    hide ToolUses, ToolIds;
    UsesAreCalls(x.blocks);
    assert forall i :: 0 <= i < |x.results| ==> ResultIds(x.results)[i] == ToolIds(x.blocks)[i];
  }

  /** Everything a completed round adds. */
  lemma DevRoundCompletes(script: seq<DevCall>, saving: Saving, loaded: Transcript, question: string, rounds: seq<Exchange>,
                          transcript: Transcript, before: seq<string>, results: seq<ToolResult>)
    requires DevUnderWay(script, saving, loaded, question, rounds, transcript, before)
    requires |rounds| < |script| && script[|rounds|].DevReplied? && |rounds| <= MAX_TOOL_ROUNDS
    requires var call := script[|rounds|];
             var uses := ToolUses(call.blocks);
             && uses != [] && |results| == |uses| && FirstRaised(call.tools, |uses|).None?
             && forall i :: 0 <= i < |uses| ==> call.tools(i).Handled? && results[i] == ToolResult(uses[i].id, call.tools(i).payload)
    ensures var call := script[|rounds|];
            && DevUnderWay(script, saving, loaded, question, rounds + [Exchange(call.blocks, results)],
                           transcript + [AssistantBlocks(call.blocks)] + [UserResults(results)],
                           before + OutcomeBlocks(call.tools, |ToolUses(call.blocks)|))
            && PlainSends(loaded, question, rounds + [Exchange(call.blocks, results)], |rounds| + 1) ==
               PlainSends(loaded, question, rounds, |rounds| + 1)
  {
    hide Asked, ToolUses, ToolIds, OutcomeBlocks, PlainSends, IsDevRoundOf, IsExchange, PatientDevEnding, FirstRaised;
    var x := Exchange(script[|rounds|].blocks, results);
    DevRoundIsOf(script[|rounds|], x);
    MoreRounds(loaded, question, rounds, x);
    SamePlainSends(loaded, question, rounds, x);
    NextDevEnding(script, |rounds|, saving);
  }

  lemma NextDevEnding(script: seq<DevCall>, n: nat, saving: Saving)
    requires n < |script| && n <= MAX_TOOL_ROUNDS && script[n].DevReplied? && ToolUses(script[n].blocks) != []
    ensures PatientDevEnding(script, n, saving) ==
            match FirstRaised(script[n].tools, |ToolUses(script[n].blocks)|)
            case Some(message) => DevEnding(false, [Failure(message)])
            case None => PatientDevEnding(script, n + 1, saving)
  {
    hide ToolUses, FirstRaised;
  }

  // ---- the service ---------------------------------------------------------

  datatype ToolsEnd = AllHandled | OperatorLeft | OneRaised(message: string)

  class DevCareService {
    const history: HistoryStore
    var sent: seq<Transcript>

    /** Everything stored loads soundly and everything ever sent was sendable. */
    ghost predicate Valid()
      reads this, history
    {
      history.Valid() && Loadable(history.turns) && AllSendable(sent)
    }

    constructor (history: HistoryStore)
      requires history.Valid() && Loadable(history.turns)
      ensures Valid() && this.history == history && sent == []
    {
      this.history := history;
      sent := [];
    }

    method HandleTools(uses: seq<Block>, tools: nat -> ToolOutcome, client: Client, before: seq<string>)
      returns (end: ToolsEnd, results: seq<ToolResult>, blocks: seq<string>)
      requires forall i :: 0 <= i < |uses| ==> uses[i].ToolUse?
      requires ShownBy(client.events) == NOTHING.(blocks := before)
      modifies client
      ensures ShownBy(client.events) == NOTHING.(blocks := blocks) && before <= blocks
      ensures end.OperatorLeft? ==> client.patience.Some?
      ensures end.OneRaised? ==> FirstRaised(tools, |uses|) == Some(end.message)
      ensures end.AllHandled? ==>
                && FirstRaised(tools, |uses|).None? && |results| == |uses| && blocks == before + OutcomeBlocks(tools, |uses|)
                && forall i :: 0 <= i < |uses| ==> tools(i).Handled? && results[i] == ToolResult(uses[i].id, tools(i).payload)
    {
      hide ShownBy;
      assert before + [] == before;
      results, blocks := [], before;
      for i := 0 to |uses|
        invariant ShownBy(client.events) == NOTHING.(blocks := blocks) && blocks == before + OutcomeBlocks(tools, i)
        invariant FirstRaised(tools, i).None? && |results| == i
        invariant forall k :: 0 <= k < i ==> tools(k).Handled? && results[k] == ToolResult(uses[k].id, tools(k).payload)
      {
        var outcome := tools(i);
        if outcome.HandlingRaised? {
          RaisedFirst(tools, i + 1, |uses|);
          return OneRaised(outcome.message), results, blocks;
        }
        if outcome.block.Some? {
          blocks := blocks + [outcome.block.value];
          var alive := client.Receive(BlockEvent(outcome.block.value));
          if !alive { return OperatorLeft, results, blocks; }
        }
        results := results + [ToolResult(uses[i].id, outcome.payload)];
      }
      return AllHandled, results, blocks;
    }

    /** The final reply: its text as a block, the saved turn, then done. */
    method Answer(conversationId: string, sessionId: string, question: string, raw: string, before: seq<string>, transcript: Transcript,
                  saving: Saving, client: Client, ghost loaded: Transcript, ghost rounds: seq<Exchange>)
      returns (saved: bool)
      requires Valid() && history.Owns(conversationId, sessionId)
      requires Sound(loaded) && AllExchanges(rounds) && transcript == Asked(loaded, question, rounds)
      requires ShownBy(client.events) == NOTHING.(blocks := before)
      modifies history, client
      ensures Valid()
      ensures Stored(old(history.turns), history.turns, conversationId,
                     DevSavedRow(conversationId, question, loaded, rounds, raw, ShownBy(client.events).blocks), saved)
      ensures ShownBy(client.events).(problems := []) == NOTHING.(blocks := before + AnswerBlocks(raw))
      ensures saved ==> ShownBy(client.events).problems == []
      ensures client.patience.None? ==> (saved <==> saving.Stores?) && ShownBy(client.events).problems == SavingProblems(saving)
    {
      hide ShownBy, Asked, AllExchanges, Sound, AllSendable, CapToTurnBoundary;
      var blocks := before;
      assert before + [] == before;
      if raw != "" {
        blocks := blocks + [raw];
        var alive := client.Receive(BlockEvent(raw));
        if !alive { return false; }
      }
      AskedIsSendable(loaded, question, rounds, raw);
      var full := transcript + [AssistantText(raw)];
      match saving {
        case Stores =>
          saved := history.AppendTurn(conversationId, sessionId, question, blocks, [], [], full);
        case ConversationGone =>
          var _ := history.DeleteConversation(conversationId, sessionId);
          saved := history.AppendTurn(conversationId, sessionId, question, blocks, [], [], full);
        case SavingRaises(_) =>
          saved := false;
      }
      if saving.SavingRaises? { var _ := client.Receive(ErrorEvent(Failure(saving.message))); } else { var _ := client.Receive(DoneEvent); }
    }

    /** One reply: the answer, or a round of tool calls. */
    method TakeReply(conversationId: string, sessionId: string, question: string, call: DevCall, transcript: Transcript, before: seq<string>,
                     saving: Saving, client: Client, ghost script: seq<DevCall>, ghost loaded: Transcript, ghost rounds: seq<Exchange>)
      returns (over: bool, longer: Transcript, blocks: seq<string>, ghost turn: DevTurn)
      requires Valid() && history.Owns(conversationId, sessionId) && Sound(loaded)
      requires DevUnderWay(script, saving, loaded, question, rounds, transcript, before)
      requires |rounds| < |script| && script[|rounds|] == call && call.DevReplied? && |rounds| <= MAX_TOOL_ROUNDS
      requires ShownBy(client.events) == NOTHING.(blocks := before)
      modifies history, client
      ensures Valid() && turn.loaded == loaded && turn.calls == |rounds| + 1 && turn.shown == ShownBy(client.events)
      ensures over ==> turn.rounds == rounds && FollowsDevReplies(script, saving, client.patience, turn)
      ensures over ==> Stored(old(history.turns), history.turns, conversationId,
                              DevSavedRow(conversationId, question, loaded, rounds, turn.answer, turn.shown.blocks), turn.saved)
      ensures !over ==>
                && unchanged(history) && turn.shown == NOTHING.(blocks := blocks) && |turn.rounds| == |rounds| + 1
                && DevUnderWay(script, saving, loaded, question, turn.rounds, longer, blocks)
                && PlainSends(loaded, question, turn.rounds, |rounds| + 1) == PlainSends(loaded, question, rounds, |rounds| + 1)
    {
      hide ShownBy, DevUnderWay, FollowsDevReplies, PlainSends, DevSavedRow, ToolUses, TextOf, Trim, HistoryStore.Valid, HistoryStore.Owns,
           Loadable, AllSendable, Sound, FirstRaised, OutcomeBlocks, AnswerBlocks, Asked, AllExchanges;
      longer, blocks := transcript, before;
      var uses := ToolUses(call.blocks);
      if uses == [] {
        DevAsksSoFar(script, saving, loaded, question, rounds, transcript, before);
        var raw := Trim(TextOf(call.blocks));
        var saved := Answer(conversationId, sessionId, question, raw, blocks, transcript, saving, client, loaded, rounds);
        turn := DevTurn(loaded, rounds, |rounds| + 1, raw, saved, ShownBy(client.events));
        DevAnswerFollows(script, saving, client.patience, loaded, question, rounds, transcript, before, turn);
        return true, longer, blocks, turn;
      }
      var end, results;
      end, results, blocks := HandleTools(uses, call.tools, client, blocks);
      NextDevEnding(script, |rounds|, saving);
      if !end.AllHandled? {
        if end.OneRaised? { var _ := client.Receive(ErrorEvent(Failure(end.message))); }
        turn := DevTurn(loaded, rounds, |rounds| + 1, "", false, ShownBy(client.events));
        DevStopsEarly(script, saving, client.patience, loaded, question, rounds, transcript, before, turn);
        return true, longer, blocks, turn;
      }
      DevRoundCompletes(script, saving, loaded, question, rounds, transcript, before, results);
      longer := transcript + [AssistantBlocks(call.blocks)] + [UserResults(results)];
      turn := DevTurn(loaded, rounds + [Exchange(call.blocks, results)], |rounds| + 1, "", false, ShownBy(client.events));
      return false, longer, blocks, turn;
    }

    /** The turn itself, whatever the model replies and whenever the operator leaves. */
    method RunTurn(conversationId: string, sessionId: string, question: string, loaded: Transcript, script: seq<DevCall>,
                   saving: Saving, client: Client)
      returns (ghost turn: DevTurn)
      requires Valid() && history.Owns(conversationId, sessionId) && client.events == [] && Sound(loaded)
      modifies this`sent, history, client
      ensures Valid() && turn.loaded == loaded && turn.shown == ShownBy(client.events)
      ensures FollowsDevReplies(script, saving, client.patience, turn)
      ensures turn.calls <= |turn.rounds| + 1 && sent == old(sent) + PlainSends(loaded, question, turn.rounds, turn.calls)
      ensures Stored(old(history.turns), history.turns, conversationId,
                     DevSavedRow(conversationId, question, loaded, turn.rounds, turn.answer, turn.shown.blocks), turn.saved)
    {
      hide ShownBy, DevUnderWay, FollowsDevReplies, PlainSends, DevSavedRow, ToolUses, TextOf, Trim, HistoryStore.Valid, HistoryStore.Owns,
           Loadable, AllSendable, Sound, FirstRaised, OutcomeBlocks, AnswerBlocks;
      var transcript := loaded + [UserText(question)];
      var toolRounds, blocks: seq<string> := 0, [];
      ghost var rounds: seq<Exchange>, sentBefore := [], sent;
      DevTurnStarts(script, saving, loaded, question);
      var alive := client.Receive(StatusEvent);
      turn := DevTurn(loaded, [], 0, "", false, ShownBy(client.events));
      if !alive {
        DevStopsEarly(script, saving, client.patience, loaded, question, rounds, transcript, blocks, turn);
        return;
      }
      while true
        invariant Valid() && unchanged(history)
        invariant toolRounds == |rounds| && DevUnderWay(script, saving, loaded, question, rounds, transcript, blocks)
        invariant toolRounds <= |script| && toolRounds <= MAX_TOOL_ROUNDS + 1
        invariant sent == sentBefore + PlainSends(loaded, question, rounds, toolRounds)
        invariant ShownBy(client.events) == NOTHING.(blocks := blocks)
        decreases |script| - toolRounds
      {
        if toolRounds > MAX_TOOL_ROUNDS {
          alive := client.Receive(ErrorEvent(TOO_MANY));
          turn := DevTurn(loaded, rounds, toolRounds, "", false, ShownBy(client.events));
          DevStopsEarly(script, saving, client.patience, loaded, question, rounds, transcript, blocks, turn);
          return;
        }
        if toolRounds == |script| {
          turn := DevTurn(loaded, rounds, toolRounds, "", false, ShownBy(client.events));
          DevStopsEarly(script, saving, client.patience, loaded, question, rounds, transcript, blocks, turn);
          return;
        }
        AskIsSendable(script, saving, loaded, question, rounds, transcript, blocks, sent);
        sent := sent + [transcript];
        var call := script[toolRounds];
        if !call.DevReplied? {
          if call.DevRaised? { alive := client.Receive(ErrorEvent(Failure(call.message))); }
          turn := DevTurn(loaded, rounds, toolRounds + 1, "", false, ShownBy(client.events));
          DevStopsEarly(script, saving, client.patience, loaded, question, rounds, transcript, blocks, turn);
          return;
        }
        var over;
        over, transcript, blocks, turn := TakeReply(conversationId, sessionId, question, call, transcript, blocks, saving, client,
                                                    script, loaded, rounds);
        if over { return; }
        rounds := turn.rounds;
        toolRounds := toolRounds + 1;
      }
    }

    /** One request. A stranger is refused; a read that raises before the turn begins
        leaves nothing at all, not even an event; otherwise there is a turn. */
    method StreamTurn(conversationId: string, sessionId: string, question: string, script: seq<DevCall>, loading: Loading,
                      saving: Saving, client: Client)
      returns (ghost outcome: DevOutcome)
      requires Valid() && client.events == []
      modifies this`sent, history, client
      ensures Valid()
      ensures outcome.DevTook? <==> old(history.Owns(conversationId, sessionId)) && loading.Loads?
      ensures outcome.DevRefused? <==> !old(history.Owns(conversationId, sessionId)) && !loading.LookupRaises?
      ensures !outcome.DevTook? ==> sent == old(sent) && history.turns == old(history.turns)
      ensures outcome.DevRefused? ==> client.events == [ErrorEvent(NOT_FOUND)]
      ensures outcome.DevNeverBegan? ==> client.events == []
      ensures outcome.DevTook? ==>
                var turn := outcome.turn;
                && turn.loaded == Sanitize(LatestTranscript(old(history.turns), conversationId)) && turn.shown == ShownBy(client.events)
                && FollowsDevReplies(script, saving, client.patience, turn)
                && turn.calls <= |turn.rounds| + 1 && sent == old(sent) + PlainSends(turn.loaded, question, turn.rounds, turn.calls)
                && Stored(old(history.turns), history.turns, conversationId,
                          DevSavedRow(conversationId, question, turn.loaded, turn.rounds, turn.answer, turn.shown.blocks), turn.saved)
    {
      hide ShownBy, FollowsDevReplies, PlainSends, DevSavedRow, Sound, Sanitize, LatestTranscript, AllSendable;
      if loading.LookupRaises? { return DevNeverBegan; }
      if !history.Owns(conversationId, sessionId) {
        var _ := client.Receive(ErrorEvent(NOT_FOUND));
        return DevRefused;
      }
      if loading.LoadRaises? { return DevNeverBegan; }
      var loaded := history.GetTranscript(conversationId, sessionId);
      LatestIsSound(history.turns, conversationId);
      ghost var turn := RunTurn(conversationId, sessionId, question, loaded, script, saving, client);
      outcome := DevTook(turn);
    }
  }

  lemma DevAsksSoFar(script: seq<DevCall>, saving: Saving, loaded: Transcript, question: string, rounds: seq<Exchange>,
                     transcript: Transcript, blocks: seq<string>)
    requires DevUnderWay(script, saving, loaded, question, rounds, transcript, blocks)
    ensures transcript == Asked(loaded, question, rounds) && AllExchanges(rounds)
  {
  }

  lemma AskIsSendable(script: seq<DevCall>, saving: Saving, loaded: Transcript, question: string, rounds: seq<Exchange>,
                      transcript: Transcript, blocks: seq<string>, sent: seq<Transcript>)
    requires DevUnderWay(script, saving, loaded, question, rounds, transcript, blocks) && AllSendable(sent) && Sound(loaded)
    ensures AllSendable(sent + [transcript])
    ensures PlainSends(loaded, question, rounds, |rounds| + 1) == PlainSends(loaded, question, rounds, |rounds|) + [transcript]
  {
    hide Sendable, Asked, Sound, PlainSends;
    AskedIsSendable(loaded, question, rounds, "");
    MorePlainSends(loaded, question, rounds);
  }
}
