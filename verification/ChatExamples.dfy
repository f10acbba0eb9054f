/** A reply that the chat stores and can never look back on. */
module ChatExamples {
  import opened Wrappers
  import opened Text
  import opened JsonValue
  import opened ChatTranscript
  import opened ChatCompression
  import opened ChatHistory
  import opened ChatEvents
  import opened ChatTurn
  import opened ChatService

  /** A table that gives the number of its rows instead of the rows. */
  const COUNTED_ROWS := "{" + "\"blocks\":[{\"kind\":\"table\",\"columns\":[\"a\"],\"rows\":3}]" + "}"

  const COUNTED_TABLE := Object([("kind", Str("table")), ("columns", List([Str("a")])), ("rows", Number("3", false))])

  /** Reading the text as what it says. */
  ghost predicate ReadsCountedRows(codec: Codec) {
    codec.parse(COUNTED_ROWS) == Some(Object([("blocks", List([COUNTED_TABLE]))]))
  }

  lemma CountedTableIsFaulty()
    ensures IsFaulty(COUNTED_TABLE)
  {
    var members := COUNTED_TABLE.members;
    assert members[0].0 == "kind" && members[1..][0].0 == "columns" && members[2..][0].0 == "rows";
    assert |"kind"| == 4 && |"columns"| == 7 && "rows"[0] == 'r' && "kind"[0] == 'k';
    assert Member(members, "kind") == Str("table");
    assert Member(members, "rows") == Member(members[1..], "rows") == Member(members[1..][1..], "rows");
    assert members[1..][1..] == members[2..];
  }

  lemma CountedRowsHoldFault(codec: Codec)
    requires ReadsCountedRows(codec)
    ensures HoldsFault(codec, COUNTED_ROWS)
  {
    CountedTableIsFaulty();
    var env := codec.parse(COUNTED_ROWS).value;
    assert env.members[0] == ("blocks", List([COUNTED_TABLE]));
    assert Get(env, "blocks").items[0] == COUNTED_TABLE;
  }

  /** As a past answer it cannot be summarised: its rows cannot be counted. */
  lemma CountedRowsRaise(codec: Codec, question: string, next: string)
    requires ReadsCountedRows(codec)
    ensures Compress(codec, [UserText(question), AssistantText(COUNTED_ROWS), UserText(next)]).Err?
  {
    hide HoldsFault;
    CountedRowsHoldFault(codec);
    var past := [UserText(question), AssistantText(COUNTED_ROWS)];
    PastOf(past, [UserText(next)]);
    assert past + [UserText(next)] == [UserText(question), AssistantText(COUNTED_ROWS), UserText(next)];
    EndsItsTurn(past);
    assert Chokes(codec, past, 1);
    FaultExactlyWhen(codec, past);
  }

  /** The reply: no tool calls, and not the envelope it should be. */
  function CountedReply(detail: string): Reply {
    Reply(None, [TextBlock(COUNTED_ROWS)], false, Err(detail), i => None, BatchCancelled)
  }

  lemma CountedReplyIsAnswer(detail: string)
    ensures ToolUses(CountedReply(detail).blocks) == [] && Trim(TextOf(CountedReply(detail).blocks)) == COUNTED_ROWS
  {
    var blocks := CountedReply(detail).blocks;
    assert blocks[..0] == [] && TextOf([]) == "" && "" + COUNTED_ROWS == COUNTED_ROWS;
    assert COUNTED_ROWS[0] == '{' && COUNTED_ROWS[|COUNTED_ROWS| - 1] == '}';
  }

  /** For a client that stays, the reply ends its turn in error, and is stored. */
  lemma CountedReplyIsStored(trace: Trace, exit: Exit, shown: Shown, detail: string)
    requires FollowsReplies(None, [Replied(CountedReply(detail))], Stores, None, trace, exit, shown)
    ensures exit == Exit(TurnError, true) && trace.answer == Some(COUNTED_ROWS)
  {
    hide StepsFollow, ShowsAnswer, Trim, TextOf, ToolUses;
    var script := [Replied(CountedReply(detail))];
    CountedReplyIsAnswer(detail);
    UsesAreCalls(CountedReply(detail).blocks);
    assert PatientEnding(script, 0, Stores) == EndingOf(CountedReply(detail), Stores).value;
    if |trace.rounds| > 0 {
      assert false;
    }
  }

  /** Two turns of a conversation that could be answered so far. The first gets the reply
      above. Whatever the model would say to the second, it is not asked: one error
      message, nothing sent, nothing stored, and the conversation stays as it is. */
  method CountedRowsStick(history: HistoryStore, codec: Codec, conversationId: string, sessionId: string, question: string, detail: string,
                          next: string, script: seq<Call>, saving: Saving)
    returns (ghost first: Outcome, ghost second: Outcome)
    requires ReadsCountedRows(codec) && history.Valid() && Loadable(history.turns) && history.Owns(conversationId, sessionId)
    requires !Unanswerable(codec, history.turns, conversationId)
    modifies history
    ensures first.Took? && first.turn.exit == Exit(TurnError, true) && first.turn.trace.answer == Some(COUNTED_ROWS)
    ensures second.Took? && second.turn.exit == Exit(TurnError, false) && |second.turn.shown.problems| == 1 && second.turn.trace.calls == 0
    ensures Unanswerable(codec, history.turns, conversationId)
    ensures |history.turns| == |old(history.turns)| + 1
  {
    hide FollowsReplies, Fault, SavedRow, Sends, QueryRows, SummaryOf, LatestTranscript, Sanitize, CountedReply, AllExchanges;
    var service := new ChatService(history, codec);
    var client := new Client(None);
    var later := new Client(None);
    ghost var before := service.WorldNow();
    first := service.StreamTurn("1", conversationId, sessionId, question, [Replied(CountedReply(detail))], Loads, Stores, client);
    CountedReplyIsStored(first.turn.trace, first.turn.exit, first.turn.shown, detail);
    CountedRowsHoldFault(codec);
    ghost var between := service.WorldNow();
    UnanswerableExactlyAfterFault(codec, before, between, first.turn);
    second := service.StreamTurn("2", conversationId, sessionId, next, script, Loads, saving, later);
    UnanswerableStaysSo(codec, between, service.WorldNow(), second.turn, script, saving, None);
    ObstacleIsShown(ObstacleOf(codec, second.turn.loaded), script, saving, second.turn);
  }

  lemma ObstacleIsShown(obstacle: Option<Problem>, script: seq<Call>, saving: Saving, turn: TurnRecord)
    requires obstacle.Some? && FollowsReplies(obstacle, script, saving, None, turn.trace, turn.exit, turn.shown)
    ensures turn.exit == Exit(TurnError, false) && turn.shown.problems == [obstacle.value] && turn.trace.calls == 0
  {
  }
}
