/** The chat service: one turn as a loop over model replies with tool rounds, many
    ways out and one summary row, against a model, a database and a client that may
    do anything. */
module ChatService {
  import opened Wrappers
  import opened Text
  import opened ChatTranscript
  import opened ChatCompression
  import opened ChatHistory
  import opened ChatEvents
  import opened ChatTurn

  datatype RoundEnd = RoundDone | RoundAborted | RoundRaised(message: string)

  /** What became of a request: the conversation is not the session's, a read raised
      before the turn began, or a turn was taken. */
  datatype Outcome = Refused | NeverBegan | Took(turn: TurnRecord)

  class ChatService {
    const history: HistoryStore
    const codec: Codec
    var audit: seq<AuditRow>
    var sent: seq<Transcript>

    constructor (history: HistoryStore, codec: Codec)
      ensures this.history == history && this.codec == codec && audit == [] && sent == []
    {
      this.history := history;
      this.codec := codec;
      audit := [];
      sent := [];
    }

    function WorldNow(): World
      reads this, history
    {
      World(history.turns, audit, sent)
    }

    /** The list is compressed before anything is sent, and that may raise. */
    method CallClaude(t: Transcript) returns (failure: Option<StripError>)
      modifies this`sent
      ensures failure == if Compress(codec, t).Err? then Some(Compress(codec, t).error) else None
      ensures sent == if Compress(codec, t).Ok? then old(sent) + [Compress(codec, t).value] else old(sent)
    {
      var messages := CompressPastTurns(codec, t);
      if messages.Err? { return Some(messages.error); }
      sent := sent + [messages.value];
      return None;
    }

    /** One more call of a turn. */
    method Ask(question: string, transcript: Transcript, ghost loaded: Transcript, ghost rounds: seq<Exchange>)
      returns (failure: Option<StripError>)
      requires transcript == Asked(loaded, question, rounds)
      modifies this`sent
      ensures ObstacleOf(codec, loaded) == if failure.None? then None else Some(Failure(codec.describe(failure.value)))
      ensures failure.None? ==> Fault(codec, loaded).None?
      ensures sent == if failure.None? then old(sent) + [Shortened(codec, Asked(loaded, question, rounds))] else old(sent)
    {
      hide Fault, Asked, Shortened, Compress;
      AskedCompresses(codec, loaded, question, rounds);
      failure := CallClaude(transcript);
    }

    /** Blocks, then citations, or a parse problem. `alive` says whether the client
        stayed to the end. */
    method EmitEnvelope(parsed: Result<ParsedAnswer, string>, client: Client)
      returns (alive: bool, blocks: seq<string>, citations: seq<string>)
      modifies client
      ensures ShownBy(client.events) ==
              var shown := old(ShownBy(client.events));
              Shown(shown.steps, shown.blocks + blocks, shown.citations + citations,
                    if parsed.Err? then shown.problems + [Unparsed(parsed.error)] else shown.problems)
      ensures !alive ==> client.patience.Some?
      ensures alive && parsed.Ok? ==> blocks == parsed.value.blocks && citations == parsed.value.citations
      ensures parsed.Err? ==> blocks == [] && citations == []
    {
      hide ShownBy;
      alive, blocks, citations := true, [], [];
      ghost var shown := ShownBy(client.events);
      assert shown.blocks + [] == shown.blocks && shown.citations + [] == shown.citations;
      match parsed {
        case Err(detail) =>
          alive := client.Receive(ErrorEvent(Unparsed(detail)));
        case Ok(env) =>
          for i := 0 to |env.blocks|
            invariant alive && blocks == env.blocks[..i]
            invariant ShownBy(client.events) == shown.(blocks := shown.blocks + blocks)
          {
            blocks := blocks + [env.blocks[i]];
            alive := client.Receive(BlockEvent(env.blocks[i]));
            assert ShownBy(client.events).blocks == shown.blocks + blocks;
            if !alive { return; }
          }
          for i := 0 to |env.citations|
            invariant alive && blocks == env.blocks && citations == env.citations[..i]
            invariant ShownBy(client.events) == shown.(blocks := shown.blocks + blocks, citations := shown.citations + citations)
          {
            citations := citations + [env.citations[i]];
            alive := client.Receive(CitationEvent(env.citations[i]));
            assert ShownBy(client.events).citations == shown.citations + citations;
            if !alive { return; }
          }
      }
    }

    /** One status event per query, until one cannot be looked up. */
    method AnnounceQueries(uses: seq<Block>, announcing: nat -> Option<string>, client: Client) returns (end: RoundEnd)
      requires forall i :: 0 <= i < |uses| ==> uses[i].ToolUse?
      modifies client
      ensures ShownBy(client.events) == old(ShownBy(client.events))
      ensures end.RoundAborted? ==> client.patience.Some?
      ensures end.RoundRaised? ==> FirstMessage(announcing, |uses|) == Some(end.message)
      ensures end.RoundDone? ==> FirstMessage(announcing, |uses|).None? && |client.events| == |old(client.events)| + |uses|
      ensures |client.events| <= |old(client.events)| + |uses| && old(client.events) <= client.events
      ensures forall i :: |old(client.events)| <= i < |client.events| ==> client.events[i] == QueryingEvent(uses[i - |old(client.events)|].sql)
    {
      hide ShownBy;
      for i := 0 to |uses|
        invariant ShownBy(client.events) == old(ShownBy(client.events)) && FirstMessage(announcing, i).None?
        invariant |client.events| == |old(client.events)| + i && old(client.events) <= client.events
        invariant forall k :: |old(client.events)| <= k < |client.events| ==> client.events[k] == QueryingEvent(uses[k - |old(client.events)|].sql)
      {
        if announcing(i).Some? {
          FirstMessageStays(announcing, i + 1, |uses|);
          return RoundRaised(announcing(i).value);
        }
        var alive := client.Receive(QueryingEvent(uses[i].sql));
        if !alive { return RoundAborted; }
      }
      return RoundDone;
    }

    /** One audit row, one step and one tool result per query, in that order, until a
        result cannot be turned into text. */
    method RecordResults(turnId: string, uses: seq<Block>, outcome: nat -> QueryOutcome, dumping: nat -> Option<string>, client: Client,
                         before: seq<Step>, ghost log: seq<AuditRow>)
      returns (end: RoundEnd, steps: seq<Step>, results: seq<ToolResult>)
      requires forall i :: 0 <= i < |uses| ==> uses[i].ToolUse?
      requires ShownBy(client.events) == NOTHING.(steps := before) && audit == log + QueryRows(turnId, before)
      modifies this`audit, client
      ensures ShownBy(client.events) == NOTHING.(steps := steps) && audit == log + QueryRows(turnId, steps)
      ensures end.RoundAborted? ==> client.patience.Some?
      ensures end.RoundRaised? ==> FirstMessage(dumping, |uses|) == Some(end.message)
      ensures end.RoundDone? ==>
                && FirstMessage(dumping, |uses|).None? && |results| == |uses|
                && forall i :: 0 <= i < |uses| ==> results[i] == ToolResult(uses[i].id, outcome(i).payload)
      ensures before <= steps <= before + QuerySteps(uses, outcome) && (end.RoundDone? ==> steps == before + QuerySteps(uses, outcome))
    {
      hide ShownBy, QueryRows, QuerySteps, FirstMessage;
      steps, results := before, [];
      NoneRecorded(uses, outcome, before);
      NoMessageYet(dumping, 0);
      for i := 0 to |uses|
        invariant ShownBy(client.events) == NOTHING.(steps := steps) && audit == log + QueryRows(turnId, steps)
        invariant FirstMessage(dumping, i).None?
        invariant |results| == i && forall k :: 0 <= k < i ==> results[k] == ToolResult(uses[k].id, outcome(k).payload)
        invariant i <= |QuerySteps(uses, outcome)| == |uses| && steps == before + QuerySteps(uses, outcome)[..i]
      {
        var result := outcome(i);
        audit := audit + [QueryRow(turnId, uses[i].sql, result.Rows?)];
        var step := QueryStepOf(uses[i], result);
        OneMoreRecorded(uses, outcome, before, steps, i);
        NoMessageYet(dumping, i);
        OneMoreStep(turnId, steps, step);
        steps := steps + [step];
        var alive := client.Receive(StepEvent(step));
        if !alive { return RoundAborted, steps, results; }
        if dumping(i).Some? {
          FirstMessageStays(dumping, i + 1, |uses|);
          return RoundRaised(dumping(i).value), steps, results;
        }
        results := results + [ToolResult(uses[i].id, result.payload)];
      }
      return RoundDone, steps, results;
    }

    method EmitUsage(turnId: string, usage: Option<Usage>, client: Client, before: seq<Step>, ghost log: seq<AuditRow>)
      returns (alive: bool, steps: seq<Step>)
      requires ShownBy(client.events) == NOTHING.(steps := before) && audit == log + QueryRows(turnId, before)
      modifies client
      ensures ShownBy(client.events) == NOTHING.(steps := steps) && audit == log + QueryRows(turnId, steps)
      ensures steps == before + UsageSteps(usage) && (!alive ==> client.patience.Some?)
    {
      hide ShownBy, QueryRows;
      if usage.None? {
        assert before + [] == before;
        return true, before;
      }
      OneMoreStep(turnId, before, UsageStep(usage.value));
      steps := before + [UsageStep(usage.value)];
      alive := client.Receive(StepEvent(UsageStep(usage.value)));
    }

    /** One tool round: the reasoning, the announcements, the queries and their
        results. */
    method RunRound(turnId: string, reply: Reply, uses: seq<Block>, client: Client, before: seq<Step>, ghost log: seq<AuditRow>)
      returns (end: RoundEnd, steps: seq<Step>, results: seq<ToolResult>)
      requires uses == ToolUses(reply.blocks) && uses != []
      requires ShownBy(client.events) == NOTHING.(steps := before) && audit == log + QueryRows(turnId, before)
      modifies this`audit, client
      ensures ShownBy(client.events) == Shown(steps, [], [], if end.RoundRaised? then [Failure(end.message)] else [])
      ensures audit == log + QueryRows(turnId, steps) && before <= steps
      ensures end.RoundRaised? ==> RoundRaise(reply) == Some(end.message)
      ensures end.RoundAborted? ==> client.patience.Some? || (RoundRaise(reply).None? && reply.queries.BatchCancelled?)
      ensures end.RoundDone? ==>
                && RoundRaise(reply).None? && reply.queries.Ran? && IsRoundOf(Replied(reply), Exchange(reply.blocks, results))
                && IsExchange(Exchange(reply.blocks, results))
                && steps == before + ReasoningSteps(reply.blocks) + QuerySteps(uses, reply.queries.outcome)
    {
      hide ShownBy, QueryRows, TextOf, QuerySteps, IsRoundOf, ToolUses, IsExchange, FirstMessage;
      steps, results := before, [];
      var reasoning := Trim(TextOf(reply.blocks));
      if reasoning != "" {
        OneMoreStep(turnId, steps, ReasoningStep(reasoning));
        steps := steps + [ReasoningStep(reasoning)];
        var alive := client.Receive(StepEvent(ReasoningStep(reasoning)));
        if !alive { return RoundAborted, steps, results; }
      }
      assert steps == before + ReasoningSteps(reply.blocks);
      end := AnnounceQueries(uses, reply.announcing, client);
      if end.RoundDone? {
        if reply.queries.BatchCancelled? { return RoundAborted, steps, results; }
        if reply.queries.BatchRaised? {
          end := RoundRaised(reply.queries.message);
        } else {
          end, steps, results := RecordResults(turnId, uses, reply.queries.outcome, reply.queries.dumping, client, steps, log);
        }
      }
      if end.RoundRaised? {
        var _ := client.Receive(ErrorEvent(Failure(end.message)));
      } else if end.RoundDone? {
        RoundIsOf(Replied(reply), Exchange(reply.blocks, results));
      }
    }

    /** Save the turn, as the outside world lets it. */
    method Save(conversationId: string, sessionId: string, question: string, shown: Shown, transcript: Transcript, saving: Saving)
      returns (saved: bool)
      requires history.Valid() && history.Owns(conversationId, sessionId)
      modifies history
      ensures history.Valid() && (saved <==> saving.Stores?) && OwnersKept(old(history.owner), history.owner, conversationId, saving)
      ensures Stored(old(history.turns), history.turns, conversationId,
                     TurnRow(conversationId, question, shown.blocks, shown.citations, shown.steps,
                             CapToTurnBoundary(transcript, TRANSCRIPT_CAP)), saved)
    {
      match saving {
        case Stores =>
          saved := history.AppendTurn(conversationId, sessionId, question, shown.blocks, shown.citations, shown.steps, transcript);
        case ConversationGone =>
          var _ := history.DeleteConversation(conversationId, sessionId);
          saved := history.AppendTurn(conversationId, sessionId, question, shown.blocks, shown.citations, shown.steps, transcript);
        case SavingRaises(_) =>
          saved := false;
      }
    }

    /** A reply cut off by the token limit: an error event, and the question kept
        with the steps that did run. */
    method FinishTruncated(conversationId: string, sessionId: string, question: string, blocks: seq<Block>, steps: seq<Step>,
                           transcript: Transcript, saving: Saving, client: Client)
      returns (exit: Exit)
      requires history.Valid() && history.Owns(conversationId, sessionId)
      requires ShownBy(client.events) == NOTHING.(steps := steps)
      modifies history, client
      ensures history.Valid() && exit.status == TurnError && OwnersKept(old(history.owner), history.owner, conversationId, saving)
      ensures ShownBy(client.events).(problems := []) == NOTHING.(steps := steps) && ShownBy(client.events).problems != []
      ensures client.patience.None? ==>
                ShownBy(client.events).problems == [CutOff(blocks)] + SavingProblems(saving) && (exit.saved <==> saving.Stores?)
      ensures Stored(old(history.turns), history.turns, conversationId,
                     TurnRow(conversationId, question, [], [], steps, CapToTurnBoundary(transcript, TRANSCRIPT_CAP)), exit.saved)
    {
      hide ShownBy, CapToTurnBoundary;
      var alive := client.Receive(ErrorEvent(CutOff(blocks)));
      if !alive { return Exit(TurnError, false); }
      var saved := Save(conversationId, sessionId, question, NOTHING.(steps := steps), transcript, saving);
      if saving.SavingRaises? { alive := client.Receive(ErrorEvent(Failure(saving.message))); } else { alive := client.Receive(DoneEvent); }
      return Exit(TurnError, saved);
    }

    /** A final answer: its blocks and citations, the saved turn, then done. */
    method FinishAnswered(conversationId: string, sessionId: string, question: string, steps: seq<Step>,
                          transcript: Transcript, parsed: Result<ParsedAnswer, string>, saving: Saving, client: Client)
      returns (exit: Exit)
      requires history.Valid() && history.Owns(conversationId, sessionId)
      requires ShownBy(client.events) == NOTHING.(steps := steps)
      modifies history, client
      ensures history.Valid() && ShownBy(client.events).steps == steps && OwnersKept(old(history.owner), history.owner, conversationId, saving)
      ensures Stored(old(history.turns), history.turns, conversationId,
                     var shown := ShownBy(client.events);
                     TurnRow(conversationId, question, shown.blocks, shown.citations, shown.steps, CapToTurnBoundary(transcript, TRANSCRIPT_CAP)),
                     exit.saved)
      ensures exit.status == TurnOk ==>
                ShownBy(client.events).problems == [] && (exit.saved <==> saving.Stores?)
                && parsed.Ok? && ShownBy(client.events).blocks == parsed.value.blocks && ShownBy(client.events).citations == parsed.value.citations
      ensures exit.status == TurnError ==> ShownBy(client.events).problems != []
      ensures exit.status == TurnAborted ==> !exit.saved && client.patience.Some?
      ensures client.patience.None? ==>
                && (exit.saved <==> saving.Stores?)
                && exit.status == (if parsed.Err? || saving.SavingRaises? then TurnError else TurnOk)
                && ShownBy(client.events).problems == (if parsed.Err? then [Unparsed(parsed.error)] else []) + SavingProblems(saving)
    {
      hide ShownBy, CapToTurnBoundary;
      var alive, blocks, citations := EmitEnvelope(parsed, client);
      if !alive { return Exit(TurnAborted, false); }
      ghost var shown := ShownBy(client.events);
      assert [] + blocks == blocks && [] + citations == citations;
      var saved := Save(conversationId, sessionId, question, Shown(steps, blocks, citations, []), transcript, saving);
      if saving.SavingRaises? {
        alive := client.Receive(ErrorEvent(Failure(saving.message)));
        return Exit(TurnError, saved);
      }
      assert shown.problems + [] == shown.problems;
      alive := client.Receive(DoneEvent);
      return Exit(if parsed.Ok? then TurnOk else TurnError, saved);
    }

    /** The two ways a reply ends a turn: cut off, or without tool calls. */
    method Conclude(conversationId: string, sessionId: string, question: string, reply: Reply, steps: seq<Step>, asked: Transcript,
                    turnStart: nat, saving: Saving, client: Client,
                    ghost script: seq<Call>, ghost loaded: Transcript, ghost rounds: seq<Exchange>, ghost before: seq<Step>)
      returns (exit: Exit, ghost trace: Trace)
      requires history.Valid() && history.Owns(conversationId, sessionId)
      requires UnderWay(script, saving, loaded, question, rounds, asked, before) && turnStart == |loaded| + 1
      requires |rounds| < |script| && script[|rounds|] == Replied(reply) && (reply.truncated || ToolUses(reply.blocks) == [])
      requires steps == before + UsageSteps(reply.usage) && ShownBy(client.events) == NOTHING.(steps := steps)
      modifies history, client
      ensures history.Valid() && ShownBy(client.events).steps == steps && OwnersKept(old(history.owner), history.owner, conversationId, saving)
      ensures trace.rounds == rounds && trace.calls == |rounds| + 1
      ensures FollowsReplies(None, script, saving, client.patience, trace, exit, ShownBy(client.events))
      ensures Stored(old(history.turns), history.turns, conversationId,
                     SavedRow(conversationId, question, loaded, trace, ShownBy(client.events)), exit.saved)
    {
      hide ShownBy, UnderWay, FollowsReplies, UsageSteps, TextOf, Trim, ToolUses, FinalTranscript, CapToTurnBoundary, Stored;
      if reply.truncated {
        QuestionIsKept(script, saving, loaded, question, rounds, asked, before);
        exit := FinishTruncated(conversationId, sessionId, question, reply.blocks, steps, asked[..turnStart], saving, client);
        trace := Trace(rounds, None, |rounds| + 1);
        TruncationFollows(script, saving, client.patience, loaded, question, rounds, asked, before, reply, exit, ShownBy(client.events));
      } else {
        var raw := Trim(TextOf(reply.blocks));
        exit := FinishAnswered(conversationId, sessionId, question, steps, asked + [AssistantText(raw)], reply.parsed, saving, client);
        trace := Trace(rounds, Some(raw), |rounds| + 1);
        AnswerFollows(script, saving, client.patience, loaded, question, rounds, asked, before, reply, exit, ShownBy(client.events));
      }
    }

    /** One reply: its usage, and then an end or a round of tool calls. */
    method TakeReply(turnId: string, conversationId: string, sessionId: string, question: string, reply: Reply, transcript: Transcript,
                     turnStart: nat, steps: seq<Step>, saving: Saving, client: Client,
                     ghost log: seq<AuditRow>, ghost script: seq<Call>, ghost loaded: Transcript, ghost rounds: seq<Exchange>)
      returns (exit: Option<Exit>, longer: Transcript, more: seq<Step>, ghost trace: Trace)
      requires history.Valid() && history.Owns(conversationId, sessionId)
      requires UnderWay(script, saving, loaded, question, rounds, transcript, steps) && turnStart == |loaded| + 1
      requires |rounds| < |script| && script[|rounds|] == Replied(reply)
      requires ShownBy(client.events) == NOTHING.(steps := steps) && audit == log + QueryRows(turnId, steps)
      modifies this`audit, history, client
      ensures history.Valid() && audit == log + QueryRows(turnId, more) && ShownBy(client.events).steps == more
      ensures OwnersKept(old(history.owner), history.owner, conversationId, saving)
      ensures exit.None? ==> unchanged(history) && ShownBy(client.events) == NOTHING.(steps := more)
      ensures exit.None? ==> UnderWay(script, saving, loaded, question, trace.rounds, longer, more)
      ensures exit.None? ==> |trace.rounds| == |rounds| + 1 && trace.rounds[..|rounds|] == rounds
      ensures exit.Some? ==> trace.rounds == rounds && trace.calls == |rounds| + 1
      ensures exit.Some? ==> FollowsReplies(None, script, saving, client.patience, trace, exit.value, ShownBy(client.events))
      ensures exit.Some? ==> Stored(old(history.turns), history.turns, conversationId,
                                    SavedRow(conversationId, question, loaded, trace, ShownBy(client.events)), exit.value.saved)
    {
      hide ShownBy, QueryRows, UnderWay, FollowsReplies, UsageSteps, ReasoningSteps, QuerySteps, ToolUses, IsRoundOf, IsExchange,
           SavedRow, HistoryStore.Valid, HistoryStore.Owns;
      longer := transcript;
      var alive;
      alive, more := EmitUsage(turnId, reply.usage, client, steps, log);
      trace := Trace(rounds, None, |rounds| + 1);
      if !alive {
        StopsEarly(script, saving, client.patience, loaded, question, rounds, transcript, steps, Exit(TurnAborted, false),
                   ShownBy(client.events));
        return Some(Exit(TurnAborted, false)), longer, more, trace;
      }
      var uses := ToolUses(reply.blocks);
      if reply.truncated || uses == [] {
        var ended;
        ended, trace := Conclude(conversationId, sessionId, question, reply, more, transcript, turnStart, saving, client,
                                 script, loaded, rounds, steps);
        return Some(ended), longer, more, trace;
      }
      ghost var used := more;
      var end, results;
      end, more, results := RunRound(turnId, reply, uses, client, more, log);
      if !end.RoundDone? {
        var ended := Exit(if end.RoundRaised? then TurnError else TurnAborted, false);
        PatientRound(script, rounds, reply, saving);
        StopsEarly(script, saving, client.patience, loaded, question, rounds, transcript, steps, ended, ShownBy(client.events));
        return Some(ended), longer, more, trace;
      }
      ghost var x := Exchange(reply.blocks, results);
      RoundStepsAre(reply, steps, more);
      RoundCompletes(script, saving, loaded, question, rounds, transcript, steps, x, more);
      longer := transcript + [AssistantBlocks(reply.blocks)] + [UserResults(results)];
      trace := Trace(rounds + [x], None, |rounds| + 1);
      return None, longer, more, trace;
    }

    /** The body of the turn up to, but not including, its summary row. */
    method RunTurn(turnId: string, conversationId: string, sessionId: string, question: string, loaded: Transcript,
                   script: seq<Call>, saving: Saving, client: Client)
      returns (exit: Exit, steps: seq<Step>, ghost trace: Trace)
      requires history.Valid() && history.Owns(conversationId, sessionId) && client.events == []
      modifies this`audit, this`sent, history, client
      ensures history.Valid() && audit == old(audit) + QueryRows(turnId, steps) && ShownBy(client.events).steps == steps
      ensures OwnersKept(old(history.owner), history.owner, conversationId, saving)
      ensures FollowsReplies(ObstacleOf(codec, loaded), script, saving, client.patience, trace, exit, ShownBy(client.events))
      ensures trace.calls == |trace.rounds| + 1 || (NeverAsked(trace, exit, ShownBy(client.events)) && history.turns == old(history.turns))
      ensures sent == old(sent) + Sends(codec, loaded, question, trace.rounds, trace.calls)
      ensures Stored(old(history.turns), history.turns, conversationId,
                     SavedRow(conversationId, question, loaded, trace, ShownBy(client.events)), exit.saved)
      ensures trace.calls > 0 ==> Fault(codec, loaded).None?
    {
      hide ShownBy, QueryRows, UnderWay, FollowsReplies, Sends, SavedRow, HistoryStore.Valid, HistoryStore.Owns, Shortened, PatientEnding,
           Fault, Asked, ObstacleOf, NeverAsked, Failure;
      var transcript := loaded + [UserText(question)];
      var turnStart := |transcript|;
      steps := [];
      ghost var rounds: seq<Exchange>, obstacle := [], ObstacleOf(codec, loaded);
      ghost var log, sentBefore := audit, sent;
      TurnStarts(script, saving, loaded, question);
      NothingYet(turnId, codec, loaded, question);
      trace := Trace([], None, 0);
      var alive := client.Receive(StatusEvent);
      if !alive {
        exit := Exit(TurnAborted, false);
        NeverCalls(obstacle, script, saving, client.patience, exit, ShownBy(client.events));
        return;
      }
      var call := 0;
      while true
        invariant call == |rounds| <= |script| && UnderWay(script, saving, loaded, question, rounds, transcript, steps)
        invariant if call == 0 then steps == [] && trace == Trace([], None, 0) else obstacle.None?
        invariant sent == sentBefore + Sends(codec, loaded, question, rounds, |rounds|)
        invariant audit == log + QueryRows(turnId, steps) && ShownBy(client.events) == NOTHING.(steps := steps)
        invariant unchanged(history)
        decreases |script| - call
      {
        AsksSoFar(script, saving, loaded, question, rounds, transcript, steps);
        var failure := Ask(question, transcript, loaded, rounds);
        if failure.Some? {
          exit := Exit(TurnError, false);
          alive := client.Receive(ErrorEvent(Failure(codec.describe(failure.value))));
          NeverCalls(obstacle, script, saving, client.patience, exit, ShownBy(client.events));
          return;
        }
        MoreSends(codec, loaded, question, rounds);
        trace := Trace(rounds, None, |rounds| + 1);
        if call == |script| || !script[call].Replied? {
          exit := Exit(if call < |script| && script[call].Raised? then TurnError else TurnAborted, false);
          if call < |script| && script[call].Raised? { alive := client.Receive(ErrorEvent(Failure(script[call].message))); }
          PatientCall(script, call, saving);
          StopsEarly(script, saving, client.patience, loaded, question, rounds, transcript, steps, exit, ShownBy(client.events));
          return exit, steps, trace;
        }
        var end;
        end, transcript, steps, trace := TakeReply(turnId, conversationId, sessionId, question, script[call].reply, transcript, turnStart,
                                                   steps, saving, client, log, script, loaded, rounds);
        if end.Some? { return end.value, steps, trace; }
        SendsAreKept(codec, loaded, question, rounds, trace.rounds);
        rounds := trace.rounds;
        call := call + 1;
      }
    }

    /** One request. A stranger is refused without a trace; a read that raises before
        the turn begins leaves nothing at all, not even an event; otherwise there is a
        turn, followed by exactly one summary row however it ends. */
    method StreamTurn(turnId: string, conversationId: string, sessionId: string, question: string,
                      script: seq<Call>, loading: Loading, saving: Saving, client: Client)
      returns (ghost outcome: Outcome)
      requires history.Valid() && client.events == []
      modifies this`audit, this`sent, history, client
      ensures history.Valid() && OwnersKept(old(history.owner), history.owner, conversationId, saving)
      ensures outcome.Took? <==> old(history.Owns(conversationId, sessionId)) && loading.Loads?
      ensures outcome.Refused? <==> !old(history.Owns(conversationId, sessionId)) && !loading.LookupRaises?
      ensures !outcome.Took? ==> WorldNow() == old(WorldNow())
      ensures outcome.Refused? ==> client.events == [ErrorEvent(NOT_FOUND)]
      ensures outcome.NeverBegan? ==> client.events == []
      ensures outcome.Took? ==>
                var turn := outcome.turn;
                && turn.turnId == turnId && turn.conversationId == conversationId && turn.question == question
                && turn.shown == ShownBy(client.events)
                && FollowsReplies(ObstacleOf(codec, turn.loaded), script, saving, client.patience, turn.trace, turn.exit, turn.shown)
                && IsTurn(codec, old(WorldNow()), WorldNow(), turn)
                && audit != [] && IsSummaryOf(audit[|audit| - 1], turnId, turn.shown.steps, turn.exit.status)
      ensures old(Loadable(history.turns) && AllSendable(sent)) ==> Loadable(history.turns) && AllSendable(sent)
    {
      hide ShownBy, QueryRows, Sends, SavedRow, SummaryOf, IsSummaryOf, StepsFollow, FollowsScript, ShowsAnswer, TurnEnding, ObstacleOf, NeverAsked,
           AllExchanges, Fault, Loadable, AllSendable, Stored;
      ghost var before := WorldNow();
      if loading.LookupRaises? { return NeverBegan; }
      if !history.Owns(conversationId, sessionId) {
        var _ := client.Receive(ErrorEvent(NOT_FOUND));
        return Refused;
      }
      if loading.LoadRaises? { return NeverBegan; }
      var loaded := history.GetTranscript(conversationId, sessionId);
      var exit, steps;
      ghost var trace;
      exit, steps, trace := RunTurn(turnId, conversationId, sessionId, question, loaded, script, saving, client);
      audit := audit + [SummaryOf(turnId, steps, exit.status)];
      SummarySays(turnId, steps, exit.status);
      ghost var turn := TurnRecord(turnId, conversationId, loaded, question, trace, exit, ShownBy(client.events));
      if Loadable(before.turns) && AllSendable(before.sent) { TurnKeepsEverythingSound(codec, before, WorldNow(), turn); }
      outcome := Took(turn);
    }
  }

  lemma NothingYet(turnId: string, codec: Codec, loaded: Transcript, question: string)
    ensures QueryRows(turnId, []) == [] && Sends(codec, loaded, question, [], 0) == [] && ShownBy([]) == NOTHING
  {
  }

  lemma AsksSoFar(script: seq<Call>, saving: Saving, loaded: Transcript, question: string, rounds: seq<Exchange>,
                  transcript: Transcript, steps: seq<Step>)
    requires UnderWay(script, saving, loaded, question, rounds, transcript, steps)
    ensures transcript == Asked(loaded, question, rounds)
  {
  }

  lemma NoneRecorded(uses: seq<Block>, outcome: nat -> QueryOutcome, before: seq<Step>)
    requires forall i :: 0 <= i < |uses| ==> uses[i].ToolUse?
    ensures |QuerySteps(uses, outcome)| == |uses| && before == before + QuerySteps(uses, outcome)[..0]
  {
  }

  lemma OneMoreRecorded(uses: seq<Block>, outcome: nat -> QueryOutcome, before: seq<Step>, steps: seq<Step>, i: nat)
    requires forall k :: 0 <= k < |uses| ==> uses[k].ToolUse?
    requires i < |uses| && steps == before + QuerySteps(uses, outcome)[..i]
    ensures |QuerySteps(uses, outcome)| == |uses|
    ensures steps + [QueryStepOf(uses[i], outcome(i))] == before + QuerySteps(uses, outcome)[..i + 1] <= before + QuerySteps(uses, outcome)
  {
    assert QuerySteps(uses, outcome)[..i + 1] == QuerySteps(uses, outcome)[..i] + [QueryStepOf(uses[i], outcome(i))];
  }

  lemma NoMessageYet(raising: nat -> Option<string>, i: nat)
    ensures FirstMessage(raising, 0).None?
    ensures FirstMessage(raising, i).None? ==> FirstMessage(raising, i + 1) == raising(i)
  {
  }

  lemma PatientCall(script: seq<Call>, n: nat, saving: Saving)
    requires n <= |script| && (n < |script| ==> !script[n].Replied?)
    ensures PatientEnding(script, n, saving) ==
            if n < |script| && script[n].Raised? then Ending(TurnError, [Failure(script[n].message)], false) else Ending(TurnAborted, [], false)
  {
  }

  lemma PatientRound(script: seq<Call>, rounds: seq<Exchange>, reply: Reply, saving: Saving)
    requires |rounds| < |script| && script[|rounds|] == Replied(reply) && !reply.truncated && ToolUses(reply.blocks) != []
    ensures var raise := RoundRaise(reply);
            if raise.Some? then PatientEnding(script, |rounds|, saving) == Ending(TurnError, [Failure(raise.value)], false)
            else if reply.queries.BatchCancelled? then PatientEnding(script, |rounds|, saving) == Ending(TurnAborted, [], false)
            else EndingOf(reply, saving).None?
  {
    hide ToolUses, PatientEnding, RoundRaise, EndingOf;
    RoundEnding(reply, saving);
    if EndingOf(reply, saving).Some? { EndsHere(script, |rounds|, saving); }
  }

  lemma RoundEnding(reply: Reply, saving: Saving)
    requires !reply.truncated && ToolUses(reply.blocks) != []
    ensures EndingOf(reply, saving) ==
            if RoundRaise(reply).Some? then Some(Ending(TurnError, [Failure(RoundRaise(reply).value)], false))
            else if reply.queries.BatchCancelled? then Some(Ending(TurnAborted, [], false))
            else None
  {
    hide ToolUses, RoundRaise, SavingProblems, CutOff;
  }

  lemma EndsHere(script: seq<Call>, n: nat, saving: Saving)
    requires n < |script| && script[n].Replied? && EndingOf(script[n].reply, saving).Some?
    ensures PatientEnding(script, n, saving) == EndingOf(script[n].reply, saving).value
  {
    hide EndingOf;
  }

  lemma RoundStepsAre(reply: Reply, before: seq<Step>, steps: seq<Step>)
    requires reply.queries.Ran?
    requires steps == before + UsageSteps(reply.usage) + ReasoningSteps(reply.blocks)
                      + QuerySteps(ToolUses(reply.blocks), reply.queries.outcome)
    ensures steps == before + RoundSteps(Replied(reply))
  {
  }

  lemma SendsAreKept(codec: Codec, loaded: Transcript, question: string, rounds: seq<Exchange>, longer: seq<Exchange>)
    requires |longer| == |rounds| + 1 && longer[..|rounds|] == rounds
    ensures Sends(codec, loaded, question, longer, |rounds| + 1) == Sends(codec, loaded, question, rounds, |rounds| + 1)
  {
    assert longer == rounds + [longer[|rounds|]];
    SameSends(codec, loaded, question, rounds, longer[|rounds|]);
  }
}
