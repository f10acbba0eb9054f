/** Conversation transcripts: what the model may be sent, how a transcript is
    capped for storage and healed on load. */
module ChatTranscript {
  import opened Wrappers

  datatype Block = TextBlock(text: string) | ToolUse(id: string, name: string, sql: string)

  datatype ToolResult = ToolResult(toolUseId: string, content: string)

  /** A message is a user or assistant turn whose content is either a plain
      string or a list of blocks. */
  datatype Message =
    | UserText(question: string)
    | UserResults(results: seq<ToolResult>)
    | AssistantText(answer: string)
    | AssistantBlocks(blocks: seq<Block>)

  type Transcript = seq<Message>

  function ToolIds(blocks: seq<Block>): seq<string> {
    if blocks == [] then []
    else
      var last := blocks[|blocks| - 1];
      ToolIds(blocks[..|blocks| - 1]) + if last.ToolUse? then [last.id] else []
  }

  function ResultIds(results: seq<ToolResult>): seq<string> {
    seq(|results|, i requires 0 <= i < |results| => results[i].toolUseId)
  }

  function CallIds(m: Message): seq<string> {
    if m.AssistantBlocks? then ToolIds(m.blocks) else []
  }

  /** `answers` carries a result for each tool call of `m`, in order. */
  predicate Answers(m: Message, answers: Message) {
    CallIds(m) != [] && answers.UserResults? && ResultIds(answers.results) == CallIds(m)
  }

  /** Every tool call is answered by the next message and every list of results
      answers the message before it. */
  ghost predicate ToolsPaired(t: Transcript) {
    && (forall i :: 0 <= i < |t| && CallIds(t[i]) != [] ==> i + 1 < |t| && Answers(t[i], t[i + 1]))
    && (forall i :: 0 <= i < |t| && t[i].UserResults? ==> 0 < i && Answers(t[i - 1], t[i]))
  }

  /** A turn boundary: a question the user typed. */
  predicate IsBoundary(m: Message) {
    m.UserText?
  }

  /** What the model's interface asks of the order of messages: it starts with a question
      and pairs calls with results. What a message holds, an empty text for one, is not
      looked at. */
  ghost predicate Sendable(t: Transcript) {
    t != [] && IsBoundary(t[0]) && ToolsPaired(t)
  }

  /** A stored conversation: nothing yet, or something sendable. */
  ghost predicate Sound(t: Transcript) {
    t == [] || Sendable(t)
  }

  // ---- what can be sent, message by message --------------------------------

  /** These are the positions of the tool calls, all of them, in order. */
  ghost predicate AreCalls(blocks: seq<Block>, at: seq<nat>) {
    && (forall j :: 0 <= j < |at| ==> at[j] < |blocks| && blocks[at[j]].ToolUse?)
    && (forall j, k :: 0 <= j < k < |at| ==> at[j] < at[k])
    && (forall i: nat :: i < |blocks| && blocks[i].ToolUse? ==> i in at)
  }

  /** Each tool call has its result, in order, and there is no other. */
  ghost predicate EachAnswered(blocks: seq<Block>, results: seq<ToolResult>) {
    exists at :: AreCalls(blocks, at) && |results| == |at| && forall j :: 0 <= j < |at| ==> results[j].toolUseId == blocks[at[j]].id
  }

  /** There is only one such list of positions, as long as there are tool calls. */
  lemma {:induction false} SameCalls(blocks: seq<Block>, at: seq<nat>, other: seq<nat>)
    requires AreCalls(blocks, at) && AreCalls(blocks, other)
    ensures |at| == |other|
  {
    RisingCount(at);
    RisingCount(other);
    assert (set i: nat | i in at) == (set i: nat | i in other) by {
      forall i: nat ensures i in at <==> i in other {
        if i in at { var j :| 0 <= j < |at| && at[j] == i; }
        if i in other { var j :| 0 <= j < |other| && other[j] == i; }
      }
    }
  }

  lemma {:induction false} RisingCount(at: seq<nat>)
    requires forall j, k :: 0 <= j < k < |at| ==> at[j] < at[k]
    ensures |set i: nat | i in at| == |at|
  {
    if at == [] {
      assert (set i: nat | i in at) == {};
    } else {
      var n := |at| - 1;
      RisingCount(at[..n]);
      assert (set i: nat | i in at) == (set i: nat | i in at[..n]) + {at[n]};
      assert at[n] !in at[..n];
    }
  }

  lemma {:induction false} CallsAt(blocks: seq<Block>) returns (at: seq<nat>)
    ensures AreCalls(blocks, at) && |ToolIds(blocks)| == |at| && forall j :: 0 <= j < |at| ==> ToolIds(blocks)[j] == blocks[at[j]].id
  {
    at := [];
    if blocks != [] {
      var n := |blocks| - 1;
      at := CallsAt(blocks[..n]);
      forall i: nat | i < n && blocks[i].ToolUse? ensures i in at { assert blocks[..n][i] == blocks[i]; }
      if blocks[n].ToolUse? { at := at + [n]; }
    }
  }

  lemma AnsweredEach(m: Message, answers: Message)
    requires Answers(m, answers)
    ensures m.AssistantBlocks? && answers.results != [] && EachAnswered(m.blocks, answers.results)
  {
    var at := CallsAt(m.blocks);
    forall j | 0 <= j < |at| ensures answers.results[j].toolUseId == m.blocks[at[j]].id {
      assert ResultIds(answers.results)[j] == answers.results[j].toolUseId;
    }
    assert |ResultIds(answers.results)| == |answers.results|;
  }

  /** What can be sent starts with what the user typed; the message after tool calls holds
      their results, each once and in order, and results stand nowhere else. */
  lemma SendableSays(t: Transcript)
    requires Sendable(t)
    ensures t != [] && t[0].UserText?
    ensures forall i, k :: 0 <= i < |t| && t[i].AssistantBlocks? && 0 <= k < |t[i].blocks| && t[i].blocks[k].ToolUse? ==>
              i + 1 < |t| && t[i + 1].UserResults? && EachAnswered(t[i].blocks, t[i + 1].results)
    ensures forall i :: 0 <= i < |t| && t[i].UserResults? ==>
              0 < i && t[i - 1].AssistantBlocks? && t[i].results != [] && EachAnswered(t[i - 1].blocks, t[i].results)
  {
    hide EachAnswered;
    forall i, k | 0 <= i < |t| && t[i].AssistantBlocks? && 0 <= k < |t[i].blocks| && t[i].blocks[k].ToolUse?
      ensures i + 1 < |t| && t[i + 1].UserResults? && EachAnswered(t[i].blocks, t[i + 1].results)
    {
      var at := CallsAt(t[i].blocks);
      assert k in at && CallIds(t[i]) != [];
      AnsweredEach(t[i], t[i + 1]);
    }
    forall i | 0 <= i < |t| && t[i].UserResults?
      ensures 0 < i && t[i - 1].AssistantBlocks? && t[i].results != [] && EachAnswered(t[i - 1].blocks, t[i].results)
    {
      AnsweredEach(t[i - 1], t[i]);
    }
  }

  lemma PairedConcat(a: Transcript, b: Transcript)
    requires ToolsPaired(a) && ToolsPaired(b)
    ensures ToolsPaired(a + b)
  {
    var t := a + b;
    forall i | 0 <= i < |t| && CallIds(t[i]) != [] ensures i + 1 < |t| && Answers(t[i], t[i + 1]) {
      if i < |a| { assert a[i] == t[i]; } else { assert b[i - |a|] == t[i]; }
    }
    forall i | 0 <= i < |t| && t[i].UserResults? ensures 0 < i && Answers(t[i - 1], t[i]) {
      if i < |a| { assert a[i] == t[i]; } else { assert b[i - |a|] == t[i]; }
    }
  }

  /** Cutting in front of a boundary never separates a call from its answer. */
  lemma PairedSplit(t: Transcript, k: nat)
    requires ToolsPaired(t) && k <= |t| && (k < |t| ==> IsBoundary(t[k]))
    ensures ToolsPaired(t[..k]) && ToolsPaired(t[k..])
  {
    var a, b := t[..k], t[k..];
    forall i | 0 <= i < |a| && CallIds(a[i]) != [] ensures i + 1 < |a| && Answers(a[i], a[i + 1]) {
      assert a[i] == t[i];
    }
    forall i | 0 <= i < |a| && a[i].UserResults? ensures 0 < i && Answers(a[i - 1], a[i]) {
      assert a[i] == t[i];
    }
    forall i | 0 <= i < |b| && CallIds(b[i]) != [] ensures i + 1 < |b| && Answers(b[i], b[i + 1]) {
      assert b[i] == t[k + i];
    }
    forall i | 0 <= i < |b| && b[i].UserResults? ensures 0 < i && Answers(b[i - 1], b[i]) {
      assert b[i] == t[k + i];
    }
  }

  // ---- healing on load -----------------------------------------------------

  /** Drop what precedes the first boundary. */
  function Sanitize(t: Transcript): Transcript {
    if t == [] || IsBoundary(t[0]) then t else Sanitize(t[1..])
  }

  lemma {:induction false} SanitizeIsSuffix(t: Transcript) returns (k: nat)
    ensures k <= |t| && Sanitize(t) == t[k..] && (k < |t| ==> IsBoundary(t[k]))
    ensures forall i :: 0 <= i < k ==> !IsBoundary(t[i])
  {
    if t == [] || IsBoundary(t[0]) {
      k := 0;
    } else {
      k := SanitizeIsSuffix(t[1..]);
      k := k + 1;
      assert t[1..][k - 1..] == t[k..];
    }
  }

  /** Whatever suffix of a sound conversation was stored, what is loaded is sound:
      an orphaned tool result at the front is dropped. */
  lemma SanitizeHeals(t: Transcript, cut: nat)
    requires ToolsPaired(t) && cut <= |t|
    ensures Sound(Sanitize(t[cut..]))
  {
    var k := SanitizeIsSuffix(t[cut..]);
    assert t[cut..][k..] == t[cut + k..];
    PairedSplit(t, cut + k);
  }

  // ---- capping for storage -------------------------------------------------

  const TRANSCRIPT_CAP := 40

  function LastBoundary(t: Transcript): (k: Option<nat>)
    ensures k.Some? ==> k.value < |t| && IsBoundary(t[k.value]) && forall i :: k.value < i < |t| ==> !IsBoundary(t[i])
    ensures k.None? ==> forall i :: 0 <= i < |t| ==> !IsBoundary(t[i])
  {
    if t == [] then None
    else if IsBoundary(t[|t| - 1]) then Some(|t| - 1)
    else LastBoundary(t[..|t| - 1])
  }

  /** The first boundary from `i` on whose suffix fits. */
  function FirstFitting(t: Transcript, i: nat, maxMessages: nat): (k: Option<nat>)
    requires i <= |t|
    ensures k.Some? ==> i <= k.value < |t| && IsBoundary(t[k.value]) && |t| - k.value <= maxMessages
    ensures k.Some? ==> forall j :: i <= j < k.value && IsBoundary(t[j]) ==> |t| - j > maxMessages
    ensures k.None? ==> forall j :: i <= j < |t| && IsBoundary(t[j]) ==> |t| - j > maxMessages
    decreases |t| - i
  {
    if i == |t| then None
    else if IsBoundary(t[i]) && |t| - i <= maxMessages then Some(i)
    else FirstFitting(t, i + 1, maxMessages)
  }

  /** A slice from minus zero is the whole list. */
  function Newest(t: Transcript, count: nat): Transcript
    requires count <= |t|
  {
    if count == 0 then t else t[|t| - count..]
  }

  function CapToTurnBoundary(t: Transcript, maxMessages: nat): Transcript {
    if |t| <= maxMessages then t
    else
      match LastBoundary(t)
      case None => Newest(t, maxMessages)
      case Some(last) =>
        match FirstFitting(t, 0, maxMessages)
        case Some(k) => t[k..]
        case None => t[last..]
  }

  /** A suffix that starts at a boundary. */
  ghost predicate IsTurnSuffix(t: Transcript, s: Transcript) {
    |s| <= |t| && s == t[|t| - |s|..] && s != [] && IsBoundary(s[0])
  }

  /** Main result on capping, for every transcript too long to keep that holds a
      question at all: the result is a turn suffix; it is the longest that fits,
      or, when none fits, the shortest there is, the latest turn in full. */
  lemma CapKeepsLongestTurns(t: Transcript, maxMessages: nat)
    requires |t| > maxMessages && exists i :: 0 <= i < |t| && IsBoundary(t[i])
    ensures var capped := CapToTurnBoundary(t, maxMessages);
            && IsTurnSuffix(t, capped)
            && (forall s :: IsTurnSuffix(t, s) && |s| <= maxMessages ==> |s| <= |capped| <= maxMessages)
            && (|capped| > maxMessages ==> forall s :: IsTurnSuffix(t, s) ==> |s| >= |capped|)
  {
    var capped := CapToTurnBoundary(t, maxMessages);
    var last := LastBoundary(t).value;
    forall s | IsTurnSuffix(t, s)
      ensures |s| <= maxMessages ==> |s| <= |capped| <= maxMessages
      ensures |capped| > maxMessages ==> |s| >= |capped|
    {
      var k := |t| - |s|;
      assert IsBoundary(t[k]);
      assert k <= last;
    }
  }

  lemma CapIsTurnSuffix(t: Transcript, maxMessages: nat)
    requires t != [] && IsBoundary(t[0])
    ensures IsTurnSuffix(t, CapToTurnBoundary(t, maxMessages))
  {
  }

  lemma CapIsIdempotent(t: Transcript, maxMessages: nat)
    ensures CapToTurnBoundary(CapToTurnBoundary(t, maxMessages), maxMessages) == CapToTurnBoundary(t, maxMessages)
  {
    var capped := CapToTurnBoundary(t, maxMessages);
    if |capped| > maxMessages && LastBoundary(t).Some? {
      // the latest turn alone: its first message is its only boundary
      var last := LastBoundary(t).value;
      assert capped == t[last..];
      assert forall i :: 0 < i < |capped| ==> capped[i] == t[last + i] && !IsBoundary(capped[i]);
      assert IsBoundary(capped[0]);
      assert LastBoundary(capped) == Some(0);
      assert FirstFitting(capped, 0, maxMessages).None?;
      assert capped[0..] == capped;
    } else if |capped| > maxMessages {
      assert maxMessages == 0 && capped == t;
    }
  }

  /** Without a question there is no boundary to cut at: what fits is kept from the end,
      except that a cap of nothing keeps everything. */
  lemma CapWithoutQuestion(t: Transcript, maxMessages: nat)
    requires forall i :: 0 <= i < |t| ==> !IsBoundary(t[i])
    ensures var capped := CapToTurnBoundary(t, maxMessages);
            && |capped| <= |t| && capped == t[|t| - |capped|..]
            && |capped| == if maxMessages == 0 || |t| <= maxMessages then |t| else maxMessages
  {
  }

  /** Saving and loading a conversation that starts at a boundary gives back
      exactly its cap, and the cap of a sound conversation is sound. */
  lemma SaveThenLoad(t: Transcript, maxMessages: nat)
    requires t != [] && IsBoundary(t[0])
    ensures Sanitize(CapToTurnBoundary(t, maxMessages)) == CapToTurnBoundary(t, maxMessages)
    ensures |t| <= maxMessages ==> CapToTurnBoundary(t, maxMessages) == t
    ensures ToolsPaired(t) ==> Sendable(CapToTurnBoundary(t, maxMessages))
  {
    CapIsTurnSuffix(t, maxMessages);
    var capped := CapToTurnBoundary(t, maxMessages);
    if ToolsPaired(t) { PairedSplit(t, |t| - |capped|); }
  }

  /** Cutting at a fixed count instead can leave an orphaned tool result in
      front, which is what capping at boundaries is for. */
  lemma NaiveSliceIsNotSendable(question: string, blocks: seq<Block>, results: seq<ToolResult>)
    requires ToolIds(blocks) != [] && ResultIds(results) == ToolIds(blocks)
    ensures var t := [UserText(question), AssistantBlocks(blocks), UserResults(results)];
            Sendable(t) && !Sendable(t[2..]) && Sendable(CapToTurnBoundary(t, 1))
  {
    var t := [UserText(question), AssistantBlocks(blocks), UserResults(results)];
    assert Answers(t[1], t[2]);
    SaveThenLoad(t, 1);
  }
}
