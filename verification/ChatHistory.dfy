/** The conversation store: one row per turn, each with the capped transcript
    the next turn starts from. */
module ChatHistory {
  import opened Wrappers
  import opened ChatTranscript

  datatype Usage = Usage(inputTokens: int, outputTokens: int, cacheReadTokens: int, cacheCreationTokens: int)

  /** What a turn shows the user besides its answer. */
  datatype Step =
    | UsageStep(usage: Usage)
    | ReasoningStep(text: string)
    | QueryStep(sql: string, errorCode: Option<string>)

  datatype TurnRow = TurnRow(
    conversationId: string,
    userMessage: string,
    blocks: seq<string>,
    citations: seq<string>,
    steps: seq<Step>,
    transcript: Transcript)

  /** The transcript column of the newest row of a conversation. */
  function LatestTranscript(turns: seq<TurnRow>, conversationId: string): Transcript {
    if turns == [] then []
    else if turns[|turns| - 1].conversationId == conversationId then turns[|turns| - 1].transcript
    else LatestTranscript(turns[..|turns| - 1], conversationId)
  }

  function Without(turns: seq<TurnRow>, conversationId: string): seq<TurnRow> {
    if turns == [] then []
    else
      var rest, last := Without(turns[..|turns| - 1], conversationId), turns[|turns| - 1];
      if last.conversationId == conversationId then rest else rest + [last]
  }

  /** Loading any row gives a sound transcript, including rows stored before the
      cap respected turn boundaries. */
  ghost predicate Loadable(turns: seq<TurnRow>) {
    forall i :: 0 <= i < |turns| ==> Sound(Sanitize(turns[i].transcript))
  }

  lemma {:induction false} LatestIsSound(turns: seq<TurnRow>, conversationId: string)
    requires Loadable(turns)
    ensures Sound(Sanitize(LatestTranscript(turns, conversationId)))
  {
    hide Sound, Sanitize;
    if turns == [] {
      NothingIsSound();
    } else if turns[|turns| - 1].conversationId != conversationId {
      LatestIsSound(turns[..|turns| - 1], conversationId);
    }
  }

  lemma NothingIsSound()
    ensures Sound(Sanitize([]))
  {
  }

  lemma {:induction false} WithoutKeeps(turns: seq<TurnRow>, conversationId: string)
    ensures forall r :: r in Without(turns, conversationId) <==> r in turns && r.conversationId != conversationId
  {
    if turns != [] {
      WithoutKeeps(turns[..|turns| - 1], conversationId);
      assert turns == turns[..|turns| - 1] + [turns[|turns| - 1]];
    }
  }

  lemma WithoutIsLoadable(turns: seq<TurnRow>, conversationId: string)
    requires Loadable(turns)
    ensures Loadable(Without(turns, conversationId))
  {
    hide Sound, Sanitize;
    WithoutKeeps(turns, conversationId);
    var kept := Without(turns, conversationId);
    forall i | 0 <= i < |kept| ensures Sound(Sanitize(kept[i].transcript)) {
      assert kept[i] in turns;
    }
  }

  /** The cap of a conversation loads soundly wherever the cut fell. */
  lemma CapHeals(t: Transcript)
    requires ToolsPaired(t)
    ensures Sound(Sanitize(CapToTurnBoundary(t, TRANSCRIPT_CAP)))
  {
    var capped := CapToTurnBoundary(t, TRANSCRIPT_CAP);
    assert t[0..] == t;
    assert capped == t[|t| - |capped|..];
    SanitizeHeals(t, |t| - |capped|);
  }

  class HistoryStore {
    /** Which session owns each conversation. */
    var owner: map<string, string>
    var turns: seq<TurnRow>

    ghost predicate Valid()
      reads this
    {
      forall r :: r in turns ==> r.conversationId in owner
    }

    constructor ()
      ensures Valid() && owner == map[] && turns == []
    {
      owner := map[];
      turns := [];
    }

    predicate Owns(conversationId: string, sessionId: string)
      reads this
    {
      conversationId in owner && owner[conversationId] == sessionId
    }

    method CreateConversation(freshId: string, sessionId: string)
      requires Valid() && freshId !in owner
      modifies this
      ensures Valid() && turns == old(turns)
      ensures owner == old(owner)[freshId := sessionId]
      ensures forall c, s :: Owns(c, s) <==> old(Owns(c, s)) || (c == freshId && s == sessionId)
    {
      owner := owner[freshId := sessionId];
    }

    method DeleteConversation(conversationId: string, sessionId: string) returns (deleted: bool)
      requires Valid()
      modifies this
      ensures Valid() && (deleted <==> conversationId in old(owner) && old(owner)[conversationId] == sessionId)
      ensures if deleted then owner == old(owner) - {conversationId} && turns == Without(old(turns), conversationId)
              else owner == old(owner) && turns == old(turns)
      ensures old(Loadable(turns)) ==> Loadable(turns)
    {
      if !Owns(conversationId, sessionId) { return false; }
      WithoutKeeps(turns, conversationId);
      if Loadable(turns) { WithoutIsLoadable(turns, conversationId); }
      turns := Without(turns, conversationId);
      owner := owner - {conversationId};
      return true;
    }

    method AppendTurn(conversationId: string, sessionId: string, userMessage: string, blocks: seq<string>,
                      citations: seq<string>, steps: seq<Step>, rawTranscript: Transcript) returns (saved: bool)
      requires Valid()
      modifies this
      ensures Valid() && owner == old(owner) && (saved <==> conversationId in old(owner) && old(owner)[conversationId] == sessionId)
      ensures turns == if saved then
                old(turns) + [TurnRow(conversationId, userMessage, blocks, citations, steps,
                                      CapToTurnBoundary(rawTranscript, TRANSCRIPT_CAP))]
              else old(turns)
      ensures old(Loadable(turns)) && ToolsPaired(rawTranscript) ==> Loadable(turns)
    {
      var capped := CapToTurnBoundary(rawTranscript, TRANSCRIPT_CAP);
      if !Owns(conversationId, sessionId) { return false; }
      if ToolsPaired(rawTranscript) { CapHeals(rawTranscript); }
      turns := turns + [TurnRow(conversationId, userMessage, blocks, citations, steps, capped)];
      return true;
    }

    /** What the next turn of the conversation starts from. */
    function Loaded(conversationId: string, sessionId: string): Transcript
      reads this
    {
      if Owns(conversationId, sessionId) then Sanitize(LatestTranscript(turns, conversationId)) else []
    }

    method GetTranscript(conversationId: string, sessionId: string) returns (t: Transcript)
      requires Valid()
      ensures t == Loaded(conversationId, sessionId)
      ensures !(conversationId in owner && owner[conversationId] == sessionId) ==> t == []
      ensures Loadable(turns) ==> Sound(t)
    {
      if !Owns(conversationId, sessionId) { return []; }
      var i := |turns|;
      assert turns[..i] == turns;
      if Loadable(turns) { LatestIsSound(turns, conversationId); }
      while i > 0
        invariant 0 <= i <= |turns|
        invariant LatestTranscript(turns, conversationId) == LatestTranscript(turns[..i], conversationId)
      {
        assert turns[..i][..i - 1] == turns[..i - 1];
        if turns[i - 1].conversationId == conversationId { return Sanitize(turns[i - 1].transcript); }
        i := i - 1;
      }
      return [];
    }

    /** Saving a turn and loading the conversation gives back the cap of what was
        saved, nothing lost and nothing healed away. */
    lemma SavedTurnIsLoaded(conversationId: string, sessionId: string, before: seq<TurnRow>, row: TurnRow, raw: Transcript)
      requires Owns(conversationId, sessionId) && turns == before + [row] && row.conversationId == conversationId
      requires raw != [] && IsBoundary(raw[0]) && row.transcript == CapToTurnBoundary(raw, TRANSCRIPT_CAP)
      ensures Loaded(conversationId, sessionId) == CapToTurnBoundary(raw, TRANSCRIPT_CAP)
    {
      SaveThenLoad(raw, TRANSCRIPT_CAP);
    }
  }
}
