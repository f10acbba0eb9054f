/** Many turns at once: conversations streamed in several tabs, each turn loading
    before another has saved, turns that never begin and conversations deleted in
    between. What the model is sent, what is stored and what is logged hold up over
    every interleaving. */
module ChatRuns {
  import opened Wrappers
  import opened ChatTranscript
  import opened ChatCompression
  import opened ChatHistory
  import opened ChatEvents
  import opened ChatTurn

  // ---- moves ---------------------------------------------------------------

  /** A turn in progress: what it loaded, its rounds so far, the steps it has shown and
      how often it has asked the model. */
  datatype Flight = Flight(conversationId: string, question: string, loaded: Transcript, rounds: seq<Exchange>, steps: seq<Step>, asked: nat)

  datatype Scene = Scene(world: World, flights: map<string, Flight>)

  /** One move of one turn, or a conversation deleted. */
  datatype Move =
    | Begins(id: string, conversationId: string, question: string)
    | LoadFails(id: string)
    | Asks(id: string)
    | CompletesRound(id: string, x: Exchange)
    | ShowsStep(id: string, step: Step)
    | Ends(id: string, answer: Option<string>, status: TurnStatus, saved: bool, blocks: seq<string>, citations: seq<string>)
    | Deletes(conversationId: string)

  function AskedNow(f: Flight): Transcript {
    Asked(f.loaded, f.question, f.rounds)
  }

  /** The model has been asked since the last round. */
  predicate HasReply(f: Flight) {
    f.asked == |f.rounds| + 1
  }

  /** A turn asks once per round, if what it sends can be compressed; it shows, completes
      and saves only what a reply brings. */
  predicate CanMove(codec: Codec, scene: Scene, m: Move) {
    match m
    case Begins(id, _, _) => id !in scene.flights
    case LoadFails(id) => id !in scene.flights
    case Asks(id) =>
      id in scene.flights && scene.flights[id].asked == |scene.flights[id].rounds| && Compress(codec, AskedNow(scene.flights[id])).Ok?
    case CompletesRound(id, x) => id in scene.flights && HasReply(scene.flights[id]) && IsExchange(x)
    case ShowsStep(id, _) => id in scene.flights && HasReply(scene.flights[id])
    case Ends(id, answer, _, saved, blocks, _) =>
      id in scene.flights && (HasReply(scene.flights[id]) || (answer.None? && !saved && blocks == []))
    case Deletes(_) => true
  }

  function Moved(codec: Codec, scene: Scene, m: Move): Scene
    requires CanMove(codec, scene, m)
  {
    var world := scene.world;
    match m
    case Begins(id, conversationId, question) =>
      var loaded := Sanitize(LatestTranscript(world.turns, conversationId));
      scene.(flights := scene.flights[id := Flight(conversationId, question, loaded, [], [], 0)])
    case LoadFails(_) => scene
    case Asks(id) =>
      var f := scene.flights[id];
      Scene(world.(sent := world.sent + [Compress(codec, AskedNow(f)).value]), scene.flights[id := f.(asked := f.asked + 1)])
    case CompletesRound(id, x) =>
      var f := scene.flights[id];
      scene.(flights := scene.flights[id := f.(rounds := f.rounds + [x])])
    case ShowsStep(id, step) =>
      var f := scene.flights[id];
      Scene(world.(audit := world.audit + QueryRows(id, [step])), scene.flights[id := f.(steps := f.steps + [step])])
    case Ends(id, answer, status, saved, blocks, citations) =>
      var f := scene.flights[id];
      var row := SavedRow(f.conversationId, f.question, f.loaded, Trace(f.rounds, answer, f.asked), Shown(f.steps, blocks, citations, []));
      Scene(world.(audit := world.audit + [SummaryOf(id, f.steps, status)],
                   turns := if saved then world.turns + [row] else world.turns),
            scene.flights - {id})
    case Deletes(conversationId) => scene.(world := world.(turns := Without(world.turns, conversationId)))
  }

  /** The scene after some moves, if each of them can be made. */
  function After(codec: Codec, scene: Scene, moves: seq<Move>): Option<Scene> {
    if moves == [] then Some(scene)
    else
      match After(codec, scene, moves[..|moves| - 1])
      case None => None
      case Some(mid) => if CanMove(codec, mid, moves[|moves| - 1]) then Some(Moved(codec, mid, moves[|moves| - 1])) else None
  }

  lemma {:induction false} AfterBoth(codec: Codec, scene: Scene, a: seq<Move>, b: seq<Move>)
    requires After(codec, scene, a).Some?
    ensures After(codec, scene, a + b) == After(codec, After(codec, scene, a).value, b)
  {
    if b == [] {
      assert a + b == a;
    } else {
      assert (a + b)[..|a + b| - 1] == a + b[..|b| - 1];
      AfterBoth(codec, scene, a, b[..|b| - 1]);
    }
  }

  lemma AfterOne(codec: Codec, scene: Scene, m: Move)
    ensures After(codec, scene, [m]) == if CanMove(codec, scene, m) then Some(Moved(codec, scene, m)) else None
  {
    assert [m][..0] == [];
  }

  // ---- what is sent and stored ---------------------------------------------

  /** Everything stored loads soundly, everything sent was sendable, and every turn in
      progress started from something sound. */
  ghost predicate AllSound(scene: Scene) {
    && Loadable(scene.world.turns) && AllSendable(scene.world.sent)
    && forall id :: id in scene.flights ==> Sound(scene.flights[id].loaded) && AllExchanges(scene.flights[id].rounds)
  }

  lemma MoveStaysSound(codec: Codec, scene: Scene, m: Move)
    requires AllSound(scene) && CanMove(codec, scene, m)
    ensures AllSound(Moved(codec, scene, m))
  {
    hide Sound, Sendable, Sanitize, LatestTranscript, Compress, AskedNow, QueryRows, SummaryOf, SavedRow, Without;
    match m {
      case Begins(id, conversationId, question) => LatestIsSound(scene.world.turns, conversationId);
      case LoadFails(_) =>
      case Asks(id) =>
        var f := scene.flights[id];
        FlightIsSendable(f);
        CompressionStaysSendable(codec, AskedNow(f));
      case CompletesRound(_, _) =>
      case ShowsStep(_, _) =>
      case Ends(id, answer, status, saved, blocks, citations) =>
        var f := scene.flights[id];
        SavedRowIsLoadable(f.conversationId, f.question, f.loaded, Trace(f.rounds, answer, f.asked), Shown(f.steps, blocks, citations, []));
      case Deletes(conversationId) => WithoutIsLoadable(scene.world.turns, conversationId);
    }
  }

  lemma FlightIsSendable(f: Flight)
    requires Sound(f.loaded) && AllExchanges(f.rounds)
    ensures Sendable(AskedNow(f))
  {
    AskedIsSendable(f.loaded, f.question, f.rounds, "");
  }

  /** Main result: over every interleaving of any number of turns, whatever the model,
      the database and the clients do, every message list the model was ever sent
      starts with a question, has an answer right after each tool call and orphans no
      result, and whatever is stored loads as something that can be sent again. */
  lemma {:induction false} InterleavingsStaySound(codec: Codec, scene: Scene, moves: seq<Move>)
    requires AllSound(scene) && After(codec, scene, moves).Some?
    ensures AllSound(After(codec, scene, moves).value)
  {
    hide AllSound, CanMove, Moved;
    if moves != [] {
      var init := moves[..|moves| - 1];
      InterleavingsStaySound(codec, scene, init);
      MoveStaysSound(codec, After(codec, scene, init).value, moves[|moves| - 1]);
    }
  }

  // ---- what is logged ------------------------------------------------------

  function SummariesFor(audit: seq<AuditRow>, turnId: string): nat {
    if audit == [] then 0
    else
      var last := audit[|audit| - 1];
      SummariesFor(audit[..|audit| - 1], turnId) + if last.TurnSummary? && last.turnId == turnId then 1 else 0
  }

  /** How often a turn was attempted under an id: begun, or failed to load. */
  function Attempts(moves: seq<Move>, id: string): nat {
    if moves == [] then 0
    else
      var last := moves[|moves| - 1];
      Attempts(moves[..|moves| - 1], id) + if (last.Begins? || last.LoadFails?) && last.id == id then 1 else 0
  }

  predicate WasLoaded(moves: seq<Move>, id: string) {
    exists i :: 0 <= i < |moves| && moves[i].Begins? && moves[i].id == id
  }

  /** The steps shown under an id, in order. */
  function StepsShown(moves: seq<Move>, id: string): seq<Step> {
    if moves == [] then []
    else
      var rest, last := StepsShown(moves[..|moves| - 1], id), moves[|moves| - 1];
      if last.ShowsStep? && last.id == id then rest + [last.step] else rest
  }

  /** The log holds nothing under the id. */
  ghost predicate Unlogged(audit: seq<AuditRow>, id: string) {
    SummariesFor(audit, id) == 0 && QueryRowsFor(audit, id) == 0
  }

  /** The log's last word on a turn: one summary, which says what the steps it showed add
      up to, and one query row for each query among them. */
  ghost predicate Summarised(audit: seq<AuditRow>, id: string, steps: seq<Step>) {
    && SummariesFor(audit, id) == 1 && QueryRowsFor(audit, id) == |QueriesOf(steps)|
    && exists i, status :: 0 <= i < |audit| && IsSummaryOf(audit[i], id, steps, status)
  }

  /** The state of the log for one id: what depends on how far its turn has come. */
  ghost predicate Accounted(scene: Scene, moves: seq<Move>, id: string) {
    var audit, steps := scene.world.audit, StepsShown(moves, id);
    if Attempts(moves, id) == 0 then id !in scene.flights && Unlogged(audit, id) && !WasLoaded(moves, id) && steps == []
    else if !WasLoaded(moves, id) then id !in scene.flights && Unlogged(audit, id) && steps == []
    else if id in scene.flights then
      scene.flights[id].steps == steps && SummariesFor(audit, id) == 0 && QueryRowsFor(audit, id) == |QueriesOf(steps)|
    else Summarised(audit, id, steps)
  }

  lemma {:induction false} SummariesConcat(a: seq<AuditRow>, b: seq<AuditRow>, id: string)
    ensures SummariesFor(a + b, id) == SummariesFor(a, id) + SummariesFor(b, id)
  {
    if b == [] {
      assert a + b == a;
    } else {
      assert (a + b)[..|a + b| - 1] == a + b[..|b| - 1];
      SummariesConcat(a, b[..|b| - 1], id);
    }
  }

  lemma OneStepLogged(id: string, step: Step, other: string)
    ensures SummariesFor(QueryRows(id, [step]), other) == 0
    ensures QueryRowsFor(QueryRows(id, [step]), other) == if other == id && step.QueryStep? then 1 else 0
  {
    OneMoreStep(id, [], step);
    assert [] + [step] == [step];
    if step.QueryStep? { assert QueryRows(id, [step])[..0] == []; }
  }

  lemma OneSummaryLogged(row: AuditRow, other: string)
    requires row.TurnSummary?
    ensures SummariesFor([row], other) == if other == row.turnId then 1 else 0
    ensures QueryRowsFor([row], other) == 0
  {
    assert [row][..0] == [];
  }

  lemma MoreQueries(steps: seq<Step>, step: Step)
    ensures |QueriesOf(steps + [step])| == |QueriesOf(steps)| + if step.QueryStep? then 1 else 0
  {
    assert (steps + [step])[..|steps|] == steps;
  }

  lemma MoreMoves(moves: seq<Move>, m: Move, id: string)
    ensures Attempts(moves + [m], id) == Attempts(moves, id) + if (m.Begins? || m.LoadFails?) && m.id == id then 1 else 0
    ensures WasLoaded(moves + [m], id) <==> WasLoaded(moves, id) || (m.Begins? && m.id == id)
    ensures StepsShown(moves + [m], id) == if m.ShowsStep? && m.id == id then StepsShown(moves, id) + [m.step] else StepsShown(moves, id)
  {
    var more := moves + [m];
    assert more[..|moves|] == moves && more[|moves|] == m;
    if WasLoaded(moves, id) {
      var i :| 0 <= i < |moves| && moves[i].Begins? && moves[i].id == id;
      assert more[i].Begins? && more[i].id == id;
    }
    if WasLoaded(more, id) && !(m.Begins? && m.id == id) {
      var i :| 0 <= i < |more| && more[i].Begins? && more[i].id == id;
      assert moves[i] == more[i];
    }
  }

  lemma BecomesSummarised(audit: seq<AuditRow>, id: string, steps: seq<Step>, status: TurnStatus)
    requires SummariesFor(audit, id) == 0 && QueryRowsFor(audit, id) == |QueriesOf(steps)|
    ensures Summarised(audit + [SummaryOf(id, steps, status)], id, steps)
  {
    var row := SummaryOf(id, steps, status);
    SummariesConcat(audit, [row], id);
    LogConcat(audit, [row], id);
    OneSummaryLogged(row, id);
    SummarySays(id, steps, status);
    assert (audit + [row])[|audit|] == row;
  }

  /** Rows under other ids change nothing for this one. */
  lemma OthersDoNotCount(audit: seq<AuditRow>, rows: seq<AuditRow>, id: string, steps: seq<Step>)
    requires Unlogged(rows, id)
    ensures SummariesFor(audit + rows, id) == SummariesFor(audit, id) && QueryRowsFor(audit + rows, id) == QueryRowsFor(audit, id)
    ensures Summarised(audit, id, steps) ==> Summarised(audit + rows, id, steps)
  {
    hide IsSummaryOf, QueriesOf;
    SummariesConcat(audit, rows, id);
    LogConcat(audit, rows, id);
    if Summarised(audit, id, steps) {
      var i, status :| 0 <= i < |audit| && IsSummaryOf(audit[i], id, steps, status);
      assert (audit + rows)[i] == audit[i];
    }
  }

  lemma MoveIsAccounted(codec: Codec, scene: Scene, moves: seq<Move>, m: Move, id: string)
    requires Accounted(scene, moves, id) && CanMove(codec, scene, m) && Attempts(moves + [m], id) <= 1
    ensures Accounted(Moved(codec, scene, m), moves + [m], id)
  {
    hide SummariesFor, QueryRowsFor, QueryRows, SummaryOf, QueriesOf, Attempts, WasLoaded, StepsShown, Compress, SavedRow, Sanitize, LatestTranscript;
    MoreMoves(moves, m, id);
    var audit := scene.world.audit;
    match m {
      case Begins(other, _, _) => NoQueries();
      case LoadFails(_) =>
      case Asks(_) =>
      case CompletesRound(other, x) =>
      case ShowsStep(other, step) =>
        OneStepLogged(other, step, id);
        if other == id {
          SummariesConcat(audit, QueryRows(id, [step]), id);
          LogConcat(audit, QueryRows(id, [step]), id);
          MoreQueries(scene.flights[id].steps, step);
        } else {
          OthersDoNotCount(audit, QueryRows(other, [step]), id, StepsShown(moves, id));
        }
      case Ends(other, answer, status, saved, blocks, citations) =>
        var steps := scene.flights[other].steps;
        if other == id {
          BecomesSummarised(audit, id, steps, status);
        } else {
          SummaryHasId(other, steps, status);
          OneSummaryLogged(SummaryOf(other, steps, status), id);
          OthersDoNotCount(audit, [SummaryOf(other, steps, status)], id, StepsShown(moves, id));
        }
      case Deletes(_) =>
    }
  }

  lemma NoQueries()
    ensures QueriesOf([]) == []
  {
  }

  lemma SummaryHasId(id: string, steps: seq<Step>, status: TurnStatus)
    ensures SummaryOf(id, steps, status).TurnSummary? && SummaryOf(id, steps, status).turnId == id
  {
  }

  lemma {:induction false} InterleavingsAreAccounted(codec: Codec, scene: Scene, moves: seq<Move>, id: string)
    requires id !in scene.flights && Unlogged(scene.world.audit, id)
    requires After(codec, scene, moves).Some? && Attempts(moves, id) <= 1
    ensures Accounted(After(codec, scene, moves).value, moves, id)
  {
    hide Accounted, Moved, CanMove;
    if moves == [] {
      NothingMoved(scene, id);
    } else {
      var init, m := moves[..|moves| - 1], moves[|moves| - 1];
      assert moves == init + [m];
      MoreMoves(init, m, id);
      InterleavingsAreAccounted(codec, scene, init, id);
      MoveIsAccounted(codec, After(codec, scene, init).value, init, m, id);
    }
  }

  lemma NothingMoved(scene: Scene, id: string)
    requires id !in scene.flights && Unlogged(scene.world.audit, id)
    ensures Accounted(scene, [], id)
  {
  }

  /** Main result: an authorized turn that is over has exactly one summary if and only
      if its transcript could be loaded; if loading raised there is no summary and no
      query row under its id. */
  lemma OneSummaryExactlyWhenLoaded(codec: Codec, scene: Scene, moves: seq<Move>, id: string)
    requires id !in scene.flights && Unlogged(scene.world.audit, id)
    requires After(codec, scene, moves).Some? && Attempts(moves, id) == 1 && id !in After(codec, scene, moves).value.flights
    ensures var audit := After(codec, scene, moves).value.world.audit;
            && (SummariesFor(audit, id) == 1 <==> WasLoaded(moves, id))
            && (WasLoaded(moves, id) ==> Summarised(audit, id, StepsShown(moves, id)))
            && (!WasLoaded(moves, id) ==> Unlogged(audit, id))
  {
    hide Moved, CanMove, After;
    InterleavingsAreAccounted(codec, scene, moves, id);
  }

  /** A turn whose load raises: authorized, under way in no sense, and never logged. */
  lemma LoadFailureIsSilent(codec: Codec, scene: Scene, id: string)
    requires id !in scene.flights && Unlogged(scene.world.audit, id)
    ensures After(codec, scene, [LoadFails(id)]) == Some(scene) && Attempts([LoadFails(id)], id) == 1
    ensures SummariesFor(scene.world.audit, id) == 0
  {
    AfterOne(codec, scene, LoadFails(id));
    assert [LoadFails(id)][..0] == [];
  }

  // ---- conversations that cannot be answered -------------------------------

  /** What the conversation would load cannot be compressed, and no turn of it that is
      under way loaded anything else. */
  ghost predicate Stuck(codec: Codec, scene: Scene, conversationId: string) {
    && Unanswerable(codec, scene.world.turns, conversationId)
    && forall id :: id in scene.flights && scene.flights[id].conversationId == conversationId ==> CannotAsk(codec, scene.flights[id])
  }

  ghost predicate CannotAsk(codec: Codec, f: Flight) {
    Fault(codec, f.loaded).Some? && f.asked == 0
  }

  /** A move that is not a call, a step, a round or a saved turn of the conversation. */
  ghost predicate IsIdle(scene: Scene, m: Move, conversationId: string) {
    match m
    case Asks(id) => id in scene.flights ==> scene.flights[id].conversationId != conversationId
    case ShowsStep(id, _) => id in scene.flights ==> scene.flights[id].conversationId != conversationId
    case CompletesRound(id, _) => id in scene.flights ==> scene.flights[id].conversationId != conversationId
    case Ends(id, _, _, saved, blocks, _) => id in scene.flights && scene.flights[id].conversationId == conversationId ==> !saved && blocks == []
    case _ => true
  }

  function TurnsOf(turns: seq<TurnRow>, conversationId: string): seq<TurnRow> {
    if turns == [] then []
    else
      var rest, last := TurnsOf(turns[..|turns| - 1], conversationId), turns[|turns| - 1];
      if last.conversationId == conversationId then rest + [last] else rest
  }

  /** The turns of one conversation, in order, and no others. */
  lemma TurnsOfSays(turns: seq<TurnRow>, row: TurnRow, conversationId: string)
    ensures TurnsOf([], conversationId) == []
    ensures TurnsOf(turns + [row], conversationId) == TurnsOf(turns, conversationId) + if row.conversationId == conversationId then [row] else []
  {
    assert (turns + [row])[..|turns|] == turns;
  }

  lemma {:induction false} OthersDeleted(turns: seq<TurnRow>, other: string, conversationId: string)
    requires other != conversationId
    ensures TurnsOf(Without(turns, other), conversationId) == TurnsOf(turns, conversationId)
    ensures LatestTranscript(Without(turns, other), conversationId) == LatestTranscript(turns, conversationId)
  {
    if turns != [] {
      var init, last := turns[..|turns| - 1], turns[|turns| - 1];
      OthersDeleted(init, other, conversationId);
      var rest := Without(init, other);
      if last.conversationId != other { assert (rest + [last])[..|rest|] == rest; }
    }
  }

  lemma OthersSaved(turns: seq<TurnRow>, row: TurnRow, conversationId: string)
    requires row.conversationId != conversationId
    ensures TurnsOf(turns + [row], conversationId) == TurnsOf(turns, conversationId)
    ensures LatestTranscript(turns + [row], conversationId) == LatestTranscript(turns, conversationId)
  {
    assert (turns + [row])[..|turns|] == turns;
  }

  lemma StuckMove(codec: Codec, scene: Scene, m: Move, conversationId: string)
    requires Stuck(codec, scene, conversationId) && CanMove(codec, scene, m)
    requires m.Deletes? ==> m.conversationId != conversationId
    ensures Stuck(codec, Moved(codec, scene, m), conversationId) && IsIdle(scene, m, conversationId)
    ensures TurnsOf(Moved(codec, scene, m).world.turns, conversationId) == TurnsOf(scene.world.turns, conversationId)
  {
    hide Fault, Sanitize, LatestTranscript, TurnsOf, Without, SavedRow, QueryRows, SummaryOf, Compress, Asked, IsExchange;
    match m {
      case Begins(_, _, _) =>
      case LoadFails(_) =>
      case Asks(id) => AskedCompresses(codec, scene.flights[id].loaded, scene.flights[id].question, scene.flights[id].rounds);
      case CompletesRound(_, _) =>
      case ShowsStep(_, _) =>
      case Ends(id, answer, _, saved, blocks, citations) =>
        var f := scene.flights[id];
        var row := SavedRow(f.conversationId, f.question, f.loaded, Trace(f.rounds, answer, f.asked), Shown(f.steps, blocks, citations, []));
        RowIsOf(f.conversationId, f.question, f.loaded, Trace(f.rounds, answer, f.asked), Shown(f.steps, blocks, citations, []));
        if f.conversationId != conversationId { OthersSaved(scene.world.turns, row, conversationId); }
      case Deletes(other) => OthersDeleted(scene.world.turns, other, conversationId);
    }
  }

  lemma RowIsOf(conversationId: string, question: string, loaded: Transcript, trace: Trace, shown: Shown)
    ensures SavedRow(conversationId, question, loaded, trace, shown).conversationId == conversationId
  {
  }

  /** Main result: a conversation that cannot be answered stays so over every
      interleaving until it is deleted. No turn of it asks the model, shows a step or a
      block, completes a round or is stored. */
  lemma {:induction false} StuckUntilDeleted(codec: Codec, scene: Scene, moves: seq<Move>, conversationId: string)
    requires Stuck(codec, scene, conversationId) && After(codec, scene, moves).Some?
    requires forall i :: 0 <= i < |moves| && moves[i].Deletes? ==> moves[i].conversationId != conversationId
    ensures var after := After(codec, scene, moves).value;
            Stuck(codec, after, conversationId) && TurnsOf(after.world.turns, conversationId) == TurnsOf(scene.world.turns, conversationId)
    ensures forall i :: 0 <= i < |moves| ==>
              After(codec, scene, moves[..i]).Some? && IsIdle(After(codec, scene, moves[..i]).value, moves[i], conversationId)
  {
    hide Stuck, CanMove, Moved, IsIdle, TurnsOf;
    if moves != [] {
      var n := |moves| - 1;
      StuckUntilDeleted(codec, scene, moves[..n], conversationId);
      StuckMove(codec, After(codec, scene, moves[..n]).value, moves[n], conversationId);
      forall i | 0 <= i < n
        ensures After(codec, scene, moves[..i]).Some? && IsIdle(After(codec, scene, moves[..i]).value, moves[i], conversationId)
      {
        assert moves[..n][..i] == moves[..i] && moves[..n][i] == moves[i];
      }
    }
  }

  // ---- turns are moves -----------------------------------------------------

  function ShowMoves(id: string, steps: seq<Step>): seq<Move> {
    seq(|steps|, i requires 0 <= i < |steps| => ShowsStep(id, steps[i]))
  }

  /** One round as it happens: the call, the steps it shows, and then it is complete. */
  function RoundMoves(id: string, script: seq<Call>, rounds: seq<Exchange>, n: nat): seq<Move>
    requires n <= |rounds| <= |script|
  {
    if n == 0 then []
    else RoundMoves(id, script, rounds, n - 1) + [Asks(id)] + ShowMoves(id, RoundSteps(script[n - 1])) + [CompletesRound(id, rounds[n - 1])]
  }

  /** A whole turn as it happens: loading, the rounds, the last call if there is one with
      the steps it shows, and the end; a conversation may be deleted just before it. */
  function TurnMoves(script: seq<Call>, turn: TurnRecord, deleted: bool): seq<Move>
    requires |turn.trace.rounds| <= |script| && ScriptSteps(script, |turn.trace.rounds|) <= turn.shown.steps
  {
    var id, rounds := turn.turnId, turn.trace.rounds;
    [Begins(id, turn.conversationId, turn.question)]
      + RoundMoves(id, script, rounds, |rounds|)
      + (if turn.trace.calls == |rounds| + 1 then [Asks(id)] else [])
      + ShowMoves(id, turn.shown.steps[|ScriptSteps(script, |rounds|)|..])
      + (if deleted then [Deletes(turn.conversationId)] else [])
      + [Ends(id, turn.trace.answer, turn.exit.status, turn.exit.saved, turn.shown.blocks, turn.shown.citations)]
  }

  /** The scene when a turn has completed some rounds, shown some steps and made some
      calls. */
  function Aloft(codec: Codec, before: World, turn: TurnRecord, flights: map<string, Flight>, rounds: seq<Exchange>, steps: seq<Step>,
                 asked: nat): Scene
    requires asked <= |rounds| + 1
  {
    Scene(before.(audit := before.audit + QueryRows(turn.turnId, steps),
                  sent := before.sent + Sends(codec, turn.loaded, turn.question, rounds, asked)),
          flights[turn.turnId := Flight(turn.conversationId, turn.question, turn.loaded, rounds, steps, asked)])
  }

  lemma {:induction false} RowsConcat(id: string, a: seq<Step>, b: seq<Step>)
    ensures QueryRows(id, a + b) == QueryRows(id, a) + QueryRows(id, b)
  {
    if b == [] {
      assert a + b == a;
    } else {
      var n := |b| - 1;
      assert (a + b)[..|a + b| - 1] == a + b[..n];
      RowsConcat(id, a, b[..n]);
    }
  }

  lemma BeginMoves(codec: Codec, before: World, turn: TurnRecord, flights: map<string, Flight>)
    requires turn.loaded == Sanitize(LatestTranscript(before.turns, turn.conversationId)) && turn.turnId !in flights
    ensures After(codec, Scene(before, flights), [Begins(turn.turnId, turn.conversationId, turn.question)]) ==
            Some(Aloft(codec, before, turn, flights, [], [], 0))
  {
    hide Sanitize, LatestTranscript;
    AfterOne(codec, Scene(before, flights), Begins(turn.turnId, turn.conversationId, turn.question));
    assert before.audit + QueryRows(turn.turnId, []) == before.audit;
    assert before.sent + Sends(codec, turn.loaded, turn.question, [], 0) == before.sent;
  }

  lemma AskMoves(codec: Codec, before: World, turn: TurnRecord, flights: map<string, Flight>, rounds: seq<Exchange>, steps: seq<Step>)
    requires Fault(codec, turn.loaded).None?
    ensures After(codec, Aloft(codec, before, turn, flights, rounds, steps, |rounds|), [Asks(turn.turnId)]) ==
            Some(Aloft(codec, before, turn, flights, rounds, steps, |rounds| + 1))
  {
    hide Sends, QueryRows, Fault, Compress, Shortened, Asked;
    var scene := Aloft(codec, before, turn, flights, rounds, steps, |rounds|);
    AfterOne(codec, scene, Asks(turn.turnId));
    AskedCompresses(codec, turn.loaded, turn.question, rounds);
    MoreSends(codec, turn.loaded, turn.question, rounds);
    var last := [Shortened(codec, Asked(turn.loaded, turn.question, rounds))];
    var sends := Sends(codec, turn.loaded, turn.question, rounds, |rounds|);
    assert before.sent + (sends + last) == before.sent + sends + last;
    var f := Flight(turn.conversationId, turn.question, turn.loaded, rounds, steps, |rounds|);
    assert scene.flights[turn.turnId := f.(asked := |rounds| + 1)] == flights[turn.turnId := f.(asked := |rounds| + 1)];
  }

  lemma {:induction false} ShowingMoves(codec: Codec, before: World, turn: TurnRecord, flights: map<string, Flight>, rounds: seq<Exchange>,
                                        steps: seq<Step>, more: seq<Step>)
    ensures After(codec, Aloft(codec, before, turn, flights, rounds, steps, |rounds| + 1), ShowMoves(turn.turnId, more)) ==
            Some(Aloft(codec, before, turn, flights, rounds, steps + more, |rounds| + 1))
  {
    hide Sends, QueryRows, Moved;
    var id, scene := turn.turnId, Aloft(codec, before, turn, flights, rounds, steps, |rounds| + 1);
    if more == [] {
      assert steps + more == steps;
    } else {
      var init, last := more[..|more| - 1], more[|more| - 1];
      ShowingMoves(codec, before, turn, flights, rounds, steps, init);
      assert ShowMoves(id, more)[..|more| - 1] == ShowMoves(id, init);
      ShowOne(codec, before, turn, flights, rounds, steps + init, last);
      assert steps + init + [last] == steps + more;
    }
  }

  lemma ShowOne(codec: Codec, before: World, turn: TurnRecord, flights: map<string, Flight>, rounds: seq<Exchange>, steps: seq<Step>, step: Step)
    ensures var scene, m := Aloft(codec, before, turn, flights, rounds, steps, |rounds| + 1), ShowsStep(turn.turnId, step);
            CanMove(codec, scene, m) && Moved(codec, scene, m) == Aloft(codec, before, turn, flights, rounds, steps + [step], |rounds| + 1)
  {
    hide Sends, QueryRows;
    RowsConcat(turn.turnId, steps, [step]);
    var rows := QueryRows(turn.turnId, steps);
    assert before.audit + rows + QueryRows(turn.turnId, [step]) == before.audit + (rows + QueryRows(turn.turnId, [step]));
    var f := Flight(turn.conversationId, turn.question, turn.loaded, rounds, steps, |rounds| + 1);
    assert flights[turn.turnId := f][turn.turnId := f.(steps := steps + [step])] == flights[turn.turnId := f.(steps := steps + [step])];
  }

  lemma CompleteMoves(codec: Codec, before: World, turn: TurnRecord, flights: map<string, Flight>, rounds: seq<Exchange>, steps: seq<Step>,
                      x: Exchange)
    requires IsExchange(x)
    ensures After(codec, Aloft(codec, before, turn, flights, rounds, steps, |rounds| + 1), [CompletesRound(turn.turnId, x)]) ==
            Some(Aloft(codec, before, turn, flights, rounds + [x], steps, |rounds| + 1))
  {
    hide Sends, QueryRows, IsExchange;
    var scene := Aloft(codec, before, turn, flights, rounds, steps, |rounds| + 1);
    AfterOne(codec, scene, CompletesRound(turn.turnId, x));
    SameSends(codec, turn.loaded, turn.question, rounds, x);
    var f := Flight(turn.conversationId, turn.question, turn.loaded, rounds, steps, |rounds| + 1);
    assert flights[turn.turnId := f][turn.turnId := f.(rounds := rounds + [x])] == flights[turn.turnId := f.(rounds := rounds + [x])];
  }

  lemma {:induction false} RoundsAreMoves(codec: Codec, before: World, turn: TurnRecord, flights: map<string, Flight>, script: seq<Call>, n: nat)
    requires n <= |turn.trace.rounds| <= |script| && AllExchanges(turn.trace.rounds) && (n > 0 ==> Fault(codec, turn.loaded).None?)
    ensures After(codec, Aloft(codec, before, turn, flights, [], [], 0), RoundMoves(turn.turnId, script, turn.trace.rounds, n)) ==
            Some(Aloft(codec, before, turn, flights, turn.trace.rounds[..n], ScriptSteps(script, n), n))
  {
    hide After, Aloft, RoundSteps, ShowMoves, IsExchange;
    var id, rounds, start := turn.turnId, turn.trace.rounds, Aloft(codec, before, turn, flights, [], [], 0);
    if n == 0 {
      assert RoundMoves(id, script, rounds, 0) == [];
      NoMoves(codec, start);
    } else {
      var so, steps, x := rounds[..n - 1], ScriptSteps(script, n - 1), rounds[n - 1];
      var show := ShowMoves(id, RoundSteps(script[n - 1]));
      var moves := RoundMoves(id, script, rounds, n - 1);
      RoundsAreMoves(codec, before, turn, flights, script, n - 1);
      AskMoves(codec, before, turn, flights, so, steps);
      ShowingMoves(codec, before, turn, flights, so, steps, RoundSteps(script[n - 1]));
      CompleteMoves(codec, before, turn, flights, so, ScriptSteps(script, n), x);
      AfterBoth(codec, start, moves, [Asks(id)]);
      AfterBoth(codec, start, moves + [Asks(id)], show);
      AfterBoth(codec, start, moves + [Asks(id)] + show, [CompletesRound(id, x)]);
      assert so + [x] == rounds[..n];
    }
  }

  lemma NoMoves(codec: Codec, scene: Scene)
    ensures After(codec, scene, []) == Some(scene)
  {
  }

  /** The row and the summary, and the conversation deleted before that if it was. */
  lemma EndingMoves(codec: Codec, before: World, after: World, turn: TurnRecord, flights: map<string, Flight>, deleted: bool)
    requires IsTurn(codec, before, after, turn) && turn.turnId !in flights
    requires deleted <==> !turn.exit.saved && after.turns != before.turns
    ensures var gone := if deleted then [Deletes(turn.conversationId)] else [];
            var end := Ends(turn.turnId, turn.trace.answer, turn.exit.status, turn.exit.saved, turn.shown.blocks, turn.shown.citations);
            After(codec, Aloft(codec, before, turn, flights, turn.trace.rounds, turn.shown.steps, turn.trace.calls), gone + [end])
            == Some(Scene(after, flights))
  {
    hide After, QueryRows, Sends, SummaryOf, FinalTranscript, Sanitize, LatestTranscript, Without, AllExchanges, CapToTurnBoundary, Fault;
    var scene := Aloft(codec, before, turn, flights, turn.trace.rounds, turn.shown.steps, turn.trace.calls);
    var end := Ends(turn.turnId, turn.trace.answer, turn.exit.status, turn.exit.saved, turn.shown.blocks, turn.shown.citations);
    assert scene.flights - {turn.turnId} == flights;
    if deleted {
      var gone := Deletes(turn.conversationId);
      AfterOne(codec, scene, gone);
      AfterOne(codec, Moved(codec, scene, gone), end);
      AfterBoth(codec, scene, [gone], [end]);
    } else {
      AfterOne(codec, scene, end);
      assert [] + [end] == [end];
    }
  }

  /** Every turn of the service is the series of its own moves in the order in which they
      happen; so runs of whole turns, and their interleavings, are series of moves. */
  lemma TurnIsMoves(codec: Codec, before: World, after: World, turn: TurnRecord, flights: map<string, Flight>,
                    script: seq<Call>, saving: Saving, patience: Option<nat>)
    requires IsTurn(codec, before, after, turn) && turn.turnId !in flights
    requires FollowsReplies(ObstacleOf(codec, turn.loaded), script, saving, patience, turn.trace, turn.exit, turn.shown)
    ensures var moves := TurnMoves(script, turn, !turn.exit.saved && after.turns != before.turns);
            && After(codec, Scene(before, flights), moves) == Some(Scene(after, flights))
            && Attempts(moves, turn.turnId) >= 1 && WasLoaded(moves, turn.turnId)
  {
    hide After, Aloft, Attempts, WasLoaded, RoundMoves, ShowMoves, Fault, AllExchanges, SavedRow, Stored, ObstacleOf, TurnEnding, Sends,
         QueryRows, SummaryOf, FollowsScript, ShowsAnswer, ScriptSteps;
    var id, rounds, scene := turn.turnId, turn.trace.rounds, Scene(before, flights);
    var deleted := !turn.exit.saved && after.turns != before.turns;
    var done := ScriptSteps(script, |rounds|);
    var begin: seq<Move> := [Begins(id, turn.conversationId, turn.question)];
    var ask: seq<Move> := if turn.trace.calls == |rounds| + 1 then [Asks(id)] else [];
    var show := ShowMoves(id, turn.shown.steps[|done|..]);
    var gone: seq<Move> := if deleted then [Deletes(turn.conversationId)] else [];
    var end: seq<Move> := [Ends(id, turn.trace.answer, turn.exit.status, turn.exit.saved, turn.shown.blocks, turn.shown.citations)];
    BeginMoves(codec, before, turn, flights);
    RoundsAreMoves(codec, before, turn, flights, script, |rounds|);
    assert rounds[..|rounds|] == rounds;
    var moves := begin + RoundMoves(id, script, rounds, |rounds|);
    AfterBoth(codec, scene, begin, RoundMoves(id, script, rounds, |rounds|));
    LastSteps(codec, before, turn, flights, done);
    AfterBoth(codec, scene, moves, ask);
    AfterBoth(codec, scene, moves + ask, show);
    EndingMoves(codec, before, after, turn, flights, deleted);
    AfterBoth(codec, scene, moves + ask + show, gone + end);
    assert moves + ask + show + (gone + end) == TurnMoves(script, turn, deleted);
    BeginCounts(TurnMoves(script, turn, deleted), id);
  }

  /** The last call, if there is one, and the steps it shows. */
  lemma LastSteps(codec: Codec, before: World, turn: TurnRecord, flights: map<string, Flight>, done: seq<Step>)
    requires done <= turn.shown.steps
    requires || (turn.trace.calls == |turn.trace.rounds| + 1 && Fault(codec, turn.loaded).None?)
             || (NeverAsked(turn.trace, turn.exit, turn.shown) && done == [])
    ensures var rounds := turn.trace.rounds;
            var ask: seq<Move> := if turn.trace.calls == |rounds| + 1 then [Asks(turn.turnId)] else [];
            var asked := After(codec, Aloft(codec, before, turn, flights, rounds, done, |rounds|), ask);
            && asked.Some?
            && After(codec, asked.value, ShowMoves(turn.turnId, turn.shown.steps[|done|..])) ==
               Some(Aloft(codec, before, turn, flights, rounds, turn.shown.steps, turn.trace.calls))
  {
    hide After, Aloft, Fault;
    var rounds, rest := turn.trace.rounds, turn.shown.steps[|done|..];
    NoMoves(codec, Aloft(codec, before, turn, flights, rounds, done, |rounds|));
    assert done + rest == turn.shown.steps;
    if turn.trace.calls == |rounds| + 1 {
      AskMoves(codec, before, turn, flights, rounds, done);
      ShowingMoves(codec, before, turn, flights, rounds, done, rest);
    } else {
      assert ShowMoves(turn.turnId, rest) == [];
    }
  }

  lemma {:induction false} BeginCounts(moves: seq<Move>, id: string)
    requires moves != [] && moves[0].Begins? && moves[0].id == id
    ensures Attempts(moves, id) >= 1 && WasLoaded(moves, id)
  {
    if |moves| > 1 { BeginCounts(moves[..|moves| - 1], id); }
  }
}
