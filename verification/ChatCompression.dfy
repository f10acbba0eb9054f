/** Rewriting a transcript before each model call: past turns shrink to the
    question and the final answer, the turn in progress is left alone. An answer
    whose blocks are not what they should be makes it raise. */
module ChatCompression {
  import opened Wrappers
  import opened JsonValue
  import opened ChatTranscript

  // ---- answers as envelopes ------------------------------------------------

  /** Why an answer cannot be summarised: a kind that cannot be looked up, columns that
      cannot be iterated over, rows that cannot be counted. */
  datatype StripError = KindUnhashable(kind: Json) | ColumnsNotIterable(columns: Json) | RowsNotCountable(rows: Json)

  /** JSON reading and writing, `repr`, and the text of an exception. `parse` yields
      nothing for a string that is not JSON. */
  datatype Codec = Codec(parse: string -> Option<Json>, render: Json -> string, quote: Json -> string, describe: StripError -> string)

  /** An object whose blocks are a list. */
  predicate IsEnvelope(j: Json) {
    j.Object? && Get(j, "blocks").List?
  }

  const HEAVY_KINDS := {Str("table"), Str("chart"), Str("report")}

  predicate IsHeavy(b: Json) {
    b.Object? && Get(b, "kind") in HEAVY_KINDS
  }

  function Decimal(n: nat): string {
    if n < 10 then [('0' as int + n) as char] else Decimal(n / 10) + Decimal(n % 10)
  }

  /** `str`: a string as it is, the rest as `repr` writes it. */
  function Printed(codec: Codec, j: Json): string {
    if j.Str? then j.s else codec.quote(j)
  }

  function CommaSeparated(codec: Codec, parts: seq<Json>): string {
    if parts == [] then ""
    else if |parts| == 1 then Printed(codec, parts[0])
    else Printed(codec, parts[0]) + ", " + CommaSeparated(codec, parts[1..])
  }

  /** The size and the columns of a table, and its caption if it has one. */
  function TableNote(codec: Codec, columns: seq<Json>, rows: nat, caption: Json): string {
    "[earlier table omitted: " + Decimal(rows) + " rows \U{00D7} " + Decimal(|columns|) + " cols. Columns: "
      + (if columns == [] then "(no columns)" else CommaSeparated(codec, columns))
      + (if IsFalsy(caption) then "" else " \U{2014} caption: " + codec.quote(caption)) + "]"
  }

  function TitleNote(codec: Codec, kind: string, title: Json): string {
    "[earlier " + kind + " omitted: " + codec.quote(if IsFalsy(title) then Str("untitled") else title) + "]"
  }

  /** The note left in place of a heavy block. */
  function Summary(codec: Codec, b: Json): Result<string, StripError>
    requires IsHeavy(b)
  {
    if Get(b, "kind") == Str("table") then
      var columns, rows := Elements(OrEmpty(Get(b, "columns"))), Elements(OrEmpty(Get(b, "rows")));
      if columns.None? then Err(ColumnsNotIterable(Get(b, "columns")))
      else if rows.None? then Err(RowsNotCountable(Get(b, "rows")))
      else Ok(TableNote(codec, columns.value, |rows.value|, Get(b, "caption")))
    else Ok(TitleNote(codec, if Get(b, "kind") == Str("chart") then "chart" else "report", Get(b, "title")))
  }

  function NoteBlock(note: string): Json {
    Object([("kind", Str("text")), ("markdown", Str(note))])
  }

  function StripBlock(codec: Codec, b: Json): Result<Json, StripError> {
    if b.Object? && !IsHashable(Get(b, "kind")) then Err(KindUnhashable(Get(b, "kind")))
    else if !IsHeavy(b) then Ok(b)
    else
      match Summary(codec, b)
      case Err(e) => Err(e)
      case Ok(note) => Ok(NoteBlock(note))
  }

  /** The blocks with notes in place of heavy ones, or the first fault. */
  function StripBlocks(codec: Codec, blocks: seq<Json>): (r: Result<seq<Json>, StripError>)
    ensures r.Ok? ==> |r.value| == |blocks| && forall i :: 0 <= i < |blocks| ==> StripBlock(codec, blocks[i]) == Ok(r.value[i])
  {
    if blocks == [] then Ok([])
    else
      match StripBlocks(codec, blocks[..|blocks| - 1])
      case Err(e) => Err(e)
      case Ok(rest) =>
        match StripBlock(codec, blocks[|blocks| - 1])
        case Err(e) => Err(e)
        case Ok(b) => Ok(rest + [b])
  }

  function Stripped(codec: Codec, env: Json): Result<Json, StripError>
    requires IsEnvelope(env)
  {
    match StripBlocks(codec, Get(env, "blocks").items)
    case Err(e) => Err(e)
    case Ok(blocks) => Ok(Put(env, "blocks", List(blocks)))
  }

  /** Anything but an envelope is left as it is. */
  function StripHeavyBlocks(codec: Codec, content: string): Result<string, StripError> {
    var env := codec.parse(content);
    if env.None? || !IsEnvelope(env.value) then Ok(content)
    else
      match Stripped(codec, env.value)
      case Err(e) => Err(e)
      case Ok(light) => Ok(codec.render(light))
  }

  lemma {:induction false} FirstFaultDecides(codec: Codec, blocks: seq<Json>, n: nat)
    requires n <= |blocks| && StripBlocks(codec, blocks[..n]).Err?
    ensures StripBlocks(codec, blocks) == StripBlocks(codec, blocks[..n])
  {
    if n == |blocks| {
      assert blocks[..n] == blocks;
    } else {
      assert blocks[..|blocks| - 1][..n] == blocks[..n];
      FirstFaultDecides(codec, blocks[..|blocks| - 1], n);
    }
  }

  method StripContent(codec: Codec, content: string) returns (r: Result<string, StripError>)
    ensures r == StripHeavyBlocks(codec, content)
  {
    hide StripBlock;
    var env := codec.parse(content);
    if env.None? || !IsEnvelope(env.value) { return Ok(content); }
    var blocks := Get(env.value, "blocks").items;
    var light: seq<Json> := [];
    for i := 0 to |blocks|
      invariant StripBlocks(codec, blocks[..i]) == Ok(light)
    {
      assert blocks[..i + 1][..i] == blocks[..i];
      var b := StripBlock(codec, blocks[i]);
      if b.Err? {
        FirstFaultDecides(codec, blocks, i + 1);
        return Err(b.error);
      }
      light := light + [b.value];
    }
    assert blocks[..|blocks|] == blocks;
    return Ok(codec.render(Put(env.value, "blocks", List(light))));
  }

  // ---- what stripping does -------------------------------------------------

  /** What was loaded from JSON and then stripped is dumped so that it loads back. */
  ghost predicate StrippedLoadsBack(codec: Codec) {
    forall s: string ::
      var env := codec.parse(s);
      env.Some? && IsEnvelope(env.value) && Stripped(codec, env.value).Ok? ==>
        codec.parse(codec.render(Stripped(codec, env.value).value)) == Some(Stripped(codec, env.value).value)
  }

  lemma HeavyCarriesData(b: Json)
    ensures IsHeavy(b) <==> CarriesData(b)
  {
  }

  // ---- what the notes say --------------------------------------------------

  /** What a string of digits stands for. */
  function Numeral(s: string): int {
    if s == "" then 0 else 10 * Numeral(s[..|s| - 1]) + (s[|s| - 1] as int - '0' as int)
  }

  lemma {:induction false} DecimalReads(n: nat)
    ensures Decimal(n) != "" && (forall i :: 0 <= i < |Decimal(n)| ==> '0' <= Decimal(n)[i] <= '9') && Numeral(Decimal(n)) == n
  {
    if n >= 10 {
      DecimalReads(n / 10);
      DecimalReads(n % 10);
      var tens, last := Decimal(n / 10), Decimal(n % 10);
      assert |last| == 1 && (tens + last)[..|tens + last| - 1] == tens;
      assert Numeral(last) == 10 * Numeral(last[..0]) + (last[0] as int - '0' as int);
    } else {
      assert Decimal(n)[..0] == "" && Numeral("") == 0;
    }
  }

  /** A number as it is written. */
  ghost predicate IsWritten(s: string, n: int) {
    s != "" && (forall i :: 0 <= i < |s| ==> '0' <= s[i] <= '9') && Numeral(s) == n
  }

  /** The names are listed with commas between them. */
  lemma {:induction false} NamesAreListed(codec: Codec, a: seq<Json>, b: seq<Json>, one: Json)
    requires a != [] && b != []
    ensures CommaSeparated(codec, a + b) == CommaSeparated(codec, a) + ", " + CommaSeparated(codec, b)
    ensures CommaSeparated(codec, [one]) == if one.Str? then one.s else codec.quote(one)
  {
    if |a| == 1 {
      assert (a + b)[1..] == b && (a + b)[0] == a[0];
    } else {
      assert (a + b)[1..] == a[1..] + b && (a + b)[0] == a[0];
      NamesAreListed(codec, a[1..], b, one);
      assert CommaSeparated(codec, a + b) == Printed(codec, a[0]) + ", " + (CommaSeparated(codec, a[1..]) + ", " + CommaSeparated(codec, b));
    }
  }

  /** The note of a table: how many rows and how many columns there were, the names of the
      columns, and the caption if there was one. */
  ghost predicate IsTableNote(codec: Codec, note: string, columns: seq<Json>, rows: int, caption: Json) {
    exists r, c, names, rest ::
      && IsWritten(r, rows) && IsWritten(c, |columns|)
      && (if |columns| == 0 then names == "(no columns)" else names == CommaSeparated(codec, columns))
      && (if IsFalsy(caption) then rest == "]" else rest == " \U{2014} caption: " + codec.quote(caption) + "]")
      && note == "[earlier table omitted: " + r + " rows \U{00D7} " + c + " cols. Columns: " + names + rest
  }

  lemma TableNoteSays(codec: Codec, columns: seq<Json>, rows: nat, caption: Json)
    ensures IsTableNote(codec, TableNote(codec, columns, rows, caption), columns, rows, caption)
  {
    hide Decimal, Numeral, CommaSeparated, IsFalsy;
    DecimalReads(rows);
    DecimalReads(|columns|);
    var names := if columns == [] then "(no columns)" else CommaSeparated(codec, columns);
    var tail := if IsFalsy(caption) then "" else " \U{2014} caption: " + codec.quote(caption);
    var rest := tail + "]";
    assert "" + "]" == "]";
    var start := "[earlier table omitted: " + Decimal(rows) + " rows \U{00D7} " + Decimal(|columns|) + " cols. Columns: ";
    assert start + names + tail + "]" == start + names + rest;
  }

  /** What is left of a block that carried data: a text, which tells its kind and its title,
      or what there was of a table. */
  lemma NotesSay(codec: Codec, b: Json)
    requires CarriesData(b) && StripBlock(codec, b).Ok?
    ensures var light := StripBlock(codec, b).value;
            && light.Object? && Get(light, "kind") == Str("text") && Get(light, "markdown").Str?
            && var note := Get(light, "markdown").s;
               var title := codec.quote(if IsFalsy(Get(b, "title")) then Str("untitled") else Get(b, "title"));
               && (Get(b, "kind") == Str("chart") ==> note == "[earlier chart omitted: " + title + "]")
               && (Get(b, "kind") == Str("report") ==> note == "[earlier report omitted: " + title + "]")
               && (Get(b, "kind") == Str("table") ==>
                     var columns, rows := Elements(OrEmpty(Get(b, "columns"))), Elements(OrEmpty(Get(b, "rows")));
                     columns.Some? && rows.Some? && IsTableNote(codec, note, columns.value, |rows.value|, Get(b, "caption")))
  {
    hide IsTableNote, TableNote, Elements, OrEmpty, Member;
    HeavyCarriesData(b);
    KindsDiffer();
    NoteIsText(Summary(codec, b).value);
    var columns, rows := Elements(OrEmpty(Get(b, "columns"))), Elements(OrEmpty(Get(b, "rows")));
    if Get(b, "kind") == Str("table") && columns.Some? && rows.Some? {
      TableNoteSays(codec, columns.value, |rows.value|, Get(b, "caption"));
    }
    assert "[earlier " + "chart" + " omitted: " == "[earlier chart omitted: " && "[earlier " + "report" + " omitted: " == "[earlier report omitted: ";
  }

  lemma KindsDiffer()
    ensures "table" != "chart" && "table" != "report" && "chart" != "report"
  {
    assert "table"[0] == 't' && "chart"[0] == 'c' && "report"[0] == 'r';
  }

  lemma NoteIsText(note: string)
    ensures NoteBlock(note).Object? && Get(NoteBlock(note), "kind") == Str("text") && Get(NoteBlock(note), "markdown") == Str(note)
  {
    var members := NoteBlock(note).members;
    assert |"kind"| == 4 && |"markdown"| == 8;
    assert members[0].0 == "kind" && members[1..][0] == ("markdown", Str(note));
    assert Member(members, "markdown") == Member(members[1..], "markdown");
  }

  lemma LightStaysLight(codec: Codec, b: Json)
    requires StripBlock(codec, b).Ok?
    ensures var light := StripBlock(codec, b).value; StripBlock(codec, light) == Ok(light) && !IsHeavy(light)
    ensures !IsHeavy(b) ==> StripBlock(codec, b).value == b
  {
    if IsHeavy(b) {
      var note := Summary(codec, b).value;
      assert Member([("kind", Str("text")), ("markdown", Str(note))], "kind") == Str("text");
      assert "text"[1] == 'e' && "table"[1] == 'a' && "chart"[1] == 'h' && |"report"| == 6;
    }
  }

  lemma {:induction false} BlocksStayLight(codec: Codec, blocks: seq<Json>)
    requires forall i :: 0 <= i < |blocks| ==> StripBlock(codec, blocks[i]) == Ok(blocks[i])
    ensures StripBlocks(codec, blocks) == Ok(blocks)
  {
    hide StripBlock;
    if blocks != [] {
      BlocksStayLight(codec, blocks[..|blocks| - 1]);
      assert blocks == blocks[..|blocks| - 1] + [blocks[|blocks| - 1]];
    }
  }

  /** A table, a chart or a report: what carries data. */
  ghost predicate CarriesData(b: Json) {
    b.Object? && (Get(b, "kind") == Str("table") || Get(b, "kind") == Str("chart") || Get(b, "kind") == Str("report"))
  }

  /** `after` holds the blocks of `before` without one that carries data, the others as
      they were, and everything else as it was. */
  ghost predicate IsLightCopy(before: Json, after: Json) {
    && IsEnvelope(before) && IsEnvelope(after)
    && |Get(after, "blocks").items| == |Get(before, "blocks").items|
    && (forall i :: 0 <= i < |Get(before, "blocks").items| ==>
          && !CarriesData(Get(after, "blocks").items[i])
          && (!CarriesData(Get(before, "blocks").items[i]) ==> Get(after, "blocks").items[i] == Get(before, "blocks").items[i]))
    && forall key :: key != "blocks" ==> Get(after, key) == Get(before, key)
  }

  lemma StrippedIsLight(codec: Codec, env: Json)
    requires IsEnvelope(env) && Stripped(codec, env).Ok?
    ensures var light := Stripped(codec, env).value; IsLightCopy(env, light) && Stripped(codec, light) == Ok(light)
  {
    hide StripBlock, StripBlocks, IsHeavy, CarriesData;
    var before, blocks := Get(env, "blocks").items, StripBlocks(codec, Get(env, "blocks").items).value;
    var members := WithMember(env.members, "blocks", List(blocks));
    forall key ensures Member(members, key) == if key == "blocks" then List(blocks) else Member(env.members, key) {
      MemberOfWith(env.members, "blocks", List(blocks), key);
    }
    forall i | 0 <= i < |blocks|
      ensures StripBlock(codec, blocks[i]) == Ok(blocks[i]) && !CarriesData(blocks[i]) && (!CarriesData(before[i]) ==> blocks[i] == before[i])
    {
      LightStaysLight(codec, before[i]);
      HeavyCarriesData(before[i]);
      HeavyCarriesData(blocks[i]);
    }
    BlocksStayLight(codec, blocks);
    PutTwice(env.members, "blocks", List(blocks));
  }

  lemma {:induction false} PutTwice(members: seq<(string, Json)>, key: string, value: Json)
    ensures var once := WithMember(members, key, value); WithMember(once, key, value) == once
  {
    var once := WithMember(members, key, value);
    if members != [] && members[0].0 != key {
      PutTwice(members[1..], key, value);
      assert once[0] == members[0] && once[1..] == WithMember(members[1..], key, value);
    } else {
      assert once[0] == (key, value) && [(key, value)] + once[1..] == once;
    }
  }

  /** When nothing raises, no row data is left, everything light is untouched, and
      stripping what is already stripped changes nothing. */
  lemma StripIsLightAndStable(codec: Codec, content: string)
    requires StrippedLoadsBack(codec) && StripHeavyBlocks(codec, content).Ok?
    ensures var light := StripHeavyBlocks(codec, content).value;
            && StripHeavyBlocks(codec, light) == Ok(light)
            && var before := codec.parse(content);
               if before.Some? && IsEnvelope(before.value) then
                 codec.parse(light).Some? && IsLightCopy(before.value, codec.parse(light).value)
               else light == content
  {
    hide Stripped, IsLightCopy, IsEnvelope;
    var env := codec.parse(content);
    if env.Some? && IsEnvelope(env.value) {
      StrippedIsLight(codec, env.value);
      assert IsEnvelope(Stripped(codec, env.value).value) by { LightIsEnvelope(env.value, Stripped(codec, env.value).value); }
    }
  }

  lemma LightIsEnvelope(before: Json, after: Json)
    requires IsLightCopy(before, after)
    ensures IsEnvelope(after)
  {
  }

  /** The same block, or two tables that differ in their cells and in nothing else a
      note tells: all it tells of the rows is how many there are. */
  predicate DiffersInCells(a: Json, b: Json) {
    || a == b
    || (&& a.Object? && b.Object? && Get(a, "kind") == Str("table") == Get(b, "kind")
        && Get(a, "columns") == Get(b, "columns") && Get(a, "caption") == Get(b, "caption")
        && Get(a, "rows").List? && Get(b, "rows").List? && |Get(a, "rows").items| == |Get(b, "rows").items|)
  }

  /** Other rows, as many of them, make such a table of any table that lists its rows. */
  lemma CellsMayDiffer(table: Json, rows: seq<Json>)
    requires table.Object? && Get(table, "kind") == Str("table") && Get(table, "rows").List?
    requires |rows| == |Get(table, "rows").items|
    ensures DiffersInCells(Put(table, "rows", List(rows)), table)
  {
    MemberOfWith(table.members, "rows", List(rows), "rows");
    MemberOfWith(table.members, "rows", List(rows), "kind");
    MemberOfWith(table.members, "rows", List(rows), "columns");
    MemberOfWith(table.members, "rows", List(rows), "caption");
    assert "rows"[0] == 'r' && "kind"[0] == 'k' && "columns"[0] == 'c' && "caption"[0] == 'c';
  }

  /** Nothing in the cells of a past table reaches the model: answers that differ in
      cells alone are stripped to the same string, or raise for the same reason. */
  lemma StripHidesCells(codec: Codec, content: string, other: string, env: Json, blocks: seq<Json>)
    requires codec.parse(content) == Some(env) && IsEnvelope(env)
    requires codec.parse(other) == Some(Put(env, "blocks", List(blocks)))
    requires |blocks| == |Get(env, "blocks").items|
             && forall i :: 0 <= i < |blocks| ==> DiffersInCells(blocks[i], Get(env, "blocks").items[i])
    ensures StripHeavyBlocks(codec, content) == StripHeavyBlocks(codec, other)
  {
    hide StripBlocks, StripBlock, DiffersInCells;
    var before := Get(env, "blocks").items;
    MemberOfWith(env.members, "blocks", List(blocks), "blocks");
    SameNotes(codec, before, blocks);
    if StripBlocks(codec, before).Ok? {
      PutOver(env.members, "blocks", List(blocks), List(StripBlocks(codec, before).value));
    }
  }

  lemma {:induction false} PutOver(members: seq<(string, Json)>, key: string, value: Json, last: Json)
    ensures WithMember(WithMember(members, key, value), key, last) == WithMember(members, key, last)
  {
    var once := WithMember(members, key, value);
    if members != [] && members[0].0 != key {
      PutOver(members[1..], key, value, last);
      assert once[0] == members[0] && once[1..] == WithMember(members[1..], key, value);
    } else if members != [] {
      assert once[0] == (key, value) && once[1..] == members[1..];
    }
  }

  lemma SameNote(codec: Codec, a: Json, b: Json)
    requires DiffersInCells(b, a)
    ensures StripBlock(codec, a) == StripBlock(codec, b)
  {
  }

  lemma {:induction false} SameNotes(codec: Codec, a: seq<Json>, b: seq<Json>)
    requires |a| == |b| && forall i :: 0 <= i < |b| ==> DiffersInCells(b[i], a[i])
    ensures StripBlocks(codec, a) == StripBlocks(codec, b)
  {
    hide StripBlock, DiffersInCells;
    if a != [] {
      SameNotes(codec, a[..|a| - 1], b[..|b| - 1]);
      SameNote(codec, a[|a| - 1], b[|b| - 1]);
    }
  }

  // ---- when stripping raises -----------------------------------------------

  /** A block the code cannot deal with: its kind is a list or an object, or it is a
      table whose columns or rows are a number other than zero, or true. */
  predicate IsFaulty(b: Json) {
    b.Object?
    && (Get(b, "kind").List? || Get(b, "kind").Object?
        || (Get(b, "kind") == Str("table") && (IsScalar(Get(b, "columns")) || IsScalar(Get(b, "rows")))))
  }

  /** The answer loads as an envelope with such a block. */
  ghost predicate HoldsFault(codec: Codec, content: string) {
    var env := codec.parse(content);
    env.Some? && IsEnvelope(env.value) && exists b :: b in Get(env.value, "blocks").items && IsFaulty(b)
  }

  lemma BlockRaisesExactlyWhen(codec: Codec, b: Json)
    ensures StripBlock(codec, b).Err? <==> IsFaulty(b)
    ensures IsFaulty(b) ==>
              StripBlock(codec, b).error ==
              if Get(b, "kind") != Str("table") then KindUnhashable(Get(b, "kind"))
              else if IsScalar(Get(b, "columns")) then ColumnsNotIterable(Get(b, "columns"))
              else RowsNotCountable(Get(b, "rows"))
  {
    if b.Object? {
      OnlyScalarsHaveNoElements(Get(b, "columns"));
      OnlyScalarsHaveNoElements(Get(b, "rows"));
    }
  }

  lemma {:induction false} BlocksRaiseExactlyWhen(codec: Codec, blocks: seq<Json>)
    ensures StripBlocks(codec, blocks).Err? <==> exists b :: b in blocks && IsFaulty(b)
  {
    hide StripBlock, IsFaulty;
    if blocks != [] {
      var init, last := blocks[..|blocks| - 1], blocks[|blocks| - 1];
      assert blocks == init + [last];
      BlocksRaiseExactlyWhen(codec, init);
      BlockRaisesExactlyWhen(codec, last);
    }
  }

  lemma StrippingRaisesExactlyWhen(codec: Codec, content: string)
    ensures StripHeavyBlocks(codec, content).Err? <==> HoldsFault(codec, content)
  {
    hide StripBlocks, IsFaulty;
    var env := codec.parse(content);
    if env.Some? && IsEnvelope(env.value) { BlocksRaiseExactlyWhen(codec, Get(env.value, "blocks").items); }
  }

  // ---- past turns ----------------------------------------------------------

  /** How many messages follow before the next question. */
  function BodyLength(t: Transcript): (n: nat)
    ensures n <= |t| && (n < |t| ==> IsBoundary(t[n])) && forall i :: 0 <= i < n ==> !IsBoundary(t[i])
  {
    if t == [] || IsBoundary(t[0]) then 0 else 1 + BodyLength(t[1..])
  }

  /** The first turn: its question and everything up to the next one. */
  function TurnLength(t: Transcript): (n: nat)
    requires t != []
    ensures 1 <= n <= |t| && (n < |t| ==> IsBoundary(t[n])) && forall i :: 0 < i < n ==> !IsBoundary(t[i])
  {
    var n := BodyLength(t[1..]);
    assert forall i :: 0 < i < |t| ==> t[i] == t[1..][i - 1];
    1 + n
  }

  /** The last plain answer of a turn, if it has one. */
  function LastAnswer(body: Transcript): Option<string> {
    if body == [] then None
    else
      var last := body[|body| - 1];
      if last.AssistantText? then Some(last.answer) else LastAnswer(body[..|body| - 1])
  }

  /** An answer stripped. One that cannot be stripped stands as it is here; compressing
      a transcript raises for it. */
  function Lightened(codec: Codec, content: string): string {
    match StripHeavyBlocks(codec, content)
    case Err(_) => content
    case Ok(light) => light
  }

  function FinalAnswer(codec: Codec, body: Transcript): Transcript {
    match LastAnswer(body)
    case None => []
    case Some(answer) => [AssistantText(Lightened(codec, answer))]
  }

  /** What goes wrong in compressing one turn, if anything. */
  function TurnFault(codec: Codec, body: Transcript): Option<StripError> {
    match LastAnswer(body)
    case None => None
    case Some(answer) =>
      match StripHeavyBlocks(codec, answer)
      case Err(e) => Some(e)
      case Ok(_) => None
  }

  function ShortTurn(codec: Codec, turn: Transcript): Transcript
    requires turn != []
  {
    [turn[0]] + FinalAnswer(codec, turn[1..])
  }

  /** What past turns are reduced to; a stray message before the first question
      is kept. */
  function CompressTurns(codec: Codec, past: Transcript): Transcript
    decreases |past|
  {
    if past == [] then []
    else if IsBoundary(past[0]) then
      var n := TurnLength(past);
      ShortTurn(codec, past[..n]) + CompressTurns(codec, past[n..])
    else [past[0]] + CompressTurns(codec, past[1..])
  }

  /** The first thing that goes wrong in compressing past turns, oldest first. */
  function Fault(codec: Codec, past: Transcript): Option<StripError>
    decreases |past|
  {
    if past == [] then None
    else if IsBoundary(past[0]) then
      var n := TurnLength(past);
      var fault := TurnFault(codec, past[..n][1..]);
      if fault.Some? then fault else Fault(codec, past[n..])
    else Fault(codec, past[1..])
  }

  lemma FirstTurn(codec: Codec, past: Transcript)
    requires past != [] && IsBoundary(past[0])
    ensures CompressTurns(codec, past) ==
            ShortTurn(codec, past[..TurnLength(past)]) + CompressTurns(codec, past[TurnLength(past)..])
    ensures var fault := TurnFault(codec, past[..TurnLength(past)][1..]);
            Fault(codec, past) == if fault.Some? then fault else Fault(codec, past[TurnLength(past)..])
  {
    hide TurnLength, ShortTurn, TurnFault;
  }

  lemma StrayFirst(codec: Codec, past: Transcript)
    requires past != [] && !IsBoundary(past[0])
    ensures CompressTurns(codec, past) == [past[0]] + CompressTurns(codec, past[1..])
    ensures Fault(codec, past) == Fault(codec, past[1..])
  {
  }

  lemma NothingToCompress(codec: Codec)
    ensures CompressTurns(codec, []) == [] && Fault(codec, []) == None
  {
  }

  method CompressPast(codec: Codec, past: Transcript) returns (r: Result<Transcript, StripError>)
    ensures r == if Fault(codec, past).Some? then Err(Fault(codec, past).value) else Ok(CompressTurns(codec, past))
  {
    hide LastAnswer, TurnLength, CompressTurns, Fault, StripHeavyBlocks;
    var out: Transcript := [];
    var i := 0;
    assert past[0..] == past;
    while i < |past|
      invariant i <= |past|
      invariant out + CompressTurns(codec, past[i..]) == CompressTurns(codec, past)
      invariant Fault(codec, past[i..]) == Fault(codec, past)
    {
      if IsBoundary(past[i]) {
        ghost var n := TurnEnds(past, i);
        var finalAnswer: Option<string> := None;
        NoAnswerYet(past, i + 1);
        var j := i + 1;
        while j < |past| && !IsBoundary(past[j])
          invariant i + 1 <= j <= i + n
          invariant finalAnswer == LastAnswer(past[i + 1..j])
        {
          AnswerStep(past, i + 1, j);
          if past[j].AssistantText? { finalAnswer := Some(past[j].answer); }
          j := j + 1;
        }
        OneTurnDone(codec, past, i, j, out);
        out := out + [past[i]];
        if finalAnswer.Some? {
          var light := StripContent(codec, finalAnswer.value);
          if light.Err? { return Err(light.error); }
          out := out + [AssistantText(light.value)];
        } else {
          assert out + [] == out;
        }
        i := j;
      } else {
        OneStrayDone(codec, past, i, out);
        out := out + [past[i]];
        i := i + 1;
      }
    }
    AllDone(codec, past, i, out);
    return Ok(out);
  }

  lemma TurnEnds(past: Transcript, i: nat) returns (n: nat)
    requires i < |past|
    ensures n == TurnLength(past[i..]) && 1 <= n && i + n <= |past|
    ensures i + n < |past| ==> IsBoundary(past[i + n])
    ensures forall j :: i < j < i + n ==> !IsBoundary(past[j])
  {
    n := TurnLength(past[i..]);
    forall j | i < j < i + n ensures !IsBoundary(past[j]) { assert past[i..][j - i] == past[j]; }
  }

  lemma OneTurnDone(codec: Codec, past: Transcript, i: nat, j: nat, out: Transcript)
    requires i < |past| && IsBoundary(past[i]) && j == i + TurnLength(past[i..])
    requires out + CompressTurns(codec, past[i..]) == CompressTurns(codec, past) && Fault(codec, past[i..]) == Fault(codec, past)
    ensures out + [past[i]] + FinalAnswer(codec, past[i + 1..j]) + CompressTurns(codec, past[j..]) == CompressTurns(codec, past)
    ensures var fault := TurnFault(codec, past[i + 1..j]);
            if fault.Some? then Fault(codec, past) == fault else Fault(codec, past[j..]) == Fault(codec, past)
  {
    hide CompressTurns, Fault, TurnFault, TurnLength, FinalAnswer;
    FirstTurn(codec, past[i..]);
    var turn := past[i..][..j - i];
    assert turn[1..] == past[i + 1..j] && turn[0] == past[i] && past[i..][j - i..] == past[j..];
    assert out + [past[i]] + FinalAnswer(codec, past[i + 1..j]) == out + ShortTurn(codec, turn);
    assert out + ShortTurn(codec, turn) + CompressTurns(codec, past[j..]) == out + (ShortTurn(codec, turn) + CompressTurns(codec, past[j..]));
  }

  lemma OneStrayDone(codec: Codec, past: Transcript, i: nat, out: Transcript)
    requires i < |past| && !IsBoundary(past[i])
    requires out + CompressTurns(codec, past[i..]) == CompressTurns(codec, past) && Fault(codec, past[i..]) == Fault(codec, past)
    ensures out + [past[i]] + CompressTurns(codec, past[i + 1..]) == CompressTurns(codec, past)
    ensures Fault(codec, past[i + 1..]) == Fault(codec, past)
  {
    assert past[i..][0] == past[i] && past[i..][1..] == past[i + 1..];
    assert out + [past[i]] + CompressTurns(codec, past[i + 1..]) == out + ([past[i]] + CompressTurns(codec, past[i + 1..]));
  }

  lemma AllDone(codec: Codec, past: Transcript, i: nat, out: Transcript)
    requires i == |past| && out + CompressTurns(codec, past[i..]) == CompressTurns(codec, past) && Fault(codec, past[i..]) == Fault(codec, past)
    ensures out == CompressTurns(codec, past) && Fault(codec, past) == None
  {
    assert past[i..] == [];
  }

  lemma NoAnswerYet(past: Transcript, i: nat)
    requires i <= |past|
    ensures LastAnswer(past[i..i]) == None
  {
  }

  lemma AnswerStep(past: Transcript, i: nat, j: nat)
    requires i <= j < |past|
    ensures LastAnswer(past[i..j + 1]) == if past[j].AssistantText? then Some(past[j].answer) else LastAnswer(past[i..j])
  {
    assert past[i..j + 1][..j - i] == past[i..j];
    assert past[i..j + 1][j - i] == past[j];
  }

  /** Everything before the last question. */
  function Past(t: Transcript): Transcript {
    match LastBoundary(t)
    case None => []
    case Some(k) => t[..k]
  }

  /** A transcript with its past compressed. */
  function Shortened(codec: Codec, t: Transcript): Transcript {
    CompressTurns(codec, Past(t)) + t[|Past(t)|..]
  }

  function Compress(codec: Codec, t: Transcript): Result<Transcript, StripError> {
    match Fault(codec, Past(t))
    case Some(e) => Err(e)
    case None => Ok(Shortened(codec, t))
  }

  method CompressPastTurns(codec: Codec, t: Transcript) returns (r: Result<Transcript, StripError>)
    ensures r == Compress(codec, t)
  {
    var i := |t|;
    while i > 0
      invariant 0 <= i <= |t|
      invariant forall j :: i <= j < |t| ==> !IsBoundary(t[j])
    {
      if IsBoundary(t[i - 1]) {
        var past := CompressPast(codec, t[..i - 1]);
        if past.Err? { return Err(past.error); }
        return Ok(past.value + t[i - 1..]);
      }
      i := i - 1;
    }
    NothingToCompress(codec);
    assert [] + t[0..] == t;
    return Ok(t);
  }

  // ---- when compressing raises ---------------------------------------------

  /** Message `j` is the last plain answer of a turn: a question comes before it, and
      another before the next plain answer. */
  ghost predicate EndsTurn(past: Transcript, j: nat) {
    && j < |past| && past[j].AssistantText?
    && (exists i :: 0 <= i < j && IsBoundary(past[i]))
    && forall x :: j < x < |past| && past[x].AssistantText? ==> exists m :: j < m < x && IsBoundary(past[m])
  }

  /** Message `j` is the last plain answer of a past turn and cannot be summarised. */
  ghost predicate Chokes(codec: Codec, past: Transcript, j: nat) {
    EndsTurn(past, j) && HoldsFault(codec, past[j].answer)
  }

  lemma {:induction false} LastAnswerAt(body: Transcript) returns (j: nat)
    ensures LastAnswer(body).None? ==> forall x :: 0 <= x < |body| ==> !body[x].AssistantText?
    ensures LastAnswer(body).Some? ==>
              && j < |body| && body[j] == AssistantText(LastAnswer(body).value)
              && forall x :: j < x < |body| ==> !body[x].AssistantText?
  {
    j := 0;
    if body != [] {
      var n := |body| - 1;
      if body[n].AssistantText? { j := n; } else { j := LastAnswerAt(body[..n]); }
    }
  }

  /** The plain answers that end the first turn are its last answer. */
  lemma FirstTurnEnds(past: Transcript, j: nat)
    requires past != [] && IsBoundary(past[0]) && j < TurnLength(past)
    ensures EndsTurn(past, j) ==> LastAnswer(past[..TurnLength(past)][1..]) == Some(past[j].answer)
  {
    var n := TurnLength(past);
    var body := past[..n][1..];
    if EndsTurn(past, j) {
      var last := LastAnswerAt(body);
      assert forall x :: 0 <= x < |body| ==> body[x] == past[x + 1];
      assert j > 0 && body[j - 1] == past[j];
      if last + 1 > j { assert false; }
    }
  }

  lemma FirstTurnHasEnd(past: Transcript) returns (j: nat)
    requires past != [] && IsBoundary(past[0]) && LastAnswer(past[..TurnLength(past)][1..]).Some?
    ensures j < TurnLength(past) && EndsTurn(past, j) && past[j].answer == LastAnswer(past[..TurnLength(past)][1..]).value
  {
    var n := TurnLength(past);
    var body := past[..n][1..];
    var last := LastAnswerAt(body);
    j := last + 1;
    assert forall x :: 0 <= x < |body| ==> body[x] == past[x + 1];
    assert forall x :: j < x < n ==> !body[x - 1].AssistantText? && past[x] == body[x - 1];
    assert n < |past| ==> IsBoundary(past[n]);
  }

  /** Dropping a whole turn, or a stray message, from the front. */
  lemma LaterTurnEnds(past: Transcript, n: nat, j: nat)
    requires 0 < n <= j < |past| && (n < |past| ==> IsBoundary(past[n])) && (IsBoundary(past[0]) || n == 1)
    ensures EndsTurn(past, j) <==> EndsTurn(past[n..], j - n)
  {
    var rest := past[n..];
    if EndsTurn(past, j) {
      assert past[n] == rest[0] && j != n;
      forall x | j - n < x < |rest| && rest[x].AssistantText? ensures exists m :: j - n < m < x && IsBoundary(rest[m]) {
        assert past[x + n].AssistantText?;
        var m :| j < m < x + n && IsBoundary(past[m]);
        assert IsBoundary(rest[m - n]);
      }
      assert IsBoundary(rest[0]) && 0 < j - n;
    }
    if EndsTurn(rest, j - n) {
      forall x | j < x < |past| && past[x].AssistantText? ensures exists m :: j < m < x && IsBoundary(past[m]) {
        assert rest[x - n].AssistantText?;
        var m :| j - n < m < x - n && IsBoundary(rest[m]);
        assert IsBoundary(past[m + n]);
      }
      var i :| 0 <= i < j - n && IsBoundary(rest[i]);
      assert IsBoundary(past[i + n]);
    }
  }

  lemma AfterStray(past: Transcript, j: nat)
    requires past != [] && !IsBoundary(past[0]) && 0 < j < |past|
    ensures EndsTurn(past, j) <==> EndsTurn(past[1..], j - 1)
  {
    var rest := past[1..];
    assert forall x :: 0 <= x < |rest| ==> rest[x] == past[x + 1];
    if EndsTurn(past, j) {
      var i :| 0 <= i < j && IsBoundary(past[i]);
      assert IsBoundary(rest[i - 1]);
      forall x | j - 1 < x < |rest| && rest[x].AssistantText? ensures exists m :: j - 1 < m < x && IsBoundary(rest[m]) {
        assert past[x + 1].AssistantText?;
        var m :| j < m < x + 1 && IsBoundary(past[m]);
        assert IsBoundary(rest[m - 1]);
      }
    }
    if EndsTurn(rest, j - 1) {
      var i :| 0 <= i < j - 1 && IsBoundary(rest[i]);
      assert IsBoundary(past[i + 1]);
      forall x | j < x < |past| && past[x].AssistantText? ensures exists m :: j < m < x && IsBoundary(past[m]) {
        assert rest[x - 1].AssistantText?;
        var m :| j - 1 < m < x - 1 && IsBoundary(rest[m]);
        assert IsBoundary(past[m + 1]);
      }
    }
  }

  lemma NothingEnds(codec: Codec)
    ensures Fault(codec, []) == None && !exists j: nat :: Chokes(codec, [], j)
  {
  }

  lemma EndsInside(past: Transcript, j: nat)
    ensures EndsTurn(past, j) ==> 0 < j < |past| && past[j].AssistantText?
  {
  }

  lemma ChokesAfterStray(codec: Codec, past: Transcript, j: nat)
    requires past != [] && !IsBoundary(past[0])
    ensures Chokes(codec, past, j) ==> j > 0 && Chokes(codec, past[1..], j - 1)
    ensures Chokes(codec, past[1..], j) ==> Chokes(codec, past, j + 1)
  {
    hide EndsTurn, HoldsFault;
    EndsInside(past, j);
    EndsInside(past[1..], j);
    if 0 < j < |past| { AfterStray(past, j); }
    if j + 1 < |past| { AfterStray(past, j + 1); }
  }

  lemma ChokesAfterTurn(codec: Codec, past: Transcript, j: nat)
    requires past != [] && IsBoundary(past[0])
    ensures var n := TurnLength(past);
            && (j >= n && Chokes(codec, past, j) ==> Chokes(codec, past[n..], j - n))
            && (Chokes(codec, past[n..], j) ==> Chokes(codec, past, j + n))
  {
    hide EndsTurn, HoldsFault;
    var n := TurnLength(past);
    EndsInside(past, j);
    EndsInside(past[n..], j);
    if n <= j < |past| { LaterTurnEnds(past, n, j); }
    if j + n < |past| { LaterTurnEnds(past, n, j + n); }
  }

  lemma ChokesInTurn(codec: Codec, past: Transcript)
    requires past != [] && IsBoundary(past[0])
    ensures var n := TurnLength(past);
            TurnFault(codec, past[..n][1..]).Some? <==> exists j: nat :: j < n && Chokes(codec, past, j)
  {
    hide EndsTurn, HoldsFault, LastAnswer, StripHeavyBlocks;
    var n := TurnLength(past);
    var body := past[..n][1..];
    if LastAnswer(body).Some? {
      var j := FirstTurnHasEnd(past);
      StrippingRaisesExactlyWhen(codec, past[j].answer);
      EndsInside(past, j);
      assert TurnFault(codec, body).Some? ==> Chokes(codec, past, j);
    }
    forall j: nat | j < n && Chokes(codec, past, j) ensures TurnFault(codec, body).Some? {
      FirstTurnEnds(past, j);
      EndsInside(past, j);
      StrippingRaisesExactlyWhen(codec, past[j].answer);
    }
  }

  lemma {:induction false} FaultExactlyWhen(codec: Codec, past: Transcript)
    ensures Fault(codec, past).Some? <==> exists j: nat :: Chokes(codec, past, j)
    decreases |past|
  {
    hide Chokes, TurnLength, Fault, TurnFault;
    if past == [] {
      NothingEnds(codec);
    } else if IsBoundary(past[0]) {
      var n := TurnLength(past);
      FirstTurn(codec, past);
      ChokesInTurn(codec, past);
      FaultExactlyWhen(codec, past[n..]);
      forall j: nat ensures Chokes(codec, past, j) && j >= n ==> Chokes(codec, past[n..], j - n) { ChokesAfterTurn(codec, past, j); }
      forall j: nat ensures Chokes(codec, past[n..], j) ==> Chokes(codec, past, j + n) { ChokesAfterTurn(codec, past, j); }
    } else {
      StrayFirst(codec, past);
      FaultExactlyWhen(codec, past[1..]);
      forall j: nat ensures Chokes(codec, past, j) ==> j > 0 && Chokes(codec, past[1..], j - 1) { ChokesAfterStray(codec, past, j); }
      forall j: nat ensures Chokes(codec, past[1..], j) ==> Chokes(codec, past, j + 1) { ChokesAfterStray(codec, past, j); }
    }
  }

  /** Main result on raising: a transcript cannot be compressed exactly when the last
      plain answer of some past turn is an envelope that holds a block the code cannot
      deal with. */
  lemma CompressionRaisesExactlyWhen(codec: Codec, t: Transcript)
    ensures Compress(codec, t).Err? <==> exists j: nat :: Chokes(codec, Past(t), j)
  {
    FaultExactlyWhen(codec, Past(t));
  }

  // ---- what compression keeps ----------------------------------------------

  /** The questions of a transcript, in order. */
  function Questions(t: Transcript): seq<Message> {
    if t == [] then []
    else if IsBoundary(t[0]) then [t[0]] + Questions(t[1..])
    else Questions(t[1..])
  }

  lemma {:induction false} QuestionsConcat(a: Transcript, b: Transcript)
    ensures Questions(a + b) == Questions(a) + Questions(b)
  {
    if a == [] {
      assert a + b == b;
    } else {
      var rest := a[1..] + b;
      assert (a + b)[0] == a[0] && (a + b)[1..] == rest;
      QuestionsConcat(a[1..], b);
      assert Questions(a + b) == if IsBoundary(a[0]) then [a[0]] + Questions(rest) else Questions(rest);
    }
  }

  lemma {:induction false} NoQuestions(t: Transcript)
    requires forall i :: 0 <= i < |t| ==> !IsBoundary(t[i])
    ensures Questions(t) == []
  {
    if t != [] { NoQuestions(t[1..]); }
  }

  lemma FinalAnswerIsText(codec: Codec, body: Transcript)
    ensures |FinalAnswer(codec, body)| <= 1
    ensures forall i :: 0 <= i < |FinalAnswer(codec, body)| ==> FinalAnswer(codec, body)[i].AssistantText?
  {
  }

  lemma ShortTurnKeepsQuestion(codec: Codec, turn: Transcript)
    requires turn != [] && IsBoundary(turn[0]) && forall i :: 0 < i < |turn| ==> !IsBoundary(turn[i])
    ensures Questions(ShortTurn(codec, turn)) == Questions(turn)
  {
    assert turn == [turn[0]] + turn[1..];
    NoQuestions(turn[1..]);
    QuestionsConcat([turn[0]], turn[1..]);
    FinalAnswerIsText(codec, turn[1..]);
    NoQuestions(FinalAnswer(codec, turn[1..]));
    QuestionsConcat([turn[0]], FinalAnswer(codec, turn[1..]));
  }

  lemma {:induction false} TurnsKeepQuestions(codec: Codec, past: Transcript)
    ensures Questions(CompressTurns(codec, past)) == Questions(past)
    decreases |past|
  {
    hide ShortTurn, TurnLength, Questions;
    if past != [] && IsBoundary(past[0]) {
      hide CompressTurns;
      var n := TurnLength(past);
      FirstTurn(codec, past);
      assert past == past[..n] + past[n..];
      TurnsKeepQuestions(codec, past[n..]);
      ShortTurnKeepsQuestion(codec, past[..n]);
      QuestionsConcat(past[..n], past[n..]);
      QuestionsConcat(ShortTurn(codec, past[..n]), CompressTurns(codec, past[n..]));
    } else if past != [] {
      assert past == [past[0]] + past[1..];
      TurnsKeepQuestions(codec, past[1..]);
      QuestionsConcat([past[0]], CompressTurns(codec, past[1..]));
      QuestionsConcat([past[0]], past[1..]);
    }
  }

  /** Compressing distributes over concatenation at a turn boundary, so each past
      turn is compressed on its own. */
  lemma {:induction false} CompressionDistributes(codec: Codec, a: Transcript, b: Transcript)
    requires b != [] ==> IsBoundary(b[0])
    ensures CompressTurns(codec, a + b) == CompressTurns(codec, a) + CompressTurns(codec, b)
    ensures Fault(codec, a + b) == if Fault(codec, a).Some? then Fault(codec, a) else Fault(codec, b)
    decreases |a|
  {
    hide ShortTurn, TurnLength, CompressTurns, Fault, TurnFault;
    if a == [] {
      assert a + b == b;
      NothingToCompress(codec);
    } else if IsBoundary(a[0]) {
      var n := TurnLength(a);
      FirstTurn(codec, a);
      FirstTurn(codec, a + b);
      TurnStopsAtBoundary(a, b);
      assert (a + b)[..n] == a[..n] && (a + b)[n..] == a[n..] + b;
      CompressionDistributes(codec, a[n..], b);
      SeqAssociates(ShortTurn(codec, a[..n]), CompressTurns(codec, a[n..]), CompressTurns(codec, b));
    } else {
      assert (a + b)[1..] == a[1..] + b && (a + b)[0] == a[0];
      StrayFirst(codec, a);
      StrayFirst(codec, a + b);
      CompressionDistributes(codec, a[1..], b);
      SeqAssociates([a[0]], CompressTurns(codec, a[1..]), CompressTurns(codec, b));
    }
  }

  lemma SeqAssociates(a: Transcript, b: Transcript, c: Transcript)
    ensures a + b + c == a + (b + c)
  {
  }

  lemma TurnStopsAtBoundary(a: Transcript, b: Transcript)
    requires a != [] && (b != [] ==> IsBoundary(b[0]))
    ensures TurnLength(a + b) == TurnLength(a)
  {
    assert (a + b)[1..] == a[1..] + b;
    BodyStopsAtBoundary(a[1..], b);
  }

  lemma {:induction false} BodyStopsAtBoundary(a: Transcript, b: Transcript)
    requires b != [] ==> IsBoundary(b[0])
    ensures BodyLength(a + b) == BodyLength(a)
  {
    if a == [] {
      assert a + b == b;
    } else if !IsBoundary(a[0]) {
      assert (a + b)[1..] == a[1..] + b;
      BodyStopsAtBoundary(a[1..], b);
    }
  }

  /** Message `k` is the last plain answer of the turn. */
  ghost predicate EndsWith(turn: Transcript, k: int) {
    0 < k < |turn| && turn[k].AssistantText? && forall j :: k < j < |turn| ==> !turn[j].AssistantText?
  }

  lemma {:induction false} LastAnswerSays(body: Transcript, k: int)
    ensures 0 <= k < |body| && body[k].AssistantText? && (forall j :: k < j < |body| ==> !body[j].AssistantText?) ==>
              LastAnswer(body) == Some(body[k].answer)
    ensures (forall j :: 0 <= j < |body| ==> !body[j].AssistantText?) ==> LastAnswer(body) == None
  {
    if body != [] { LastAnswerSays(body[..|body| - 1], k); }
  }

  /** What the messages of a turn make of its final answer, the last one being `k`. */
  ghost predicate TurnEndsIn(codec: Codec, turn: Transcript, k: int)
    requires turn != []
  {
    && ((forall j :: 0 < j < |turn| ==> !turn[j].AssistantText?) ==> FinalAnswer(codec, turn[1..]) == [] && TurnFault(codec, turn[1..]) == None)
    && (EndsWith(turn, k) ==>
          match StripHeavyBlocks(codec, turn[k].answer)
          case Ok(light) => FinalAnswer(codec, turn[1..]) == [AssistantText(light)] && TurnFault(codec, turn[1..]) == None
          case Err(e) => TurnFault(codec, turn[1..]) == Some(e))
  }

  lemma AnswerOfTurn(codec: Codec, turn: Transcript, k: int)
    requires turn != []
    ensures TurnEndsIn(codec, turn, k)
  {
    hide StripHeavyBlocks;
    assert forall j :: 0 <= j < |turn| - 1 ==> turn[1..][j] == turn[j + 1];
    LastAnswerSays(turn[1..], k - 1);
  }

  /** One turn becomes its question and its last plain answer. */
  lemma OneTurn(codec: Codec, turn: Transcript)
    requires turn != [] && IsBoundary(turn[0]) && forall i :: 0 < i < |turn| ==> !IsBoundary(turn[i])
    ensures CompressTurns(codec, turn) == [turn[0]] + FinalAnswer(codec, turn[1..])
    ensures Fault(codec, turn) == TurnFault(codec, turn[1..])
    ensures (forall k :: 0 < k < |turn| ==> !turn[k].AssistantText?) ==> CompressTurns(codec, turn) == [turn[0]] && Fault(codec, turn).None?
    ensures forall k :: EndsWith(turn, k) ==>
              match StripHeavyBlocks(codec, turn[k].answer)
              case Ok(light) => CompressTurns(codec, turn) == [turn[0], AssistantText(light)] && Fault(codec, turn).None?
              case Err(e) => Fault(codec, turn) == Some(e)
  {
    hide TurnLength, FinalAnswer, CompressTurns, Fault, TurnFault;
    FirstTurn(codec, turn);
    forall k | EndsWith(turn, k) || k == 0 ensures TurnEndsIn(codec, turn, k) { AnswerOfTurn(codec, turn, k); }
    assert TurnEndsIn(codec, turn, 0);
    var n := TurnLength(turn);
    assert n == |turn|;
    assert turn[..n] == turn && turn[n..] == [];
    NothingToCompress(codec);
  }

  ghost predicate OnlyText(t: Transcript) {
    forall i :: 0 <= i < |t| ==> t[i].UserText? || t[i].AssistantText?
  }

  lemma {:induction false} TurnsBecomeText(codec: Codec, past: Transcript)
    requires past != [] ==> IsBoundary(past[0])
    ensures OnlyText(CompressTurns(codec, past))
    ensures past != [] ==> CompressTurns(codec, past) != [] && CompressTurns(codec, past)[0] == past[0]
    decreases |past|
  {
    hide FinalAnswer, TurnLength;
    if past != [] {
      hide CompressTurns;
      var n := TurnLength(past);
      FirstTurn(codec, past);
      FinalAnswerIsText(codec, past[..n][1..]);
      if n < |past| { assert past[n..][0] == past[n]; }
      TurnsBecomeText(codec, past[n..]);
    }
  }

  /** Nothing goes wrong with turns that have been compressed, and nothing changes. */
  lemma {:induction false} TurnsAreStable(codec: Codec, past: Transcript)
    requires StrippedLoadsBack(codec) && Fault(codec, past).None?
    ensures CompressTurns(codec, CompressTurns(codec, past)) == CompressTurns(codec, past)
    ensures Fault(codec, CompressTurns(codec, past)).None?
    decreases |past|
  {
    hide StrippedLoadsBack, TurnLength, FinalAnswer, TurnFault;
    if past != [] && IsBoundary(past[0]) {
      hide CompressTurns, Fault;
      var n := TurnLength(past);
      FirstTurn(codec, past);
      if n < |past| { assert past[n..][0] == past[n]; }
      TurnsAreStable(codec, past[n..]);
      TurnsBecomeText(codec, past[n..]);
      NothingToCompress(codec);
      CompressionDistributes(codec, ShortTurn(codec, past[..n]), CompressTurns(codec, past[n..]));
      ShortTurnIsStable(codec, past[0], past[..n][1..]);
    } else if past != [] {
      TurnsAreStable(codec, past[1..]);
      assert ([past[0]] + CompressTurns(codec, past[1..]))[1..] == CompressTurns(codec, past[1..]);
    }
  }

  lemma ShortTurnIsStable(codec: Codec, question: Message, body: Transcript)
    requires StrippedLoadsBack(codec) && IsBoundary(question) && TurnFault(codec, body).None?
    ensures var short := [question] + FinalAnswer(codec, body); CompressTurns(codec, short) == short && Fault(codec, short).None?
  {
    hide CompressTurns, Fault, FinalAnswer, TurnFault;
    FinalAnswerIsText(codec, body);
    var answer := FinalAnswer(codec, body);
    var short := [question] + answer;
    assert short[1..] == answer;
    OneTurn(codec, short);
    FinalAnswerIsStable(codec, body);
  }

  lemma FinalAnswerIsStable(codec: Codec, body: Transcript)
    requires StrippedLoadsBack(codec) && TurnFault(codec, body).None?
    ensures FinalAnswer(codec, FinalAnswer(codec, body)) == FinalAnswer(codec, body)
    ensures TurnFault(codec, FinalAnswer(codec, body)).None?
  {
    hide StrippedLoadsBack, StripHeavyBlocks;
    if LastAnswer(body).Some? { StripIsLightAndStable(codec, LastAnswer(body).value); }
  }

  lemma PastOf(past: Transcript, current: Transcript)
    requires current != [] && IsBoundary(current[0]) && forall i :: 0 < i < |current| ==> !IsBoundary(current[i])
    ensures Past(past + current) == past
  {
    var t := past + current;
    assert IsBoundary(t[|past|]);
    forall i | |past| < i < |t| ensures !IsBoundary(t[i]) {
      assert t[i] == current[i - |past|];
    }
    assert t[..|past|] == past;
  }

  lemma CompressedIs(codec: Codec, t: Transcript)
    requires Compress(codec, t).Ok?
    ensures |Past(t)| <= |t| && t == Past(t) + t[|Past(t)|..]
    ensures Compress(codec, t).value == CompressTurns(codec, Past(t)) + t[|Past(t)|..]
    ensures LastBoundary(t).Some? ==> |Past(t)| == LastBoundary(t).value
    ensures LastBoundary(t).None? ==> Past(t) == []
  {
    hide CompressTurns, Fault;
  }

  /** Main result: when compression succeeds it keeps every question in order and the
      turn in progress verbatim, and leaves no tool blocks in past turns. */
  lemma CompressionPreservesConversation(codec: Codec, t: Transcript)
    requires Compress(codec, t).Ok?
    ensures var short := Compress(codec, t).value;
            && Questions(short) == Questions(t)
            && (LastBoundary(t).None? ==> short == t)
            && (LastBoundary(t).Some? ==>
                  var k := LastBoundary(t).value;
                  var pastLength := |short| - (|t| - k);
                  && 0 <= pastLength && short[pastLength..] == t[k..]
                  && (IsBoundary(t[0]) ==> OnlyText(short[..pastLength])))
  {
    hide Compress, CompressTurns, Past, Questions, OnlyText, LastBoundary;
    CompressedIs(codec, t);
    NothingToCompress(codec);
    var past, current := Past(t), t[|Past(t)|..];
    var short := CompressTurns(codec, past);
    TurnsKeepQuestions(codec, past);
    QuestionsConcat(past, current);
    QuestionsConcat(short, current);
    if LastBoundary(t).Some? && IsBoundary(t[0]) { TurnsBecomeText(codec, past); }
    SplitsAgain(short, current);
  }

  lemma SplitsAgain(a: Transcript, b: Transcript)
    ensures (a + b)[..|a|] == a && (a + b)[|a|..] == b
  {
  }

  /** Compressing what is already compressed changes nothing, and does not raise. */
  lemma CompressionIsIdempotent(codec: Codec, t: Transcript)
    requires StrippedLoadsBack(codec) && Compress(codec, t).Ok?
    ensures Compress(codec, Compress(codec, t).value) == Compress(codec, t)
  {
    hide CompressTurns, Fault, StrippedLoadsBack;
    NothingToCompress(codec);
    var past, current := Past(t), t[|Past(t)|..];
    var short := CompressTurns(codec, past);
    if LastBoundary(t).Some? {
      assert forall i :: 0 < i < |current| ==> current[i] == t[|past| + i];
      PastOf(short, current);
      TurnsAreStable(codec, past);
      assert (short + current)[|short|..] == current;
    } else {
      assert short + current == t;
    }
  }

  lemma TextIsPaired(t: Transcript)
    requires OnlyText(t)
    ensures ToolsPaired(t)
  {
  }

  /** A sendable transcript is still sendable after compression. */
  lemma CompressionStaysSendable(codec: Codec, t: Transcript)
    requires Sendable(t) && Compress(codec, t).Ok?
    ensures Sendable(Compress(codec, t).value)
  {
    hide Fault, CompressTurns, ToolsPaired, OnlyText;
    NothingToCompress(codec);
    var k := LastBoundary(t).value;
    PairedSplit(t, k);
    TurnsBecomeText(codec, t[..k]);
    TextIsPaired(CompressTurns(codec, t[..k]));
    PairedConcat(CompressTurns(codec, t[..k]), t[k..]);
  }
}
