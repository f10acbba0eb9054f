/** Server-sent events from the chat server to its two browser readers: however
    the text is cut up on the way, the client sees the events that were sent. */
module SseFraming {
  import opened Wrappers
  import opened Text

  /** An event as it goes over the wire: `data` is JSON text. */
  datatype SseEvent = SseEvent(name: string, data: string)

  const BREAK := "\n\n"

  /** What a browser regular expression takes for the end of a line. */
  predicate IsLineEnd(c: char) {
    c == '\n' || c == '\r' || c == '\U{2028}' || c == '\U{2029}'
  }

  predicate OneLine(s: string) {
    forall i :: 0 <= i < |s| ==> !IsLineEnd(s[i])
  }

  predicate IsAscii(s: string) {
    forall i :: 0 <= i < |s| ==> s[i] < '\U{80}'
  }

  predicate IsWireText(s: string) {
    s != "" && IsAscii(s) && OneLine(s) && IsTrimmed(s)
  }

  /** Event names are the fixed event types; JSON text is never empty or padded, and
      has its line breaks and all but ASCII escaped. */
  predicate IsWireEvent(e: SseEvent) {
    IsWireText(e.name) && IsWireText(e.data)
  }

  /** Text of printable ASCII characters that neither starts nor ends with a space will do,
      as names and JSON text are. */
  lemma PrintableIsWireText(s: string)
    requires s != "" && s[0] != ' ' && s[|s| - 1] != ' ' && forall i :: 0 <= i < |s| ==> ' ' <= s[i] <= '~'
    ensures IsWireText(s)
  {
  }

  // ---- the server ----------------------------------------------------------

  function FrameOf(e: SseEvent): string {
    "event: " + e.name + "\n" + "data: " + e.data
  }

  function FormatSse(e: SseEvent): string {
    FrameOf(e) + BREAK
  }

  const KEEPALIVE_FRAME := ": keepalive"

  const KEEPALIVE := KEEPALIVE_FRAME + BREAK

  datatype Item = Sent(event: SseEvent) | Keepalive

  function FrameOfItem(item: Item): string {
    match item
    case Sent(e) => FrameOf(e)
    case Keepalive => KEEPALIVE_FRAME
  }

  function Emitted(item: Item): (text: string)
    ensures text == FrameOfItem(item) + BREAK
  {
    match item
    case Sent(e) => FormatSse(e)
    case Keepalive => KEEPALIVE
  }

  function Wire(items: seq<Item>): string {
    if items == [] then "" else Emitted(items[0]) + Wire(items[1..])
  }

  function EventsOf(items: seq<Item>): seq<SseEvent> {
    if items == [] then []
    else if items[0].Sent? then [items[0].event] + EventsOf(items[1..])
    else EventsOf(items[1..])
  }

  function Keepalives(n: nat): seq<Item> {
    seq(n, i => Keepalive)
  }

  /** The stream up to event `n`: before each event as many keepalives as the turn
      was quiet. */
  function Interleaved(events: seq<SseEvent>, quiet: nat -> nat, n: nat): seq<Item>
    requires n <= |events|
  {
    if n == 0 then [] else Interleaved(events, quiet, n - 1) + Keepalives(quiet(n - 1)) + [Sent(events[n - 1])]
  }

  /** A keepalive each time a wait runs out: `quiet(i)` times before event `i`, and
      `quiet(|events|)` times before the end. */
  method WithKeepalive(events: seq<SseEvent>, quiet: nat -> nat) returns (items: seq<Item>)
    ensures items == Interleaved(events, quiet, |events|) + Keepalives(quiet(|events|))
    ensures EventsOf(items) == events
  {
    items := [];
    var i := 0;
    while true
      invariant i <= |events| && items == Interleaved(events, quiet, i)
      decreases |events| - i
    {
      ghost var before := items;
      for k := 0 to quiet(i)
        invariant items == before + Keepalives(k)
      {
        items := items + [Keepalive];
      }
      if i == |events| {
        InterleavedEvents(events, quiet, i);
        QuietTail(before, quiet(i));
        assert events[..i] == events;
        return;
      }
      items := items + [Sent(events[i])];
      i := i + 1;
    }
  }

  lemma {:induction false} QuietTail(items: seq<Item>, n: nat)
    ensures EventsOf(items + Keepalives(n)) == EventsOf(items)
  {
    if n == 0 {
      assert items + Keepalives(0) == items;
    } else {
      QuietTail(items, n - 1);
      EventsConcat(items + Keepalives(n - 1), [Keepalive]);
      assert items + Keepalives(n) == items + Keepalives(n - 1) + [Keepalive];
    }
  }

  lemma {:induction false} InterleavedEvents(events: seq<SseEvent>, quiet: nat -> nat, n: nat)
    requires n <= |events|
    ensures EventsOf(Interleaved(events, quiet, n)) == events[..n]
  {
    if n > 0 {
      InterleavedEvents(events, quiet, n - 1);
      var before := Interleaved(events, quiet, n - 1);
      QuietTail(before, quiet(n - 1));
      EventsConcat(before + Keepalives(quiet(n - 1)), [Sent(events[n - 1])]);
    }
  }

  lemma {:induction false} EventsConcat(a: seq<Item>, b: seq<Item>)
    ensures EventsOf(a + b) == EventsOf(a) + EventsOf(b)
  {
    if a == [] {
      assert a + b == b;
    } else {
      assert (a + b)[1..] == a[1..] + b;
      EventsConcat(a[1..], b);
    }
  }

  // ---- cutting a text into frames ------------------------------------------

  predicate BreakAt(s: string, i: nat) {
    i + 1 < |s| && s[i] == '\n' && s[i + 1] == '\n'
  }

  /** `indexOf` of a blank line. */
  function FirstBreak(s: string): (r: Option<nat>)
    ensures r.Some? ==> BreakAt(s, r.value) && forall j :: 0 <= j < r.value ==> !BreakAt(s, j)
    ensures r.None? ==> forall j :: 0 <= j ==> !BreakAt(s, j)
  {
    if |s| < 2 then None
    else if BreakAt(s, 0) then Some(0)
    else
      var r := FirstBreak(s[1..]);
      assert forall j :: 1 <= j ==> BreakAt(s, j) == BreakAt(s[1..], j - 1);
      match r
      case None => None
      case Some(i) => Some(i + 1)
  }

  lemma BreakIs(s: string, i: nat)
    requires BreakAt(s, i) && forall j :: 0 <= j < i ==> !BreakAt(s, j)
    ensures FirstBreak(s) == Some(i)
  {
    var r := FirstBreak(s);
    assert r.Some?;
  }

  /** The complete frames of a text, and what is left over. */
  function Frames(s: string): seq<string>
    decreases |s|
  {
    match FirstBreak(s)
    case None => []
    case Some(i) => [s[..i]] + Frames(s[i + 2..])
  }

  function Remainder(s: string): string
    decreases |s|
  {
    match FirstBreak(s)
    case None => s
    case Some(i) => Remainder(s[i + 2..])
  }

  lemma FramesAtBreak(s: string, i: nat)
    requires BreakAt(s, i) && forall j :: 0 <= j < i ==> !BreakAt(s, j)
    ensures FirstBreak(s) == Some(i)
    ensures Frames(s) == [s[..i]] + Frames(s[i + 2..]) && Remainder(s) == Remainder(s[i + 2..])
  {
    BreakIs(s, i);
  }

  lemma NoFrame(s: string)
    requires FirstBreak(s).None?
    ensures Frames(s) == [] && Remainder(s) == s
  {
  }

  lemma BreakStays(a: string, b: string, i: nat)
    requires FirstBreak(a) == Some(i)
    ensures BreakAt(a + b, i) && forall j :: 0 <= j < i ==> !BreakAt(a + b, j)
    ensures (a + b)[..i] == a[..i] && (a + b)[i + 2..] == a[i + 2..] + b
  {
    forall j | 0 <= j < i ensures !BreakAt(a + b, j) {
      assert !BreakAt(a, j);
    }
  }

  /** Framing can be done as the text arrives: cutting what has come and then what
      is left over with the next piece gives the frames of the whole. */
  lemma {:induction false} FramesArrive(a: string, b: string)
    ensures Frames(a + b) == Frames(a) + Frames(Remainder(a) + b)
    ensures Remainder(a + b) == Remainder(Remainder(a) + b)
    decreases |a|
  {
    hide FirstBreak, Frames, Remainder, BreakAt;
    if FirstBreak(a).Some? {
      var i := FirstBreak(a).value;
      BreakStays(a, b, i);
      FramesAtBreak(a, i);
      FramesAtBreak(a + b, i);
      FramesArrive(a[i + 2..], b);
      assert Frames(a + b) == [a[..i]] + (Frames(a[i + 2..]) + Frames(Remainder(a) + b));
    } else {
      NoFrame(a);
    }
  }

  function Concat(chunks: seq<string>): string {
    if chunks == [] then "" else Concat(chunks[..|chunks| - 1]) + chunks[|chunks| - 1]
  }

  /** Lines as `split` on newlines sees them, or as a regular expression does. */
  predicate EndsLine(c: char, regex: bool) {
    if regex then IsLineEnd(c) else c == '\n'
  }

  function Lines(s: string, regex: bool): (lines: seq<string>)
    ensures lines != []
    decreases |s|
  {
    if s == "" then [""]
    else if EndsLine(s[0], regex) then [""] + Lines(s[1..], regex)
    else
      var rest := Lines(s[1..], regex);
      [[s[0]] + rest[0]] + rest[1..]
  }

  /** `split` breaks lines at "\n"; for a regular expression "\r" and the Unicode line and
      paragraph separators break them, too. */
  ghost predicate Breaks(c: char, regex: bool) {
    c == '\n' || (regex && c in {'\r', '\U{2028}', '\U{2029}'})
  }

  /** A line goes on to the first character that breaks it, which belongs to none. */
  lemma {:induction false} LinesSay(line: string, c: char, rest: string, regex: bool)
    requires forall i :: 0 <= i < |line| ==> !Breaks(line[i], regex)
    ensures Lines(line, regex) == [line]
    ensures Breaks(c, regex) ==> Lines(line + [c] + rest, regex) == [line] + Lines(rest, regex)
  {
    var text := line + [c] + rest;
    if line == "" {
      assert text[1..] == rest;
    } else {
      assert text[0] == line[0] && text[1..] == line[1..] + [c] + rest;
      LinesSay(line[1..], c, rest, regex);
      assert [line[0]] + line[1..] == line;
    }
  }

  predicate StartsWith(s: string, prefix: string) {
    |prefix| <= |s| && s[..|prefix|] == prefix
  }

  // ---- the first reader (sse.js) -------------------------------------------

  function EventName(lines: seq<string>): string {
    if lines == [] then "message"
    else
      var last := lines[|lines| - 1];
      if StartsWith(last, "event:") then Trim(last[6..]) else EventName(lines[..|lines| - 1])
  }

  function DataOf(lines: seq<string>): string {
    if lines == [] then ""
    else
      var last := lines[|lines| - 1];
      var before := DataOf(lines[..|lines| - 1]);
      if !StartsWith(last, "event:") && StartsWith(last, "data:") then before + Trim(last[5..]) else before
  }

  function Parsed(chunk: string): Option<SseEvent> {
    var lines := Lines(chunk, false);
    if DataOf(lines) == "" then None else Some(SseEvent(EventName(lines), DataOf(lines)))
  }

  method ParseChunk(chunk: string) returns (r: Option<SseEvent>)
    ensures r == Parsed(chunk)
  {
    var lines := Lines(chunk, false);
    var event, data := "message", "";
    for i := 0 to |lines|
      invariant event == EventName(lines[..i]) && data == DataOf(lines[..i])
    {
      assert lines[..i + 1][..i] == lines[..i];
      var line := lines[i];
      if StartsWith(line, "event:") {
        event := Trim(line[6..]);
      } else if StartsWith(line, "data:") {
        data := data + Trim(line[5..]);
      }
    }
    assert lines[..|lines|] == lines;
    return if data == "" then None else Some(SseEvent(event, data));
  }

  /** The name is on the last line that starts with "event:"; without one it is
      "message". */
  lemma {:induction false} NameSays(lines: seq<string>, i: nat)
    ensures (forall k :: 0 <= k < |lines| ==> !StartsWith(lines[k], "event:")) ==> EventName(lines) == "message"
    ensures i < |lines| && StartsWith(lines[i], "event:") && (forall k :: i < k < |lines| ==> !StartsWith(lines[k], "event:")) ==>
              EventName(lines) == Trim(lines[i][6..])
  {
    hide StartsWith, Trim;
    if lines != [] && i < |lines| - 1 {
      NameSays(lines[..|lines| - 1], i);
    } else if lines != [] {
      NameSays(lines[..|lines| - 1], 0);
    }
  }

  /** The data are those of all lines that start with "data:", one after the other. */
  lemma {:induction false} DataSays(a: seq<string>, b: seq<string>, line: string)
    ensures DataOf(a + b) == DataOf(a) + DataOf(b)
    ensures DataOf([line]) == if |line| >= 5 && line[..5] == "data:" then Trim(line[5..]) else ""
  {
    hide Trim;
    assert "event:"[0] == 'e' && "data:"[0] == 'd';
    if |line| >= 5 && line[..5] == "data:" { assert line[0] == 'd'; }
    assert [line][..0] == [] && "" + Trim(if |line| >= 5 then line[5..] else "") == Trim(if |line| >= 5 then line[5..] else "");
    if b == [] {
      assert a + b == a;
    } else {
      assert (a + b)[..|a + b| - 1] == a + b[..|b| - 1];
      DataSays(a, b[..|b| - 1], line);
    }
  }

  /** A frame without data is no event. */
  lemma ParsedSays(chunk: string)
    ensures var lines := Lines(chunk, false);
            Parsed(chunk) == if DataOf(lines) == "" then None else Some(SseEvent(EventName(lines), DataOf(lines)))
  {
  }

  function ParsedAll(frames: seq<string>): seq<SseEvent> {
    if frames == [] then []
    else
      var rest := ParsedAll(frames[..|frames| - 1]);
      match Parsed(frames[|frames| - 1])
      case None => rest
      case Some(e) => rest + [e]
  }

  lemma {:induction false} ParsedAllStep(frames: seq<string>, more: seq<string>)
    ensures ParsedAll(frames + more) == ParsedAll(frames) + ParsedAll(more)
  {
    if more == [] {
      assert frames + more == frames;
    } else {
      assert (frames + more)[..|frames + more| - 1] == frames + more[..|more| - 1];
      ParsedAllStep(frames, more[..|more| - 1]);
    }
  }

  method StreamSse(chunks: seq<string>) returns (events: seq<SseEvent>)
    ensures events == ParsedAll(Frames(Concat(chunks)))
  {
    hide Parsed, FirstBreak, Frames, Remainder, ParsedAll, Concat;
    events := [];
    var buf := "";
    NothingFramed();
    for c := 0 to |chunks|
      invariant events == ParsedAll(Frames(Concat(chunks[..c]))) && buf == Remainder(Concat(chunks[..c]))
    {
      OneMoreChunk(chunks, c);
      ParsedAllStep(Frames(Concat(chunks[..c])), Frames(buf + chunks[c]));
      buf := buf + chunks[c];
      while FirstBreak(buf).Some?
        invariant events + ParsedAll(Frames(buf)) == ParsedAll(Frames(Concat(chunks[..c + 1])))
        invariant Remainder(buf) == Remainder(Concat(chunks[..c + 1]))
        decreases |buf|
      {
        var idx := FirstBreak(buf).value;
        var chunk := buf[..idx];
        ParseOneFrame(events, buf, idx);
        buf := buf[idx + 2..];
        var event := ParseChunk(chunk);
        if event.Some? { events := events + [event.value]; }
      }
      NoFrame(buf);
      NothingParsed(events);
    }
    assert chunks[..|chunks|] == chunks;
  }

  lemma NothingFramed()
    ensures Concat([]) == "" && Frames("") == [] && Remainder("") == "" && ParsedAll([]) == []
  {
  }

  lemma NothingParsed(events: seq<SseEvent>)
    ensures events + ParsedAll([]) == events
  {
  }

  lemma OneMoreChunk(chunks: seq<string>, c: nat)
    requires c < |chunks|
    ensures var soFar, rest := Concat(chunks[..c]), Remainder(Concat(chunks[..c])) + chunks[c];
            && Frames(Concat(chunks[..c + 1])) == Frames(soFar) + Frames(rest)
            && Remainder(Concat(chunks[..c + 1])) == Remainder(rest)
  {
    hide Frames, Remainder;
    assert chunks[..c + 1][..c] == chunks[..c];
    FramesArrive(Concat(chunks[..c]), chunks[c]);
  }

  /** One frame parsed in the loop is one frame parsed of the whole. */
  lemma ParseOneFrame(events: seq<SseEvent>, buf: string, i: nat)
    requires FirstBreak(buf) == Some(i)
    ensures Remainder(buf) == Remainder(buf[i + 2..])
    ensures var parsed := Parsed(buf[..i]);
            (if parsed.Some? then events + [parsed.value] else events) + ParsedAll(Frames(buf[i + 2..])) ==
            events + ParsedAll(Frames(buf))
  {
    hide FirstBreak, Frames, Remainder, ParsedAll, Parsed;
    FramesAtBreak(buf, i);
    ParsedAllStep([buf[..i]], Frames(buf[i + 2..]));
    ParseSingle(buf[..i]);
  }

  lemma ParseSingle(frame: string)
    ensures ParsedAll([frame]) == if Parsed(frame).Some? then [Parsed(frame).value] else []
  {
    assert [frame][..0] == [];
  }

  // ---- the second reader (devcare/app.js) ----------------------------------

  /** `split` on blank lines: always at least one part. */
  function Split(s: string): seq<string>
    decreases |s|
  {
    match FirstBreak(s)
    case None => [s]
    case Some(i) => [s[..i]] + Split(s[i + 2..])
  }

  lemma {:induction false} SplitIsFrames(s: string)
    ensures Split(s) == Frames(s) + [Remainder(s)]
    decreases |s|
  {
    hide FirstBreak;
    if FirstBreak(s).Some? {
      var i := FirstBreak(s).value;
      SplitIsFrames(s[i + 2..]);
      assert Split(s) == [s[..i]] + (Frames(s[i + 2..]) + [Remainder(s[i + 2..])]);
    }
  }

  /** The first line that is `prefix` and at least one more character. */
  function FirstField(lines: seq<string>, prefix: string): Option<string> {
    if lines == [] then None
    else if StartsWith(lines[0], prefix) && |lines[0]| > |prefix| then Some(lines[0][|prefix|..])
    else FirstField(lines[1..], prefix)
  }

  function Matched(part: string): Option<SseEvent> {
    var ev, data := FirstField(Lines(part, true), "event: "), FirstField(Lines(part, true), "data: ");
    if ev.None? || data.None? then None else Some(SseEvent(ev.value, data.value))
  }

  /** Line `i` is the first that is `prefix` and at least one more character. */
  ghost predicate IsField(lines: seq<string>, prefix: string, i: int) {
    && 0 <= i < |lines| && prefix < lines[i]
    && forall k :: 0 <= k < i ==> !(prefix < lines[k])
  }

  lemma {:induction false} FieldSays(lines: seq<string>, prefix: string, i: int)
    ensures IsField(lines, prefix, i) ==> FirstField(lines, prefix) == Some(lines[i][|prefix|..])
    ensures (forall k :: 0 <= k < |lines| ==> !(prefix < lines[k])) ==> FirstField(lines, prefix) == None
  {
    if lines != [] {
      FieldSays(lines[1..], prefix, i - 1);
      assert forall k :: 0 <= k < |lines| - 1 ==> lines[1..][k] == lines[k + 1];
    }
  }

  /** A part is the event of its first "event: " line with the data of its first "data: "
      line, and none without either. */
  lemma MatchedSays(part: string, i: int, j: int)
    ensures var lines := Lines(part, true);
            && (IsField(lines, "event: ", i) && IsField(lines, "data: ", j) ==> Matched(part) == Some(SseEvent(lines[i][7..], lines[j][6..])))
            && ((forall k :: 0 <= k < |lines| ==> !("event: " < lines[k])) || (forall k :: 0 <= k < |lines| ==> !("data: " < lines[k])) ==>
                  Matched(part) == None)
  {
    FieldSays(Lines(part, true), "event: ", i);
    FieldSays(Lines(part, true), "data: ", j);
  }

  function MatchedAll(parts: seq<string>): seq<SseEvent> {
    if parts == [] then []
    else
      var rest := MatchedAll(parts[..|parts| - 1]);
      match Matched(parts[|parts| - 1])
      case None => rest
      case Some(e) => rest + [e]
  }

  lemma {:induction false} MatchedAllStep(parts: seq<string>, more: seq<string>)
    ensures MatchedAll(parts + more) == MatchedAll(parts) + MatchedAll(more)
  {
    if more == [] {
      assert parts + more == parts;
    } else {
      assert (parts + more)[..|parts + more| - 1] == parts + more[..|more| - 1];
      MatchedAllStep(parts, more[..|more| - 1]);
    }
  }

  method ReadOperations(chunks: seq<string>) returns (events: seq<SseEvent>)
    ensures events == MatchedAll(Frames(Concat(chunks)))
  {
    hide Matched, Frames, Remainder, Split, Concat;
    events := [];
    var buffer := "";
    NothingFramed();
    for c := 0 to |chunks|
      invariant events == MatchedAll(Frames(Concat(chunks[..c]))) && buffer == Remainder(Concat(chunks[..c]))
    {
      OneMoreChunk(chunks, c);
      MatchedAllStep(Frames(Concat(chunks[..c])), Frames(buffer + chunks[c]));
      buffer := buffer + chunks[c];
      SplitIsFrames(buffer);
      var split := Split(buffer);
      var parts := split[..|split| - 1];
      assert parts == Frames(buffer);
      buffer := split[|split| - 1];
      events := MatchParts(events, parts);
    }
    assert chunks[..|chunks|] == chunks;
  }

  method MatchParts(before: seq<SseEvent>, parts: seq<string>) returns (events: seq<SseEvent>)
    ensures events == before + MatchedAll(parts)
  {
    hide Matched;
    events := before;
    for p := 0 to |parts|
      invariant events == before + MatchedAll(parts[..p])
    {
      assert parts[..p + 1][..p] == parts[..p];
      var ev := Matched(parts[p]);
      if ev.Some? { events := events + [ev.value]; }
    }
    assert parts[..|parts|] == parts;
  }

  // ---- what the readers see ------------------------------------------------

  lemma FrameLines(e: SseEvent, regex: bool)
    requires IsWireEvent(e)
    ensures Lines(FrameOf(e), regex) == ["event: " + e.name, "data: " + e.data]
  {
    var a, b := "event: " + e.name, "data: " + e.data;
    assert OneLine(a) && OneLine(b);
    LinesSay(a, '\n', b, regex);
    LinesSay(b, '\n', "", regex);
    assert FrameOf(e) == a + ['\n'] + b;
  }

  lemma TrimField(value: string)
    requires value != "" && IsTrimmed(value)
    ensures Trim(" " + value) == value
  {
    assert (" " + value)[1..] == value;
    assert TrimStart(" " + value) == TrimStart(value) == value;
    assert TrimEnd(value) == value;
  }

  /** Both readers recover the event from its frame. */
  lemma ReadersRecoverEvent(e: SseEvent)
    requires IsWireEvent(e)
    ensures Parsed(FrameOf(e)) == Some(e) && Matched(FrameOf(e)) == Some(e)
  {
    FrameLines(e, false);
    FrameLines(e, true);
    hide Lines;
    var a, b := "event: " + e.name, "data: " + e.data;
    TrimField(e.name);
    TrimField(e.data);
    assert a[..6] == "event:" && a[6..] == " " + e.name && a[..7] == "event: " && a[7..] == e.name;
    assert b[..5] == "data:" && b[5..] == " " + e.data && b[..6] == "data: " && b[6..] == e.data;
    assert b[0] == 'd' && a[0] == 'e';
    assert !StartsWith(b, "event:") && !StartsWith(a, "data: ") by {
      assert "event:"[0] == 'e' && "data: "[0] == 'd';
    }
    var lines: seq<string> := [a, b];
    assert lines[..1] == [a] && lines[..1][..0] == [] && lines[1..] == [b];
    assert DataOf([a]) == "";
    assert DataOf([a, b]) == "" + e.data == e.data;
    assert EventName([a, b]) == EventName([a]) == e.name;
    assert FirstField([a, b], "event: ") == Some(e.name);
    assert FirstField([a, b], "data: ") == FirstField([b], "data: ") == Some(e.data);
  }

  /** Both readers drop a keepalive. */
  lemma ReadersDropKeepalive()
    ensures Parsed(KEEPALIVE_FRAME).None? && Matched(KEEPALIVE_FRAME).None?
  {
    hide Lines, Trim, OneLine;
    KeepaliveIsOneLine();
    LinesSay(KEEPALIVE_FRAME, '\n', "", false);
    LinesSay(KEEPALIVE_FRAME, '\n', "", true);
    var line := KEEPALIVE_FRAME;
    assert line[0] == ':';
    assert !StartsWith(line, "event:") && !StartsWith(line, "data:") && !StartsWith(line, "event: ") by {
      assert "event:"[0] == 'e' && "data:"[0] == 'd' && "event: "[0] == 'e';
    }
    var lines: seq<string> := [line];
    assert lines[..0] == [] && lines[1..] == [];
  }

  lemma KeepaliveIsOneLine()
    ensures OneLine(KEEPALIVE_FRAME)
  {
  }

  ghost predicate IsWire(items: seq<Item>) {
    forall i :: 0 <= i < |items| ==> items[i].Sent? ==> IsWireEvent(items[i].event)
  }

  /** A frame holds no blank line and does not end in a line break. */
  lemma FrameIsSolid(item: Item)
    requires item.Sent? ==> IsWireEvent(item.event)
    ensures forall j :: 0 <= j < |FrameOfItem(item)| ==> !BreakAt(FrameOfItem(item) + BREAK, j)
  {
    var f := FrameOfItem(item);
    match item {
      case Keepalive =>
      case Sent(e) =>
        var a, b := "event: " + e.name, "data: " + e.data;
        assert f == a + "\n" + b;
        assert OneLine(a) && OneLine(b);
        forall j | 0 <= j < |f| ensures !BreakAt(f + BREAK, j) {
          if j < |a| {
            assert f[j] == a[j];
          } else if j == |a| {
            assert f[j + 1] == b[0] == 'd';
          } else {
            assert f[j] == b[j - |a| - 1];
          }
        }
    }
  }

  lemma {:induction false} WireFrames(items: seq<Item>)
    requires IsWire(items)
    ensures Frames(Wire(items)) == seq(|items|, i requires 0 <= i < |items| => FrameOfItem(items[i]))
    ensures Remainder(Wire(items)) == ""
  {
    hide FrameOfItem, IsWireEvent, Frames, Remainder, FirstBreak, BreakAt, Emitted;
    if items == [] {
      NothingFramed();
    } else {
      var f, rest := FrameOfItem(items[0]), Wire(items[1..]);
      FrameStands(items[0], rest);
      FramesAtBreak(f + BREAK + rest, |f|);
      assert (f + BREAK + rest)[..|f|] == f && (f + BREAK + rest)[|f| + 2..] == rest;
      WireFrames(items[1..]);
    }
  }

  lemma FrameStands(item: Item, rest: string)
    requires item.Sent? ==> IsWireEvent(item.event)
    ensures var f := FrameOfItem(item);
            BreakAt(f + BREAK + rest, |f|) && forall j :: 0 <= j < |f| ==> !BreakAt(f + BREAK + rest, j)
  {
    hide FrameOfItem, IsWireEvent;
    var f := FrameOfItem(item);
    FrameIsSolid(item);
    forall j | 0 <= j < |f| ensures !BreakAt(f + BREAK + rest, j) {
      assert !BreakAt(f + BREAK, j);
    }
  }

  lemma {:induction false} ReadersSeeEvents(items: seq<Item>)
    requires IsWire(items)
    ensures ParsedAll(Frames(Wire(items))) == EventsOf(items)
    ensures MatchedAll(Frames(Wire(items))) == EventsOf(items)
  {
    hide Parsed, Matched, IsWireEvent, FrameOfItem, Frames, Wire, ParsedAll, MatchedAll;
    WireFrames(items);
    if items == [] {
      NothingRead();
    } else {
      ReadersSeeEvents(items[1..]);
      WireFrames(items[1..]);
      var first, rest := [FrameOfItem(items[0])], Frames(Wire(items[1..]));
      assert Frames(Wire(items)) == first + rest;
      ParsedAllStep(first, rest);
      MatchedAllStep(first, rest);
      ParseSingle(FrameOfItem(items[0]));
      MatchSingle(FrameOfItem(items[0]));
      ItemIsRead(items[0]);
    }
  }

  lemma NothingRead()
    ensures ParsedAll([]) == [] && MatchedAll([]) == []
  {
  }

  lemma MatchSingle(frame: string)
    ensures MatchedAll([frame]) == if Matched(frame).Some? then [Matched(frame).value] else []
  {
    assert [frame][..0] == [];
  }

  lemma ItemIsRead(item: Item)
    requires item.Sent? ==> IsWireEvent(item.event)
    ensures Parsed(FrameOfItem(item)) == Matched(FrameOfItem(item)) == if item.Sent? then Some(item.event) else None
  {
    if item.Sent? { ReadersRecoverEvent(item.event); } else { ReadersDropKeepalive(); }
  }

  /** Main result: for every sequence of events, every placement of keepalives and
      every way the network cuts the text, both readers deliver exactly the events
      sent, in order. */
  lemma EveryChunkingDeliversEvents(items: seq<Item>, chunks: seq<string>)
    requires IsWire(items) && Concat(chunks) == Wire(items)
    ensures ParsedAll(Frames(Concat(chunks))) == EventsOf(items)
    ensures MatchedAll(Frames(Concat(chunks))) == EventsOf(items)
  {
    ReadersSeeEvents(items);
  }
}
