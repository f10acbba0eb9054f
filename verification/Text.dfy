/** String helpers shared by the chat, bill and streaming models. */
module Text {

  /** Characters `strip` and `trim` remove (the ASCII ones). */
  predicate IsSpace(c: char) {
    c == ' ' || '\t' <= c <= '\r'
  }

  function TrimStart(s: string): string {
    if s != "" && IsSpace(s[0]) then TrimStart(s[1..]) else s
  }

  function TrimEnd(s: string): string {
    if s != "" && IsSpace(s[|s| - 1]) then TrimEnd(s[..|s| - 1]) else s
  }

  function Trim(s: string): string {
    TrimEnd(TrimStart(s))
  }

  /** Nothing to trim on either side. */
  predicate IsTrimmed(s: string) {
    s != "" ==> !IsSpace(s[0]) && !IsSpace(s[|s| - 1])
  }

  // ---- what trimming means -------------------------------------------------

  /** Space, tab, line feed, vertical tab, form feed or carriage return. */
  ghost predicate IsBlank(s: string) {
    forall i :: 0 <= i < |s| ==> s[i] in {' ', '\t', '\n', '\U{0B}', '\U{0C}', '\r'}
  }

  lemma SpacesAre(c: char)
    ensures IsSpace(c) <==> c in {' ', '\t', '\n', '\U{0B}', '\U{0C}', '\r'}
  {
  }

  lemma {:induction false} TrimStartOf(blank: string, s: string)
    requires IsBlank(blank) && (s == "" || !IsSpace(s[0]))
    ensures TrimStart(blank + s) == s
  {
    if blank == "" {
      assert blank + s == s;
    } else {
      SpacesAre(blank[0]);
      TrimStartOf(blank[1..], s);
      assert (blank + s)[0] == blank[0] && (blank + s)[1..] == blank[1..] + s;
    }
  }

  lemma {:induction false} TrimEndOf(s: string, blank: string)
    requires IsBlank(blank) && (s == "" || !IsSpace(s[|s| - 1]))
    ensures TrimEnd(s + blank) == s
  {
    if blank == "" {
      assert s + blank == s;
    } else {
      var n := |blank| - 1;
      SpacesAre(blank[n]);
      TrimEndOf(s, blank[..n]);
      assert (s + blank)[..|s + blank| - 1] == s + blank[..n] && (s + blank)[|s + blank| - 1] == blank[n];
    }
  }

  /** Trimming takes off exactly what is blank on either side. */
  lemma TrimOf(before: string, s: string, after: string)
    requires IsBlank(before) && IsBlank(after) && IsTrimmed(s)
    ensures Trim(before + s + after) == s
  {
    if s == "" {
      assert IsBlank(before + after) && before + s + after == before + after;
      TrimStartOf(before + after, "");
      assert before + after + "" == before + after;
    } else {
      TrimStartOf(before, s + after);
      assert before + s + after == before + (s + after);
      TrimEndOf(s, after);
    }
  }

  lemma {:induction false} TrimStartLeaves(s: string) returns (i: nat)
    ensures i <= |s| && IsBlank(s[..i]) && TrimStart(s) == s[i..] && (i < |s| ==> !IsSpace(s[i]))
  {
    i := 0;
    if s != "" && IsSpace(s[0]) {
      SpacesAre(s[0]);
      i := TrimStartLeaves(s[1..]);
      i := i + 1;
      assert s[..i] == [s[0]] + s[1..][..i - 1] && s[i..] == s[1..][i - 1..];
    }
  }

  lemma {:induction false} TrimEndLeaves(s: string) returns (j: nat)
    ensures j <= |s| && IsBlank(s[j..]) && TrimEnd(s) == s[..j] && (0 < j ==> !IsSpace(s[j - 1]))
  {
    j := |s|;
    if s != "" && IsSpace(s[|s| - 1]) {
      SpacesAre(s[|s| - 1]);
      j := TrimEndLeaves(s[..|s| - 1]);
      assert s[j..] == s[..|s| - 1][j..] + [s[|s| - 1]] && s[..j] == s[..|s| - 1][..j];
    } else {
      assert s[..|s|] == s;
    }
  }

  /** Every string is what trimming leaves of it, between blanks. */
  lemma TrimLeaves(s: string) returns (i: nat, j: nat)
    ensures i <= j <= |s| && IsBlank(s[..i]) && IsBlank(s[j..]) && Trim(s) == s[i..j] && IsTrimmed(s[i..j])
  {
    i := TrimStartLeaves(s);
    j := TrimEndLeaves(s[i..]);
    if j > 0 { assert s[i..][j - 1] == s[i + j - 1]; }
    assert s[i..][..j] == s[i..i + j] && s[i..][j..] == s[i + j..];
    j := i + j;
  }

  lemma BlankTrims(s: string)
    ensures Trim(s) == "" <==> IsBlank(s)
  {
    var i, j := TrimLeaves(s);
    if Trim(s) == "" { assert s == s[..i] + s[j..]; }
    if IsBlank(s) {
      assert s + "" + "" == s;
      TrimOf(s, "", "");
    }
  }
}
