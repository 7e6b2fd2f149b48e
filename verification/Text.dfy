/** The string functions of Go's standard library that the modelled code calls, over
    Unicode code points. */
module Text {
  import opened Results
  import Utf8

  /** The ranges of unicode.White_Space. */
  const WHITE_SPACE: seq<(int, int)> :=
    [(0x09, 0x0D), (0x20, 0x20), (0x85, 0x85), (0xA0, 0xA0), (0x1680, 0x1680),
     (0x2000, 0x200A), (0x2028, 0x2029), (0x202F, 0x202F), (0x205F, 0x205F), (0x3000, 0x3000)]

  /** unicode.IsSpace. */
  predicate IsSpace(c: char) {
    exists i :: 0 <= i < |WHITE_SPACE| && WHITE_SPACE[i].0 <= c as int <= WHITE_SPACE[i].1
  }

  lemma AsciiSpace(c: char)
    requires c as int < 0x80
    ensures IsSpace(c) <==> (0x09 <= c as int <= 0x0D || c == ' ')
  {
    assert WHITE_SPACE[0] == (0x09, 0x0D) && WHITE_SPACE[1] == (0x20, 0x20);
  }

  lemma SpaceIsSpace()
    ensures IsSpace(' ')
  {
    AsciiSpace(' ');
  }

  // ----- strings.TrimSpace

  function TrimLeft(s: string): (t: string)
    ensures t != [] ==> !IsSpace(t[0])
    ensures |t| <= |s| && t == s[|s| - |t|..]
  {
    if s != [] && IsSpace(s[0]) then TrimLeft(s[1..]) else s
  }

  function TrimRight(s: string): (t: string)
    ensures t != [] ==> !IsSpace(t[|t| - 1])
    ensures |t| <= |s| && t == s[..|t|]
  {
    if s != [] && IsSpace(s[|s| - 1]) then TrimRight(s[..|s| - 1]) else s
  }

  function TrimSpace(s: string): string { TrimRight(TrimLeft(s)) }

  /** A text that strings.TrimSpace leaves alone. */
  predicate Trimmed(s: string) {
    s != [] ==> !IsSpace(s[0]) && !IsSpace(s[|s| - 1])
  }

  // ----- strings.Fields

  /** The length of the run of non-space characters that `s` starts with. */
  function WordLen(s: string): (n: nat)
    ensures n <= |s|
    ensures forall k :: 0 <= k < n ==> !IsSpace(s[k])
    ensures n < |s| ==> IsSpace(s[n])
  {
    if s == [] || IsSpace(s[0]) then 0 else 1 + WordLen(s[1..])
  }

  /** strings.Fields: the maximal runs of non-space characters, in order. */
  function Words(s: string): seq<string>
    decreases |s|
  {
    if s == [] then []
    else if IsSpace(s[0]) then Words(s[1..])
    else [s[..WordLen(s)]] + Words(s[WordLen(s)..])
  }

  ghost predicate IsWord(w: string) {
    w != [] && forall k :: 0 <= k < |w| ==> !IsSpace(w[k])
  }

  lemma {:induction false} WordsAreWords(s: string)
    ensures forall w :: w in Words(s) ==> IsWord(w)
    decreases |s|
  {
    if s == [] {
    } else if IsSpace(s[0]) {
      WordsAreWords(s[1..]);
    } else {
      WordsAreWords(s[WordLen(s)..]);
    }
  }

  lemma {:induction false} WordsSkipSpaces(s: string, t: string)
    requires forall k :: 0 <= k < |s| ==> IsSpace(s[k])
    ensures Words(s + t) == Words(t)
  {
    if s == [] {
      assert s + t == t;
    } else {
      assert (s + t)[1..] == s[1..] + t;
      WordsSkipSpaces(s[1..], t);
    }
  }

  lemma {:induction false} WordLenOf(w: string, t: string)
    requires forall k :: 0 <= k < |w| ==> !IsSpace(w[k])
    requires t == [] || IsSpace(t[0])
    ensures WordLen(w + t) == |w|
  {
    if w == [] {
      assert w + t == t;
    } else {
      assert (w + t)[1..] == w[1..] + t;
      WordLenOf(w[1..], t);
    }
  }

  lemma WordsCons(w: string, t: string)
    requires IsWord(w)
    requires t == [] || IsSpace(t[0])
    ensures Words(w + t) == [w] + Words(t)
  {
    WordLenOf(w, t);
    assert (w + t)[..|w|] == w && (w + t)[|w|..] == t;
    assert (w + t)[0] == w[0];
  }

  // ----- strings.Join

  function Join(parts: seq<string>, sep: string): string {
    if parts == [] then ""
    else if |parts| == 1 then parts[0]
    else parts[0] + sep + Join(parts[1..], sep)
  }

  lemma {:induction false} JoinAppend(parts: seq<string>, sep: string, last: string)
    requires parts != []
    ensures Join(parts + [last], sep) == Join(parts, sep) + sep + last
  {
    if |parts| > 1 {
      assert (parts + [last])[1..] == parts[1..] + [last];
      JoinAppend(parts[1..], sep, last);
    } else {
      assert (parts + [last])[1..] == [last];
    }
  }

  lemma JoinThree(a: string, b: string, c: string)
    ensures Join([a, b, c], " ") == a + " " + b + " " + c
  {
    assert [a, b, c][1..] == [b, c] && [b, c][1..] == [c];
    assert Join([b, c], " ") == b + " " + c;
    assert a + " " + (b + " " + c) == a + " " + b + " " + c;
  }

  /** Words joined by single spaces read back as the same words. */
  lemma {:induction false} WordsOfJoin(ws: seq<string>)
    requires forall w :: w in ws ==> IsWord(w)
    ensures Words(Join(ws, " ")) == ws
  {
    hide IsSpace;
    if |ws| == 1 {
      WordsCons(ws[0], "");
      assert ws[0] + "" == ws[0];
      assert Words("") == [];
    } else if |ws| > 1 {
      var rest := Join(ws[1..], " ");
      WordsOfJoin(ws[1..]);
      SpaceIsSpace();
      WordsCons(ws[0], " " + rest);
      WordsSkipSpaces(" ", rest);
      assert ws[0] + " " + rest == ws[0] + (" " + rest);
      assert ws == [ws[0]] + ws[1..];
    }
  }

  // ----- strings.Cut, strings.Index, strings.LastIndex

  predicate OccursAt(s: string, t: string, i: nat) {
    i + |t| <= |s| && s[i..i + |t|] == t
  }

  /** One differing character rules an occurrence out. */
  lemma NotAt(s: string, t: string, i: nat, k: nat)
    requires k < |t| && (i + k < |s| ==> s[i + k] != t[k])
    ensures !OccursAt(s, t, i)
  {
    if i + |t| <= |s| {
      assert s[i..i + |t|][k] == s[i + k];
    }
  }

  predicate Contains(s: string, t: string) {
    exists i :: 0 <= i <= |s| && OccursAt(s, t, i)
  }

  /** The first position at or after `from` where `t` occurs. */
  function IndexFrom(s: string, t: string, from: nat): (r: Option<nat>)
    requires from <= |s|
    ensures r.Some? ==> from <= r.value && OccursAt(s, t, r.value) && forall j :: from <= j < r.value ==>
            !OccursAt(s, t, j)
    ensures r.None? ==> forall j :: from <= j <= |s| ==> !OccursAt(s, t, j)
    decreases |s| - from
  {
    if OccursAt(s, t, from) then Some(from)
    else if from == |s| then None
    else IndexFrom(s, t, from + 1)
  }

  function Index(s: string, t: string): (r: Option<nat>)
    ensures r.Some? ==> OccursAt(s, t, r.value) && forall j :: 0 <= j < r.value ==> !OccursAt(s, t, j)
    ensures r.None? <==> !Contains(s, t)
  {
    IndexFrom(s, t, 0)
  }

  /** What follows the first occurrence of `t`. */
  function CutAfter(s: string, t: string): Option<string> {
    match Index(s, t)
    case None => None
    case Some(i) => Some(s[i + |t|..])
  }

  lemma IndexIs(s: string, t: string, i: nat)
    requires t != [] && OccursAt(s, t, i)
    requires forall j :: 0 <= j < i && j < |s| ==> s[j] != t[0]
    ensures Index(s, t) == Some(i) && CutAfter(s, t) == Some(s[i + |t|..])
  {
    forall j | 0 <= j < i ensures !OccursAt(s, t, j) {
      NotAt(s, t, j, 0);
    }
  }

  function FirstIndexOf(s: string, c: char): (r: Option<nat>)
    ensures r.Some? ==> r.value < |s| && s[r.value] == c && forall j :: 0 <= j < r.value ==> s[j] != c
    ensures r.None? <==> c !in s
  {
    if s == [] then None
    else if s[0] == c then Some(0)
    else
      match FirstIndexOf(s[1..], c)
      case None => None
      case Some(i) => Some(i + 1)
  }

  function LastIndexOf(s: string, c: char): (r: Option<nat>)
    ensures r.Some? ==> r.value < |s| && s[r.value] == c && forall j :: r.value < j < |s| ==> s[j] != c
    ensures r.None? <==> c !in s
  {
    if s == [] then None
    else if s[|s| - 1] == c then Some(|s| - 1)
    else LastIndexOf(s[..|s| - 1], c)
  }

  lemma TrimSpaceOf(s: string)
    requires Trimmed(s)
    ensures TrimSpace(s) == s && TrimSpace(" " + s) == s
  {
    hide IsSpace;
    SpaceIsSpace();
    assert TrimLeft(s) == s && TrimRight(s) == s;
    assert (" " + s)[1..] == s;
  }

  /** Only trimmed texts come out of strings.TrimSpace. */
  lemma TrimSpaceTrims(s: string)
    ensures Trimmed(TrimSpace(s))
  {
    var t := TrimLeft(s);
    var u := TrimRight(t);
    if u != [] {
      assert u[0] == t[0];
    }
  }

  // ----- lines

  /** The lines of a text that ends each of them. */
  function Lines(lines: seq<string>): string {
    if lines == [] then "" else lines[0] + "\n" + Lines(lines[1..])
  }

  lemma {:induction false} LinesAppend(lines: seq<string>, last: string)
    ensures Lines(lines + [last]) == Lines(lines) + last + "\n"
  {
    if lines == [] {
      assert [last][1..] == [];
      assert last + "\n" + "" == "" + last + "\n";
    } else {
      assert (lines + [last])[1..] == lines[1..] + [last];
      LinesAppend(lines[1..], last);
    }
  }

  /** The line without a carriage return at its end. */
  function WithoutCr(line: string): string {
    if line != "" && line[|line| - 1] == '\r' then line[..|line| - 1] else line
  }

  /** The scanner's buffer, in bytes. */
  const SCAN_BUFFER: nat := 65536

  /** The line fits in the buffer, and so does the line break that must be seen behind it. */
  predicate InBuffer(line: string) { |Utf8.EncodeText(line)| < SCAN_BUFFER }

  /** The lines that bufio.Scanner delivers; a line that does not fit ends the scan. */
  function ScanLines(text: string): seq<string>
    decreases |text|
  {
    if text == "" then []
    else
      match FirstIndexOf(text, '\n')
      case None => if InBuffer(text) then [WithoutCr(text)] else []
      case Some(k) => if InBuffer(text[..k]) then [WithoutCr(text[..k])] + ScanLines(text[k + 1..]) else []
  }

  /** Some line does not fit. */
  predicate ScanAborts(text: string)
    decreases |text|
  {
    text != "" &&
    match FirstIndexOf(text, '\n')
    case None => !InBuffer(text)
    case Some(k) => !InBuffer(text[..k]) || ScanAborts(text[k + 1..])
  }

  predicate OneLine(s: string) { '\n' !in s }

  /** A text of whole lines. */
  predicate EndsLine(text: string) { text == "" || text[|text| - 1] == '\n' }

  lemma {:induction false} ScannedAreLines(text: string, i: nat)
    requires i < |ScanLines(text)|
    ensures OneLine(ScanLines(text)[i])
    decreases |text|
  {
    hide InBuffer;
    match FirstIndexOf(text, '\n')
    case None =>
    case Some(k) =>
      if i > 0 {
        ScannedAreLines(text[k + 1..], i - 1);
      }
  }

  lemma FirstBreak(line: string, rest: string)
    requires OneLine(line)
    ensures var text := line + "\n" + rest;
            FirstIndexOf(text, '\n') == Some(|line|) && text[..|line|] == line && text[|line| + 1..] == rest
  {
    var text := line + "\n" + rest;
    assert text[|line|] == '\n' && forall j :: 0 <= j < |line| ==> text[j] == line[j];
  }

  lemma ScansOne(line: string, rest: string)
    requires OneLine(line)
    ensures ScanLines(line + "\n" + rest) == if InBuffer(line) then [WithoutCr(line)] + ScanLines(rest) else []
    ensures ScanAborts(line + "\n" + rest) <==> !InBuffer(line) || ScanAborts(rest)
  {
    hide InBuffer;
    hide WithoutCr;
    FirstBreak(line, rest);
    assert line + "\n" + rest != "";
  }

  lemma FirstLine(text: string) returns (line: string, tail: string)
    requires EndsLine(text) && text != ""
    ensures text == line + "\n" + tail && OneLine(line) && EndsLine(tail)
  {
    var k := FirstIndexOf(text, '\n').value;
    line, tail := text[..k], text[k + 1..];
  }

  lemma NothingScanned()
    ensures ScanLines("") == []
  {
  }

  lemma ScansBehindLine(line: string, tail: string, rest: string)
    requires OneLine(line) && InBuffer(line) && ScanLines(tail + rest) == ScanLines(tail) + ScanLines(rest)
    ensures ScanLines(line + "\n" + tail + rest) == ScanLines(line + "\n" + tail) + ScanLines(rest)
  {
    hide *;
    ScansOne(line, tail);
    ScansOne(line, tail + rest);
    assert line + "\n" + tail + rest == line + "\n" + (tail + rest);
  }

  /** What follows whole lines is scanned as if it stood alone, unless the scan ends before. */
  lemma {:induction false} ScansBehind(text: string, rest: string)
    requires EndsLine(text) && !ScanAborts(text)
    ensures ScanLines(text + rest) == ScanLines(text) + ScanLines(rest)
    decreases |text|
  {
    hide *;
    if text == "" {
      NothingScanned();
      assert "" + rest == rest && [] + ScanLines(rest) == ScanLines(rest);
    } else {
      var line, tail := FirstLine(text);
      assert |tail| < |text|;
      ScansOne(line, tail);
      ScansBehind(tail, rest);
      ScansBehindLine(line, tail, rest);
    }
  }

  lemma LinesStart(lines: seq<string>, rest: string)
    requires lines != []
    ensures Lines(lines) + rest == lines[0] + "\n" + (Lines(lines[1..]) + rest)
  {
    Associate(lines[0] + "\n", Lines(lines[1..]), rest);
  }

  lemma Associate(a: string, b: string, c: string)
    ensures a + b + c == a + (b + c)
  {
  }

  /** Lines that are written out and fit are scanned as they are. */
  lemma {:induction false} ScansLines(lines: seq<string>, rest: string)
    requires forall i :: 0 <= i < |lines| ==>
               OneLine(lines[i]) && WithoutCr(lines[i]) == lines[i] && InBuffer(lines[i])
    ensures ScanLines(Lines(lines) + rest) == lines + ScanLines(rest)
  {
    hide *;
    if lines == [] {
      NoLines(rest);
      assert lines + ScanLines(rest) == ScanLines(rest);
    } else {
      ScansLines(lines[1..], rest);
      LinesStart(lines, rest);
      ScansOne(lines[0], Lines(lines[1..]) + rest);
      Regroup(lines, ScanLines(rest));
    }
  }

  lemma NoLines(rest: string)
    ensures Lines([]) + rest == rest
  {
  }

  lemma Regroup(lines: seq<string>, more: seq<string>)
    requires lines != []
    ensures [lines[0]] + (lines[1..] + more) == lines + more
  {
  }

  lemma {:induction false} LinesConcat(a: seq<string>, b: seq<string>)
    ensures Lines(a + b) == Lines(a) + Lines(b)
  {
    if a == [] {
      assert a + b == b;
    } else {
      assert (a + b)[1..] == a[1..] + b;
      LinesConcat(a[1..], b);
      assert a[0] + "\n" + (Lines(a[1..]) + Lines(b)) == Lines(a) + Lines(b);
    }
  }

  /** Of lines that are written out, only those before the first that does not fit are
      scanned. */
  lemma ScansUntil(lines: seq<string>, i: nat, rest: string)
    requires i < |lines| && OneLine(lines[i]) && !InBuffer(lines[i])
    requires forall j :: 0 <= j < i ==> OneLine(lines[j]) && WithoutCr(lines[j]) == lines[j] && InBuffer(lines[j])
    ensures ScanLines(Lines(lines) + rest) == lines[..i]
  {
    hide ScanLines;
    hide OneLine;
    hide WithoutCr;
    hide InBuffer;
    var tail := lines[i..];
    LinesConcat(lines[..i], tail);
    assert lines == lines[..i] + tail && tail[0] == lines[i];
    ScansLines(lines[..i], Lines(tail) + rest);
    assert Lines(lines) + rest == Lines(lines[..i]) + (Lines(tail) + rest);
    ScansOne(lines[i], Lines(tail[1..]) + rest);
    assert Lines(tail) + rest == lines[i] + "\n" + (Lines(tail[1..]) + rest);
  }

  lemma {:induction false} ShortFits(s: string)
    ensures |Utf8.EncodeText(s)| <= 4 * |s|
  {
    if s != "" {
      ShortFits(s[1..]);
    }
  }

  lemma TrimSpaceChars(s: string, c: char)
    requires c !in s
    ensures c !in TrimSpace(s)
  {
    hide IsSpace;
  }

  // ----- what trimming and scanning leave

  predicate AllSpaces(s: string) { forall k :: 0 <= k < |s| ==> IsSpace(s[k]) }

  lemma {:induction false} TrimLeftFrom(s: string) returns (n: nat)
    ensures n <= |s| && TrimLeft(s) == s[n..] && forall k :: 0 <= k < n ==> IsSpace(s[k])
  {
    hide IsSpace;
    if s != "" && IsSpace(s[0]) {
      var m := TrimLeftFrom(s[1..]);
      n := m + 1;
      assert s[1..][m..] == s[n..];
      assert forall k :: 0 < k < n ==> s[k] == s[1..][k - 1];
    } else {
      n := 0;
    }
  }

  lemma TrimLeftIs(s: string) returns (before: string)
    ensures s == before + TrimLeft(s) && AllSpaces(before)
  {
    hide IsSpace;
    hide TrimLeft;
    var n := TrimLeftFrom(s);
    before := s[..n];
  }

  lemma {:induction false} TrimRightIs(s: string) returns (behind: string)
    ensures s == TrimRight(s) + behind && AllSpaces(behind)
  {
    hide IsSpace;
    if s != "" && IsSpace(s[|s| - 1]) {
      behind := TrimRightIs(s[..|s| - 1]);
      behind := behind + [s[|s| - 1]];
    } else {
      behind := "";
    }
  }

  /** Trimming removes white space at both ends, and all of it. */
  lemma TrimSpaceIs(s: string) returns (before: string, behind: string)
    ensures s == before + TrimSpace(s) + behind && AllSpaces(before) && AllSpaces(behind) && Trimmed(TrimSpace(s))
  {
    hide TrimLeft;
    hide TrimRight;
    hide AllSpaces;
    hide Trimmed;
    before := TrimLeftIs(s);
    behind := TrimRightIs(TrimLeft(s));
    TrimSpaceTrims(s);
    Associate(before, TrimRight(TrimLeft(s)), behind);
  }

  lemma {:induction false} TrimLeftOf(before: string, t: string)
    requires AllSpaces(before) && (t != "" ==> !IsSpace(t[0]))
    ensures TrimLeft(before + t) == t
  {
    hide IsSpace;
    if before == "" {
      assert before + t == t;
    } else {
      assert (before + t)[1..] == before[1..] + t;
      TrimLeftOf(before[1..], t);
    }
  }

  lemma {:induction false} TrimRightOf(t: string, behind: string)
    requires AllSpaces(behind) && (t != "" ==> !IsSpace(t[|t| - 1]))
    ensures TrimRight(t + behind) == t
    decreases |behind|
  {
    hide IsSpace;
    if behind == "" {
      assert t + behind == t;
    } else {
      var front := behind[..|behind| - 1];
      assert (t + behind)[..|t + behind| - 1] == t + front;
      TrimRightOf(t, front);
    }
  }

  lemma TrimSpaceBetween(before: string, t: string, behind: string)
    requires AllSpaces(before) && AllSpaces(behind) && Trimmed(t)
    ensures TrimSpace(before + t + behind) == t
  {
    if t == "" {
      assert before + t + behind == before + behind + "";
      hide IsSpace;
      TrimLeftOf(before + behind, "");
      assert TrimLeft(before + behind) == "" by {
        assert before + behind + "" == before + behind;
      }
    } else {
      hide IsSpace;
      assert before + t + behind == before + (t + behind);
      TrimLeftOf(before, t + behind);
      TrimRightOf(t, behind);
    }
  }

  /** A line that ends in a carriage return and a line feed is scanned without either. */
  lemma ScansCrLf(line: string, rest: string)
    requires OneLine(line) && InBuffer(line + "\r")
    ensures ScanLines(line + "\r\n" + rest) == [line] + ScanLines(rest)
  {
    CrDropped(line);
    CrLfIs(line);
    ScansOne(line + "\r", rest);
    hide *;
  }

  lemma CrDropped(line: string)
    requires OneLine(line)
    ensures OneLine(line + "\r") && WithoutCr(line + "\r") == line
  {
    assert (line + "\r")[..|line|] == line;
  }

  lemma CrLfIs(line: string)
    ensures line + "\r\n" == line + "\r" + "\n"
  {
    Associate(line, "\r", "\n");
    assert "\r\n" == "\r" + "\n";
  }

  lemma {:induction false} WordsEndSpaces(t: string, behind: string)
    requires AllSpaces(behind)
    ensures Words(t + behind) == Words(t)
    decreases |t|
  {
    hide IsSpace;
    if t == "" {
      WordsSkipSpaces(behind, "");
      assert t + behind == behind + "";
    } else if IsSpace(t[0]) {
      assert (t + behind)[1..] == t[1..] + behind;
      WordsEndSpaces(t[1..], behind);
    } else {
      var n := WordLen(t);
      var w, rest := t[..n], t[n..];
      assert t == w + rest && t + behind == w + (rest + behind);
      WordsCons(w, rest);
      WordsCons(w, rest + behind);
      WordsEndSpaces(rest, behind);
    }
  }

  /** Trimming leaves the words as they are. */
  lemma WordsOfTrimmed(s: string)
    ensures Words(TrimSpace(s)) == Words(s)
  {
    hide IsSpace;
    hide Words;
    hide TrimSpace;
    var before, behind := TrimSpaceIs(s);
    var t := TrimSpace(s);
    Associate(before, t, behind);
    WordsSkipSpaces(before, t + behind);
    WordsEndSpaces(t, behind);
  }
}
