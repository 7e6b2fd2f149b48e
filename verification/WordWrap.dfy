/** The in-place greedy word wrap of the tool list (list.go). */
module WordWrap {
  import opened Text
  import opened GoSlice

  const LIST_INDENT: string := "     "

  /** The room for words on a line. */
  function Budget(indent: string, width: int): (b: nat)
    ensures b >= 1
  {
    if width - |indent| < 1 then 1 else width - |indent|
  }

  type Line = seq<string>  // the words of a line

  function LineText(line: Line): string { Join(line, " ") }

  /** A line within the budget, or one overlong word on a line of its own. */
  ghost predicate GoodLine(line: Line, budget: nat) {
    && line != []
    && (|LineText(line)| <= budget || (|line| == 1 && |line[0]| > budget))
  }

  function Flatten(lines: seq<Line>): seq<string> {
    if lines == [] then [] else lines[0] + Flatten(lines[1..])
  }

  /** Any order-preserving distribution of the words onto good lines. */
  ghost predicate IsWrap(lines: seq<Line>, words: seq<string>, budget: nat) {
    && Flatten(lines) == words
    && forall i :: 0 <= i < |lines| ==> GoodLine(lines[i], budget)
  }

  /** The lines that filling each line as far as it goes makes of `words`, when `cur` is
      already on the open line. */
  function Greedy(cur: Line, words: seq<string>, budget: nat): (lines: seq<Line>)
    ensures cur != [] ==> lines != [] && |cur| <= |lines[0]| && lines[0][..|cur|] == cur
    decreases |words|
  {
    var flushed := if cur == [] then [] else [cur];
    if words == [] then flushed
    else
      var w := words[0];
      if |w| > budget then flushed + [[w]] + Greedy([], words[1..], budget)
      else if cur == [] then Greedy([w], words[1..], budget)
      else if |LineText(cur)| + 1 + |w| <= budget then Greedy(cur + [w], words[1..], budget)
      else [cur] + Greedy([w], words[1..], budget)
  }

  /** The printed lines; a text without words gives one empty line. */
  function Printed(lines: seq<Line>, indent: string): (out: seq<string>)
    ensures |out| == if lines == [] then 1 else |lines|
  {
    if lines == [] then [indent] else Indented(lines, indent)
  }

  function Indented(lines: seq<Line>, indent: string): (out: seq<string>)
    ensures |out| == |lines|
  {
    seq(|lines|, i requires 0 <= i < |lines| => indent + LineText(lines[i]))
  }

  // ----- the loop over the shared array

  /** The end of the slice in the array that it shares with the text. */
  function End<T>(s: Slice<T>): nat { if s.View? then s.off + s.len else 0 }

  /** The open line lies in the array of the text, entirely before the reading position. */
  ghost predicate Compacted(cur: Slice<char>, runes: array<char>, line: Line, i: nat)
    reads runes
  {
    && i <= runes.Length
    && (cur.View? ==> cur.arr == runes && cur.off + cur.cap == runes.Length && cur.len <= cur.cap)
    && InBounds(cur)
    && Contents(cur) == LineText(line)
    && (cur.View? && cur.len > 0 <==> line != [])
    && End(cur) <= i
  }

  /** Reading `s` from position i on gives the word s[start..end], then the rest. */
  lemma NextWord(s: string, i: nat, start: nat, end: nat)
    requires i <= start < end <= |s|
    requires forall k :: i <= k < start ==> IsSpace(s[k])
    requires forall k :: start <= k < end ==> !IsSpace(s[k])
    requires end == |s| || IsSpace(s[end])
    ensures Words(s[i..]) == [s[start..end]] + Words(s[end..])
  {
    hide IsSpace;
    hide Words;
    var spaces, word, rest := s[i..start], s[start..end], s[end..];
    assert s[start..] == word + rest;
    WordsCons(word, rest);
    assert s[i..] == spaces + s[start..];
    WordsSkipSpaces(spaces, s[start..]);
  }

  lemma OnlySpaces(s: string, from: nat)
    requires from <= |s| && forall k :: from <= k < |s| ==> IsSpace(s[k])
    ensures Words(s[from..]) == [] && Words(s[|s|..]) == []
  {
    WordsSkipSpaces(s[from..], "");
    assert s[from..] + "" == s[from..] && s[|s|..] == "";
  }

  /** The unread part of the array still holds the text. */
  ghost predicate Unread(runes: array<char>, s: string, i: nat)
    reads runes
  {
    i <= |s| <= runes.Length && runes[i..|s|] == s[i..]
  }

  lemma UnreadAt(runes: array<char>, s: string, i: nat, k: nat)
    requires Unread(runes, s, i) && i <= k < |s|
    ensures runes[k] == s[k]
  {
    assert runes[i..|s|][k - i] == s[i..][k - i];
  }

  lemma UnreadFrom(runes: array<char>, s: string, i: nat, k: nat)
    requires Unread(runes, s, i) && i <= k <= |s|
    ensures Unread(runes, s, k) && runes[i..k] == s[i..k]
  {
    var unread := s[i..];
    assert runes[k..|s|] == runes[i..|s|][k - i..];
    assert s[k..] == unread[k - i..];
    assert runes[i..k] == runes[i..|s|][..k - i];
    assert s[i..k] == unread[..k - i];
  }

  method SkipSpaces(runes: array<char>, n: nat, from: nat, ghost s: string) returns (i: nat)
    requires n == |s| && Unread(runes, s, from)
    ensures from <= i <= n && Unread(runes, s, i)
    ensures forall k :: from <= k < i ==> IsSpace(s[k])
    ensures i < n ==> !IsSpace(s[i])
  {
    i := from;
    while i < n && IsSpace(runes[i])
      invariant from <= i <= n
      invariant forall k :: from <= k < i ==> IsSpace(s[k])
    {
      UnreadAt(runes, s, from, i);
      i := i + 1;
    }
    UnreadFrom(runes, s, from, i);
    if i < n {
      UnreadAt(runes, s, i, i);
    }
  }

  method SkipWord(runes: array<char>, n: nat, from: nat, ghost s: string) returns (i: nat)
    requires n == |s| && Unread(runes, s, from)
    ensures from <= i <= n && Unread(runes, s, i) && runes[from..i] == s[from..i]
    ensures forall k :: from <= k < i ==> !IsSpace(s[k])
    ensures i < n ==> IsSpace(s[i])
  {
    i := from;
    while i < n && !IsSpace(runes[i])
      invariant from <= i <= n
      invariant forall k :: from <= k < i ==> !IsSpace(s[k])
    {
      UnreadAt(runes, s, from, i);
      i := i + 1;
    }
    UnreadFrom(runes, s, from, i);
    if i < n {
      UnreadAt(runes, s, i, i);
    }
  }

  /** The two scanning loops: skip spaces, then take the word runes[start..i]; there is no
      further word if start is n. */
  method FindWord(runes: array<char>, n: nat, from: nat, ghost s: string)
    returns (start: nat, i: nat, ghost w: string, ghost rest: seq<string>)
    requires n == |s| && Unread(runes, s, from)
    ensures from <= start <= i <= n && Unread(runes, s, i)
    ensures rest == Words(s[i..]) && (i == n || IsSpace(s[i]))
    ensures start < n ==> start < i && runes[start..i] == w && Words(s[from..]) == [w] + rest
    ensures start == n ==> Words(s[from..]) == rest == []
    ensures from < n && IsSpace(s[from]) ==> from < start
  {
    start := SkipSpaces(runes, n, from, s);
    i := start;
    if i >= n {
      OnlySpaces(s, from);
      w, rest := "", [];
      return;
    }
    i := SkipWord(runes, n, start, s);
    NextWord(s, from, start, i);
    w, rest := s[start..i], Words(s[i..]);
  }

  /** Appends a space and the word to the open line. The array is the one being read, and
      nothing from the end of the word on changes. */
  method Extend(cur: Slice<char>, runes: array<char>, word: Slice<char>, ghost line: Line, ghost w: string, start: nat,
          i: nat)
    returns (r: Slice<char>)
    requires start < i && Compacted(cur, runes, line, start) && line != []
    requires End(cur) < start && i <= runes.Length
    requires word == View(runes, start, i - start, runes.Length - start) && Contents(word) == w
    modifies runes
    ensures Compacted(r, runes, line + [w], i)
    ensures runes[i..] == old(runes[i..])
  {
    r := Append(cur, [' '], 0);
    assert Contents(word) == w;
    r := Append(r, Contents(word), 0);
    JoinAppend(line, " ", w);
  }

  /** What one more word does to the finished lines and the open line. */
  function Placed(done: seq<Line>, line: Line, w: string, budget: nat): (seq<Line>, Line) {
    var flushed := if line == [] then done else done + [line];
    if |w| > budget then (flushed + [[w]], [])
    else if line == [] then (done, [w])
    else if |LineText(line)| + 1 + |w| <= budget then (done, line + [w])
    else (flushed, [w])
  }

  lemma GreedyStep(done: seq<Line>, line: Line, w: string, rest: seq<string>, budget: nat)
    ensures var (done', line') := Placed(done, line, w, budget);
            done' + Greedy(line', rest, budget) == done + Greedy(line, [w] + rest, budget)
  {
    assert ([w] + rest)[1..] == rest;
  }

  lemma IndentedAppend(done: seq<Line>, line: Line, indent: string)
    ensures Indented(done + [line], indent) == Indented(done, indent) + [indent + LineText(line)]
  {
  }

  predicate IsEmpty<T>(s: Slice<T>) { s.Nil? || s.len == 0 }

  /** The body of the loop, once the next word is found. */
  method Place(lines: seq<string>, cur: Slice<char>, runes: array<char>, word: Slice<char>, budget: nat, indent: string,
               ghost done: seq<Line>, ghost line: Line, ghost w: string, start: nat, i: nat)
    returns (lines': seq<string>, cur': Slice<char>)
    requires start < i <= runes.Length && Compacted(cur, runes, line, start)
    requires line != [] ==> End(cur) < start
    requires word == View(runes, start, i - start, runes.Length - start) && Contents(word) == w
    requires lines == Indented(done, indent)
    modifies runes
    ensures var (done', line') := Placed(done, line, w, budget);
            Compacted(cur', runes, line', i) && lines' == Indented(done', indent)
    ensures runes[i..] == old(runes[i..])
  {
    lines', cur' := lines, cur;
    assert LineText([w]) == w;
    if word.len > budget {
      if !IsEmpty(cur) {
        lines' := lines' + [indent + Contents(cur)];
        IndentedAppend(done, line, indent);
        cur' := Nil;
      }
      IndentedAppend(if line == [] then done else done + [line], [w], indent);
      lines' := lines' + [indent + Contents(word)];
      cur' := Nil;
      return;
    }
    if IsEmpty(cur) {
      cur' := word;
    } else if cur.len + 1 + word.len <= budget {
      cur' := Extend(cur, runes, word, line, w, start, i);
    } else {
      lines' := lines + [indent + Contents(cur)];
      IndentedAppend(done, line, indent);
      cur' := word;
    }
  }

  /** The finished lines, the open line and the unread words make up the greedy wrap. */
  ghost predicate OnTheWay(done: seq<Line>, line: Line, words: seq<string>, all: seq<string>, budget: nat) {
    done + Greedy(line, words, budget) == Greedy([], all, budget)
  }

  lemma PlacedOnTheWay(done: seq<Line>, line: Line, w: string, rest: seq<string>, all: seq<string>, budget: nat)
    requires OnTheWay(done, line, [w] + rest, all, budget)
    ensures var (done', line') := Placed(done, line, w, budget); OnTheWay(done', line', rest, all, budget)
  {
    GreedyStep(done, line, w, rest, budget);
  }

  /** The state of the loop: what is printed, what is open, what is still to be read. */
  ghost predicate LoopState(runes: array<char>, s: string, indent: string, lines: seq<string>, cur: Slice<char>, i: nat,
                            done: seq<Line>, line: Line, rest: seq<string>)
    reads runes
  {
    && Unread(runes, s, i)
    && Compacted(cur, runes, line, i)
    && (line != [] ==> i == |s| || IsSpace(s[i]))
    && lines == Indented(done, indent)
    && Words(s[i..]) == rest
  }

  lemma StillUnread(before: seq<char>, after: seq<char>, s: string, n: nat, end: nat)
    requires end <= n == |s| <= |before| == |after|
    requires before[end..] == after[end..] && before[end..n] == s[end..]
    ensures after[end..n] == s[end..]
  {
    assert before[end..n] == before[end..][..n - end];
    assert after[end..n] == after[end..][..n - end];
  }

  /** One iteration of the loop: places the next word, if there is one. */
  method Advance(runes: array<char>, n: nat, budget: nat, indent: string, lines: seq<string>, cur: Slice<char>, i: nat,
                 ghost s: string, ghost done: seq<Line>, ghost line: Line, ghost rest: seq<string>)
    returns (lines': seq<string>, cur': Slice<char>, i': nat, ghost done': seq<Line>, ghost line': Line)
    requires n == |s| && i < n && LoopState(runes, s, indent, lines, cur, i, done, line, rest)
    modifies runes
    ensures i < i'
    ensures LoopState(runes, s, indent, lines', cur', i', done', line', if rest == [] then [] else rest[1..])
    ensures (done', line') == if rest == [] then (done, line) else Placed(done, line, rest[0], budget)
  {
    hide Words;
    hide Placed;
    hide IsSpace;
    hide Indented;
    var start, end;
    ghost var w, rest';
    start, end, w, rest' := FindWord(runes, n, i, s);
    if start >= n {
      return lines, cur, end, done, line;
    }
    var word := SubSlice(View(runes, 0, n, runes.Length), start, end);
    ghost var before := runes[..];
    lines', cur' := Place(lines, cur, runes, word, budget, indent, done, line, w, start, end);
    StillUnread(before, runes[..], s, n, end);
    ghost var placed := Placed(done, line, w, budget);
    i', done', line' := end, placed.0, placed.1;
  }

  /** Compacts words into the very array that it is still reading (with any spare capacity
      behind the text); what it prints is the greedy wrap of the text as it was. */
  method Wrap(s: string, indent: string, width: int, spare: nat) returns (lines: seq<string>)
    ensures lines == Printed(Greedy([], Words(s), Budget(indent, width)), indent)
  {
    var budget, n := Budget(indent, width), |s|;
    var runes := new char[n + spare](k requires 0 <= k < n + spare => if k < n then s[k] else ' ');
    lines := [];
    var cur: Slice<char>, i: nat := Nil, 0;
    ghost var done: seq<Line>, line: Line, rest, all := [], [], Words(s), Words(s);
    assert s[0..] == s && runes[0..n] == s;
    while i < n
      invariant LoopState(runes, s, indent, lines, cur, i, done, line, rest)
      invariant OnTheWay(done, line, rest, all, budget)
      decreases n - i
    {
      if rest != [] {
        assert rest == [rest[0]] + rest[1..];
        PlacedOnTheWay(done, line, rest[0], rest[1..], all, budget);
      }
      lines, cur, i, done, line := Advance(runes, n, budget, indent, lines, cur, i, s, done, line, rest);
      rest := if rest == [] then [] else rest[1..];
    }
    assert s[n..] == "";
    if !IsEmpty(cur) {
      lines := lines + [indent + Contents(cur)];
      IndentedAppend(done, line, indent);
    }
    if |lines| == 0 {
      return [indent];
    }
  }

  // ----- what the greedy wrap promises

  lemma {:induction false} FlattenConcat(a: seq<Line>, b: seq<Line>)
    ensures Flatten(a + b) == Flatten(a) + Flatten(b)
  {
    if a == [] {
      assert a + b == b;
    } else {
      assert (a + b)[1..] == a[1..] + b;
      FlattenConcat(a[1..], b);
    }
  }

  lemma SingleLine(line: Line)
    ensures Flatten([line]) == line
  {
    assert [line][1..] == [];
  }

  lemma ExtendedLine(line: Line, w: string)
    requires line != []
    ensures LineText(line + [w]) == LineText(line) + " " + w
  {
    JoinAppend(line, " ", w);
  }

  /** The greedy wrap is a wrap: every word once, in order, none split, on good lines. */
  lemma {:induction false} GreedyIsWrap(cur: Line, words: seq<string>, budget: nat)
    requires cur != [] ==> |LineText(cur)| <= budget
    ensures IsWrap(Greedy(cur, words, budget), cur + words, budget)
    decreases |words|
  {
    var flushed := if cur == [] then [] else [cur];
    assert IsWrap(flushed, cur, budget) by { SingleLine(cur); }
    if words == [] {
      assert cur + words == cur;
    } else {
      var w, rest := words[0], words[1..];
      assert words == [w] + rest && LineText([w]) == w;
      SingleLine([w]);
      if |w| > budget {
        GreedyIsWrap([], rest, budget);
        WrapConcat(flushed, [[w]], cur, [w], budget);
        WrapConcat(flushed + [[w]], Greedy([], rest, budget), cur + [w], [] + rest, budget);
        assert cur + [w] + ([] + rest) == cur + words;
      } else if cur == [] {
        GreedyIsWrap([w], rest, budget);
        assert cur + words == [w] + rest;
      } else if |LineText(cur)| + 1 + |w| <= budget {
        ExtendedLine(cur, w);
        GreedyIsWrap(cur + [w], rest, budget);
        assert cur + [w] + rest == cur + words;
      } else {
        GreedyIsWrap([w], rest, budget);
        WrapConcat(flushed, Greedy([w], rest, budget), cur, [w] + rest, budget);
      }
    }
  }

  lemma WrapConcat(a: seq<Line>, b: seq<Line>, v: seq<string>, w: seq<string>, budget: nat)
    requires IsWrap(a, v, budget) && IsWrap(b, w, budget)
    ensures IsWrap(a + b, v + w, budget)
  {
    FlattenConcat(a, b);
  }

  /** `lines` continues the open line `open` with the words: the open line is the start of
      the first line. */
  ghost predicate Continues(lines: seq<Line>, open: Line, words: seq<string>, budget: nat) {
    && open != []
    && lines != []
    && |open| <= |lines[0]|
    && lines[0][..|open|] == open
    && IsWrap(lines, open + words, budget)
  }

  /** What is left of a wrap behind its first line. */
  lemma NextLines(lines: seq<Line>, open: Line, words: seq<string>, budget: nat)
    requires Continues(lines, open, words, budget) && words != []
    ensures |lines[0]| == |open| ==>
              lines[0] == open && IsWrap(lines[1..], words, budget)
                  && Continues(lines[1..], [words[0]], words[1..], budget)
    ensures |lines[0]| > |open| ==>
              |words[0]| <= budget && Continues(lines, open + [words[0]], words[1..], budget)
  {
    var w := words[0];
    assert words == [w] + words[1..];
    assert Flatten(lines) == lines[0] + Flatten(lines[1..]);
    if |lines[0]| == |open| {
      assert lines[0] == open;
      assert (open + words)[|open|..] == words;
      assert Flatten(lines[1..]) == words;
      var next := lines[1..];
      assert next != [] && next[0] != [] && next[0] + Flatten(next[1..]) == words;
      assert next[0][0] == w && next[0][..1] == [w];
    } else {
      assert lines[0][|open|] == (open + words)[|open|] == w;
      assert lines[0][..|open| + 1] == open + [w];
      assert open + [w] + words[1..] == open + words;
      LongestWord(lines[0], |open|);
    }
  }

  /** A word of a line is no longer than the line. */
  lemma {:induction false} LongestWord(line: Line, i: nat)
    requires i < |line|
    ensures |line[i]| <= |LineText(line)|
  {
    if i > 0 {
      LongestWord(line[1..], i - 1);
    }
  }

  /** The text of a prefix of a line, and of a suffix, is no longer than the line. */
  lemma {:induction false} PartOfLine(line: Line, n: nat)
    requires n <= |line|
    ensures |LineText(line[..n])| <= |LineText(line)| && |LineText(line[n..])| <= |LineText(line)|
  {
    if n > 0 && |line| > 1 {
      PartOfLine(line[1..], n - 1);
      assert line[1..][..n - 1] == line[..n][1..] && line[1..][n - 1..] == line[n..];
      if n > 1 {
        assert LineText(line[..n]) == line[0] + " " + LineText(line[..n][1..]);
      }
    } else if n > 0 {
      assert line[..n] == line;
    } else {
      assert line[0..] == line;
    }
  }

  /** When the open line of the greedy wrap is a tail of the open line of another wrap,
      the greedy wrap ends with no more lines. */
  lemma {:induction false} StaysAhead(cur: Line, words: seq<string>, lines: seq<Line>, open: Line, budget: nat)
    requires cur != [] && |cur| <= |open| && open[|open| - |cur|..] == cur && |LineText(cur)| <= budget
    requires Continues(lines, open, words, budget)
    ensures |Greedy(cur, words, budget)| <= |lines|
    decreases |words|
  {
    if words != [] {
      var w, rest := words[0], words[1..];
      NextLines(lines, open, words, budget);
      ExtendedLine(cur, w);
      assert LineText([w]) == w;
      if |lines[0]| > |open| {
        var first := lines[0];
        var from := |open| - |cur|;
        assert first[..|open| + 1][from..] == cur + [w] == first[from..][..|cur| + 1];
        PartOfLine(first, from);
        PartOfLine(first[from..], |cur| + 1);
        assert (open + [w])[from..] == cur + [w];
        StaysAhead(cur + [w], rest, lines, open + [w], budget);
      } else {
        StartsFresh(cur, words, lines[1..], budget);
      }
    }
  }

  /** The other wrap begins a new line here: the greedy one is at most one line ahead of
      the words, whatever is on its open line. */
  lemma {:induction false} StartsFresh(cur: Line, words: seq<string>, lines: seq<Line>, budget: nat)
    requires cur != [] && |LineText(cur)| <= budget
    requires words != [] && Continues(lines, [words[0]], words[1..], budget)
    ensures |Greedy(cur, words, budget)| <= 1 + |lines|
    decreases |words|, 0
  {
    var w, rest := words[0], words[1..];
    assert LineText([w]) == w;
    ExtendedLine(cur, w);
    if |w| > budget {
      OverlongAlone(lines, w, rest, budget);
      Optimal(rest, lines[1..], budget);
    } else if |LineText(cur)| + 1 + |w| <= budget {
      OneBehind(cur + [w], rest, lines, [w], budget);
    } else {
      assert [w][|[w]| - |[w]|..] == [w];
      StaysAhead([w], rest, lines, [w], budget);
    }
  }

  /** Whatever is on the open lines, the greedy wrap ends at most one line later. */
  lemma {:induction false} OneBehind(cur: Line, words: seq<string>, lines: seq<Line>, open: Line, budget: nat)
    requires cur != [] && |LineText(cur)| <= budget
    requires Continues(lines, open, words, budget)
    ensures |Greedy(cur, words, budget)| <= 1 + |lines|
    decreases |words|, 1
  {
    if words != [] {
      var w, rest := words[0], words[1..];
      NextLines(lines, open, words, budget);
      assert LineText([w]) == w;
      ExtendedLine(cur, w);
      if |lines[0]| == |open| {
        StartsFresh(cur, words, lines[1..], budget);
      } else if |LineText(cur)| + 1 + |w| <= budget {
        OneBehind(cur + [w], rest, lines, open + [w], budget);
      } else {
        assert (open + [w])[|open + [w]| - 1..] == [w];
        StaysAhead([w], rest, lines, open + [w], budget);
      }
    }
  }

  /** An overlong word fills its line in every wrap. */
  lemma OverlongAlone(lines: seq<Line>, w: string, rest: seq<string>, budget: nat)
    requires Continues(lines, [w], rest, budget) && |w| > budget
    ensures lines[0] == [w] && IsWrap(lines[1..], rest, budget)
  {
    LongestWord(lines[0], 0);
    assert lines[0] == [w];
    assert Flatten(lines) == [w] + Flatten(lines[1..]);
    assert ([w] + rest)[1..] == rest && ([w] + Flatten(lines[1..]))[1..] == Flatten(lines[1..]);
  }

  /** No wrap of the words onto good lines has fewer lines than the greedy one. */
  lemma {:induction false} Optimal(words: seq<string>, lines: seq<Line>, budget: nat)
    requires IsWrap(lines, words, budget)
    ensures |Greedy([], words, budget)| <= |lines|
    decreases |words|, 2
  {
    if words != [] {
      var w, rest := words[0], words[1..];
      assert words == [w] + rest && LineText([w]) == w;
      assert lines[0] + Flatten(lines[1..]) == words && lines[0] != [];
      assert lines[0][..1] == [w];
      assert Continues(lines, [w], rest, budget);
      if |w| > budget {
        OverlongAlone(lines, w, rest, budget);
        Optimal(rest, lines[1..], budget);
      } else {
        assert [w][|[w]| - 1..] == [w];
        StaysAhead([w], rest, lines, [w], budget);
      }
    }
  }

  /** The wrap that the tool list prints: all words in order on good lines, as few lines
      as possible. */
  lemma WrapCorrect(s: string, indent: string, width: int)
    ensures var lines := Greedy([], Words(s), Budget(indent, width));
            && IsWrap(lines, Words(s), Budget(indent, width))
            && (forall other: seq<Line> :: IsWrap(other, Words(s), Budget(indent, width)) ==> |lines| <= |other|)
  {
    var budget := Budget(indent, width);
    GreedyIsWrap([], Words(s), budget);
    assert [] + Words(s) == Words(s);
    forall other: seq<Line> | IsWrap(other, Words(s), budget)
      ensures |Greedy([], Words(s), budget)| <= |other|
    {
      Optimal(Words(s), other, budget);
    }
  }

  /** A printed line keeps within the width, unless it is one word that does not, or the indent
      leaves no room at all. */
  lemma LinesKeepWidth(s: string, indent: string, width: int, i: nat)
    requires i < |Printed(Greedy([], Words(s), Budget(indent, width)), indent)|
    ensures var line := Printed(Greedy([], Words(s), Budget(indent, width)), indent)[i];
            || |line| <= width
            || width <= |indent|
            || (exists w :: w in Words(s) && line == indent + w)
  {
    var budget := Budget(indent, width);
    var lines := Greedy([], Words(s), budget);
    GreedyIsWrap([], Words(s), budget);
    assert [] + Words(s) == Words(s);
    if lines != [] {
      assert GoodLine(lines[i], budget);
      LineWords(lines, i);
      if |lines[i]| == 1 {
        assert LineText(lines[i]) == lines[i][0];
        assert lines[i][0] in Words(s);
      }
    }
  }

  /** A wrap of the words, each line of which keeps within the width or is one word. */
  ghost predicate WrapOfWidth(lines: seq<Line>, words: seq<string>, indent: string, width: int) {
    && Flatten(lines) == words
    && forall i :: 0 <= i < |lines| ==>
         lines[i] != [] && (|lines[i]| == 1 || |indent + LineText(lines[i])| <= width)
  }

  /** Where the indent leaves room, no such wrap has fewer lines than what is printed; the
      empty text is printed as one line that holds the indent. */
  lemma ShortestForWidth(s: string, indent: string, width: int, other: seq<Line>)
    requires |indent| < width && WrapOfWidth(other, Words(s), indent, width)
    ensures var printed := Printed(Greedy([], Words(s), Budget(indent, width)), indent);
            if Words(s) == [] then printed == [indent] else |printed| <= |other|
  {
    forall i | 0 <= i < |other| ensures GoodLine(other[i], Budget(indent, width)) {
    }
    Optimal(Words(s), other, Budget(indent, width));
    if Words(s) != [] {
      GreedyIsWrap([], Words(s), Budget(indent, width));
      assert [] + Words(s) == Words(s);
    }
  }

  /** Each printed line reads back as the words that were put on it. */
  lemma LineReadsBack(s: string, indent: string, width: int, i: nat)
    requires forall k :: 0 <= k < |indent| ==> IsSpace(indent[k])
    requires i < |Greedy([], Words(s), Budget(indent, width))|
    ensures var lines := Greedy([], Words(s), Budget(indent, width));
            Words(Printed(lines, indent)[i]) == lines[i]
  {
    var budget := Budget(indent, width);
    var lines := Greedy([], Words(s), budget);
    GreedyIsWrap([], Words(s), budget);
    assert [] + Words(s) == Words(s);
    WordsAreWords(s);
    LineWords(lines, i);
    WordsOfJoin(lines[i]);
    WordsSkipSpaces(indent, LineText(lines[i]));
  }

  lemma {:induction false} LineWords(lines: seq<Line>, i: nat)
    requires i < |lines|
    ensures forall w :: w in lines[i] ==> w in Flatten(lines)
  {
    if i > 0 {
      LineWords(lines[1..], i - 1);
    }
  }
}
