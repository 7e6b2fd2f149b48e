/** What the text that a client receives looks like, and reading the two streams back from it
    (execute.go). */
module CaptureFraming {
  import opened Results
  import opened Utf8
  import opened Capture

  // ----- the literal text

  /** The stream on lines of its own: nothing is added to one that ends its last line. */
  function Terminated(s: seq<byte>): (t: seq<byte>)
    requires s != []
    ensures t == s || t == s + [10]
    ensures t[|t| - 1] == 10
  {
    if s[|s| - 1] == 10 then s else s + [10]
  }

  lemma StdoutLiteral(stdout: seq<byte>)
    requires stdout != []
    ensures StdoutBlock(stdout) == Ascii("<stdout>\n") + Terminated(stdout) + Ascii("</stdout>")
  {
    assert stdout + [] == stdout;
  }

  lemma StderrLiteral(stderr: seq<byte>)
    requires stderr != []
    ensures StderrBlock(stderr) == Ascii("<stderr>\n") + Terminated(stderr) + Ascii("</stderr>")
  {
    assert stderr + [] == stderr;
  }

  /** The framed text in full: each stream that has any bytes stands between its own tags, each
      tag and each stream begins a line, and stdout comes first. */
  lemma FramedLiteral(stdout: seq<byte>, stderr: seq<byte>)
    ensures Framed([], []) == []
    ensures stdout != [] ==>
            Framed(stdout, []) == Ascii("<stdout>\n") + Terminated(stdout) + Ascii("</stdout>")
    ensures stderr != [] ==>
            Framed([], stderr) == Ascii("<stderr>\n") + Terminated(stderr) + Ascii("</stderr>")
    ensures stdout != [] && stderr != [] ==>
            Framed(stdout, stderr) == Framed(stdout, []) + Ascii("\n") + Framed([], stderr)
  {
    if stdout != [] {
      StdoutLiteral(stdout);
    }
    if stderr != [] {
      StderrLiteral(stderr);
    }
    hide StdoutBlock;
    hide StderrBlock;
    hide Terminated;
    EmptyBlocks();
    var o, e := StdoutBlock(stdout), StderrBlock(stderr);
    assert o + [] + [] == o;
    assert [] + [] + e == e;
    assert Ascii("\n") == [10];
  }

  lemma EmptyBlocks()
    ensures StdoutBlock([]) == [] && StderrBlock([]) == []
  {
  }

  /** A last line is framed alike, whether or not it ends in a line break. */
  lemma LineBreakMakesNoDifference(line: seq<byte>, other: seq<byte>)
    requires line != [] && line[|line| - 1] != 10
    ensures Framed(line, other) == Framed(line + [10], other) && Framed(other, line) == Framed(other, line + [10])
  {
    StdoutLiteral(line);
    StdoutLiteral(line + [10]);
    StderrLiteral(line);
    StderrLiteral(line + [10]);
    assert Terminated(line) == line + [10] == Terminated(line + [10]);
    hide StdoutBlock;
    hide StderrBlock;
    hide Terminated;
  }

  // ----- reading the streams back

  const STDOUT_TAG: seq<byte> := Ascii("<stdout>")
  const STDOUT_END: seq<byte> := Ascii("</stdout>")
  const STDERR_TAG: seq<byte> := Ascii("<stderr>")
  const STDERR_END: seq<byte> := Ascii("</stderr>")

  predicate OccursAt(s: seq<byte>, t: seq<byte>, i: nat) { i + |t| <= |s| && s[i..i + |t|] == t }

  /** The first place at or behind `from` at which t occurs. */
  function FindFrom(s: seq<byte>, t: seq<byte>, from: nat): (r: Option<nat>)
    ensures r.Some? ==> from <= r.value && OccursAt(s, t, r.value)
    ensures r.Some? ==> forall i :: from <= i < r.value ==> !OccursAt(s, t, i)
    ensures r.None? ==> forall i :: from <= i ==> !OccursAt(s, t, i)
    decreases |s| - from
  {
    if from + |t| > |s| then None
    else if OccursAt(s, t, from) then Some(from)
    else FindFrom(s, t, from + 1)
  }

  /** What stands between an opening tag and the closing tag that follows it. */
  function Section(text: seq<byte>, open: seq<byte>, close: seq<byte>): Option<seq<byte>> {
    match FindFrom(text, open, 0)
    case None => None
    case Some(i) =>
      match FindFrom(text, close, i + |open|)
      case None => None
      case Some(j) => Some(text[i + |open|..j])
  }

  /** None of the four tags occurs in the stream. */
  ghost predicate NoTags(s: seq<byte>) {
    forall i: nat ::
      && !OccursAt(s, STDOUT_TAG, i) && !OccursAt(s, STDOUT_END, i)
      && !OccursAt(s, STDERR_TAG, i) && !OccursAt(s, STDERR_END, i)
  }

  ghost predicate IsTag(t: seq<byte>) {
    t == STDOUT_TAG || t == STDOUT_END || t == STDERR_TAG || t == STDERR_END
  }

  lemma TagBytes(t: seq<byte>)
    requires IsTag(t)
    ensures 8 <= |t| <= 9 && t[0] == 60 && 10 !in t
  {
  }

  /** A block of the text: an opening tag of eight bytes, a line break, the stream on lines of
      its own, and a closing tag of nine. */
  ghost predicate BlockAt(text: seq<byte>, at: nat, open: seq<byte>, s: seq<byte>, close: seq<byte>)
    requires s != []
  {
    var m := |Terminated(s)|;
    && |open| == 8 && |close| == 9 && at + 18 + m <= |text|
    && text[at..at + 8] == open && text[at + 8] == 10
    && text[at + 9..at + 9 + m] == Terminated(s)
    && text[at + 9 + m..at + 18 + m] == close
  }

  lemma Across(text: seq<byte>, t: seq<byte>, i: nat, k: nat)
    requires i <= k < i + |t| && k < |text| && text[k] == 10 && 10 !in t
    ensures !OccursAt(text, t, i)
  {
    assert t[k - i] != 10;
    if i + |t| <= |text| {
      assert text[i..i + |t|][k - i] == text[k];
    }
  }

  lemma Inside(text: seq<byte>, t: seq<byte>, i: nat, at: nat, s: seq<byte>)
    requires at <= i && i + |t| <= at + |s| && at + |s| <= |text| && text[at..at + |s|] == s
    ensures OccursAt(text, t, i) ==> OccursAt(s, t, i - at)
  {
    assert forall j :: 0 <= j < |s| ==> s[j] == text[at..at + |s|][j] == text[at + j];
    assert s[i - at..i - at + |t|] == text[i..i + |t|];
  }

  /** No tag begins inside the stream of a block. */
  lemma NoneInStream(text: seq<byte>, at: nat, open: seq<byte>, s: seq<byte>, close: seq<byte>, t: seq<byte>, i: nat)
    requires s != [] && BlockAt(text, at, open, s, close) && NoTags(s) && IsTag(t)
    requires at + 9 <= i < at + 9 + |Terminated(s)|
    ensures !OccursAt(text, t, i)
  {
    TagBytes(t);
    var m := |Terminated(s)|;
    var lines := text[at + 9..at + 9 + m];
    assert text[at + 8 + m] == lines[m - 1] == 10;
    if i + |t| > at + 8 + m {
      Across(text, t, i, at + 8 + m);
    } else {
      Inside(text, t, i, at + 9, lines);
      assert lines[0..|s|] == s;
      Inside(lines, t, i - at - 9, 0, s);
    }
  }

  /** No opening tag begins inside a block, but for its own. */
  lemma NoneInBlock(text: seq<byte>, at: nat, open: seq<byte>, s: seq<byte>, close: seq<byte>, t: seq<byte>, i: nat)
    requires s != [] && BlockAt(text, at, open, s, close) && NoTags(s)
    requires open == STDOUT_TAG || open == STDERR_TAG
    requires close == STDOUT_END || close == STDERR_END
    requires (t == STDOUT_TAG || t == STDERR_TAG) && t != open
    requires at <= i < at + 18 + |Terminated(s)|
    ensures !OccursAt(text, t, i)
  {
    var m := |Terminated(s)|;
    if i == at {
      assert text[i..i + 8] == open;
    } else if i < at + 9 {
      assert i < at + 8 ==> text[i] == text[at..at + 8][i - at] == open[i - at];
      FirstByte(text, t, i);
    } else if i < at + 9 + m {
      NoneInStream(text, at, open, s, close, t, i);
    } else if i == at + 9 + m {
      assert text[i + 1] == text[at + 9 + m..at + 18 + m][1] == close[1] == 47;
      SecondByte(text, t, i);
    } else {
      assert text[i] == text[at + 9 + m..at + 18 + m][i - at - 9 - m] == close[i - at - 9 - m];
      FirstByte(text, t, i);
    }
  }

  lemma FirstByte(text: seq<byte>, t: seq<byte>, i: nat)
    requires i < |text| && t != [] && text[i] != t[0]
    ensures !OccursAt(text, t, i)
  {
    if i + |t| <= |text| {
      assert text[i..i + |t|][0] == text[i];
    }
  }

  lemma SecondByte(text: seq<byte>, t: seq<byte>, i: nat)
    requires i + 1 < |text| && |t| > 1 && text[i + 1] != t[1]
    ensures !OccursAt(text, t, i)
  {
    if i + |t| <= |text| {
      assert text[i..i + |t|][1] == text[i + 1];
    }
  }

  lemma FirstFound(s: seq<byte>, t: seq<byte>, from: nat, k: nat)
    requires from <= k && OccursAt(s, t, k) && forall i :: from <= i < k ==> !OccursAt(s, t, i)
    ensures FindFrom(s, t, from) == Some(k)
  {
    hide OccursAt;
  }

  lemma NoneFound(s: seq<byte>, t: seq<byte>)
    requires forall i :: 0 <= i < |s| ==> !OccursAt(s, t, i)
    requires t != []
    ensures FindFrom(s, t, 0) == None
  {
  }

  /** The closing tag of a block is the first one behind its opening tag. */
  lemma CloseFound(text: seq<byte>, at: nat, open: seq<byte>, s: seq<byte>, close: seq<byte>)
    requires s != [] && BlockAt(text, at, open, s, close) && NoTags(s) && IsTag(close)
    ensures FindFrom(text, close, at + 8) == Some(at + 9 + |Terminated(s)|)
  {
    hide NoTags;
    hide Terminated;
    hide FindFrom;
    var m := |Terminated(s)|;
    TagBytes(close);
    forall i | at + 8 <= i < at + 9 + m ensures !OccursAt(text, close, i) {
      if i == at + 8 {
        FirstByte(text, close, i);
      } else {
        NoneInStream(text, at, open, s, close, close, i);
      }
    }
    FirstFound(text, close, at + 8, at + 9 + m);
  }

  /** Reading a block whose opening tag is the first in the text. */
  lemma SectionOfBlock(text: seq<byte>, at: nat, open: seq<byte>, s: seq<byte>, close: seq<byte>)
    requires s != [] && BlockAt(text, at, open, s, close) && NoTags(s) && IsTag(close)
    requires forall i :: 0 <= i < at ==> !OccursAt(text, open, i)
    ensures Section(text, open, close) == Some([10] + Terminated(s))
  {
    hide NoTags;
    hide IsTag;
    hide Terminated;
    hide FindFrom;
    var m := |Terminated(s)|;
    FirstFound(text, open, 0, at);
    CloseFound(text, at, open, s, close);
    hide OccursAt;
    assert text[at + 8..at + 9 + m] == [10] + text[at + 9..at + 9 + m];
  }

  /** A block that is all of a text. */
  lemma OnlyBlock(open: seq<byte>, s: seq<byte>, close: seq<byte>)
    requires s != [] && |open| == 8 && |close| == 9
    ensures BlockAt(open + [10] + Terminated(s) + close, 0, open, s, close)
  {
    hide Terminated;
    var lines, text := Terminated(s), open + [10] + Terminated(s) + close;
    assert text[0..8] == open && text[9..9 + |lines|] == lines && text[9 + |lines|..18 + |lines|] == close;
  }

  /** A block keeps its place when something is put behind it, and moves behind what is put in
      front of it. */
  lemma BlockMoves(pre: seq<byte>, text: seq<byte>, post: seq<byte>, open: seq<byte>, s: seq<byte>, close: seq<byte>)
    requires s != [] && BlockAt(text, 0, open, s, close)
    ensures BlockAt(pre + text + post, |pre|, open, s, close)
  {
    hide Terminated;
    var m, p, all := |Terminated(s)|, |pre|, pre + text + post;
    assert all[p..p + 8] == text[0..8];
    assert all[p + 8] == text[8];
    assert all[p + 9..p + 9 + m] == text[9..9 + m];
    assert all[p + 9 + m..p + 18 + m] == text[9 + m..18 + m];
  }

  lemma TagsOpenLines()
    ensures Ascii("<stdout>\n") == STDOUT_TAG + [10] && Ascii("<stderr>\n") == STDERR_TAG + [10]
  {
  }

  /** The blocks of the framed text. */
  lemma BlocksOfFramed(stdout: seq<byte>, stderr: seq<byte>)
    ensures stdout != [] ==> BlockAt(Framed(stdout, stderr), 0, STDOUT_TAG, stdout, STDOUT_END)
    ensures var at := if stdout == [] then 0 else 19 + |Terminated(stdout)|;
            stderr != [] ==>
              && BlockAt(Framed(stdout, stderr), at, STDERR_TAG, stderr, STDERR_END)
              && |Framed(stdout, stderr)| == at + 18 + |Terminated(stderr)|
              && (at > 0 ==> Framed(stdout, stderr)[at - 1] == 10)
    ensures stdout != [] && stderr == [] ==> |Framed(stdout, stderr)| == 18 + |Terminated(stdout)|
  {
    FramedLiteral(stdout, stderr);
    TagsOpenLines();
    hide Framed;
    hide Terminated;
    hide BlockAt;
    var o, e := Framed(stdout, []), Framed([], stderr);
    if stdout != [] {
      OnlyBlock(STDOUT_TAG, stdout, STDOUT_END);
    }
    if stderr != [] {
      OnlyBlock(STDERR_TAG, stderr, STDERR_END);
    }
    if stdout != [] && stderr != [] {
      BlockMoves([], o, Ascii("\n") + e, STDOUT_TAG, stdout, STDOUT_END);
      BlockMoves(o + Ascii("\n"), e, [], STDERR_TAG, stderr, STDERR_END);
      assert [] + o + (Ascii("\n") + e) == Framed(stdout, stderr);
      assert o + Ascii("\n") + e + [] == Framed(stdout, stderr);
    }
  }

  lemma StdoutReadsBack(stdout: seq<byte>, stderr: seq<byte>)
    requires NoTags(stdout) && NoTags(stderr)
    ensures Section(Framed(stdout, stderr), STDOUT_TAG, STDOUT_END)
         == if stdout == [] then None else Some([10] + Terminated(stdout))
  {
    hide NoTags;
    hide BlockAt;
    hide Terminated;
    hide Section;
    BlocksOfFramed(stdout, stderr);
    EmptyFramed();
    LabelsDiffer();
    hide Framed;
    var text := Framed(stdout, stderr);
    if stdout != [] {
      SectionOfBlock(text, 0, STDOUT_TAG, stdout, STDOUT_END);
    } else {
      NoSection(text, stderr, STDERR_TAG, STDERR_END, STDOUT_TAG, STDOUT_END);
    }
  }

  lemma StderrReadsBack(stdout: seq<byte>, stderr: seq<byte>)
    requires NoTags(stdout) && NoTags(stderr)
    ensures Section(Framed(stdout, stderr), STDERR_TAG, STDERR_END)
         == if stderr == [] then None else Some([10] + Terminated(stderr))
  {
    hide NoTags;
    hide BlockAt;
    hide Terminated;
    hide Section;
    BlocksOfFramed(stdout, stderr);
    EmptyFramed();
    LabelsDiffer();
    hide Framed;
    var text := Framed(stdout, stderr);
    if stderr == [] {
      NoSection(text, stdout, STDOUT_TAG, STDOUT_END, STDERR_TAG, STDERR_END);
    } else if stdout == [] {
      SectionOfBlock(text, 0, STDERR_TAG, stderr, STDERR_END);
    } else {
      var at := 19 + |Terminated(stdout)|;
      forall i | 0 <= i < at ensures !OccursAt(text, STDERR_TAG, i) {
        if i == at - 1 {
          FirstByte(text, STDERR_TAG, i);
        } else {
          NoneInBlock(text, 0, STDOUT_TAG, stdout, STDOUT_END, STDERR_TAG, i);
        }
      }
      SectionOfBlock(text, at, STDERR_TAG, stderr, STDERR_END);
    }
  }

  lemma LabelsDiffer()
    ensures STDOUT_TAG != STDERR_TAG
  {
    assert STDOUT_TAG[4] != STDERR_TAG[4];
  }

  lemma EmptyFramed()
    ensures Framed([], []) == []
  {
  }

  /** Reading the framed text at the literal tags gives back each stream under its own label, on
      lines of its own: up to a line break in front, and one at the end that it may have had.
      Nothing is found under the label of a stream without output. */
  lemma StreamsReadBack(stdout: seq<byte>, stderr: seq<byte>)
    requires NoTags(stdout) && NoTags(stderr)
    ensures Section(Framed(stdout, stderr), STDOUT_TAG, STDOUT_END)
         == if stdout == [] then None else Some([10] + Terminated(stdout))
    ensures Section(Framed(stdout, stderr), STDERR_TAG, STDERR_END)
         == if stderr == [] then None else Some([10] + Terminated(stderr))
  {
    hide *;
    StdoutReadsBack(stdout, stderr);
    StderrReadsBack(stdout, stderr);
  }

  /** A text that is empty, or one block, has no section of the other label. */
  lemma NoSection(text: seq<byte>, s: seq<byte>, open: seq<byte>, close: seq<byte>, other: seq<byte>, end: seq<byte>)
    requires NoTags(s)
    requires if s == [] then text == [] else BlockAt(text, 0, open, s, close) && |text| == 18 + |Terminated(s)|
    requires open == STDOUT_TAG || open == STDERR_TAG
    requires close == STDOUT_END || close == STDERR_END
    requires (other == STDOUT_TAG || other == STDERR_TAG) && other != open
    ensures Section(text, other, end) == None
  {
    hide NoTags;
    hide BlockAt;
    hide Terminated;
    forall i | 0 <= i < |text| ensures !OccursAt(text, other, i) {
      NoneInBlock(text, 0, open, s, close, other, i);
    }
    NoneFound(text, other);
    hide FindFrom;
  }

  /** Text within the cap is the framed text itself: what a client gets for short streams. */
  lemma ShortOutputReadsBack(stdout: seq<byte>, stderr: seq<byte>)
    requires |Framed(stdout, stderr)| <= MAX_TOOL_OUTPUT_BYTES && NoTags(stdout) && NoTags(stderr)
    ensures Section(ToolText(stdout, stderr), STDOUT_TAG, STDOUT_END)
         == if stdout == [] then None else Some([10] + Terminated(stdout))
    ensures Section(ToolText(stdout, stderr), STDERR_TAG, STDERR_END)
         == if stderr == [] then None else Some([10] + Terminated(stderr))
  {
    StreamsReadBack(stdout, stderr);
    hide Framed;
    hide NoTags;
    hide Section;
    hide Terminated;
  }
}
