/** Bounded capture of a tool's output streams and the UTF-8-safe cut of the combined
    text and of logged values (execute.go). */
module Capture {
  import opened Utf8

  const MAX_TOOL_OUTPUT_BYTES: nat := 0x10_0000

  const NEWLINE: byte := 10

  function Flatten(chunks: seq<seq<byte>>): seq<byte> {
    if chunks == [] then [] else chunks[0] + Flatten(chunks[1..])
  }

  lemma {:induction false} FlattenAppend(chunks: seq<seq<byte>>, last: seq<byte>)
    ensures Flatten(chunks + [last]) == Flatten(chunks) + last
  {
    if chunks == [] {
      assert [last][1..] == [];
    } else {
      FlattenAppend(chunks[1..], last);
      assert (chunks + [last])[1..] == chunks[1..] + [last];
    }
  }

  // ----- bounded capture

  function Capacity(limit: int): nat { if limit > 0 then limit else 0 }

  /** The first `limit` bytes of a stream. */
  function Kept(stream: seq<byte>, limit: int): seq<byte> {
    if |stream| <= Capacity(limit) then stream else stream[..Capacity(limit)]
  }

  /** An output stream that stores at most `limit` bytes and swallows the rest. */
  class BoundedWriter {
    var buf: seq<byte>
    var remaining: int
    var truncated: bool
    ghost const limit: int
    ghost var written: seq<byte>  // everything handed to Write so far

    ghost predicate Valid()
      reads this
    {
      && buf == Kept(written, limit)
      && remaining == limit - |buf|
      && truncated == (|written| > Capacity(limit))
    }

    constructor (limit: int)
      ensures Valid() && this.limit == limit && written == []
    {
      buf, remaining, truncated := [], limit, false;
      this.limit, written := limit, [];
    }

    /** Always reports the whole chunk as written, so the subprocess sees a healthy pipe. */
    method Write(p: seq<byte>) returns (n: nat)
      requires Valid()
      modifies this
      ensures Valid() && written == old(written) + p
      ensures n == |p|
    {
      n := |p|;
      written := written + p;
      if |p| == 0 {
        assert written == old(written);
        return;
      }
      if remaining <= 0 {
        truncated := true;
        return;
      }
      if |p| > remaining {
        buf := buf + p[..remaining];
        remaining := 0;
        truncated := true;
        return;
      }
      buf := buf + p;
      remaining := remaining - |p|;
    }
  }

  /** However a stream is cut into writes, its first `limit` bytes are kept, and the
      writer says so exactly when there were more. */
  method CaptureStream(chunks: seq<seq<byte>>, limit: int) returns (bytes: seq<byte>, truncated: bool)
    ensures bytes == Kept(Flatten(chunks), limit)
    ensures truncated <==> |Flatten(chunks)| > Capacity(limit)
  {
    var w := new BoundedWriter(limit);
    for i := 0 to |chunks|
      invariant w.Valid() && w.limit == limit
      invariant w.written == Flatten(chunks[..i])
    {
      var _ := w.Write(chunks[i]);
      assert chunks[..i + 1] == chunks[..i] + [chunks[i]];
      FlattenAppend(chunks[..i], chunks[i]);
    }
    assert chunks[..|chunks|] == chunks;
    bytes, truncated := w.buf, w.truncated;
  }

  // ----- combining the streams

  const STDOUT_OPEN: seq<byte> := Ascii("<stdout>\n")
  const STDOUT_CLOSE: seq<byte> := Ascii("</stdout>")
  const STDERR_OPEN: seq<byte> := Ascii("<stderr>\n")
  const STDERR_CLOSE: seq<byte> := Ascii("</stderr>")
  const MARKER: seq<byte> := Ascii("\n[output truncated after 1048576 bytes]")

  predicate EndsInNewline(s: seq<byte>) { s != [] && s[|s| - 1] == NEWLINE }

  /** One stream between its tags, on lines of its own. */
  function Tagged(open: seq<byte>, s: seq<byte>, close: seq<byte>): seq<byte> {
    open + s + (if EndsInNewline(s) then [] else [NEWLINE]) + close
  }

  /** The stdout block without any size limit; nothing for an empty stream. */
  function StdoutBlock(stdout: seq<byte>): seq<byte> {
    if stdout == [] then [] else Tagged(STDOUT_OPEN, stdout, STDOUT_CLOSE)
  }

  function StderrBlock(stderr: seq<byte>): seq<byte> {
    if stderr == [] then [] else Tagged(STDERR_OPEN, stderr, STDERR_CLOSE)
  }

  /** The line break between the two blocks. */
  function Separator(stdout: seq<byte>, stderr: seq<byte>): seq<byte> {
    if stdout == [] || stderr == [] then [] else [NEWLINE]
  }

  /** Both streams without any size limit. */
  function Framed(stdout: seq<byte>, stderr: seq<byte>): seq<byte> {
    StdoutBlock(stdout) + Separator(stdout, stderr) + StderrBlock(stderr)
  }

  /** The back-off of combineToolOutput: drop a byte while the prefix is not well-formed,
      at most `tries` times. */
  function BackOff(p: seq<byte>, tries: nat): (cut: nat)
    ensures cut <= |p| <= cut + tries
  {
    if tries == 0 || p == [] || Valid(p) then |p| else BackOff(p[..|p| - 1], tries - 1)
  }

  /** A text cut to the output limit, with the marker behind the cut. */
  function Limited(combined: seq<byte>): seq<byte> {
    if |combined| <= MAX_TOOL_OUTPUT_BYTES then combined
    else combined[..BackOff(combined[..MAX_TOOL_OUTPUT_BYTES], 3)] + MARKER
  }

  /** What the client receives for the two streams. */
  function ToolText(stdout: seq<byte>, stderr: seq<byte>): seq<byte> {
    Limited(Framed(stdout, stderr))
  }

  method WriteTagged(buf: seq<byte>, open: seq<byte>, s: seq<byte>, close: seq<byte>) returns (r: seq<byte>)
    ensures r == buf + Tagged(open, s, close)
  {
    r := buf + open;
    r := r + s;
    if !EndsInNewline(s) {
      r := r + [NEWLINE];
    }
    r := r + close;
  }

  method FrameOutput(stdout: seq<byte>, stderr: seq<byte>) returns (result: seq<byte>)
    ensures result == Framed(stdout, stderr)
  {
    result := [];
    if |stdout| > 0 {
      result := WriteTagged(result, STDOUT_OPEN, stdout, STDOUT_CLOSE);
    }
    assert result == StdoutBlock(stdout);
    if |stderr| > 0 {
      if |result| > 0 {
        result := result + [NEWLINE];
      }
      result := WriteTagged(result, STDERR_OPEN, stderr, STDERR_CLOSE);
    }
  }

  lemma BackOffNext(s: seq<byte>, cut: nat, tries: nat)
    requires cut <= |s|
    ensures BackOff(s[..cut], tries)
         == if tries == 0 || cut == 0 || Valid(s[..cut]) then cut else BackOff(s[..cut - 1], tries - 1)
  {
    hide Valid;
    if cut > 0 {
      assert s[..cut][..cut - 1] == s[..cut - 1];
    }
  }

  method LimitOutput(combined: seq<byte>) returns (text: seq<byte>)
    ensures text == Limited(combined)
  {
    hide Valid;
    hide BackOff;
    if |combined| <= MAX_TOOL_OUTPUT_BYTES {
      return combined;
    }
    var cut: nat, i := MAX_TOOL_OUTPUT_BYTES, 0;
    BackOffNext(combined, cut, 3);
    while i < 3 && cut > 0 && !Valid(combined[..cut])
      invariant 0 <= i <= 3 && cut <= MAX_TOOL_OUTPUT_BYTES
      invariant BackOff(combined[..cut], 3 - i) == BackOff(combined[..MAX_TOOL_OUTPUT_BYTES], 3)
      invariant BackOff(combined[..cut], 3 - i)
             == if i == 3 || cut == 0 || Valid(combined[..cut]) then cut else BackOff(combined[..cut - 1], 2 - i)
    {
      BackOffNext(combined, cut - 1, 2 - i);
      cut := cut - 1;
      i := i + 1;
    }
    return combined[..cut] + MARKER;
  }

  method CombineToolOutput(stdout: seq<byte>, stderr: seq<byte>) returns (text: seq<byte>)
    ensures text == ToolText(stdout, stderr)
  {
    var combined := FrameOutput(stdout, stderr);
    text := LimitOutput(combined);
  }

  /** A cut inside well-formed text backs off to the last character boundary. */
  lemma BackOffFloor(s: seq<byte>, limit: nat)
    requires Valid(s) && limit <= |s|
    ensures IsFloor(s, limit, BackOff(s[..limit], 3))
  {
    var b := BoundaryNearby(s, limit);
    BackOffReaches(s, limit, b, 3);
  }

  lemma {:induction false} BackOffReaches(s: seq<byte>, limit: nat, b: nat, tries: nat)
    requires limit <= |s| && b <= limit <= b + tries && Valid(s[..b])
    ensures IsFloor(s, limit, BackOff(s[..limit], tries))
  {
    if limit > 0 && !Valid(s[..limit]) {
      assert s[..limit][..limit - 1] == s[..limit - 1];
      BackOffReaches(s, limit - 1, b, tries - 1);
    } else {
      assert BackOff(s[..limit], tries) == limit;
    }
  }

  // ----- what capture and truncation together deliver

  /** Two texts that start with the same part and go on with streams that agree on their
      first `n` bytes. */
  lemma TaggedAgree(pre: seq<byte>, s: seq<byte>, t: seq<byte>, postS: seq<byte>, postT: seq<byte>, n: nat)
    requires n <= |s| && n <= |t| && s[..n] == t[..n]
    ensures (pre + s + postS)[..n + |pre|] == (pre + t + postT)[..n + |pre|]
  {
    assert (pre + s + postS)[..n + |pre|] == pre + s[..n];
    assert (pre + t + postT)[..n + |pre|] == pre + t[..n];
  }

  lemma TaggedSplit(pre: seq<byte>, open: seq<byte>, s: seq<byte>, close: seq<byte>) returns (post: seq<byte>)
    requires close != []
    ensures pre + Tagged(open, s, close) == pre + open + s + post && post != []
  {
    post := (if EndsInNewline(s) then [] else [NEWLINE]) + close;
  }

  /** The framed text around the stdout stream. */
  lemma AroundStdout(stdout: seq<byte>, stderr: seq<byte>) returns (post: seq<byte>)
    requires stdout != []
    ensures Framed(stdout, stderr) == STDOUT_OPEN + stdout + post && post != []
  {
    var p := StdoutSplit(stdout);
    var sep, err := Separator(stdout, stderr), StderrBlock(stderr);
    post := p + sep + err;
    hide StdoutBlock;
    hide Separator;
    hide StderrBlock;
    assert Framed(stdout, stderr) == StdoutBlock(stdout) + sep + err;
    hide Framed;
    assert STDOUT_OPEN + stdout + p + sep + err == STDOUT_OPEN + stdout + post;
  }

  lemma StdoutSplit(stdout: seq<byte>) returns (p: seq<byte>)
    requires stdout != []
    ensures StdoutBlock(stdout) == STDOUT_OPEN + stdout + p && p != []
  {
    p := TaggedSplit([], STDOUT_OPEN, stdout, STDOUT_CLOSE);
    hide Tagged;
    assert [] + Tagged(STDOUT_OPEN, stdout, STDOUT_CLOSE) == Tagged(STDOUT_OPEN, stdout, STDOUT_CLOSE);
    assert [] + STDOUT_OPEN == STDOUT_OPEN;
  }

  /** The framed text around the stderr stream. */
  lemma AroundStderr(stdout: seq<byte>, stderr: seq<byte>) returns (post: seq<byte>)
    requires stderr != []
    ensures Framed(stdout, stderr) == StdoutBlock(stdout) + Separator(stdout, [NEWLINE]) + STDERR_OPEN + stderr + post
            && post != []
  {
    post := TaggedSplit(StdoutBlock(stdout) + Separator(stdout, stderr), STDERR_OPEN, stderr, STDERR_CLOSE);
  }

  ghost predicate SameUpToLimit(a: seq<byte>, b: seq<byte>) {
    && |a| > MAX_TOOL_OUTPUT_BYTES
    && |b| > MAX_TOOL_OUTPUT_BYTES
    && a[..MAX_TOOL_OUTPUT_BYTES] == b[..MAX_TOOL_OUTPUT_BYTES]
  }

  lemma SameUpTo(a: seq<byte>, b: seq<byte>, len: nat)
    requires MAX_TOOL_OUTPUT_BYTES < |a| && MAX_TOOL_OUTPUT_BYTES < |b|
    requires MAX_TOOL_OUTPUT_BYTES <= len <= |a| && len <= |b| && a[..len] == b[..len]
    ensures SameUpToLimit(a, b)
  {
    assert a[..len][..MAX_TOOL_OUTPUT_BYTES] == a[..MAX_TOOL_OUTPUT_BYTES];
    assert b[..len][..MAX_TOOL_OUTPUT_BYTES] == b[..MAX_TOOL_OUTPUT_BYTES];
  }

  /** Dropping what lies beyond the limit of stdout changes nothing before the cut. */
  lemma LongStdout(stdout: seq<byte>, stderr: seq<byte>, err: seq<byte>)
    requires |stdout| > MAX_TOOL_OUTPUT_BYTES
    ensures SameUpToLimit(Framed(Kept(stdout, MAX_TOOL_OUTPUT_BYTES), err), Framed(stdout, stderr))
  {
    var n, out := MAX_TOOL_OUTPUT_BYTES, Kept(stdout, MAX_TOOL_OUTPUT_BYTES);
    assert |out| == n && out[..n] == stdout[..n];
    hide *;
    var p := AroundStdout(out, err);
    var q := AroundStdout(stdout, stderr);
    TaggedAgree(STDOUT_OPEN, out, stdout, p, q, n);
    SameUpTo(STDOUT_OPEN + out + p, STDOUT_OPEN + stdout + q, n + |STDOUT_OPEN|);
  }

  lemma LongStderr(stdout: seq<byte>, stderr: seq<byte>)
    requires |stderr| > MAX_TOOL_OUTPUT_BYTES
    ensures SameUpToLimit(Framed(stdout, Kept(stderr, MAX_TOOL_OUTPUT_BYTES)), Framed(stdout, stderr))
  {
    var n, err := MAX_TOOL_OUTPUT_BYTES, Kept(stderr, MAX_TOOL_OUTPUT_BYTES);
    assert |err| == n && err[..n] == stderr[..n];
    hide *;
    var p := AroundStderr(stdout, err);
    var q := AroundStderr(stdout, stderr);
    var pre := StdoutBlock(stdout) + Separator(stdout, [NEWLINE]) + STDERR_OPEN;
    TaggedAgree(pre, err, stderr, p, q, n);
    SameUpTo(pre + err + p, pre + stderr + q, n + |pre|);
  }

  lemma LimitedAgree(a: seq<byte>, b: seq<byte>)
    requires SameUpToLimit(a, b)
    ensures Limited(a) == Limited(b)
  {
    var cut := BackOff(a[..MAX_TOOL_OUTPUT_BYTES], 3);
    assert a[..cut] == a[..MAX_TOOL_OUTPUT_BYTES][..cut];
    assert b[..cut] == b[..MAX_TOOL_OUTPUT_BYTES][..cut];
  }

  /** Capturing at most the limit of each stream is invisible: the client gets the very
      text that unbounded capture would have produced. */
  lemma CaptureIsTransparent(stdout: seq<byte>, stderr: seq<byte>)
    ensures ToolText(Kept(stdout, MAX_TOOL_OUTPUT_BYTES), Kept(stderr, MAX_TOOL_OUTPUT_BYTES))
            == ToolText(stdout, stderr)
  {
    var out, err := Kept(stdout, MAX_TOOL_OUTPUT_BYTES), Kept(stderr, MAX_TOOL_OUTPUT_BYTES);
    if |stdout| > MAX_TOOL_OUTPUT_BYTES {
      LongStdout(stdout, stderr, err);
      LimitedAgree(Framed(out, err), Framed(stdout, stderr));
    } else if |stderr| > MAX_TOOL_OUTPUT_BYTES {
      LongStderr(stdout, stderr);
      LimitedAgree(Framed(stdout, err), Framed(stdout, stderr));
    }
  }

  ghost predicate EndsWith(s: seq<byte>, t: seq<byte>) {
    |t| <= |s| && s[|s| - |t|..] == t
  }

  /** The truncation marker stands at the end exactly when the framed streams exceed the
      limit, and so whenever a stream lost bytes to capture; the text is never longer than
      the limit and the marker together. */
  lemma MarkerTellsTruncation(stdout: seq<byte>, stderr: seq<byte>)
    ensures EndsWith(ToolText(stdout, stderr), MARKER) <==> |Framed(stdout, stderr)| > MAX_TOOL_OUTPUT_BYTES
    ensures |stdout| > MAX_TOOL_OUTPUT_BYTES || |stderr| > MAX_TOOL_OUTPUT_BYTES ==>
            EndsWith(ToolText(stdout, stderr), MARKER)
    ensures |ToolText(stdout, stderr)| <= MAX_TOOL_OUTPUT_BYTES + |MARKER|
  {
    LastByte(stdout, stderr);
    LimitedMarker(Framed(stdout, stderr));
  }

  lemma LimitedMarker(framed: seq<byte>)
    requires framed != [] ==> framed[|framed| - 1] == '>' as int
    ensures EndsWith(Limited(framed), MARKER) <==> |framed| > MAX_TOOL_OUTPUT_BYTES
    ensures |Limited(framed)| <= MAX_TOOL_OUTPUT_BYTES + |MARKER|
  {
    if |framed| > MAX_TOOL_OUTPUT_BYTES {
      var kept := framed[..BackOff(framed[..MAX_TOOL_OUTPUT_BYTES], 3)];
      assert (kept + MARKER)[|kept|..] == MARKER;
    } else if |framed| >= |MARKER| {
      assert framed[|framed| - |MARKER|..][|MARKER| - 1] == framed[|framed| - 1] != MARKER[|MARKER| - 1];
    }
  }

  lemma LastByte(stdout: seq<byte>, stderr: seq<byte>)
    ensures var framed := Framed(stdout, stderr);
            && (framed != [] ==> framed[|framed| - 1] == '>' as int)
            && |framed| >= |stdout| && |framed| >= |stderr|
  {
  }

  lemma TaggedValid(open: seq<byte>, s: seq<byte>, close: seq<byte>)
    requires Valid(open) && Valid(s) && Valid(close)
    ensures Valid(Tagged(open, s, close))
  {
    var nl := if EndsInNewline(s) then [] else [NEWLINE];
    AsciiValid(nl);
    ValidConcat(open, s);
    ValidConcat(open + s, nl);
    ValidConcat(open + s + nl, close);
  }

  lemma BlockValid(open: seq<byte>, s: seq<byte>, close: seq<byte>)
    requires forall i :: 0 <= i < |open| ==> open[i] <= 0x7F
    requires forall i :: 0 <= i < |close| ==> close[i] <= 0x7F
    requires Valid(s)
    ensures Valid(Tagged(open, s, close))
  {
    AsciiValid(open);
    AsciiValid(close);
    TaggedValid(open, s, close);
  }

  lemma FramedValid(stdout: seq<byte>, stderr: seq<byte>)
    requires Valid(stdout) && Valid(stderr)
    ensures Valid(Framed(stdout, stderr))
  {
    BlockValid(STDOUT_OPEN, stdout, STDOUT_CLOSE);
    BlockValid(STDERR_OPEN, stderr, STDERR_CLOSE);
    var out, sep, err := StdoutBlock(stdout), Separator(stdout, stderr), StderrBlock(stderr);
    AsciiValid(sep);
    ValidConcat(out, sep);
    ValidConcat(out + sep, err);
  }

  lemma MarkerValid()
    ensures Valid(MARKER)
  {
    LiteralValid("\n[output truncated after 1048576 bytes]");
  }

  lemma CutValid(s: seq<byte>, limit: nat, marker: seq<byte>)
    requires Valid(s) && limit <= |s| && Valid(marker)
    ensures var cut := BackOff(s[..limit], 3);
            IsFloor(s, limit, cut) && Valid(s[..cut] + marker)
  {
    BackOffFloor(s, limit);
    ValidConcat(s[..BackOff(s[..limit], 3)], marker);
  }

  lemma LimitedValid(framed: seq<byte>)
    requires Valid(framed)
    ensures Valid(Limited(framed))
    ensures |framed| > MAX_TOOL_OUTPUT_BYTES ==>
              exists cut: nat :: IsFloor(framed, MAX_TOOL_OUTPUT_BYTES, cut)
                  && Limited(framed) == framed[..cut] + MARKER
  {
    MarkerValid();
    if |framed| > MAX_TOOL_OUTPUT_BYTES {
      CutValid(framed, MAX_TOOL_OUTPUT_BYTES, MARKER);
    }
  }

  /** Streams that are UTF-8 give a text that is UTF-8, cut at the last character boundary
      within the limit. */
  lemma ToolTextValid(stdout: seq<byte>, stderr: seq<byte>)
    requires Valid(stdout) && Valid(stderr)
    ensures Valid(ToolText(stdout, stderr))
    ensures var framed := Framed(stdout, stderr);
            |framed| > MAX_TOOL_OUTPUT_BYTES ==>
              exists cut: nat :: IsFloor(framed, MAX_TOOL_OUTPUT_BYTES, cut)
                  && ToolText(stdout, stderr) == framed[..cut] + MARKER
  {
    FramedValid(stdout, stderr);
    LimitedValid(Framed(stdout, stderr));
  }

  /** The output path of executeTool, from the writes of the subprocess to the text. */
  method ToolOutput(stdoutWrites: seq<seq<byte>>, stderrWrites: seq<seq<byte>>)
    returns (text: seq<byte>, truncated: bool)
    ensures text == ToolText(Flatten(stdoutWrites), Flatten(stderrWrites))
    ensures truncated <==>
            |Flatten(stdoutWrites)| > MAX_TOOL_OUTPUT_BYTES || |Flatten(stderrWrites)| > MAX_TOOL_OUTPUT_BYTES
    ensures truncated ==> EndsWith(text, MARKER)
    ensures |text| <= MAX_TOOL_OUTPUT_BYTES + |MARKER|
    ensures Valid(Flatten(stdoutWrites)) && Valid(Flatten(stderrWrites)) ==> Valid(text)
  {
    var stdout, stdoutTruncated := CaptureStream(stdoutWrites, MAX_TOOL_OUTPUT_BYTES);
    var stderr, stderrTruncated := CaptureStream(stderrWrites, MAX_TOOL_OUTPUT_BYTES);
    text := CombineToolOutput(stdout, stderr);
    truncated := stdoutTruncated || stderrTruncated;
    ghost var out, err := Flatten(stdoutWrites), Flatten(stderrWrites);
    CaptureIsTransparent(out, err);
    MarkerTellsTruncation(out, err);
    if Valid(out) && Valid(err) {
      ToolTextValid(out, err);
    }
  }

  // ----- logged values

  /** The UTF-8 bytes of the character U+2026. */
  const ELLIPSIS: seq<byte> := [0xE2, 0x80, 0xA6]

  /** The back-off of boundLogValue: step back to a byte that may begin a character. */
  function StepBack(s: seq<byte>, cut: nat): (r: nat)
    requires cut < |s|
    ensures r <= cut
  {
    if cut > 0 && !RuneStart(s[cut]) then StepBack(s, cut - 1) else cut
  }

  function BoundedValue(s: seq<byte>, max: nat): seq<byte> {
    if |s| <= max then s else s[..StepBack(s, max)] + ELLIPSIS
  }

  method BoundLogValue(s: seq<byte>, max: nat) returns (r: seq<byte>)
    ensures r == BoundedValue(s, max)
    ensures |r| <= max + |ELLIPSIS|
    ensures Valid(s) ==> Valid(r)
  {
    if |s| <= max {
      return s;
    }
    var cut: nat := max;
    while cut > 0 && !RuneStart(s[cut])
      invariant cut <= max
      invariant StepBack(s, cut) == StepBack(s, max)
    {
      cut := cut - 1;
    }
    if Valid(s) {
      StepBackFloor(s, max);
      assert Valid(ELLIPSIS);
      ValidConcat(s[..cut], ELLIPSIS);
    }
    return s[..cut] + ELLIPSIS;
  }

  lemma {:induction false} StepBackStops(s: seq<byte>, cut: nat)
    requires cut < |s|
    ensures StepBack(s, cut) == 0 || RuneStart(s[StepBack(s, cut)])
    ensures forall i :: StepBack(s, cut) < i <= cut ==> !RuneStart(s[i])
  {
    if cut > 0 && !RuneStart(s[cut]) {
      StepBackStops(s, cut - 1);
    }
  }

  /** A short value is logged as it is. A long one is cut at the last place within the limit
      at which a character may begin, and gets the bytes of an ellipsis. */
  lemma BoundedValueIs(s: seq<byte>, max: nat)
    ensures |s| <= max ==> BoundedValue(s, max) == s
    ensures |s| > max ==>
            exists cut: nat ::
              && cut <= max && BoundedValue(s, max) == s[..cut] + [0xE2, 0x80, 0xA6]
              && (cut == 0 || RuneStart(s[cut]))
              && forall i :: cut < i <= max ==> !RuneStart(s[i])
  {
    if |s| > max {
      StepBackStops(s, max);
      var cut := StepBack(s, max);
      assert BoundedValue(s, max) == s[..cut] + [0xE2, 0x80, 0xA6];
    }
  }

  lemma {:induction false} StepBackFloor(s: seq<byte>, cut: nat)
    requires Valid(s) && cut < |s|
    ensures IsFloor(s, cut, StepBack(s, cut))
  {
    BoundaryIsRuneStart(s, cut);
    if cut > 0 && !RuneStart(s[cut]) {
      StepBackFloor(s, cut - 1);
    } else {
      BoundaryIsRuneStart(s, 0);
    }
  }

  lemma FloorUnique(s: seq<byte>, limit: nat, a: nat, b: nat)
    requires limit <= |s| && IsFloor(s, limit, a) && IsFloor(s, limit, b)
    ensures a == b
  {
  }

  /** The two back-off loops cut well-formed text at the same place: the last character
      boundary within the limit. */
  lemma BackOffsAgree(s: seq<byte>, limit: nat)
    requires Valid(s) && limit < |s|
    ensures StepBack(s, limit) == BackOff(s[..limit], 3)
    ensures IsFloor(s, limit, StepBack(s, limit))
  {
    StepBackFloor(s, limit);
    BackOffFloor(s, limit);
    FloorUnique(s, limit, StepBack(s, limit), BackOff(s[..limit], 3));
  }

  /** They part on bytes that are not UTF-8: one gives up after three bytes, the other
      runs on to a byte that may begin a character. */
  lemma BackOffsDifferOnBinary(n: nat)
    requires n > 3
    ensures var s := seq(n + 1, _ => 0x80 as byte);
            StepBack(s, n) == 0 && BackOff(s[..n], 3) == n - 3
  {
    var s := seq(n + 1, _ => 0x80 as byte);
    StepBackAll(s, n);
    forall k | 0 < k <= n ensures !Valid(s[..k]) {
      assert RuneLen(s[..k]) == 0;
    }
    assert s[..n][..n - 1] == s[..n - 1] && s[..n - 1][..n - 2] == s[..n - 2] && s[..n - 2][..n - 3] == s[..n - 3];
    assert BackOff(s[..n - 3], 0) == n - 3;
    assert BackOff(s[..n - 2], 1) == n - 3;
    assert BackOff(s[..n - 1], 2) == n - 3;
  }

  lemma {:induction false} StepBackAll(s: seq<byte>, cut: nat)
    requires cut < |s| && forall i :: 0 <= i < |s| ==> Tail(s[i])
    ensures StepBack(s, cut) == 0
  {
    if cut > 0 {
      StepBackAll(s, cut - 1);
    }
  }
}
