/** Writing a script with a printed header and extracting its frontmatter (discover.go). */
module FrontmatterRoundTrip {
  import opened Results
  import opened Text
  import opened Timeout
  import opened Frontmatter
  import opened FrontmatterPrinting

  // ----- what no script can declare

  lemma CutAfterChars(line: string, key: string, c: char)
    requires c !in line
    ensures CutAfter(line, key).Some? ==> c !in CutAfter(line, key).value
  {
  }

  lemma KindChars(line: string, c: char)
    requires c !in line
    ensures Classify(line).DescriptionLine? ==> c !in Classify(line).text
    ensures Classify(line).ParamLine? ==> c !in Classify(line).annotation
  {
    hide TrimSpace;
    hide CutAfter;
    CutAfterChars(line, DESCRIPTION_PREFIX, c);
    CutAfterChars(line, PARAM_PREFIX, c);
    if CutAfter(line, PARAM_PREFIX).Some? {
      TrimSpaceChars(CutAfter(line, PARAM_PREFIX).value, c);
    }
  }

  lemma AnnotationChars(annotation: string, c: char)
    requires c !in annotation
    ensures ParseParamAnnotation(annotation).Ok? ==> c !in ParseParamAnnotation(annotation).value.description
  {
    hide Words;
    hide TrimSpace;
    hide ParseType;
    hide IsName;
  }

  lemma {:induction false} DescriptionChars(header: seq<string>, c: char)
    requires forall i :: 0 <= i < |header| ==> c !in header[i]
    ensures c !in DescriptionOf(header) && Trimmed(DescriptionOf(header))
  {
    hide Classify;
    hide TrimSpace;
    if header != [] {
      KindChars(header[0], c);
      if Classify(header[0]).DescriptionLine? {
        TrimSpaceChars(Classify(header[0]).text, c);
        TrimSpaceTrims(Classify(header[0]).text);
      } else {
        DescriptionChars(header[1..], c);
      }
    }
  }

  lemma {:induction false} ParamChars(header: seq<string>, c: char, k: nat)
    requires forall i :: 0 <= i < |header| ==> c !in header[i]
    requires k < |ParamsOf(header)|
    ensures c !in ParamsOf(header)[k].description
  {
    hide Classify;
    hide ParseParamAnnotation;
    KindChars(header[0], c);
    var first := ParamsOfLine(header[0]);
    if k < |first| {
      AnnotationChars(Classify(header[0]).annotation, c);
    } else {
      ParamChars(header[1..], c, k - |first|);
    }
  }

  /** Whatever a script contains, the descriptions that it declares are of one line, and that
      of the tool is trimmed. */
  lemma DeclaredAreLines(text: string)
    ensures var m := Declared(ScanLines(text));
            && OneLine(m.description) && Trimmed(m.description)
            && forall k :: 0 <= k < |m.params| ==> OneLine(m.params[k].description)
  {
    hide ScanLines;
    hide DescriptionOf;
    hide ParamsOf;
    hide Trimmed;
    var header := Header(ScanLines(text));
    forall i | 0 <= i < |header| ensures '\n' !in header[i] {
      ScannedAreLines(text, i);
    }
    DescriptionChars(header, '\n');
    forall k | 0 <= k < |ParamsOf(header)| ensures OneLine(ParamsOf(header)[k].description) {
      ParamChars(header, '\n', k);
    }
  }

  // ----- what a printed header declares

  /** Nothing of a printed line is lost when it is scanned. */
  predicate ScansWhole(line: string) { OneLine(line) && WithoutCr(line) == line }

  lemma DescriptionScansWhole(description: string)
    requires Trimmed(description) && OneLine(description)
    ensures ScansWhole(PrintDescription(description))
  {
    AsciiSpace('\r');
    hide IsSpace;
    var line := PrintDescription(description);
    assert OneLine("# Description: ");
    if description != "" {
      assert line[|line| - 1] == description[|description| - 1];
    }
  }

  lemma {:induction false} JoinChars(parts: seq<string>, sep: string, c: char)
    requires c !in sep && forall i :: 0 <= i < |parts| ==> c !in parts[i]
    ensures c !in Join(parts, sep)
  {
    if parts != [] {
      JoinChars(parts[1..], sep, c);
    }
  }

  lemma ParamScansWhole(p: ParamSpec)
    requires IsName(p.name) && OneLine(p.description)
    ensures ScansWhole(PrintParam(p))
  {
    AsciiSpace('\n');
    hide IsSpace;
    NoSpaces(p.name);
    assert forall i :: 0 <= i < 3 ==> '\n' !in Fields(p)[i];
    JoinChars(Fields(p), " ", '\n');
    hide Join;
    hide Fields;
    assert OneLine("# Param: ");
    var line := PrintParam(p);
    assert line[|line| - 1] == '"';
  }

  lemma TimeoutScansWhole(t: int64)
    ensures ScansWhole(PrintTimeout(t))
  {
    TimeoutChars(t as int, '\n');
    TimeoutChars(t as int, '\r');
    hide TimeoutText;
    assert OneLine("# Timeout: ");
  }

  lemma TimeoutLineScansWhole(timeout: Option<int64>, i: nat)
    requires i < |PrintTimeoutLine(timeout)|
    ensures ScansWhole(PrintTimeoutLine(timeout)[i])
  {
    hide PrintTimeout;
    TimeoutScansWhole(timeout.value);
  }

  lemma PrintedScansWhole(m: Metadata, i: nat)
    requires Expressible(m) && Trimmed(m.description) && OneLine(m.description)
    requires forall k :: 0 <= k < |m.params| ==> OneLine(m.params[k].description)
    requires i < |Print(m)|
    ensures ScansWhole(Print(m)[i])
  {
    hide PrintDescription;
    hide PrintParams;
    hide PrintTimeoutLine;
    hide ScansWhole;
    hide Trimmed;
    var n := |m.params|;
    if i == 0 {
      DescriptionScansWhole(m.description);
    } else if i < 1 + n {
      PrintedParamAt(m.params, i - 1);
      hide PrintParam;
      ParamScansWhole(m.params[i - 1]);
    } else {
      TimeoutLineScansWhole(m.timeout, i - 1 - n);
    }
  }

  // ----- a header that the scanner cannot read to its end

  lemma {:induction false} FewParams(lines: seq<string>)
    ensures |ParamsOf(lines)| <= |lines|
  {
    hide ParamsOfLine;
    if lines != [] {
      FewParams(lines[1..]);
    }
  }

  lemma LongDescription(description: string)
    requires !InBuffer(PrintDescription(description))
    ensures description != ""
  {
    ShortFits(PrintDescription(description));
  }

  /** Before the line of its k-th parameter, a header declares fewer than k of them. */
  lemma ClippedParams(m: Metadata, k: nat)
    requires Expressible(m) && k <= |m.params|
    ensures |ParamsOf(Print(m)[..1 + k])| <= k
  {
    hide ParamsOf;
    hide PrintDescription;
    hide PrintTimeoutLine;
    hide PrintParams;
    var ps := PrintParams(m.params)[..k];
    assert Print(m)[..1 + k] == [PrintDescription(m.description)] + ps;
    hide Print;
    OtherLinesDeclareNoParams(m);
    ParamsOfConcat([PrintDescription(m.description)], ps);
    FewParams(ps);
  }

  lemma ClippedTimeout(pre: seq<string>, m: Metadata)
    requires Expressible(m) && IsBody(pre) && |pre| + |Print(m)| <= SCAN_HEADER_LINES && m.timeout.Some?
    ensures Declared(pre + Print(m)[..1 + |m.params|]) != m
  {
    hide PrintDescription;
    hide PrintParams;
    hide Declared;
    hide TimeoutOf;
    hide PlainParams;
    hide Plain;
    var rest := m.(timeout := None);
    assert Print(m)[..1 + |m.params|] == Print(rest);
    assert pre + Print(rest) + [] == pre + Print(rest) && Print(rest) + [] == Print(rest);
    DeclaredBehind(pre, rest, []);
    if PlainParams(m.params) == m.params {
      TimeoutPart(rest, []);
    }
  }

  lemma Unclipped(pre: seq<string>, lines: seq<string>)
    requires IsBody(pre) && |pre| + |lines| <= SCAN_HEADER_LINES
    ensures var d := Declared(pre + lines); d.description == DescriptionOf(lines) && d.params == ParamsOf(lines)
  {
    BodyIgnored(pre, lines);
    hide DescriptionOf;
    hide ParamsOf;
    hide TimeoutOf;
    hide IsBody;
  }

  /** If the scan ends at a line of the header, what that line declares is lost. */
  lemma Clipped(pre: seq<string>, m: Metadata, i: nat)
    requires Expressible(m) && IsBody(pre) && |pre| + |Print(m)| <= SCAN_HEADER_LINES
    requires i < |Print(m)| && !InBuffer(Print(m)[i])
    ensures Declared(pre + Print(m)[..i]) != m
  {
    hide Declared;
    hide InBuffer;
    hide PrintDescription;
    hide PrintParams;
    hide ParamsOf;
    if i == 0 {
      LongDescription(m.description);
      Unclipped(pre, Print(m)[..0]);
    } else if i <= |m.params| {
      ClippedParams(m, i - 1);
      Unclipped(pre, Print(m)[..i]);
    } else {
      ClippedTimeout(pre, m);
    }
  }

  // ----- the round trip

  /** The metadata can be printed so that each printed line is read as it was meant: the
      description is trimmed, every description is of one line, no parameter description
      contains another annotation's keyword, and each line fits in the scanner's buffer. */
  ghost predicate Printable(m: Metadata) {
    && Trimmed(m.description) && OneLine(m.description)
    && (forall k :: 0 <= k < |m.params| ==> OneLine(m.params[k].description) && Plain(m.params[k].description))
    && forall i :: 0 <= i < |Print(m)| ==> InBuffer(Print(m)[i])
  }

  lemma FirstClip(lines: seq<string>) returns (i: nat)
    requires exists k :: 0 <= k < |lines| && !InBuffer(lines[k])
    ensures i < |lines| && !InBuffer(lines[i]) && forall j :: 0 <= j < i ==> InBuffer(lines[j])
  {
    hide InBuffer;
    i := 0;
    while InBuffer(lines[i])
      invariant i < |lines| && forall j :: 0 <= j < i ==> InBuffer(lines[j])
      decreases |lines| - i
    {
      i := i + 1;
    }
  }

  /** The lines that are scanned of a script with a printed header of whole lines. */
  lemma ScriptScanned(pre: string, lines: seq<string>, body: string)
    requires EndsLine(pre) && !ScanAborts(pre) && forall i :: 0 <= i < |lines| ==> ScansWhole(lines[i])
    ensures var scanned := ScanLines(pre + Lines(lines) + body);
            if forall i :: 0 <= i < |lines| ==> InBuffer(lines[i])
            then scanned == ScanLines(pre) + lines + ScanLines(body)
            else exists i :: 0 <= i < |lines| && !InBuffer(lines[i]) && scanned == ScanLines(pre) + lines[..i]
  {
    hide ScanLines;
    hide InBuffer;
    hide ScanAborts;
    hide Lines;
    assert pre + Lines(lines) + body == pre + (Lines(lines) + body);
    ScansBehind(pre, Lines(lines) + body);
    if forall i :: 0 <= i < |lines| ==> InBuffer(lines[i]) {
      ScansLines(lines, body);
      assert ScanLines(pre) + (lines + ScanLines(body)) == ScanLines(pre) + lines + ScanLines(body);
    } else {
      var i := FirstClip(lines);
      ScansUntil(lines, i, body);
    }
  }

  /** Writing metadata as annotations into a script and extracting them gives the metadata
      back exactly if it is printable. Quotes in parameter descriptions do no harm. In front
      of the annotations, where the interpreter is named, and behind them stands any text that
      has no annotations among the lines that are scanned. */
  lemma RoundTrip(pre: string, m: Metadata, body: string)
    requires Expressible(m) && EndsLine(pre) && !ScanAborts(pre) && IsBody(ScanLines(pre))
    requires |ScanLines(pre)| + |Print(m)| <= SCAN_HEADER_LINES
    requires IsBody(InWindow(ScanLines(body), |ScanLines(pre)| + |Print(m)|))
    ensures Declared(ScanLines(pre + Lines(Print(m)) + body)) == m <==> Printable(m)
  {
    hide ScanLines;
    hide ScanAborts;
    hide EndsLine;
    hide Lines;
    hide Declared;
    hide Expressible;
    hide IsBody;
    hide InWindow;
    hide Print;
    hide Plain;
    hide Trimmed;
    hide OneLine;
    hide InBuffer;
    hide ScansWhole;
    var text := pre + Lines(Print(m)) + body;
    DeclaredAreLines(text);
    if Trimmed(m.description) && OneLine(m.description) && forall k :: 0 <= k < |m.params| ==>
        OneLine(m.params[k].description) {
      forall i | 0 <= i < |Print(m)| ensures ScansWhole(Print(m)[i]) {
        PrintedScansWhole(m, i);
      }
      ScriptScanned(pre, Print(m), body);
      if forall i :: 0 <= i < |Print(m)| ==> InBuffer(Print(m)[i]) {
        LinesRoundTrip(ScanLines(pre), m, ScanLines(body));
      } else {
        var i :| 0 <= i < |Print(m)| && !InBuffer(Print(m)[i]) && ScanLines(text) == ScanLines(pre) + Print(m)[..i];
        Clipped(ScanLines(pre), m, i);
      }
    }
  }

  /** The documented form: the interpreter on the first line, the annotations behind it. */
  lemma ScriptRoundTrip(interpreter: string, m: Metadata, body: string)
    requires Expressible(m) && OneLine(interpreter) && InBuffer(interpreter)
             && Classify(WithoutCr(interpreter)).OtherLine?
    requires 1 + |Print(m)| <= SCAN_HEADER_LINES && IsBody(InWindow(ScanLines(body), 1 + |Print(m)|))
    ensures Declared(ScanLines(interpreter + "\n" + Lines(Print(m)) + body)) == m <==> Printable(m)
  {
    hide ScanLines;
    hide ScanAborts;
    hide Lines;
    hide Declared;
    hide Expressible;
    hide InWindow;
    hide Print;
    hide Printable;
    hide InBuffer;
    hide Classify;
    NothingScanned();
    ScansOne(interpreter, "");
    NothingAborts();
    assert interpreter + "\n" + "" == interpreter + "\n";
    RoundTrip(interpreter + "\n", m, body);
  }

  lemma NothingAborts()
    ensures !ScanAborts("")
  {
  }
}
