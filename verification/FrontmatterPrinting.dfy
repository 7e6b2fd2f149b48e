/** Printing a tool's metadata in the documented header syntax and reading it back. */
module FrontmatterPrinting {
  import opened Results
  import opened Text
  import opened Timeout
  import opened Frontmatter

  function Status(required: bool): (s: string)
    ensures IsWord(s) && ':' !in s && '"' !in s
  {
    hide IsSpace;
    var s := if required then "required" else "optional";
    NoSpaces(s);
    s
  }

  function Fields(p: ParamSpec): seq<string> { [p.name, TypeName(p.paramType), Status(p.required)] }

  /** The part of a Param line in front of the quoted description. */
  function ParamHead(p: ParamSpec): string { "# Param: " + Join(Fields(p), " ") + " " }

  function Quoted(head: string, description: string): string { head + "\"" + description + "\"" }

  function PrintParam(p: ParamSpec): string { Quoted(ParamHead(p), p.description) }

  function PrintDescription(description: string): string { "# Description: " + description }

  function PrintTimeout(t: int64): string { "# Timeout: " + TimeoutText(t as int) }

  function PrintParams(params: seq<ParamSpec>): (lines: seq<string>)
    ensures |lines| == |params|
  {
    if params == [] then [] else [PrintParam(params[0])] + PrintParams(params[1..])
  }

  function PrintTimeoutLine(timeout: Option<int64>): seq<string> {
    if timeout.None? then [] else [PrintTimeout(timeout.value)]
  }

  /** The header of a script with this metadata. */
  function Print(m: Metadata): seq<string> {
    [PrintDescription(m.description)] + PrintParams(m.params) + PrintTimeoutLine(m.timeout)
  }

  /** The values that annotations can express at all. */
  ghost predicate Expressible(m: Metadata) {
    && (forall i :: 0 <= i < |m.params| ==> IsName(m.params[i].name))
    && (m.timeout.Some? ==> exists seconds: nat :: m.timeout.value as int == seconds * SECOND)
  }

  /** A parameter description that no other annotation hides in. */
  predicate Plain(description: string) {
    !Contains(description, DESCRIPTION_PREFIX) && !Contains(description, TIMEOUT_PREFIX)
  }

  // ----- where keywords can occur

  lemma MissingChar(s: string, t: string, k: nat)
    requires k < |t| && t[k] !in s
    ensures !Contains(s, t)
  {
    forall i | 0 <= i <= |s| ensures !OccursAt(s, t, i) {
      NotAt(s, t, i, k);
    }
  }

  /** A keyword has no quote, so it lies in front of the description or inside it. */
  lemma OccursInQuoted(head: string, description: string, key: string, i: nat)
    requires key != "" && '"' !in key && OccursAt(Quoted(head, description), key, i)
    ensures (i + |key| <= |head| && OccursAt(head, key, i))
            || (i > |head| && OccursAt(description, key, i - |head| - 1))
  {
    var line := Quoted(head, description);
    var n := |head|;
    assert line[n] == '"' && line[|line| - 1] == '"';
    if i <= n < i + |key| {
      NotAt(line, key, i, n - i);
      assert false;
    } else if i + |key| <= n {
      assert head[i..i + |key|] == line[i..i + |key|];
    } else if i + |key| == |line| {
      NotAt(line, key, i, |key| - 1);
      assert false;
    } else {
      assert description[i - n - 1..i - n - 1 + |key|] == line[i..i + |key|];
    }
  }

  lemma OccursInDescription(head: string, description: string, key: string, i: nat)
    requires OccursAt(description, key, i)
    ensures OccursAt(Quoted(head, description), key, |head| + 1 + i)
  {
    var line := Quoted(head, description);
    assert line[|head| + 1..|head| + 1 + |description|] == description;
    assert line[|head| + 1 + i..|head| + 1 + i + |key|] == description[i..i + |key|];
  }

  /** The fields have no colon and no quote. */
  lemma FieldChars(p: ParamSpec)
    requires IsName(p.name)
    ensures Join(Fields(p), " ") == p.name + " " + TypeName(p.paramType) + " " + Status(p.required)
    ensures ':' !in Join(Fields(p), " ") && '"' !in Join(Fields(p), " ")
  {
    hide IsSpace;
    JoinThree(p.name, TypeName(p.paramType), Status(p.required));
    assert ':' !in p.name && '"' !in p.name by {
      assert !IsNameChar(':') && !IsNameChar('"');
    }
  }

  /** The head of a Param line has one colon only, at position 7, and no quote. */
  lemma HeadColon(p: ParamSpec)
    requires IsName(p.name)
    ensures var head := ParamHead(p);
            && |head| > 9 && head[..9] == "# Param: " && '"' !in head
            && forall k :: 0 <= k < |head| && head[k] == ':' ==> k == 7
  {
    hide IsSpace;
    FieldChars(p);
    var joined := Join(Fields(p), " ");
    hide Fields;
    hide Join;
    var head := "# Param: " + joined + " ";
    forall k | 9 <= k < |head| - 1 ensures head[k] != ':' {
      assert head[k] == joined[k - 9];
    }
  }

  /** A keyword ends in a colon, so only "Param:" occurs in the head of a Param line. */
  lemma KeyInHead(p: ParamSpec, key: string, i: nat)
    requires IsName(p.name) && key != "" && key[|key| - 1] == ':' && OccursAt(ParamHead(p), key, i)
    ensures i + |key| == 8
  {
    HeadColon(p);
    var head := ParamHead(p);
    assert head[i..i + |key|][|key| - 1] == head[i + |key| - 1];
  }

  /** A keyword other than "Param:" occurs in a Param line exactly if it occurs in the description. */
  lemma KeyInParamLine(p: ParamSpec, key: string)
    requires IsName(p.name) && |key| >= 8 && key[|key| - 1] == ':' && '"' !in key && key[0] != '#'
    ensures Contains(PrintParam(p), key) <==> Contains(p.description, key)
  {
    var head, line := ParamHead(p), PrintParam(p);
    HeadColon(p);
    hide ParamHead;
    assert head[0] == head[..9][0] == '#';
    NotAt(head, key, 0, 0);
    if Contains(line, key) {
      var i: nat :| i <= |line| && OccursAt(line, key, i);
      OccursInQuoted(head, p.description, key, i);
      if i <= |head| {
        KeyInHead(p, key, i);
        assert false;
      }
    }
    if Contains(p.description, key) {
      var i :| 0 <= i <= |p.description| && OccursAt(p.description, key, i);
      OccursInDescription(head, p.description, key, i);
    }
  }

  // ----- reading one printed line

  lemma DescriptionLineRead(description: string)
    ensures Classify(PrintDescription(description)) == DescriptionLine(" " + description)
  {
    var line, key := PrintDescription(description), DESCRIPTION_PREFIX;
    assert OccursAt(line, key, 2);
    IndexIs(line, key, 2);
    assert line[2 + |key|..] == " " + description;
  }

  /** The annotation behind "# Param: ". */
  function Annotation(p: ParamSpec): string { Quoted(Join(Fields(p), " ") + " ", p.description) }

  lemma FieldsOf(p: ParamSpec)
    requires IsName(p.name)
    ensures var joined := Join(Fields(p), " ");
            joined != [] && Trimmed(joined) && !IsSpace(joined[0]) && Words(joined) == Fields(p)
  {
    hide IsSpace;
    FieldChars(p);
    NoSpaces(p.name);
    WordsOfJoin(Fields(p));
    var s := Status(p.required);
    assert !IsSpace(s[|s| - 1]);
  }

  lemma QuotedEnds(head: string, description: string)
    requires '"' !in head
    ensures FirstIndexOf(Quoted(head, description), '"') == Some(|head|)
    ensures LastIndexOf(Quoted(head, description), '"') == Some(|head| + 1 + |description|)
  {
    var line := Quoted(head, description);
    assert line[|head|] == '"' && line[|line| - 1] == '"';
    assert forall j :: 0 <= j < |head| ==> line[j] == head[j];
  }

  lemma TrimTrailing(s: string)
    requires s != [] && Trimmed(s)
    ensures TrimSpace(s + " ") == s
  {
    hide IsSpace;
    SpaceIsSpace();
    var t := s + " ";
    assert t[..|t| - 1] == s;
    assert TrimLeft(t) == t && TrimRight(t) == TrimRight(s) == s;
  }

  lemma QuotedTrimmed(head: string, description: string)
    requires head != [] && !IsSpace(head[0])
    ensures Trimmed(Quoted(head, description))
  {
    AsciiSpace('"');
    hide IsSpace;
    var line := Quoted(head, description);
    assert line[0] == head[0] && line[|line| - 1] == '"';
  }

  lemma ParseQuoted(head: string, description: string, fields: seq<string>)
    requires '"' !in head && Words(TrimSpace(head)) == fields
    ensures ParseParamAnnotation(Quoted(head, description)) == ParseFields(fields, description)
  {
    hide Words;
    hide TrimSpace;
    hide ParseFields;
    QuotedEnds(head, description);
    var line := Quoted(head, description);
    assert line[..|head|] == head && line[|head| + 1..|head| + 1 + |description|] == description;
  }

  /** An annotation is read field by field, its description up to the last quote. */
  lemma AnnotationRead(p: ParamSpec)
    requires IsName(p.name)
    ensures TrimSpace(" " + Annotation(p)) == Annotation(p)
    ensures ParseParamAnnotation(Annotation(p)) == Ok(p)
  {
    hide *;
    var joined := Join(Fields(p), " ");
    FieldChars(p);
    FieldsOf(p);
    FieldsRead(p, p.description);
    AnnotationIs(p);
    QuotedTrimmed(joined + " ", p.description);
    TrimSpaceOf(Annotation(p));
    TrimTrailing(joined);
    ParseQuoted(joined + " ", p.description, Fields(p));
  }

  lemma AnnotationIs(p: ParamSpec)
    ensures Annotation(p) == Quoted(Join(Fields(p), " ") + " ", p.description)
  {
  }

  lemma FieldsRead(p: ParamSpec, description: string)
    requires IsName(p.name)
    ensures ParseFields(Fields(p), description) == Ok(p.(description := description))
  {
    TypeRead(p.paramType);
  }

  lemma TypeRead(t: ParamType)
    ensures ParseType(TypeName(t)) == Some(t)
  {
  }

  /** "Param:" occurs in a Param line first at position 2. */
  lemma ParamLineCut(p: ParamSpec)
    requires IsName(p.name)
    ensures CutAfter(PrintParam(p), PARAM_PREFIX) == Some(" " + Annotation(p))
  {
    HeadColon(p);
    var head, line, key := ParamHead(p), PrintParam(p), PARAM_PREFIX;
    assert line == "# Param:" + (" " + Annotation(p));
    hide ParamHead;
    hide Annotation;
    assert line[2..2 + |key|] == "# Param:"[2..8] == key;
    IndexIs(line, key, 2);
    assert line[8..] == " " + Annotation(p);
  }

  lemma KindOfParamLine(line: string, after: string, p: ParamSpec)
    requires CutAfter(line, PARAM_PREFIX) == Some(after) && ParseParamAnnotation(TrimSpace(after)) == Ok(p)
    ensures Plain(line) ==> Classify(line).ParamLine? && ParamsOfLine(line) == [p]
    ensures !Plain(line) ==> ParamsOfLine(line) == []
  {
    hide ParseParamAnnotation;
    hide TrimSpace;
    hide Contains;
    hide IndexFrom;
  }

  lemma ParamLineRead(p: ParamSpec)
    requires IsName(p.name)
    ensures ParamsOfLine(PrintParam(p)) == if Plain(p.description) then [p] else []
    ensures Plain(p.description) ==> Classify(PrintParam(p)).ParamLine?
  {
    KeyInParamLine(p, DESCRIPTION_PREFIX);
    KeyInParamLine(p, TIMEOUT_PREFIX);
    ParamLineCut(p);
    AnnotationRead(p);
    hide ParseParamAnnotation;
    hide PrintParam;
    hide Annotation;
    hide TrimSpace;
    hide Contains;
    hide Classify;
    hide ParamsOfLine;
    KindOfParamLine(PrintParam(p), " " + Annotation(p), p);
  }

  // ----- the timeout line

  lemma {:induction false} DurationChars(tokens: seq<Token>, c: char)
    requires !IsDigit(c) && !IsUnit(c)
    ensures c !in DurationText(tokens)
  {
    if tokens != [] {
      DurationChars(tokens[1..], c);
      assert c !in tokens[0].digits;
    }
  }

  lemma TimeoutChars(d: int, c: char)
    requires !IsDigit(c) && !IsUnit(c) && c !in "none"
    ensures c !in TimeoutText(d)
  {
    if d > 0 {
      DurationChars(DurationTokens(d / SECOND), c);
    }
  }

  lemma BlankDuration(seconds: nat)
    requires 0 < seconds * SECOND <= MAX_INT64
    ensures Meaning(" " + DurationText(DurationTokens(seconds))) == Some((seconds * SECOND) as int64)
  {
    hide Tokenize;
    hide IsSpace;
    var tokens := DurationTokens(seconds);
    var text, gaps := DurationText(tokens), seq(|tokens| + 1, _ => "");
    DurationSum(seconds);
    DurationMatches(tokens);
    DurationTextStart(tokens);
    TokenizeWritten(text, tokens, gaps);
    assert Tokenize(" " + text) == Some(tokens) by {
      BlankInFront(text, tokens, gaps);
      TokenizeWritten(" " + text, tokens, [" "] + gaps[1..]);
    }
    assert !IsNone(" " + text) by {
      BlankNotNone(text);
    }
  }

  lemma BlankNotNone(text: string)
    requires text != [] && IsDigit(text[0])
    ensures !IsNone(" " + text)
  {
    hide IsSpace;
    SpaceIsSpace();
    DigitNotNone(text);
    assert (" " + text)[1..] == text;
    assert TrimLeft(" " + text) == TrimLeft(text);
  }

  lemma BlankInFront(text: string, tokens: seq<Token>, gaps: seq<string>)
    requires tokens != [] && Matches(text, tokens, gaps) && gaps[0] == ""
    ensures Matches(" " + text, tokens, [" "] + gaps[1..])
  {
    var rest := MatchesTail(text, tokens, gaps);
    assert [" "] + gaps[1..] == [" "] + ([" "] + gaps[1..])[1..];
    assert text == TokenText(tokens[0]) + rest;
    MatchesCons(tokens[0], rest, tokens[1..], " ", gaps[1..]);
    assert [tokens[0]] + tokens[1..] == tokens;
  }

  lemma BlankNone()
    ensures Meaning(" " + "none") == Some(0)
  {
    assert Trimmed("none") by {
      AsciiSpace('n');
      AsciiSpace('e');
    }
    TrimSpaceOf("none");
    hide TrimSpace;
  }

  lemma TimeoutLineRead(t: int64, seconds: nat)
    requires t as int == seconds * SECOND
    ensures Classify(PrintTimeout(t)).TimeoutLine?
    ensures Meaning(Classify(PrintTimeout(t)).text) == Some(t)
  {
    hide Meaning;
    hide TimeoutText;
    var text, line, key := TimeoutText(t as int), PrintTimeout(t), TIMEOUT_PREFIX;
    TimeoutChars(t as int, 'D');
    TimeoutChars(t as int, ':');
    assert DESCRIPTION_PREFIX[0] == 'D';
    MissingChar(line, DESCRIPTION_PREFIX, 0);
    assert OccursAt(line, key, 2);
    IndexIs(line, key, 2);
    assert line[2 + |key|..] == " " + text;
    TextMeaning(t, seconds);
  }

  lemma TextMeaning(t: int64, seconds: nat)
    requires t as int == seconds * SECOND
    ensures Meaning(" " + TimeoutText(t as int)) == Some(t)
  {
    hide Meaning;
    if t > 0 {
      assert t as int / SECOND == seconds;
      BlankDuration(seconds);
      assert TimeoutText(t as int) == DurationText(DurationTokens(seconds));
    } else {
      BlankNone();
    }
  }

  // ----- the whole header

  lemma {:induction false} ParamsOfConcat(a: seq<string>, b: seq<string>)
    ensures ParamsOf(a + b) == ParamsOf(a) + ParamsOf(b)
  {
    hide ParamsOfLine;
    if a == [] {
      assert a + b == b;
    } else {
      assert (a + b)[1..] == a[1..] + b;
      ParamsOfConcat(a[1..], b);
    }
  }

  function PlainParams(params: seq<ParamSpec>): (plain: seq<ParamSpec>)
    ensures |plain| <= |params|
    ensures |plain| == |params| ==> plain == params && forall i :: 0 <= i < |params| ==> Plain(params[i].description)
    ensures (forall i :: 0 <= i < |params| ==> Plain(params[i].description)) ==> plain == params
  {
    if params == [] then []
    else (if Plain(params[0].description) then [params[0]] else []) + PlainParams(params[1..])
  }

  /** Of the printed parameters, those with plain descriptions are read back. */
  lemma {:induction false} ParamsRead(params: seq<ParamSpec>)
    requires forall i :: 0 <= i < |params| ==> IsName(params[i].name)
    ensures ParamsOf(PrintParams(params)) == PlainParams(params)
  {
    hide ParamsOfLine;
    hide PrintParam;
    hide Plain;
    if params != [] {
      ParamLineRead(params[0]);
      ParamsRead(params[1..]);
    }
  }

  /** The script goes on with lines that are no annotations. */
  ghost predicate IsBody(body: seq<string>) {
    forall i :: 0 <= i < |body| ==> Classify(body[i]).OtherLine?
  }

  lemma {:induction false} BodyDeclaresNothing(body: seq<string>)
    requires IsBody(body)
    ensures ParamsOf(body) == [] && TimeoutOf(body) == None
  {
    hide Classify;
    if body != [] {
      BodyDeclaresNothing(body[1..]);
    }
  }

  lemma {:induction false} TimeoutBehind(lines: seq<string>, rest: seq<string>)
    requires forall i :: 0 <= i < |lines| ==> !Classify(lines[i]).TimeoutLine?
    ensures TimeoutOf(lines + rest) == TimeoutOf(rest)
  {
    hide Classify;
    hide Meaning;
    if lines == [] {
      assert lines + rest == rest;
    } else {
      assert (lines + rest)[1..] == lines[1..] + rest;
      TimeoutBehind(lines[1..], rest);
    }
  }

  lemma {:induction false} PrintedParamAt(params: seq<ParamSpec>, i: nat)
    requires i < |params|
    ensures PrintParams(params)[i] == PrintParam(params[i])
  {
    hide PrintParam;
    if i > 0 {
      PrintedParamAt(params[1..], i - 1);
    }
  }

  lemma ParamsOfFour(d: seq<string>, ps: seq<string>, ts: seq<string>, body: seq<string>)
    ensures ParamsOf(d + ps + ts + body) == ParamsOf(d) + ParamsOf(ps) + ParamsOf(ts) + ParamsOf(body)
  {
    hide ParamsOf;
    ParamsOfConcat(d, ps);
    ParamsOfConcat(d + ps, ts);
    ParamsOfConcat(d + ps + ts, body);
  }

  lemma OtherLinesDeclareNoParams(m: Metadata)
    requires Expressible(m)
    ensures ParamsOf([PrintDescription(m.description)]) == [] && ParamsOf(PrintTimeoutLine(m.timeout)) == []
  {
    hide Meaning;
    hide Classify;
    hide ParamsOfLine;
    DescriptionLineRead(m.description);
    NoParams(PrintDescription(m.description));
    hide PrintDescription;
    if m.timeout.Some? {
      var seconds: nat :| m.timeout.value as int == seconds * SECOND;
      TimeoutLineRead(m.timeout.value, seconds);
      hide PrintTimeout;
      NoParams(PrintTimeout(m.timeout.value));
    }
  }

  lemma ParamsPart(m: Metadata, body: seq<string>)
    requires Expressible(m) && IsBody(body)
    ensures ParamsOf(Print(m) + body) == PlainParams(m.params)
  {
    OtherLinesDeclareNoParams(m);
    hide PrintDescription;
    hide PrintTimeoutLine;
    hide PrintParams;
    hide ParamsOf;
    hide PlainParams;
    ParamsRead(m.params);
    BodyDeclaresNothing(body);
    ParamsOfFour([PrintDescription(m.description)], PrintParams(m.params), PrintTimeoutLine(m.timeout), body);
  }

  lemma DescriptionHasNoTimeout(m: Metadata)
    ensures !Classify(PrintDescription(m.description)).TimeoutLine?
  {
    DescriptionLineRead(m.description);
    hide Classify;
    hide PrintDescription;
  }

  lemma ParamHasNoTimeout(p: ParamSpec)
    requires IsName(p.name) && Plain(p.description)
    ensures !Classify(PrintParam(p)).TimeoutLine?
  {
    ParamLineRead(p);
    hide Classify;
    hide PrintParam;
    hide Plain;
  }

  lemma FrontHasNoTimeout(m: Metadata, i: nat)
    requires Expressible(m) && i < 1 + |m.params|
    requires forall i :: 0 <= i < |m.params| ==> Plain(m.params[i].description)
    ensures !Classify(([PrintDescription(m.description)] + PrintParams(m.params))[i]).TimeoutLine?
  {
    hide Classify;
    hide PrintParam;
    hide PrintDescription;
    hide Plain;
    if i > 0 {
      PrintedParamAt(m.params, i - 1);
      ParamHasNoTimeout(m.params[i - 1]);
      hide PrintParams;
      assert ([PrintDescription(m.description)] + PrintParams(m.params))[i] == PrintParam(m.params[i - 1]);
    } else {
      DescriptionHasNoTimeout(m);
      hide PrintParams;
    }
  }

  lemma TimeoutPart(m: Metadata, body: seq<string>)
    requires Expressible(m) && IsBody(body)
    requires forall i :: 0 <= i < |m.params| ==> Plain(m.params[i].description)
    ensures TimeoutOf(Print(m) + body) == m.timeout
  {
    hide Plain;
    hide Classify;
    hide TimeoutOf;
    hide PrintDescription;
    hide PrintParams;
    hide PrintTimeoutLine;
    var front, ts := [PrintDescription(m.description)] + PrintParams(m.params), PrintTimeoutLine(m.timeout);
    forall i | 0 <= i < |front| ensures !Classify(front[i]).TimeoutLine? {
      FrontHasNoTimeout(m, i);
    }
    TimeoutBehind(front, ts + body);
    assert Print(m) + body == front + (ts + body);
    TimeoutFirst(m.timeout, body);
  }

  lemma TimeoutFirst(timeout: Option<int64>, body: seq<string>)
    requires timeout.Some? ==> exists seconds: nat :: timeout.value as int == seconds * SECOND
    requires IsBody(body)
    ensures TimeoutOf(PrintTimeoutLine(timeout) + body) == timeout
  {
    hide Classify;
    hide Meaning;
    hide PrintTimeout;
    var ts := PrintTimeoutLine(timeout);
    if timeout.Some? {
      var seconds: nat :| timeout.value as int == seconds * SECOND;
      TimeoutLineRead(timeout.value, seconds);
      assert (ts + body)[0] == ts[0];
    } else {
      assert ts + body == body;
      BodyDeclaresNothing(body);
    }
  }

  lemma DescriptionPart(m: Metadata, body: seq<string>)
    ensures DescriptionOf(Print(m) + body) == TrimSpace(" " + m.description)
  {
    hide PrintParams;
    hide PrintTimeoutLine;
    DescriptionLineRead(m.description);
    assert (Print(m) + body)[0] == PrintDescription(m.description);
  }

  lemma NoParams(line: string)
    requires !Classify(line).ParamLine?
    ensures ParamsOf([line]) == []
  {
    assert [line][1..] == [];
  }

  /** The lines of the body that are still within the scanned header. */
  function InWindow(body: seq<string>, used: nat): seq<string> {
    if used + |body| <= SCAN_HEADER_LINES then body
    else if used <= SCAN_HEADER_LINES then body[..SCAN_HEADER_LINES - used]
    else []
  }

  /** Lines without annotations in front of others change nothing. */
  lemma {:induction false} BodyIgnored(pre: seq<string>, rest: seq<string>)
    requires IsBody(pre)
    ensures DescriptionOf(pre + rest) == DescriptionOf(rest)
    ensures ParamsOf(pre + rest) == ParamsOf(rest)
    ensures TimeoutOf(pre + rest) == TimeoutOf(rest)
  {
    hide Classify;
    hide Meaning;
    hide ParseParamAnnotation;
    hide TrimSpace;
    if pre == [] {
      assert pre + rest == rest;
    } else {
      assert (pre + rest)[1..] == pre[1..] + rest;
      BodyIgnored(pre[1..], rest);
    }
  }

  /** Reading printed lines, with any other lines before and behind them, gives the metadata
      back exactly when the description is trimmed and no parameter description contains
      another annotation's keyword; quotes in parameter descriptions do no harm. */
  lemma LinesRoundTrip(pre: seq<string>, m: Metadata, body: seq<string>)
    requires Expressible(m) && IsBody(pre) && |pre| + |Print(m)| <= SCAN_HEADER_LINES
    requires IsBody(InWindow(body, |pre| + |Print(m)|))
    ensures Declared(pre + Print(m) + body) == m <==>
            Trimmed(m.description) && forall i :: 0 <= i < |m.params| ==> Plain(m.params[i].description)
  {
    hide *;
    var scanned := InWindow(body, |pre| + |Print(m)|);
    DeclaredBehind(pre, m, body);
    TrimSpaceTrims(" " + m.description);
    if Trimmed(m.description) {
      TrimSpaceOf(m.description);
    }
    if forall i :: 0 <= i < |m.params| ==> Plain(m.params[i].description) {
      TimeoutPart(m, scanned);
    }
  }

  /** What is declared by printed lines. */
  lemma DeclaredBehind(pre: seq<string>, m: Metadata, body: seq<string>)
    requires Expressible(m) && IsBody(pre) && |pre| + |Print(m)| <= SCAN_HEADER_LINES
    requires IsBody(InWindow(body, |pre| + |Print(m)|))
    ensures var timeout := TimeoutOf(Print(m) + InWindow(body, |pre| + |Print(m)|));
            Declared(pre + Print(m) + body) == Metadata(TrimSpace(" " + m.description), PlainParams(m.params), timeout)
  {
    hide *;
    var lines, scanned := pre + Print(m) + body, InWindow(body, |pre| + |Print(m)|);
    HeaderOfPrinted(pre + Print(m), body);
    assert Header(lines) == pre + (Print(m) + scanned);
    BodyIgnored(pre, Print(m) + scanned);
    DescriptionPart(m, scanned);
    ParamsPart(m, scanned);
    DeclaredParts(lines);
  }

  lemma HeaderOfPrinted(header: seq<string>, body: seq<string>)
    requires |header| <= SCAN_HEADER_LINES
    ensures Header(header + body) == header + InWindow(body, |header|)
  {
  }

  lemma DeclaredParts(lines: seq<string>)
    ensures Declared(lines) == Metadata(DescriptionOf(Header(lines)), ParamsOf(Header(lines)), TimeoutOf(Header(lines)))
  {
  }
}
