/** The annotations in the first lines of a script (discover.go). A file is the sequence of
    lines that the line scanner delivers. */
module Frontmatter {
  import opened Results
  import opened Text
  import opened Timeout

  const SCAN_HEADER_LINES: nat := 30
  const DESCRIPTION_PREFIX: string := "Description:"
  const PARAM_PREFIX: string := "Param:"
  const TIMEOUT_PREFIX: string := "Timeout:"

  datatype ParamType = StringType | NumberType | BooleanType

  function TypeName(t: ParamType): (s: string)
    ensures IsWord(s) && ':' !in s && '"' !in s
  {
    hide IsSpace;
    var s := match t case StringType => "string" case NumberType => "number" case BooleanType => "boolean";
    NoSpaces(s);
    s
  }

  datatype ParamSpec = ParamSpec(name: string, paramType: ParamType, required: bool, description: string)

  datatype Metadata = Metadata(description: string, params: seq<ParamSpec>, timeout: Option<int64>)

  datatype ParamError = Unquoted | FieldCount | BadName | BadType | BadStatus

  datatype Warning = IgnoredTimeout | SkippedParam(reason: ParamError)

  // ----- names

  predicate IsLetter(c: char) { 'a' <= c <= 'z' || 'A' <= c <= 'Z' }

  predicate IsNameChar(c: char) { IsLetter(c) || '0' <= c <= '9' || c == '_' || c == '-' }

  /** The pattern ^[a-zA-Z][a-zA-Z0-9_-]*$. */
  predicate IsName(s: string) {
    s != [] && IsLetter(s[0]) && forall k :: 0 <= k < |s| ==> IsNameChar(s[k])
  }

  /** The code of an ASCII letter. */
  predicate LetterCode(n: int) { 65 <= n <= 90 || 97 <= n <= 122 }

  /** A name begins with a letter and goes on with letters, digits, underscores and hyphens. */
  lemma NameIff(s: string)
    ensures IsName(s) <==>
            && s != "" && LetterCode(s[0] as int)
            && forall k :: 0 <= k < |s| ==>
                 var n := s[k] as int; LetterCode(n) || 48 <= n <= 57 || n == 95 || n == 45
  {
  }

  lemma NoSpaces(s: string)
    requires forall k :: 0 <= k < |s| ==> IsNameChar(s[k])
    ensures forall k :: 0 <= k < |s| ==> !IsSpace(s[k])
  {
    forall k | 0 <= k < |s| ensures !IsSpace(s[k]) {
      AsciiSpace(s[k]);
    }
  }

  // ----- one Param annotation

  function ParseType(s: string): Option<ParamType> {
    if s == "string" then Some(StringType)
    else if s == "number" then Some(NumberType)
    else if s == "boolean" then Some(BooleanType)
    else None
  }

  /** The fields of an annotation in front of its quoted description. */
  function ParseFields(tokens: seq<string>, description: string): Result<ParamSpec, ParamError> {
    if |tokens| != 3 then Err(FieldCount)
    else if !IsName(tokens[0]) then Err(BadName)
    else if ParseType(tokens[1]).None? then Err(BadType)
    else if tokens[2] == "required" then Ok(ParamSpec(tokens[0], ParseType(tokens[1]).value, true, description))
    else if tokens[2] == "optional" then Ok(ParamSpec(tokens[0], ParseType(tokens[1]).value, false, description))
    else Err(BadStatus)
  }

  function ParseParamAnnotation(annotation: string): Result<ParamSpec, ParamError> {
    var first, last := FirstIndexOf(annotation, '"'), LastIndexOf(annotation, '"');
    if first.None? || last.None? || first == last then Err(Unquoted)
    else
      ParseFields(Words(TrimSpace(annotation[..first.value])), annotation[first.value + 1..last.value])
  }

  // ----- what the header declares

  datatype LineKind = DescriptionLine(text: string) | TimeoutLine(text: string) | ParamLine(annotation: string)
      | OtherLine

  function Classify(line: string): LineKind {
    if CutAfter(line, DESCRIPTION_PREFIX).Some? then DescriptionLine(CutAfter(line, DESCRIPTION_PREFIX).value)
    else if CutAfter(line, TIMEOUT_PREFIX).Some? then TimeoutLine(CutAfter(line, TIMEOUT_PREFIX).value)
    else if CutAfter(line, PARAM_PREFIX).Some? then ParamLine(TrimSpace(CutAfter(line, PARAM_PREFIX).value))
    else OtherLine
  }

  function Header(lines: seq<string>): seq<string> {
    if |lines| <= SCAN_HEADER_LINES then lines else lines[..SCAN_HEADER_LINES]
  }

  function DescriptionOf(header: seq<string>): string {
    if header == [] then ""
    else if Classify(header[0]).DescriptionLine? then TrimSpace(Classify(header[0]).text)
    else DescriptionOf(header[1..])
  }

  function TimeoutOf(header: seq<string>): Option<int64> {
    if header == [] then None
    else if Classify(header[0]).TimeoutLine? then Meaning(Classify(header[0]).text)
    else TimeoutOf(header[1..])
  }

  /** The parameter that a line declares, if it declares a valid one. */
  function ParamsOfLine(line: string): (ps: seq<ParamSpec>)
    ensures |ps| <= 1
  {
    var kind := Classify(line);
    if kind.ParamLine? && ParseParamAnnotation(kind.annotation).Ok?
    then [ParseParamAnnotation(kind.annotation).value]
    else []
  }

  function ParamsOf(header: seq<string>): seq<ParamSpec> {
    if header == [] then [] else ParamsOfLine(header[0]) + ParamsOf(header[1..])
  }

  /** The warning that a line causes: an invalid parameter, or an invalid timeout if it is
      the first one. */
  function WarningsOfLine(line: string, timeoutSeen: bool): seq<Warning> {
    match Classify(line)
    case TimeoutLine(text) => if !timeoutSeen && Meaning(text).None? then [IgnoredTimeout] else []
    case ParamLine(annotation) =>
      (match ParseParamAnnotation(annotation) case Err(reason) => [SkippedParam(reason)] case Ok(_) => [])
    case _ => []
  }

  function WarningsOf(header: seq<string>, timeoutSeen: bool): seq<Warning> {
    if header == [] then []
    else
      var seen := timeoutSeen || Classify(header[0]).TimeoutLine?;
      WarningsOfLine(header[0], timeoutSeen) + WarningsOf(header[1..], seen)
  }

  /** The metadata that a file declares: the first description, the first timeout, valid or
      not, and every valid parameter, among the first 30 lines. */
  function Declared(lines: seq<string>): Metadata {
    var header := Header(lines);
    Metadata(DescriptionOf(header), ParamsOf(header), TimeoutOf(header))
  }

  /** Declared says what "first" means: line i counts if no earlier line is of its kind. */
  lemma {:induction false} FirstDescriptionWins(header: seq<string>, i: nat)
    requires i < |header| && Classify(header[i]).DescriptionLine?
    requires forall j :: 0 <= j < i ==> !Classify(header[j]).DescriptionLine?
    ensures DescriptionOf(header) == TrimSpace(Classify(header[i]).text)
  {
    hide TrimSpace;
    hide Classify;
    if i > 0 {
      FirstDescriptionWins(header[1..], i - 1);
    }
  }

  lemma {:induction false} FirstTimeoutWins(header: seq<string>, i: nat)
    requires i < |header| && Classify(header[i]).TimeoutLine?
    requires forall j :: 0 <= j < i ==> !Classify(header[j]).TimeoutLine?
    ensures TimeoutOf(header) == Meaning(Classify(header[i]).text)
  {
    hide Meaning;
    hide Classify;
    if i > 0 {
      FirstTimeoutWins(header[1..], i - 1);
    }
  }

  lemma {:induction false} NoTimeoutWarning(header: seq<string>)
    ensures IgnoredTimeout !in WarningsOf(header, true)
  {
    hide Classify;
    hide Meaning;
    hide ParseParamAnnotation;
    if header != [] {
      NoTimeoutWarning(header[1..]);
    }
  }

  /** An invalid timeout is reported exactly if it is that of the first timeout line. */
  lemma {:induction false} FirstTimeoutWarned(header: seq<string>, i: nat)
    requires i < |header| && Classify(header[i]).TimeoutLine?
    requires forall j :: 0 <= j < i ==> !Classify(header[j]).TimeoutLine?
    ensures IgnoredTimeout in WarningsOf(header, false) <==> Meaning(Classify(header[i]).text).None?
  {
    hide Classify;
    hide Meaning;
    hide ParseParamAnnotation;
    if i > 0 {
      FirstTimeoutWarned(header[1..], i - 1);
    } else {
      NoTimeoutWarning(header[1..]);
    }
  }

  /** The words of a declaration in front of its quoted description. */
  ghost predicate Spells(words: seq<string>, p: ParamSpec) {
    && |words| == 3
    && words[0] == p.name
    && words[1] == (match p.paramType
                    case StringType => "string" case NumberType => "number" case BooleanType => "boolean")
    && words[2] == if p.required then "required" else "optional"
  }

  /** A description in quotes with something before and behind. */
  function Enclosed(head: string, description: string, behind: string): string {
    head + ("\"" + description + "\"") + behind
  }

  /** The annotation declares p: words without quotes, the quoted description, and whatever
      follows the last quote. */
  ghost predicate Declares(annotation: string, p: ParamSpec, head: string, behind: string) {
    && annotation == Enclosed(head, p.description, behind)
    && '"' !in head && '"' !in behind
    && Spells(Words(head), p) && IsName(p.name)
  }

  lemma FieldsAcceptedIff(words: seq<string>, p: ParamSpec)
    ensures ParseFields(words, p.description) == Ok(p) <==> Spells(words, p) && IsName(p.name)
  {
    hide IsName;
  }

  lemma EnclosedAt(head: string, description: string, behind: string)
    ensures var s, last := Enclosed(head, description, behind), |head| + 1 + |description|;
            && |s| == last + 1 + |behind| && s[|head|] == '"' && s[last] == '"'
            && s[..|head|] == head && s[|head| + 1..last] == description && s[last + 1..] == behind
  {
  }

  lemma EnclosedQuotes(head: string, description: string, behind: string)
    requires '"' !in head && '"' !in behind
    ensures FirstIndexOf(Enclosed(head, description, behind), '"') == Some(|head|)
    ensures LastIndexOf(Enclosed(head, description, behind), '"') == Some(|head| + 1 + |description|)
  {
    EnclosedAt(head, description, behind);
    var s, last := Enclosed(head, description, behind), |head| + 1 + |description|;
    hide Enclosed;
    assert forall j :: 0 <= j < |head| ==> s[j] == head[j];
    assert forall j :: last < j < |s| ==> s[j] == s[last + 1..][j - last - 1];
  }

  lemma ParseAt(s: string, i: nat, j: nat)
    requires i < j < |s| && FirstIndexOf(s, '"') == Some(i) && LastIndexOf(s, '"') == Some(j)
    ensures ParseParamAnnotation(s) == ParseFields(Words(s[..i]), s[i + 1..j])
  {
    WordsOfTrimmed(s[..i]);
    hide FirstIndexOf;
    hide LastIndexOf;
    hide Words;
    hide TrimSpace;
    hide ParseFields;
  }

  lemma ParseEnclosed(head: string, description: string, behind: string)
    requires '"' !in head && '"' !in behind
    ensures ParseParamAnnotation(Enclosed(head, description, behind)) == ParseFields(Words(head), description)
  {
    hide *;
    EnclosedAt(head, description, behind);
    EnclosedQuotes(head, description, behind);
    ParseAt(Enclosed(head, description, behind), |head|, |head| + 1 + |description|);
  }

  lemma SplitAt(s: string, i: nat, j: nat)
    requires i < j < |s| && s[i] == '"' && s[j] == '"'
    ensures s == Enclosed(s[..i], s[i + 1..j], s[j + 1..])
  {
    assert s == s[..i] + (s[i..j + 1] + s[j + 1..]);
    assert s[i..j + 1] == "\"" + s[i + 1..j] + "\"";
    Text.Associate(s[..i], s[i..j + 1], s[j + 1..]);
  }

  /** What is not refused for its quotes has a quoted description. */
  lemma AcceptedIsEnclosed(annotation: string) returns (head: string, description: string, behind: string)
    requires ParseParamAnnotation(annotation) != Err(Unquoted)
    ensures annotation == Enclosed(head, description, behind) && '"' !in head && '"' !in behind
  {
    hide Enclosed;
    hide ParseFields;
    hide Words;
    hide TrimSpace;
    var i, j := FirstIndexOf(annotation, '"').value, LastIndexOf(annotation, '"').value;
    SplitAt(annotation, i, j);
    head, description, behind := annotation[..i], annotation[i + 1..j], annotation[j + 1..];
    assert forall k :: 0 <= k < |behind| ==> behind[k] == annotation[j + 1 + k];
  }

  /** An annotation is accepted as p exactly if it declares p. */
  lemma AnnotationAcceptedIff(annotation: string, p: ParamSpec)
    ensures ParseParamAnnotation(annotation) == Ok(p) <==> exists head, behind :: Declares(annotation, p, head, behind)
  {
    if ParseParamAnnotation(annotation) == Ok(p) {
      var head, description, behind := AcceptedIsEnclosed(annotation);
      hide *;
      ParseEnclosed(head, description, behind);
      FieldsKeepDescription(Words(head), description);
      FieldsAcceptedIff(Words(head), p);
      assert Declares(annotation, p, head, behind) by {
        DeclaresThat(annotation, p, head, behind);
      }
    }
    if head, behind :| Declares(annotation, p, head, behind) {
      hide Spells;
      hide IsName;
      hide Words;
      hide Enclosed;
      hide ParseFields;
      hide ParseParamAnnotation;
      ParseEnclosed(head, p.description, behind);
      FieldsAcceptedIff(Words(head), p);
    }
  }

  lemma DeclaresThat(annotation: string, p: ParamSpec, head: string, behind: string)
    requires annotation == Enclosed(head, p.description, behind) && '"' !in head && '"' !in behind
    requires Spells(Words(head), p) && IsName(p.name)
    ensures Declares(annotation, p, head, behind)
  {
  }

  /** An annotation is refused for the first thing that is wrong with it. */
  lemma RefusedFor(head: string, description: string, behind: string)
    requires '"' !in head && '"' !in behind
    ensures var r, words := ParseParamAnnotation(Enclosed(head, description, behind)), Words(head);
            && (r == Err(FieldCount) <==> |words| != 3)
            && (r == Err(BadName) <==> |words| == 3 && !IsName(words[0]))
            && (r == Err(BadType) <==>
                 |words| == 3 && IsName(words[0]) && words[1] !in ["string", "number", "boolean"])
            && (r == Err(BadStatus) <==>
                 && |words| == 3 && IsName(words[0]) && words[1] in ["string", "number", "boolean"]
                 && words[2] !in ["required", "optional"])
  {
    ParseEnclosed(head, description, behind);
    FieldsRefusedFor(Words(head), description);
    hide *;
  }

  lemma FieldsRefusedFor(words: seq<string>, description: string)
    ensures var r := ParseFields(words, description);
            && r != Err(Unquoted)
            && (r == Err(FieldCount) <==> |words| != 3)
            && (r == Err(BadName) <==> |words| == 3 && !IsName(words[0]))
            && (r == Err(BadType) <==>
                 |words| == 3 && IsName(words[0]) && words[1] !in ["string", "number", "boolean"])
            && (r == Err(BadStatus) <==>
                 && |words| == 3 && IsName(words[0]) && words[1] in ["string", "number", "boolean"]
                 && words[2] !in ["required", "optional"])
  {
    hide IsName;
  }

  /** It is refused as unquoted exactly if it has fewer than two quotes. */
  lemma UnquotedIff(annotation: string)
    ensures ParseParamAnnotation(annotation) == Err(Unquoted) <==>
            !exists i, j :: 0 <= i < j < |annotation| && annotation[i] == '"' && annotation[j] == '"'
  {
    var first, last := FirstIndexOf(annotation, '"'), LastIndexOf(annotation, '"');
    if first.Some? && first != last {
      FieldsRefusedFor(Words(TrimSpace(annotation[..first.value])), annotation[first.value + 1..last.value]);
    }
    hide FirstIndexOf;
    hide LastIndexOf;
    hide Words;
    hide TrimSpace;
    hide ParseFields;
  }

  lemma FieldsKeepDescription(words: seq<string>, description: string)
    ensures var r := ParseFields(words, description); r.Ok? ==> r.value.description == description
  {
  }

  /** A parameter line is reported exactly if it is not valid, with the reason. */
  lemma {:induction false} InvalidParamsWarned(header: seq<string>, timeoutSeen: bool, reason: ParamError)
    ensures SkippedParam(reason) in WarningsOf(header, timeoutSeen) <==>
            exists i :: 0 <= i < |header| && Classify(header[i]).ParamLine?
                        && ParseParamAnnotation(Classify(header[i]).annotation) == Err(reason)
  {
    hide Classify;
    hide Meaning;
    hide ParseParamAnnotation;
    if header != [] {
      var tail := header[1..];
      InvalidParamsWarned(tail, timeoutSeen || Classify(header[0]).TimeoutLine?, reason);
      assert forall i :: 0 <= i < |tail| ==> tail[i] == header[i + 1];
      assert forall i :: 0 < i < |header| ==> header[i] == tail[i - 1];
    }
  }

  /** The flags and values after some lines of the header. */
  ghost predicate Scanned(header: seq<string>, k: nat, description: string, descriptionSeen: bool,
                          timeout: Option<int64>, timeoutSeen: bool, params: seq<ParamSpec>, warnings: seq<Warning>)
  {
    && k <= |header|
    && DescriptionOf(header) == (if descriptionSeen then description else DescriptionOf(header[k..]))
    && TimeoutOf(header) == (if timeoutSeen then timeout else TimeoutOf(header[k..]))
    && ParamsOf(header) == params + ParamsOf(header[k..])
    && WarningsOf(header, false) == warnings + WarningsOf(header[k..], timeoutSeen)
    && (!descriptionSeen ==> description == "")
    && (!timeoutSeen ==> timeout == None)
  }

  lemma ScanNext(header: seq<string>, k: nat, description: string, descriptionSeen: bool,
                 timeout: Option<int64>, timeoutSeen: bool, params: seq<ParamSpec>, warnings: seq<Warning>)
    requires k < |header| && Scanned(header, k, description, descriptionSeen, timeout, timeoutSeen, params, warnings)
    ensures var kind := Classify(header[k]);
            Scanned(header, k + 1,
                    if kind.DescriptionLine? && !descriptionSeen then TrimSpace(kind.text)
                        else description, descriptionSeen || kind.DescriptionLine?,
                    if kind.TimeoutLine? && !timeoutSeen then Meaning(kind.text)
                        else timeout, timeoutSeen || kind.TimeoutLine?,
                    params + ParamsOfLine(header[k]), warnings + WarningsOfLine(header[k], timeoutSeen))
  {
    hide Classify;
    hide ParseParamAnnotation;
    hide Meaning;
    hide TrimSpace;
    assert header[k..][1..] == header[k + 1..] && header[k..][0] == header[k];
    var param, others := ParamsOfLine(header[k]), ParamsOf(header[k + 1..]);
    assert params + (param + others) == params + param + others;
    var next := WarningsOf(header[k + 1..], timeoutSeen || Classify(header[k]).TimeoutLine?);
    var warning := WarningsOfLine(header[k], timeoutSeen);
    assert warnings + (warning + next) == warnings + warning + next;
  }

  lemma ScanDescription(header: seq<string>, k: nat, description: string, descriptionSeen: bool,
                        timeout: Option<int64>, timeoutSeen: bool, params: seq<ParamSpec>, warnings: seq<Warning>)
    requires k < |header| && Scanned(header, k, description, descriptionSeen, timeout, timeoutSeen, params, warnings)
    requires CutAfter(header[k], DESCRIPTION_PREFIX).Some?
    ensures var text := TrimSpace(CutAfter(header[k], DESCRIPTION_PREFIX).value);
            Scanned(header, k + 1, if descriptionSeen then description else text, true, timeout, timeoutSeen, params,
                warnings)
  {
    hide Scanned;
    hide Meaning;
    hide TrimSpace;
    hide ParseParamAnnotation;
    ScanNext(header, k, description, descriptionSeen, timeout, timeoutSeen, params, warnings);
    assert params + [] == params && warnings + [] == warnings;
    hide CutAfter;
  }

  lemma ScanTimeout(header: seq<string>, k: nat, description: string, descriptionSeen: bool,
                    timeout: Option<int64>, timeoutSeen: bool, params: seq<ParamSpec>, warnings: seq<Warning>)
    requires k < |header| && Scanned(header, k, description, descriptionSeen, timeout, timeoutSeen, params, warnings)
    requires CutAfter(header[k], DESCRIPTION_PREFIX).None? && CutAfter(header[k], TIMEOUT_PREFIX).Some?
    ensures var meaning := Meaning(CutAfter(header[k], TIMEOUT_PREFIX).value);
            var warning := if !timeoutSeen && meaning.None? then [IgnoredTimeout] else [];
            Scanned(header, k + 1, description, descriptionSeen, if timeoutSeen then timeout else meaning, true,
                    params, warnings + warning)
  {
    hide Scanned;
    hide Meaning;
    hide TrimSpace;
    hide ParseParamAnnotation;
    ScanNext(header, k, description, descriptionSeen, timeout, timeoutSeen, params, warnings);
    assert params + [] == params && warnings + [] == warnings;
    hide CutAfter;
  }

  lemma ScanParam(header: seq<string>, k: nat, description: string, descriptionSeen: bool,
                  timeout: Option<int64>, timeoutSeen: bool, params: seq<ParamSpec>, warnings: seq<Warning>)
    requires k < |header| && Scanned(header, k, description, descriptionSeen, timeout, timeoutSeen, params, warnings)
    requires CutAfter(header[k], DESCRIPTION_PREFIX).None? && CutAfter(header[k], TIMEOUT_PREFIX).None?
    requires CutAfter(header[k], PARAM_PREFIX).Some?
    ensures var param := ParseParamAnnotation(TrimSpace(CutAfter(header[k], PARAM_PREFIX).value));
            Scanned(header, k + 1, description, descriptionSeen, timeout, timeoutSeen,
                    params + (if param.Ok? then [param.value] else []),
                    warnings + (if param.Err? then [SkippedParam(param.error)] else []))
  {
    hide Scanned;
    hide Meaning;
    hide TrimSpace;
    hide ParseParamAnnotation;
    ScanNext(header, k, description, descriptionSeen, timeout, timeoutSeen, params, warnings);
    assert params + [] == params && warnings + [] == warnings;
    hide CutAfter;
  }

  lemma ScanOther(header: seq<string>, k: nat, description: string, descriptionSeen: bool,
                  timeout: Option<int64>, timeoutSeen: bool, params: seq<ParamSpec>, warnings: seq<Warning>)
    requires k < |header| && Scanned(header, k, description, descriptionSeen, timeout, timeoutSeen, params, warnings)
    requires CutAfter(header[k], DESCRIPTION_PREFIX).None? && CutAfter(header[k], TIMEOUT_PREFIX).None?
    requires CutAfter(header[k], PARAM_PREFIX).None?
    ensures Scanned(header, k + 1, description, descriptionSeen, timeout, timeoutSeen, params, warnings)
  {
    hide Scanned;
    hide Meaning;
    hide TrimSpace;
    hide ParseParamAnnotation;
    ScanNext(header, k, description, descriptionSeen, timeout, timeoutSeen, params, warnings);
    assert params + [] == params && warnings + [] == warnings;
    hide CutAfter;
  }

  lemma ScanStart(header: seq<string>)
    ensures Scanned(header, 0, "", false, None, false, [], [])
  {
    hide DescriptionOf;
    hide TimeoutOf;
    hide ParamsOf;
    hide WarningsOf;
    assert header[0..] == header;
    assert [] + ParamsOf(header) == ParamsOf(header);
    assert [] + WarningsOf(header, false) == WarningsOf(header, false);
  }

  lemma ScanEnd(header: seq<string>, description: string, descriptionSeen: bool,
                timeout: Option<int64>, timeoutSeen: bool, params: seq<ParamSpec>, warnings: seq<Warning>)
    requires Scanned(header, |header|, description, descriptionSeen, timeout, timeoutSeen, params, warnings)
    ensures DescriptionOf(header) == description && TimeoutOf(header) == timeout
    ensures ParamsOf(header) == params && WarningsOf(header, false) == warnings
  {
    hide DescriptionOf;
    hide TimeoutOf;
    hide ParamsOf;
    hide WarningsOf;
    NothingDeclared(timeoutSeen);
    assert header[|header|..] == [];
    assert params + [] == params && warnings + [] == warnings;
  }

  lemma NothingDeclared(timeoutSeen: bool)
    ensures DescriptionOf([]) == "" && TimeoutOf([]) == None && ParamsOf([]) == [] && WarningsOf([], timeoutSeen) == []
  {
  }

  /** The flag-driven scan of a file. */
  method ExtractFrontmatter(lines: seq<string>)
    returns (description: string, params: seq<ParamSpec>, timeout: Option<int64>, warnings: seq<Warning>)
    ensures Metadata(description, params, timeout) == Declared(lines)
    ensures warnings == WarningsOf(Header(lines), false)
  {
    hide Scanned;
    hide CutAfter;
    hide ParseParamAnnotation;
    hide Meaning;
    hide TrimSpace;
    hide DescriptionOf;
    hide TimeoutOf;
    hide ParamsOf;
    hide WarningsOf;
    description, params, timeout, warnings := "", [], None, [];
    var descriptionSeen, timeoutSeen, lineCount := false, false, 0;
    ghost var header := Header(lines);
    ScanStart(header);
    while lineCount < SCAN_HEADER_LINES
      invariant lineCount <= |header|
      invariant Scanned(header, lineCount, description, descriptionSeen, timeout, timeoutSeen, params, warnings)
      invariant !timeoutSeen ==> timeout == None
      decreases |header| - lineCount
    {
      if lineCount >= |lines| {
        break;
      }
      var line := lines[lineCount];
      assert line == header[lineCount];
      ghost var k := lineCount;
      lineCount := lineCount + 1;
      var after := CutAfter(line, DESCRIPTION_PREFIX);
      if after.Some? {
        ScanDescription(header, k, description, descriptionSeen, timeout, timeoutSeen, params, warnings);
        if !descriptionSeen {
          description := TrimSpace(after.value);
        }
        descriptionSeen := true;
        continue;
      }
      after := CutAfter(line, TIMEOUT_PREFIX);
      if after.Some? {
        ScanTimeout(header, k, description, descriptionSeen, timeout, timeoutSeen, params, warnings);
        ghost var quiet: seq<Warning> := [];
        assert warnings + quiet == warnings;
        if !timeoutSeen {
          var duration := ParseTimeoutDuration(after.value);
          if duration.Err? {
            warnings := warnings + [IgnoredTimeout];
          } else {
            timeout := Some(duration.value);
          }
        }
        timeoutSeen := true;
        continue;
      }
      after := CutAfter(line, PARAM_PREFIX);
      if after.Some? {
        ScanParam(header, k, description, descriptionSeen, timeout, timeoutSeen, params, warnings);
        var param := ParseParamAnnotation(TrimSpace(after.value));
        ghost var none: seq<ParamSpec>, quiet: seq<Warning> := [], [];
        assert params + none == params && warnings + quiet == warnings;
        if param.Ok? {
          params := params + [param.value];
        } else {
          warnings := warnings + [SkippedParam(param.error)];
        }
      } else {
        ScanOther(header, k, description, descriptionSeen, timeout, timeoutSeen, params, warnings);
      }
    }
    ScanEnd(header, description, descriptionSeen, timeout, timeoutSeen, params, warnings);
  }
}
