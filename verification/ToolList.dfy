/** The human-readable tool list and its live form (list.go, diagnostic.go). */
module ToolList {
  import opened Results
  import opened Text
  import opened Timeout
  import opened Frontmatter
  import opened Schema
  import opened Discover
  import WordWrap

  /** The frontmatter description and the timeout suffix; the suffix alone if there is none. */
  function RegisteredDescription(description: string, timeout: int64): string {
    if description == "" then TimeoutSuffix(timeout as int) else description + " " + TimeoutSuffix(timeout as int)
  }

  function ToolDescription(tool: DiscoveredTool, global: int64): string {
    RegisteredDescription(tool.description, Resolve(tool.timeout, global))
  }

  // ----- signatures

  function ShortType(t: ParamType): string {
    match t
    case StringType => "str"
    case NumberType => "num"
    case BooleanType => "bool"
  }

  function ListParamDecl(p: ParamSpec): string {
    var decl := p.name + ":" + ShortType(p.paramType);
    if p.required then decl else "[" + decl + "]"
  }

  function Decls(params: seq<ParamSpec>): (parts: seq<string>)
    ensures |parts| == |params|
  {
    seq(|params|, i requires 0 <= i < |params| => ListParamDecl(params[i]))
  }

  function Signature(name: string, params: seq<ParamSpec>): string {
    name + "(" + Join(Decls(Normalized(params)), ", ") + ")"
  }

  method ToolListSignature(name: string, params: seq<ParamSpec>) returns (r: string)
    ensures r == Signature(name, params)
  {
    var normalized := NormalizeParams(params);
    hide Normalized;
    var parts: seq<string> := [];
    for i := 0 to |normalized|
      invariant parts == Decls(normalized[..i])
    {
      assert normalized[..i + 1] == normalized[..i] + [normalized[i]];
      parts := parts + [ListParamDecl(normalized[i])];
    }
    assert normalized[..|normalized|] == normalized;
    r := name + "(" + Join(parts, ", ") + ")";
  }

  /** The signature shows the published schema: its i-th part is the i-th declared name with
      the type of its property, in brackets unless the schema requires it. */
  lemma SignatureShowsSchema(params: seq<ParamSpec>, i: nat)
    requires i < |DeclaredNames(params)|
    ensures var name, schema := DeclaredNames(params)[i], SchemaOf(params);
            && name in schema.properties
            && (var decl := name + ":" + ShortType(schema.properties[name].paramType);
                Decls(Normalized(params))[i] == if name in schema.required then decl else "[" + decl + "]")
  {
    var name := DeclaredNames(params)[i];
    NormalizedAt(params, i);
    SchemaAgrees(params, name);
    hide SchemaOf;
    hide DeclaredNames;
    hide ShortType;
  }

  // ----- reading a signature

  /** The parts of a list that is written with a comma and a blank behind it. */
  function CommaParts(s: string): seq<string>
    decreases |s|
  {
    match FirstIndexOf(s, ',')
    case None => [s]
    case Some(k) => [s[..k]] + (if k + 2 <= |s| then CommaParts(s[k + 2..]) else [])
  }

  lemma CommaFirst(part: string, rest: string)
    requires ',' !in part
    ensures CommaParts(part) == [part]
    ensures CommaParts(part + ", " + rest) == [part] + CommaParts(rest)
  {
    var s := part + ", " + rest;
    assert s[|part|] == ',' && forall j :: 0 <= j < |part| ==> s[j] == part[j];
    assert FirstIndexOf(s, ',') == Some(|part|);
    assert s[..|part|] == part && s[|part| + 2..] == rest;
  }

  lemma {:induction false} CommaPartsOfJoin(parts: seq<string>)
    requires parts != [] && forall i :: 0 <= i < |parts| ==> ',' !in parts[i]
    ensures CommaParts(Join(parts, ", ")) == parts
  {
    hide CommaParts;
    CommaFirst(parts[0], Join(parts[1..], ", "));
    if |parts| > 1 {
      CommaPartsOfJoin(parts[1..]);
      assert [parts[0]] + parts[1..] == parts;
    } else {
      assert parts == [parts[0]];
    }
  }

  lemma DeclHasNoComma(p: ParamSpec)
    requires IsName(p.name)
    ensures ',' !in ListParamDecl(p)
  {
    assert ',' !in ShortType(p.paramType);
  }

  /** The part of a signature that shows a declaration. */
  predicate ShowsParam(part: string, p: ParamSpec) {
    var short := match p.paramType case StringType => ":str" case NumberType => ":num" case BooleanType => ":bool";
    part == (if p.required then "" else "[") + p.name + short + (if p.required then "" else "]")
  }

  lemma DeclShows(p: ParamSpec)
    ensures ShowsParam(ListParamDecl(p), p)
  {
    var short := ShortType(p.paramType);
    assert p.name + ":" + short == p.name + (":" + short);
    assert ":str" == ":" + "str" && ":num" == ":" + "num" && ":bool" == ":" + "bool";
    var decl := p.name + (":" + short);
    assert "" + p.name + (":" + short) + "" == decl;
    assert "[" + decl + "]" == "[" + p.name + (":" + short) + "]";
  }

  /** A signature reads back: between the name with its opening bracket and the closing one
      stand the parameters in the order of their first declarations, each as it was declared
      last, an optional one in brackets; and nothing if there are none. */
  lemma SignatureReads(name: string, params: seq<ParamSpec>) returns (inner: string)
    requires forall i :: 0 <= i < |params| ==> IsName(params[i].name)
    ensures Signature(name, params) == name + "(" + inner + ")"
    ensures params == [] ==> inner == ""
    ensures params != [] ==>
            && |CommaParts(inner)| == |DeclaredNames(params)|
            && forall i :: 0 <= i < |DeclaredNames(params)| ==>
                 && IsDeclared(params, DeclaredNames(params)[i])
                 && ShowsParam(CommaParts(inner)[i], LastDeclaration(params, DeclaredNames(params)[i]))
  {
    var normalized := Normalized(params);
    inner := Join(Decls(normalized), ", ");
    hide Normalized;
    hide CommaParts;
    hide ShowsParam;
    hide LastDeclaration;
    if params != [] {
      forall i | 0 <= i < |normalized|
        ensures ',' !in Decls(normalized)[i] && IsDeclared(params, DeclaredNames(params)[i])
        ensures ShowsParam(Decls(normalized)[i], LastDeclaration(params, DeclaredNames(params)[i]))
      {
        NormalizedAt(params, i);
        NormalizedName(params, i);
        DeclHasNoComma(normalized[i]);
        DeclShows(normalized[i]);
      }
      SomeDeclared(params);
      CommaPartsOfJoin(Decls(normalized));
    } else {
      NothingDeclaredYet();
    }
  }

  lemma NothingDeclaredYet()
    ensures Normalized([]) == []
  {
  }

  lemma SomeDeclared(params: seq<ParamSpec>)
    requires params != []
    ensures Normalized(params) != []
  {
    DeclaredIff(params, params[0].name);
    hide DeclaredNames;
  }

  lemma NormalizedName(params: seq<ParamSpec>, i: nat)
    requires i < |Normalized(params)| && forall k :: 0 <= k < |params| ==> IsName(params[k].name)
    ensures IsName(Normalized(params)[i].name)
  {
    hide IsName;
    DeclaredIff(params, DeclaredNames(params)[i]);
    assert DeclaredNames(params)[i] in DeclaredNames(params);
  }

  // ----- rendering

  /** The lines of a description, as few as possible. */
  function DescriptionLines(description: string, width: int): seq<string> {
    var lines := WordWrap.Greedy([], Words(description), WordWrap.Budget(WordWrap.LIST_INDENT, width));
    WordWrap.Printed(lines, WordWrap.LIST_INDENT)
  }

  /** The block of one tool: its signature, then its description on as few lines as possible. */
  function Block(tool: DiscoveredTool, global: int64, width: int): string {
    Signature(tool.name, tool.params) + "\n" + Lines(DescriptionLines(ToolDescription(tool, global), width))
  }

  /** The blocks, with one blank line between them. */
  function Rendered(tools: seq<DiscoveredTool>, global: int64, width: int): string {
    if tools == [] then ""
    else if |tools| == 1 then Block(tools[0], global, width)
    else Block(tools[0], global, width) + "\n" + Rendered(tools[1..], global, width)
  }

  method RenderBlock(tool: DiscoveredTool, global: int64, width: int) returns (b: string)
    ensures b == Block(tool, global, width)
  {
    hide Normalized;
    hide TimeoutSuffix;
    var signature := ToolListSignature(tool.name, tool.params);
    hide Signature;
    var lines := WordWrap.Wrap(ToolDescription(tool, global), WordWrap.LIST_INDENT, width, 0);
    var text := "";
    for i := 0 to |lines|
      invariant text == Lines(lines[..i])
    {
      assert lines[..i + 1] == lines[..i] + [lines[i]];
      LinesAppend(lines[..i], lines[i]);
      text := text + lines[i] + "\n";
    }
    assert lines[..|lines|] == lines;
    b := signature + "\n" + text;
  }

  method RenderToolList(tools: seq<DiscoveredTool>, global: int64, width: int) returns (b: string)
    ensures b == Rendered(tools, global, width)
  {
    hide Block;
    b := "";
    assert tools[0..] == tools;
    for i := 0 to |tools|
      invariant b + Rendered(tools[i..], global, width) == Rendered(tools, global, width)
    {
      var block := RenderBlock(tools[i], global, width);
      assert tools[i..][1..] == tools[i + 1..];
      b := b + block;
      if i < |tools| - 1 {
        b := b + "\n";
      }
    }
    assert tools[|tools|..] == [];
  }

  /** The lines of one block: the signature, then the description that clients are shown. */
  lemma OneRendered(tool: DiscoveredTool, global: int64, width: int)
    ensures Rendered([tool], global, width)
         == Lines([Signature(tool.name, tool.params)] + DescriptionLines(ToolDescription(tool, global), width))
  {
    var printed := DescriptionLines(ToolDescription(tool, global), width);
    var lines := [Signature(tool.name, tool.params)] + printed;
    assert lines[1..] == printed;
    hide Signature;
    hide ToolDescription;
  }

  /** One more tool adds its block at the end, with one empty line in front unless it is the
      first. */
  lemma {:induction false} RenderedGrows(tools: seq<DiscoveredTool>, tool: DiscoveredTool, global: int64, width: int)
    requires tools != []
    ensures Rendered(tools + [tool], global, width)
         == Rendered(tools, global, width) + Lines([""]) + Rendered([tool], global, width)
  {
    hide Block;
    EmptyLine();
    var more := tools + [tool];
    assert more[1..] == tools[1..] + [tool];
    if |tools| > 1 {
      RenderedGrows(tools[1..], tool, global, width);
      var a, b, c :=
          Block(tools[0], global, width) + "\n", Rendered(tools[1..], global, width), Rendered([tool], global, width);
      assert a + (b + "\n" + c) == a + b + "\n" + c;
    } else {
      assert more[1..] == [tool];
    }
  }

  lemma EmptyLine()
    ensures Lines([""]) == "\n"
  {
    assert [""][1..] == [];
    assert "" + "\n" + "" == "\n";
  }

  // ----- comparing tool sets

  /** toolEqual: the name is implicit, the callers index by it. */
  predicate ToolEqual(a: DiscoveredTool, b: DiscoveredTool) {
    if a.path != b.path || a.description != b.description then false
    else if a.timeout.None? != b.timeout.None? then false
    else if a.timeout.Some? && a.timeout.value != b.timeout.value then false
    else a.params == b.params
  }

  /** toolsEqual: element-wise, order included. */
  predicate ToolsEqual(a: seq<DiscoveredTool>, b: seq<DiscoveredTool>) {
    |a| == |b| && forall i :: 0 <= i < |a| ==> a[i].name == b[i].name && ToolEqual(a[i], b[i])
  }

  /** Equal tool sets render to the same text. */
  lemma {:induction false} EqualToolsRenderEqually(a: seq<DiscoveredTool>, b: seq<DiscoveredTool>, global: int64,
          width: int)
    requires ToolsEqual(a, b)
    ensures Rendered(a, global, width) == Rendered(b, global, width)
  {
    hide Block;
    if a != [] {
      assert a[0] == b[0];
      EqualToolsRenderEqually(a[1..], b[1..], global, width);
    }
  }

  /** What the live list has printed last, and what is on the screen. */
  datatype Display = Display(last: seq<DiscoveredTool>, screen: string)

  /** What a rescan makes of it; `scan` is None when discovery failed. */
  function Rescanned(d: Display, scan: Option<seq<DiscoveredTool>>, global: int64, width: int): Display {
    match scan
    case None => d
    case Some(tools) => Display(tools, if ToolsEqual(d.last, tools) then d.screen else Rendered(tools, global, width))
  }

  /** The live list: after any sequence of rescans the screen shows the tools of the last
      scan that succeeded. */
  class LiveList {
    const global: int64
    const width: int
    var lastPrinted: seq<DiscoveredTool>
    var screen: string
    ghost var lastScan: seq<DiscoveredTool>

    ghost predicate Valid()
      reads this
    {
      && lastPrinted == lastScan
      && screen == Rendered(lastScan, global, width)
    }

    ghost function View(): Display
      reads this
    {
      Display(lastPrinted, screen)
    }

    constructor (tools: seq<DiscoveredTool>, global: int64, width: int)
      ensures Valid() && lastScan == tools && this.global == global && this.width == width
    {
      var text := RenderToolList(tools, global, width);
      this.global, this.width := global, width;
      lastPrinted, screen, lastScan := tools, text, tools;
    }

    /** The rescan closure; `scan` is None when discovery failed. It prints only when the
        tool set differs from the last one. */
    method Rescan(scan: Option<seq<DiscoveredTool>>) returns (printed: bool)
      requires Valid()
      modifies this
      ensures Valid() && lastScan == (if scan.Some? then scan.value else old(lastScan))
      ensures View() == Rescanned(old(View()), scan, global, width)
      ensures printed <==> scan.Some? && !ToolsEqual(old(lastScan), scan.value)
    {
      printed := false;
      if scan.None? {
        return;
      }
      if !ToolsEqual(lastPrinted, scan.value) {
        screen := "";
        var text := RenderToolList(scan.value, global, width);
        screen := screen + text;
        printed := true;
      } else {
        EqualToolsRenderEqually(lastPrinted, scan.value, global, width);
      }
      lastPrinted := scan.value;
      lastScan := scan.value;
    }
  }
}
