/** The translation of validated arguments into command-line flags (execute.go). */
module Arguments {
  import opened Results
  import opened Frontmatter
  import opened Schema
  import opened Order

  // ----- rendering values

  /** fmt.Sprint of a decoded value. */
  function Sprint(v: Value): string {
    match v
    case Str(s) => s
    case Num(text) => text
    case Bool(b) => if b then "true" else "false"
    case Null => "<nil>"
    case List(items) => "[" + SprintAll(items) + "]"
    case Object(text) => text
  }

  function SprintAll(items: seq<Value>): string {
    if items == [] then "" else if |items| == 1 then Sprint(items[0])
        else Sprint(items[0]) + " " + SprintAll(items[1..])
  }

  function Flag(key: string): string { "--" + key }

  function ListFlags(key: string, items: seq<Value>): seq<string> {
    if items == [] then [] else [Flag(key), Sprint(items[0])] + ListFlags(key, items[1..])
  }

  /** The flags of one argument. */
  function Flags(key: string, v: Value): seq<string> {
    match v
    case Bool(b) => if b then [Flag(key)] else []
    case Null => []
    case List(items) => ListFlags(key, items)
    case _ => [Flag(key), Sprint(v)]
  }

  lemma {:induction false} ListFlagsAt(key: string, items: seq<Value>, i: nat)
    requires i < |items|
    ensures |ListFlags(key, items)| == 2 * |items|
    ensures ListFlags(key, items)[2 * i] == "--" + key && ListFlags(key, items)[2 * i + 1] == Sprint(items[i])
  {
    hide Sprint;
    if i > 0 {
      ListFlagsAt(key, items[1..], i - 1);
    } else if |items| > 1 {
      ListFlagsAt(key, items[1..], 0);
    }
  }

  /** The flags of one argument, in full: the value itself behind its flag, the flag alone for
      true, nothing for false and null, and a flag with its value for each item of a list. */
  lemma FlagsAre(key: string, v: Value)
    ensures v.Str? ==> Flags(key, v) == ["--" + key, v.s]
    ensures v.Num? ==> Flags(key, v) == ["--" + key, v.text]
    ensures v.Bool? ==> Flags(key, v) == if v.b then ["--" + key] else []
    ensures v.Null? ==> Flags(key, v) == []
    ensures v.List? ==>
            && |Flags(key, v)| == 2 * |v.items|
            && forall i :: 0 <= i < |v.items| ==>
                 Flags(key, v)[2 * i] == "--" + key && Flags(key, v)[2 * i + 1] == Sprint(v.items[i])
    ensures Sprint(Bool(true)) == "true" && Sprint(Bool(false)) == "false" && Sprint(Null) == "<nil>"
  {
    if v.List? {
      forall i | 0 <= i < |v.items|
        ensures |Flags(key, v)| == 2 * |v.items|
        ensures Flags(key, v)[2 * i] == "--" + key && Flags(key, v)[2 * i + 1] == Sprint(v.items[i])
      {
        ListFlagsAt(key, v.items, i);
      }
    }
  }

  function AllFlags(keys: seq<string>, args: map<string, Value>): seq<string>
    requires forall i :: 0 <= i < |keys| ==> keys[i] in args
  {
    if keys == [] then [] else Flags(keys[0], args[keys[0]]) + AllFlags(keys[1..], args)
  }

  lemma {:induction false} AllFlagsAppend(keys: seq<string>, key: string, args: map<string, Value>)
    requires forall i :: 0 <= i < |keys| ==> keys[i] in args
    requires key in args
    ensures AllFlags(keys + [key], args) == AllFlags(keys, args) + Flags(key, args[key])
  {
    hide Flags;
    if keys == [] {
      assert [key][1..] == [];
    } else {
      assert (keys + [key])[1..] == keys[1..] + [key];
      AllFlagsAppend(keys[1..], key, args);
    }
  }

  /** The flags in the ascending order of the keys. */
  ghost function CliArgs(args: map<string, Value>): seq<string> {
    var keys := Sorted(args.Keys);
    assert forall i :: 0 <= i < |keys| ==> keys[i] in keys;
    AllFlags(keys, args)
  }

  /** Collects the keys in whatever order the map yields them; any one of the malformed
      keys may be the reported one. */
  method CollectKeys(args: map<string, Value>) returns (r: Result<seq<string>, string>)
    ensures r.Ok? <==> forall key :: key in args ==> IsName(key)
    ensures r.Err? ==> r.error in args && !IsName(r.error)
    ensures r.Ok? ==> Elements(r.value) == args.Keys && forall i, j :: 0 <= i < j < |r.value| ==>
            r.value[i] != r.value[j]
  {
    var todo, keys: seq<string> := args.Keys, [];
    while todo != {}
      invariant todo <= args.Keys && Elements(keys) == args.Keys - todo
      invariant forall i, j :: 0 <= i < j < |keys| ==> keys[i] != keys[j]
      invariant forall i :: 0 <= i < |keys| ==> IsName(keys[i])
      decreases todo
    {
      hide IsName;
      var key :| key in todo;
      if !IsName(key) {
        return Err(key);
      }
      assert key !in keys;
      ElementsAppend(keys, key);
      keys, todo := keys + [key], todo - {key};
    }
    forall key | key in args ensures IsName(key) {
      assert key in Elements(keys);
    }
    return Ok(keys);
  }

  method FlagsFor(key: string, value: Value) returns (flags: seq<string>)
    ensures flags == Flags(key, value)
  {
    flags := [];
    if value.Bool? {
      if value.b {
        flags := [Flag(key)];
      }
      return;
    }
    if value.Null? {
      return;
    }
    if value.List? {
      for i := 0 to |value.items|
        invariant flags + ListFlags(key, value.items[i..]) == ListFlags(key, value.items)
      {
        assert value.items[i..][1..] == value.items[i + 1..];
        flags := flags + [Flag(key), Sprint(value.items[i])];
      }
      assert value.items[|value.items|..] == [];
      return;
    }
    flags := [Flag(key), Sprint(value)];
  }

  method FlagsInOrder(keys: seq<string>, args: map<string, Value>) returns (cliArgs: seq<string>)
    requires forall i :: 0 <= i < |keys| ==> keys[i] in args
    ensures cliArgs == AllFlags(keys, args)
  {
    cliArgs := [];
    for k := 0 to |keys|
      invariant cliArgs == AllFlags(keys[..k], args)
    {
      hide Flags;
      var key := keys[k];
      assert keys[..k + 1] == keys[..k] + [key];
      AllFlagsAppend(keys[..k], key, args);
      var flags := FlagsFor(key, args[key]);
      cliArgs := cliArgs + flags;
    }
    assert keys[..|keys|] == keys;
  }

  /** The flags do not depend on the order in which the map yields its keys, and the only
      failure is a malformed key. */
  method ArgumentsToCliArgs(args: map<string, Value>) returns (r: Result<seq<string>, string>)
    ensures r.Ok? <==> forall key :: key in args ==> IsName(key)
    ensures r.Ok? ==> r.value == CliArgs(args)
    ensures r.Err? ==> r.error in args && !IsName(r.error)
  {
    if |args| == 0 {
      NoFlags(args);
      return Ok([]);
    }
    var collected := CollectKeys(args);
    if collected.Err? {
      return Err(collected.error);
    }
    hide IsName;
    hide CliArgs;
    hide AllFlags;
    var keys := Sort(collected.value);
    KeysOf(args);
    var cliArgs := FlagsInOrder(keys, args);
    return Ok(cliArgs);
  }

  lemma KeysOf(args: map<string, Value>)
    ensures var keys := Sorted(args.Keys);
            && (forall i :: 0 <= i < |keys| ==> keys[i] in args)
            && CliArgs(args) == AllFlags(keys, args)
  {
    hide AllFlags;
    var keys := Sorted(args.Keys);
    assert forall i :: 0 <= i < |keys| ==> keys[i] in keys;
  }

  lemma NoFlags(args: map<string, Value>)
    requires |args| == 0
    ensures CliArgs(args) == []
  {
    assert args.Keys == {};
  }

  // ----- reading the flags back

  /** A script's own reader, directed by the declared types: a boolean flag stands alone,
      every other flag takes the next argument, whatever it looks like. */
  function ReadFlags(argv: seq<string>, schema: InputSchema): Option<map<string, Value>> {
    if argv == [] then Some(map[])
    else
      var flag := argv[0];
      if |flag| < 2 || flag[..2] != "--" || flag[2..] !in schema.properties then None
      else
        var key := flag[2..];
        match schema.properties[key].paramType
        case BooleanType => AddTo(key, Bool(true), ReadFlags(argv[1..], schema))
        case StringType => if |argv| < 2 then None else AddTo(key, Str(argv[1]), ReadFlags(argv[2..], schema))
        case NumberType => if |argv| < 2 then None else AddTo(key, Num(argv[1]), ReadFlags(argv[2..], schema))
  }

  function AddTo(key: string, v: Value, rest: Option<map<string, Value>>): Option<map<string, Value>> {
    if rest.None? then None else Some(rest.value[key := v])
  }

  /** The arguments without those that are false. */
  function Visible(args: map<string, Value>): map<string, Value> {
    map k | k in args && args[k] != Bool(false) :: args[k]
  }

  function Restrict(args: map<string, Value>, keys: seq<string>): map<string, Value> {
    map k | k in args && k in keys :: args[k]
  }

  lemma ReadOne(key: string, v: Value, rest: seq<string>, schema: InputSchema)
    requires key in schema.properties && HasType(v, schema.properties[key].paramType)
    ensures v != Bool(false) ==> ReadFlags(Flags(key, v) + rest, schema) == AddTo(key, v, ReadFlags(rest, schema))
    ensures v == Bool(false) ==> Flags(key, v) + rest == rest
  {
    var argv := Flags(key, v) + rest;
    assert Flag(key)[..2] == "--" && Flag(key)[2..] == key;
    if v != Bool(false) {
      assert argv[0] == Flag(key);
      if v.Bool? {
        assert argv[1..] == rest;
      } else {
        assert argv[1] == Sprint(v) && argv[2..] == rest;
      }
    }
  }

  lemma VisibleNext(args: map<string, Value>, keys: seq<string>)
    requires keys != [] && keys[0] in args && keys[0] !in keys[1..]
    ensures var rest := Visible(Restrict(args, keys[1..]));
            Visible(Restrict(args, keys)) == if args[keys[0]] == Bool(false) then rest
                else rest[keys[0] := args[keys[0]]]
  {
    assert forall k :: k in keys <==> k == keys[0] || k in keys[1..];
  }

  lemma {:induction false} ReadAll(keys: seq<string>, args: map<string, Value>, schema: InputSchema)
    requires forall i :: 0 <= i < |keys| ==> keys[i] in args
    requires forall i, j :: 0 <= i < j < |keys| ==> keys[i] != keys[j]
    requires forall key :: key in args ==>
             key in schema.properties && HasType(args[key], schema.properties[key].paramType)
    ensures ReadFlags(AllFlags(keys, args), schema) == Some(Visible(Restrict(args, keys)))
  {
    hide HasType;
    hide Flags;
    hide ReadFlags;
    hide Visible;
    if keys == [] {
      ReadNothing(schema);
      NothingVisible(args);
    } else {
      ReadAll(keys[1..], args, schema);
      ReadOne(keys[0], args[keys[0]], AllFlags(keys[1..], args), schema);
      VisibleNext(args, keys);
    }
  }

  lemma NothingVisible(args: map<string, Value>)
    ensures Visible(Restrict(args, [])) == map[]
  {
  }

  lemma ReadNothing(schema: InputSchema)
    ensures ReadFlags([], schema) == Some(map[])
  {
  }

  /** For arguments that the published schema of a script's parameters accepts, the
      translation never fails, and reading the flags by the declared types gives the
      arguments back, without those that are false. */
  lemma AcceptedArgumentsRoundTrip(header: seq<string>, args: map<string, Value>)
    requires Accepts(SchemaOf(ParamsOf(header)), args)
    ensures forall key :: key in args ==> IsName(key)
    ensures ReadFlags(CliArgs(args), SchemaOf(ParamsOf(header))) == Some(Visible(args))
  {
    hide ParamsOf;
    hide SchemaOf;
    hide IsName;
    hide AllFlags;
    hide ReadFlags;
    hide Visible;
    var schema := SchemaOf(ParamsOf(header));
    forall key | key in args ensures IsName(key) {
      AcceptedName(header, args, key);
    }
    var keys := Sorted(args.Keys);
    KeysOf(args);
    AscendingDistinct(keys);
    ReadAll(keys, args, schema);
    assert Restrict(args, keys) == args;
  }

  lemma AcceptedName(header: seq<string>, args: map<string, Value>, key: string)
    requires Accepts(SchemaOf(ParamsOf(header)), args) && key in args
    ensures IsName(key)
  {
    hide IsName;
    var params := ParamsOf(header);
    DeclaredParamsHaveNames(header);
    SchemaAgrees(params, key);
    hide ParamsOf;
    var i :| 0 <= i < |params| && params[i].name == key;
  }

  lemma AscendingDistinct(s: seq<string>)
    requires Ascending(s)
    ensures forall i, j :: 0 <= i < j < |s| ==> s[i] != s[j]
  {
    forall i, j | 0 <= i < j < |s| ensures s[i] != s[j] {
      LessIrreflexive(s[i]);
    }
  }
}
