/** The published input schema of a tool (schema.go), and which arguments it accepts by the
    rules of JSON Schema 2020-12: sections 6.1.1 (type) and 6.5.3 (required) of Validation,
    section 10.3.2.3 (additionalProperties) of Core. */
module Schema {
  import opened Text
  import opened Frontmatter

  // ----- one declaration per name

  /** The names in the order of their first declarations. */
  function DeclaredNames(params: seq<ParamSpec>): (names: seq<string>)
    ensures forall n :: n in names <==> exists i :: 0 <= i < |params| && params[i].name == n
    ensures forall i, j :: 0 <= i < j < |names| ==> names[i] != names[j]
  {
    if params == [] then []
    else
      var front, last := params[..|params| - 1], params[|params| - 1];
      var names := DeclaredNames(front);
      assert forall i :: 0 <= i < |front| ==> params[i] == front[i];
      if last.name in names then names else names + [last.name]
  }

  ghost predicate IsDeclared(params: seq<ParamSpec>, name: string) {
    exists i :: 0 <= i < |params| && params[i].name == name
  }

  /** The last declaration of a name. */
  function LastDeclaration(params: seq<ParamSpec>, name: string): (p: ParamSpec)
    requires IsDeclared(params, name)
    ensures p.name == name && p in params
  {
    var last := params[|params| - 1];
    if last.name == name then last
    else
      assert IsDeclared(params[..|params| - 1], name) by {
        var i :| 0 <= i < |params| && params[i].name == name;
        assert params[..|params| - 1][i] == params[i];
      }
      LastDeclaration(params[..|params| - 1], name)
  }

  lemma {:induction false} LastDeclarationIsLast(params: seq<ParamSpec>, i: nat)
    requires i < |params| && forall j :: i < j < |params| ==> params[j].name != params[i].name
    ensures IsDeclared(params, params[i].name) && LastDeclaration(params, params[i].name) == params[i]
  {
    if i < |params| - 1 {
      var front := params[..|params| - 1];
      assert front[i] == params[i];
      LastDeclarationIsLast(front, i);
    }
  }

  lemma DeclaredIff(params: seq<ParamSpec>, name: string)
    ensures IsDeclared(params, name) <==> name in DeclaredNames(params)
  {
  }

  /** Each name once, at its first position, with its last declaration. */
  function Normalized(params: seq<ParamSpec>): (out: seq<ParamSpec>)
    ensures |out| == |DeclaredNames(params)|
    ensures forall i :: 0 <= i < |out| ==> out[i].name == DeclaredNames(params)[i]
  {
    var names := DeclaredNames(params);
    seq(|names|, i requires 0 <= i < |names| =>
      assert IsDeclared(params, names[i]) by { DeclaredIff(params, names[i]); }
      LastDeclaration(params, names[i]))
  }

  lemma NormalizedAt(params: seq<ParamSpec>, i: nat)
    requires i < |Normalized(params)|
    ensures IsDeclared(params, DeclaredNames(params)[i])
    ensures Normalized(params)[i] == LastDeclaration(params, DeclaredNames(params)[i])
  {
    DeclaredIff(params, DeclaredNames(params)[i]);
  }

  /** One more declaration overwrites the entry of its name, or adds one at the end. */
  lemma NormalizedAppend(params: seq<ParamSpec>, p: ParamSpec)
    ensures var names, out := DeclaredNames(params), Normalized(params);
            && (p.name !in names ==> Normalized(params + [p]) == out + [p])
            && (forall i :: 0 <= i < |names| && names[i] == p.name ==> Normalized(params + [p]) == out[i := p])
  {
    var more := params + [p];
    assert more[..|more| - 1] == params && more[|more| - 1] == p;
    var names, out := DeclaredNames(params), Normalized(params);
    forall k | 0 <= k < |Normalized(more)|
      ensures Normalized(more)[k] == if k < |names| && names[k] != p.name then out[k] else p
    {
      NormalizedAt(more, k);
      if k < |names| {
        NormalizedAt(params, k);
      }
    }
  }

  lemma NamesAppend(params: seq<ParamSpec>, p: ParamSpec)
    ensures var names :=
            DeclaredNames(params); DeclaredNames(params + [p]) == if p.name in names then names else names + [p.name]
  {
    var more := params + [p];
    assert more[..|more| - 1] == params && more[|more| - 1] == p;
  }

  /** The loop of normalizeParams over a map of positions. */
  method NormalizeParams(params: seq<ParamSpec>) returns (out: seq<ParamSpec>)
    ensures out == Normalized(params)
  {
    hide Normalized;
    out := [];
    var positions: map<string, nat> := map[];
    ghost var names: seq<string> := [];
    assert out == Normalized([]) && names == DeclaredNames([]) by { NothingNormalized(); }
    hide DeclaredNames;
    for k := 0 to |params|
      invariant names == DeclaredNames(params[..k]) && out == Normalized(params[..k])
      invariant forall n :: n in positions <==> n in names
      invariant forall n :: n in positions ==> positions[n] < |names| && names[positions[n]] == n
    {
      var param := params[k];
      assert params[..k + 1] == params[..k] + [param];
      NormalizedAppend(params[..k], param);
      if param.name in positions {
        out := out[positions[param.name] := param];
      } else {
        positions := positions[param.name := |out|];
        out := out + [param];
      }
      NamesAppend(params[..k], param);
      names := DeclaredNames(params[..k + 1]);
    }
    assert params[..|params|] == params;
  }

  lemma NothingNormalized()
    ensures Normalized([]) == []
  {
  }

  lemma {:induction false} DistinctDeclarations(params: seq<ParamSpec>)
    requires forall i, j :: 0 <= i < j < |params| ==> params[i].name != params[j].name
    ensures |DeclaredNames(params)| == |params| && forall i :: 0 <= i < |params| ==>
            DeclaredNames(params)[i] == params[i].name
  {
    if params != [] {
      DistinctDeclarations(params[..|params| - 1]);
    }
  }

  /** Normalizing again changes nothing. */
  lemma NormalizedIdempotent(params: seq<ParamSpec>)
    ensures Normalized(Normalized(params)) == Normalized(params)
  {
    var out := Normalized(params);
    DistinctDeclarations(out);
    forall i | 0 <= i < |out| ensures Normalized(out)[i] == out[i] {
      NormalizedAt(out, i);
      LastDeclarationIsLast(out, i);
    }
  }

  // ----- the schema

  datatype Property = Property(paramType: ParamType, description: string)

  /** An object schema that admits no other properties. */
  datatype InputSchema = InputSchema(properties: map<string, Property>, required: seq<string>)

  function RequiredNames(params: seq<ParamSpec>): seq<string> {
    if params == [] then []
    else
      var front, last := params[..|params| - 1], params[|params| - 1];
      RequiredNames(front) + (if last.required then [last.name] else [])
  }

  function PropertyOf(p: ParamSpec): Property { Property(p.paramType, p.description) }

  function SchemaOf(params: seq<ParamSpec>): InputSchema {
    var out := Normalized(params);
    InputSchema(map n | n in DeclaredNames(params) :: (DeclaredIff(params, n); PropertyOf(LastDeclaration(params, n))),
        RequiredNames(out))
  }

  /** The properties hold exactly the first `k` declarations. */
  ghost predicate Collected(properties: map<string, Property>, normalized: seq<ParamSpec>, k: nat)
    requires k <= |normalized|
  {
    && (forall n :: n in properties ==> exists i :: 0 <= i < k && normalized[i].name == n)
    && (forall i :: 0 <= i < k ==>
         normalized[i].name in properties && properties[normalized[i].name] == PropertyOf(normalized[i]))
  }

  lemma NothingCollected(normalized: seq<ParamSpec>)
    ensures Collected(map[], normalized, 0)
  {
  }

  lemma CollectNext(properties: map<string, Property>, normalized: seq<ParamSpec>, k: nat)
    requires k < |normalized| && Collected(properties, normalized, k)
    requires forall i, j :: 0 <= i < j < |normalized| ==> normalized[i].name != normalized[j].name
    ensures Collected(properties[normalized[k].name := PropertyOf(normalized[k])], normalized, k + 1)
  {
    hide PropertyOf;
    var more := properties[normalized[k].name := PropertyOf(normalized[k])];
    forall n | n in more ensures exists i :: 0 <= i < k + 1 && normalized[i].name == n {
      if n != normalized[k].name {
        assert n in properties;
      }
    }
  }

  lemma PropertyAt(params: seq<ParamSpec>, i: nat)
    requires i < |DeclaredNames(params)|
    ensures var name, properties := DeclaredNames(params)[i], SchemaOf(params).properties;
            name in properties && properties[name] == PropertyOf(Normalized(params)[i])
  {
    NormalizedAt(params, i);
  }

  lemma PropertyNames(params: seq<ParamSpec>, name: string)
    ensures name in SchemaOf(params).properties <==> name in DeclaredNames(params)
  {
  }

  lemma AllCollected(params: seq<ParamSpec>, properties: map<string, Property>)
    requires Collected(properties, Normalized(params), |Normalized(params)|)
    ensures properties == SchemaOf(params).properties
  {
    hide DeclaredNames;
    hide SchemaOf;
    hide PropertyOf;
    var normalized, names := Normalized(params), DeclaredNames(params);
    hide Normalized;
    forall n ensures n in SchemaOf(params).properties <==> n in names {
      PropertyNames(params, n);
    }
    forall n | n in names ensures n in properties && properties[n] == SchemaOf(params).properties[n] {
      var i :| 0 <= i < |names| && names[i] == n;
      PropertyAt(params, i);
      assert normalized[i].name == n;
    }
    forall n | n in properties ensures n in names {
      var i :| 0 <= i < |normalized| && normalized[i].name == n;
      assert names[i] == n;
    }
  }

  lemma NoneRequired(normalized: seq<ParamSpec>)
    ensures RequiredNames(normalized[..0]) == []
  {
  }

  lemma RequiredNext(normalized: seq<ParamSpec>, k: nat)
    requires k < |normalized|
    ensures RequiredNames(normalized[..k + 1])
         == RequiredNames(normalized[..k]) + (if normalized[k].required then [normalized[k].name] else [])
  {
    assert normalized[..k + 1][..k] == normalized[..k];
  }

  lemma NormalizedNamesDiffer(params: seq<ParamSpec>)
    ensures var normalized := Normalized(params);
            forall i, j :: 0 <= i < j < |normalized| ==> normalized[i].name != normalized[j].name
  {
  }

  lemma SchemaParts(params: seq<ParamSpec>)
    ensures SchemaOf(params) == InputSchema(SchemaOf(params).properties, RequiredNames(Normalized(params)))
  {
    hide RequiredNames;
    hide Normalized;
  }

  method BuildInputSchema(params: seq<ParamSpec>) returns (schema: InputSchema)
    ensures schema == SchemaOf(params)
  {
    hide *;
    var normalized := NormalizeParams(params);
    NormalizedNamesDiffer(params);
    var properties: map<string, Property>, requiredNames: seq<string> := map[], [];
    NothingCollected(normalized);
    NoneRequired(normalized);
    for k := 0 to |normalized|
      invariant Collected(properties, normalized, k)
      invariant requiredNames == RequiredNames(normalized[..k])
    {
      var param := normalized[k];
      CollectNext(properties, normalized, k);
      RequiredNext(normalized, k);
      properties := properties[param.name := PropertyOf(param)];
      if param.required {
        requiredNames := requiredNames + [param.name];
      }
    }
    assert normalized[..|normalized|] == normalized;
    AllCollected(params, properties);
    SchemaParts(params);
    schema := InputSchema(properties, requiredNames);
  }

  /** The schema, its required array and the normalized declarations speak of one set of
      parameters: a name is a property iff it is declared at all, with the type and the
      description of its last declaration, and required iff that one says so. */
  lemma SchemaAgrees(params: seq<ParamSpec>, name: string)
    ensures name in SchemaOf(params).properties <==> IsDeclared(params, name)
    ensures name in SchemaOf(params).required <==> IsDeclared(params, name) && LastDeclaration(params, name).required
    ensures IsDeclared(params, name) ==>
            && SchemaOf(params).properties[name].paramType == LastDeclaration(params, name).paramType
            && SchemaOf(params).properties[name].description == LastDeclaration(params, name).description
    ensures IsDeclared(params, name) ==>
            exists i :: 0 <= i < |Normalized(params)| && Normalized(params)[i] == LastDeclaration(params, name)
  {
    DeclaredIff(params, name);
    var names, out := DeclaredNames(params), Normalized(params);
    RequiredIff(out, name);
    forall i | 0 <= i < |out| ensures out[i] == LastDeclaration(params, names[i]) {
      NormalizedAt(params, i);
    }
    if name in names {
      var i :| 0 <= i < |names| && names[i] == name;
      assert out[i].name == name;
    }
  }

  lemma {:induction false} RequiredIff(params: seq<ParamSpec>, name: string)
    ensures name in RequiredNames(params) <==>
            exists i :: 0 <= i < |params| && params[i].name == name && params[i].required
  {
    if params != [] {
      var front := params[..|params| - 1];
      RequiredIff(front, name);
      assert forall i :: 0 <= i < |front| ==> front[i] == params[i];
    }
  }

  // ----- what the schema accepts

  /** A decoded JSON value; numbers keep their spelling, objects their Go rendering. */
  datatype Value = Str(s: string) | Num(text: string) | Bool(b: bool) | Null | List(items: seq<Value>)
      | Object(text: string)

  predicate HasType(v: Value, t: ParamType) {
    match t
    case StringType => v.Str?
    case NumberType => v.Num?
    case BooleanType => v.Bool?
  }

  predicate Accepts(schema: InputSchema, args: map<string, Value>) {
    && (forall key :: key in args ==> key in schema.properties && HasType(args[key], schema.properties[key].paramType))
    && (forall i :: 0 <= i < |schema.required| ==> schema.required[i] in args)
  }

  /** The value has the JSON type of the declaration. */
  predicate TypedAs(v: Value, p: ParamSpec) {
    && (p.paramType.StringType? <==> v.Str?)
    && (p.paramType.NumberType? <==> v.Num?)
    && (p.paramType.BooleanType? <==> v.Bool?)
  }

  /** The published schema accepts exactly the arguments that are all declared, each with a
      value of the type of its last declaration, and that leave out no required parameter. */
  lemma AcceptedIff(params: seq<ParamSpec>, args: map<string, Value>)
    ensures Accepts(SchemaOf(params), args) <==>
            && (forall key :: key in args ==>
                 IsDeclared(params, key) && TypedAs(args[key], LastDeclaration(params, key)))
            && (forall i :: 0 <= i < |params| && LastDeclaration(params, params[i].name).required ==>
                 params[i].name in args)
  {
    hide SchemaOf;
    hide IsDeclared;
    hide LastDeclaration;
    var schema := SchemaOf(params);
    forall key | key in args
      ensures key in schema.properties && HasType(args[key], schema.properties[key].paramType) <==>
              IsDeclared(params, key) && TypedAs(args[key], LastDeclaration(params, key))
    {
      SchemaAgrees(params, key);
    }
    forall i | 0 <= i < |params|
      ensures IsDeclared(params, params[i].name)
      ensures params[i].name in schema.required <==> LastDeclaration(params, params[i].name).required
    {
      DeclaredAt(params, i);
      SchemaAgrees(params, params[i].name);
    }
    forall i | 0 <= i < |schema.required|
      ensures exists j :: 0 <= j < |params| && params[j].name == schema.required[i]
    {
      SchemaAgrees(params, schema.required[i]);
      DeclaredSomewhere(params, schema.required[i]);
    }
  }

  lemma DeclaredAt(params: seq<ParamSpec>, i: nat)
    requires i < |params|
    ensures IsDeclared(params, params[i].name)
  {
  }

  lemma DeclaredSomewhere(params: seq<ParamSpec>, name: string)
    requires IsDeclared(params, name)
    ensures exists j :: 0 <= j < |params| && params[j].name == name
  {
  }

  /** Only well-formed names come out of the frontmatter. */
  lemma {:induction false} DeclaredParamsHaveNames(header: seq<string>)
    ensures forall i :: 0 <= i < |ParamsOf(header)| ==> IsName(ParamsOf(header)[i].name)
  {
    hide Classify;
    if header != [] {
      DeclaredParamsHaveNames(header[1..]);
      ParsedName(header[0]);
      hide ParamsOfLine;
    }
  }

  lemma ParsedName(line: string)
    ensures forall i :: 0 <= i < |ParamsOfLine(line)| ==> IsName(ParamsOfLine(line)[i].name)
  {
    hide Classify;
    if ParamsOfLine(line) != [] {
      AnnotationName(Classify(line).annotation);
      hide ParseParamAnnotation;
    }
  }

  lemma AnnotationName(annotation: string)
    requires ParseParamAnnotation(annotation).Ok?
    ensures IsName(ParseParamAnnotation(annotation).value.name)
  {
    hide Words;
    hide TrimSpace;
    hide ParseFields;
    hide IsName;
    var first, last := FirstIndexOf(annotation, '"'), LastIndexOf(annotation, '"');
    FieldsName(Words(TrimSpace(annotation[..first.value])), annotation[first.value + 1..last.value]);
  }

  lemma FieldsName(tokens: seq<string>, description: string)
    requires ParseFields(tokens, description).Ok?
    ensures IsName(ParseFields(tokens, description).value.name)
  {
    hide IsName;
    hide ParseType;
  }
}
