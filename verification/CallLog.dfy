/** The log records of a failed or completed tool call (execute.go). The attribute slices
    of the records of one call are appended onto one prefix and may share its array. */
module CallLog {
  import opened Results
  import opened GoSlice
  import opened Utf8
  import Capture

  const MAX_WARN_PARAMS_BYTES: nat := 1024
  const MAX_DEBUG_PARAMS_BYTES: nat := 65536
  const MAX_IDENTITY_FIELD_BYTES: nat := 256

  /** An element of a []any attribute list: keys and values alternate. */
  datatype Attr = Key(name: string) | Text(bytes: seq<byte>) | Number(n: int) | Flag(b: bool)

  datatype Level = Trace | Debug | Warn

  datatype Record = Record(level: Level, message: string, attrs: seq<Attr>)

  datatype Identity = Anonymous | Client(name: seq<byte>, version: seq<byte>)

  /** What is known about a call when its records are written. */
  datatype Call = Call(tool: seq<byte>, path: seq<byte>, command: seq<byte>, exitCode: int, stdout: seq<byte>,
      stderr: seq<byte>,
                       duration: int, truncated: bool, identity: Identity, rawArgs: seq<byte>)

  datatype Failure = StartFailed(error: seq<byte>) | Timeout(limit: int) | NonzeroExit | Canceled

  function ReasonText(f: Failure): Attr {
    match f
    case StartFailed(_) => Key("start-failed")
    case Timeout(_) => Key("timeout")
    case NonzeroExit => Key("nonzero-exit")
    case Canceled => Key("canceled")
  }

  /** The client's name and version, bounded; what is empty is left out. */
  function IdentityAttrs(identity: Identity): seq<Attr> {
    match identity
    case Anonymous => []
    case Client(name, version) =>
      (if name == [] then [] else [Key("clientName"), Text(Capture.BoundedValue(name, MAX_IDENTITY_FIELD_BYTES))])
      + (if version == [] then []
          else [Key("clientVersion"), Text(Capture.BoundedValue(version, MAX_IDENTITY_FIELD_BYTES))])
  }

  function BaseAttrs(c: Call): (attrs: seq<Attr>)
    ensures |attrs| == 16
  {
    [Key("tool"), Text(c.tool), Key("path"), Text(c.path), Key("command"), Text(c.command),
     Key("exitCode"), Number(c.exitCode), Key("stdoutBytes"), Number(|c.stdout|),
     Key("stderrBytes"), Number(|c.stderr|), Key("duration"), Number(c.duration), Key("truncated"), Flag(c.truncated)]
  }

  /** The fields that every record of the call carries. */
  function CommonAttrs(c: Call): seq<Attr> { BaseAttrs(c) + IdentityAttrs(c.identity) }

  function Params(bytes: seq<byte>): (attrs: seq<Attr>)
    ensures |attrs| == 2
  {
    [Key("params"), Text(bytes)]
  }

  function FailureAttrs(c: Call, f: Failure): seq<Attr> {
    [Key("reason"), ReasonText(f)]
    + (if f.StartFailed? then [Key("error"), Text(f.error)] else [])
    + [Key("stdout"), Text(c.stdout), Key("stderr"), Text(c.stderr)]
  }

  function TimeoutAttrs(f: Failure): seq<Attr> {
    if f.Timeout? then [Key("timeout"), Number(f.limit)] else []
  }

  /** The attributes of a failure record with the given parameters. */
  function FailureRecord(c: Call, f: Failure, params: seq<byte>): seq<Attr> {
    CommonAttrs(c) + Params(params) + FailureAttrs(c, f) + TimeoutAttrs(f)
  }

  // ----- what a record says under each key

  /** The value behind the first key of this name. */
  function Lookup(attrs: seq<Attr>, name: string): Option<Attr> {
    if |attrs| < 2 then None
    else if attrs[0] == Key(name) then Some(attrs[1])
    else Lookup(attrs[2..], name)
  }

  lemma LookupNothing(name: string)
    ensures Lookup([], name) == None
  {
  }

  lemma LookupNext(key: string, value: Attr, rest: seq<Attr>, name: string)
    ensures Lookup([Key(key), value] + rest, name) == if key == name then Some(value) else Lookup(rest, name)
  {
    assert ([Key(key), value] + rest)[2..] == rest;
  }

  lemma {:induction false} LookupConcat(a: seq<Attr>, b: seq<Attr>, name: string)
    requires |a| % 2 == 0
    ensures Lookup(a + b, name) == if Lookup(a, name).Some? then Lookup(a, name) else Lookup(b, name)
  {
    if a == [] {
      assert a + b == b;
    } else {
      assert (a + b)[2..] == a[2..] + b;
      LookupConcat(a[2..], b, name);
    }
  }

  lemma {:induction false} LookupAt(attrs: seq<Attr>, i: nat, name: string)
    requires 2 * i + 1 < |attrs| && attrs[2 * i] == Key(name)
    requires forall j :: 0 <= j < i ==> attrs[2 * j] != Key(name)
    ensures Lookup(attrs, name) == Some(attrs[2 * i + 1])
  {
    if i > 0 {
      assert attrs[2 * 0] != Key(name);
      forall j | 0 <= j < i - 1 ensures attrs[2..][2 * j] != Key(name) {
        assert attrs[2..][2 * j] == attrs[2 * (j + 1)];
      }
      LookupAt(attrs[2..], i - 1, name);
    }
  }

  lemma {:induction false} LookupNowhere(attrs: seq<Attr>, name: string)
    requires forall j :: 0 <= j && 2 * j + 1 < |attrs| ==> attrs[2 * j] != Key(name)
    ensures Lookup(attrs, name) == None
  {
    if |attrs| >= 2 {
      assert attrs[2 * 0] != Key(name);
      forall j | 0 <= j && 2 * j + 1 < |attrs[2..]| ensures attrs[2..][2 * j] != Key(name) {
        assert attrs[2..][2 * j] == attrs[2 * (j + 1)];
      }
      LookupNowhere(attrs[2..], name);
    }
  }

  const BASE_KEYS: seq<string> :=
    ["tool", "path", "command", "exitCode", "stdoutBytes", "stderrBytes", "duration", "truncated"]

  /** Keys of a record that differ in their length, or in their first or fourth character. */
  predicate Apart(a: string, b: string) { |a| != |b| || (|a| > 3 && (a[0] != b[0] || a[3] != b[3])) }

  lemma BaseKeysDiffer(i: nat, j: nat)
    requires i < |BASE_KEYS| && j < |BASE_KEYS| && i != j
    ensures BASE_KEYS[i] != BASE_KEYS[j]
  {
    assert Apart(BASE_KEYS[i], BASE_KEYS[j]);
  }

  lemma BaseKeyAt(c: Call, j: nat)
    requires j < |BASE_KEYS|
    ensures BaseAttrs(c)[2 * j] == Key(BASE_KEYS[j])
  {
  }

  lemma BaseHas(c: Call, i: nat)
    requires i < |BASE_KEYS|
    ensures Lookup(BaseAttrs(c), BASE_KEYS[i]) == Some(BaseAttrs(c)[2 * i + 1])
  {
    hide BaseAttrs;
    BaseKeyAt(c, i);
    forall j | 0 <= j < i ensures BaseAttrs(c)[2 * j] != Key(BASE_KEYS[i]) {
      BaseKeyAt(c, j);
      BaseKeysDiffer(i, j);
    }
    LookupAt(BaseAttrs(c), i, BASE_KEYS[i]);
  }

  lemma BaseLacks(c: Call, name: string)
    requires forall j :: 0 <= j < |BASE_KEYS| ==> BASE_KEYS[j] != name
    ensures Lookup(BaseAttrs(c), name) == None
  {
    hide BaseAttrs;
    forall j | 0 <= j && 2 * j + 1 < |BaseAttrs(c)| ensures BaseAttrs(c)[2 * j] != Key(name) {
      BaseKeyAt(c, j);
    }
    LookupNowhere(BaseAttrs(c), name);
  }

  /** What is logged of a client's name or version; nothing of an empty one. */
  function Shown(value: seq<byte>): Option<Attr> {
    if value == [] then None else Some(Text(Capture.BoundedValue(value, MAX_IDENTITY_FIELD_BYTES)))
  }

  lemma IdentityReads(identity: Identity, name: string)
    ensures |IdentityAttrs(identity)| % 2 == 0
    ensures Lookup(IdentityAttrs(identity), name)
         == match identity
            case Anonymous => None
            case Client(client, version) =>
              if name == "clientName" then Shown(client) else if name == "clientVersion" then Shown(version) else None
  {
    hide Capture.BoundedValue;
    assert Apart("clientName", "clientVersion");
    if identity.Client? {
      var v := if identity.version == [] then [] else [Key("clientVersion"), Shown(identity.version).value];
      assert v != [] ==> v == v + [];
      if identity.version != [] {
        LookupNext("clientVersion", Shown(identity.version).value, [], name);
      }
      if identity.name != [] {
        LookupNext("clientName", Shown(identity.name).value, v, name);
      }
      assert identity.name == [] ==> IdentityAttrs(identity) == [] + v == v;
    }
  }

  const OTHER_KEYS: seq<string> :=
    ["clientName", "clientVersion", "params", "reason", "error", "stdout", "stderr", "timeout"]

  lemma OtherKeysDiffer(i: nat, j: nat)
    requires i < |OTHER_KEYS| && j < |OTHER_KEYS| && i != j
    ensures OTHER_KEYS[i] != OTHER_KEYS[j]
  {
    assert Apart(OTHER_KEYS[i], OTHER_KEYS[j]);
  }

  lemma NotABaseKey(i: nat, j: nat)
    requires i < |OTHER_KEYS| && j < |BASE_KEYS|
    ensures OTHER_KEYS[i] != BASE_KEYS[j]
  {
    assert Apart(OTHER_KEYS[i], BASE_KEYS[j]);
  }

  lemma ParamsReads(bytes: seq<byte>, name: string)
    ensures Lookup(Params(bytes), name) == if name == "params" then Some(Text(bytes)) else None
  {
    LookupNext("params", Text(bytes), [], name);
    assert Params(bytes) == [Key("params"), Text(bytes)] + [];
  }

  /** What a failure says besides. */
  function FailureValue(c: Call, f: Failure, name: string): Option<Attr> {
    if name == "reason" then
      Some(Key(match f
               case StartFailed(_) => "start-failed"
               case Timeout(_) => "timeout"
               case NonzeroExit => "nonzero-exit"
               case Canceled => "canceled"))
    else if name == "error" then (if f.StartFailed? then Some(Text(f.error)) else None)
    else if name == "stdout" then Some(Text(c.stdout))
    else if name == "stderr" then Some(Text(c.stderr))
    else None
  }

  lemma FailureReads(c: Call, f: Failure, name: string)
    ensures |FailureAttrs(c, f)| % 2 == 0
    ensures Lookup(FailureAttrs(c, f), name) == FailureValue(c, f, name)
  {
    LookupNothing(name);
    hide Lookup;
    OtherKeyNames();
    var streams := [Key("stdout"), Text(c.stdout)] + ([Key("stderr"), Text(c.stderr)] + []);
    LookupNext("stderr", Text(c.stderr), [], name);
    LookupNext("stdout", Text(c.stdout), [Key("stderr"), Text(c.stderr)] + [], name);
    if f.StartFailed? {
      LookupNext("error", Text(f.error), streams, name);
      LookupNext("reason", ReasonText(f), [Key("error"), Text(f.error)] + streams, name);
      assert FailureAttrs(c, f) == [Key("reason"), ReasonText(f)] + ([Key("error"), Text(f.error)] + streams);
    } else {
      LookupNext("reason", ReasonText(f), streams, name);
      assert FailureAttrs(c, f) == [Key("reason"), ReasonText(f)] + streams;
    }
  }

  lemma TimeoutReads(f: Failure, name: string)
    ensures Lookup(TimeoutAttrs(f), name) == if f.Timeout? && name == "timeout" then Some(Number(f.limit)) else None
  {
    if f.Timeout? {
      LookupNext("timeout", Number(f.limit), [], name);
      assert TimeoutAttrs(f) == [Key("timeout"), Number(f.limit)] + [];
    }
  }

  function Else(a: Option<Attr>, b: Option<Attr>): Option<Attr> { if a.Some? then a else b }

  lemma RecordReads(c: Call, f: Failure, params: seq<byte>, name: string)
    ensures Lookup(FailureRecord(c, f, params), name)
         == Else(Lookup(BaseAttrs(c), name),
                 Else(Lookup(IdentityAttrs(c.identity), name),
                      Else(Lookup(Params(params), name),
                           Else(Lookup(FailureAttrs(c, f), name), Lookup(TimeoutAttrs(f), name)))))
  {
    hide Lookup;
    hide FailureAttrs;
    hide TimeoutAttrs;
    hide IdentityAttrs;
    hide Params;
    IdentityReads(c.identity, name);
    FailureReads(c, f, name);
    hide BaseAttrs;
    var common := CommonAttrs(c);
    LookupConcat(BaseAttrs(c), IdentityAttrs(c.identity), name);
    LookupConcat(common, Params(params), name);
    LookupConcat(common + Params(params), FailureAttrs(c, f), name);
    LookupConcat(common + Params(params) + FailureAttrs(c, f), TimeoutAttrs(f), name);
  }

  lemma FailureRecordHas(c: Call, f: Failure, params: seq<byte>)
    ensures forall i :: 0 <= i < |BASE_KEYS| ==>
              Lookup(FailureRecord(c, f, params), BASE_KEYS[i]) == Some(BaseAttrs(c)[2 * i + 1])
  {
    hide BaseAttrs;
    hide FailureRecord;
    hide Lookup;
    forall i | 0 <= i < |BASE_KEYS|
      ensures Lookup(FailureRecord(c, f, params), BASE_KEYS[i]) == Some(BaseAttrs(c)[2 * i + 1])
    {
      RecordReads(c, f, params, BASE_KEYS[i]);
      BaseHas(c, i);
    }
  }

  /** What a record of a failed call says under the keys of every call. */
  lemma FailureRecordSaysCall(c: Call, f: Failure, params: seq<byte>)
    ensures var r := FailureRecord(c, f, params);
            && Lookup(r, "tool") == Some(Text(c.tool)) && Lookup(r, "path") == Some(Text(c.path))
            && Lookup(r, "command") == Some(Text(c.command)) && Lookup(r, "exitCode") == Some(Number(c.exitCode))
            && Lookup(r, "stdoutBytes") == Some(Number(|c.stdout|))
            && Lookup(r, "stderrBytes") == Some(Number(|c.stderr|))
            && Lookup(r, "duration") == Some(Number(c.duration)) && Lookup(r, "truncated") == Some(Flag(c.truncated))
  {
    FailureRecordHas(c, f, params);
    hide FailureRecord;
    hide Lookup;
    assert BASE_KEYS[0] == "tool" && BASE_KEYS[1] == "path" && BASE_KEYS[2] == "command" && BASE_KEYS[3] == "exitCode";
    assert BASE_KEYS[4] == "stdoutBytes" && BASE_KEYS[5] == "stderrBytes";
    assert BASE_KEYS[6] == "duration" && BASE_KEYS[7] == "truncated";
  }

  lemma OtherValue(c: Call, f: Failure, params: seq<byte>, i: nat)
    requires i < |OTHER_KEYS|
    ensures Lookup(FailureRecord(c, f, params), OTHER_KEYS[i])
         == Else(Lookup(IdentityAttrs(c.identity), OTHER_KEYS[i]),
                 Else(Lookup(Params(params), OTHER_KEYS[i]),
                      Else(FailureValue(c, f, OTHER_KEYS[i]), Lookup(TimeoutAttrs(f), OTHER_KEYS[i]))))
  {
    hide Lookup;
    hide FailureRecord;
    hide FailureAttrs;
    hide FailureValue;
    hide BaseAttrs;
    hide IdentityAttrs;
    hide TimeoutAttrs;
    hide Params;
    forall j | 0 <= j < |BASE_KEYS| ensures BASE_KEYS[j] != OTHER_KEYS[i] {
      NotABaseKey(i, j);
    }
    BaseLacks(c, OTHER_KEYS[i]);
    RecordReads(c, f, params, OTHER_KEYS[i]);
    FailureReads(c, f, OTHER_KEYS[i]);
  }

  lemma OtherKeyNames()
    ensures |OTHER_KEYS| == 8
    ensures OTHER_KEYS[0] == "clientName" && OTHER_KEYS[1] == "clientVersion" && OTHER_KEYS[2] == "params"
    ensures OTHER_KEYS[3] == "reason" && OTHER_KEYS[4] == "error" && OTHER_KEYS[5] == "stdout"
    ensures OTHER_KEYS[6] == "stderr" && OTHER_KEYS[7] == "timeout"
    ensures forall i, j :: 0 <= i < j < 8 ==> OTHER_KEYS[i] != OTHER_KEYS[j]
  {
    forall i, j | 0 <= i < j < 8 ensures OTHER_KEYS[i] != OTHER_KEYS[j] {
      OtherKeysDiffer(i, j);
    }
  }

  /** What it says about the failure and the client: the parameters as they were given to it,
      the reason, the error of a script that did not start, both streams under their own names,
      the limit of a call that ran too long, and the client as far as it is known. */
  lemma FailureRecordSaysFailure(c: Call, f: Failure, params: seq<byte>)
    ensures var r := FailureRecord(c, f, params);
            && Lookup(r, "params") == Some(Text(params))
            && Lookup(r, "stdout") == Some(Text(c.stdout)) && Lookup(r, "stderr") == Some(Text(c.stderr))
            && Lookup(r, "reason") == FailureValue(c, f, "reason")
            && Lookup(r, "error") == (if f.StartFailed? then Some(Text(f.error)) else None)
            && Lookup(r, "timeout") == (if f.Timeout? then Some(Number(f.limit)) else None)
            && Lookup(r, "clientName") == (if c.identity.Client? then Shown(c.identity.name) else None)
            && Lookup(r, "clientVersion") == (if c.identity.Client? then Shown(c.identity.version) else None)
  {
    hide Lookup;
    hide FailureRecord;
    hide Shown;
    hide TimeoutAttrs;
    hide IdentityAttrs;
    hide Params;
    OtherKeyNames();
    forall i | 0 <= i < 8
      ensures Lookup(FailureRecord(c, f, params), OTHER_KEYS[i])
           == Else(if c.identity.Client? && i == 0 then Shown(c.identity.name)
                   else if c.identity.Client? && i == 1 then Shown(c.identity.version)
                   else None,
                   Else(if i == 2 then Some(Text(params)) else None,
                        Else(FailureValue(c, f, OTHER_KEYS[i]),
                             if f.Timeout? && i == 7 then Some(Number(f.limit)) else None)))
    {
      OtherValue(c, f, params, i);
      IdentityReads(c.identity, OTHER_KEYS[i]);
      ParamsReads(params, OTHER_KEYS[i]);
      TimeoutReads(f, OTHER_KEYS[i]);
      hide FailureValue;
    }
  }

  /** The attributes of the record of a completed call at the most detailed level. */
  function CompletedRecord(c: Call): seq<Attr> {
    CommonAttrs(c) + Params(c.rawArgs) + [Key("stdout"), Text(c.stdout)] + [Key("stderr"), Text(c.stderr)]
  }

  lemma PairReads(key: string, value: Attr, name: string)
    ensures Lookup([Key(key), value], name) == if key == name then Some(value) else None
  {
    LookupNext(key, value, [], name);
    assert [Key(key), value] + [] == [Key(key), value];
  }

  lemma CompletedReads(c: Call, name: string)
    ensures Lookup(CompletedRecord(c), name)
         == Else(Lookup(BaseAttrs(c), name),
                 Else(Lookup(IdentityAttrs(c.identity), name),
                      Else(if name == "params" then Some(Text(c.rawArgs)) else None,
                           Else(if name == "stdout" then Some(Text(c.stdout)) else None,
                                if name == "stderr" then Some(Text(c.stderr)) else None))))
  {
    hide Lookup;
    hide IdentityAttrs;
    hide Params;
    hide BaseAttrs;
    IdentityReads(c.identity, name);
    ParamsReads(c.rawArgs, name);
    PairReads("stdout", Text(c.stdout), name);
    PairReads("stderr", Text(c.stderr), name);
    var common := CommonAttrs(c);
    LookupConcat(BaseAttrs(c), IdentityAttrs(c.identity), name);
    LookupConcat(common, Params(c.rawArgs), name);
    LookupConcat(common + Params(c.rawArgs), [Key("stdout"), Text(c.stdout)], name);
    LookupConcat(common + Params(c.rawArgs) + [Key("stdout"), Text(c.stdout)], [Key("stderr"), Text(c.stderr)], name);
  }

  /** It says the same about the call, with the raw parameters and both streams. */
  lemma CompletedRecordSays(c: Call)
    ensures var r := CompletedRecord(c);
            && Lookup(r, "params") == Some(Text(c.rawArgs))
            && Lookup(r, "stdout") == Some(Text(c.stdout)) && Lookup(r, "stderr") == Some(Text(c.stderr))
            && forall i :: 0 <= i < |BASE_KEYS| ==> Lookup(r, BASE_KEYS[i]) == Some(BaseAttrs(c)[2 * i + 1])
  {
    hide Lookup;
    hide CompletedRecord;
    hide BaseAttrs;
    hide IdentityAttrs;
    hide Shown;
    OtherKeyNames();
    forall i | i == 2 || i == 5 || i == 6
      ensures Lookup(BaseAttrs(c), OTHER_KEYS[i]) == None && Lookup(IdentityAttrs(c.identity), OTHER_KEYS[i]) == None
    {
      forall j | 0 <= j < |BASE_KEYS| ensures BASE_KEYS[j] != OTHER_KEYS[i] {
        NotABaseKey(i, j);
      }
      BaseLacks(c, OTHER_KEYS[i]);
      IdentityReads(c.identity, OTHER_KEYS[i]);
    }
    CompletedReads(c, "params");
    CompletedReads(c, "stdout");
    CompletedReads(c, "stderr");
    forall i | 0 <= i < |BASE_KEYS| ensures Lookup(CompletedRecord(c), BASE_KEYS[i]) == Some(BaseAttrs(c)[2 * i + 1]) {
      CompletedReads(c, BASE_KEYS[i]);
      BaseHas(c, i);
    }
  }

  /** A synchronous logger: a record is what the slice holds at the moment of the call. */
  class Logger {
    var records: seq<Record>

    constructor ()
      ensures records == []
    {
      records := [];
    }

    method Log(level: Level, message: string, attrs: Slice<Attr>)
      requires InBounds(attrs)
      modifies this
      ensures records == old(records) + [Record(level, message, old(Contents(attrs)))]
    {
      records := records + [Record(level, message, Contents(attrs))];
    }
  }

  /** The common attributes as a slice; `grow` is the runtime's choice of spare capacity
      for a new array, given the old capacity and the needed length. */
  method BuildAttrs(c: Call, grow: (nat, nat) -> nat) returns (attrs: Slice<Attr>)
    ensures InBounds(attrs) && attrs.View? && fresh(attrs.arr)
    ensures Contents(attrs) == CommonAttrs(c)
  {
    var base := BaseAttrs(c);
    var arr := new Attr[|base|](i requires 0 <= i < |base| => base[i]);
    attrs := View(arr, 0, |base|, |base|);
    assert Contents(attrs) == base;
    attrs := AppendGrown(attrs, IdentityAttrs(c.identity), grow);
  }

  method AppendGrown(s: Slice<Attr>, xs: seq<Attr>, grow: (nat, nat) -> nat) returns (r: Slice<Attr>)
    requires InBounds(s) && s.View?
    modifies s.arr
    ensures InBounds(r) && r.View? && Contents(r) == old(Contents(s)) + xs
    ensures Fits(s, |xs|) ==> r == s.(len := s.len + |xs|)
    ensures !Fits(s, |xs|) ==> fresh(r.arr)
    ensures forall k :: 0 <= k < s.arr.Length && (!Fits(s, |xs|) || k < s.off + s.len || s.off + s.len + |xs| <= k)
              ==> s.arr[k] == old(s.arr[k])
  {
    r := Append(s, xs, grow(s.cap, s.len + |xs|));
  }

  /** Builds the attributes of one failure record on top of the common ones. The common
      attributes stay as they are; what lies behind them in the array need not. */
  method BuildFailureAttrs(attrs: Slice<Attr>, ghost common: seq<Attr>, params: seq<Attr>, failure: seq<Attr>,
          timeout: seq<Attr>,
                           grow: (nat, nat) -> nat)
    returns (r: Slice<Attr>)
    requires InBounds(attrs) && attrs.View? && Contents(attrs) == common
    modifies attrs.arr
    ensures InBounds(r) && Contents(r) == common + params + failure + timeout
    ensures Contents(attrs) == common
  {
    r := AppendBehind(attrs, common, attrs, params, grow);
    r := AppendBehind(attrs, common, r, failure, grow);
    if |timeout| > 0 {
      r := AppendBehind(attrs, common, r, timeout, grow);
    }
  }

  /** The slice ends behind another one, if it shares its array. */
  predicate Behind(r: Slice<Attr>, attrs: Slice<Attr>) {
    r.View? && attrs.View? && (r.arr == attrs.arr ==> attrs.off + attrs.len <= r.off + r.len)
  }

  /** Appending to a slice that ends behind the common attributes leaves these alone. */
  method AppendBehind(attrs: Slice<Attr>, ghost common: seq<Attr>, s: Slice<Attr>, xs: seq<Attr>,
          grow: (nat, nat) -> nat) returns (r: Slice<Attr>)
    requires InBounds(attrs) && InBounds(s) && Behind(s, attrs) && Contents(attrs) == common
    modifies s.arr
    ensures InBounds(r) && Behind(r, attrs) && (r.arr == s.arr || fresh(r.arr))
    ensures Contents(r) == old(Contents(s)) + xs && Contents(attrs) == common
  {
    r := AppendGrown(s, xs, grow);
    assert Contents(attrs) == common;
  }

  /** The pair of records of a failed call. Whatever array the two slices share, the
      records differ in their parameters only: bounded at WARN, raw at TRACE. */
  method LogFailure(log: Logger, c: Call, f: Failure, grow: (nat, nat) -> nat)
    modifies log
    ensures log.records == old(log.records)
                           + [Record(Warn, "tool call failed",
                               FailureRecord(c, f, Capture.BoundedValue(c.rawArgs, MAX_WARN_PARAMS_BYTES)))]
                           + [Record(Trace, "tool call failed", FailureRecord(c, f, c.rawArgs))]
  {
    var attrs := BuildAttrs(c, grow);
    var bounded := Capture.BoundLogValue(c.rawArgs, MAX_WARN_PARAMS_BYTES);
    var warnAttrs :=
        BuildFailureAttrs(attrs, CommonAttrs(c), Params(bounded), FailureAttrs(c, f), TimeoutAttrs(f), grow);
    log.Log(Warn, "tool call failed", warnAttrs);
    var traceAttrs :=
        BuildFailureAttrs(attrs, CommonAttrs(c), Params(c.rawArgs), FailureAttrs(c, f), TimeoutAttrs(f), grow);
    log.Log(Trace, "tool call failed", traceAttrs);
  }

  /** The records of a successful call. */
  method LogSuccess(log: Logger, c: Call, debugEnabled: bool, traceEnabled: bool, grow: (nat, nat) -> nat)
    modifies log
    ensures log.records == old(log.records)
                           + (if debugEnabled
                              then [Record(Debug, "tool call completed",
                                  CommonAttrs(c) + Params(Capture.BoundedValue(c.rawArgs, MAX_DEBUG_PARAMS_BYTES)))]
                              else [])
                           + (if traceEnabled
                              then [Record(Trace, "tool call completed", CompletedRecord(c))]
                              else [])
  {
    hide CommonAttrs;
    hide Params;
    var attrs := BuildAttrs(c, grow);
    if debugEnabled {
      var bounded := Capture.BoundLogValue(c.rawArgs, MAX_DEBUG_PARAMS_BYTES);
      var debugAttrs := AppendBehind(attrs, CommonAttrs(c), attrs, Params(bounded), grow);
      log.Log(Debug, "tool call completed", debugAttrs);
    }
    if traceEnabled {
      var traceAttrs := AppendBehind(attrs, CommonAttrs(c), attrs, Params(c.rawArgs), grow);
      traceAttrs := AppendBehind(attrs, CommonAttrs(c), traceAttrs, [Key("stdout"), Text(c.stdout)], grow);
      traceAttrs := AppendBehind(attrs, CommonAttrs(c), traceAttrs, [Key("stderr"), Text(c.stderr)], grow);
      log.Log(Trace, "tool call completed", traceAttrs);
    }
  }

  /** Why the logger must be synchronous: once the second slice is built, the first one
      reads as the second exactly when the new elements fit the shared array. */
  method AppendTwice(s: Slice<Attr>, xs: seq<Attr>, ys: seq<Attr>, grow: (nat, nat) -> nat)
    returns (a: Slice<Attr>, b: Slice<Attr>)
    requires InBounds(s) && s.View? && |xs| == |ys|
    modifies s.arr
    ensures InBounds(a) && InBounds(b)
    ensures Contents(b) == old(Contents(s)) + ys
    ensures Contents(a) == old(Contents(s)) + (if Fits(s, |xs|) then ys else xs)
  {
    a := AppendGrown(s, xs, grow);
    assert Contents(s) == old(Contents(s));
    b := AppendGrown(s, ys, grow);
  }
}
