/** The earlier single-file daemon (rpint.py): its `lldp()` routine, which
    reads fixed paths of the neighbour document and writes nine `HSET`s one
    by one, and the charge computation of its `ups_hat()` loop. */
module Legacy {
  import opened Py
  import opened PyJson
  import Redis
  import Power

  /** What `json.loads` made of the command output. */
  datatype LegacyInput = Undecodable | Decoded(doc: Json)

  /** The values lines 38-45 read before anything is written. */
  datatype LegacyValues = LegacyValues(
    chassis: string, descr: seq<string>, mac: Json, port: Json,
    autoNegotiation: seq<string>, vlanId: Json, powerSupported: Json, powerEnabled: Json)

  /** The `HSET LLDP` field writes that happened, in order, and how the
      routine ended. */
  datatype Run = Run(writes: seq<Redis.Write>, outcome: Result<()>)

  /** The fields the routine writes, in the order it writes them;
      `power_enabled` is written twice. */
  const FieldOrder: seq<string> := [
    "chassis", "descr", "mac", "port", "auto_negotiation", "vlan_id",
    "power_supported", "power_enabled", "power_enabled"]

  /** The eight distinct fields. */
  const LegacyFields: set<string> := set f | f in FieldOrder

  /** The placeholder written when there is no neighbour. */
  const Placeholder: string := "--"

  /** `list(x)[0]`, the first key of the chassis mapping; the value is then
      used to index that same mapping. */
  function ChassisKey(chassis: Json): (r: Result<string>)
    ensures chassis.Obj? && chassis.fields != [] ==> r == Ok(chassis.fields[0].0)
    ensures chassis.Obj? && chassis.fields == [] ==> r == Err(IndexError)
    ensures r.Ok? && !chassis.Obj? ==> Index(chassis, r.value) == Err(TypeError)
  {
    match chassis
    case Obj(fields) => if fields == [] then Err(IndexError) else Ok(fields[0].0)
    case Str(s) => if s == [] then Err(IndexError) else Ok([s[0]])
    case Arr(items) => if items == [] then Err(IndexError) else Err(TypeError)
    case _ => Err(TypeError)
  }

  /** `x.split()`, which only a string has. */
  function SplitText(j: Json): (r: Result<seq<string>>)
    ensures r.Ok? <==> j.Str?
    ensures j.Str? ==> r == Ok(Tokens(j.s))
    ensures r.Err? ==> r.error == AttributeError
  {
    if j.Str? then Ok(Tokens(j.s)) else Err(AttributeError)
  }

  /** `len(doc['lldp'])` */
  function NeighbourCount(doc: Json): (r: Result<nat>)
    ensures Index(doc, "lldp").Err? ==> r == Err(Index(doc, "lldp").error)
    ensures Index(doc, "lldp").Ok? ==> r == Len(Index(doc, "lldp").value)
    ensures r.Err? ==> r.error == KeyError || r.error == TypeError
  {
    var top :- Index(doc, "lldp");
    Len(top)
  }

  /** `doc['lldp']['interface']['eth0']` */
  function Eth0(doc: Json): (r: Result<Json>)
    ensures r == IndexPath(doc, ["lldp", "interface", "eth0"])
    ensures Index(doc, "lldp").Err? ==> r == Err(Index(doc, "lldp").error)
  {
    IndexPath3(doc, "lldp", "interface", "eth0");
    var top :- Index(doc, "lldp");
    IndexPath2(top, "interface", "eth0");
    var iface :- Index(top, "interface");
    Index(iface, "eth0")
  }

  /** Lines 38-40: the chassis key, the words of its description, and its id. */
  function ReadChassis(eth0: Json): (r: Result<(string, seq<string>, Json)>)
    ensures Index(eth0, "chassis").Err? ==> r == Err(Index(eth0, "chassis").error)
    ensures r.Ok? <==>
      && Index(eth0, "chassis").Ok? && ChassisKey(Index(eth0, "chassis").value).Ok?
      && (var key := ChassisKey(Index(eth0, "chassis").value).value;
          && IndexPath(eth0, ["chassis", key, "descr"]).Ok?
          && SplitText(IndexPath(eth0, ["chassis", key, "descr"]).value).Ok?
          && IndexPath(eth0, ["chassis", key, "id", "value"]).Ok?)
    ensures r.Ok? ==>
      && Index(eth0, "chassis").Ok? && ChassisKey(Index(eth0, "chassis").value) == Ok(r.value.0)
      && IndexPath(eth0, ["chassis", r.value.0, "descr"]).Ok?
      && SplitText(IndexPath(eth0, ["chassis", r.value.0, "descr"]).value) == Ok(r.value.1)
      && IndexPath(eth0, ["chassis", r.value.0, "id", "value"]) == Ok(r.value.2)
  {
    var chassisMap :- Index(eth0, "chassis");
    var chassis :- ChassisKey(chassisMap);
    IndexPath3(eth0, "chassis", chassis, "descr");
    IndexPath4(eth0, "chassis", chassis, "id", "value");
    IndexPath2(chassisMap, chassis, "descr");
    IndexPath3(chassisMap, chassis, "id", "value");
    var entry :- Index(chassisMap, chassis);
    IndexPath2(entry, "id", "value");
    var descrText :- Index(entry, "descr");
    var descr :- SplitText(descrText);
    var id :- Index(entry, "id");
    var mac :- Index(id, "value");
    Ok((chassis, descr, mac))
  }

  /** Lines 41-42: the port id and the words of the current mode. */
  function ReadPort(eth0: Json): (r: Result<(Json, seq<string>)>)
    ensures r.Ok? <==>
      && IndexPath(eth0, ["port", "id", "value"]).Ok?
      && IndexPath(eth0, ["port", "auto-negotiation", "current"]).Ok?
      && SplitText(IndexPath(eth0, ["port", "auto-negotiation", "current"]).value).Ok?
    ensures r.Ok? ==>
      && IndexPath(eth0, ["port", "id", "value"]) == Ok(r.value.0)
      && SplitText(IndexPath(eth0, ["port", "auto-negotiation", "current"]).value) == Ok(r.value.1)
  {
    IndexPath3(eth0, "port", "id", "value");
    IndexPath3(eth0, "port", "auto-negotiation", "current");
    var port :- Index(eth0, "port");
    IndexPath2(port, "id", "value");
    IndexPath2(port, "auto-negotiation", "current");
    var portId :- Index(port, "id");
    var portValue :- Index(portId, "value");
    var autoNeg :- Index(port, "auto-negotiation");
    var current :- Index(autoNeg, "current");
    var autoNegotiation :- SplitText(current);
    Ok((portValue, autoNegotiation))
  }

  /** Line 43. */
  function ReadVlan(eth0: Json): (r: Result<Json>)
    ensures r == IndexPath(eth0, ["vlan", "vlan-id"])
  {
    IndexPath2(eth0, "vlan", "vlan-id");
    var vlan :- Index(eth0, "vlan");
    Index(vlan, "vlan-id")
  }

  /** Lines 44-45. */
  function ReadPower(eth0: Json): (r: Result<(Json, Json)>)
    ensures r.Ok? <==>
      IndexPath(eth0, ["port", "power", "supported"]).Ok? && IndexPath(eth0, ["port", "power", "enabled"]).Ok?
    ensures r.Ok? ==>
      && IndexPath(eth0, ["port", "power", "supported"]) == Ok(r.value.0)
      && IndexPath(eth0, ["port", "power", "enabled"]) == Ok(r.value.1)
  {
    IndexPath3(eth0, "port", "power", "supported");
    IndexPath3(eth0, "port", "power", "enabled");
    var port :- Index(eth0, "port");
    IndexPath2(port, "power", "supported");
    IndexPath2(port, "power", "enabled");
    var power :- Index(port, "power");
    var supported :- Index(power, "supported");
    var enabled :- Index(power, "enabled");
    Ok((supported, enabled))
  }

  /** Lines 38-45: every value is read, and every path must exist, before the
      first write; a missing key, a value of the wrong kind or an empty
      chassis mapping raises. */
  function ReadNeighbour(doc: Json): (r: Result<LegacyValues>)
    ensures Index(doc, "lldp").Err? ==> r == Err(Index(doc, "lldp").error)
    ensures r.Ok? <==>
      && Eth0(doc).Ok? && ReadChassis(Eth0(doc).value).Ok? && ReadPort(Eth0(doc).value).Ok?
      && ReadVlan(Eth0(doc).value).Ok? && ReadPower(Eth0(doc).value).Ok?
    ensures r.Ok? ==>
      && ReadChassis(Eth0(doc).value) == Ok((r.value.chassis, r.value.descr, r.value.mac))
      && ReadPort(Eth0(doc).value) == Ok((r.value.port, r.value.autoNegotiation))
      && ReadVlan(Eth0(doc).value) == Ok(r.value.vlanId)
      && ReadPower(Eth0(doc).value) == Ok((r.value.powerSupported, r.value.powerEnabled))
  {
    var eth0 :- Eth0(doc);
    var (chassis, descr, mac) :- ReadChassis(eth0);
    var (port, autoNegotiation) :- ReadPort(eth0);
    var vlanId :- ReadVlan(eth0);
    var (powerSupported, powerEnabled) :- ReadPower(eth0);
    Ok(LegacyValues(chassis, descr, mac, port, autoNegotiation, vlanId, powerSupported, powerEnabled))
  }

  function FieldWrite(field: string, value: string): Redis.Write {
    Redis.Write(field, value)
  }

  /** One `HSET LLDP field value` of lines 46-64: the field, and the value
      written or the exception its computation raises. */
  datatype Step = Step(field: string, value: Result<string>)

  /** `str(words[0])` on the result of `split()`. */
  function FirstWord(words: seq<string>): (r: Result<string>)
    ensures r.Ok? <==> words != []
    ensures r.Err? ==> r.error == IndexError
  {
    if words == [] then Err(IndexError) else Ok(words[0])
  }

  /** The values of lines 46-54, in order. */
  function NeighbourValues(v: LegacyValues): (values: seq<Result<string>>)
    ensures |values| == |FieldOrder|
    ensures values[0] == Ok(v.chassis)
    ensures (values[1].Ok? <==> v.descr != []) && (values[1].Ok? ==> values[1].value == v.descr[0])
    ensures values[2] == RedisEncode(v.mac) && values[3] == RedisEncode(v.port)
    ensures (values[4].Ok? <==> v.autoNegotiation != [])
    ensures values[4].Ok? ==> values[4].value == v.autoNegotiation[0]
    ensures values[5] == RedisEncode(v.vlanId)
    ensures values[6] == Ok(PyStr(v.powerSupported))
    ensures values[7] == values[8] == Ok(PyStr(v.powerEnabled))
  {
    [Ok(v.chassis), FirstWord(v.descr), RedisEncode(v.mac), RedisEncode(v.port),
     FirstWord(v.autoNegotiation), RedisEncode(v.vlanId),
     Ok(PyStr(v.powerSupported)), Ok(PyStr(v.powerEnabled)), Ok(PyStr(v.powerEnabled))]
  }

  /** The values of lines 56-64. */
  const FallbackValues: seq<Result<string>> := [
    Ok(Placeholder), Ok(Placeholder), Ok(Placeholder), Ok(Placeholder), Ok(Placeholder),
    Ok(Placeholder), Ok(Placeholder), Ok(Placeholder), Ok(Placeholder)]

  /** The steps pairing each field with its value. */
  function Steps(fields: seq<string>, values: seq<Result<string>>): (steps: seq<Step>)
    requires |values| == |fields|
    ensures |steps| == |fields|
    ensures forall i :: 0 <= i < |steps| ==> steps[i] == Step(fields[i], values[i])
  {
    seq(|fields|, i requires 0 <= i < |fields| => Step(fields[i], values[i]))
  }

  /** The position of the first step whose value raises, or the number of
      steps when none does. */
  function FirstFailure(steps: seq<Step>): (n: nat)
    ensures n <= |steps|
    ensures forall i :: 0 <= i < n ==> steps[i].value.Ok?
    ensures n < |steps| ==> steps[n].value.Err?
  {
    if steps == [] || steps[0].value.Err? then 0 else 1 + FirstFailure(steps[1..])
  }

  /** The first failing step is the one the writes stop at. */
  lemma {:induction false} FirstFailureAt(steps: seq<Step>, n: nat)
    requires n <= |steps|
    requires forall i :: 0 <= i < n ==> steps[i].value.Ok?
    requires n == |steps| || steps[n].value.Err?
    ensures FirstFailure(steps) == n
    decreases n
  {
    if n > 0 {
      FirstFailureAt(steps[1..], n - 1);
    }
  }

  /** The writes of the first `n` steps, all of which succeeded. */
  function WritesOf(steps: seq<Step>, n: nat): (writes: seq<Redis.Write>)
    requires n <= |steps| && forall i :: 0 <= i < n ==> steps[i].value.Ok?
    ensures |writes| == n
  {
    seq(n, i requires 0 <= i < n => FieldWrite(steps[i].field, steps[i].value.value))
  }

  /** Steps done one after the other: each is written, up to the first that
      raises, which ends the routine with its exception and writes nothing
      more. */
  function Perform(steps: seq<Step>): (r: Run)
    ensures |r.writes| == FirstFailure(steps)
    ensures forall i :: 0 <= i < |r.writes| ==>
      steps[i].value.Ok? && r.writes[i] == FieldWrite(steps[i].field, steps[i].value.value)
    ensures r.outcome.Ok? <==> forall i :: 0 <= i < |steps| ==> steps[i].value.Ok?
    ensures r.outcome.Err? ==> steps[|r.writes|].value == Err(r.outcome.error)
  {
    var n := FirstFailure(steps);
    Run(WritesOf(steps, n), if n == |steps| then Ok(()) else Err(steps[n].value.error))
  }

  /** The whole routine from the parsed document: exceptions from parsing,
      from `len` or from reading the paths come before any write. */
  function LegacyRun(input: LegacyInput): (r: Run)
    ensures input.Undecodable? ==> r == Run([], Err(JsonDecodeError))
    ensures |r.writes| <= |FieldOrder|
    ensures forall i :: 0 <= i < |r.writes| ==> r.writes[i].key == FieldOrder[i]
    ensures r.outcome.Ok? ==> |r.writes| == |FieldOrder|
  {
    match input
    case Undecodable => Run([], Err(JsonDecodeError))
    case Decoded(doc) =>
      match NeighbourCount(doc)
      case Err(e) => Run([], Err(e))
      case Ok(n) =>
        if n == 0 then Perform(Steps(FieldOrder, FallbackValues))
        else
          match ReadNeighbour(doc)
          case Err(e) => Run([], Err(e))
          case Ok(v) => Perform(Steps(FieldOrder, NeighbourValues(v)))
  }

  /** Without a neighbour the routine performs the placeholder steps. */
  lemma RunWithoutNeighbour(doc: Json)
    requires NeighbourCount(doc) == Ok(0)
    ensures LegacyRun(Decoded(doc)) == Perform(Steps(FieldOrder, FallbackValues))
  {
  }

  /** With a neighbour whose paths all exist the routine performs the steps
      of its values. */
  lemma RunWithNeighbour(doc: Json, v: LegacyValues)
    requires NeighbourCount(doc).Ok? && NeighbourCount(doc).value != 0
    requires ReadNeighbour(doc) == Ok(v)
    ensures LegacyRun(Decoded(doc)) == Perform(Steps(FieldOrder, NeighbourValues(v)))
  {
  }

  /** Only the first value is sure to be written: each later one raises at
      most an `IndexError` (an empty split text) or a `DataError` (a value
      redis-py refuses). */
  lemma NeighbourValueErrors(v: LegacyValues)
    ensures NeighbourValues(v)[0].Ok?
    ensures forall i :: 0 <= i < |FieldOrder| && NeighbourValues(v)[i].Err? ==>
      NeighbourValues(v)[i].error == IndexError || NeighbourValues(v)[i].error == DataError
  {
  }

  /** Once some field has been written, the routine can only have been cut
      short by an empty split text or by a value redis-py refuses. */
  lemma PartialWriteCause(doc: Json)
    ensures var r := LegacyRun(Decoded(doc));
      r.writes != [] && r.outcome.Err? ==> r.outcome.error == IndexError || r.outcome.error == DataError
  {
    var r := LegacyRun(Decoded(doc));
    if r.writes != [] && r.outcome.Err? {
      var v := ReadNeighbour(doc).value;
      RunWithNeighbour(doc, v);
      NeighbourValueErrors(v);
      var steps := Steps(FieldOrder, NeighbourValues(v));
      assert steps[|r.writes|].value == NeighbourValues(v)[|r.writes|];
    }
  }

  /** The `hashes` of the store after the given writes to `LLDP`; no write
      leaves the store as it was. */
  function HashAfter(hashes: map<string, map<string, string>>, writes: seq<Redis.Write>): map<string, map<string, string>> {
    if writes == [] then hashes
    else hashes["LLDP" := Redis.ApplySets(if "LLDP" in hashes then hashes["LLDP"] else map[], writes)]
  }

  /** `lldp()`: raises, or writes the placeholder to every field when there
      is no neighbour, or writes the neighbour's values field by field. */
  method LegacyLldp(store: Redis.Store, input: LegacyInput) returns (r: Result<()>)
    modifies store
    ensures r == LegacyRun(input).outcome
    ensures store.hashes == HashAfter(old(store.hashes), LegacyRun(input).writes)
    ensures store.strings == old(store.strings)
  {
    if input.Undecodable? {
      return Err(JsonDecodeError);
    }
    var doc := input.doc;
    var count :- NeighbourCount(doc);
    if count != 0 {
      var values :- ReadNeighbour(doc);
      r := PerformSteps(store, Steps(FieldOrder, NeighbourValues(values)));
    } else {
      r := PerformSteps(store, Steps(FieldOrder, FallbackValues));
    }
  }

  /** The `HSET`s of lines 46-54 or 56-64, one per step, stopping at the
      first value that raises. */
  method PerformSteps(store: Redis.Store, steps: seq<Step>) returns (r: Result<()>)
    modifies store
    ensures r == Perform(steps).outcome
    ensures store.hashes == HashAfter(old(store.hashes), Perform(steps).writes)
    ensures store.strings == old(store.strings)
  {
    ghost var start := store.hashes;
    ghost var base := if "LLDP" in start then start["LLDP"] else map[];
    for i := 0 to |steps|
      invariant forall k :: 0 <= k < i ==> steps[k].value.Ok?
      invariant store.hashes == HashAfter(start, WritesOf(steps, i))
      invariant store.strings == old(store.strings)
    {
      match steps[i].value
      case Err(e) =>
        FirstFailureAt(steps, i);
        return Err(e);
      case Ok(text) =>
        store.HSetField("LLDP", steps[i].field, text);
        assert WritesOf(steps, i + 1) == WritesOf(steps, i) + [FieldWrite(steps[i].field, text)];
        Redis.ApplySetsAppend(base, WritesOf(steps, i), [FieldWrite(steps[i].field, text)]);
    }
    FirstFailureAt(steps, |steps|);
    r := Ok(());
  }

  /** Writing the same field the same value twice in a row is writing it once:
      the repeated `power_enabled` write changes nothing. */
  lemma RepeatedWriteIdempotent(m: map<string, string>, writes: seq<Redis.Write>, c: Redis.Write)
    ensures Redis.ApplySets(m, writes + [c, c]) == Redis.ApplySets(m, writes + [c])
  {
    Redis.ApplySetsAppend(m, writes, [c, c]);
    Redis.ApplySetsAppend(m, writes, [c]);
    var x := Redis.ApplySets(m, writes);
    var once := x[c.key := c.value];
    assert [c, c][1..] == [c] && [c][1..] == [];
    assert Redis.ApplySets(x, [c]) == once;
    assert Redis.ApplySets(x, [c, c]) == Redis.ApplySets(once, [c]) == once[c.key := c.value];
    assert once[c.key := c.value] == once;
  }

  /** A batch whose every write carries the same value leaves that value in
      every field it writes. */
  lemma {:induction false} UniformWrites(m: map<string, string>, writes: seq<Redis.Write>, value: string)
    requires forall i :: 0 <= i < |writes| ==> writes[i].value == value
    ensures forall k :: k in Redis.WrittenKeys(writes) ==>
      k in Redis.ApplySets(m, writes) && Redis.ApplySets(m, writes)[k] == value
    decreases |writes|
  {
    if writes != [] {
      var m' := m[writes[0].key := value];
      UniformWrites(m', writes[1..], value);
      Redis.ApplySetsFrame(m', writes[1..]);
    }
  }

  /** A field written at position `i` and not again afterwards keeps the
      value written there. */
  lemma LastWrite(m: map<string, string>, writes: seq<Redis.Write>, i: nat)
    requires i < |writes|
    requires forall j :: i < j < |writes| ==> writes[j].key != writes[i].key
    ensures writes[i].key in Redis.ApplySets(m, writes)
    ensures Redis.ApplySets(m, writes)[writes[i].key] == writes[i].value
  {
    var head := writes[..i + 1];
    var tail := writes[i + 1..];
    assert writes == head + tail;
    Redis.ApplySetsAppend(m, head, tail);
    Redis.ApplySetsFrame(m, head);
    Redis.ApplySetsFrame(Redis.ApplySets(m, head), tail);
  }

  /** Writes that follow a field order name exactly the fields of that order. */
  lemma WritesFollowOrder(writes: seq<Redis.Write>, fields: seq<string>)
    requires |writes| == |fields|
    requires forall i :: 0 <= i < |writes| ==> writes[i].key == fields[i]
    ensures Redis.WrittenKeys(writes) == set f | f in fields
  {
    forall f | f in Redis.WrittenKeys(writes)
      ensures f in fields
    {
      var i :| 0 <= i < |writes| && writes[i].key == f;
      assert fields[i] == f;
    }
    forall f | f in fields
      ensures f in Redis.WrittenKeys(writes)
    {
      var i :| 0 <= i < |fields| && fields[i] == f;
      assert writes[i].key == f;
    }
  }

  /** Steps that all succeed are all written, in order. */
  lemma AllStepsWritten(fields: seq<string>, values: seq<Result<string>>)
    requires |values| == |fields|
    requires forall i :: 0 <= i < |values| ==> values[i].Ok?
    ensures Perform(Steps(fields, values)).outcome.Ok?
    ensures |Perform(Steps(fields, values)).writes| == |fields|
    ensures forall i :: 0 <= i < |fields| ==>
      Perform(Steps(fields, values)).writes[i] == FieldWrite(fields[i], values[i].value)
  {
  }

  /** Without a neighbour the routine succeeds and the `LLDP` hash holds the
      placeholder in all eight fields, next to its other fields unchanged. */
  lemma NoNeighbourPlaceholders(hashes: map<string, map<string, string>>, doc: Json)
    requires NeighbourCount(doc) == Ok(0)
    ensures LegacyRun(Decoded(doc)).outcome == Ok(())
    ensures var after := HashAfter(hashes, LegacyRun(Decoded(doc)).writes);
      var before := if "LLDP" in hashes then hashes["LLDP"] else map[];
      && "LLDP" in after
      && after["LLDP"].Keys == before.Keys + LegacyFields
      && (forall f :: f in LegacyFields ==> after["LLDP"][f] == Placeholder)
      && (forall f :: f in before && f !in LegacyFields ==> after["LLDP"][f] == before[f])
  {
    RunWithoutNeighbour(doc);
    PlaceholderWrites(if "LLDP" in hashes then hashes["LLDP"] else map[], FieldOrder, FallbackValues);
  }

  /** The placeholder steps, for any field order. */
  lemma PlaceholderWrites(before: map<string, string>, fields: seq<string>, values: seq<Result<string>>)
    requires |values| == |fields|
    requires forall i :: 0 <= i < |values| ==> values[i] == Ok(Placeholder)
    ensures Perform(Steps(fields, values)).outcome == Ok(())
    ensures var after := Redis.ApplySets(before, Perform(Steps(fields, values)).writes);
      && after.Keys == before.Keys + (set f | f in fields)
      && (forall f :: f in fields ==> after[f] == Placeholder)
      && (forall f :: f in before && f !in fields ==> after[f] == before[f])
  {
    AllStepsWritten(fields, values);
    var writes := Perform(Steps(fields, values)).writes;
    WritesFollowOrder(writes, fields);
    Redis.ApplySetsFrame(before, writes);
    UniformWrites(before, writes, Placeholder);
  }

  /** With a neighbour and every path present, the routine succeeds exactly
      when both split texts have a first word and the MAC, port and VLAN
      values are strings or integers. */
  lemma NeighbourSucceeds(doc: Json, v: LegacyValues)
    requires NeighbourCount(doc).Ok? && NeighbourCount(doc).value != 0
    requires ReadNeighbour(doc) == Ok(v)
    ensures LegacyRun(Decoded(doc)).outcome.Ok? <==>
      (v.descr != [] && v.autoNegotiation != []
       && RedisEncode(v.mac).Ok? && RedisEncode(v.port).Ok? && RedisEncode(v.vlanId).Ok?)
  {
    RunWithNeighbour(doc, v);
    ValuesSucceed(FieldOrder, v);
  }

  lemma ValuesSucceed(fields: seq<string>, v: LegacyValues)
    requires |fields| == |FieldOrder|
    ensures Perform(Steps(fields, NeighbourValues(v))).outcome.Ok? <==>
      (v.descr != [] && v.autoNegotiation != []
       && RedisEncode(v.mac).Ok? && RedisEncode(v.port).Ok? && RedisEncode(v.vlanId).Ok?)
  {
    var values := NeighbourValues(v);
    var steps := Steps(fields, values);
    assert values[1] == FirstWord(v.descr) && values[2] == RedisEncode(v.mac);
    assert values[3] == RedisEncode(v.port) && values[4] == FirstWord(v.autoNegotiation);
    assert values[5] == RedisEncode(v.vlanId);
    if Perform(steps).outcome.Ok? {
      assert steps[1].value.Ok? && steps[2].value.Ok? && steps[3].value.Ok?;
      assert steps[4].value.Ok? && steps[5].value.Ok?;
    }
    if v.descr != [] && v.autoNegotiation != []
       && RedisEncode(v.mac).Ok? && RedisEncode(v.port).Ok? && RedisEncode(v.vlanId).Ok? {
      forall i | 0 <= i < |steps|
        ensures steps[i].value.Ok?
      {
        assert steps[i].value == values[i];
        if i == 0 {} else if i == 1 {} else if i == 2 {} else if i == 3 {}
        else if i == 4 {} else if i == 5 {} else if i == 6 {} else if i == 7 {} else {}
      }
    }
  }

  /** After a successful run with a neighbour the hash holds every value
      read: the chassis key, the first words of the description and of the
      current mode, the MAC, port and VLAN values as redis-py encodes them,
      and the text of both power flags. */
  lemma NeighbourStored(hashes: map<string, map<string, string>>, doc: Json, v: LegacyValues)
    requires NeighbourCount(doc).Ok? && NeighbourCount(doc).value != 0
    requires ReadNeighbour(doc) == Ok(v)
    requires LegacyRun(Decoded(doc)).outcome.Ok?
    ensures v.descr != [] && v.autoNegotiation != []
    ensures RedisEncode(v.mac).Ok? && RedisEncode(v.port).Ok? && RedisEncode(v.vlanId).Ok?
    ensures var after := HashAfter(hashes, LegacyRun(Decoded(doc)).writes)["LLDP"];
      && "chassis" in after && after["chassis"] == v.chassis
      && "descr" in after && after["descr"] == v.descr[0]
      && "mac" in after && after["mac"] == RedisEncode(v.mac).value
      && "port" in after && after["port"] == RedisEncode(v.port).value
      && "auto_negotiation" in after && after["auto_negotiation"] == v.autoNegotiation[0]
      && "vlan_id" in after && after["vlan_id"] == RedisEncode(v.vlanId).value
      && "power_supported" in after && after["power_supported"] == PyStr(v.powerSupported)
      && "power_enabled" in after && after["power_enabled"] == PyStr(v.powerEnabled)
  {
    NeighbourSucceeds(doc, v);
    RunWithNeighbour(doc, v);
    var before := if "LLDP" in hashes then hashes["LLDP"] else map[];
    NamedValuesStored(before, v);
    assert HashAfter(hashes, LegacyRun(Decoded(doc)).writes)["LLDP"]
      == Redis.ApplySets(before, Perform(Steps(FieldOrder, NeighbourValues(v))).writes);
  }

  lemma NamedValuesStored(before: map<string, string>, v: LegacyValues)
    requires Perform(Steps(FieldOrder, NeighbourValues(v))).outcome.Ok?
    ensures var after := Redis.ApplySets(before, Perform(Steps(FieldOrder, NeighbourValues(v))).writes);
      && v.descr != [] && v.autoNegotiation != []
      && RedisEncode(v.mac).Ok? && RedisEncode(v.port).Ok? && RedisEncode(v.vlanId).Ok?
      && "chassis" in after && after["chassis"] == v.chassis
      && "descr" in after && after["descr"] == v.descr[0]
      && "mac" in after && after["mac"] == RedisEncode(v.mac).value
      && "port" in after && after["port"] == RedisEncode(v.port).value
      && "auto_negotiation" in after && after["auto_negotiation"] == v.autoNegotiation[0]
      && "vlan_id" in after && after["vlan_id"] == RedisEncode(v.vlanId).value
      && "power_supported" in after && after["power_supported"] == PyStr(v.powerSupported)
      && "power_enabled" in after && after["power_enabled"] == PyStr(v.powerEnabled)
  {
    assert forall i, j :: 0 <= i < j < |FieldOrder| && i < 7 ==> FieldOrder[i] != FieldOrder[j];
    StoredValues(before, FieldOrder, v);
    var values := NeighbourValues(v);
    var after := Redis.ApplySets(before, Perform(Steps(FieldOrder, values)).writes);
    assert values[1].Ok? && values[4].Ok?;
    assert values[2].Ok? && values[3].Ok? && values[5].Ok?;
    assert FieldOrder[0] == "chassis" && after[FieldOrder[0]] == values[0].value;
    assert FieldOrder[1] == "descr" && after[FieldOrder[1]] == values[1].value;
    assert FieldOrder[2] == "mac" && after[FieldOrder[2]] == values[2].value;
    assert FieldOrder[3] == "port" && after[FieldOrder[3]] == values[3].value;
    assert FieldOrder[4] == "auto_negotiation" && after[FieldOrder[4]] == values[4].value;
    assert FieldOrder[5] == "vlan_id" && after[FieldOrder[5]] == values[5].value;
    assert FieldOrder[6] == "power_supported" && after[FieldOrder[6]] == values[6].value;
    assert FieldOrder[8] == "power_enabled" && after[FieldOrder[8]] == values[8].value;
  }

  /** Once every step of a neighbour's values succeeded, each field holds the
      value of its last write: for fields written once, the one value; for a
      field written twice, the second, equal to the first. */
  lemma StoredValues(before: map<string, string>, fields: seq<string>, v: LegacyValues)
    requires |fields| == |FieldOrder|
    requires forall i, j :: 0 <= i < j < |fields| && i < 7 ==> fields[i] != fields[j]
    requires Perform(Steps(fields, NeighbourValues(v))).outcome.Ok?
    ensures var values := NeighbourValues(v);
      var after := Redis.ApplySets(before, Perform(Steps(fields, values)).writes);
      forall k :: 0 <= k < |fields| ==> values[k].Ok? && fields[k] in after && after[fields[k]] == values[k].value
  {
    var values := NeighbourValues(v);
    AllStepsWritten(fields, values);
    var w := Perform(Steps(fields, values)).writes;
    forall k | 0 <= k < |fields|
      ensures fields[k] in Redis.ApplySets(before, w) && Redis.ApplySets(before, w)[fields[k]] == values[k].value
    {
      if k == 7 && fields[7] == fields[8] {
        LastWrite(before, w, 8);
      } else {
        LastWrite(before, w, k);
      }
    }
  }

  /** A document that is not JSON raises before anything is written. */
  lemma UndecodableWritesNothing(hashes: map<string, map<string, string>>)
    ensures LegacyRun(Undecodable).outcome == Err(JsonDecodeError)
    ensures HashAfter(hashes, LegacyRun(Undecodable).writes) == hashes
  {
  }

  /** An empty description makes the routine fail after writing only the
      chassis key. */
  lemma EmptyDescriptionPartialWrite(hashes: map<string, map<string, string>>, doc: Json, v: LegacyValues)
    requires NeighbourCount(doc).Ok? && NeighbourCount(doc).value != 0
    requires ReadNeighbour(doc) == Ok(v) && v.descr == []
    ensures LegacyRun(Decoded(doc)) == Run([FieldWrite("chassis", v.chassis)], Err(IndexError))
    ensures HashAfter(hashes, LegacyRun(Decoded(doc)).writes)["LLDP"]
      == (if "LLDP" in hashes then hashes["LLDP"] else map[])["chassis" := v.chassis]
  {
    RunWithNeighbour(doc, v);
    EmptyDescriptionStops(v);
    assert FieldOrder[0] == "chassis";
    var before := if "LLDP" in hashes then hashes["LLDP"] else map[];
    var c := FieldWrite("chassis", v.chassis);
    assert Redis.ApplySets(before, [c]) == Redis.ApplySets(before[c.key := c.value], []);
  }

  lemma EmptyDescriptionStops(v: LegacyValues)
    requires v.descr == []
    ensures Perform(Steps(FieldOrder, NeighbourValues(v))) == Run([FieldWrite(FieldOrder[0], v.chassis)], Err(IndexError))
  {
    var values := NeighbourValues(v);
    assert values[0] == Ok(v.chassis) && values[1] == Err(IndexError);
    StopsAtSecond(FieldOrder, values);
  }

  /** A second step that raises leaves only the first write. */
  lemma StopsAtSecond(fields: seq<string>, values: seq<Result<string>>)
    requires |values| == |fields| >= 2
    requires values[0].Ok? && values[1].Err?
    ensures Perform(Steps(fields, values)) == Run([FieldWrite(fields[0], values[0].value)], Err(values[1].error))
  {
    var steps := Steps(fields, values);
    FirstFailureAt(steps, 1);
  }

  // ---------------------------------------------------------------------

  /** Lines 182-184: the charge in percent, clamped by two tests. */
  method LegacyChargeLevel(busVoltage: real) returns (p: real)
    ensures p == Power.ChargeLevel(busVoltage)
    ensures 0.0 <= p <= 100.0
  {
    p := (busVoltage - 3.0) / 1.2 * 100.0;
    if p > 100.0 {
      p := 100.0;
    }
    if p < 0.0 {
      p := 0.0;
    }
  }

  /** `ups_hat()` over the bus voltages of the turns that ran (the loop has
      no exit): each turn stores the rounded charge under `battery_power`.
      `roundInt(x)` is the text stored for `round(x)`. */
  method LegacyUpsHat(store: Redis.Store, busVoltages: seq<real>, roundInt: real -> string)
    modifies store
    ensures busVoltages == [] ==> store.strings == old(store.strings)
    ensures busVoltages != [] ==>
      (store.strings
       == old(store.strings)["battery_power" := roundInt(Power.ChargeLevel(busVoltages[|busVoltages| - 1]))])
    ensures store.hashes == old(store.hashes)
  {
    for i := 0 to |busVoltages|
      invariant i == 0 ==> store.strings == old(store.strings)
      invariant i > 0 ==>
        (store.strings == old(store.strings)["battery_power" := roundInt(Power.ChargeLevel(busVoltages[i - 1]))])
      invariant store.hashes == old(store.hashes)
    {
      var p := LegacyChargeLevel(busVoltages[i]);
      store.Set("battery_power", roundInt(p));
    }
  }
}
