/** Neighbour-record extraction (lldp/lldp.py): the JSON report of
    `lldpcli show neighbors details -f json` becomes a flat record of 14
    fields, or no record at all, and the record (or the all-"--" sentinel)
    is written into the `LLDP` hash of the shared store. */
module Lldp {
  import opened Py
  import opened PyJson
  import Redis

  /** The 14 fields of a neighbour record. */
  const FieldNames: set<string> := {
    "chassis_id", "chassis_description", "management_ip", "port_id",
    "port_descr", "auto_neg_current", "auto_supported", "auto_enabled",
    "available_modes_str", "vlan_id", "power_supported", "power_enabled",
    "lldp_med_device_type", "lldp_med_capability"
  }

  /** `hset_init_values()`: every field set to the "no neighbour" marker. */
  function HsetInitValues(): (r: map<string, string>)
    ensures r.Keys == FieldNames
    ensures forall k :: k in r ==> r[k] == "--"
  {
    map[
      "chassis_id" := "--",
      "chassis_description" := "--",
      "management_ip" := "--",
      "port_id" := "--",
      "port_descr" := "--",
      "auto_neg_current" := "--",
      "auto_supported" := "--",
      "auto_enabled" := "--",
      "available_modes_str" := "--",
      "vlan_id" := "--",
      "power_supported" := "--",
      "power_enabled" := "--",
      "lldp_med_device_type" := "--",
      "lldp_med_capability" := "--"
    ]
  }

  /** A neighbour as `lldp()` reports it: one value per field, in the order
      of the dict it returns. The five fields that go through `str()` are
      text; the others keep the JSON value they were read as. */
  datatype Record = Record(
    chassisId: Json, chassisDescription: Json, managementIp: string,
    portId: Json, portDescr: Json, autoNegCurrent: Json,
    autoSupported: string, autoEnabled: string, availableModes: string,
    vlanId: Json, powerSupported: string, powerEnabled: string,
    deviceType: Json, capability: string)

  /** The dict `lldp()` returns: the record keyed by field name. */
  function AsDictionary(rec: Record): (d: map<string, Json>)
    ensures d.Keys == FieldNames
  {
    map[
      "chassis_id" := rec.chassisId,
      "chassis_description" := rec.chassisDescription,
      "management_ip" := Str(rec.managementIp),
      "port_id" := rec.portId,
      "port_descr" := rec.portDescr,
      "auto_neg_current" := rec.autoNegCurrent,
      "auto_supported" := Str(rec.autoSupported),
      "auto_enabled" := Str(rec.autoEnabled),
      "available_modes_str" := Str(rec.availableModes),
      "vlan_id" := rec.vlanId,
      "power_supported" := Str(rec.powerSupported),
      "power_enabled" := Str(rec.powerEnabled),
      "lldp_med_device_type" := rec.deviceType,
      "lldp_med_capability" := Str(rec.capability)
    ]
  }

  /** What the injected command runner and `json.loads` produce: a non-zero
      exit (`CalledProcessError`), text that is not JSON (`JSONDecodeError`),
      or a parsed document. */
  datatype RunOutcome = CommandFailed | InvalidJson | Output(doc: Json)

  /** `chassis_subkey` and `chassis_data` */
  datatype ChassisChoice = ChassisChoice(subkey: Option<string>, data: Json)

  predicate HasObjectValue(fields: seq<(string, Json)>) {
    exists i :: 0 <= i < |fields| && fields[i].1.Obj?
  }

  /** When some value under `chassis` is a dict, the data is the value under
      the first key; otherwise it is the chassis object itself. */
  function SelectChassis(chassis: Json): (r: Result<ChassisChoice>)
    ensures r.Ok? <==> chassis.Obj?
    ensures r.Err? ==> r.error == AttributeError
    ensures r.Ok? && r.value.subkey.Some? ==>
      HasObjectValue(chassis.fields) && |chassis.fields| > 0 &&
      r.value == ChassisChoice(Some(chassis.fields[0].0), chassis.fields[0].1)
    ensures r.Ok? && r.value.subkey.None? ==>
      !HasObjectValue(chassis.fields) && r.value.data == chassis
  {
    var fields :- AsDict(chassis);
    if HasObjectValue(fields) then
      var key := fields[0].0;
      Ok(ChassisChoice(Some(key), GetOr(fields, key, chassis)))
    else
      Ok(ChassisChoice(None, chassis))
  }

  /** The chassis identifier, read from the chosen data (a dict): its
      `"value"` when the chosen key is `"id"`, its `["id"]["value"]` otherwise,
      where a missing `"id"` raises. */
  function ChassisId(subkey: Option<string>, data: seq<(string, Json)>): (r: Result<Json>)
    ensures subkey == Some("id") ==>
      (r.Ok? &&
       (Lookup(data, "value").None? ==> r.value == NA) &&
       (Lookup(data, "value").Some? ==> r.value == Lookup(data, "value").value))
    ensures subkey != Some("id") ==>
      (r.Ok? <==> Lookup(data, "id").Some? && Lookup(data, "id").value.Obj?)
    ensures subkey != Some("id") && r.Ok? ==>
      r.value == GetOr(Lookup(data, "id").value.fields, "value", NA)
    ensures r.Err? ==> r.error == AttributeError
  {
    if subkey == Some("id") then
      Ok(GetOr(data, "value", NA))
    else
      var id :- AsDict(GetOr(data, "id", Null));
      Ok(GetOr(id, "value", NA))
  }

  predicate AllStrings(items: seq<Json>) {
    forall i :: 0 <= i < |items| ==> items[i].Str?
  }

  function Texts(items: seq<Json>): (r: seq<string>)
    requires AllStrings(items)
    ensures |r| == |items| && forall i :: 0 <= i < |items| ==> r[i] == items[i].s
  {
    seq(|items|, i requires 0 <= i < |items| => items[i].s)
  }

  /** `", ".join(x)` accepts `x`: a string (its characters), a dict (its
      keys) or a list of strings. */
  predicate Joinable(x: Json) {
    x.Str? || x.Obj? || (x.Arr? && AllStrings(x.items))
  }

  /** The one-character strings Python yields when it iterates over `s`. */
  function Chars(s: string): (r: seq<string>)
    ensures |r| == |s| && forall i :: 0 <= i < |s| ==> r[i] == [s[i]]
  {
    seq(|s|, i requires 0 <= i < |s| => [s[i]])
  }

  /** `", ".join(chassis_data.get("mgmt-ip", ["N/A"]))` as written: the join
      iterates over whatever the value is, so a lone address string is cut
      into its characters. */
  function ManagementIpAsWritten(data: seq<(string, Json)>): (r: Result<string>)
    ensures Lookup(data, "mgmt-ip").None? ==> r == Ok("N/A")
    ensures Lookup(data, "mgmt-ip").Some? && Lookup(data, "mgmt-ip").value.Str? ==>
      r == Ok(Join(Chars(Lookup(data, "mgmt-ip").value.s), ", "))
    ensures (Lookup(data, "mgmt-ip").Some? && Lookup(data, "mgmt-ip").value.Arr? &&
             AllStrings(Lookup(data, "mgmt-ip").value.items)) ==>
      r == Ok(Join(Texts(Lookup(data, "mgmt-ip").value.items), ", "))
    ensures r.Err? <==> Lookup(data, "mgmt-ip").Some? && !Joinable(Lookup(data, "mgmt-ip").value)
    ensures r.Err? ==> r.error == TypeError
  {
    match GetOr(data, "mgmt-ip", Arr([Str("N/A")]))
    case Arr(items) => if AllStrings(items) then Ok(Join(Texts(items), ", ")) else Err(TypeError)
    case Str(s) => Ok(Join(Chars(s), ", "))
    case Obj(fields) => Ok(Join(seq(|fields|, i requires 0 <= i < |fields| => fields[i].0), ", "))
    case _ => Err(TypeError)
  }

  /** The management addresses as intended: a list of addresses is joined
      with `", "`, a lone address string is kept whole. */
  function ManagementIp(data: seq<(string, Json)>): (r: Result<string>)
    ensures Lookup(data, "mgmt-ip").None? ==> r == Ok("N/A")
    ensures Lookup(data, "mgmt-ip").Some? && Lookup(data, "mgmt-ip").value.Str? ==>
      r == Ok(Lookup(data, "mgmt-ip").value.s)
  {
    match GetOr(data, "mgmt-ip", Arr([Str("N/A")]))
    case Str(s) => Ok(s)
    case _ => ManagementIpAsWritten(data)
  }

  /** `", ".join` over a string puts the separator between every two
      characters. */
  lemma {:induction false} JoinCharsLength(s: string)
    requires |s| > 0
    ensures |Join(Chars(s), ", ")| == 3 * |s| - 2
    decreases |s|
  {
    if |s| > 1 {
      JoinCharsLength(s[1..]);
      assert Chars(s)[1..] == Chars(s[1..]);
    }
  }

  /** As written, a lone management address of two or more characters is never
      stored as itself. */
  lemma LoneAddressGarbled(addr: string)
    requires |addr| >= 2
    ensures ManagementIpAsWritten([("mgmt-ip", Str(addr))]) != Ok(addr)
  {
    JoinCharsLength(addr);
  }

  /** The corrected join stores a lone address unchanged, joins a list of
      addresses with `", "`, and otherwise agrees with the code as written. */
  lemma ManagementIpIntended(data: seq<(string, Json)>)
    ensures Lookup(data, "mgmt-ip").Some? && Lookup(data, "mgmt-ip").value.Str? ==>
      ManagementIp(data) == Ok(Lookup(data, "mgmt-ip").value.s)
    ensures (Lookup(data, "mgmt-ip").Some? && Lookup(data, "mgmt-ip").value.Arr? &&
             AllStrings(Lookup(data, "mgmt-ip").value.items)) ==>
      ManagementIp(data) == Ok(Join(Texts(Lookup(data, "mgmt-ip").value.items), ", "))
    ensures Lookup(data, "mgmt-ip").None? || !Lookup(data, "mgmt-ip").value.Str? ==>
      ManagementIp(data) == ManagementIpAsWritten(data)
  {
  }

  function HalfText(flag: Json, text: string): string {
    if Truthy(flag) then text else ""
  }

  /** The part of a mode's text after the type: `"/HD/FD"` with each half
      present only when advertised. */
  function ModeSuffix(hd: Json, fd: Json): (r: string)
    ensures r != [] && r[0] == '/' && (r[|r| - 1] == '/' || r[|r| - 1] == 'D')
  {
    "/" + HalfText(hd, "HD") + "/" + HalfText(fd, "FD")
  }

  /** The f-string `f"{type}/{hd}/{fd}"` of one advertised mode, before
      `strip()`. */
  function ModeLabel(modeType: Json, hd: Json, fd: Json): string {
    PyStr(modeType) + ModeSuffix(hd, fd)
  }

  /** One advertised mode: the type (default "Unknown") with its leading
      whitespace removed, then the suffix. This is the stripped f-string
      (`ModeTextIsStripped`). */
  function ModeText(mode: Json): (r: Result<string>)
    ensures r.Err? <==> !mode.Obj?
    ensures r.Err? ==> r.error == AttributeError
  {
    var fields :- AsDict(mode);
    var modeType := GetOr(fields, "type", Str("Unknown"));
    var hd := GetOr(fields, "hd", Bool(false));
    var fd := GetOr(fields, "fd", Bool(false));
    Ok(TrimLeft(PyStr(modeType)) + ModeSuffix(hd, fd))
  }

  /** The text of a mode is exactly `f"{type}/{hd}/{fd}".strip()`: the label
      ends in '/' or 'D', so `strip()` removes whitespace only in front of
      the type and never a slash. */
  lemma ModeTextIsStripped(mode: Json)
    requires mode.Obj?
    ensures ModeText(mode) == Ok(Strip(ModeLabel(
      GetOr(mode.fields, "type", Str("Unknown")),
      GetOr(mode.fields, "hd", Bool(false)),
      GetOr(mode.fields, "fd", Bool(false)))))
  {
    StripBeforeText(PyStr(GetOr(mode.fields, "type", Str("Unknown"))),
      ModeSuffix(GetOr(mode.fields, "hd", Bool(false)), GetOr(mode.fields, "fd", Bool(false))));
  }

  /** The texts of a list of modes, in order; an entry that is not a dict
      makes `mode.get` raise. */
  function ModeTexts(modes: seq<Json>): (r: Result<seq<string>>)
    ensures r.Err? <==> exists i :: 0 <= i < |modes| && !modes[i].Obj?
    ensures r.Err? ==> r.error == AttributeError
    ensures r.Ok? ==>
      (|r.value| == |modes| && forall i :: 0 <= i < |modes| ==> ModeText(modes[i]) == Ok(r.value[i]))
  {
    if forall i | 0 <= i < |modes| :: modes[i].Obj? then
      Ok(seq(|modes|, i requires 0 <= i < |modes| => ModeText(modes[i]).value))
    else
      Err(AttributeError)
  }

  /** `available_modes_str` as written: only a list or a string is looked at,
      so any other value, a bare mode object included, gives `""`. */
  function AvailableModesAsWritten(advertised: Json): (r: Result<string>)
    ensures advertised.Str? ==> r == Ok(advertised.s)
    ensures !advertised.Arr? && !advertised.Str? ==> r == Ok("")
    ensures advertised.Arr? && ModeTexts(advertised.items).Ok? ==>
      r == Ok(Join(ModeTexts(advertised.items).value, ","))
    ensures advertised.Arr? && ModeTexts(advertised.items).Err? ==> r == Err(AttributeError)
  {
    match advertised
    case Arr(items) =>
      var texts :- ModeTexts(items);
      Ok(Join(texts, ","))
    case Str(s) => Ok(Join([s], ","))
    case _ => Ok("")
  }

  /** The entries the mode loop visits: the list, or a single mode that the
      report gave as a bare object. */
  function ModeEntries(advertised: Json): seq<Json> {
    match advertised
    case Arr(items) => items
    case Obj(_) => [advertised]
    case _ => []
  }

  /** `available_modes_str` as intended: a single advertised mode given as a
      bare object is rendered like a one-element list. */
  function AvailableModes(advertised: Json): (r: Result<string>)
    ensures advertised.Str? ==> r == Ok(advertised.s)
    ensures !advertised.Arr? && !advertised.Obj? && !advertised.Str? ==> r == Ok("")
    ensures advertised.Obj? ==> r == AvailableModesAsWritten(Arr([advertised]))
    ensures !advertised.Obj? ==> r == AvailableModesAsWritten(advertised)
  {
    if advertised.Obj? then AvailableModesAsWritten(Arr([advertised]))
    else AvailableModesAsWritten(advertised)
  }

  /** An entry that is not a dict makes the whole list raise. */
  lemma ModeTextsFail(modes: seq<Json>, i: nat)
    requires i < |modes| && !modes[i].Obj?
    ensures ModeTexts(modes) == Err(AttributeError)
  {
  }

  /** The texts of one more entry extend the texts of the entries before. */
  lemma ModeTextsStep(modes: seq<Json>, i: nat, texts: seq<string>, text: string)
    requires i < |modes|
    requires ModeTexts(modes[..i]) == Ok(texts) && ModeText(modes[i]) == Ok(text)
    ensures ModeTexts(modes[..i + 1]) == Ok(texts + [text])
  {
    var prefix := modes[..i + 1];
    forall j | 0 <= j < |prefix|
      ensures ModeText(prefix[j]) == Ok((texts + [text])[j])
    {
      if j < i {
        assert prefix[j] == modes[..i][j];
      }
    }
    ModeTextsAgree(prefix, texts + [text]);
  }

  /** Texts that match the entries one by one are the mode list. */
  lemma ModeTextsAgree(modes: seq<Json>, texts: seq<string>)
    requires |texts| == |modes|
    requires forall j :: 0 <= j < |modes| ==> ModeText(modes[j]) == Ok(texts[j])
    ensures ModeTexts(modes) == Ok(texts)
  {
    forall j | 0 <= j < |modes|
      ensures modes[j].Obj?
    {
      assert ModeText(modes[j]).Ok?;
    }
    var r := ModeTexts(modes);
    assert r.Ok?;
    forall j | 0 <= j < |modes|
      ensures r.value[j] == texts[j]
    {
      assert ModeText(modes[j]) == Ok(r.value[j]);
    }
    assert r.value == texts;
  }

  /** For a list, or a single bare mode, the corrected rendering is the mode
      list joined with `","`, or the error of its first non-dict entry. */
  lemma AvailableModesOfEntries(advertised: Json)
    requires advertised.Arr? || advertised.Obj?
    ensures ModeTexts(ModeEntries(advertised)).Ok? ==>
      AvailableModes(advertised) == Ok(Join(ModeTexts(ModeEntries(advertised)).value, ","))
    ensures ModeTexts(ModeEntries(advertised)).Err? ==> AvailableModes(advertised) == Err(AttributeError)
  {
  }

  /** The `for mode in advertised_modes` loop: one text appended per entry;
      the first entry that is not a dict raises. */
  method CollectModeTexts(entries: seq<Json>) returns (r: Result<seq<string>>)
    ensures r == ModeTexts(entries)
  {
    var availableModes: seq<string> := [];
    var i := 0;
    ModeTextsAgree([], []);
    while i < |entries|
      invariant 0 <= i <= |entries|
      invariant ModeTexts(entries[..i]) == Ok(availableModes)
    {
      var text := ModeText(entries[i]);
      if text.Err? {
        ModeTextsFail(entries, i);
        return Err(AttributeError);
      }
      ModeTextsStep(entries, i, availableModes, text.value);
      availableModes := availableModes + [text.value];
      i := i + 1;
    }
    assert entries[..i] == entries;
    r := Ok(availableModes);
  }

  /** The construction of `available_modes_str`: the loop for a list, the
      string itself for a string, nothing otherwise; the texts are joined
      with `","`. */
  method CollectAvailableModes(advertised: Json) returns (r: Result<string>)
    ensures r == AvailableModesAsWritten(advertised)
  {
    var availableModes: seq<string> := [];
    if advertised.Arr? {
      var texts := CollectModeTexts(advertised.items);
      if texts.Err? {
        return Err(texts.error);
      }
      availableModes := texts.value;
    } else if advertised.Str? {
      availableModes := availableModes + [advertised.s];
    }
    r := Ok(Join(availableModes, ","));
  }

  /** A mode whose type does not start with whitespace renders as
      `type/HD/FD` with an absent half left empty. */
  lemma ModeTextShape(mode: Json, modeType: string)
    requires mode.Obj? && Lookup(mode.fields, "type") == Some(Str(modeType))
    requires modeType == [] || !IsSpace(modeType[0])
    ensures ModeText(mode) == Ok(modeType
      + ModeSuffix(GetOr(mode.fields, "hd", Bool(false)), GetOr(mode.fields, "fd", Bool(false))))
  {
    assert TrimLeft(modeType) == modeType;
  }

  /** A one-element mode list renders as that mode's text. */
  lemma SingleModeList(mode: Json, text: string)
    requires ModeText(mode) == Ok(text)
    ensures AvailableModesAsWritten(Arr([mode])) == Ok(text)
  {
    ModeTextsAgree([mode], [text]);
  }

  /** The gigabit full-duplex mode of the example: the empty half-duplex part
      leaves two slashes. */
  lemma GigabitFullDuplexText(fields: seq<(string, Json)>)
    requires Lookup(fields, "type") == Some(Str("1000BASE-T"))
    requires !Truthy(GetOr(fields, "hd", Bool(false))) && Truthy(GetOr(fields, "fd", Bool(false)))
    ensures ModeText(Obj(fields)) == Ok("1000BASE-T//FD")
  {
    ModeTextShape(Obj(fields), "1000BASE-T");
    assert HalfText(GetOr(fields, "hd", Bool(false)), "HD") == "";
    assert HalfText(GetOr(fields, "fd", Bool(false)), "FD") == "FD";
    assert ModeSuffix(GetOr(fields, "hd", Bool(false)), GetOr(fields, "fd", Bool(false))) == "/" + "" + "/" + "FD";
    GigabitLiteral();
  }

  lemma GigabitLiteral()
    ensures "1000BASE-T" + ("/" + "" + "/" + "FD") == "1000BASE-T//FD"
  {
  }

  /** `{"type": "1000BASE-T", "hd": false, "fd": true}` in a list is rendered
      `"1000BASE-T//FD"`. */
  lemma GigabitFullDuplexMode()
    ensures AvailableModesAsWritten(Arr([Obj([("type", Str("1000BASE-T")), ("hd", Bool(false)), ("fd", Bool(true))])]))
      == Ok("1000BASE-T//FD")
  {
    var fields := [("type", Str("1000BASE-T")), ("hd", Bool(false)), ("fd", Bool(true))];
    assert Lookup(fields, "hd") == Some(Bool(false));
    assert Lookup(fields, "fd") == Some(Bool(true));
    GigabitFullDuplexText(fields);
    SingleModeList(Obj(fields), "1000BASE-T//FD");
  }

  /** As written, a single mode given as a bare object is dropped; the
      corrected rendering keeps it. */
  lemma SingleModeDropped()
    ensures AvailableModesAsWritten(Obj([("type", Str("1000BASE-T")), ("fd", Bool(true))])) == Ok("")
    ensures AvailableModes(Obj([("type", Str("1000BASE-T")), ("fd", Bool(true))])) == Ok("1000BASE-T//FD")
  {
    var fields := [("type", Str("1000BASE-T")), ("fd", Bool(true))];
    assert Lookup(fields, "hd") == None;
    assert Lookup(fields, "fd") == Some(Bool(true));
    GigabitFullDuplexText(fields);
    SingleModeList(Obj(fields), "1000BASE-T//FD");
  }

  /** `lldp.get("lldp", {}).get("interface", {}).get("eth0", {})`: the entry
      at that path, `{}` when a key is missing, and an `AttributeError` when a
      value on the way is not a dict. */
  function Eth0(doc: Json): (r: Result<Json>)
    ensures r.Ok? <==> DictsAlong(doc, ["lldp", "interface"])
    ensures r.Ok? ==> r.value == GetPath(doc, ["lldp", "interface", "eth0"], EmptyObj)
    ensures r.Err? ==> r.error == AttributeError
  {
    DictsAlong2(doc, "lldp", "interface");
    var top :- AsDict(doc);
    var section :- AsDict(GetOr(top, "lldp", EmptyObj));
    var interfaces :- AsDict(GetOr(section, "interface", EmptyObj));
    Ok(GetOr(interfaces, "eth0", EmptyObj))
  }

  /** The values read from the port entry (`port_data`) at lines 54-69. */
  datatype PortValues = PortValues(
    id: Json, descr: Json, autoNegCurrent: Json, autoSupported: Json,
    autoEnabled: Json, availableModes: string)

  /** Port identifier, description, auto-negotiation state and advertised
      modes; an absent port entry gives "N/A" everywhere and no modes. */
  function PortPart(eth0: seq<(string, Json)>): (r: Result<PortValues>)
    ensures Lookup(eth0, "port").None? ==> r == Ok(PortValues(NA, NA, NA, NA, NA, ""))
    ensures Lookup(eth0, "port").Some? && !Lookup(eth0, "port").value.Obj? ==> r == Err(AttributeError)
    ensures r.Ok? <==>
      && DictsAlong(Obj(eth0), ["port", "id"]) && DictsAlong(Obj(eth0), ["port", "auto-negotiation"])
      && AvailableModesAsWritten(GetPath(Obj(eth0), ["port", "auto-negotiation", "advertised"], Arr([]))).Ok?
    ensures r.Ok? ==>
      && r.value.id == GetPath(Obj(eth0), ["port", "id", "value"], NA)
      && r.value.descr == GetPath(Obj(eth0), ["port", "descr"], NA)
      && r.value.autoNegCurrent == GetPath(Obj(eth0), ["port", "auto-negotiation", "current"], NA)
      && r.value.autoSupported == GetPath(Obj(eth0), ["port", "auto-negotiation", "supported"], NA)
      && r.value.autoEnabled == GetPath(Obj(eth0), ["port", "auto-negotiation", "enabled"], NA)
      && Ok(r.value.availableModes)
         == AvailableModesAsWritten(GetPath(Obj(eth0), ["port", "auto-negotiation", "advertised"], Arr([])))
  {
    DictsAlong2(Obj(eth0), "port", "id");
    DictsAlong2(Obj(eth0), "port", "auto-negotiation");
    var port :- AsDict(GetOr(eth0, "port", EmptyObj));
    var portId :- AsDict(GetOr(port, "id", EmptyObj));
    var autoNeg :- AsDict(GetOr(port, "auto-negotiation", EmptyObj));
    GetPath3(eth0, "port", "auto-negotiation", "advertised", Arr([]));
    var modes :- AvailableModesAsWritten(GetOr(autoNeg, "advertised", Arr([])));
    GetPath3(eth0, "port", "id", "value", NA);
    GetPath2(eth0, "port", "descr", NA);
    GetPath3(eth0, "port", "auto-negotiation", "current", NA);
    GetPath3(eth0, "port", "auto-negotiation", "supported", NA);
    GetPath3(eth0, "port", "auto-negotiation", "enabled", NA);
    Ok(PortValues(
      GetOr(portId, "value", NA), GetOr(port, "descr", NA), GetOr(autoNeg, "current", NA),
      GetOr(autoNeg, "supported", NA), GetOr(autoNeg, "enabled", NA), modes))
  }

  /** `vlan_id` (line 70). */
  function VlanId(eth0: seq<(string, Json)>): (r: Result<Json>)
    ensures Lookup(eth0, "vlan").None? ==> r == Ok(NA)
    ensures r.Err? <==> Lookup(eth0, "vlan").Some? && !Lookup(eth0, "vlan").value.Obj?
    ensures r.Ok? ==> r.value == GetPath(Obj(eth0), ["vlan", "vlan-id"], NA)
  {
    var vlan :- AsDict(GetOr(eth0, "vlan", EmptyObj));
    GetPath2(eth0, "vlan", "vlan-id", NA);
    Ok(GetOr(vlan, "vlan-id", NA))
  }

  /** `power_supported` and `power_enabled` (lines 71-72), read from the port
      entry again. */
  function PowerPart(eth0: seq<(string, Json)>): (r: Result<(Json, Json)>)
    ensures Lookup(eth0, "port").None? ==> r == Ok((NA, NA))
    ensures r.Ok? <==> DictsAlong(Obj(eth0), ["port", "power"])
    ensures r.Err? ==> r.error == AttributeError
    ensures r.Ok? ==>
      && r.value.0 == GetPath(Obj(eth0), ["port", "power", "supported"], NA)
      && r.value.1 == GetPath(Obj(eth0), ["port", "power", "enabled"], NA)
  {
    DictsAlong2(Obj(eth0), "port", "power");
    var port :- AsDict(GetOr(eth0, "port", EmptyObj));
    var power :- AsDict(GetOr(port, "power", EmptyObj));
    GetPath3(eth0, "port", "power", "supported", NA);
    GetPath3(eth0, "port", "power", "enabled", NA);
    Ok((GetOr(power, "supported", NA), GetOr(power, "enabled", NA)))
  }

  /** `device_type` and `capability` (lines 73-75). */
  function MedPart(eth0: seq<(string, Json)>): (r: Result<(Json, Json)>)
    ensures Lookup(eth0, "lldp-med").None? ==> r == Ok((NA, NA))
    ensures Lookup(eth0, "lldp-med").Some? && !Lookup(eth0, "lldp-med").value.Obj? ==> r == Err(AttributeError)
    ensures r.Ok? <==> DictsAlong(Obj(eth0), ["lldp-med", "capability"])
    ensures r.Err? ==> r.error == AttributeError
    ensures r.Ok? ==>
      && r.value.0 == GetPath(Obj(eth0), ["lldp-med", "device-type"], NA)
      && r.value.1 == GetPath(Obj(eth0), ["lldp-med", "capability", "available"], NA)
  {
    DictsAlong2(Obj(eth0), "lldp-med", "capability");
    var med :- AsDict(GetOr(eth0, "lldp-med", EmptyObj));
    var capability :- AsDict(GetOr(med, "capability", EmptyObj));
    GetPath2(eth0, "lldp-med", "device-type", NA);
    GetPath3(eth0, "lldp-med", "capability", "available", NA);
    Ok((GetOr(med, "device-type", NA), GetOr(capability, "available", NA)))
  }

  /** Lines 41-51 do not raise: the chassis entry yields a dict of chassis
      data, with an id and a management-address value that can be read. */
  predicate ChassisReadable(eth0: seq<(string, Json)>) {
    var choice := SelectChassis(GetOr(eth0, "chassis", EmptyObj));
    && choice.Ok? && choice.value.data.Obj?
    && ChassisId(choice.value.subkey, choice.value.data.fields).Ok?
    && ManagementIpAsWritten(choice.value.data.fields).Ok?
  }

  /** The field extraction of `lldp()` once the report is known to list a
      neighbour, ending in the dict literal with its five `str()` calls;
      errors other than the two the source catches escape. Each field is the
      value at its path under the `eth0` entry, `"N/A"` when a key on the way
      is missing; the chassis fields come from the chosen chassis data. */
  function Extract(doc: Json): (r: Result<Record>)
    ensures r.Ok? <==>
      && Eth0(doc).Ok? && Eth0(doc).value.Obj?
      && ChassisReadable(Eth0(doc).value.fields)
      && PortPart(Eth0(doc).value.fields).Ok? && VlanId(Eth0(doc).value.fields).Ok?
      && PowerPart(Eth0(doc).value.fields).Ok? && MedPart(Eth0(doc).value.fields).Ok?
    ensures r.Ok? ==>
      var eth0 := GetPath(doc, ["lldp", "interface", "eth0"], EmptyObj);
      var choice := SelectChassis(GetPath(eth0, ["chassis"], EmptyObj));
      && eth0.Obj? && choice.Ok? && choice.value.data.Obj?
      && ChassisId(choice.value.subkey, choice.value.data.fields) == Ok(r.value.chassisId)
      && r.value.chassisDescription == GetPath(choice.value.data, ["descr"], NA)
      && ManagementIpAsWritten(choice.value.data.fields) == Ok(r.value.managementIp)
    ensures r.Ok? ==>
      var eth0 := GetPath(doc, ["lldp", "interface", "eth0"], EmptyObj);
      && r.value.portId == GetPath(eth0, ["port", "id", "value"], NA)
      && r.value.portDescr == GetPath(eth0, ["port", "descr"], NA)
      && r.value.autoNegCurrent == GetPath(eth0, ["port", "auto-negotiation", "current"], NA)
      && r.value.autoSupported == PyStr(GetPath(eth0, ["port", "auto-negotiation", "supported"], NA))
      && r.value.autoEnabled == PyStr(GetPath(eth0, ["port", "auto-negotiation", "enabled"], NA))
      && AvailableModesAsWritten(GetPath(eth0, ["port", "auto-negotiation", "advertised"], Arr([])))
         == Ok(r.value.availableModes)
    ensures r.Ok? ==>
      var eth0 := GetPath(doc, ["lldp", "interface", "eth0"], EmptyObj);
      && r.value.vlanId == GetPath(eth0, ["vlan", "vlan-id"], NA)
      && r.value.powerSupported == PyStr(GetPath(eth0, ["port", "power", "supported"], NA))
      && r.value.powerEnabled == PyStr(GetPath(eth0, ["port", "power", "enabled"], NA))
      && r.value.deviceType == GetPath(eth0, ["lldp-med", "device-type"], NA)
      && r.value.capability == PyStr(GetPath(eth0, ["lldp-med", "capability", "available"], NA))
  {
    var eth0Json :- Eth0(doc);
    var eth0 :- AsDict(eth0Json);
    GetPath1(eth0, "chassis", EmptyObj);
    var choice :- SelectChassis(GetOr(eth0, "chassis", EmptyObj));
    var data :- AsDict(choice.data);
    GetPath1(data, "descr", NA);
    var chassisId :- ChassisId(choice.subkey, data);
    var managementIp :- ManagementIpAsWritten(data);
    var port :- PortPart(eth0);
    var vlanId :- VlanId(eth0);
    var power :- PowerPart(eth0);
    var med :- MedPart(eth0);
    Ok(Record(
      chassisId, GetOr(data, "descr", NA), managementIp,
      port.id, port.descr, port.autoNegCurrent,
      PyStr(port.autoSupported), PyStr(port.autoEnabled), port.availableModes,
      vlanId, PyStr(power.0), PyStr(power.1),
      med.0, PyStr(med.1)))
  }

  /** A chassis entry `{"id": {"value": id}}` selects the inner dict, whose
      value is the id; it has no description and no management address. */
  lemma IdOnlyChassis(eth0: seq<(string, Json)>, id: string)
    requires eth0 == [("chassis", Obj([("id", Obj([("value", Str(id))]))]))]
    ensures ChassisReadable(eth0)
    ensures var data := SelectChassis(GetOr(eth0, "chassis", EmptyObj)).value.data;
      && data == Obj([("value", Str(id))])
      && ChassisId(Some("id"), data.fields) == Ok(Str(id))
      && ManagementIpAsWritten(data.fields) == Ok("N/A")
      && GetOr(data.fields, "descr", NA) == NA
  {
    var data := [("value", Str(id))];
    var chassis := Obj([("id", Obj(data))]);
    assert GetOr(eth0, "chassis", EmptyObj) == chassis;
    assert HasObjectValue(chassis.fields) by {
      assert chassis.fields[0].1.Obj?;
    }
    assert SelectChassis(chassis) == Ok(ChassisChoice(Some("id"), Obj(data)));
    assert Lookup(data, "descr").None? && Lookup(data, "mgmt-ip").None?;
  }

  /** The `eth0` entry of `IdOnlyChassis` gives the record with that id and
      "N/A" or "" everywhere else. */
  lemma IdOnlyExtract(doc: Json, id: string)
    requires var eth0 := Obj([("chassis", Obj([("id", Obj([("value", Str(id))]))]))]);
      doc == Obj([("lldp", Obj([("interface", Obj([("eth0", eth0)]))]))])
    ensures Extract(doc)
      == Ok(Record(Str(id), NA, "N/A", NA, NA, NA, "N/A", "N/A", "", NA, "N/A", "N/A", NA, "N/A"))
  {
    var eth0 := [("chassis", Obj([("id", Obj([("value", Str(id))]))]))];
    assert Eth0(doc) == Ok(Obj(eth0));
    IdOnlyChassis(eth0, id);
    assert Lookup(eth0, "port").None? && Lookup(eth0, "vlan").None? && Lookup(eth0, "lldp-med").None?;
  }

  /** A report that lists one interface whose `eth0` entry holds only a
      chassis id yields a record, so `lldp()` does produce one. */
  lemma ChassisOnlyReport(id: string)
    ensures var eth0 := Obj([("chassis", Obj([("id", Obj([("value", Str(id))]))]))]);
      var doc := Obj([("lldp", Obj([("interface", Obj([("eth0", eth0)]))]))]);
      Lldp(Output(doc))
        == Ok(Some(Record(Str(id), NA, "N/A", NA, NA, NA, "N/A", "N/A", "", NA, "N/A", "N/A", NA, "N/A")))
  {
    var eth0 := Obj([("chassis", Obj([("id", Obj([("value", Str(id))]))]))]);
    var section := Obj([("interface", Obj([("eth0", eth0)]))]);
    var doc := Obj([("lldp", section)]);
    assert Index(doc, "lldp") == Ok(section);
    assert Len(section) == Ok(1);
    IdOnlyExtract(doc, id);
  }

  /** The report has no neighbour: its `"lldp"` entry has length zero. */
  predicate NoNeighbours(doc: Json) {
    Index(doc, "lldp").Ok? && Len(Index(doc, "lldp").value) == Ok(0)
  }

  /** `lldp(command_runner)`: `None` exactly when the command fails, its
      output is not JSON, or no neighbour is listed; otherwise the extracted
      record, or an escaping exception: a missing `"lldp"` key, a value
      without a length, or an error of the extraction. */
  function Lldp(run: RunOutcome): (r: Result<Option<Record>>)
    ensures r == Ok(None) <==> run.CommandFailed? || run.InvalidJson? || NoNeighbours(run.doc)
    ensures r.Ok? && r.value.Some? ==> run.Output? && Extract(run.doc) == Ok(r.value.value)
    ensures r.Ok? && r.value.Some? ==> AsDictionary(r.value.value).Keys == HsetInitValues().Keys
    ensures run.Output? && Index(run.doc, "lldp").Err? ==> r == Err(Index(run.doc, "lldp").error)
    ensures run.Output? && Index(run.doc, "lldp").Ok? && Len(Index(run.doc, "lldp").value).Err? ==>
      r == Err(TypeError)
    ensures run.Output? && Index(run.doc, "lldp").Ok? && Len(Index(run.doc, "lldp").value).Ok? ==>
      (Len(Index(run.doc, "lldp").value).value != 0 ==>
         r == (match Extract(run.doc) case Ok(rec) => Ok(Some(rec)) case Err(e) => Err(e)))
  {
    match run
    case CommandFailed => Ok(None)
    case InvalidJson => Ok(None)
    case Output(doc) =>
      var section :- Index(doc, "lldp");
      var count :- Len(section);
      if count == 0 then Ok(None)
      else
        var record :- Extract(doc);
        Ok(Some(record))
  }

  /** A neighbour whose `eth0` entry lacks the `port`, `vlan` or `lldp-med`
      section gets `"N/A"` in every field read from that section, and no
      advertised modes. */
  lemma MissingSectionsReadNA(run: RunOutcome)
    requires Lldp(run).Ok? && Lldp(run).value.Some?
    ensures var rec := Lldp(run).value.value;
      var eth0 := GetPath(run.doc, ["lldp", "interface", "eth0"], EmptyObj);
      && eth0.Obj?
      && (Lookup(eth0.fields, "port").None? ==>
            && rec.portId == NA && rec.portDescr == NA && rec.autoNegCurrent == NA
            && rec.autoSupported == "N/A" && rec.autoEnabled == "N/A" && rec.availableModes == ""
            && rec.powerSupported == "N/A" && rec.powerEnabled == "N/A")
      && (Lookup(eth0.fields, "vlan").None? ==> rec.vlanId == NA)
      && (Lookup(eth0.fields, "lldp-med").None? ==> rec.deviceType == NA && rec.capability == "N/A")
  {
    var rec := Lldp(run).value.value;
    var eth0 := GetPath(run.doc, ["lldp", "interface", "eth0"], EmptyObj).fields;
    if Lookup(eth0, "port").None? {
      GetPathMissing(eth0, ["port", "id", "value"], NA);
      GetPathMissing(eth0, ["port", "descr"], NA);
      GetPathMissing(eth0, ["port", "auto-negotiation", "current"], NA);
      GetPathMissing(eth0, ["port", "auto-negotiation", "supported"], NA);
      GetPathMissing(eth0, ["port", "auto-negotiation", "enabled"], NA);
      GetPathMissing(eth0, ["port", "auto-negotiation", "advertised"], Arr([]));
      GetPathMissing(eth0, ["port", "power", "supported"], NA);
      GetPathMissing(eth0, ["port", "power", "enabled"], NA);
    }
    if Lookup(eth0, "vlan").None? {
      GetPathMissing(eth0, ["vlan", "vlan-id"], NA);
    }
    if Lookup(eth0, "lldp-med").None? {
      GetPathMissing(eth0, ["lldp-med", "device-type"], NA);
      GetPathMissing(eth0, ["lldp-med", "capability", "available"], NA);
    }
  }

  /** Text for every value of a record, as redis-py encodes them; one value it
      cannot store makes the whole write fail. */
  function EncodeRecord(record: map<string, Json>): (r: Result<map<string, string>>)
    ensures r.Ok? <==> forall k :: k in record ==> RedisEncode(record[k]).Ok?
    ensures r.Ok? ==> r.value.Keys == record.Keys
    ensures r.Ok? ==> forall k :: k in record ==> r.value[k] == RedisEncode(record[k]).value
    ensures r.Err? ==> r.error == DataError
  {
    if forall k | k in record :: RedisEncode(record[k]).Ok? then
      Ok(map k | k in record :: RedisEncode(record[k]).value)
    else
      Err(DataError)
  }

  /** The values redis-py can store are the strings and the integers, so a
      record is written unless one of its seven unconverted fields holds a
      boolean, `None`, a list or a dict; the seven fields converted with
      `str()` never stop the write. */
  lemma RecordStorable(rec: Record)
    ensures EncodeRecord(AsDictionary(rec)).Ok? <==>
      && RedisEncode(rec.chassisId).Ok? && RedisEncode(rec.chassisDescription).Ok?
      && RedisEncode(rec.portId).Ok? && RedisEncode(rec.portDescr).Ok?
      && RedisEncode(rec.autoNegCurrent).Ok? && RedisEncode(rec.vlanId).Ok?
      && RedisEncode(rec.deviceType).Ok?
  {
    var d := AsDictionary(rec);
    assert d["chassis_id"] == rec.chassisId && d["chassis_description"] == rec.chassisDescription;
    assert d["port_id"] == rec.portId && d["port_descr"] == rec.portDescr;
    assert d["auto_neg_current"] == rec.autoNegCurrent && d["vlan_id"] == rec.vlanId;
    assert d["lldp_med_device_type"] == rec.deviceType;
  }

  /** Writing the sentinel over a hash that holds only record fields leaves
      exactly the sentinel. */
  lemma SentinelReplacesRecord(before: map<string, string>)
    requires before.Keys <= FieldNames
    ensures before + HsetInitValues() == HsetInitValues()
  {
  }

  /** The `LLDP` hash after saving `data` over `before`: the sentinel for a
      missing record, else the record's encoded fields, unless one of them
      cannot be encoded. */
  function SavedHash(before: map<string, string>, data: Option<Record>): (r: Result<map<string, string>>)
    ensures data.None? ==> r == Ok(before + HsetInitValues())
    ensures data.Some? ==> (r.Ok? <==> EncodeRecord(AsDictionary(data.value)).Ok?)
    ensures r.Ok? ==> r.value.Keys == before.Keys + FieldNames
    ensures r.Ok? ==> forall k :: k in before && k !in FieldNames ==> r.value[k] == before[k]
    ensures r.Ok? && data.None? ==> forall k :: k in FieldNames ==> r.value[k] == "--"
    ensures r.Ok? && data.Some? ==>
      forall k :: k in FieldNames ==> r.value[k] == RedisEncode(AsDictionary(data.value)[k]).value
    ensures r.Err? ==> r.error == DataError
  {
    match data
    case None => Ok(before + HsetInitValues())
    case Some(rec) =>
      var encoded :- EncodeRecord(AsDictionary(rec));
      Ok(before + encoded)
  }

  /** `save_lldp_to_redis(lldp_data, redis_db)`: a missing record writes the
      sentinel; a record is written field by field into hash `LLDP`. */
  method SaveLldpToRedis(data: Option<Record>, store: Redis.Store) returns (r: Result<()>)
    modifies store
    ensures store.strings == old(store.strings)
    ensures r.Ok? <==> SavedHash(old(store.HGetAll("LLDP")), data).Ok?
    ensures r.Ok? ==> store.hashes == old(store.hashes)["LLDP" := SavedHash(old(store.HGetAll("LLDP")), data).value]
    ensures r.Err? ==> r.error == DataError && store.hashes == old(store.hashes)
  {
    if data.None? {
      store.HSet("LLDP", HsetInitValues());
      r := Ok(());
    } else {
      var encoded := EncodeRecord(AsDictionary(data.value));
      if encoded.Err? {
        return Err(encoded.error);
      }
      store.HSet("LLDP", encoded.value);
      r := Ok(());
    }
  }
}
