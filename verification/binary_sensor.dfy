/** The binary-sensor platform. Its setup adds no entity; the entity class reads a
    sensor record of a system's `list_sensors` and is on when the record's `value` is
    one of the words on, 1, true, yes, ok (any case), or, for a value that is not a
    string, when the value is truthy. */
module BinarySensor {
  import opened PyJson
  import opened Coordinator
  import opened EntityIds

  /** The words a string value must lower-case to for the sensor to be on. */
  const OnWords: seq<string> := ["on", "1", "true", "yes", "ok"]

  /** `_update_from_data`'s rule for `is_on`. */
  predicate IsActive(value: Json) {
    match value
    case JStr(s) => Lower(s) in OnWords
    case _ => Truthy(value)
  }

  lemma {:induction false} LowerIdempotent(s: string)
    ensures Lower(Lower(s)) == Lower(s)
  {
    forall i | 0 <= i < |s| ensures Lower(Lower(s))[i] == Lower(s)[i] {
      assert Lower(s)[i] == LowerChar(s[i]);
    }
  }

  /** The string rule ignores case: a string and its lower-case form are on together. */
  lemma ActiveIgnoresCase(s: string)
    ensures IsActive(JStr(s)) <==> IsActive(JStr(Lower(s)))
  {
    LowerIdempotent(s);
  }

  /** Every string that is on is non-empty, so the string rule only ever turns off
      values plain truthiness would turn on ("off", "0", "2", "unexpected"), never the
      other way round. */
  lemma {:induction false} ActiveStringIsTruthy(s: string)
    ensures IsActive(JStr(s)) ==> Truthy(JStr(s))
  {
    if IsActive(JStr(s)) {
      assert |Lower(s)| == |s|;
      assert Lower(s) != "";
    }
  }

  /** Strings and numbers follow different rules: the string "2" is off while the
      number 2 is on; null is off and True is on. */
  lemma ActivityExamples()
    ensures IsActive(JInt(2)) && !IsActive(JStr("2"))
    ensures IsActive(JInt(1)) && IsActive(JStr("1"))
    ensures !IsActive(JNull) && IsActive(JBool(true)) && !IsActive(JFloat(0.0))
  {
    assert Lower("1") == "1";
    assert Lower("2") == "2";
  }

  /** "ON", "Yes", "OK" and "tRuE" are on; "unexpected", "off", "0" and "" are off. */
  lemma WordExamples()
    ensures IsActive(JStr("ON")) && IsActive(JStr("Yes")) && IsActive(JStr("OK")) && IsActive(JStr("tRuE"))
    ensures !IsActive(JStr("unexpected")) && !IsActive(JStr("off")) && !IsActive(JStr("0")) && !IsActive(JStr(""))
  {
    assert Lower("ON") == "on";
    assert Lower("Yes") == "yes";
    assert Lower("OK") == "ok";
    assert Lower("tRuE") == "true";
    assert Lower("off") == "off";
    assert Lower("0") == "0";
    assert |Lower("unexpected")| == 10;
  }

  /** Everything a binary sensor shows. */
  datatype BinaryView = BinaryView(sensorId: Json, uniqueId: seq<Piece>, name: seq<Piece>, isOn: bool)

  /** `KlereoBinarySensor(coordinator, system_id, sensor_data)`: the label defaults to
      "Unknown"; a record without `get` raises. */
  function InitBinarySensor(systemId: Json, record: Json): (r: Result<BinaryView>)
    ensures r.Raise? <==> !record.JObj?
    ensures r.Raise? ==> r.exc == AttributeError
  {
    match record
    case JObj(m) =>
      var id := Field(m, "id");
      var labelValue := if "label" in m then m["label"] else JStr("Unknown");
      Ok(BinaryView(id, UniqueId(systemId, "binary", id), [Text("Klereo "), Value(labelValue)], IsActive(Field(m, "value"))))
    case _ => Raise(AttributeError)
  }

  /** The name is "Klereo " followed by the label, "Klereo Unknown" without one; the
      unique id is "{system}_binary_{id}". */
  lemma BinarySensorNaming(systemId: Json, m: map<string, Json>, text: string)
    ensures InitBinarySensor(systemId, JObj(m["label" := JStr(text)])).value.name == [Text("Klereo "), Value(JStr(text))]
    ensures "label" !in m ==> Render(InitBinarySensor(systemId, JObj(m)).value.name) == Some("Klereo Unknown")
    ensures InitBinarySensor(systemId, JObj(m)).value.uniqueId == UniqueId(systemId, "binary", Field(m, "id"))
  {
    var f := [Text("Klereo "), Value(JStr("Unknown"))];
    assert f[1..] == [Value(JStr("Unknown"))];
    assert f[1..][1..] == [];
    assert Render(f[1..][1..]) == Some("");
    assert "Unknown" + "" == "Unknown";
    assert Render(f[1..]) == Some("Unknown");
    assert Render(f) == Some("Klereo " + "Unknown");
    assert "Klereo " + "Unknown" == "Klereo Unknown";
    if "label" !in m {
      assert InitBinarySensor(systemId, JObj(m)).value.name == f;
    }
  }

  /** `_find_my_data`: None when the system is gone or its details have no
      `list_sensors`, else the first record of that list whose `id` equals the
      sensor's. The `in` test and the subscript raise on details that are not dicts. */
  function FindRecord(data: Snapshot, systemId: Json, sensorId: Json): (r: Result<Option<map<string, Json>>>)
    ensures systemId !in data.systems ==> r == Ok(None)
    ensures systemId in data.systems ==>
      var details := data.systems[systemId].details;
      (details.JObj? && "list_sensors" !in details.fields ==> r == Ok(None)) &&
      (details.JObj? && "list_sensors" in details.fields && details.fields["list_sensors"].JArr? ==>
        r == FindFirst(details.fields["list_sensors"].elems, "id", sensorId)) &&
      (!details.JObj? && !details.JArr? && !details.JStr? ==> r == Raise(TypeError))
  {
    if systemId !in data.systems then Ok(None)
    else
      var details := data.systems[systemId].details;
      var present :- In("list_sensors", details);
      if !present then Ok(None)
      else
        var list :- Subscript(details, "list_sensors");
        var items :- LoopItems(list);
        FindFirst(items, "id", sensorId)
  }

  /** A list-shaped details that happens to contain the string "list_sensors" passes the
      `in` test and then raises on the subscript. */
  lemma ListDetailsRaise(data: Snapshot, systemId: Json, sensorId: Json, xs: seq<Json>)
    requires systemId in data.systems && data.systems[systemId].details == JArr(xs)
    ensures FindRecord(data, systemId, sensorId) == if JStr("list_sensors") in xs then Raise(TypeError) else Ok(None)
  {
  }

  /** `KlereoBinarySensor`. */
  class KlereoBinarySensor {
    const systemId: Json
    const sensorId: Json
    const uniqueId: seq<Piece>
    const name: seq<Piece>
    var isOn: bool

    function View(): BinaryView
      reads this
    {
      BinaryView(sensorId, uniqueId, name, isOn)
    }

    constructor (systemId: Json, record: Json)
      requires record.JObj?
      ensures this.systemId == systemId
      ensures InitBinarySensor(systemId, record) == Ok(View())
    {
      var m := record.fields;
      this.systemId := systemId;
      sensorId := Field(m, "id");
      uniqueId := UniqueId(systemId, "binary", Field(m, "id"));
      name := [Text("Klereo "), Value(if "label" in m then m["label"] else JStr("Unknown"))];
      isOn := false;
      new;
      UpdateFromData(m);
    }

    /** `_update_from_data`. */
    method UpdateFromData(record: map<string, Json>)
      modifies this
      ensures isOn == IsActive(Field(record, "value"))
    {
      var val := Field(record, "value");
      if val.JStr? {
        isOn := Lower(val.s) in ["on", "1", "true", "yes", "ok"];
      } else {
        isOn := Truthy(val);
      }
    }

    /** `update`: a found, non-empty record sets the state; otherwise nothing changes. */
    method Update(data: Snapshot) returns (r: Outcome)
      modifies this
      ensures var found := FindRecord(data, systemId, sensorId);
        (found.Raise? ==> r == Fail(found.exc) && isOn == old(isOn)) &&
        (found.Ok? && found.value.Some? && Truthy(JObj(found.value.value)) ==>
          r == Done && isOn == IsActive(Field(found.value.value, "value"))) &&
        (found.Ok? && (found.value.None? || !Truthy(JObj(found.value.value))) ==>
          r == Done && isOn == old(isOn))
    {
      var found := FindRecord(data, systemId, sensorId);
      if found.Raise? {
        return Fail(found.exc);
      }
      if found.value.Some? && Truthy(JObj(found.value.value)) {
        UpdateFromData(found.value.value);
      }
      r := Done;
    }
  }

  /** `async_setup_entry`: the loop over the systems looks each one's details up and adds
      nothing, so no binary sensor is ever created. */
  method SetupEntry(data: Snapshot) returns (entities: seq<KlereoBinarySensor>)
    ensures entities == []
  {
    entities := [];
  }

  /** Setup and refresh agree: a sensor built from a record of `list_sensors` finds that
      record again (unless an earlier record has an equal id). */
  lemma {:induction false} RefreshFindsOwnRecord(data: Snapshot, systemId: Json, records: seq<Json>, i: int)
    requires systemId in data.systems
    requires data.systems[systemId].details.JObj?
    requires data.systems[systemId].details.fields.Keys >= {"list_sensors"}
    requires data.systems[systemId].details.fields["list_sensors"] == JArr(records)
    requires 0 <= i < |records| && records[i].JObj?
    requires forall j :: 0 <= j < i ==> PassesOver(records, j, "id", Field(records[i].fields, "id"))
    ensures FindRecord(data, systemId, Field(records[i].fields, "id")) == Ok(Some(records[i].fields))
  {
    var want := Field(records[i].fields, "id");
    PyEqReflexive(want);
    FindFirstAt(records, "id", want, i);
  }
}
