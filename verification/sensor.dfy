/** The sensor platform: one probe sensor per entry of a system's `probes` list and one
    parameter sensor per entry of its `RegulModes` dict, each refreshed from the
    coordinator's snapshot by looking its own record up again. */
module Sensor {
  import opened PyJson
  import opened Const
  import opened Coordinator
  import opened EntityIds

  // ---------------------------------------------------------------- naming and readings

  /** `SENSOR_TYPES.get(type, {})`: the entry whose int key is equal to the type. */
  function SensorDefOf(sensorType: Json): (r: Result<Option<SensorDef>>)
    ensures r.Raise? <==> !Hashable(sensorType)
    ensures r.Raise? ==> r.exc == TypeError
  {
    match IntKey(sensorType)
    case Raise(e) => Raise(e)
    case Ok(key) => Ok(if key.Some? && key.value in SensorTypes then Some(SensorTypes[key.value]) else None)
  }

  /** The entry found is the one whose key is equal to the type as Python compares
      numbers; no entry is found only when no key is equal to it. */
  lemma SensorDefMatchesTable(sensorType: Json)
    ensures var r := SensorDefOf(sensorType);
      (r.Ok? && r.value.Some? ==>
        exists k :: k in SensorTypes && PyEq(sensorType, JInt(k)) && r.value.value == SensorTypes[k]) &&
      (r.Ok? && r.value.None? ==> forall k :: k in SensorTypes ==> !PyEq(sensorType, JInt(k)))
  {
  }

  /** `sensor_def.get("name", f"Sensor {index}")`. */
  function SensorName(def: Option<SensorDef>, index: Json): seq<Piece> {
    if def.Some? then [Text(def.value.name)] else [Text("Sensor "), Value(index)]
  }

  /** `data.get("filteredValue", data.get("directValue"))`. */
  function Reading(probe: map<string, Json>): Json {
    if "filteredValue" in probe then probe["filteredValue"] else Field(probe, "directValue")
  }

  function ProbeAttributes(probe: map<string, Json>): map<string, Json> {
    map["type" := Field(probe, "type"), "status" := Field(probe, "status")]
  }

  /** The filtered value wins whenever its key is present, even when it is null; the
      direct value is used only without it, and a probe with neither reads None. The
      attributes are the probe's type and status. */
  lemma ReadingPrecedence(probe: map<string, Json>, f: Json, d: Json)
    ensures Reading(probe["filteredValue" := f]) == f
    ensures Reading(probe["filteredValue" := JNull]["directValue" := d]) == JNull
    ensures "filteredValue" !in probe && "directValue" in probe ==> Reading(probe) == probe["directValue"]
    ensures "filteredValue" !in probe && "directValue" !in probe ==> Reading(probe) == JNull
    ensures ProbeAttributes(probe).Keys == {"type", "status"}
  {
    assert "filteredValue" in probe["filteredValue" := JNull]["directValue" := d];
  }

  /** Everything a probe sensor shows. */
  datatype SensorView = SensorView(
    index: Json, sensorType: Json, uniqueId: seq<Piece>, name: seq<Piece>,
    unit: Option<string>, deviceClass: Option<string>,
    nativeValue: Json, attributes: map<string, Json>)

  /** The exception the constructor raises for a probe, if any: AttributeError for a
      probe without `get`, TypeError for a type the table lookup cannot hash. */
  function InitError(probe: Json): Option<Exc> {
    if !probe.JObj? then Some(AttributeError)
    else if !Hashable(Field(probe.fields, "type")) then Some(TypeError)
    else None
  }

  /** `KlereoSensor(coordinator, system_id, probe)`: the sensor built from a probe, or the
      exception the constructor raises (a probe without `get`, an unhashable type). */
  function InitSensor(systemId: Json, probe: Json): (r: Result<SensorView>)
    ensures r.Raise? <==> InitError(probe).Some?
    ensures r.Raise? ==> InitError(probe) == Some(r.exc)
  {
    match probe
    case JObj(m) =>
      var def :- SensorDefOf(Field(m, "type"));
      var index := Field(m, "index");
      Ok(SensorView(
        index, Field(m, "type"), UniqueId(systemId, "sensor", index), SensorName(def, index),
        if def.Some? then def.value.unit else None,
        if def.Some? then def.value.deviceClass else None,
        Reading(m), ProbeAttributes(m)))
    case _ => Raise(AttributeError)
  }

  /** A probe of a known type takes its name, unit and device class from the table entry
      whose key equals the type (so 5, 5.0 are the same type, and True is type 1). */
  lemma KnownTypeNaming(systemId: Json, probe: map<string, Json>, k: int)
    requires k in SensorTypes && PyEq(Field(probe, "type"), JInt(k))
    ensures InitSensor(systemId, JObj(probe)).Ok?
    ensures var v := InitSensor(systemId, JObj(probe)).value;
      v.name == [Text(SensorTypes[k].name)] && v.unit == SensorTypes[k].unit &&
      v.deviceClass == SensorTypes[k].deviceClass &&
      v.uniqueId == UniqueId(systemId, "sensor", Field(probe, "index")) &&
      v.nativeValue == Reading(probe)
  {
    var r := SensorDefOf(Field(probe, "type"));
    SensorDefMatchesTable(Field(probe, "type"));
    assert r.Ok? && r.value.Some?;
    var k' :| k' in SensorTypes && PyEq(Field(probe, "type"), JInt(k')) && r.value.value == SensorTypes[k'];
    assert k' == k;
  }

  /** A probe whose type matches no table key is named "Sensor {index}" and has neither
      unit nor device class; types 7, 8, 9 and strs are such types. */
  lemma UnknownTypeNaming(systemId: Json, probe: map<string, Json>)
    requires Hashable(Field(probe, "type"))
    requires forall k :: k in SensorTypes ==> !PyEq(Field(probe, "type"), JInt(k))
    ensures InitSensor(systemId, JObj(probe)).Ok?
    ensures var v := InitSensor(systemId, JObj(probe)).value;
      v.name == [Text("Sensor "), Value(Field(probe, "index"))] && v.unit == None && v.deviceClass == None
  {
    SensorDefMatchesTable(Field(probe, "type"));
  }

  lemma TypeCodesCompareAsPythonNumbers()
    ensures SensorDefOf(JFloat(5.0)) == Ok(Some(SensorTypes[5]))
    ensures SensorDefOf(JBool(true)) == Ok(Some(SensorTypes[1]))
  {
    assert (5.0).Floor == 5;
  }

  /** Type 7 and the str "5" match no table key; a list type raises. */
  lemma TypeCodeFallbacks()
    ensures SensorDefOf(JInt(7)) == Ok(None)
    ensures SensorDefOf(JStr("5")) == Ok(None)
    ensures SensorDefOf(JArr([])) == Raise(TypeError)
  {
  }

  // ---------------------------------------------------------------- lookup

  /** `_find_my_data`: None when the system is gone, else the first probe of the
      system's `probes` whose `index` equals the sensor's. */
  function FindProbe(data: Snapshot, systemId: Json, index: Json): (r: Result<Option<map<string, Json>>>)
    ensures systemId !in data.systems ==> r == Ok(None)
    ensures systemId in data.systems && !data.systems[systemId].details.JObj? ==> r == Raise(AttributeError)
  {
    if systemId !in data.systems then Ok(None)
    else
      var probes :- Get(data.systems[systemId].details, "probes", JArr([]));
      var items :- LoopItems(probes);
      FindFirst(items, "index", index)
  }

  /** The lookup is a first-match search: what it returns is a probe carrying the index,
      and every probe before it is a dict with another index. */
  lemma FindProbeIsFirstMatch(data: Snapshot, systemId: Json, index: Json, ps: seq<Json>)
    requires systemId in data.systems
    requires Get(data.systems[systemId].details, "probes", JArr([])) == Ok(JArr(ps))
    ensures var r := FindProbe(data, systemId, index);
      (r == Ok(None) <==> forall j :: 0 <= j < |ps| ==> PassesOver(ps, j, "index", index)) &&
      (r.Ok? && r.value.Some? ==>
        exists i :: 0 <= i < |ps| && ps[i] == JObj(r.value.value) &&
          PyEq(Field(r.value.value, "index"), index) &&
          forall j :: 0 <= j < i ==> PassesOver(ps, j, "index", index))
  {
  }

  /** `_handle_coordinator_update` of a parameter sensor, before the value is written:
      None leaves the value as it is. */
  function ParamLookup(data: Snapshot, systemId: Json, key: string): (r: Result<Option<Json>>)
    ensures systemId !in data.systems ==> r == Ok(None)
    ensures systemId in data.systems ==>
      var details := data.systems[systemId].details;
      (!details.JObj? ==> r == Raise(AttributeError)) &&
      (details.JObj? && "RegulModes" !in details.fields ==> r == Ok(None)) &&
      (details.JObj? && "RegulModes" in details.fields && details.fields["RegulModes"].JObj? ==>
        var regul := details.fields["RegulModes"].fields;
        r == if key in regul then Ok(Some(regul[key])) else Ok(None))
    ensures r.Raise? ==> r.exc == AttributeError || r.exc == TypeError
  {
    if systemId !in data.systems then Ok(None)
    else
      var regul :- Get(data.systems[systemId].details, "RegulModes", JObj(map[]));
      var present :- In(key, regul);
      if present then
        var v :- Subscript(regul, key);
        Ok(Some(v))
      else Ok(None)
  }

  // ---------------------------------------------------------------- entities

  /** `KlereoSensor`. */
  class KlereoSensor {
    const systemId: Json
    const index: Json
    const sensorType: Json
    const uniqueId: seq<Piece>
    const name: seq<Piece>
    const unit: Option<string>
    const deviceClass: Option<string>
    var nativeValue: Json
    var attributes: map<string, Json>

    function View(): SensorView
      reads this
    {
      SensorView(index, sensorType, uniqueId, name, unit, deviceClass, nativeValue, attributes)
    }

    /** Setup checks the probe is a dict with a hashable type before building a sensor,
        raising as the constructor would. */
    constructor (systemId: Json, probe: Json)
      requires probe.JObj? && Hashable(Field(probe.fields, "type"))
      ensures this.systemId == systemId
      ensures InitSensor(systemId, probe) == Ok(View())
    {
      var m := probe.fields;
      var def := SensorDefOf(Field(m, "type")).value;
      this.systemId := systemId;
      index := Field(m, "index");
      sensorType := Field(m, "type");
      uniqueId := UniqueId(systemId, "sensor", Field(m, "index"));
      name := SensorName(def, Field(m, "index"));
      unit := if def.Some? then def.value.unit else None;
      deviceClass := if def.Some? then def.value.deviceClass else None;
      nativeValue := JNull;
      attributes := map[];
      new;
      UpdateFromData(m);
    }

    /** `_update_from_data`. */
    method UpdateFromData(probe: map<string, Json>)
      modifies this
      ensures nativeValue == Reading(probe) && attributes == ProbeAttributes(probe)
    {
      nativeValue := if "filteredValue" in probe then probe["filteredValue"] else Field(probe, "directValue");
      attributes := map["type" := Field(probe, "type"), "status" := Field(probe, "status")];
    }

    /** `_handle_coordinator_update`: a found, non-empty probe overwrites the reading and
        the attributes; otherwise nothing changes. */
    method HandleCoordinatorUpdate(data: Snapshot) returns (r: Outcome)
      modifies this
      ensures var found := FindProbe(data, systemId, index);
        (found.Raise? ==> r == Fail(found.exc) && View() == old(View())) &&
        (found.Ok? && found.value.Some? && Truthy(JObj(found.value.value)) ==>
          r == Done && View() == old(View()).(nativeValue := Reading(found.value.value),
                                              attributes := ProbeAttributes(found.value.value))) &&
        (found.Ok? && (found.value.None? || !Truthy(JObj(found.value.value))) ==>
          r == Done && View() == old(View()))
    {
      var found := FindProbe(data, systemId, index);
      if found.Raise? {
        return Fail(found.exc);
      }
      if found.value.Some? && Truthy(JObj(found.value.value)) {
        UpdateFromData(found.value.value);
      }
      r := Done;
    }
  }

  /** `KlereoParamSensor`. */
  class KlereoParamSensor {
    const systemId: Json
    const key: string
    const uniqueId: seq<Piece>
    const name: string
    var nativeValue: Json

    constructor (systemId: Json, key: string, initialValue: Json)
      ensures this.systemId == systemId && this.key == key
      ensures uniqueId == UniqueId(systemId, "param", JStr(key)) && name == key
      ensures nativeValue == initialValue
    {
      this.systemId := systemId;
      this.key := key;
      uniqueId := UniqueId(systemId, "param", JStr(key));
      name := key;
      nativeValue := initialValue;
    }

    /** `_handle_coordinator_update`: the value changes only when the key is present. */
    method HandleCoordinatorUpdate(data: Snapshot) returns (r: Outcome)
      modifies this
      ensures var u := ParamLookup(data, systemId, key);
        (u.Raise? ==> r == Fail(u.exc) && nativeValue == old(nativeValue)) &&
        (u.Ok? ==> r == Done && nativeValue == if u.value.Some? then u.value.value else old(nativeValue))
    {
      if systemId !in data.systems {
        return Done;
      }
      var regul := Get(data.systems[systemId].details, "RegulModes", JObj(map[]));
      if regul.Raise? {
        return Fail(regul.exc);
      }
      var present := In(key, regul.value);
      if present.Raise? {
        return Fail(present.exc);
      }
      if present.value {
        var v := Subscript(regul.value, key);
        if v.Raise? {
          return Fail(v.exc);
        }
        nativeValue := v.value;
      }
      r := Done;
    }
  }

  // ---------------------------------------------------------------- setup

  /** What one system contributes: its probes, then its RegulModes entries. */
  datatype SystemSensors = SystemSensors(systemId: Json, probes: seq<Json>, regul: map<string, Json>)

  /** The exception of the first probe no sensor can be built from. */
  function ProbeFailure(probes: seq<Json>): Option<Exc> {
    if probes == [] then None
    else if InitError(probes[0]).Some? then InitError(probes[0])
    else ProbeFailure(probes[1..])
  }

  /** No exception exactly when every probe gives a sensor; otherwise the exception is
      that of the first probe that does not. */
  lemma {:induction false} ProbeFailureIsFirst(systemId: Json, probes: seq<Json>)
    ensures ProbeFailure(probes).None? <==> forall i :: 0 <= i < |probes| ==> InitSensor(systemId, probes[i]).Ok?
    ensures ProbeFailure(probes).Some? ==>
      exists i :: 0 <= i < |probes| && InitSensor(systemId, probes[i]) == Raise(ProbeFailure(probes).value) &&
        forall j :: 0 <= j < i ==> InitSensor(systemId, probes[j]).Ok?
    decreases |probes|
  {
    if probes != [] && InitSensor(systemId, probes[0]).Ok? {
      ProbeFailureIsFirst(systemId, probes[1..]);
      assert forall i :: 1 <= i < |probes| ==> probes[i] == probes[1..][i - 1];
      if ProbeFailure(probes).Some? {
        var i :| 0 <= i < |probes[1..]| && InitSensor(systemId, probes[1..][i]) == Raise(ProbeFailure(probes).value) &&
          forall j :: 0 <= j < i ==> InitSensor(systemId, probes[1..][j]).Ok?;
        assert InitSensor(systemId, probes[i + 1]) == Raise(ProbeFailure(probes).value);
        assert forall j :: 0 <= j < i + 1 ==> InitSensor(systemId, probes[j]).Ok?;
      }
    }
  }

  /** The loop body of `async_setup_entry` for one system. */
  function SystemSensorsOf(systemId: Json, details: Json): Result<SystemSensors> {
    var probes :- Get(details, "probes", JArr([]));
    var items :- LoopItems(probes);
    match ProbeFailure(items)
    case Some(e) => Raise(e)
    case None =>
      var regul :- Get(details, "RegulModes", JObj(map[]));
      if regul.JObj? then Ok(SystemSensors(systemId, items, regul.fields))
      else Raise(AttributeError)
  }

  /** `async_setup_entry` over the first `k` items of the snapshot: their plans, in
      order, or the exception of the first system that raises. */
  function SetupPlan(items: seq<(Json, SystemEntry)>, k: nat): Result<seq<SystemSensors>>
    requires k <= |items|
  {
    if k == 0 then Ok([])
    else
      var done :- SetupPlan(items, k - 1);
      var next :- SystemSensorsOf(items[k - 1].0, items[k - 1].1.details);
      Ok(done + [next])
  }

  /** Once a system has raised, the later systems change nothing. */
  lemma {:induction false} SetupPlanSticky(items: seq<(Json, SystemEntry)>, k: nat, n: nat)
    requires k <= n <= |items| && SetupPlan(items, k).Raise?
    ensures SetupPlan(items, n) == SetupPlan(items, k)
    decreases n - k
  {
    if k < n {
      SetupPlanSticky(items, k, n - 1);
    }
  }

  /** The plan succeeds exactly when every system's loop body does; it then holds their
      plans in snapshot order, and otherwise the exception of the first system that
      raises. */
  lemma {:induction false} SetupPlanContents(items: seq<(Json, SystemEntry)>, k: nat)
    requires k <= |items|
    ensures SetupPlan(items, k).Ok? <==> forall i :: 0 <= i < k ==> SystemSensorsOf(items[i].0, items[i].1.details).Ok?
    ensures SetupPlan(items, k).Ok? ==>
      |SetupPlan(items, k).value| == k &&
      forall i :: 0 <= i < k ==> Ok(SetupPlan(items, k).value[i]) == SystemSensorsOf(items[i].0, items[i].1.details)
    ensures SetupPlan(items, k).Raise? ==>
      exists i :: 0 <= i < k && SystemSensorsOf(items[i].0, items[i].1.details) == Raise(SetupPlan(items, k).exc) &&
        forall j :: 0 <= j < i ==> SystemSensorsOf(items[j].0, items[j].1.details).Ok?
    decreases k
  {
    if k > 0 {
      SetupPlanContents(items, k - 1);
    }
  }

  /** The probe sensors to build, in order: each system's probes, system by system. */
  function AllProbes(plan: seq<SystemSensors>): seq<(Json, Json)> {
    if plan == [] then []
    else AllProbes(plan[..|plan| - 1]) + SystemProbes(plan[|plan| - 1])
  }

  lemma AllProbesAppend(done: seq<SystemSensors>, s: SystemSensors)
    ensures AllProbes(done + [s]) == AllProbes(done) + SystemProbes(s)
  {
    assert (done + [s])[..|done|] == done;
  }

  function SystemProbes(s: SystemSensors): seq<(Json, Json)> {
    seq(|s.probes|, t requires 0 <= t < |s.probes| => (s.systemId, s.probes[t]))
  }

  /** Each sensor of `built` is the one built from the probe at the same position. */
  ghost predicate BuiltFrom(built: seq<KlereoSensor>, probes: seq<(Json, Json)>)
    reads built
  {
    |built| == |probes| &&
    forall t :: 0 <= t < |built| ==>
      built[t].systemId == probes[t].0 && InitSensor(probes[t].0, probes[t].1) == Ok(built[t].View())
  }

  lemma BuiltFromConcat(a: seq<KlereoSensor>, pa: seq<(Json, Json)>, b: seq<KlereoSensor>, pb: seq<(Json, Json)>)
    requires BuiltFrom(a, pa) && BuiltFrom(b, pb)
    ensures BuiltFrom(a + b, pa + pb)
  {
    forall t | 0 <= t < |a + b|
      ensures (a + b)[t].systemId == (pa + pb)[t].0 && InitSensor((pa + pb)[t].0, (pa + pb)[t].1) == Ok((a + b)[t].View())
    {
      if t >= |a| {
        assert (a + b)[t] == b[t - |a|] && (pa + pb)[t] == pb[t - |a|];
      }
    }
  }

  function SystemParams(s: SystemSensors): set<(Json, string, Json)> {
    set k | k in s.regul :: (s.systemId, k, s.regul[k])
  }

  /** The parameter sensors to build: one per system and RegulModes key. */
  function AllParams(plan: seq<SystemSensors>): set<(Json, string, Json)> {
    if plan == [] then {}
    else AllParams(plan[..|plan| - 1]) + SystemParams(plan[|plan| - 1])
  }

  lemma AllParamsAppend(done: seq<SystemSensors>, s: SystemSensors)
    ensures AllParams(done + [s]) == AllParams(done) + SystemParams(s)
  {
    assert (done + [s])[..|done|] == done;
  }

  /** No two parameter sensors stand for the same system and key. */
  ghost predicate ParamsDistinct(params: seq<KlereoParamSensor>) {
    forall a, b :: 0 <= a < b < |params| ==> (params[a].systemId, params[a].key) != (params[b].systemId, params[b].key)
  }

  lemma ParamsDistinctConcat(a: seq<KlereoParamSensor>, b: seq<KlereoParamSensor>)
    requires ParamsDistinct(a) && ParamsDistinct(b)
    requires forall i, j :: 0 <= i < |a| && 0 <= j < |b| ==> a[i].systemId != b[j].systemId
    ensures ParamsDistinct(a + b)
  {
    var s := a + b;
    forall i, j | 0 <= i < j < |s| ensures (s[i].systemId, s[i].key) != (s[j].systemId, s[j].key) {
      if j < |a| {
        assert s[i] == a[i] && s[j] == a[j];
      } else if i >= |a| {
        assert s[i] == b[i - |a|] && s[j] == b[j - |a|];
      } else {
        assert s[i] == a[i] && s[j] == b[j - |a|];
      }
    }
  }

  /** Each parameter sensor carries the unique id `{system}_param_{key}` and is named
      after its key. */
  ghost predicate ParamsNamed(params: seq<KlereoParamSensor>) {
    forall a :: 0 <= a < |params| ==>
      params[a].uniqueId == UniqueId(params[a].systemId, "param", JStr(params[a].key)) && params[a].name == params[a].key
  }

  lemma ParamsNamedConcat(a: seq<KlereoParamSensor>, b: seq<KlereoParamSensor>)
    requires ParamsNamed(a) && ParamsNamed(b)
    ensures ParamsNamed(a + b)
  {
    forall i | 0 <= i < |a + b|
      ensures (a + b)[i].uniqueId == UniqueId((a + b)[i].systemId, "param", JStr((a + b)[i].key)) && (a + b)[i].name == (a + b)[i].key
    {
      if i < |a| {
        assert (a + b)[i] == a[i];
      } else {
        assert (a + b)[i] == b[i - |a|];
      }
    }
  }

  function ParamsBuilt(params: seq<KlereoParamSensor>): set<(Json, string, Json)>
    reads params
  {
    set i | 0 <= i < |params| :: (params[i].systemId, params[i].key, params[i].nativeValue)
  }

  lemma ParamsBuiltAppend(built: seq<KlereoParamSensor>, p: KlereoParamSensor)
    ensures ParamsBuilt(built + [p]) == ParamsBuilt(built) + {(p.systemId, p.key, p.nativeValue)}
  {
    var s := built + [p];
    forall x | x in ParamsBuilt(s) ensures x in ParamsBuilt(built) + {(p.systemId, p.key, p.nativeValue)} {
      var a :| 0 <= a < |s| && x == (s[a].systemId, s[a].key, s[a].nativeValue);
      if a < |built| {
        assert s[a] == built[a];
      }
    }
    forall x | x in ParamsBuilt(built) + {(p.systemId, p.key, p.nativeValue)} ensures x in ParamsBuilt(s) {
      if x in ParamsBuilt(built) {
        var a :| 0 <= a < |built| && x == (built[a].systemId, built[a].key, built[a].nativeValue);
        assert s[a] == built[a];
      } else {
        assert s[|built|] == p;
      }
    }
  }

  /** The inner probe loop: one sensor per probe, in order, or the exception of the
      first probe that cannot be built. */
  method BuildProbeSensors(systemId: Json, probes: seq<Json>) returns (failure: Option<Exc>, built: seq<KlereoSensor>)
    ensures failure == ProbeFailure(probes)
    ensures failure.None? ==> |built| == |probes|
    ensures failure.None? ==> forall t :: 0 <= t < |built| ==>
      fresh(built[t]) && built[t].systemId == systemId && InitSensor(systemId, probes[t]) == Ok(built[t].View())
  {
    built := [];
    var j := 0;
    while j < |probes|
      invariant 0 <= j <= |probes| && |built| == j
      invariant ProbeFailure(probes) == ProbeFailure(probes[j..])
      invariant forall t :: 0 <= t < j ==>
        fresh(built[t]) && built[t].systemId == systemId && InitSensor(systemId, probes[t]) == Ok(built[t].View())
    {
      assert probes[j..][1..] == probes[j + 1..];
      if !probes[j].JObj? {
        return Some(AttributeError), [];
      }
      if !Hashable(Field(probes[j].fields, "type")) {
        return Some(TypeError), [];
      }
      var s := new KlereoSensor(systemId, probes[j]);
      built := built + [s];
      j := j + 1;
    }
    failure := None;
  }

  /** The inner RegulModes loop: one parameter sensor per key, holding its value. */
  method BuildParamSensors(systemId: Json, regul: map<string, Json>) returns (built: seq<KlereoParamSensor>)
    ensures ParamsBuilt(built) == set k | k in regul :: (systemId, k, regul[k])
    ensures forall a :: 0 <= a < |built| ==> fresh(built[a]) && built[a].systemId == systemId
    ensures forall a, b :: 0 <= a < b < |built| ==> built[a].key != built[b].key
    ensures ParamsNamed(built)
  {
    built := [];
    var keys := regul.Keys;
    while keys != {}
      invariant keys <= regul.Keys
      invariant ParamsBuilt(built) == set k | k in regul.Keys - keys :: (systemId, k, regul[k])
      invariant forall a :: 0 <= a < |built| ==> fresh(built[a]) && built[a].systemId == systemId && built[a].key !in keys
      invariant forall a, b :: 0 <= a < b < |built| ==> built[a].key != built[b].key
      invariant ParamsNamed(built)
      decreases keys
    {
      var key :| key in keys;
      var p := new KlereoParamSensor(systemId, key, regul[key]);
      ParamsBuiltAppend(built, p);
      built := built + [p];
      assert regul.Keys - (keys - {key}) == (regul.Keys - keys) + {key};
      keys := keys - {key};
    }
  }

  lemma ParamsBuiltConcat(a: seq<KlereoParamSensor>, b: seq<KlereoParamSensor>)
    ensures ParamsBuilt(a + b) == ParamsBuilt(a) + ParamsBuilt(b)
  {
    var s := a + b;
    forall x | x in ParamsBuilt(s) ensures x in ParamsBuilt(a) + ParamsBuilt(b) {
      var i :| 0 <= i < |s| && x == (s[i].systemId, s[i].key, s[i].nativeValue);
      if i < |a| {
        assert s[i] == a[i];
      } else {
        assert s[i] == b[i - |a|];
      }
    }
    forall x | x in ParamsBuilt(a) + ParamsBuilt(b) ensures x in ParamsBuilt(s) {
      if x in ParamsBuilt(a) {
        var i :| 0 <= i < |a| && x == (a[i].systemId, a[i].key, a[i].nativeValue);
        assert s[i] == a[i];
      } else {
        var i :| 0 <= i < |b| && x == (b[i].systemId, b[i].key, b[i].nativeValue);
        assert s[|a| + i] == b[i];
      }
    }
  }

  /** The sensors built for one system are the ones its plan calls for: a probe sensor
      per probe, in order, and one parameter sensor per RegulModes key. */
  ghost predicate SystemBuilt(system: SystemSensors, built: seq<KlereoSensor>, made: seq<KlereoParamSensor>)
    reads built, made
  {
    BuiltFrom(built, SystemProbes(system)) && ParamsBuilt(made) == SystemParams(system) &&
    (forall a :: 0 <= a < |made| ==> made[a].systemId == system.systemId) &&
    (forall a, b :: 0 <= a < b < |made| ==> made[a].key != made[b].key) &&
    ParamsNamed(made)
  }

  /** The body of the setup loop for one system. */
  method SetupSystem(systemId: Json, details: Json)
    returns (failure: Option<Exc>, built: seq<KlereoSensor>, made: seq<KlereoParamSensor>, ghost system: SystemSensors)
    ensures failure.Some? <==> SystemSensorsOf(systemId, details).Raise?
    ensures failure.Some? ==> failure.value == SystemSensorsOf(systemId, details).exc
    ensures failure.None? ==>
      SystemSensorsOf(systemId, details) == Ok(system) && system.systemId == systemId &&
      SystemBuilt(system, built, made)
    ensures failure.None? ==>
      (forall t :: 0 <= t < |built| ==> fresh(built[t])) && (forall a :: 0 <= a < |made| ==> fresh(made[a]))
  {
    made := [];
    built := [];
    system := SystemSensors(systemId, [], map[]);
    var probes := Get(details, "probes", JArr([]));
    if probes.Raise? {
      return Some(probes.exc), [], [], system;
    }
    var items := LoopItems(probes.value);
    if items.Raise? {
      return Some(items.exc), [], [], system;
    }
    failure, built := BuildProbeSensors(systemId, items.value);
    if failure.Some? {
      return failure, [], [], system;
    }
    // `details` has a `get`, since the `probes` lookup went through
    var regul := Get(details, "RegulModes", JObj(map[])).value;
    if !regul.JObj? {
      return Some(AttributeError), [], [], system;
    }
    made := BuildParamSensors(systemId, regul.fields);
    system := SystemSensors(systemId, items.value, regul.fields);
    assert SystemSensorsOf(systemId, details) == Ok(system);
  }

  /** The sensors built for a plan are the ones it calls for: a probe sensor per probe,
      in order, and one parameter sensor per system and RegulModes key. */
  ghost predicate EntryBuilt(plan: seq<SystemSensors>, sensors: seq<KlereoSensor>, params: seq<KlereoParamSensor>)
    reads sensors, params
  {
    BuiltFrom(sensors, AllProbes(plan)) && ParamsBuilt(params) == AllParams(plan) && ParamsDistinct(params) &&
    ParamsNamed(params)
  }

  /** What the setup loop has achieved after the first `k` items of the snapshot:
      `done` holds their plans, the rest of the plan is still to come, and the sensors
      built so far are the ones those plans call for. */
  ghost predicate SetupSoFar(items: seq<(Json, SystemEntry)>, k: int, done: seq<SystemSensors>,
                             all: seq<KlereoSensor>, ps: seq<KlereoParamSensor>)
    reads all, ps
  {
    0 <= k <= |items| &&
    SetupPlan(items, k) == Ok(done) &&
    EntryBuilt(done, all, ps) &&
    forall a, m :: 0 <= a < |ps| && k <= m < |items| ==> ps[a].systemId != items[m].0
  }

  /** One turn of the setup loop keeps `SetupSoFar`. */
  lemma SetupStep(items: seq<(Json, SystemEntry)>, k: int, done: seq<SystemSensors>, all: seq<KlereoSensor>,
                  ps: seq<KlereoParamSensor>, system: SystemSensors, built: seq<KlereoSensor>, made: seq<KlereoParamSensor>)
    requires DistinctKeys(items) && SetupSoFar(items, k, done, all, ps) && k < |items|
    requires SystemSensorsOf(items[k].0, items[k].1.details) == Ok(system)
    requires system.systemId == items[k].0
    requires SystemBuilt(system, built, made)
    ensures SetupSoFar(items, k + 1, done + [system], all + built, ps + made)
  {
    AllProbesAppend(done, system);
    AllParamsAppend(done, system);
    BuiltFromConcat(all, AllProbes(done), built, SystemProbes(system));
    ParamsBuiltConcat(ps, made);
    assert ParamsDistinct(made);
    ParamsDistinctConcat(ps, made);
    ParamsNamedConcat(ps, made);
    var ps' := ps + made;
    forall a, m | 0 <= a < |ps'| && k + 1 <= m < |items| ensures ps'[a].systemId != items[m].0 {
      if a < |ps| {
        assert ps'[a] == ps[a];
      } else {
        assert ps'[a] == made[a - |ps|];
      }
    }
  }

  lemma SetupStart(items: seq<(Json, SystemEntry)>)
    ensures SetupSoFar(items, 0, [], [], [])
  {
    assert EntryBuilt([], [], []);
  }

  /** `async_setup_entry`, given `coordinator.data.items()`: one probe sensor per probe
      and one parameter sensor per RegulModes key of every system, in snapshot order; an
      exception anywhere means no entity is added at all. */
  method SetupEntry(items: seq<(Json, SystemEntry)>)
    returns (r: Outcome, sensors: seq<KlereoSensor>, params: seq<KlereoParamSensor>)
    requires DistinctKeys(items)
    ensures var plan := SetupPlan(items, |items|);
      (plan.Raise? ==> r == Fail(plan.exc) && sensors == [] && params == []) &&
      (plan.Ok? ==> r == Done && EntryBuilt(plan.value, sensors, params))
  {
    var all: seq<KlereoSensor> := [];
    var ps: seq<KlereoParamSensor> := [];
    ghost var done: seq<SystemSensors> := [];
    var k := 0;
    SetupStart(items);
    while k < |items|
      invariant SetupSoFar(items, k, done, all, ps)
    {
      var failure;
      failure, all, ps, done := SetupNext(items, k, done, all, ps);
      if failure.Some? {
        return Fail(failure.value), [], [];
      }
      k := k + 1;
    }
    return Done, all, ps;
  }

  /** One turn of the setup loop: the sensors of the `k`-th system of the snapshot are
      added, or the exception that ends the setup is returned. */
  method SetupNext(items: seq<(Json, SystemEntry)>, k: nat, ghost done: seq<SystemSensors>,
                   all: seq<KlereoSensor>, ps: seq<KlereoParamSensor>)
    returns (failure: Option<Exc>, all': seq<KlereoSensor>, ps': seq<KlereoParamSensor>, ghost done': seq<SystemSensors>)
    requires DistinctKeys(items) && k < |items| && SetupSoFar(items, k, done, all, ps)
    ensures failure.Some? ==> SetupPlan(items, |items|) == Raise(failure.value)
    ensures failure.None? ==> SetupSoFar(items, k + 1, done', all', ps')
  {
    var built, made;
    ghost var system;
    failure, built, made, system := SetupSystem(items[k].0, items[k].1.details);
    if failure.Some? {
      SetupPlanSticky(items, k + 1, |items|);
      return failure, all, ps, done;
    }
    SetupStep(items, k, done, all, ps, system, built, made);
    return None, all + built, ps + made, done + [system];
  }

  /** Setup and refresh agree: a refresh with the snapshot a system's sensors were set
      up from finds each probe sensor's own probe again (unless an earlier probe has an
      equal index, in which case that one is found), and gives each parameter sensor the
      value it was built with. */
  lemma {:induction false} RefreshFindsOwnProbe(data: Snapshot, systemId: Json, system: SystemSensors, i: int)
    requires systemId in data.systems
    requires SystemSensorsOf(systemId, data.systems[systemId].details) == Ok(system)
    requires 0 <= i < |system.probes| && system.probes[i].JObj?
    requires forall j :: 0 <= j < i ==> PassesOver(system.probes, j, "index", Field(system.probes[i].fields, "index"))
    ensures FindProbe(data, systemId, Field(system.probes[i].fields, "index")) == Ok(Some(system.probes[i].fields))
  {
    var want := Field(system.probes[i].fields, "index");
    PyEqReflexive(want);
    FindFirstAt(system.probes, "index", want, i);
  }

  lemma RefreshKeepsParamValue(data: Snapshot, systemId: Json, system: SystemSensors, key: string)
    requires systemId in data.systems
    requires SystemSensorsOf(systemId, data.systems[systemId].details) == Ok(system)
    requires key in system.regul
    ensures ParamLookup(data, systemId, key) == Ok(Some(system.regul[key]))
  {
  }
}
