/** The switch platform: one switch per entry of a system's `outs` list. A switch shows
    the truthiness of its output's `status`, refreshes itself by looking its output up
    again, and turns the output on or off through the set-output command in manual mode. */
module Switch {
  import opened PyJson
  import opened Const
  import opened Api
  import opened Coordinator
  import opened EntityIds

  // ---------------------------------------------------------------- naming and state

  /** `OUTPUT_NAMES.get(index, f"Output {index}")`: the name of the table entry whose
      int key equals the index, else the fallback; an unhashable index raises. */
  function OutputName(index: Json): (r: Result<seq<Piece>>)
    ensures r.Raise? <==> !Hashable(index)
    ensures r.Raise? ==> r.exc == TypeError
    ensures r.Ok? ==>
      (exists k :: k in OutputNames && PyEq(index, JInt(k)) && r.value == [Text(OutputNames[k])]) ||
      ((forall k :: k in OutputNames ==> !PyEq(index, JInt(k))) && r.value == [Text("Output "), Value(index)])
  {
    match IntKey(index)
    case Raise(e) => Raise(e)
    case Ok(key) =>
      Ok(if key.Some? && key.value in OutputNames then [Text(OutputNames[key.value])]
         else [Text("Output "), Value(index)])
  }

  /** `bool(data.get("status"))`. */
  predicate IsOn(output: map<string, Json>) {
    Truthy(Field(output, "status"))
  }

  function OutputAttributes(output: map<string, Json>): map<string, Json> {
    map["mode" := Field(output, "mode"), "type" := Field(output, "type")]
  }

  /** An output is on exactly when its status is truthy: a missing status, null, False,
      0, 0.0 and "" are off, and every other number and every non-empty string, "0"
      included, is on. */
  lemma StatusTruthiness(output: map<string, Json>)
    ensures "status" !in output ==> !IsOn(output)
    ensures !IsOn(output["status" := JNull]) && !IsOn(output["status" := JBool(false)])
    ensures !IsOn(output["status" := JInt(0)]) && !IsOn(output["status" := JFloat(0.0)])
    ensures !IsOn(output["status" := JStr("")])
    ensures forall n: int :: n != 0 ==> IsOn(output["status" := JInt(n)])
    ensures forall s: string :: s != "" ==> IsOn(output["status" := JStr(s)])
    ensures IsOn(output["status" := JStr("0")]) && IsOn(output["status" := JBool(true)])
  {
  }

  /** Everything a switch shows. */
  datatype SwitchView = SwitchView(
    index: Json, uniqueId: seq<Piece>, name: seq<Piece>, isOn: bool, attributes: map<string, Json>)

  /** The exception the constructor raises for an output, if any: AttributeError for an
      output without `get`, TypeError for an index the table lookup cannot hash. */
  function InitError(output: Json): Option<Exc> {
    if !output.JObj? then Some(AttributeError)
    else if !Hashable(Field(output.fields, "index")) then Some(TypeError)
    else None
  }

  /** `KlereoSwitch(coordinator, system_id, output)`: the switch built from an output, or
      the exception the constructor raises (an output without `get`, an unhashable
      index). */
  function InitSwitch(systemId: Json, output: Json): (r: Result<SwitchView>)
    ensures r.Raise? <==> InitError(output).Some?
    ensures r.Raise? ==> InitError(output) == Some(r.exc)
  {
    match output
    case JObj(m) =>
      var index := Field(m, "index");
      var name :- OutputName(index);
      Ok(SwitchView(index, UniqueId(systemId, "output", index), name, IsOn(m), OutputAttributes(m)))
    case _ => Raise(AttributeError)
  }

  /** An output whose index equals a table key (1, 1.0 and True alike) takes that
      table name; its unique id is "{system}_output_{index}". */
  lemma KnownOutputNaming(systemId: Json, output: map<string, Json>, k: int)
    requires k in OutputNames && PyEq(Field(output, "index"), JInt(k))
    ensures InitSwitch(systemId, JObj(output)).Ok?
    ensures var v := InitSwitch(systemId, JObj(output)).value;
      v.name == [Text(OutputNames[k])] &&
      v.uniqueId == UniqueId(systemId, "output", Field(output, "index")) &&
      v.isOn == IsOn(output) && v.attributes == OutputAttributes(output)
  {
  }

  /** An output whose index matches no table key, a missing one included, is named
      "Output {index}". */
  lemma UnknownOutputNaming(systemId: Json, output: map<string, Json>)
    requires Hashable(Field(output, "index"))
    requires forall k :: k in OutputNames ==> !PyEq(Field(output, "index"), JInt(k))
    ensures InitSwitch(systemId, JObj(output)).Ok?
    ensures InitSwitch(systemId, JObj(output)).value.name == [Text("Output "), Value(Field(output, "index"))]
  {
  }

  lemma OutputIndexesCompareAsPythonNumbers()
    ensures OutputName(JInt(1)) == Ok([Text("Filtration")])
    ensures OutputName(JFloat(1.0)) == Ok([Text("Filtration")])
    ensures OutputName(JBool(true)) == Ok([Text("Filtration")])
  {
    assert (1.0).Floor == 1;
  }

  /** Index 16, the str "1" and null match no table key; a dict index raises. */
  lemma OutputNameFallbacks()
    ensures OutputName(JInt(16)) == Ok([Text("Output "), Value(JInt(16))])
    ensures OutputName(JStr("1")) == Ok([Text("Output "), Value(JStr("1"))])
    ensures OutputName(JNull) == Ok([Text("Output "), Value(JNull)])
    ensures OutputName(JObj(map[])) == Raise(TypeError)
  {
  }

  // ---------------------------------------------------------------- lookup

  /** `_find_my_data`: None when the system is gone, else the first output of the
      system's `outs` whose `index` equals the switch's. */
  function FindOutput(data: Snapshot, systemId: Json, index: Json): (r: Result<Option<map<string, Json>>>)
    ensures systemId !in data.systems ==> r == Ok(None)
    ensures systemId in data.systems && !data.systems[systemId].details.JObj? ==> r == Raise(AttributeError)
  {
    if systemId !in data.systems then Ok(None)
    else
      var outs :- Get(data.systems[systemId].details, "outs", JArr([]));
      var items :- LoopItems(outs);
      FindFirst(items, "index", index)
  }

  /** The lookup is a first-match search over `outs`: it finds nothing exactly when every
      output is a dict with another index, and what it finds carries the index with
      only such outputs before it. */
  lemma FindOutputIsFirstMatch(data: Snapshot, systemId: Json, index: Json, outs: seq<Json>)
    requires systemId in data.systems
    requires Get(data.systems[systemId].details, "outs", JArr([])) == Ok(JArr(outs))
    ensures var r := FindOutput(data, systemId, index);
      (r == Ok(None) <==> forall j :: 0 <= j < |outs| ==> PassesOver(outs, j, "index", index)) &&
      (r.Ok? && r.value.Some? ==>
        exists i :: 0 <= i < |outs| && outs[i] == JObj(r.value.value) &&
          PyEq(Field(r.value.value, "index"), index) &&
          forall j :: 0 <= j < i ==> PassesOver(outs, j, "index", index))
  {
  }

  // ---------------------------------------------------------------- commands

  /** The two commands a switch sends are the same set-output request in manual mode
      except for the state: 1 to turn on, 0 to turn off. */
  lemma TurnOnOffDifferOnlyInState(systemId: Json, index: Json)
    ensures var on, off := SetOutRequest(systemId, index, OutModeMan, OutStateOn),
                           SetOutRequest(systemId, index, OutModeMan, OutStateOff);
      on.verb == off.verb == POST && on.url == off.url == ApiUrlSetOut &&
      on.form.Keys == off.form.Keys &&
      (forall k :: k in on.form && k != "newState" ==> on.form[k] == off.form[k]) &&
      on.form["newMode"] == JInt(0) && on.form["newState"] == JInt(1) && off.form["newState"] == JInt(0) &&
      on.form["poolID"] == systemId && on.form["outIdx"] == index && on != off
  {
  }

  // ---------------------------------------------------------------- the entity

  /** `KlereoSwitch`. Its commands go through the coordinator's API client. */
  class KlereoSwitch {
    const api: KlereoApi
    const systemId: Json
    const index: Json
    const uniqueId: seq<Piece>
    const name: seq<Piece>
    var isOn: bool
    var attributes: map<string, Json>

    function View(): SwitchView
      reads this
    {
      SwitchView(index, uniqueId, name, isOn, attributes)
    }

    /** Setup checks the output is a dict with a hashable index before building a
        switch, raising as the constructor would. */
    constructor (api: KlereoApi, systemId: Json, output: Json)
      requires output.JObj? && Hashable(Field(output.fields, "index"))
      ensures this.api == api && this.systemId == systemId
      ensures InitSwitch(systemId, output) == Ok(View())
    {
      var m := output.fields;
      this.api := api;
      this.systemId := systemId;
      index := Field(m, "index");
      uniqueId := UniqueId(systemId, "output", Field(m, "index"));
      name := OutputName(Field(m, "index")).value;
      isOn := false;
      attributes := map[];
      new;
      UpdateFromData(m);
    }

    /** `_update_from_data`. */
    method UpdateFromData(output: map<string, Json>)
      modifies this
      ensures isOn == IsOn(output) && attributes == OutputAttributes(output)
    {
      isOn := Truthy(Field(output, "status"));
      attributes := map["mode" := Field(output, "mode"), "type" := Field(output, "type")];
    }

    /** `_handle_coordinator_update`: a found, non-empty output overwrites the state and
        the attributes; otherwise nothing changes. */
    method HandleCoordinatorUpdate(data: Snapshot) returns (r: Outcome)
      modifies this
      ensures var found := FindOutput(data, systemId, index);
        (found.Raise? ==> r == Fail(found.exc) && View() == old(View())) &&
        (found.Ok? && found.value.Some? && Truthy(JObj(found.value.value)) ==>
          r == Done && View() == old(View()).(isOn := IsOn(found.value.value),
                                              attributes := OutputAttributes(found.value.value))) &&
        (found.Ok? && (found.value.None? || !Truthy(JObj(found.value.value))) ==>
          r == Done && View() == old(View()))
    {
      var found := FindOutput(data, systemId, index);
      if found.Raise? {
        return Fail(found.exc);
      }
      if found.value.Some? && Truthy(JObj(found.value.value)) {
        UpdateFromData(found.value.value);
      }
      r := Done;
    }

    /** `async_turn_on`: one set-output command (manual mode, state on) through the
        retry machine; a refresh is requested only when the command returned. The switch
        itself does not change: its state comes from the next refresh. */
    method TurnOn() returns (r: Outcome, refreshRequested: bool)
      modifies api`token, api`history, api.server
      ensures var req := SetOutRequest(systemId, index, OutModeMan, OutStateOn);
        var t := Retry(api.LoginCall().request, api.server.respond, |old(api.server.log)|, old(api.token), req);
        api.token == t.token && api.server.log == old(api.server.log) + t.sent &&
        api.history == old(api.history) + [Logged(req, t.result)] &&
        (t.result.Ok? ==> r == Done && refreshRequested) &&
        (t.result.Raise? ==> r == Fail(t.result.exc) && !refreshRequested)
      ensures View() == old(View())
    {
      var res := api.SetOutput(systemId, index, OutModeMan, OutStateOn);
      if res.Raise? {
        return Fail(res.exc), false;
      }
      return Done, true;
    }

    /** `async_turn_off`: as `TurnOn`, with state off. */
    method TurnOff() returns (r: Outcome, refreshRequested: bool)
      modifies api`token, api`history, api.server
      ensures var req := SetOutRequest(systemId, index, OutModeMan, OutStateOff);
        var t := Retry(api.LoginCall().request, api.server.respond, |old(api.server.log)|, old(api.token), req);
        api.token == t.token && api.server.log == old(api.server.log) + t.sent &&
        api.history == old(api.history) + [Logged(req, t.result)] &&
        (t.result.Ok? ==> r == Done && refreshRequested) &&
        (t.result.Raise? ==> r == Fail(t.result.exc) && !refreshRequested)
      ensures View() == old(View())
    {
      var res := api.SetOutput(systemId, index, OutModeMan, OutStateOff);
      if res.Raise? {
        return Fail(res.exc), false;
      }
      return Done, true;
    }
  }

  // ---------------------------------------------------------------- setup

  /** The exception of the first output no switch can be built from. */
  function OutputFailure(outs: seq<Json>): Option<Exc> {
    if outs == [] then None
    else if InitError(outs[0]).Some? then InitError(outs[0])
    else OutputFailure(outs[1..])
  }

  /** No exception exactly when every output gives a switch; otherwise the exception is
      that of the first output that does not. */
  lemma {:induction false} OutputFailureIsFirst(systemId: Json, outs: seq<Json>)
    ensures OutputFailure(outs).None? <==> forall i :: 0 <= i < |outs| ==> InitSwitch(systemId, outs[i]).Ok?
    ensures OutputFailure(outs).Some? ==>
      exists i :: 0 <= i < |outs| && InitSwitch(systemId, outs[i]) == Raise(OutputFailure(outs).value) &&
        forall j :: 0 <= j < i ==> InitSwitch(systemId, outs[j]).Ok?
    decreases |outs|
  {
    if outs != [] && InitSwitch(systemId, outs[0]).Ok? {
      OutputFailureIsFirst(systemId, outs[1..]);
      assert forall i :: 1 <= i < |outs| ==> outs[i] == outs[1..][i - 1];
      if OutputFailure(outs).Some? {
        var i :| 0 <= i < |outs[1..]| && InitSwitch(systemId, outs[1..][i]) == Raise(OutputFailure(outs).value) &&
          forall j :: 0 <= j < i ==> InitSwitch(systemId, outs[1..][j]).Ok?;
        assert InitSwitch(systemId, outs[i + 1]) == Raise(OutputFailure(outs).value);
        assert forall j :: 0 <= j < i + 1 ==> InitSwitch(systemId, outs[j]).Ok?;
      }
    }
  }

  /** Each output of a system, paired with the system id. */
  function Tagged(systemId: Json, outs: seq<Json>): seq<(Json, Json)> {
    seq(|outs|, t requires 0 <= t < |outs| => (systemId, outs[t]))
  }

  /** The inner loop of `async_setup_entry` for one system: its outputs, or the
      exception that ends setup. */
  function SystemOutputs(systemId: Json, details: Json): Result<seq<(Json, Json)>> {
    var outs :- Get(details, "outs", JArr([]));
    var items :- LoopItems(outs);
    match OutputFailure(items)
    case Some(e) => Raise(e)
    case None => Ok(Tagged(systemId, items))
  }

  /** `async_setup_entry` over the first `k` items of the snapshot: the outputs to
      build switches from, in order, or the exception of the first system that raises. */
  function SetupPlan(items: seq<(Json, SystemEntry)>, k: nat): Result<seq<(Json, Json)>>
    requires k <= |items|
  {
    if k == 0 then Ok([])
    else
      var done :- SetupPlan(items, k - 1);
      var next :- SystemOutputs(items[k - 1].0, items[k - 1].1.details);
      Ok(done + next)
  }

  /** Once a system has raised, the later systems change nothing. */
  lemma {:induction false} SetupPlanSticky(items: seq<(Json, SystemEntry)>, k: nat, n: nat)
    requires k <= n <= |items| && SetupPlan(items, k).Raise?
    ensures SetupPlan(items, n) == SetupPlan(items, k)
    decreases n - k
  {
    if k < n {
      SetupPlanSticky(items, k, n - 1);
    }
  }

  /** The outputs of several systems, one system after the other. */
  function Concat(xss: seq<seq<(Json, Json)>>): seq<(Json, Json)> {
    if xss == [] then [] else Concat(xss[..|xss| - 1]) + xss[|xss| - 1]
  }

  /** The plan succeeds exactly when every system's loop body does, and then holds every
      system's outputs, system by system in snapshot order; otherwise it carries the
      exception of the first system that raises. */
  lemma {:induction false} SetupPlanContents(items: seq<(Json, SystemEntry)>, k: nat)
    requires k <= |items|
    ensures SetupPlan(items, k).Ok? <==> forall i :: 0 <= i < k ==> SystemOutputs(items[i].0, items[i].1.details).Ok?
    ensures SetupPlan(items, k).Ok? ==>
      SetupPlan(items, k).value ==
        Concat(seq(k, i requires 0 <= i < k && SystemOutputs(items[i].0, items[i].1.details).Ok? =>
                        SystemOutputs(items[i].0, items[i].1.details).value))
    ensures SetupPlan(items, k).Raise? ==>
      exists i :: 0 <= i < k && SystemOutputs(items[i].0, items[i].1.details) == Raise(SetupPlan(items, k).exc) &&
        forall j :: 0 <= j < i ==> SystemOutputs(items[j].0, items[j].1.details).Ok?
    decreases k
  {
    if k > 0 {
      SetupPlanContents(items, k - 1);
      if SetupPlan(items, k).Ok? {
        var f := i requires 0 <= i < k && SystemOutputs(items[i].0, items[i].1.details).Ok? =>
                   SystemOutputs(items[i].0, items[i].1.details).value;
        var g := i requires 0 <= i < k - 1 && SystemOutputs(items[i].0, items[i].1.details).Ok? =>
                   SystemOutputs(items[i].0, items[i].1.details).value;
        assert seq(k, f)[..k - 1] == seq(k - 1, g);
      }
    }
  }

  /** Each switch of `built` is the one built from the output at the same position, and
      sends its commands through `api`. */
  ghost predicate BuiltFrom(built: seq<KlereoSwitch>, outs: seq<(Json, Json)>, api: KlereoApi)
    reads built
  {
    |built| == |outs| &&
    forall t :: 0 <= t < |built| ==>
      built[t].api == api && built[t].systemId == outs[t].0 &&
      InitSwitch(outs[t].0, outs[t].1) == Ok(built[t].View())
  }

  lemma BuiltFromConcat(a: seq<KlereoSwitch>, oa: seq<(Json, Json)>, b: seq<KlereoSwitch>, ob: seq<(Json, Json)>, api: KlereoApi)
    requires BuiltFrom(a, oa, api) && BuiltFrom(b, ob, api)
    ensures BuiltFrom(a + b, oa + ob, api)
  {
    forall t | 0 <= t < |a + b|
      ensures (a + b)[t].api == api && (a + b)[t].systemId == (oa + ob)[t].0 &&
              InitSwitch((oa + ob)[t].0, (oa + ob)[t].1) == Ok((a + b)[t].View())
    {
      if t >= |a| {
        assert (a + b)[t] == b[t - |a|] && (oa + ob)[t] == ob[t - |a|];
      }
    }
  }

  /** The inner loop: one switch per output, in order, or the exception of the first
      output that cannot be built. */
  method BuildSwitches(api: KlereoApi, systemId: Json, outs: seq<Json>) returns (failure: Option<Exc>, built: seq<KlereoSwitch>)
    ensures failure == OutputFailure(outs)
    ensures failure.None? ==> |built| == |outs|
    ensures failure.None? ==> forall t :: 0 <= t < |built| ==>
      built[t].api == api && built[t].systemId == systemId && InitSwitch(systemId, outs[t]) == Ok(built[t].View())
    ensures forall t :: 0 <= t < |built| ==> fresh(built[t])
  {
    built := [];
    var j := 0;
    while j < |outs|
      invariant 0 <= j <= |outs| && |built| == j
      invariant OutputFailure(outs) == OutputFailure(outs[j..])
      invariant forall t :: 0 <= t < j ==>
        fresh(built[t]) && built[t].api == api && built[t].systemId == systemId &&
        InitSwitch(systemId, outs[t]) == Ok(built[t].View())
    {
      assert outs[j..][1..] == outs[j + 1..];
      if !outs[j].JObj? {
        return Some(AttributeError), [];
      }
      if !Hashable(Field(outs[j].fields, "index")) {
        return Some(TypeError), [];
      }
      var s := new KlereoSwitch(api, systemId, outs[j]);
      built := built + [s];
      j := j + 1;
    }
    failure := None;
  }

  /** The body of the setup loop for one system. */
  method SetupSystem(api: KlereoApi, systemId: Json, details: Json) returns (failure: Option<Exc>, built: seq<KlereoSwitch>)
    ensures failure.Some? <==> SystemOutputs(systemId, details).Raise?
    ensures failure.Some? ==> failure.value == SystemOutputs(systemId, details).exc
    ensures failure.None? ==> BuiltFrom(built, SystemOutputs(systemId, details).value, api)
    ensures forall t :: 0 <= t < |built| ==> fresh(built[t])
  {
    built := [];
    var outs := Get(details, "outs", JArr([]));
    if outs.Raise? {
      return Some(outs.exc), [];
    }
    var items := LoopItems(outs.value);
    if items.Raise? {
      return Some(items.exc), [];
    }
    failure, built := BuildSwitches(api, systemId, items.value);
    if failure.Some? {
      return failure, [];
    }
  }

  /** What the setup loop has achieved after the first `k` items: `done` holds their
      outputs, the rest of the plan is still to come, and `all` holds their switches. */
  ghost predicate SetupSoFar(items: seq<(Json, SystemEntry)>, api: KlereoApi, k: int, done: seq<(Json, Json)>, all: seq<KlereoSwitch>)
    reads all
  {
    0 <= k <= |items| &&
    SetupPlan(items, k) == Ok(done) &&
    BuiltFrom(all, done, api)
  }

  /** `async_setup_entry`, given `coordinator.data.items()`: one switch per output of
      every system, in snapshot order; an exception anywhere means no switch is added at
      all. */
  method SetupEntry(api: KlereoApi, items: seq<(Json, SystemEntry)>) returns (r: Outcome, switches: seq<KlereoSwitch>)
    ensures var plan := SetupPlan(items, |items|);
      (plan.Raise? ==> r == Fail(plan.exc) && switches == []) &&
      (plan.Ok? ==> r == Done && BuiltFrom(switches, plan.value, api))
  {
    var all: seq<KlereoSwitch> := [];
    ghost var done: seq<(Json, Json)> := [];
    var k := 0;
    while k < |items|
      invariant SetupSoFar(items, api, k, done, all)
    {
      var failure;
      failure, all, done := SetupNext(api, items, k, done, all);
      if failure.Some? {
        return Fail(failure.value), [];
      }
      k := k + 1;
    }
    return Done, all;
  }

  /** One turn of the setup loop: the switches of the `k`-th system of the snapshot are
      added, or the exception that ends the setup is returned. */
  method SetupNext(api: KlereoApi, items: seq<(Json, SystemEntry)>, k: nat, ghost done: seq<(Json, Json)>, all: seq<KlereoSwitch>)
    returns (failure: Option<Exc>, all': seq<KlereoSwitch>, ghost done': seq<(Json, Json)>)
    requires k < |items| && SetupSoFar(items, api, k, done, all)
    ensures failure.Some? ==> SetupPlan(items, |items|) == Raise(failure.value)
    ensures failure.None? ==> SetupSoFar(items, api, k + 1, done', all')
  {
    var built;
    failure, built := SetupSystem(api, items[k].0, items[k].1.details);
    if failure.Some? {
      SetupPlanSticky(items, k + 1, |items|);
      return failure, all, done;
    }
    ghost var outs := SystemOutputs(items[k].0, items[k].1.details).value;
    BuiltFromConcat(all, done, built, outs, api);
    return None, all + built, done + outs;
  }

  /** Setup and refresh agree: a refresh with the snapshot a switch was set up from finds
      its own output again (unless an earlier output has an equal index, in which case
      that one is found). */
  lemma {:induction false} RefreshFindsOwnOutput(data: Snapshot, systemId: Json, outs: seq<Json>, i: int)
    requires systemId in data.systems
    requires Get(data.systems[systemId].details, "outs", JArr([])) == Ok(JArr(outs))
    requires 0 <= i < |outs| && outs[i].JObj?
    requires forall j :: 0 <= j < i ==> PassesOver(outs, j, "index", Field(outs[i].fields, "index"))
    ensures FindOutput(data, systemId, Field(outs[i].fields, "index")) == Ok(Some(outs[i].fields))
  {
    var want := Field(outs[i].fields, "index");
    PyEqReflexive(want);
    FindFirstAt(outs, "index", want, i);
  }
}
