/** The coordinator's refresh (`async_update_data`): list the systems, fetch the details
    of every system whose id is truthy, and key the results by system id. Any exception
    on the way fails the whole refresh; there is no partial snapshot. */
module Coordinator {
  import opened PyJson
  import opened Api

  /** `{"info": system, "details": details}`. */
  datatype SystemEntry = SystemEntry(info: Json, details: Json)

  /** The dict the refresh returns: its keys in insertion order, and its contents. */
  datatype Snapshot = Snapshot(order: seq<Json>, systems: map<Json, SystemEntry>)

  /** The insertion order lists each key of the dict exactly once. */
  ghost predicate WellFormed(s: Snapshot) {
    (forall i, j :: 0 <= i < j < |s.order| ==> s.order[i] != s.order[j]) &&
    (forall i :: 0 <= i < |s.order| ==> s.order[i] in s.systems) &&
    (forall k :: k in s.systems ==> k in s.order)
  }

  function Empty(): (s: Snapshot)
    ensures WellFormed(s) && s.systems == map[]
  {
    Snapshot([], map[])
  }

  /** `data[k] = e`: a new key goes last, an existing key keeps its place. */
  function Insert(s: Snapshot, k: Json, e: SystemEntry): Snapshot {
    Snapshot(if k in s.systems then s.order else s.order + [k], s.systems[k := e])
  }

  /** The keys of a dict's items are pairwise distinct. */
  predicate DistinctKeys(items: seq<(Json, SystemEntry)>) {
    forall i, j :: 0 <= i < j < |items| ==> items[i].0 != items[j].0
  }

  /** `data.items()`: every key with its value, in insertion order, each key once. */
  function Items(s: Snapshot): (r: seq<(Json, SystemEntry)>)
    requires WellFormed(s)
    ensures |r| == |s.order| && DistinctKeys(r)
    ensures forall i :: 0 <= i < |r| ==> r[i].0 == s.order[i] && r[i].0 in s.systems && r[i].1 == s.systems[r[i].0]
    ensures forall k :: k in s.systems ==> exists i :: 0 <= i < |r| && r[i].0 == k
  {
    var r := seq(|s.order|, i requires 0 <= i < |s.order| => (s.order[i], s.systems[s.order[i]]));
    assert forall k :: k in s.systems ==> exists i :: 0 <= i < |r| && r[i].0 == k by {
      forall k | k in s.systems ensures exists i :: 0 <= i < |r| && r[i].0 == k {
        var i :| 0 <= i < |s.order| && s.order[i] == k;
        assert r[i].0 == k;
      }
    }
    r
  }

  lemma InsertPreservesWellFormed(s: Snapshot, k: Json, e: SystemEntry)
    requires WellFormed(s)
    ensures WellFormed(Insert(s, k, e))
    ensures Insert(s, k, e).systems.Keys == s.systems.Keys + {k}
    ensures k in s.systems ==> Insert(s, k, e).order == s.order
  {
  }

  /** `system_list`: the `list_systems` entry when `"list_systems" in systems`, else the
      answer itself when it is a list, else an empty list. The test is Python's `in`, so a
      list or str that contains "list_systems" is subscripted with a str and raises
      TypeError, and an answer that is not a container raises TypeError at the test. */
  function SystemList(systems: Json): (r: Result<Json>)
    ensures systems.JObj? && "list_systems" in systems.fields ==> r == Ok(systems.fields["list_systems"])
    ensures systems.JObj? && "list_systems" !in systems.fields ==> r == Ok(JArr([]))
    ensures systems.JArr? ==>
      r == if JStr("list_systems") in systems.elems then Raise(TypeError) else Ok(systems)
    ensures systems.JStr? ==>
      r == if IsSubstring("list_systems", systems.s) then Raise(TypeError) else Ok(JArr([]))
    ensures r.Raise? ==> r.exc == TypeError
    ensures r.Ok? ==> systems.JArr? || systems.JObj? || systems.JStr?
  {
    match In("list_systems", systems)
    case Raise(e) => Raise(e)
    case Ok(present) =>
      if present then Subscript(systems, "list_systems")
      else Ok(if systems.JArr? then systems else JArr([]))
  }

  /** The records the loop visits: `for system in system_list`. */
  function Records(listed: Result<Json>): Result<seq<Json>> {
    var systems :- listed;
    var list :- SystemList(systems);
    LoopItems(list)
  }

  /** `system.get("id")` for a record known to be a dict. */
  function IdOf(rec: Json): Json {
    if rec.JObj? then Field(rec.fields, "id") else JNull
  }

  /** The record is fetched: it is a dict whose id is truthy. */
  predicate Fetched(rec: Json) {
    rec.JObj? && Truthy(IdOf(rec))
  }

  /** The loop passes the record without raising: it is a dict, and if its id is truthy
      the detail fetch succeeded and the id can be a dict key. */
  predicate Accepted(rec: Json, out: Result<Json>) {
    rec.JObj? && (Truthy(IdOf(rec)) ==> out.Ok? && Hashable(IdOf(rec)))
  }

  /** The exception a record that is not accepted raises. */
  function Rejection(rec: Json, out: Result<Json>): Exc {
    if !rec.JObj? then AttributeError
    else if out.Raise? then out.exc
    else TypeError
  }

  /** The loop's state: the dict built so far and the detail fetches made (with what
      each returned), or the exception that ended the loop. */
  datatype Progress =
    | Running(snap: Snapshot, calls: seq<Logged>)
    | Failed(cause: Exc, calls: seq<Logged>)

  /** One iteration on `rec`, where `out` is what `get_pool_details(sys_id)` returns if it
      is called. The value is computed before the key is hashed, so an unhashable id
      raises only after its details were fetched. */
  function Step(p: Progress, rec: Json, out: Result<Json>): (q: Progress)
    ensures p.Failed? ==> q == p
    ensures p.Running? ==> (q.Running? <==> Accepted(rec, out))
    ensures p.Running? && !Accepted(rec, out) ==> q.cause == Rejection(rec, out)
    ensures p.Running? ==>
      q.calls == p.calls + (if Fetched(rec) then [Logged(PoolDetailsRequest(IdOf(rec)), out)] else [])
  {
    match p
    case Failed(_, _) => p
    case Running(snap, calls) =>
      match Get(rec, "id", JNull)
      case Raise(e) => Failed(e, calls)
      case Ok(id) =>
        if !Truthy(id) then p
        else
          var calls' := calls + [Logged(PoolDetailsRequest(id), out)];
          match out
          case Raise(e) => Failed(e, calls')
          case Ok(details) =>
            if !Hashable(id) then Failed(TypeError, calls')
            else Running(Insert(snap, id, SystemEntry(rec, details)), calls')
  }

  /** The loop over `recs`, where `outs[i]` is what the detail fetch for `recs[i]`
      returns if it is made. */
  function Fold(recs: seq<Json>, outs: seq<Result<Json>>): Progress
    requires |outs| == |recs|
    decreases |recs|
  {
    if recs == [] then Running(Empty(), [])
    else
      var n := |recs| - 1;
      Step(Fold(recs[..n], outs[..n]), recs[n], outs[n])
  }

  /** What the coordinator receives: the new data, or UpdateFailed carrying the cause. */
  datatype UpdateResult = Updated(snap: Snapshot) | UpdateFailed(cause: Exc)

  function Conclude(p: Progress): UpdateResult {
    match p
    case Running(snap, _) => Updated(snap)
    case Failed(cause, _) => UpdateFailed(cause)
  }

  // ---------------------------------------------------------------- properties of the loop

  lemma FoldLast(recs: seq<Json>, outs: seq<Result<Json>>, rec: Json, out: Result<Json>)
    requires |outs| == |recs|
    ensures Fold(recs + [rec], outs + [out]) == Step(Fold(recs, outs), rec, out)
  {
    assert (recs + [rec])[..|recs|] == recs;
    assert (outs + [out])[..|recs|] == outs;
  }

  /** Once the loop has raised, later records change nothing: no further fetches. */
  lemma {:induction false} FailureIsSticky(recs: seq<Json>, outs: seq<Result<Json>>, k: nat)
    requires |outs| == |recs| && k <= |recs|
    requires Fold(recs[..k], outs[..k]).Failed?
    ensures Fold(recs, outs) == Fold(recs[..k], outs[..k])
    decreases |recs| - k
  {
    if k < |recs| {
      FoldLast(recs[..k], outs[..k], recs[k], outs[k]);
      assert recs[..k] + [recs[k]] == recs[..k + 1];
      assert outs[..k] + [outs[k]] == outs[..k + 1];
      FailureIsSticky(recs, outs, k + 1);
    } else {
      assert recs[..k] == recs && outs[..k] == outs;
    }
  }

  /** The loop runs to the end exactly when every record is accepted. */
  lemma {:induction false} FoldRunning(recs: seq<Json>, outs: seq<Result<Json>>)
    requires |outs| == |recs|
    ensures Fold(recs, outs).Running? <==> forall i :: 0 <= i < |recs| ==> Accepted(recs[i], outs[i])
    decreases |recs|
  {
    if recs != [] {
      var n := |recs| - 1;
      FoldRunning(recs[..n], outs[..n]);
      assert forall i :: 0 <= i < n ==> recs[..n][i] == recs[i] && outs[..n][i] == outs[i];
    }
  }

  /** A failed loop carries the exception of the first record that is not accepted. */
  lemma {:induction false} FoldFailure(recs: seq<Json>, outs: seq<Result<Json>>)
    requires |outs| == |recs|
    ensures Fold(recs, outs).Failed? ==>
      exists i :: 0 <= i < |recs| && !Accepted(recs[i], outs[i]) &&
        (forall j :: 0 <= j < i ==> Accepted(recs[j], outs[j])) &&
        Fold(recs, outs).cause == Rejection(recs[i], outs[i])
    decreases |recs|
  {
    if recs != [] {
      var n := |recs| - 1;
      var p := Fold(recs[..n], outs[..n]);
      FoldFailure(recs[..n], outs[..n]);
      if p.Failed? {
        var i :| 0 <= i < n && !Accepted(recs[..n][i], outs[..n][i]) &&
          (forall j :: 0 <= j < i ==> Accepted(recs[..n][j], outs[..n][j])) &&
          p.cause == Rejection(recs[..n][i], outs[..n][i]);
        assert recs[..n][i] == recs[i] && outs[..n][i] == outs[i];
        assert forall j :: 0 <= j < i ==> recs[..n][j] == recs[j] && outs[..n][j] == outs[j];
      } else if !Accepted(recs[n], outs[n]) {
        FoldRunning(recs[..n], outs[..n]);
        assert forall j :: 0 <= j < n ==> recs[..n][j] == recs[j] && outs[..n][j] == outs[j];
        assert Fold(recs, outs).cause == Rejection(recs[n], outs[n]);
      }
    }
  }

  /** All or nothing: the refresh succeeds exactly when every record is accepted, and
      otherwise fails with the exception of the first record that is not. */
  lemma FoldVerdict(recs: seq<Json>, outs: seq<Result<Json>>)
    requires |outs| == |recs|
    ensures Fold(recs, outs).Running? <==> forall i :: 0 <= i < |recs| ==> Accepted(recs[i], outs[i])
    ensures Fold(recs, outs).Failed? ==>
      exists i :: 0 <= i < |recs| && !Accepted(recs[i], outs[i]) &&
        (forall j :: 0 <= j < i ==> Accepted(recs[j], outs[j])) &&
        Fold(recs, outs).cause == Rejection(recs[i], outs[i])
  {
    FoldRunning(recs, outs);
    FoldFailure(recs, outs);
  }

  /** On success the snapshot lists each key once, in insertion order. */
  lemma {:induction false} FoldWellFormed(recs: seq<Json>, outs: seq<Result<Json>>)
    requires |outs| == |recs|
    requires Fold(recs, outs).Running?
    ensures WellFormed(Fold(recs, outs).snap)
    decreases |recs|
  {
    if recs != [] {
      var n := |recs| - 1;
      var p := Fold(recs[..n], outs[..n]);
      FoldWellFormed(recs[..n], outs[..n]);
      if Fetched(recs[n]) {
        InsertPreservesWellFormed(p.snap, IdOf(recs[n]), SystemEntry(recs[n], outs[n].value));
      }
    }
  }

  /** On success every fetched record's id is a key, and nothing else is. */
  lemma {:induction false} FoldKeys(recs: seq<Json>, outs: seq<Result<Json>>)
    requires |outs| == |recs|
    requires Fold(recs, outs).Running?
    ensures forall k :: k in Fold(recs, outs).snap.systems <==>
      exists i :: 0 <= i < |recs| && Fetched(recs[i]) && IdOf(recs[i]) == k
    decreases |recs|
  {
    if recs != [] {
      var n := |recs| - 1;
      FoldKeys(recs[..n], outs[..n]);
      assert forall i :: 0 <= i < n ==> recs[..n][i] == recs[i];
    }
  }

  /** On success the entry of each key comes from the last record carrying that id. */
  lemma {:induction false} FoldLastWins(recs: seq<Json>, outs: seq<Result<Json>>)
    requires |outs| == |recs|
    requires Fold(recs, outs).Running?
    ensures forall i :: (0 <= i < |recs| && Fetched(recs[i]) &&
        forall j :: i < j < |recs| ==> IdOf(recs[j]) != IdOf(recs[i])) ==>
      outs[i].Ok? && IdOf(recs[i]) in Fold(recs, outs).snap.systems &&
      Fold(recs, outs).snap.systems[IdOf(recs[i])] == SystemEntry(recs[i], outs[i].value)
    decreases |recs|
  {
    if recs != [] {
      var n := |recs| - 1;
      FoldLastWins(recs[..n], outs[..n]);
      assert forall i :: 0 <= i < n ==> recs[..n][i] == recs[i] && outs[..n][i] == outs[i];
    }
  }

  /** On success every fetched record's id is a key, nothing else is, and the entry of
      each key comes from the last record carrying that id. */
  lemma FoldContents(recs: seq<Json>, outs: seq<Result<Json>>)
    requires |outs| == |recs|
    requires Fold(recs, outs).Running?
    ensures WellFormed(Fold(recs, outs).snap)
    ensures forall k :: k in Fold(recs, outs).snap.systems <==>
      exists i :: 0 <= i < |recs| && Fetched(recs[i]) && IdOf(recs[i]) == k
    ensures forall i :: (0 <= i < |recs| && Fetched(recs[i]) &&
        forall j :: i < j < |recs| ==> IdOf(recs[j]) != IdOf(recs[i])) ==>
      outs[i].Ok? && Fold(recs, outs).snap.systems[IdOf(recs[i])] == SystemEntry(recs[i], outs[i].value)
  {
    FoldWellFormed(recs, outs);
    FoldKeys(recs, outs);
    FoldLastWins(recs, outs);
  }

  /** The detail fetches, independently of the loop: one per record whose id is truthy,
      in list order. */
  function FetchLog(recs: seq<Json>, outs: seq<Result<Json>>): seq<Logged>
    requires |outs| == |recs|
  {
    if recs == [] then []
    else
      (if Fetched(recs[0]) then [Logged(PoolDetailsRequest(IdOf(recs[0])), outs[0])] else [])
      + FetchLog(recs[1..], outs[1..])
  }

  lemma {:induction false} FetchLogLast(recs: seq<Json>, outs: seq<Result<Json>>, rec: Json, out: Result<Json>)
    requires |outs| == |recs|
    ensures FetchLog(recs + [rec], outs + [out]) ==
      FetchLog(recs, outs) + (if Fetched(rec) then [Logged(PoolDetailsRequest(IdOf(rec)), out)] else [])
    decreases |recs|
  {
    if recs == [] {
      assert [rec][1..] == [] && [out][1..] == [];
    } else {
      assert (recs + [rec])[1..] == recs[1..] + [rec];
      assert (outs + [out])[1..] == outs[1..] + [out];
      FetchLogLast(recs[1..], outs[1..], rec, out);
    }
  }

  /** On success, the details of exactly the records with a truthy id were fetched, once
      each and in list order; falsy ids are skipped without a call. */
  lemma {:induction false} SuccessFetchesEveryTruthyId(recs: seq<Json>, outs: seq<Result<Json>>)
    requires |outs| == |recs|
    requires Fold(recs, outs).Running?
    ensures Fold(recs, outs).calls == FetchLog(recs, outs)
    decreases |recs|
  {
    if recs != [] {
      var n := |recs| - 1;
      SuccessFetchesEveryTruthyId(recs[..n], outs[..n]);
      FetchLogLast(recs[..n], outs[..n], recs[n], outs[n]);
      assert recs[..n] + [recs[n]] == recs && outs[..n] + [outs[n]] == outs;
    }
  }

  /** Records without a truthy id contribute nothing: an empty list, or one whose every
      id is falsy, gives an empty snapshot and no fetch. */
  lemma {:induction false} NoTruthyIdsGiveEmptyData(recs: seq<Json>, outs: seq<Result<Json>>)
    requires |outs| == |recs|
    requires forall i :: 0 <= i < |recs| ==> recs[i].JObj? && !Truthy(IdOf(recs[i]))
    ensures Fold(recs, outs) == Running(Empty(), [])
    decreases |recs|
  {
    if recs != [] {
      var n := |recs| - 1;
      assert forall i :: 0 <= i < n ==> recs[..n][i] == recs[i];
      NoTruthyIdsGiveEmptyData(recs[..n], outs[..n]);
    }
  }

  // ---------------------------------------------------------------- the refresh

  /** The loop of `async_update_data` over the records. `outs[i]` is what the detail
      fetch for the i-th record returned (an unused placeholder where no fetch was
      made). */
  method FetchAll(api: KlereoApi, recs: seq<Json>) returns (r: UpdateResult, ghost outs: seq<Result<Json>>)
    modifies api`token, api`history, api.server
    ensures |outs| == |recs|
    ensures r == Conclude(Fold(recs, outs))
    ensures api.history == old(api.history) + Fold(recs, outs).calls
  {
    outs := [];
    var data := Empty();
    var i := 0;
    while i < |recs|
      invariant 0 <= i <= |recs| && |outs| == i
      invariant Fold(recs[..i], outs) == Running(data, Fold(recs[..i], outs).calls)
      invariant api.history == old(api.history) + Fold(recs[..i], outs).calls
    {
      assert recs[..i + 1] == recs[..i] + [recs[i]];
      var next, out := Visit(api, data, recs[i], Fold(recs[..i], outs).calls);
      FoldLast(recs[..i], outs, recs[i], out);
      outs := outs + [out];
      i := i + 1;
      if next.Raise? {
        outs := PadFailure(recs, outs);
        return UpdateFailed(next.exc), outs;
      }
      data := next.value;
    }
    assert recs[..i] == recs;
    r := Updated(data);
  }

  /** A loop that raised after the records before `|done|` ends the same whatever the
      fetches of the later records would have returned. */
  lemma PadFailure(recs: seq<Json>, done: seq<Result<Json>>) returns (outs: seq<Result<Json>>)
    requires |done| <= |recs| && Fold(recs[..|done|], done).Failed?
    ensures |outs| == |recs| && Fold(recs, outs) == Fold(recs[..|done|], done)
  {
    outs := done + seq(|recs| - |done|, _ => Ok(JNull));
    assert outs[..|done|] == done;
    FailureIsSticky(recs, outs, |done|);
  }

  /** The body of the loop on one record `rec`, with `data` the dict built so far and
      `calls` the fetches made so far: the new dict or the exception, and what the
      detail fetch returned (a placeholder when none is made). */
  method Visit(api: KlereoApi, data: Snapshot, rec: Json, ghost calls: seq<Logged>)
    returns (next: Result<Snapshot>, out: Result<Json>)
    modifies api`token, api`history, api.server
    ensures var fetched := if Fetched(rec) then [Logged(PoolDetailsRequest(IdOf(rec)), out)] else [];
      Step(Running(data, calls), rec, out) ==
        (if next.Ok? then Running(next.value, calls + fetched) else Failed(next.exc, calls + fetched)) &&
      api.history == old(api.history) + fetched
  {
    out := Ok(JNull);
    var sysId := Get(rec, "id", JNull);
    if sysId.Raise? {
      return Raise(sysId.exc), out;
    }
    if !Truthy(sysId.value) {
      return Ok(data), out;
    }
    out := api.GetPoolDetails(sysId.value);
    if out.Raise? {
      return Raise(out.exc), out;
    }
    if !Hashable(sysId.value) {
      return Raise(TypeError), out;
    }
    next := Ok(Insert(data, sysId.value, SystemEntry(rec, out.value)));
  }

  /** `async_update_data`. `listed` is what `get_systems` returned and `outs[i]` what
      the detail fetch for the i-th record returned (an unused placeholder where no
      fetch was made). */
  method UpdateData(api: KlereoApi) returns (r: UpdateResult, ghost listed: Result<Json>, ghost outs: seq<Result<Json>>)
    modifies api`token, api`history, api.server
    ensures Records(listed).Raise? ==>
      r == UpdateFailed(Records(listed).exc) &&
      api.history == old(api.history) + [Logged(IndexRequest(), listed)]
    ensures Records(listed).Ok? ==>
      |outs| == |Records(listed).value| &&
      r == Conclude(Fold(Records(listed).value, outs)) &&
      api.history == old(api.history) + [Logged(IndexRequest(), listed)] + Fold(Records(listed).value, outs).calls
  {
    var systems := api.GetSystems();
    listed := systems;
    outs := [];
    if systems.Raise? {
      return UpdateFailed(systems.exc), listed, outs;
    }
    var systemList: Json;
    var hasList := In("list_systems", systems.value);
    if hasList.Raise? {
      return UpdateFailed(hasList.exc), listed, outs;
    }
    if hasList.value {
      var entry := Subscript(systems.value, "list_systems");
      if entry.Raise? {
        return UpdateFailed(entry.exc), listed, outs;
      }
      systemList := entry.value;
    } else {
      systemList := if systems.value.JArr? then systems.value else JArr([]);
    }
    var items := LoopItems(systemList);
    if items.Raise? {
      return UpdateFailed(items.exc), listed, outs;
    }
    assert Records(listed) == Ok(items.value);
    r, outs := FetchAll(api, items.value);
  }
}
