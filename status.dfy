/**
 * The status manager (modules/diag/status): components report a status
 * under a key; reporting a map status again merges it with the previous
 * map, the new entries winning.
 */
module Status {
  import opened Wrappers

  const TaskManagerKey := "Task Manager"

  /** A reported status: a plain string, or a map of sub-statuses. */
  datatype Status = Str(s: string) | MapStatus(m: map<string, string>)

  /** An entry of the status listing: a reported status, or the TaskManager's own. */
  datatype Entry = Reported(status: Status) | TaskManagerEntry(tasks: map<string, string>)

  /** The status stored after `msg` is reported over `prev`: Delta of the source. */
  function DeltaOf(msg: Status, prev: Status): (r: Status)
    ensures msg.Str? ==> r == msg
    ensures msg.MapStatus? && prev.Str? ==> r == msg
    ensures msg.MapStatus? && prev.MapStatus? ==> (r.MapStatus? &&
      r.m.Keys == msg.m.Keys + prev.m.Keys &&
      (forall k :: k in msg.m ==> r.m[k] == msg.m[k]) &&
      (forall k :: k in prev.m && k !in msg.m ==> r.m[k] == prev.m[k]))
  {
    if msg.MapStatus? && prev.MapStatus? then MapStatus(prev.m + msg.m) else msg
  }

  /**
   * Map.Delta: copy every entry of the old map whose key the new map lacks.
   * The loop visits the old keys in an arbitrary order.
   */
  method MapDelta(m: map<string, string>, prev: Status) returns (r: map<string, string>)
    ensures MapStatus(r) == DeltaOf(MapStatus(m), prev)
  {
    r := m;
    if !prev.MapStatus? {
      return;
    }
    var was := prev.m;
    var todo := was.Keys;
    while todo != {}
      invariant todo <= was.Keys
      invariant r.Keys == m.Keys + (was.Keys - todo)
      invariant forall k :: k in m ==> r[k] == m[k]
      invariant forall k :: k in was && k !in todo && k !in m ==> r[k] == was[k]
      decreases todo
    {
      var k :| k in todo;
      if k !in r {
        r := r[k := was[k]];
      }
      todo := todo - {k};
    }
    assert r == was + m;
  }

  /** The stored map after reporting the maps `ms` in order under one key: later entries win. */
  function Accumulate(ms: seq<map<string, string>>): map<string, string>
  {
    if ms == [] then map[] else Accumulate(ms[..|ms| - 1]) + ms[|ms| - 1]
  }

  /** Index of the last map in `ms` that has key k, if any. */
  function LastWith(ms: seq<map<string, string>>, k: string): (r: Option<nat>)
    ensures r.Some? ==> r.value < |ms| && k in ms[r.value] && forall j :: r.value < j < |ms| ==> k !in ms[j]
    ensures r.None? ==> forall j :: 0 <= j < |ms| ==> k !in ms[j]
  {
    if ms == [] then None
    else if k in ms[|ms| - 1] then Some(|ms| - 1)
    else LastWith(ms[..|ms| - 1], k)
  }

  /**
   * Reporting map statuses one after another keeps every key ever reported,
   * with the value of the last report that carried it.
   */
  lemma {:induction false} AccumulateLastWins(ms: seq<map<string, string>>, k: string)
    ensures k in Accumulate(ms) <==> LastWith(ms, k).Some?
    ensures k in Accumulate(ms) ==> Accumulate(ms)[k] == ms[LastWith(ms, k).value][k]
  {
    if ms != [] {
      AccumulateLastWins(ms[..|ms| - 1], k);
    }
  }

  /** The reports ms, made in order under one key, leave MapStatus(Accumulate(ms)). */
  function ReportMaps(prev: Option<Status>, ms: seq<map<string, string>>): Option<Status>
  {
    if ms == [] then prev
    else
      var before := ReportMaps(prev, ms[..|ms| - 1]);
      Some(if before.None? then MapStatus(ms[|ms| - 1]) else DeltaOf(MapStatus(ms[|ms| - 1]), before.value))
  }

  lemma {:induction false} ReportMapsAccumulates(ms: seq<map<string, string>>)
    requires ms != []
    ensures ReportMaps(None, ms) == Some(MapStatus(Accumulate(ms)))
  {
    var n := |ms| - 1;
    if n == 0 {
      assert ms[..0] == [];
      assert map[] + ms[0] == ms[0];
    } else {
      ReportMapsAccumulates(ms[..n]);
      assert ms[..n][..n - 1] == ms[..n - 1];
    }
  }

  /** The manager's map after `msg` is reported under `key`. */
  function AfterReport(mp: map<string, Status>, key: string, msg: Status): (r: map<string, Status>)
    ensures r.Keys == mp.Keys + {key}
    ensures forall k :: k in mp && k != key ==> r[k] == mp[k]
    ensures key !in mp ==> r[key] == msg
    ensures key in mp ==> r[key] == DeltaOf(msg, mp[key])
  {
    mp[key := if key in mp then DeltaOf(msg, mp[key]) else msg]
  }

  /** The manager: a concurrent map from keys to the last status stored under them. */
  class Manager {
    var mp: map<string, Status>

    constructor ()
      ensures mp == map[]
    {
      mp := map[];
    }

    /** Report: store msg, or, when the key holds a status, its Delta over that status. */
    method Report(key: string, msg: Status)
      modifies this
      ensures mp == AfterReport(old(mp), key, msg)
    {
      if key !in mp {
        mp := mp[key := msg];
        return;
      }
      var stored := msg;
      if msg.MapStatus? {
        var merged := MapDelta(msg.m, mp[key]);
        stored := MapStatus(merged);
      }
      mp := mp[key := stored];
    }

    /** Status: every stored status, then the TaskManager's entry under "Task Manager". */
    method Status(tasks: map<string, string>) returns (r: map<string, Entry>)
      ensures r.Keys == mp.Keys + {TaskManagerKey}
      ensures r[TaskManagerKey] == TaskManagerEntry(tasks)
      ensures forall k :: k in mp && k != TaskManagerKey ==> r[k] == Reported(mp[k])
    {
      r := map[];
      var todo := mp.Keys;
      while todo != {}
        invariant todo <= mp.Keys
        invariant r.Keys == mp.Keys - todo
        invariant forall k :: k in r ==> r[k] == Reported(mp[k])
        decreases todo
      {
        var k :| k in todo;
        r := r[k := Reported(mp[k])];
        todo := todo - {k};
      }
      r := r[TaskManagerKey := TaskManagerEntry(tasks)];
    }
  }
}
