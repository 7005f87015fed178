/** The process map of the runner manager: one goroutine per pool, and the metrics they leave. */
module RunnerManager {
  import opened Base
  import opened ManagerPass
  import opened RunnerMetrics

  // The entry of a pool: its goroutine and the runner names of its last pass.
  datatype Process = Process(id: nat, prevRunnerNames: seq<string>)

  method DifferenceOf(prev: seq<string>, current: seq<string>) returns (ret: seq<string>)
    ensures ret == Difference(prev, Names(current))
  {
    var present: set<string> := {};
    for i := 0 to |current|
      invariant present == Names(current[..i])
    {
      assert Names(current[..i + 1]) == Names(current[..i]) + {current[i]};
      present := present + {current[i]};
    }
    assert current[..|current|] == current;
    ret := [];
    for i := 0 to |prev|
      invariant ret == Difference(prev[..i], Names(current))
    {
      assert prev[..i + 1][..i] == prev[..i];
      if prev[i] !in present {
        ret := ret + [prev[i]];
      }
    }
    assert prev[..|prev|] == prev;
  }

  // The entry has a live goroutine of its own pool, and its last names are its metrics.
  ghost predicate EntryLive(ix: Index, entries: map<string, Process>, goroutines: map<nat, string>, key: string)
    requires key in entries
  {
    var p := entries[key];
    p.id in goroutines && goroutines[p.id] == key && Names(p.prevRunnerNames) == LabelsOf(ix, key)
  }

  // The goroutine is the one of its pool's entry.
  ghost predicate Owned(entries: map<string, Process>, goroutines: map<nat, string>, id: nat)
    requires id in goroutines
  {
    goroutines[id] in entries && entries[goroutines[id]].id == id
  }

  /** The books of a manager that has not been stopped: entries and goroutines match one to one, every
      entry's last runner names are its metrics, and there are no metrics but those. */
  ghost predicate Consistent(ix: Index, entries: map<string, Process>, goroutines: map<nat, string>, nextId: nat) {
    && Agrees(ix)
    && (forall key :: key in entries ==> EntryLive(ix, entries, goroutines, key))
    && (forall id :: id in goroutines ==> Owned(entries, goroutines, id) && id < nextId)
    && (forall key :: key in ix.labels ==> key in entries)
  }

  /** No pool ever has two live goroutines. */
  lemma OneGoroutinePerPool(ix: Index, entries: map<string, Process>, goroutines: map<nat, string>, nextId: nat, a: nat, b: nat)
    requires Consistent(ix, entries, goroutines, nextId)
    requires a in goroutines && b in goroutines && goroutines[a] == goroutines[b]
    ensures a == b
  {
    assert Owned(entries, goroutines, a) && Owned(entries, goroutines, b);
  }

  lemma StartConsistent(ix: Index, entries: map<string, Process>, goroutines: map<nat, string>, nextId: nat, key: string)
    requires Consistent(ix, entries, goroutines, nextId) && key !in entries
    ensures Consistent(ix, entries[key := Process(nextId, [])], goroutines[nextId := key], nextId + 1)
    ensures nextId !in goroutines
  {
    hide Agrees;
    var entries' := entries[key := Process(nextId, [])];
    var goroutines' := goroutines[nextId := key];
    forall k | k in entries'
      ensures EntryLive(ix, entries', goroutines', k)
    {
      assert k != key ==> EntryLive(ix, entries, goroutines, k);
    }
    forall id | id in goroutines'
      ensures Owned(entries', goroutines', id)
    {
      assert id != nextId ==> Owned(entries, goroutines, id);
    }
  }

  lemma DropPool(ix: Index, key: string)
    requires Agrees(ix)
    ensures var v := Drop(ix, key, LabelsOf(ix, key));
            && Agrees(v) && key !in v.labels
            && (forall p :: p in v.labels ==> p in ix.labels)
            && (forall p :: p != key ==> LabelsOf(v, p) == LabelsOf(ix, p))
  {
    hide Agrees;
    DropAgrees(ix, key, LabelsOf(ix, key));
    assert LabelsOf(ix, key) - LabelsOf(ix, key) == {};
  }

  // Of the goroutines, only the entry's own works for its pool.
  lemma OthersOwned(entries: map<string, Process>, goroutines: map<nat, string>, nextId: nat, key: string)
    requires key in entries && forall id :: id in goroutines ==> Owned(entries, goroutines, id) && id < nextId
    ensures forall id :: id in goroutines && id != entries[key].id ==>
              goroutines[id] != key && Owned(entries - {key}, goroutines - {entries[key].id}, id)
  {
    forall id | id in goroutines && id != entries[key].id
      ensures goroutines[id] != key && Owned(entries - {key}, goroutines - {entries[key].id}, id)
    {
      assert Owned(entries, goroutines, id);
    }
  }

  lemma OtherEntry(entries: map<string, Process>, goroutines: map<nat, string>, key: string, k: string)
    requires key in entries && k in entries && k != key
    requires entries[k].id in goroutines && goroutines[entries[k].id] == k
    requires entries[key].id in goroutines && goroutines[entries[key].id] == key
    ensures entries[k].id != entries[key].id
  {
  }

  lemma StopConsistent(ix: Index, entries: map<string, Process>, goroutines: map<nat, string>, nextId: nat, key: string)
    requires Consistent(ix, entries, goroutines, nextId) && key in entries
    ensures entries[key].id in goroutines && goroutines[entries[key].id] == key
    ensures var v := Drop(ix, key, LabelsOf(ix, key));
            && Consistent(v, entries - {key}, goroutines - {entries[key].id}, nextId)
            && forall p :: p != key ==> LabelsOf(v, p) == LabelsOf(ix, p)
    ensures forall id :: id in goroutines && id != entries[key].id ==> goroutines[id] != key
  {
    hide Agrees, Drop, Owned;
    var v := Drop(ix, key, LabelsOf(ix, key));
    var id0 := entries[key].id;
    DropPool(ix, key);
    assert EntryLive(ix, entries, goroutines, key);
    OthersOwned(entries, goroutines, nextId, key);
    forall k | k in entries - {key}
      ensures EntryLive(v, entries - {key}, goroutines - {id0}, k)
    {
      assert EntryLive(ix, entries, goroutines, k);
      OtherEntry(entries, goroutines, key, k);
    }
  }

  // A refresh gives an inner set to no pool but its own.
  lemma RefreshLabels(ix: Index, key: string, list: seq<GithubRunner>, prev: set<string>)
    requires Agrees(ix) && LabelsOf(ix, key) == prev
    ensures var v := Refresh(ix, key, list, prev);
            && LabelsOf(v, key) == LastListed(list).Keys
            && (forall p :: p != key ==> LabelsOf(v, p) == LabelsOf(ix, p))
            && (forall p :: p in v.labels && p != key ==> p in ix.labels)
  {
    hide Refresh, PutAll, Drop;
    RefreshAgrees(ix, key, list, prev);
    var v := Refresh(ix, key, list, prev);
    forall p | p in v.labels && p != key
      ensures p in ix.labels
    {
      assert LabelsOf(v, p) == LabelsOf(ix, p);
    }
  }

  lemma RefreshConsistent(ix: Index, entries: map<string, Process>, goroutines: map<nat, string>, nextId: nat,
                          key: string, list: seq<GithubRunner>, current: seq<string>)
    requires Consistent(ix, entries, goroutines, nextId) && key in entries
    requires Names(current) == LastListed(list).Keys
    ensures var v := Refresh(ix, key, list, Names(entries[key].prevRunnerNames));
            && Consistent(v, entries[key := entries[key].(prevRunnerNames := current)], goroutines, nextId)
            && Mirrors(v, ix, key, list)
  {
    hide Agrees, Refresh, Mirrors, LastListed;
    assert EntryLive(ix, entries, goroutines, key);
    var prev := Names(entries[key].prevRunnerNames);
    var v := Refresh(ix, key, list, prev);
    var entries' := entries[key := entries[key].(prevRunnerNames := current)];
    RefreshIsExact(ix, key, list, prev);
    RefreshLabels(ix, key, list, prev);
    forall k | k in entries'
      ensures EntryLive(v, entries', goroutines, k)
    {
      assert EntryLive(ix, entries, goroutines, k);
    }
    forall id | id in goroutines
      ensures Owned(entries', goroutines, id)
    {
      assert Owned(entries, goroutines, id);
    }
  }

  lemma ConsistentAgrees(ix: Index, entries: map<string, Process>, goroutines: map<nat, string>, nextId: nat, key: string)
    requires Consistent(ix, entries, goroutines, nextId)
    ensures Agrees(ix)
    ensures key in entries ==> Names(entries[key].prevRunnerNames) == LabelsOf(ix, key)
  {
    assert key in entries ==> EntryLive(ix, entries, goroutines, key);
  }

  lemma NobodyLeft(ix: Index, entries: map<string, Process>, goroutines: map<nat, string>, nextId: nat)
    requires Consistent(ix, entries, goroutines, nextId) && entries == map[]
    ensures goroutines == map[] && ix.labels == map[] && Agrees(ix)
  {
    assert forall id :: id in goroutines ==> Owned(entries, goroutines, id);
  }

  lemma PutAllOfNothing(ix: Index, key: string, list: seq<GithubRunner>)
    ensures PutAll(ix, key, list[..0]) == ix && LastListed(list[..0]).Keys == {}
  {
  }

  lemma PutAllStep(ix: Index, key: string, list: seq<GithubRunner>, i: nat)
    requires i < |list|
    ensures PutAll(ix, key, list[..i + 1]) ==
              Put(PutAll(ix, key, list[..i]), key, list[i].name, list[i].online, list[i].busy)
    ensures LastListed(list[..i + 1]).Keys == LastListed(list[..i]).Keys + {list[i].name}
  {
    assert list[..i + 1][..i] == list[..i];
  }

  /** The manager. Every exported method holds one mutex from beginning to end. */
  class Manager {
    const metrics: Metrics
    var stopped: bool
    // None is the nil map that StopAll leaves behind.
    var processes: Option<map<string, Process>>
    // The goroutines that have not ended, and the pool each of them works for.
    var goroutines: map<nat, string>
    var nextId: nat

    ghost predicate Valid()
      reads this, metrics
    {
      && (stopped <==> processes.None?)
      && if processes.None? then
           goroutines == map[] && metrics.labels == map[] && Agrees(metrics.View())
         else
           Consistent(metrics.View(), processes.value, goroutines, nextId)
    }

    constructor (metrics: Metrics)
      requires metrics.View() == Index(map[], map[], map[])
      ensures Valid() && !stopped && processes == Some(map[]) && goroutines == map[] && this.metrics == metrics
    {
      this.metrics := metrics;
      stopped, processes, goroutines, nextId := false, Some(map[]), map[], 0;
    }

    /** Starts a goroutine for a pool without an entry; otherwise only passes on the settings. It fails
        after StopAll, and a failure starts nothing. */
    method StartOrUpdate(key: string, factoryOk: bool, newOk: bool, updateOk: bool) returns (ok: bool)
      requires Valid()
      modifies this
      ensures Valid() && stopped == old(stopped)
      ensures ok == (!stopped && if key in old(processes).value then updateOk else factoryOk && newOk)
      ensures ok && key !in old(processes).value ==>
                old(nextId) !in old(goroutines) && goroutines == old(goroutines)[old(nextId) := key]
                && processes == Some(old(processes.value)[key := Process(old(nextId), [])])
      ensures !ok || key in old(processes).value ==> goroutines == old(goroutines) && processes == old(processes)
    {
      hide Consistent;
      if stopped {
        return false;
      }
      if key !in processes.value {
        if !factoryOk {
          return false;
        }
        if !newOk {
          return false;
        }
        StartConsistent(metrics.View(), processes.value, goroutines, nextId, key);
        var process := Process(nextId, []);
        goroutines := goroutines[process.id := key];
        nextId := nextId + 1;
        processes := Some(processes.value[key := process]);
        return true;
      }
      return updateOk;
    }

    /** Cancels the goroutine of an entry and waits for it. Its last acts delete the pool's metrics;
        it returns nil, so that the wait cannot fail. */
    method StopProcess(key: string) returns (failed: bool)
      requires Agrees(metrics.View()) && processes.Some? && key in processes.value
      requires processes.value[key].id in goroutines
      modifies this`goroutines, metrics
      ensures !failed
      ensures goroutines == old(goroutines) - {processes.value[key].id}
      ensures metrics.View() == Drop(old(metrics.View()), key, LabelsOf(old(metrics.View()), key)) && key !in metrics.labels
      ensures metrics.replicas == old(metrics.replicas) - {key}
    {
      metrics.DeleteAllRunnerMetrics(key);
      metrics.DeleteRunnerPoolMetrics(key);
      goroutines := goroutines - {processes.value[key].id};
      failed := false;
    }

    /** Stop always succeeds, leaves no entry, no goroutine and no metrics of that pool, and does not
        touch any other pool. */
    method Stop(key: string) returns (ok: bool)
      requires Valid()
      modifies this, metrics
      ensures Valid() && ok && stopped == old(stopped)
      ensures processes.Some? ==> processes.value == old(processes.value) - {key}
      ensures forall id :: id in goroutines <==> id in old(goroutines) && old(goroutines)[id] != key
      ensures key !in metrics.labels
      ensures forall p :: p != key ==> LabelsOf(metrics.View(), p) == LabelsOf(old(metrics.View()), p)
    {
      hide Agrees, Drop, EntryLive;
      ok := true;
      if processes.Some? && key in processes.value {
        hide Consistent;
        ConsistentAgrees(metrics.View(), processes.value, goroutines, nextId, key);
        StopConsistent(metrics.View(), processes.value, goroutines, nextId, key);
        var failed := StopProcess(key);
        if failed {
          return false;
        }
        processes := Some(processes.value - {key});
      } else if processes.Some? {
        assert forall id :: id in goroutines ==> Owned(processes.value, goroutines, id);
        assert processes.value - {key} == processes.value;
      }
    }

    /** StopAll ends every goroutine and drops all metrics; from then on nothing can start. */
    method StopAll()
      requires Valid()
      modifies this, metrics
      ensures Valid() && stopped && processes == None && goroutines == map[] && metrics.labels == map[]
    {
      hide Agrees, Drop, Consistent;
      if processes.Some? {
        var todo := processes.value.Keys;
        ghost var left := processes.value;
        while todo != {}
          invariant processes == old(processes) && processes.Some? && nextId == old(nextId)
          invariant left.Keys == todo && todo <= processes.value.Keys
          invariant forall k :: k in left ==> left[k] == processes.value[k]
          invariant Consistent(metrics.View(), left, goroutines, nextId)
          decreases todo
        {
          var key :| key in todo;
          ConsistentAgrees(metrics.View(), left, goroutines, nextId, key);
          StopConsistent(metrics.View(), left, goroutines, nextId, key);
          var failed := StopProcess(key);
          todo := todo - {key};
          left := left - {key};
        }
        NobodyLeft(metrics.View(), left, goroutines, nextId);
      }
      processes := None;
      stopped := true;
    }

    /** The metrics part of one pass of the pool's goroutine: afterwards the pool's series are exactly
        the listed runners, with their last listed values, and no other pool has changed. */
    method UpdateMetrics(key: string, replicas: int, list: seq<GithubRunner>)
      requires Valid() && processes.Some? && key in processes.value
      modifies this`processes, metrics
      ensures Valid() && goroutines == old(goroutines)
      ensures Mirrors(metrics.View(), old(metrics.View()), key, list)
      ensures metrics.replicas == old(metrics.replicas)[key := replicas]
    {
      hide Agrees, Refresh, PutAll, Drop, Mirrors, LastListed, Consistent, Difference;
      ghost var ix := metrics.View();
      var p := processes.value[key];
      ConsistentAgrees(ix, processes.value, goroutines, nextId, key);

      metrics.UpdateRunnerPoolMetrics(key, replicas);
      var current: seq<string> := [];
      PutAllOfNothing(ix, key, list);
      for i := 0 to |list|
        invariant processes == old(processes)
        invariant metrics.View() == PutAll(ix, key, list[..i])
        invariant Names(current) == LastListed(list[..i]).Keys
        invariant metrics.replicas == old(metrics.replicas)[key := replicas]
      {
        PutAllStep(ix, key, list, i);
        metrics.UpdateRunnerMetrics(key, list[i].name, list[i].online, list[i].busy);
        assert Names(current + [list[i].name]) == Names(current) + {list[i].name};
        current := current + [list[i].name];
      }
      assert list[..|list|] == list;
      PutAllAgrees(ix, key, list);

      var removedRunners := DifferenceOf(p.prevRunnerNames, current);
      assert Names(removedRunners) == Names(p.prevRunnerNames) - LastListed(list).Keys;
      metrics.DeleteRunnerMetrics(key, removedRunners);
      RefreshIsPutAndDrop(ix, key, list, Names(p.prevRunnerNames));
      RefreshConsistent(ix, processes.value, goroutines, nextId, key, list, current);
      processes := Some(processes.value[key := p.(prevRunnerNames := current)]);
    }
  }
}
