/** What a whole pass does to the listed pods, said without following its control flow. */
module PassProperties {
  import opened Base
  import opened RunnerPod
  import opened ManagerPass

  ghost predicate Deletable(c: Ctx, po: KubePod, r: Replies) {
    po.running && r.status.Some? && MustDelete(c, po, r.status.value)
  }

  /** The pass dies exactly when some running pod serves "debugging" without the finish time that
      the present configuration needs. */
  lemma {:induction false} PanicsExactlyWhen(c: Ctx, b: int, items: seq<KubePod>, replies: seq<Replies>)
    requires |items| == |replies|
    ensures Pass(c, b, items, replies).panicked <==>
              exists i :: 0 <= i < |items| && items[i].running && replies[i].status.Some? && Panics(c, replies[i].status.value)
  {
    if items != [] {
      var n := |items| - 1;
      PanicsExactlyWhen(c, b, items[..n], replies[..n]);
      if Pass(c, b, items[..n], replies[..n]).panicked {
        var i :| 0 <= i < n && items[..n][i].running && replies[..n][i].status.Some? && Panics(c, replies[..n][i].status.value);
        assert items[i].running && replies[i].status.Some? && Panics(c, replies[i].status.value);
      } else {
        forall i | 0 <= i < n && items[i].running && replies[i].status.Some?
          ensures !Panics(c, replies[i].status.value)
        {
          assert items[..n][i].running && replies[..n][i].status.Some?;
        }
      }
    }
  }

  lemma VisitDeletes(c: Ctx, b: int, po: KubePod, r: Replies, name: string, applied: bool)
    requires !Visit(c, b, po, r).panicked
    ensures Delete(name, applied) in Visit(c, b, po, r).calls <==>
              Deletable(c, po, r) && name == po.name && applied == r.deleted
  {
  }

  ghost predicate DeletedAt(c: Ctx, items: seq<KubePod>, replies: seq<Replies>, i: int, name: string, applied: bool)
    requires |items| == |replies|
  {
    0 <= i < |items| && Deletable(c, items[i], replies[i]) && items[i].name == name && replies[i].deleted == applied
  }

  /** A pass asks for the deletion of exactly the pods that the rule condemns, in any order of the
      list and whatever fails on the way. */
  lemma {:induction false} DeletesByTheRule(c: Ctx, b: int, items: seq<KubePod>, replies: seq<Replies>, name: string, applied: bool)
    requires |items| == |replies| && !Pass(c, b, items, replies).panicked
    ensures Delete(name, applied) in Pass(c, b, items, replies).calls <==>
              exists i :: DeletedAt(c, items, replies, i, name, applied)
  {
    if items != [] {
      var n := |items| - 1;
      var p := Pass(c, b, items[..n], replies[..n]);
      DeletesByTheRule(c, b, items[..n], replies[..n], name, applied);
      VisitDeletes(c, p.budget, items[n], replies[n], name, applied);
      if Delete(name, applied) in p.calls {
        var i :| DeletedAt(c, items[..n], replies[..n], i, name, applied);
        assert DeletedAt(c, items, replies, i, name, applied);
      }
      if i :| DeletedAt(c, items, replies, i, name, applied) {
        assert i == n || DeletedAt(c, items[..n], replies[..n], i, name, applied);
      }
      if Delete(name, applied) in Visit(c, p.budget, items[n], replies[n]).calls {
        assert DeletedAt(c, items, replies, n, name, applied);
      }
    }
  }

  // The listed pods that no applied deletion removed.
  function Survivors(items: seq<KubePod>, calls: seq<Call>): seq<KubePod> {
    if items == [] then []
    else
      var n := |items| - 1;
      Survivors(items[..n], calls) + (if Delete(items[n].name, true) in calls then [] else [items[n]])
  }

  // The listed pods that the rule spares, in the order of the list.
  ghost function Spared(c: Ctx, items: seq<KubePod>, replies: seq<Replies>): seq<KubePod>
    requires |items| == |replies|
  {
    if items == [] then []
    else
      var n := |items| - 1;
      Spared(c, items[..n], replies[..n]) + (if Deletable(c, items[n], replies[n]) then [] else [items[n]])
  }

  ghost predicate Distinct(items: seq<KubePod>) {
    forall i, j :: 0 <= i < j < |items| ==> items[i].name != items[j].name
  }

  lemma {:induction false} SurvivorsAgree(c: Ctx, items: seq<KubePod>, replies: seq<Replies>, calls: seq<Call>)
    requires |items| == |replies|
    requires forall i :: 0 <= i < |items| ==> (Delete(items[i].name, true) in calls <==> Deletable(c, items[i], replies[i]))
    ensures Survivors(items, calls) == Spared(c, items, replies)
  {
    if items != [] {
      var n := |items| - 1;
      forall i | 0 <= i < n
        ensures Delete(items[..n][i].name, true) in calls <==> Deletable(c, items[..n][i], replies[..n][i])
      {
        assert Delete(items[i].name, true) in calls <==> Deletable(c, items[i], replies[i]);
      }
      SurvivorsAgree(c, items[..n], replies[..n], calls);
    }
  }

  /** When every deletion succeeds the survivors of a pass are exactly the filter of the list by the
      deletion rule. */
  lemma SurvivorsAreSpared(c: Ctx, b: int, items: seq<KubePod>, replies: seq<Replies>)
    requires |items| == |replies| && Distinct(items)
    requires forall i :: 0 <= i < |replies| ==> replies[i].deleted
    requires !Pass(c, b, items, replies).panicked
    ensures Survivors(items, Pass(c, b, items, replies).calls) == Spared(c, items, replies)
  {
    var calls := Pass(c, b, items, replies).calls;
    forall i | 0 <= i < |items|
      ensures Delete(items[i].name, true) in calls <==> Deletable(c, items[i], replies[i])
    {
      DeletesByTheRule(c, b, items, replies, items[i].name, true);
      if j :| DeletedAt(c, items, replies, j, items[i].name, true) {
        assert j == i;
      } else {
        assert replies[i].deleted;
        assert !DeletedAt(c, items, replies, i, items[i].name, true);
      }
    }
    SurvivorsAgree(c, items, replies, calls);
  }

  // The pods released from their ReplicaSet, in order.
  function UnlinkedNames(calls: seq<Call>): seq<string> {
    if calls == [] then []
    else
      var n := |calls| - 1;
      var last := calls[n];
      UnlinkedNames(calls[..n]) + (if last.Unlink? && last.ok then [last.base.name] else [])
  }

  lemma {:induction false} UnlinkedNamesConcat(a: seq<Call>, b: seq<Call>)
    ensures UnlinkedNames(a + b) == UnlinkedNames(a) + UnlinkedNames(b)
  {
    if b == [] {
      assert a + b == a;
    } else {
      var n := |b| - 1;
      UnlinkedNamesConcat(a, b[..n]);
      assert (a + b)[..|a| + n] == a + b[..n];
    }
  }

  lemma {:induction false} NothingUnlinked(calls: seq<Call>)
    requires forall k :: k in calls ==> !(k.Unlink? && k.ok)
    ensures UnlinkedNames(calls) == []
  {
    if calls != [] {
      NothingUnlinked(calls[..|calls| - 1]);
    }
  }

  /** A pod that the pass may release: in use, spared, still labelled, and every update that comes
      before the release, and the release itself, goes through. */
  ghost predicate Candidate(c: Ctx, po: KubePod, r: Replies) {
    && po.running && r.status.Some? && !MustDelete(c, po, r.status.value) && InUse(c, po, r.status.value)
    && HASH_LABEL in po.labels && r.unlink
    && (NeedProtection(po, r) ==> r.pdb && r.relabel)
  }

  ghost function Candidates(c: Ctx, items: seq<KubePod>, replies: seq<Replies>): (names: seq<string>)
    requires |items| == |replies|
    ensures |names| <= |items|
  {
    if items == [] then []
    else
      var n := |items| - 1;
      Candidates(c, items[..n], replies[..n]) + (if Candidate(c, items[n], replies[n]) then [items[n].name] else [])
  }

  lemma AdoptUnlinks(b: int, po: KubePod, r: Replies)
    ensures var v := Adopt(b, po, r);
            && UnlinkedNames(v.calls) == (if b > 0 && HASH_LABEL in po.labels && r.unlink
                                             && (NeedProtection(po, r) ==> r.pdb && r.relabel) then [po.name] else [])
            && v.budget == b - |UnlinkedNames(v.calls)|
  {
    var v := Adopt(b, po, r);
    LabelKeysDiffer();
    if v.calls != [] && v.calls[|v.calls| - 1].Unlink? {
      var n := |v.calls| - 1;
      NothingUnlinked(v.calls[..n]);
      assert v.calls[n].base.name == po.name;
    } else {
      NothingUnlinked(v.calls);
    }
  }

  lemma VisitUnlinks(c: Ctx, b: int, po: KubePod, r: Replies)
    requires !Visit(c, b, po, r).panicked
    ensures var v := Visit(c, b, po, r);
            && UnlinkedNames(v.calls) == (if b > 0 && Candidate(c, po, r) then [po.name] else [])
            && v.budget == b - |UnlinkedNames(v.calls)|
  {
    hide Adopt, UnlinkedNames;
    var v := Visit(c, b, po, r);
    if po.running && r.status.Some? && !MustDelete(c, po, r.status.value) && InUse(c, po, r.status.value) {
      var st := r.status.value;
      AdoptUnlinks(b, po, r);
      var pre := Report(c, po, st, r) + SetDeadline(c, po, st, r);
      NothingUnlinked(pre);
      UnlinkedNamesConcat(pre, Adopt(b, po, r).calls);
    } else {
      NothingUnlinked(v.calls);
    }
  }

  /** The released pods are a greedy prefix: the first min(max(0, budget), all) candidates of the
      list, and each costs one unit of the budget. */
  lemma {:induction false} UnlinksGreedily(c: Ctx, b: int, items: seq<KubePod>, replies: seq<Replies>)
    requires |items| == |replies| && !Pass(c, b, items, replies).panicked
    ensures var p := Pass(c, b, items, replies);
            var all := Candidates(c, items, replies);
            && UnlinkedNames(p.calls) == all[..Min(Max(0, b), |all|)]
            && p.budget == b - Min(Max(0, b), |all|)
  {
    hide Visit, Candidate, UnlinkedNames;
    if items == [] {
      NothingUnlinked([]);
    } else {
      var n := |items| - 1;
      var p := Pass(c, b, items[..n], replies[..n]);
      var v := Visit(c, p.budget, items[n], replies[n]);
      UnlinksGreedily(c, b, items[..n], replies[..n]);
      VisitUnlinks(c, p.budget, items[n], replies[n]);
      UnlinkedNamesConcat(p.calls, v.calls);
    }
  }

  /** So the budget bounds the releases of a pass, whatever the order of the list and the failures. */
  lemma UnlinksWithinBudget(c: Ctx, b: int, items: seq<KubePod>, replies: seq<Replies>)
    requires |items| == |replies| && !Pass(c, b, items, replies).panicked
    ensures |UnlinkedNames(Pass(c, b, items, replies).calls)| <= Max(0, b)
  {
    UnlinksGreedily(c, b, items, replies);
  }

  /** Releasing the budgeted number of pods brings the unlabelled count to at most
      max(unlabelled, maxRunnerPods - replicas), unless the int32 subtraction wraps around. */
  lemma HeadroomRespected(cfg: Config, unlabelled: nat)
    requires IsInt32(cfg.maxRunnerPods - cfg.replicas - unlabelled)
    ensures unlabelled + Max(0, Budget(cfg, unlabelled)) == Max(unlabelled, cfg.maxRunnerPods - cfg.replicas)
  {
  }

  /** The bound holds exactly when the subtraction does not wrap below: for int32 settings with
      a nonnegative replica count and at most 2^31 - 1 pods. */
  lemma HeadroomExactlyWhen(cfg: Config, unlabelled: nat)
    requires IsInt32(cfg.maxRunnerPods) && IsInt32(cfg.replicas) && cfg.replicas >= 0 && unlabelled < TWO31
    requires cfg.maxRunnerPods >= 0
    ensures (unlabelled + Max(0, Budget(cfg, unlabelled)) <= Max(unlabelled, cfg.maxRunnerPods - cfg.replicas)) <==>
              cfg.maxRunnerPods - cfg.replicas - unlabelled >= -TWO31
  {
    var exact := cfg.maxRunnerPods - cfg.replicas - unlabelled;
    WrapOnce(cfg.maxRunnerPods - cfg.replicas, unlabelled);
    if exact < -TWO31 {
      assert Wrap32(exact) == exact + TWO32;
    }
  }
}
