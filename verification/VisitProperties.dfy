/** What one visit does, call by call: when each call is made, what it says, and in which order. Each is
    said in terms of the status that the visit read and the answers it got. */
module VisitProperties {
  import opened Base
  import opened RunnerPod
  import opened ManagerPass
  import opened PassProperties

  /** The status makes a pass with these settings dereference a nil finish time. */
  predicate LacksFinish(c: Ctx, st: Status) {
    && st.state == Debugging && st.finishedAt == None
    && (c.cfg.needNotification || (st.deletionTime == None && st.extend == Some(true) && c.cfg.extendDuration != 0))
  }

  // The visit reads a status that it can work with.
  predicate Reads(c: Ctx, po: KubePod, r: Replies) {
    po.running && r.status.Some? && !LacksFinish(c, r.status.value)
  }

  /** What the controller has to delete. */
  ghost predicate Condemned(c: Ctx, po: KubePod, st: Status) {
    || st.state == Stale
    || (st.state == Debugging && st.deletionTime.Some? && c.now > st.deletionTime.value)
    || (st.state == Debugging && st.deletionTime.None? && st.extend == Some(true) && c.cfg.extendDuration != 0
        && c.now > FinishTime(st) + c.cfg.extendDuration)
    || (st.state == Debugging && st.deletionTime.None? && !(st.extend == Some(true) && c.cfg.extendDuration != 0))
    || (st.state != Debugging && !BusyIn(c.runners, po.name) && c.now > po.created + c.cfg.recreateDeadline)
  }

  lemma CondemnedIsTheRule(c: Ctx, po: KubePod, st: Status)
    ensures Condemned(c, po, st) <==> MustDelete(c, po, st)
    ensures LacksFinish(c, st) <==> Panics(c, st)
  {
  }

  // The visit spares a pod whose runner has a job, or had one.
  ghost predicate Keeps(c: Ctx, po: KubePod, r: Replies) {
    && Reads(c, po, r) && !Condemned(c, po, r.status.value)
    && (r.status.value.state == Debugging || BusyIn(c.runners, po.name))
  }

  // denyDisruption is on and the pod is not protected by name yet.
  predicate Wants(po: KubePod, r: Replies) {
    r.deny && Get(po.labels, NAME_LABEL) != po.name
  }

  lemma AdoptDoesNotPanic(b: int, po: KubePod, r: Replies)
    ensures !Adopt(b, po, r).panicked
  {
  }

  lemma VisitPanics(c: Ctx, b: int, po: KubePod, r: Replies)
    ensures Visit(c, b, po, r).panicked <==> po.running && r.status.Some? && LacksFinish(c, r.status.value)
    ensures Visit(c, b, po, r).panicked ==> Visit(c, b, po, r).calls == []
  {
    hide MustDelete, InUse, Adopt;
    if r.status.Some? {
      CondemnedIsTheRule(c, po, r.status.value);
    }
    AdoptDoesNotPanic(b, po, r);
  }

  // What a visit does to a pod that it keeps.
  lemma KeptVisit(c: Ctx, b: int, po: KubePod, r: Replies)
    requires Keeps(c, po, r)
    ensures var v := Visit(c, b, po, r);
            var a := Adopt(b, po, r);
            && v.calls == Report(c, po, r.status.value, r) + SetDeadline(c, po, r.status.value, r) + a.calls
            && v.pod == a.pod && v.budget == a.budget
  {
    hide Adopt, MustDelete, Panics;
    CondemnedIsTheRule(c, po, r.status.value);
  }

  // What it does to any other pod.
  lemma OtherVisit(c: Ctx, b: int, po: KubePod, r: Replies)
    requires !Keeps(c, po, r)
    ensures var v := Visit(c, b, po, r);
            && v.pod == po && v.budget == b
            && (forall k :: k in v.calls ==> k.Post? || k.Delete? || k.PutDeadline?)
            && (Reads(c, po, r) ==>
                  var st := r.status.value;
                  v.calls == (if st.state == Stale then [] else Report(c, po, st, r))
                             + (if Condemned(c, po, st) then [Delete(po.name, r.deleted)] else SetDeadline(c, po, st, r)))
            && (!Reads(c, po, r) ==> v.calls == [])
  {
    hide Adopt, MustDelete, Panics;
    if r.status.Some? {
      CondemnedIsTheRule(c, po, r.status.value);
    }
  }

  lemma AdoptKinds(b: int, po: KubePod, r: Replies)
    ensures forall k :: k in Adopt(b, po, r).calls ==> k.Protect? || k.Relabel? || k.Unlink?
  {
  }

  /** When a visit reports, and what the report says: the result the pod serves, to the channel that the
      job asked for or else the pool's, with the buttons exactly when the pod can be extended. */
  lemma VisitPosts(c: Ctx, b: int, po: KubePod, r: Replies, k: Call)
    requires k.Post?
    ensures k in Visit(c, b, po, r).calls <==>
              && Reads(c, po, r)
              && var st := r.status.value;
                 && st.state == Debugging && c.cfg.needNotification
                 && st.finishedAt.Some? && st.finishedAt.value > c.last
                 && k.name == po.name && k.result == st.result && k.jobInfo == st.jobInfo && k.delivered == r.posted
                 && k.channel == (if st.slackChannel == "" then c.cfg.slackChannel else st.slackChannel)
                 && (k.extendable <==> st.extend == Some(true) && c.cfg.extendDuration != 0)
  {
    hide Adopt, MustDelete, Condemned, Visit;
    AdoptKinds(b, po, r);
    if Keeps(c, po, r) {
      KeptVisit(c, b, po, r);
    } else {
      OtherVisit(c, b, po, r);
    }
  }

  /** When a visit asks for a deletion. */
  lemma VisitDeletesExactly(c: Ctx, b: int, po: KubePod, r: Replies, k: Call)
    requires k.Delete?
    ensures k in Visit(c, b, po, r).calls <==>
              Reads(c, po, r) && Condemned(c, po, r.status.value) && k == Delete(po.name, r.deleted)
  {
    hide Adopt, MustDelete, Condemned, Visit;
    AdoptKinds(b, po, r);
    if Keeps(c, po, r) {
      KeptVisit(c, b, po, r);
    } else {
      OtherVisit(c, b, po, r);
    }
  }

  /** When a visit gives a pod its deadline: once, in the window of its end, unless it has one. */
  lemma VisitSetsDeadline(c: Ctx, b: int, po: KubePod, r: Replies, k: Call)
    requires k.PutDeadline?
    ensures k in Visit(c, b, po, r).calls <==>
              && Reads(c, po, r) && !Condemned(c, po, r.status.value)
              && var st := r.status.value;
                 && st.state == Debugging && st.deletionTime == None
                 && st.finishedAt.Some? && st.finishedAt.value > c.last
                 && k == PutDeadline(po.name, st.finishedAt.value + c.cfg.extendDuration, r.put)
  {
    hide Adopt, MustDelete, Condemned, Visit;
    AdoptKinds(b, po, r);
    if Keeps(c, po, r) {
      KeptVisit(c, b, po, r);
    } else {
      OtherVisit(c, b, po, r);
    }
  }

  // The pod with its own name as a label.
  function WithName(po: KubePod): KubePod {
    po.(labels := map[NAME_LABEL := po.name] + (po.labels - {NAME_LABEL}))
  }

  // The calls that protect and release a pod in use, and the labels they leave in hand.
  lemma AdoptExactly(b: int, po: KubePod, r: Replies, k: Call)
    ensures var v := Adopt(b, po, r);
            && (k.Protect? ==> (k in v.calls <==> Wants(po, r) && k == Protect(po.name, r.pdb)))
            && (k.Relabel? ==> (k in v.calls <==> Wants(po, r) && r.pdb && k == Relabel(po, r.relabel)))
            && (k.Unlink? ==>
                  (k in v.calls <==>
                     && b > 0 && HASH_LABEL in po.labels && (Wants(po, r) ==> r.pdb && r.relabel)
                     && k == Unlink(if Wants(po, r) then WithName(po) else po, r.unlink)))
            && (var named := if Wants(po, r) && r.pdb then WithName(po) else po;
                v.pod == (if b > 0 && HASH_LABEL in po.labels && (Wants(po, r) ==> r.pdb && r.relabel)
                          then named.(labels := named.labels - {HASH_LABEL}) else named))
  {
    LabelKeysDiffer();
    assert Named(po).labels == WithName(po).labels;
  }

  /** When a visit protects and names its pod, at every budget. */
  lemma VisitProtects(c: Ctx, b: int, po: KubePod, r: Replies, k: Call)
    requires k.Protect? || k.Relabel?
    ensures k in Visit(c, b, po, r).calls <==>
              && Keeps(c, po, r) && r.deny && Get(po.labels, NAME_LABEL) != po.name
              && (k == Protect(po.name, r.pdb) || (r.pdb && k == Relabel(po, r.relabel)))
  {
    hide Adopt, Visit, Condemned;
    AdoptExactly(b, po, r, k);
    if Keeps(c, po, r) {
      KeptVisit(c, b, po, r);
    } else {
      OtherVisit(c, b, po, r);
    }
  }

  /** When a visit releases its pod, and from which labels. */
  lemma VisitReleases(c: Ctx, b: int, po: KubePod, r: Replies, k: Call)
    requires k.Unlink?
    ensures k in Visit(c, b, po, r).calls <==>
              && Keeps(c, po, r) && b > 0 && HASH_LABEL in po.labels && (Wants(po, r) ==> r.pdb && r.relabel)
              && k == Unlink(if Wants(po, r) then WithName(po) else po, r.unlink)
  {
    hide Adopt, Visit, Condemned;
    AdoptExactly(b, po, r, k);
    if Keeps(c, po, r) {
      KeptVisit(c, b, po, r);
    } else {
      OtherVisit(c, b, po, r);
    }
  }

  /** The labels that the listed pod has afterwards: each update edits it before it is sent. */
  lemma VisitEdits(c: Ctx, b: int, po: KubePod, r: Replies)
    ensures var v := Visit(c, b, po, r);
            var named := if Keeps(c, po, r) && Wants(po, r) && r.pdb then WithName(po) else po;
            v.pod == if exists base, ok :: Unlink(base, ok) in v.calls
                     then named.(labels := named.labels - {HASH_LABEL}) else named
  {
    hide Adopt, Visit, Condemned;
    var v := Visit(c, b, po, r);
    var u := Unlink(if Wants(po, r) then WithName(po) else po, r.unlink);
    AdoptExactly(b, po, r, u);
    VisitReleases(c, b, po, r, u);
    forall base, ok
      ensures Unlink(base, ok) in v.calls ==> Unlink(base, ok) == u
    {
      VisitReleases(c, b, po, r, Unlink(base, ok));
    }
    if u in v.calls {
      assert Unlink(u.base, u.ok) in v.calls;
    }
    if Keeps(c, po, r) {
      KeptVisit(c, b, po, r);
    } else {
      OtherVisit(c, b, po, r);
    }
  }

  function Rank(k: Call): nat {
    match k
    case Post(_, _, _, _, _, _) => 0
    case Delete(_, _) => 1
    case PutDeadline(_, _, _) => 2
    case Protect(_, _) => 3
    case Relabel(_, _) => 4
    case Unlink(_, _) => 5
  }

  ghost predicate InTurn(calls: seq<Call>) {
    forall i, j :: 0 <= i < j < |calls| ==> Rank(calls[i]) < Rank(calls[j])
  }

  lemma AdoptInTurn(b: int, po: KubePod, r: Replies)
    ensures InTurn(Adopt(b, po, r).calls)
  {
  }

  // Calls of later kinds may follow.
  lemma ThenInTurn(a: seq<Call>, b: seq<Call>)
    requires InTurn(a) && InTurn(b)
    requires forall x, y :: x in a && y in b ==> Rank(x) < Rank(y)
    ensures InTurn(a + b)
  {
  }

  /** A visit makes at most one call of each kind, in this order; the lemmas above say which. */
  lemma VisitInTurn(c: Ctx, b: int, po: KubePod, r: Replies)
    ensures InTurn(Visit(c, b, po, r).calls)
  {
    hide Adopt, Visit, Condemned;
    AdoptKinds(b, po, r);
    AdoptInTurn(b, po, r);
    if Keeps(c, po, r) {
      KeptVisit(c, b, po, r);
      ThenInTurn(Report(c, po, r.status.value, r), SetDeadline(c, po, r.status.value, r));
      ThenInTurn(Report(c, po, r.status.value, r) + SetDeadline(c, po, r.status.value, r), Adopt(b, po, r).calls);
    } else {
      OtherVisit(c, b, po, r);
    }
  }
}
