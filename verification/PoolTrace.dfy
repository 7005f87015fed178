/** The passes of the timed system are the passes of the method that the controller runs. */
module PoolTrace {
  import R = RunnerPod
  import opened ManagerPass
  import opened PoolWorld
  import opened PoolLifetime

  /** The calls made and pending are those of Pass, with the budget that the method computes, on the part
      of the list visited so far. */
  ghost predicate Traced(w: World) {
    && !w.hist.panicked
    && (w.phase.Visiting? ==>
          var k := |w.hist.seen|;
          && w.hist.budget == Budget(w.phase.ctx.cfg, CountUnlabelled(w.hist.all))
          && k <= |w.hist.all| && w.phase.items == w.hist.all[k..]
          && var p := Pass(w.phase.ctx, w.hist.budget, w.hist.all[..k], w.hist.seen);
             !p.panicked && p.calls == w.hist.calls + w.phase.pending && p.budget == w.phase.budget)
  }

  lemma ReadTraced(w: World, r: Replies)
    requires Sound(w) && Traced(w) && Enabled(w, Read(r))
    ensures Traced(Apply(w, Read(r)))
  {
    hide Sound, Visit, Pass;
    ReadNeverPanics(w, r);
    var v := Apply(w, Read(r));
    var k := |w.hist.seen|;
    var items := w.hist.all[..k + 1];
    assert items[..k] == w.hist.all[..k] && items[k] == w.phase.items[0];
    assert v.hist.seen[..k] == w.hist.seen && v.hist.seen[k] == r;
    PassStep(w.phase.ctx, w.hist.budget, items, v.hist.seen, k);
    assert items[..k + 1] == items && v.hist.seen[..k + 1] == v.hist.seen;
    assert v.phase.items == w.hist.all[k + 1..];
    assert w.hist.calls + [] == w.hist.calls;
  }

  lemma DoTraced(w: World)
    requires Traced(w) && Enabled(w, Do)
    ensures Traced(Apply(w, Do))
  {
    hide Pass, Effect;
    var v := Apply(w, Do);
    EffectKeepsBooks(w, w.phase.pending[0]);
    assert v.hist.calls + v.phase.pending == w.hist.calls + w.phase.pending;
  }

  lemma StepKeepsTraced(w: World, s: Step)
    requires Sound(w) && Traced(w) && Enabled(w, s)
    ensures Traced(Apply(w, s))
  {
    hide Sound, R.Next, Snapshot, AfterRead, AfterDo, CountUnlabelled, Pass;
    match s {
      case Read(r) => ReadTraced(w, r);
      case Do => DoTraced(w);
      case Begin =>
        var v := Apply(w, s);
        PassOfNothing(v.phase.ctx, v.hist.budget, v.hist.all[..0], v.hist.seen);
      case _ =>
    }
  }

  lemma {:induction false} RunKeepsTraced(w: World, steps: seq<Step>)
    requires Init(w) && Possible(w, steps)
    ensures Traced(After(w, steps))
  {
    hide Sound, Apply, Enabled, Pass;
    if steps != [] {
      var n := |steps| - 1;
      RunKeepsTraced(w, steps[..n]);
      InitIsSound(w);
      RunKeepsSound(w, steps[..n]);
      StepKeepsTraced(After(w, steps[..n]), steps[n]);
    }
  }

  /** Whatever happens between its calls, a pass that comes to its end has made exactly the calls that
      MaintainRunnerPods makes on the list, the window and the settings it began with, given the same
      answers; and no pass ever dereferences a missing finish time. */
  lemma CompletedPassIsTheMethod(w: World, steps: seq<Step>)
    requires Init(w) && Possible(w, steps)
    ensures !After(w, steps).hist.panicked
    ensures Enabled(After(w, steps), End) ==>
              var v := After(w, steps);
              && |v.hist.seen| == |v.hist.all|
              && v.hist.calls == Pass(v.phase.ctx, Budget(v.phase.ctx.cfg, CountUnlabelled(v.hist.all)), v.hist.all, v.hist.seen).calls
  {
    hide Init, Sound, Apply, Possible, After, Pass;
    RunKeepsTraced(w, steps);
    var v := After(w, steps);
    if Enabled(v, End) {
      assert v.hist.all[..|v.hist.all|] == v.hist.all;
      assert v.hist.calls + [] == v.hist.calls;
    }
  }
}
