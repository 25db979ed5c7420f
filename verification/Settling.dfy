// A guru-list change can always be brought to its end: from any state that any run reaches,
// moves of the change and deliveries alone lead to one where everybody follows the newest list
// and nothing is on its way up. Then every topic an aide held is at its owner.
module Settling {
  import opened Common
  import opened Hashes
  import opened Topics
  import opened Clusters
  import opened Coverage

  // Moves of a list change and deliveries to gurus, and nothing else.
  ghost predicate OnlyMoves(steps: seq<Step>) {
    forall x :: x in steps ==> x.GuruSwitches? || x.AideSwitches? || x.AideResubscribes? || x.GuruTakes?
  }

  lemma {:induction false} RunsCompose(s: Cluster, xs: seq<Step>, t: Cluster, ys: seq<Step>, u: Cluster)
    requires Runs(s, xs, t) && Runs(t, ys, u)
    ensures Runs(s, xs + ys, u)
    ensures OnlyMoves(xs) && OnlyMoves(ys) ==> OnlyMoves(xs + ys)
    decreases |xs|
  {
    hide Enabled, Next;
    if xs == [] {
      assert xs + ys == ys;
    } else {
      RunsCompose(Next(s, xs[0]), xs[1..], t, ys, u);
      assert (xs + ys)[1..] == xs[1..] + ys;
    }
  }

  lemma OneStep(s: Cluster, step: Step)
    requires Inv(s) && Enabled(s, step)
    ensures Runs(s, [step], Next(s, step)) && Inv(Next(s, step))
  {
    hide Inv;
    StepOk(s, step);
    assert [step][1..] == [];
  }

  // ----- no aide that follows the newest list has a channel to a guru that is gone

  ghost predicate NoneLost(s: Cluster) {
    forall c :: c in s.chans && s.chans[c].aide < |s.aides| && s.aides[s.chans[c].aide].table == Some(s.target) ==>
      s.chans[c].guru < |s.gurus|
  }

  // Steps that move neither channels nor lists.
  lemma NoneLostSame(s: Cluster, t: Cluster)
    requires NoneLost(s) && s.chans.Keys == t.chans.Keys && |s.aides| == |t.aides| && |s.gurus| == |t.gurus|
    requires s.target == t.target && forall a :: 0 <= a < |s.aides| ==> s.aides[a].table == t.aides[a].table
    requires forall c :: c in s.chans ==> t.chans[c].aide == s.chans[c].aide && t.chans[c].guru == s.chans[c].guru
    ensures NoneLost(t)
  {
  }

  lemma NewListLoses(s: Cluster, step: Step)
    requires Inv(s) && step.NewList? && Enabled(s, step)
    ensures NoneLost(Next(s, step))
  {
    hide AideOk, ChanOk, GuruOk, AideCovered, AideExact, InStep;
    var t := Next(s, step);
    forall a | 0 <= a < |t.aides| ensures t.aides[a].table != Some(t.target) {
      assert Settled(s, s.aides[a]);
    }
  }

  lemma SwitchLosesNone(s: Cluster, step: Step)
    requires Inv(s) && NoneLost(s) && step.AideSwitches? && Enabled(s, step)
    ensures NoneLost(Next(s, step))
  {
    hide AideOk, ChanOk, GuruOk, AideCovered, AideExact, InStep, BucketIndices;
  }

  lemma AddAideLosesNone(s: Cluster, step: Step)
    requires Inv(s) && NoneLost(s) && step.AddAide? && Enabled(s, step)
    ensures NoneLost(Next(s, step))
  {
    hide AideOk, GuruOk, AideCovered, AideExact, InStep;
    assert forall c :: c in s.chans ==> ChanOk(s, c);
  }

  lemma AideStepSame(s: Cluster, step: Step)
    requires NoneLost(s) && Enabled(s, step) && AideStep(step)
    ensures NoneLost(Next(s, step))
  {
    hide NoneLost, Enabled, Next;
    AideStepOnly(s, step);
    NoneLostSame(s, Next(s, step));
  }

  lemma GuruStepSame(s: Cluster, step: Step)
    requires NoneLost(s) && Enabled(s, step)
    requires step.GuruTakes? || step.GuruHeartbeat? || step.GuruSwitches? || step.GuruPrunes?
    ensures NoneLost(Next(s, step))
  {
    hide NoneLost, GuruEffect, Sweep, Prune;
    NoneLostSame(s, Next(s, step));
  }

  lemma StepLosesNone(s: Cluster, step: Step)
    requires Inv(s) && NoneLost(s) && Enabled(s, step)
    ensures NoneLost(Next(s, step))
  {
    hide Inv, NoneLost, Enabled, Next;
    match step
    case AddAide(_) => AddAideLosesNone(s, step);
    case NewList(_, _) => NewListLoses(s, step);
    case AideSwitches(_) => SwitchLosesNone(s, step);
    case GuruTakes(_, _, _) => GuruStepSame(s, step);
    case GuruHeartbeat(_, _, _) => GuruStepSame(s, step);
    case GuruSwitches(_) => GuruStepSame(s, step);
    case GuruPrunes(_, _) => GuruStepSame(s, step);
    case _ => AideStepSame(s, step);
  }

  lemma {:induction false} RunLosesNone(s: Cluster, steps: seq<Step>, t: Cluster)
    requires Inv(s) && NoneLost(s) && Runs(s, steps, t)
    ensures NoneLost(t)
    decreases |steps|
  {
    hide Inv, NoneLost, Enabled, Next;
    if steps != [] {
      StepOk(s, steps[0]);
      StepLosesNone(s, steps[0]);
      RunLosesNone(Next(s, steps[0]), steps[1..], t);
    }
  }

  lemma ReachableLosesNone(t: Cluster)
    requires Reachable(t)
    ensures NoneLost(t) && Inv(t)
  {
    hide Runs;
    var s, steps :| Init(s) && Runs(s, steps, t);
    InvariantOverRuns(s, steps, t);
    RunLosesNone(s, steps, t);
  }

  // ----- the gurus switch

  ghost predicate GurusUpTo(s: Cluster, k: nat) {
    k <= |s.gurus| && forall g :: 0 <= g < k ==> s.gurus[g].table == s.target
  }

  lemma {:induction false} GurusSwitch(s: Cluster, k: nat) returns (steps: seq<Step>, t: Cluster)
    requires Inv(s) && GurusUpTo(s, k)
    ensures OnlyMoves(steps) && Runs(s, steps, t)
    ensures Inv(t) && GurusUpTo(t, |t.gurus|) && t.aides == s.aides && t.target == s.target
    decreases |s.gurus| - k
  {
    hide Inv;
    if k == |s.gurus| {
      steps, t := [], s;
    } else {
      var step := GuruSwitches(k);
      OneStep(s, step);
      var more;
      more, t := GurusSwitch(Next(s, step), k + 1);
      RunsCompose(s, [step], Next(s, step), more, t);
      steps := [step] + more;
    }
  }

  // ----- an aide gets the list and re-subscribes

  lemma {:induction false} Listing(hs: set<Hash>) returns (order: seq<Hash>)
    ensures NoDuplicates(order) && forall h :: h in order <==> h in hs
    decreases |hs|
  {
    if hs == {} {
      order := [];
    } else {
      var h :| h in hs;
      var rest := Listing(hs - {h});
      order := [h] + rest;
    }
  }

  // Only aide `a` has moved.
  ghost predicate OthersSame(s: Cluster, a: nat, t: Cluster) {
    && |t.aides| == |s.aides| && t.gurus == s.gurus && t.target == s.target
    && (forall b :: 0 <= b < |s.aides| && b != a ==> t.aides[b] == s.aides[b])
    && (a < |s.aides| ==> t.aides[a].subs == s.aides[a].subs)
  }

  lemma {:induction false} FinishPending(s: Cluster, a: nat) returns (steps: seq<Step>, t: Cluster)
    requires Inv(s) && a < |s.aides|
    ensures OnlyMoves(steps) && Runs(s, steps, t) && Inv(t) && OthersSame(s, a, t)
    ensures t.aides[a] == s.aides[a].(pending := {})
    decreases |s.aides[a].pending|
  {
    hide Inv, Remapped, Shard, Push;
    var ad := s.aides[a];
    if ad.pending == {} {
      steps, t := [], s;
    } else {
      var bucket :| bucket in ad.pending;
      var order := Listing(set h | h in ad.subs && Shard(ad.bits, h) == bucket && Remapped(ad, h));
      var step := AideResubscribes(a, bucket, order);
      OneStep(s, step);
      var more;
      more, t := FinishPending(Next(s, step), a);
      RunsCompose(s, [step], Next(s, step), more, t);
      steps := [step] + more;
    }
  }

  lemma SettleAide(s: Cluster, a: nat) returns (steps: seq<Step>, t: Cluster)
    requires Inv(s) && a < |s.aides| && GurusUpTo(s, |s.gurus|)
    ensures OnlyMoves(steps) && Runs(s, steps, t) && Inv(t) && OthersSame(s, a, t) && Settled(t, t.aides[a])
  {
    hide Inv;
    steps, t := FinishPending(s, a);
    if t.aides[a].table != Some(t.target) {
      var step := AideSwitches(a);
      var mid := t;
      OneStep(mid, step);
      var next := Next(mid, step);
      var more;
      more, t := FinishPending(next, a);
      RunsCompose(mid, [step], next, more, t);
      RunsCompose(s, steps, mid, [step] + more, t);
      steps := steps + ([step] + more);
    }
  }

  ghost predicate SettledUpTo(s: Cluster, k: nat) {
    k <= |s.aides| && forall a :: 0 <= a < k ==> Settled(s, s.aides[a])
  }

  ghost predicate SameTopics(s: Cluster, t: Cluster) {
    && |t.aides| == |s.aides| && t.target == s.target
    && forall a :: 0 <= a < |s.aides| ==> t.aides[a].subs == s.aides[a].subs
  }

  lemma {:induction false} SettleAll(s: Cluster, k: nat) returns (steps: seq<Step>, t: Cluster)
    requires Inv(s) && GurusUpTo(s, |s.gurus|) && SettledUpTo(s, k)
    ensures OnlyMoves(steps) && Runs(s, steps, t)
    ensures Inv(t) && GurusUpTo(t, |t.gurus|) && SettledUpTo(t, |t.aides|) && SameTopics(s, t)
    decreases |s.aides| - k
  {
    hide Inv;
    if k == |s.aides| {
      steps, t := [], s;
    } else {
      var first, mid := SettleAide(s, k);
      var more;
      more, t := SettleAll(mid, k + 1);
      RunsCompose(s, first, mid, more, t);
      steps := first + more;
    }
  }

  // ----- the gurus handle what is on its way

  ghost predicate UpFrom(s: Cluster, cs: set<ChanId>) {
    forall c :: c in s.chans && s.chans[c].up != [] ==> c in cs
  }

  // The lists are done and only traffic moves.
  ghost predicate AtRest(s: Cluster, t: Cluster) {
    && t.aides == s.aides && t.target == s.target && |t.gurus| == |s.gurus| && t.chans.Keys == s.chans.Keys
    && (forall g :: 0 <= g < |s.gurus| ==> t.gurus[g].table == s.gurus[g].table)
    && (forall c :: c in s.chans ==> t.chans[c].aide == s.chans[c].aide && t.chans[c].guru == s.chans[c].guru)
  }

  lemma TakeAtRest(s: Cluster, c: ChanId)
    requires c in s.chans && s.chans[c].up != [] && s.chans[c].guru < |s.gurus|
    ensures Enabled(s, GuruTakes(c, 0, 0)) && AtRest(s, Next(s, GuruTakes(c, 0, 0)))
    ensures |Next(s, GuruTakes(c, 0, 0)).chans[c].up| < |s.chans[c].up|
    ensures forall d :: d in s.chans && d != c ==> Next(s, GuruTakes(c, 0, 0)).chans[d].up == s.chans[d].up
  {
    hide GuruEffect, Put;
  }

  lemma {:induction false} DrainOne(s: Cluster, c: ChanId) returns (steps: seq<Step>, t: Cluster)
    requires Inv(s) && c in s.chans && s.chans[c].guru < |s.gurus|
    ensures OnlyMoves(steps) && Runs(s, steps, t) && Inv(t) && AtRest(s, t) && t.chans[c].up == []
    ensures forall d :: d in s.chans && d != c ==> t.chans[d].up == s.chans[d].up
    decreases |s.chans[c].up|
  {
    hide Inv, Next, Enabled;
    if s.chans[c].up == [] {
      steps, t := [], s;
    } else {
      TakeAtRest(s, c);
      var step := GuruTakes(c, 0, 0);
      OneStep(s, step);
      var more;
      more, t := DrainOne(Next(s, step), c);
      RunsCompose(s, [step], Next(s, step), more, t);
      steps := [step] + more;
    }
  }

  lemma {:induction false} DrainAll(s: Cluster, cs: set<ChanId>) returns (steps: seq<Step>, t: Cluster)
    requires Inv(s) && UpFrom(s, cs) && cs <= s.chans.Keys
    requires forall c :: c in s.chans ==> s.chans[c].guru < |s.gurus|
    ensures OnlyMoves(steps) && Runs(s, steps, t) && Inv(t) && AtRest(s, t) && forall a :: Drained(t, a)
    decreases |cs|
  {
    hide Inv;
    if cs == {} {
      steps, t := [], s;
    } else {
      var c :| c in cs;
      var first, mid := DrainOne(s, c);
      var more;
      more, t := DrainAll(mid, cs - {c});
      RunsCompose(s, first, mid, more, t);
      steps := first + more;
    }
  }

  // ----- together

  lemma ReachableRun(s: Cluster, steps: seq<Step>, t: Cluster)
    requires Reachable(s) && Runs(s, steps, t)
    ensures Reachable(t)
  {
    hide Runs;
    var init, before :| Init(init) && Runs(init, before, s);
    RunsCompose(init, before, s, steps, t);
  }

  lemma AllChansLead(s: Cluster)
    requires Inv(s) && NoneLost(s) && SettledUpTo(s, |s.aides|)
    ensures forall c :: c in s.chans ==> s.chans[c].guru < |s.gurus|
  {
    hide AideOk, GuruOk, AideCovered, AideExact, InStep;
    forall c | c in s.chans ensures s.chans[c].guru < |s.gurus| {
      assert ChanOk(s, c) && Settled(s, s.aides[s.chans[c].aide]);
    }
  }

  lemma ChangeCompletes(s: Cluster) returns (steps: seq<Step>, t: Cluster)
    requires Reachable(s)
    ensures OnlyMoves(steps) && Runs(s, steps, t) && SameTopics(s, t)
    ensures forall a :: 0 <= a < |t.aides| ==> Stable(t, a) && Drained(t, a)
  {
    hide Reachable, Inv, NoneLost, Drained, Runs;
    ReachableLosesNone(s);
    var x, sx := GurusSwitch(s, 0);
    var y, sy := SettleAll(sx, 0);
    RunsCompose(s, x, sx, y, sy);
    RunLosesNone(s, x + y, sy);
    AllChansLead(sy);
    var z;
    z, t := DrainAll(sy, sy.chans.Keys);
    RunsCompose(s, x + y, sy, z, t);
    steps := x + y + z;
    forall a | 0 <= a < |t.aides| ensures Stable(t, a) && Drained(t, a) {
      assert Settled(sy, sy.aides[a]);
    }
  }

  // The owner of `h` under the newest list holds it, with a contact leading to aide `a`.
  ghost predicate AtOwner(t: Cluster, a: nat, h: Hash) {
    var g := Lookup(t.target, h);
    && g < |t.gurus| && h in t.gurus[g].subs
    && exists c :: Leads(t, c, a, g) && c in t.gurus[g].subs[h].watchers
  }

  /**
   * From every reachable state, in the middle of any list change, there is a run of list moves
   * and deliveries alone after which each topic that an aide held is held by the guru that owns
   * it under the newest list, with a contact leading to that aide.
   */
  lemma EveryTopicFindsItsOwner(s: Cluster) returns (steps: seq<Step>, t: Cluster)
    requires Reachable(s)
    ensures OnlyMoves(steps) && Runs(s, steps, t) && SameTopics(s, t)
    ensures forall a, h :: 0 <= a < |s.aides| && h in s.aides[a].subs ==> AtOwner(t, a, h)
  {
    hide Reachable, Runs, Stable, Drained;
    steps, t := ChangeCompletes(s);
    ReachableRun(s, steps, t);
    forall a, h | 0 <= a < |s.aides| && h in s.aides[a].subs ensures AtOwner(t, a, h) {
      assert Stable(t, a);
      Convergence(t, a, h);
    }
  }
}
