// What a guru-list change leaves behind at the gurus. An aide pushes everything through the
// channels of its newest list, so what it says about a topic never reaches a contact that an
// older channel has there, not even when the aide has dropped the topic: between two list
// changes old contacts neither come nor go. So unsubscribing works if and only if there was no
// old contact to begin with.
module Stranded {
  import opened Hashes
  import opened Topics
  import opened Clusters
  import opened Coverage
  import opened Delivery

  // Channel c leads from aide a to the owner g of `h`, but not by a's newest list; `counted`
  // says whether g counts it among the topic's contacts once its queue is handled.
  ghost predicate Old(t: Cluster, a: nat, c: ChanId, g: nat, h: Hash, counted: bool) {
    && Stable(t, a) && g < |t.gurus| && g == Lookup(t.target, h)
    && Leads(t, c, a, g) && c !in t.aides[a].links
    && Member(t, c, h) == counted
  }

  lemma {:induction false} NothingRouted(ad: Aide, c: ChanId, ps: seq<Packet>)
    requires c !in ad.links
    ensures Routed(ad, c, ps) == []
  {
    if ps != [] {
      NothingRouted(ad, c, ps[..|ps| - 1]);
    }
  }

  lemma OthersLinks(s: Cluster, a: nat, b: nat, c: ChanId)
    requires WellFormed(s) && a < |s.aides| && b < |s.aides|
    requires c in s.chans && s.chans[c].aide == a && c !in s.aides[a].links
    ensures c !in s.aides[b].links
  {
    hide GuruOk, ChanOk;
    assert AideOk(s, b);
  }

  // What any aide does to its topics and pushes up.
  lemma AideLeaves(s: Cluster, a: nat, c: ChanId, g: nat, h: Hash, counted: bool, b: nat, after: Aide, ups: seq<Packet>)
    requires WellFormed(s) && Old(s, a, c, g, h, counted) && b < |s.aides|
    requires after.(subs := s.aides[b].subs, pending := s.aides[b].pending) == s.aides[b]
    requires after.pending <= s.aides[b].pending
    ensures Old(AideActs(s, b, after, ups), a, c, g, h, counted)
  {
    hide AideOk, GuruOk, ChanOk, Lookup;
    OthersLinks(s, a, b, c);
    NothingRouted(after, c, ups);
    assert s.chans[c].up + [] == s.chans[c].up;
  }

  lemma InboxLeaves(s: Cluster, a: nat, c: ChanId, g: nat, h: Hash, counted: bool, inbox: multiset<Copy>)
    requires Old(s, a, c, g, h, counted)
    ensures Old(s.(inbox := inbox), a, c, g, h, counted)
  {
  }

  lemma HandlesLeaves(s: Cluster, a: nat, c: ChanId, g: nat, h: Hash, counted: bool, b: nat, e: Effect, p: Packet)
    requires WellFormed(s) && Old(s, a, c, g, h, counted) && b < |s.aides|
    ensures Old(AideHandles(s, b, e, p), a, c, g, h, counted)
  {
    hide WellFormed, Old, Push, Put;
    var after := s.aides[b].(subs := Put(s.aides[b].subs, p.h, e.topic));
    AideLeaves(s, a, c, g, h, counted, b, after, e.up);
    InboxLeaves(AideActs(s, b, after, e.up), a, c, g, h, counted, s.inbox + Delivered(b, e.written, p));
  }

  lemma AideStepLeaves(s: Cluster, step: Step, a: nat, c: ChanId, g: nat, h: Hash, counted: bool)
    requires WellFormed(s) && Old(s, a, c, g, h, counted) && Enabled(s, step)
    requires step.ClientSubscribe? || step.ClientUnsubscribe? || step.ClientPublish? || step.AideHeartbeat?
          || step.AideResubscribes? || step.AideDials?
    ensures Old(Next(s, step), a, c, g, h, counted)
  {
    hide WellFormed, Old, OnSubscribe, OnUnsubscribe, OnPublish, Sweep, Push, Put;
    var ad := s.aides[step.a];
    match step
    case ClientSubscribe(b, ss, p, now) =>
      var e := OnSubscribe(false, ad.links != [], Find(ad.subs, p.h), ss, p, now);
      HandlesLeaves(s, a, c, g, h, counted, b, e, p);
    case ClientUnsubscribe(b, ss, p) =>
      HandlesLeaves(s, a, c, g, h, counted, b, OnUnsubscribe(false, Find(ad.subs, p.h), ss, p), p);
    case ClientPublish(b, ss, p, now, closed) =>
      HandlesLeaves(s, a, c, g, h, counted, b, OnPublish(false, Find(ad.subs, p.h), ss, p, now, closed), p);
    case AideHeartbeat(b, bucket, now, closed, order) =>
      var swept := Sweep(ad.subs, ad.bits, bucket, false, now, closed);
      AideLeaves(s, a, c, g, h, counted, b, ad.(subs := swept), UnsubscribeAll(order));
    case AideResubscribes(b, bucket, order) =>
      AideLeaves(s, a, c, g, h, counted, b, ad.(pending := ad.pending - {bucket}), SubscribeAll(order, false));
    case AideDials(b, _, _, order) =>
      AideLeaves(s, a, c, g, h, counted, b, ad, SubscribeAll(order, true));
  }

  lemma AideTakesLeaves(s: Cluster, step: Step, a: nat, c: ChanId, g: nat, h: Hash, counted: bool)
    requires Inv(s) && Old(s, a, c, g, h, counted) && step.AideTakes? && Enabled(s, step)
    ensures Old(Next(s, step), a, c, g, h, counted)
  {
    hide AideOk, GuruOk, ChanOk, AideCovered, AideExact, InStep, DownEffect, Put, Push;
    var taken := s.(chans := TakenDown(s.chans, step.c, step.i));
    assert SameEnds(s, taken);
    DownIrrelevant(s, taken);
    assert Old(taken, a, c, g, h, counted);
    var b, p := s.chans[step.c].aide, s.chans[step.c].down[step.i];
    var e := DownEffect(Find(s.aides[b].subs, p.h), p, step.now, step.closed);
    HandlesLeaves(taken, a, c, g, h, counted, b, e, p);
  }

  lemma GuruTakesLeaves(s: Cluster, step: Step, a: nat, c: ChanId, g: nat, h: Hash, counted: bool)
    requires Inv(s) && Old(s, a, c, g, h, counted) && step.GuruTakes? && Enabled(s, step)
    ensures Old(Next(s, step), a, c, g, h, counted)
  {
    hide Inv, Member, GuruEffect, Lookup, Put;
    GuruTakesMember(s, step, c, h);
  }

  lemma GuruStepLeaves(s: Cluster, step: Step, a: nat, c: ChanId, g: nat, h: Hash, counted: bool)
    requires Old(s, a, c, g, h, counted) && Enabled(s, step)
    requires step.GuruHeartbeat? || step.GuruSwitches? || step.GuruPrunes?
    ensures Old(Next(s, step), a, c, g, h, counted)
  {
    hide Lookup, Shard, Sweep, Prune, Watched;
    var t := Next(s, step);
    assert Watched(Find(t.gurus[g].subs, h), c) == Watched(Find(s.gurus[g].subs, h), c) by {
      WatchersStay(s, step, g, h, c);
    }
  }

  // Neither a heartbeat nor pruning takes a contact from a topic of the guru's own.
  lemma WatchersStay(s: Cluster, step: Step, g: nat, h: Hash, c: ChanId)
    requires g < |s.gurus| && Lookup(s.gurus[g].table, h) == g && Enabled(s, step)
    requires step.GuruHeartbeat? || step.GuruSwitches? || step.GuruPrunes?
    ensures Watched(Find(Next(s, step).gurus[g].subs, h), c) == Watched(Find(s.gurus[g].subs, h), c)
  {
    hide Lookup, Shard;
    var subs := s.gurus[g].subs;
    if h in subs {
      assert subs[h].watchers - {} == subs[h].watchers;
    }
  }

  lemma ListStepLeaves(s: Cluster, step: Step, a: nat, c: ChanId, g: nat, h: Hash, counted: bool)
    requires Inv(s) && Old(s, a, c, g, h, counted) && Enabled(s, step)
    requires step.AddAide? || step.AideSwitches?
    ensures Old(Next(s, step), a, c, g, h, counted)
  {
    hide AideOk, GuruOk, AideCovered, AideExact, InStep, Lookup, BucketIndices;
    assert ChanOk(s, c);
  }

  lemma StepLeaves(s: Cluster, step: Step, a: nat, c: ChanId, g: nat, h: Hash, counted: bool)
    requires Inv(s) && Old(s, a, c, g, h, counted) && Enabled(s, step) && !step.NewList?
    ensures Old(Next(s, step), a, c, g, h, counted)
  {
    hide Old, Enabled, Next;
    match step
    case GuruTakes(_, _, _) => GuruTakesLeaves(s, step, a, c, g, h, counted);
    case AideTakes(_, _, _, _) => AideTakesLeaves(s, step, a, c, g, h, counted);
    case GuruHeartbeat(_, _, _) => GuruStepLeaves(s, step, a, c, g, h, counted);
    case GuruSwitches(_) => GuruStepLeaves(s, step, a, c, g, h, counted);
    case GuruPrunes(_, _) => GuruStepLeaves(s, step, a, c, g, h, counted);
    case AddAide(_) => ListStepLeaves(s, step, a, c, g, h, counted);
    case AideSwitches(_) => ListStepLeaves(s, step, a, c, g, h, counted);
    case _ => AideStepLeaves(s, step, a, c, g, h, counted);
  }

  ghost predicate NoNewList(steps: seq<Step>) {
    forall x :: x in steps ==> !x.NewList?
  }

  /**
   * Whether the owner of a topic counts an old channel of an aide does not change until the next
   * list change, over every run and whatever the aide's clients do - also when the last of them
   * unsubscribes and the aide drops the topic, and when one subscribes.
   */
  lemma {:induction false} OldContactsStay(s: Cluster, steps: seq<Step>, t: Cluster, a: nat, c: ChanId, g: nat, h: Hash,
                                           counted: bool)
    requires Inv(s) && Old(s, a, c, g, h, counted) && Runs(s, steps, t) && NoNewList(steps)
    ensures Old(t, a, c, g, h, counted)
    decreases |steps|
  {
    hide Inv, Old, Enabled, Next;
    if steps != [] {
      assert steps[0] in steps;
      StepOk(s, steps[0]);
      StepLeaves(s, steps[0], a, c, g, h, counted);
      OldContactsStay(Next(s, steps[0]), steps[1..], t, a, c, g, h, counted);
    }
  }

  // ----- when dropping a topic works

  // Aide a follows the newest list in both states, over the same channels.
  ghost predicate SameChannels(s: Cluster, t: Cluster, a: nat) {
    && Stable(s, a) && Stable(t, a) && t.target == s.target && t.aides[a].links == s.aides[a].links
    && forall c, g :: Leads(t, c, a, g) <==> Leads(s, c, a, g)
  }

  lemma AideStepChannels(s: Cluster, step: Step, a: nat)
    requires Stable(s, a) && Enabled(s, step) && AideStep(step)
    ensures SameChannels(s, Next(s, step), a)
  {
    hide Enabled, Next;
    AideStepOnly(s, step);
  }

  lemma GuruStepChannels(s: Cluster, step: Step, a: nat)
    requires Stable(s, a) && Enabled(s, step)
    requires step.GuruTakes? || step.GuruHeartbeat? || step.GuruSwitches? || step.GuruPrunes?
    ensures SameChannels(s, Next(s, step), a)
  {
    hide GuruEffect, Sweep, Prune, Put, Shard;
  }

  lemma ListStepChannels(s: Cluster, step: Step, a: nat)
    requires Inv(s) && Stable(s, a) && Enabled(s, step) && (step.AddAide? || step.AideSwitches?)
    ensures SameChannels(s, Next(s, step), a)
  {
    hide AideOk, GuruOk, AideCovered, AideExact, InStep, BucketIndices;
    forall c | c in s.chans ensures c < s.next {
      assert ChanOk(s, c);
    }
  }

  lemma StepChannels(s: Cluster, step: Step, a: nat)
    requires Inv(s) && Stable(s, a) && Enabled(s, step) && !step.NewList?
    ensures SameChannels(s, Next(s, step), a)
  {
    hide Inv, Stable, Enabled, Next, SameChannels;
    match step
    case GuruTakes(_, _, _) => GuruStepChannels(s, step, a);
    case GuruHeartbeat(_, _, _) => GuruStepChannels(s, step, a);
    case GuruSwitches(_) => GuruStepChannels(s, step, a);
    case GuruPrunes(_, _) => GuruStepChannels(s, step, a);
    case AddAide(_) => ListStepChannels(s, step, a);
    case AideSwitches(_) => ListStepChannels(s, step, a);
    case _ => AideStepChannels(s, step, a);
  }

  lemma {:induction false} RunChannels(s: Cluster, steps: seq<Step>, t: Cluster, a: nat)
    requires Inv(s) && Stable(s, a) && Runs(s, steps, t) && NoNewList(steps)
    ensures SameChannels(s, t, a)
    decreases |steps|
  {
    hide Inv, Stable, Enabled, Next, Leads;
    if steps != [] {
      assert steps[0] in steps;
      StepOk(s, steps[0]);
      StepChannels(s, steps[0], a);
      RunChannels(Next(s, steps[0]), steps[1..], t, a);
    }
  }

  lemma QuietMember(s: Cluster, c: ChanId, h: Hash)
    requires Quiet(s, h) && c in s.chans && s.chans[c].guru < |s.gurus|
    ensures Member(s, c, h) == Watched(Find(s.gurus[s.chans[c].guru].subs, h), c)
  {
    AfterOther(Watched(Find(s.gurus[s.chans[c].guru].subs, h), c), s.chans[c].up, h);
  }

  // Some contact of the topic at its owner leads to the aide.
  ghost predicate StillCounted(t: Cluster, a: nat, h: Hash) {
    var g := Lookup(t.target, h);
    g < |t.gurus| && exists c :: Leads(t, c, a, g) && Watched(Find(t.gurus[g].subs, h), c)
  }

  // One of them, by an older list.
  ghost predicate OldCounted(s: Cluster, a: nat, h: Hash)
    requires a < |s.aides|
  {
    var g := Lookup(s.target, h);
    g < |s.gurus| && exists c :: Leads(s, c, a, g) && c !in s.aides[a].links && Watched(Find(s.gurus[g].subs, h), c)
  }

  lemma OldStaysCounted(s: Cluster, steps: seq<Step>, t: Cluster, a: nat, h: Hash)
    requires Inv(s) && Stable(s, a) && Quiet(s, h)
    requires Runs(s, steps, t) && NoNewList(steps) && Quiet(t, h)
    requires OldCounted(s, a, h)
    ensures StillCounted(t, a, h)
  {
    hide Inv, Member, Runs, Lookup, Watched, Quiet, NoNewList;
    var g := Lookup(s.target, h);
    var c :| Leads(s, c, a, g) && c !in s.aides[a].links && Watched(Find(s.gurus[g].subs, h), c);
    QuietMember(s, c, h);
    OldContactsStay(s, steps, t, a, c, g, h, true);
    QuietMember(t, c, h);
  }

  // A contact that leads to an aide without the topic is an old one, and was there before.
  lemma CountedWasOld(s: Cluster, steps: seq<Step>, t: Cluster, a: nat, h: Hash)
    requires Inv(s) && Stable(s, a) && Quiet(s, h)
    requires Runs(s, steps, t) && NoNewList(steps) && Quiet(t, h)
    requires a < |t.aides| && h !in t.aides[a].subs && StillCounted(t, a, h)
    ensures OldCounted(s, a, h)
  {
    hide Inv, Member, Runs, Lookup, Watched, Quiet, NoNewList;
    InvariantOverRuns(s, steps, t);
    RunChannels(s, steps, t, a);
    var g := Lookup(t.target, h);
    var c :| Leads(t, c, a, g) && Watched(Find(t.gurus[g].subs, h), c);
    LinkIsStray(t, a, h);
    if c in t.aides[a].links {
      CurrentLink(t, a, c, g);
      assert false;
    }
    GurusStay(s, steps, t);
    QuietMember(s, c, h);
    if !Member(s, c, h) {
      OldContactsStay(s, steps, t, a, c, g, h, false);
      QuietMember(t, c, h);
      assert false;
    }
  }

  lemma CurrentLink(t: Cluster, a: nat, c: ChanId, g: nat)
    requires Inv(t) && a < |t.aides| && Leads(t, c, a, g) && c in t.aides[a].links
    ensures g < |t.aides[a].links| && c == t.aides[a].links[g]
  {
    hide GuruOk, ChanOk, AideCovered, AideExact, InStep;
    assert AideOk(t, a);
  }

  lemma GurusStay(s: Cluster, steps: seq<Step>, t: Cluster)
    requires Inv(s) && Inv(t) && s.target == t.target
    ensures |s.gurus| == |t.gurus|
  {
  }

  /**
   * Exactly when dropping a topic works: after any run without a list change that ends with the
   * aide not holding the topic and nothing about it in flight, the owner still has a contact
   * leading to the aide if and only if it counted an old channel of the aide in the first place.
   */
  lemma DroppingWorks(s: Cluster, steps: seq<Step>, t: Cluster, a: nat, h: Hash)
    requires Reachable(s) && Stable(s, a) && Quiet(s, h)
    requires Runs(s, steps, t) && NoNewList(steps) && Quiet(t, h)
    requires a < |t.aides| && h !in t.aides[a].subs
    ensures StillCounted(t, a, h) <==> OldCounted(s, a, h)
  {
    hide Reachable, Inv, Runs, Quiet, StillCounted, OldCounted, NoNewList;
    ReachableInv(s);
    if OldCounted(s, a, h) {
      OldStaysCounted(s, steps, t, a, h);
    }
    if StillCounted(t, a, h) {
      CountedWasOld(s, steps, t, a, h);
    }
  }
}
