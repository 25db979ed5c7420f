// A publish can always be run to its end: whatever else is in flight, there is an order of
// deliveries after which nothing about its topic is left in any queue.
module Progress {
  import opened Hashes
  import opened Topics
  import opened Clusters
  import opened Coverage
  import opened Delivery

  lemma {:induction false} RunsCompose(s: Cluster, xs: seq<Step>, t: Cluster, ys: seq<Step>, u: Cluster, h: Hash)
    requires TrafficRuns(s, xs, t, h) && TrafficRuns(t, ys, u, h)
    ensures TrafficRuns(s, xs + ys, u, h)
    decreases |xs|
  {
    hide Enabled, Next, Traffic;
    if xs == [] {
      assert xs + ys == ys;
    } else {
      RunsCompose(Next(s, xs[0]), xs[1..], t, ys, u, h);
      assert (xs + ys)[1..] == xs[1..] + ys;
    }
  }

  lemma OneStep(s: Cluster, step: Step, h: Hash)
    requires Enabled(s, step) && Traffic(s, step, h)
    ensures TrafficRuns(s, [step], Next(s, step), h)
  {
    hide Enabled, Next, Traffic;
    assert [step][1..] == [];
  }

  lemma Waits(q: seq<Packet>, p: Packet, n: nat)
    requires Carries(q, p, n) && n > 0
    ensures q != []
  {
  }

  // The guru takes the oldest packets of the publisher's channel until it gets to the publish.
  lemma {:induction false} GuruPhase(s: Cluster, pub: Pub, t: Cluster) returns (steps: seq<Step>, u: Cluster)
    requires Ready(s, pub) && Flow(s, pub, t, true, Fan(s, pub))
    ensures TrafficRuns(t, steps, u, pub.p.h) && Flow(s, pub, u, false, Fan(s, pub))
    decreases if pub.link in t.chans then |t.chans[pub.link].up| else 0
  {
    hide Flow, Frame, Carries, Ready, Fan, GuruEffect, TrafficRuns;
    var link := pub.link;
    Headed(s, pub, t);
    var step := GuruTakes(link, 0, 0);
    GuruFlows(s, pub, t, true, Fan(s, pub), link, 0, 0);
    u := Next(t, step);
    steps := [step];
    OneStep(t, step, pub.p.h);
    if t.chans[link].up[0] != pub.p {
      var more;
      more, u := GuruPhase(s, pub, Next(t, step));
      RunsCompose(t, steps, Next(t, step), more, u, pub.p.h);
      steps := steps + more;
    }
  }

  lemma Headed(s: Cluster, pub: Pub, t: Cluster)
    requires Ready(s, pub) && Flow(s, pub, t, true, Fan(s, pub))
    ensures pub.p.Send? && pub.g < |s.gurus| && Ordinary(Find(s.gurus[pub.g].subs, pub.p.h))
    ensures Leads(s, pub.link, pub.a, pub.g)
    ensures pub.link in t.chans && t.chans[pub.link].up != [] && Enabled(t, GuruTakes(pub.link, 0, 0))
  {
    hide Fan, Ordinary, Quiet, FanLeads, AnswersStray;
    assert Carries(t.chans[pub.link].up, pub.p, 1);
    Waits(t.chans[pub.link].up, pub.p, 1);
  }

  // An aide takes the oldest packets of one channel until it gets to the copy.
  lemma {:induction false} AidePhase(s: Cluster, pub: Pub, t: Cluster, owed: set<ChanId>, c: ChanId)
    returns (steps: seq<Step>, u: Cluster)
    requires Ready(s, pub) && Flow(s, pub, t, false, owed) && c in owed
    ensures TrafficRuns(t, steps, u, pub.p.h) && Flow(s, pub, u, false, owed - {c})
    decreases if c in t.chans then |t.chans[c].down| else 0
  {
    hide Flow, Frame, Carries, Ready, Fan, DownEffect, TrafficRuns, Push;
    CopyWaits(s, pub, t, owed, c);
    var step := AideTakes(c, 0, 0, {});
    var left := AideFlows(s, pub, t, false, owed, c, 0, 0, pub.a, 0);
    u := Next(t, step);
    steps := [step];
    OneStep(t, step, pub.p.h);
    if t.chans[c].down[0] != pub.p {
      TakenShorter(t, c);
      var more;
      more, u := AidePhase(s, pub, Next(t, step), owed, c);
      RunsCompose(t, steps, Next(t, step), more, u, pub.p.h);
      steps := steps + more;
    }
  }

  lemma TakenShorter(t: Cluster, c: ChanId)
    requires c in t.chans && t.chans[c].down != [] && Enabled(t, AideTakes(c, 0, 0, {}))
    ensures c in Next(t, AideTakes(c, 0, 0, {})).chans
    ensures |Next(t, AideTakes(c, 0, 0, {})).chans[c].down| < |t.chans[c].down|
  {
    hide DownEffect, Routed;
  }

  lemma CopyWaits(s: Cluster, pub: Pub, t: Cluster, owed: set<ChanId>, c: ChanId)
    requires Ready(s, pub) && Flow(s, pub, t, false, owed) && c in owed
    ensures pub.a < |s.aides| && pub.p.Send? && pub.g < |s.gurus| && FanLeads(s, pub) && AnswersStray(s, pub)
    ensures c in t.chans && t.chans[c].down != [] && Enabled(t, AideTakes(c, 0, 0, {}))
  {
    hide Ordinary, Quiet, Link;
    assert c in Fan(s, pub);
    assert Carries(t.chans[c].down, pub.p, 1);
    Waits(t.chans[c].down, pub.p, 1);
  }

  lemma {:induction false} AllLand(s: Cluster, pub: Pub, t: Cluster, owed: set<ChanId>)
    returns (steps: seq<Step>, u: Cluster)
    requires Ready(s, pub) && Flow(s, pub, t, false, owed)
    ensures TrafficRuns(t, steps, u, pub.p.h) && Flow(s, pub, u, false, {})
    decreases |owed|
  {
    hide Flow, Ready;
    if owed == {} {
      steps, u := [], t;
    } else {
      var c :| c in owed;
      var first, mid := AidePhase(s, pub, t, owed, c);
      var rest;
      rest, u := AllLand(s, pub, mid, owed - {c});
      RunsCompose(t, first, mid, rest, u, pub.p.h);
      steps := first + rest;
    }
  }

  // ----- the guru hears the answers

  ghost predicate Silent(q: seq<Packet>, h: Hash) {
    forall x :: x in q ==> x.h != h
  }

  // All answers in flight are on the channels `cs`.
  ghost predicate OnlyOn(t: Cluster, h: Hash, cs: set<ChanId>) {
    forall c :: c in t.chans && c !in cs ==> Silent(t.chans[c].up, h)
  }

  lemma AnswerEnabled(s: Cluster, pub: Pub, t: Cluster, c: ChanId)
    requires Ready(s, pub) && Flow(s, pub, t, false, {}) && c in t.chans && !Silent(t.chans[c].up, pub.p.h)
    ensures pub.p.Send? && pub.g < |s.gurus| && Ordinary(Find(s.gurus[pub.g].subs, pub.p.h))
    ensures Leads(s, pub.link, pub.a, pub.g) && t.chans[c].up != [] && Enabled(t, GuruTakes(c, 0, 0))
  {
    hide Ordinary, Quiet, FanLeads, AnswersStray, Fan;
    assert Answers(t.chans[c].up, pub.p, c in Strays(s, pub));
  }

  lemma TakenUpShorter(t: Cluster, c: ChanId)
    requires c in t.chans && t.chans[c].up != [] && Enabled(t, GuruTakes(c, 0, 0))
    ensures var u := Next(t, GuruTakes(c, 0, 0));
            && u.chans.Keys == t.chans.Keys && |u.chans[c].up| < |t.chans[c].up|
            && forall d :: d in t.chans && d != c ==> u.chans[d].up == t.chans[d].up
  {
    hide GuruEffect, Put;
  }

  lemma {:induction false} ChannelHeard(s: Cluster, pub: Pub, t: Cluster, cs: set<ChanId>, c: ChanId)
    returns (steps: seq<Step>, u: Cluster)
    requires Ready(s, pub) && Flow(s, pub, t, false, {}) && OnlyOn(t, pub.p.h, cs) && c in t.chans
    ensures TrafficRuns(t, steps, u, pub.p.h) && Flow(s, pub, u, false, {})
    ensures OnlyOn(u, pub.p.h, cs - {c})
    decreases if c in t.chans then |t.chans[c].up| else 0
  {
    hide Flow, Ready, Silent, Fan, GuruEffect, TrafficRuns, Ordinary, Next, Enabled;
    if Silent(t.chans[c].up, pub.p.h) {
      steps, u := [], t;
      assert TrafficRuns(t, [], t, pub.p.h) by { NoSteps(t, pub.p.h); }
    } else {
      AnswerEnabled(s, pub, t, c);
      var step := GuruTakes(c, 0, 0);
      GuruFlows(s, pub, t, false, {}, c, 0, 0);
      OneStep(t, step, pub.p.h);
      TakenUpShorter(t, c);
      var more;
      more, u := ChannelHeard(s, pub, Next(t, step), cs + {c}, c);
      assert cs + {c} - {c} == cs - {c};
      RunsCompose(t, [step], Next(t, step), more, u, pub.p.h);
      steps := [step] + more;
    }
  }

  lemma NoSteps(t: Cluster, h: Hash)
    ensures TrafficRuns(t, [], t, h)
  {
  }

  lemma {:induction false} AllHeard(s: Cluster, pub: Pub, t: Cluster, cs: set<ChanId>)
    returns (steps: seq<Step>, u: Cluster)
    requires Ready(s, pub) && Flow(s, pub, t, false, {}) && OnlyOn(t, pub.p.h, cs) && cs <= t.chans.Keys
    ensures TrafficRuns(t, steps, u, pub.p.h) && Flow(s, pub, u, false, {}) && OnlyOn(u, pub.p.h, {})
    decreases |cs|
  {
    hide Flow, Ready, Silent, Fan, OnlyOn;
    if cs == {} {
      steps, u := [], t;
    } else {
      var c :| c in cs;
      var first, mid := ChannelHeard(s, pub, t, cs, c);
      ReadyGuru(s, pub);
      SameChannels(s, pub, t, mid);
      var rest;
      rest, u := AllHeard(s, pub, mid, cs - {c});
      RunsCompose(t, first, mid, rest, u, pub.p.h);
      steps := first + rest;
    }
  }

  lemma SameChannels(s: Cluster, pub: Pub, t: Cluster, u: Cluster)
    requires pub.g < |s.gurus| && Flow(s, pub, t, false, {}) && Flow(s, pub, u, false, {})
    ensures t.chans.Keys == u.chans.Keys
  {
  }

  lemma NothingFlows(s: Cluster, pub: Pub, u: Cluster)
    requires Ready(s, pub) && Flow(s, pub, u, false, {}) && OnlyOn(u, pub.p.h, {})
    ensures Quiet(u, pub.p.h)
  {
    forall c, x | c in u.chans && (x in u.chans[c].up || x in u.chans[c].down) ensures x.h != pub.p.h {
      assert Carries(u.chans[c].down, pub.p, 0) && Silent(u.chans[c].up, pub.p.h);
      CountZero(u.chans[c].down, pub.p);
    }
  }

  /**
   * No publish gets stuck: from any state that is ready for one there is a run of deliveries
   * that ends with nothing about the topic in flight. So the counts of Delivery.dfy are always
   * counts of some run.
   */
  lemma PublishCompletes(s: Cluster, pub: Pub, now: nat) returns (steps: seq<Step>, t: Cluster)
    requires Ready(s, pub)
    ensures TrafficRuns(Next(s, ClientPublish(pub.a, pub.ss, pub.p, now, {})), steps, t, pub.p.h) && Quiet(t, pub.p.h)
  {
    hide Flow, Quiet, TrafficRuns, Fan, Ready;
    ReadyGuru(s, pub);
    PublishFlows(s, pub, now, pub.a, 0);
    var first := Next(s, ClientPublish(pub.a, pub.ss, pub.p, now, {}));
    var xs, mid := GuruPhase(s, pub, first);
    var ys, landed := AllLand(s, pub, mid, Fan(s, pub));
    var zs;
    zs, t := AllHeard(s, pub, landed, landed.chans.Keys);
    RunsCompose(first, xs, mid, ys, landed, pub.p.h);
    RunsCompose(first, xs + ys, landed, zs, t, pub.p.h);
    NothingFlows(s, pub, t);
    steps := xs + ys + zs;
  }

  /** So whenever everybody follows the newest list one publish can be run to its end. */
  lemma SettledPublishCompletes(s: Cluster, pub: Pub, now: nat) returns (steps: seq<Step>, t: Cluster)
    requires SettledPublish(s, pub)
    ensures pub.a < |s.aides| && pub.p.Send?
    ensures TrafficRuns(Next(s, ClientPublish(pub.a, pub.ss, pub.p, now, {})), steps, t, pub.p.h) && Quiet(t, pub.p.h)
    ensures OneCopyEach(s, pub, t) <==> OneWay(s, pub)
  {
    hide SettledPublish, Quiet, TrafficRuns, Ready, OneCopyEach, OneWay;
    SettledReady(s, pub);
    ReadyGuru(s, pub);
    steps, t := PublishCompletes(s, pub, now);
    ExactlyOnceCondition(s, pub, now, steps, t);
  }
}
