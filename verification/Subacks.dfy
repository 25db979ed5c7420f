// Whether a client ever hears that it is subscribed: its aide passes the subscribe to the guru
// that owns the topic, the guru sends it back as suback, and the aide hands it down.
module Subacks {
  import opened Common
  import opened Hashes
  import opened Topics
  import opened Clusters
  import opened Coverage
  import Settling

  lemma CopiesOne(a: nat, keys: set<Key>, p: Packet, k: Key)
    requires k in keys
    ensures Delivered(a, keys, p)[Copy(a, k, p)] == 1
  {
    assert Copy(a, k, p) in (set x | x in keys :: Copy(a, x, p));
  }

  lemma SubscribeArrives(s: Cluster, a: nat, ss: Key, p: Packet, now: nat, c: ChanId)
    requires a < |s.aides| && p.Subscribe? && Link(s.aides[a], p.h) == Some(c) && c in s.chans
    ensures var t := Next(s, ClientSubscribe(a, ss, p, now));
            && t.chans.Keys == s.chans.Keys && t.chans[c].up == s.chans[c].up + [p]
            && t.chans[c].aide == s.chans[c].aide && t.chans[c].guru == s.chans[c].guru
            && |t.gurus| == |s.gurus| && |t.aides| == |s.aides|
            && p.h in t.aides[a].subs && ss in t.aides[a].subs[p.h].watchers
            && t.inbox[Copy(a, ss, p)] >= s.inbox[Copy(a, ss, p)]
  {
    hide AideHandles, Link;
    var ad := s.aides[a];
    var e := OnSubscribe(false, ad.links != [], Find(ad.subs, p.h), ss, p, now);
    assert Next(s, ClientSubscribe(a, ss, p, now)) == AideHandles(s, a, e, p);
    HandlesOne(s, a, e, p, c);
  }

  // What an effect that pushes just its packet up does to the aide and to the packet's channel.
  lemma HandlesOne(s: Cluster, a: nat, e: Effect, p: Packet, c: ChanId)
    requires a < |s.aides| && e.up == [p] && Link(s.aides[a], p.h) == Some(c) && c in s.chans
    ensures var t := AideHandles(s, a, e, p);
            && t.chans.Keys == s.chans.Keys && t.chans[c] == s.chans[c].(up := s.chans[c].up + [p])
            && t.gurus == s.gurus && |t.aides| == |s.aides| && t.aides[a].subs == Put(s.aides[a].subs, p.h, e.topic)
            && forall k :: t.inbox[k] >= s.inbox[k]
  {
    var ad := s.aides[a].(subs := Put(s.aides[a].subs, p.h, e.topic));
    assert Link(ad, p.h) == Some(c);
    hide Put, Link;
    assert [p][..0] == [] && Routed(ad, c, []) == [];
    assert Routed(ad, c, [p]) == [p];
  }

  // The guru sends the suback down the channel that the subscribe came from.
  lemma GuruAcks(s: Cluster, c: ChanId, p: Packet)
    requires c in s.chans && s.chans[c].guru < |s.gurus| && s.chans[c].up == [p] && p.Subscribe? && !p.noack
    ensures Enabled(s, GuruTakes(c, 0, 0))
    ensures var t := Next(s, GuruTakes(c, 0, 0));
            t.aides == s.aides && t.inbox == s.inbox && c in t.chans && t.chans[c].aide == s.chans[c].aide
            && p in t.chans[c].down
  {
    hide Put;
    var t := Next(s, GuruTakes(c, 0, 0));
    assert t.chans[c].down == s.chans[c].down + [p];
  }

  lemma GuruTakesFirst(s: Cluster, c: ChanId, p: Packet)
    requires c in s.chans && s.chans[c].guru < |s.gurus|
    requires |s.chans[c].up| > 1 && s.chans[c].up[|s.chans[c].up| - 1] == p
    ensures Enabled(s, GuruTakes(c, 0, 0))
    ensures var t := Next(s, GuruTakes(c, 0, 0));
            && t.aides == s.aides && t.inbox == s.inbox && |t.gurus| == |s.gurus|
            && c in t.chans && t.chans[c].aide == s.chans[c].aide && t.chans[c].guru == s.chans[c].guru
            && t.chans[c].up == s.chans[c].up[1..]
  {
    hide Put, GuruEffect;
    assert Without(s.chans[c].up, 0) == s.chans[c].up[1..];
  }

  lemma {:induction false} GuruGetsThere(s: Cluster, c: ChanId, p: Packet) returns (steps: seq<Step>, t: Cluster)
    requires Inv(s) && p.Subscribe? && !p.noack
    requires c in s.chans && s.chans[c].guru < |s.gurus|
    requires s.chans[c].up != [] && s.chans[c].up[|s.chans[c].up| - 1] == p
    ensures Runs(s, steps, t) && t.aides == s.aides && t.inbox == s.inbox
    ensures c in t.chans && t.chans[c].aide == s.chans[c].aide && p in t.chans[c].down
    decreases |s.chans[c].up|
  {
    hide Inv, Next, Enabled;
    var step := GuruTakes(c, 0, 0);
    if |s.chans[c].up| == 1 {
      assert s.chans[c].up == [p];
      GuruAcks(s, c, p);
      Settling.OneStep(s, step);
      steps, t := [step], Next(s, step);
    } else {
      GuruTakesFirst(s, c, p);
      Settling.OneStep(s, step);
      var more;
      more, t := GuruGetsThere(Next(s, step), c, p);
      Settling.RunsCompose(s, [step], Next(s, step), more, t);
      steps := [step] + more;
    }
  }

  lemma AideHandsDown(s: Cluster, c: ChanId, i: nat, a: nat, ss: Key, p: Packet)
    requires c in s.chans && s.chans[c].aide == a < |s.aides| && i < |s.chans[c].down| && s.chans[c].down[i] == p
    requires p.Subscribe? && p.h in s.aides[a].subs && ss in s.aides[a].subs[p.h].watchers
    ensures Enabled(s, AideTakes(c, i, 0, {}))
    ensures Next(s, AideTakes(c, i, 0, {})).inbox[Copy(a, ss, p)] == s.inbox[Copy(a, ss, p)] + 1
  {
    hide Put, Push;
    CopiesOne(a, s.aides[a].subs[p.h].watchers.Keys - {}, p, ss);
  }

  lemma SettledLink(s: Cluster, a: nat, h: Hash) returns (c: ChanId)
    requires Inv(s) && Stable(s, a)
    ensures Link(s.aides[a], h) == Some(c) && c in s.chans && s.chans[c].aide == a && s.chans[c].guru < |s.gurus|
  {
    hide GuruOk, ChanOk, AideCovered, AideExact, InStep;
    assert AideOk(s, a);
    c := s.aides[a].links[Lookup(s.target, h)];
  }

  /**
   * In every reachable state where an aide follows the newest list a client that subscribes on
   * it, and does not ask otherwise, can get its suback: some run of deliveries hands it down.
   */
  lemma SubackArrives(s: Cluster, a: nat, ss: Key, p: Packet, now: nat) returns (steps: seq<Step>, t: Cluster)
    requires Reachable(s) && Stable(s, a) && p.Subscribe? && !p.noack
    ensures Runs(Next(s, ClientSubscribe(a, ss, p, now)), steps, t)
    ensures t.inbox[Copy(a, ss, p)] > s.inbox[Copy(a, ss, p)]
  {
    hide Reachable, Inv, Runs;
    ReachableInv(s);
    var c := SettledLink(s, a, p.h);
    SubscribeArrives(s, a, ss, p, now, c);
    var first := Next(s, ClientSubscribe(a, ss, p, now));
    assert Inv(first) by { StepOk(s, ClientSubscribe(a, ss, p, now)); }
    var xs, mid := GuruGetsThere(first, c, p);
    assert Inv(mid) by { InvariantOverRuns(first, xs, mid); }
    var i :| 0 <= i < |mid.chans[c].down| && mid.chans[c].down[i] == p;
    var step := AideTakes(c, i, 0, {});
    AideHandsDown(mid, c, i, a, ss, p);
    Settling.OneStep(mid, step);
    t := Next(mid, step);
    Settling.RunsCompose(first, xs, mid, [step], t);
    steps := xs + [step];
  }

  /** An aide without gurus sends the suback itself, at once. */
  lemma LoneAideAcks(s: Cluster, a: nat, ss: Key, p: Packet, now: nat)
    requires a < |s.aides| && s.aides[a].links == [] && p.Subscribe?
    ensures Next(s, ClientSubscribe(a, ss, p, now)).inbox[Copy(a, ss, p)] == s.inbox[Copy(a, ss, p)] + 1
  {
    hide Put, Push;
    CopiesOne(a, {ss}, p, ss);
  }
}
