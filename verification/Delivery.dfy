// How many copies of one publish reach each subscriber once everything in flight has landed.
module Delivery {
  import opened Common
  import opened Hashes
  import opened Topics
  import opened Clusters
  import opened Coverage

  ghost function WatchersOf(table: Table, h: Hash): map<Key, Item> {
    if h in table then table[h].watchers else map[]
  }

  // No packet about `h` is in flight.
  ghost predicate Quiet(s: Cluster, h: Hash) {
    forall c, p :: c in s.chans && (p in s.chans[c].up || p in s.chans[c].down) ==> p.h != h
  }

  // The traffic that may go on around one publish to `h`: every message in flight, whatever
  // clients do on other topics, and heartbeats that leave `h` and its contacts alone. Contacts of
  // `h` stay open.
  ghost predicate Traffic(s: Cluster, step: Step, h: Hash) {
    match step
    case ClientSubscribe(_, _, p, _) => p.h != h
    case ClientUnsubscribe(_, _, p) => p.h != h
    case ClientPublish(_, _, p, _, _) => p.h != h
    case GuruTakes(_, _, _) => true
    case AideTakes(c, i, _, closed) => closed == {}
    case AideHeartbeat(a, bucket, now, closed, _) =>
      && a < |s.aides|
      && SameTopic(s.aides[a].subs, Sweep(s.aides[a].subs, s.aides[a].bits, bucket, false, now, closed), h)
    case GuruHeartbeat(g, bucket, now) =>
      g < |s.gurus| && SameTopic(s.gurus[g].subs, Sweep(s.gurus[g].subs, s.gurus[g].bits, bucket, true, now, {}), h)
    case _ => false
  }

  ghost predicate TrafficRuns(s: Cluster, steps: seq<Step>, t: Cluster, h: Hash)
    decreases |steps|
  {
    if steps == [] then s == t
    else Enabled(s, steps[0]) && Traffic(s, steps[0], h) && TrafficRuns(Next(s, steps[0]), steps[1..], t, h)
  }

  // Topic `h` is an ordinary one at both tiers: not billing, and nobody asked for pub2self.
  ghost predicate Ordinary(t: Option<Topic>) {
    t.Some? ==> !t.value.billing && forall k :: k in t.value.watchers ==> !t.value.watchers[k].pub2self
  }

  // A publish by contact `ss` of aide `a`, which leaves through channel `link` for guru `g`.
  datatype Pub = Pub(a: nat, ss: Key, p: Packet, g: nat, link: ChanId)

  // The contacts the guru counts for the topic.
  ghost function Counted(s: Cluster, pub: Pub): set<ChanId>
    requires pub.g < |s.gurus|
  {
    WatchersOf(s.gurus[pub.g].subs, pub.p.h).Keys
  }

  // Those it will send the publish on to.
  ghost function Fan(s: Cluster, pub: Pub): set<ChanId>
    requires pub.g < |s.gurus|
  {
    Counted(s, pub) - {pub.link}
  }

  // Channels to the guru that it does not count, although it counts some.
  ghost function Strays(s: Cluster, pub: Pub): set<ChanId>
    requires pub.g < |s.gurus|
  {
    set c | c in s.chans && s.chans[c].guru == pub.g && c !in Counted(s, pub) && Counted(s, pub) != {}
  }

  ghost predicate AllOrdinary(s: Cluster, pub: Pub) {
    && pub.g < |s.gurus| && Ordinary(Find(s.gurus[pub.g].subs, pub.p.h))
    && forall a :: 0 <= a < |s.aides| ==> Ordinary(Find(s.aides[a].subs, pub.p.h))
  }

  // Every contact the guru will send the publish to leads to an aide.
  ghost predicate FanLeads(s: Cluster, pub: Pub)
    requires pub.g < |s.gurus|
  {
    forall c :: c in Fan(s, pub) ==> c in s.chans && s.chans[c].aide < |s.aides|
  }

  // An aide that does not hold the topic answers a copy with an Unsubscribe, over a channel
  // that the guru does not count.
  ghost predicate AnswersStray(s: Cluster, pub: Pub)
    requires pub.g < |s.gurus|
  {
    forall b, c :: 0 <= b < |s.aides| && pub.p.h !in s.aides[b].subs && Link(s.aides[b], pub.p.h) == Some(c) ==>
      c in s.chans && s.chans[c].guru == pub.g && c !in Counted(s, pub)
  }

  ghost predicate Ready(s: Cluster, pub: Pub) {
    && pub.a < |s.aides| && pub.p.Send?
    && Quiet(s, pub.p.h)
    && Link(s.aides[pub.a], pub.p.h) == Some(pub.link) && Leads(s, pub.link, pub.a, pub.g)
    && AllOrdinary(s, pub) && FanLeads(s, pub) && AnswersStray(s, pub)
  }

  ghost function LeadingTo(chans: map<ChanId, Chan>, cs: set<ChanId>, b: nat): set<ChanId> {
    set c | c in cs && c in chans && chans[c].aide == b
  }

  // The copies of the publish that contact `k` of aide `b` should get: one for each of the
  // guru's channels to its aide, and one from the aide itself unless it is the publisher.
  ghost function Share(s: Cluster, pub: Pub, b: nat, k: Key): nat
    requires b < |s.aides| && pub.g < |s.gurus|
  {
    if k !in WatchersOf(s.aides[b].subs, pub.p.h) then 0
    else (if b == pub.a && k != pub.ss then 1 else 0) + |LeadingTo(s.chans, Fan(s, pub), b)|
  }

  function Count(q: seq<Packet>, p: Packet): nat
  {
    if q == [] then 0 else Count(q[..|q| - 1], p) + if q[|q| - 1] == p then 1 else 0
  }

  // A queue that carries nothing about the topic but the publish itself, `n` times.
  ghost predicate Carries(q: seq<Packet>, p: Packet, n: nat) {
    Count(q, p) == n && forall x :: x in q && x.h == p.h ==> x == p
  }

  // The contacts of the topic are those of `s`, and so are the lists and the ends of the channels.
  ghost predicate Frame(s: Cluster, pub: Pub, t: Cluster)
    requires pub.g < |s.gurus|
  {
    && t.chans.Keys == s.chans.Keys && |t.aides| == |s.aides| && |t.gurus| == |s.gurus|
    && (forall c :: c in s.chans ==> t.chans[c].aide == s.chans[c].aide && t.chans[c].guru == s.chans[c].guru)
    && (forall b :: 0 <= b < |s.aides| ==> t.aides[b].(subs := s.aides[b].subs) == s.aides[b])
    && (forall b :: 0 <= b < |s.aides| ==> SameTopic(s.aides[b].subs, t.aides[b].subs, pub.p.h))
    && SameTopic(s.gurus[pub.g].subs, t.gurus[pub.g].subs, pub.p.h)
  }

  // A queue that carries nothing about the topic, or if `may` Unsubscribes of it.
  ghost predicate Answers(q: seq<Packet>, p: Packet, may: bool) {
    forall x :: x in q && x.h == p.h ==> may && x == Unsubscribe(p.h)
  }

  // If `on` the publish sits in the queue up of channel `link`, and in no other. Otherwise there
  // is nothing but answers, over stray channels.
  ghost predicate Ups(chans: map<ChanId, Chan>, p: Packet, on: bool, link: ChanId, strays: set<ChanId>) {
    forall c :: c in chans ==>
      if on then Carries(chans[c].up, p, if c == link then 1 else 0) else Answers(chans[c].up, p, c in strays)
  }

  // If `on`, the queues down of the channels `owed` hold one copy each, and no others do.
  ghost predicate Downs(chans: map<ChanId, Chan>, p: Packet, on: bool, owed: set<ChanId>) {
    forall c :: c in chans ==> Carries(chans[c].down, p, if on && c in owed then 1 else 0)
  }

  // `s` is the state before the publish and `t` one after it. The publish is still on its way
  // to the guru (`up`), or its copies over the channels `owed` are on their way to the aides, and
  // answers to others on their way back.
  ghost predicate Flow(s: Cluster, pub: Pub, t: Cluster, up: bool, owed: set<ChanId>)
    requires pub.g < |s.gurus|
  {
    && Frame(s, pub, t)
    && owed <= Fan(s, pub) && (up ==> owed == Fan(s, pub))
    && Ups(t.chans, pub.p, up, pub.link, Strays(s, pub)) && Downs(t.chans, pub.p, !up, owed)
  }

  // The copies contact `k` of aide `b` has or will get when the channels `owed` deliver.
  ghost function Promised(s: Cluster, pub: Pub, t: Cluster, owed: set<ChanId>, b: nat, k: Key): nat
    requires b < |s.aides|
  {
    t.inbox[Copy(b, k, pub.p)] +
    if k in WatchersOf(s.aides[b].subs, pub.p.h) then |LeadingTo(s.chans, owed, b)| else 0
  }

  ghost predicate SameTopic(before: Table, after: Table, h: Hash) {
    && (h in before <==> h in after)
    && (h in before ==> after[h].watchers == before[h].watchers && after[h].billing == before[h].billing)
  }

  lemma DeliveredCount(a: nat, keys: set<Key>, p: Packet, b: nat, k: Key, q: Packet)
    ensures Delivered(a, keys, p)[Copy(b, k, q)] == if a == b && p == q && k in keys then 1 else 0
  {
  }

  lemma {:induction false} RoutedOnly(ad: Aide, c: ChanId, ps: seq<Packet>, q: Packet)
    ensures q in Routed(ad, c, ps) ==> q in ps
  {
    if ps != [] {
      RoutedOnly(ad, c, ps[..|ps| - 1], q);
    }
  }

  lemma {:induction false} CountAppend(q: seq<Packet>, r: seq<Packet>, p: Packet)
    ensures Count(q + r, p) == Count(q, p) + Count(r, p)
  {
    if r == [] {
      assert q + r == q;
    } else {
      var init := r[..|r| - 1];
      assert (q + r)[..|q + r| - 1] == q + init;
      CountAppend(q, init, p);
    }
  }

  lemma {:induction false} CountZero(q: seq<Packet>, p: Packet)
    ensures Count(q, p) == 0 <==> p !in q
  {
    if q != [] {
      CountZero(q[..|q| - 1], p);
      assert q == q[..|q| - 1] + [q[|q| - 1]];
    }
  }

  lemma CarriesMore(q: seq<Packet>, p: Packet, n: nat, more: seq<Packet>)
    requires Carries(q, p, n) && forall x :: x in more ==> x.h != p.h
    ensures Carries(q + more, p, n)
  {
    CountAppend(q, more, p);
    CountZero(more, p);
  }

  lemma CarriesOneMore(q: seq<Packet>, p: Packet, n: nat)
    requires Carries(q, p, n)
    ensures Carries(q + [p], p, n + 1)
  {
    CountAppend(q, [p], p);
    assert [p][..0] == [];
  }

  lemma CarriesLess(q: seq<Packet>, p: Packet, n: nat, i: nat)
    requires Carries(q, p, n) && i < |q|
    ensures q[i].h == p.h ==> q[i] == p && n > 0
    ensures Carries(Without(q, i), p, if q[i] == p then n - 1 else n)
  {
    var pre, post := q[..i], q[i + 1..];
    assert q == pre + ([q[i]] + post);
    assert q[i] in q;
    CountAppend(pre, [q[i]] + post, p);
    CountAppend([q[i]], post, p);
    CountAppend(pre, post, p);
    assert [q[i]][..0] == [];
    assert forall x :: x in Without(q, i) ==> x in q;
  }

  lemma NothingCarried(q: seq<Packet>, p: Packet)
    requires Carries(q, p, 0)
    ensures Answers(q, p, false)
  {
    CountZero(q, p);
  }

  lemma PushQueues(chans: map<ChanId, Chan>, ad: Aide, ps: seq<Packet>, p: Packet, on: bool, link: ChanId,
                   strays: set<ChanId>)
    requires Ups(chans, p, on, link, strays) && forall q :: q in ps ==> q.h != p.h
    ensures Ups(Push(chans, ad, ps), p, on, link, strays)
  {
    hide Carries;
    var after := Push(chans, ad, ps);
    forall c | c in chans
      ensures if on then Carries(after[c].up, p, if c == link then 1 else 0) else Answers(after[c].up, p, c in strays)
    {
      forall q | q in Routed(ad, c, ps) ensures q in ps {
        RoutedOnly(ad, c, ps, q);
      }
      if on {
        CarriesMore(chans[c].up, p, if c == link then 1 else 0, Routed(ad, c, ps));
      }
    }
  }

  // An aide's answer goes over its link.
  lemma PushAnswer(chans: map<ChanId, Chan>, ad: Aide, p: Packet, link: ChanId, strays: set<ChanId>)
    requires Ups(chans, p, false, link, strays)
    requires Link(ad, p.h).Some? ==> Link(ad, p.h).value in strays
    ensures Ups(Push(chans, ad, [Unsubscribe(p.h)]), p, false, link, strays)
  {
    var u := Unsubscribe(p.h);
    hide Routed, Link;
    forall c | c in chans ensures Answers(Push(chans, ad, [u])[c].up, p, c in strays) {
      RoutedOne(ad, c, u);
    }
  }

  lemma PushDowns(chans: map<ChanId, Chan>, ad: Aide, ps: seq<Packet>, p: Packet, on: bool, owed: set<ChanId>)
    requires Downs(chans, p, on, owed)
    ensures Downs(Push(chans, ad, ps), p, on, owed)
  {
  }

  lemma TakeUpQueues(chans: map<ChanId, Chan>, c: ChanId, i: nat, p: Packet, on: bool, link: ChanId,
                     strays: set<ChanId>)
    requires Ups(chans, p, on, link, strays) && c in chans && i < |chans[c].up|
    ensures chans[c].up[i].h == p.h ==>
              if on then chans[c].up[i] == p && c == link else chans[c].up[i] == Unsubscribe(p.h) && c in strays
    ensures Ups(TakenUp(chans, c, i), p, on && chans[c].up[i] != p, link, strays)
  {
    var q, after := chans[c].up[i], TakenUp(chans, c, i);
    assert q in chans[c].up && forall x :: x in Without(chans[c].up, i) ==> x in chans[c].up;
    if on {
      CarriesLess(chans[c].up, p, if c == link then 1 else 0, i);
      if q == p {
        forall d | d in chans ensures Answers(after[d].up, p, d in strays) {
          NothingCarried(after[d].up, p);
        }
      }
    }
  }

  lemma TakeUpDowns(chans: map<ChanId, Chan>, c: ChanId, i: nat, p: Packet, on: bool, owed: set<ChanId>)
    requires Downs(chans, p, on, owed) && c in chans && i < |chans[c].up|
    ensures Downs(TakenUp(chans, c, i), p, on, owed)
  {
  }

  lemma TakeDownUps(chans: map<ChanId, Chan>, c: ChanId, i: nat, p: Packet, on: bool, link: ChanId, strays: set<ChanId>)
    requires Ups(chans, p, on, link, strays) && c in chans && i < |chans[c].down|
    ensures Ups(TakenDown(chans, c, i), p, on, link, strays)
  {
  }

  lemma TakeDownQueues(chans: map<ChanId, Chan>, c: ChanId, i: nat, p: Packet, on: bool, owed: set<ChanId>)
    requires Downs(chans, p, on, owed) && c in chans && i < |chans[c].down|
    ensures chans[c].down[i].h == p.h ==> chans[c].down[i] == p && on && c in owed
    ensures Downs(TakenDown(chans, c, i), p, on, if chans[c].down[i] == p then owed - {c} else owed)
  {
    CarriesLess(chans[c].down, p, if on && c in owed then 1 else 0, i);
  }

  lemma WriteDownQueues(chans: map<ChanId, Chan>, to: set<ChanId>, q: Packet, p: Packet, on: bool, owed: set<ChanId>)
    requires Downs(chans, p, on, owed)
    requires q == p ==> !on && to == owed
    requires q != p && q.h == p.h ==> to == {}
    ensures Downs(WriteDown(chans, to, q), p, on || q == p, owed)
  {
    hide Carries;
    forall c | c in chans
      ensures Carries(WriteDown(chans, to, q)[c].down, p, if (on || q == p) && c in owed then 1 else 0)
    {
      var before, n := chans[c].down, if on && c in owed then 1 else 0;
      if c !in to {
        assert WriteDown(chans, to, q)[c].down == before;
      } else if q == p {
        CarriesOneMore(before, p, n);
      } else {
        CarriesMore(before, p, n, [q]);
      }
    }
  }

  lemma WriteDownUps(chans: map<ChanId, Chan>, to: set<ChanId>, q: Packet, p: Packet, on: bool, link: ChanId,
                     strays: set<ChanId>)
    requires Ups(chans, p, on, link, strays)
    ensures Ups(WriteDown(chans, to, q), p, on, link, strays)
  {
  }

  lemma AideFrame(s: Cluster, pub: Pub, t: Cluster, a: nat, e: Effect, p: Packet)
    requires pub.g < |s.gurus| && Frame(s, pub, t) && a < |t.aides|
    requires p.h == pub.p.h ==> var topic := Find(t.aides[a].subs, p.h);
               e.topic.Some? == topic.Some? &&
               (topic.Some? ==> e.topic.value.watchers == topic.value.watchers &&
                                e.topic.value.billing == topic.value.billing)
    ensures Frame(s, pub, AideHandles(t, a, e, p))
  {
    assert SameTopic(s.aides[a].subs, t.aides[a].subs, pub.p.h);
  }

  lemma GuruFrame(s: Cluster, pub: Pub, t: Cluster, g: nat, h: Hash, topic: Option<Topic>, chans: map<ChanId, Chan>)
    requires pub.g < |s.gurus| && Frame(s, pub, t) && g < |t.gurus|
    requires h == pub.p.h ==> var before := Find(t.gurus[g].subs, h);
               topic.Some? == before.Some? &&
               (topic.Some? ==> topic.value.watchers == before.value.watchers &&
                                topic.value.billing == before.value.billing)
    requires chans.Keys == t.chans.Keys
    requires forall c :: c in chans ==> chans[c].aide == t.chans[c].aide && chans[c].guru == t.chans[c].guru
    ensures Frame(s, pub, t.(gurus := t.gurus[g := t.gurus[g].(subs := Put(t.gurus[g].subs, h, topic))],
                             chans := chans))
  {
  }

  lemma FrameStart(s: Cluster, pub: Pub)
    requires pub.g < |s.gurus|
    ensures Frame(s, pub, s)
  {
  }

  lemma FrameEnds(s: Cluster, pub: Pub, t: Cluster, c: ChanId)
    requires pub.g < |s.gurus| && Frame(s, pub, t) && c in t.chans
    ensures c in s.chans && |t.aides| == |s.aides|
    ensures t.chans[c].aide == s.chans[c].aide && t.chans[c].guru == s.chans[c].guru
  {
  }

  lemma FrameTopics(s: Cluster, pub: Pub, t: Cluster)
    requires pub.g < |s.gurus| && Frame(s, pub, t)
    ensures |t.aides| == |s.aides| && |t.gurus| == |s.gurus|
    ensures SameTopic(s.gurus[pub.g].subs, t.gurus[pub.g].subs, pub.p.h)
    ensures forall b :: 0 <= b < |s.aides| ==> SameTopic(s.aides[b].subs, t.aides[b].subs, pub.p.h)
    ensures forall b :: 0 <= b < |s.aides| ==> t.aides[b].(subs := s.aides[b].subs) == s.aides[b]
  {
  }

  // Nothing an aide pushes up on handling a packet is about another topic.
  lemma OwnTopicOnly(upstream: bool, t: Option<Topic>, ss: Key, p: Packet, now: nat, closed: set<Key>)
    ensures p.Subscribe? ==> forall q :: q in OnSubscribe(false, upstream, t, ss, p, now).up ==> q.h == p.h
    ensures forall q :: q in OnUnsubscribe(false, t, ss, p).up ==> q.h == p.h
    ensures forall q :: q in OnPublish(false, t, ss, p, now, closed).up ==> q.h == p.h
    ensures forall q :: q in DownEffect(t, p, now, closed).up ==> q.h == p.h
  {
  }

  // An aide handling something about another topic leaves the flow alone.
  lemma ElsewhereFlows(s: Cluster, pub: Pub, t: Cluster, up: bool, owed: set<ChanId>, a: nat, e: Effect, p: Packet)
    requires pub.g < |s.gurus| && Flow(s, pub, t, up, owed)
    requires a < |t.aides| && p.h != pub.p.h && forall q :: q in e.up ==> q.h == p.h
    ensures Flow(s, pub, AideHandles(t, a, e, p), up, owed)
    ensures forall b, k :: AideHandles(t, a, e, p).inbox[Copy(b, k, pub.p)] == t.inbox[Copy(b, k, pub.p)]
  {
    hide Frame, Ups, Downs, Fan;
    FrameTopics(s, pub, t);
    var u := AideHandles(t, a, e, p);
    AideFrame(s, pub, t, a, e, p);
    PushQueues(t.chans, u.aides[a], e.up, pub.p, up, pub.link, Strays(s, pub));
    PushDowns(t.chans, u.aides[a], e.up, pub.p, !up, owed);
    forall b, k ensures u.inbox[Copy(b, k, pub.p)] == t.inbox[Copy(b, k, pub.p)] {
      DeliveredCount(a, e.written, p, b, k, pub.p);
    }
  }

  // The guru writes the publish to its fan, and nothing else about the topic to anyone.
  lemma GuruWrites(t: Option<Topic>, pub: Pub, fan: set<ChanId>, now: nat)
    requires Ordinary(t) && pub.p.Send?
    requires fan == (if t.Some? then t.value.watchers.Keys else {}) - {pub.link}
    ensures var e := GuruEffect(t, pub.link, pub.p, now);
            && e.written == fan && e.topic.Some? == t.Some?
            && (t.Some? ==> e.topic.value.watchers == t.value.watchers && e.topic.value.billing == t.value.billing)
  {
    if t.Some? {
      assert BadContacts(t.value, pub.link, {}) == {};
      assert t.value.watchers - {} == t.value.watchers;
    }
  }

  // An answer over a stray channel changes nothing at a guru that counts others.
  lemma GuruIgnores(t: Option<Topic>, c: ChanId, h: Hash)
    requires t.Some? && c !in t.value.watchers && t.value.watchers != map[]
    ensures var e := OnUnsubscribe(true, t, c, Unsubscribe(h));
            && e.written == {} && e.topic.Some?
            && e.topic.value.watchers == t.value.watchers && e.topic.value.billing == t.value.billing
  {
    assert t.value.watchers - {c} == t.value.watchers;
  }

  // What the guru does with a packet about the topic: the publish, or an answer to it.
  lemma GuruHandlesOwn(s: Cluster, pub: Pub, t: Option<Topic>, c: ChanId, q: Packet, now: nat)
    requires pub.g < |s.gurus| && pub.p.Send? && Ordinary(t)
    requires WatchersOf(s.gurus[pub.g].subs, pub.p.h) == (if t.Some? then t.value.watchers else map[])
    requires (q == pub.p && c == pub.link) || (q == Unsubscribe(pub.p.h) && c in Strays(s, pub))
    ensures var e := GuruEffect(t, c, q, now);
            && e.written == (if q == pub.p then Fan(s, pub) else {}) && e.topic.Some? == t.Some?
            && (t.Some? ==> e.topic.value.watchers == t.value.watchers && e.topic.value.billing == t.value.billing)
  {
    hide OnPublish, OnUnsubscribe, Ordinary;
    if q == pub.p {
      GuruWrites(t, pub, Fan(s, pub), now);
    } else {
      GuruIgnores(t, c, q.h);
    }
  }

  lemma GuruFlows(s: Cluster, pub: Pub, t: Cluster, up: bool, owed: set<ChanId>, c: ChanId, i: nat, now: nat)
    requires pub.g < |s.gurus| && pub.p.Send? && Ordinary(Find(s.gurus[pub.g].subs, pub.p.h))
    requires Leads(s, pub.link, pub.a, pub.g)
    requires Flow(s, pub, t, up, owed) && Enabled(t, GuruTakes(c, i, now))
    ensures Flow(s, pub, Next(t, GuruTakes(c, i, now)), up && t.chans[c].up[i] != pub.p, owed)
  {
    hide Ups, Downs, Frame, GuruEffect, Fan, Strays, Counted, Ordinary, SameTopic;
    var g, q := t.chans[c].guru, t.chans[c].up[i];
    var topic := Find(t.gurus[g].subs, q.h);
    var e := GuruEffect(topic, c, q, now);
    FrameEnds(s, pub, t, c);
    FrameTopics(s, pub, t);
    TakeUpQueues(t.chans, c, i, pub.p, up, pub.link, Strays(s, pub));
    if q.h == pub.p.h {
      assert g == pub.g by { LeadsToGuru(s, pub, c); }
      SameOrdinary(s.gurus[g].subs, t.gurus[g].subs, q.h);
      GuruHandlesOwn(s, pub, topic, c, q, now);
    }
    var taken := TakenUp(t.chans, c, i);
    TakeUpDowns(t.chans, c, i, pub.p, !up, owed);
    WriteDownQueues(taken, e.written, q, pub.p, !up, owed);
    WriteDownUps(taken, e.written, q, pub.p, up && q != pub.p, pub.link, Strays(s, pub));
    GuruFrame(s, pub, t, g, q.h, e.topic, WriteDown(taken, e.written, q));
  }

  lemma LeadsToGuru(s: Cluster, pub: Pub, c: ChanId)
    requires pub.g < |s.gurus| && Leads(s, pub.link, pub.a, pub.g) && (c == pub.link || c in Strays(s, pub))
    ensures c in s.chans && s.chans[c].guru == pub.g
  {
  }

  lemma SameOrdinary(before: Table, after: Table, h: Hash)
    requires SameTopic(before, after, h)
    ensures Ordinary(Find(before, h)) == Ordinary(Find(after, h))
    ensures WatchersOf(before, h) == if Find(after, h).Some? then Find(after, h).value.watchers else map[]
  {
  }

  lemma Arrive(s: Cluster, owed: set<ChanId>, c: ChanId, b: nat)
    requires c in owed && c in s.chans
    ensures |LeadingTo(s.chans, owed, b)| ==
            |LeadingTo(s.chans, owed - {c}, b)| + if s.chans[c].aide == b then 1 else 0
  {
    assert LeadingTo(s.chans, owed, b) == LeadingTo(s.chans, owed - {c}, b) + if s.chans[c].aide == b then {c} else {};
  }

  lemma TakenDownFlows(s: Cluster, pub: Pub, t: Cluster, up: bool, owed: set<ChanId>, c: ChanId, i: nat)
    requires pub.g < |s.gurus| && Flow(s, pub, t, up, owed)
    requires c in t.chans && i < |t.chans[c].down|
    ensures t.chans[c].down[i].h == pub.p.h ==> t.chans[c].down[i] == pub.p && !up && c in owed
    ensures Flow(s, pub, t.(chans := TakenDown(t.chans, c, i)), up,
                 if t.chans[c].down[i] == pub.p then owed - {c} else owed)
  {
    hide Ups, Downs, Frame;
    TakeDownQueues(t.chans, c, i, pub.p, !up, owed);
    TakeDownUps(t.chans, c, i, pub.p, up, pub.link, Strays(s, pub));
    TakenDownFrame(s, pub, t, c, i);
  }

  lemma TakenDownFrame(s: Cluster, pub: Pub, t: Cluster, c: ChanId, i: nat)
    requires pub.g < |s.gurus| && Frame(s, pub, t) && c in t.chans && i < |t.chans[c].down|
    ensures Frame(s, pub, t.(chans := TakenDown(t.chans, c, i)))
  {
  }

  lemma PushNothing(chans: map<ChanId, Chan>, ad: Aide)
    ensures Push(chans, ad, []) == chans
  {
    forall c | c in chans ensures Push(chans, ad, [])[c] == chans[c] {
      assert Routed(ad, c, []) == [];
    }
  }

  // A copy lands: an aide that holds the topic writes it to each of its contacts, and one that
  // does not sends an answer.
  lemma CopyLands(s: Cluster, pub: Pub, t: Cluster, owed: set<ChanId>, a: nat, now: nat)
    requires pub.g < |s.gurus| && pub.p.Send? && Flow(s, pub, t, false, owed)
    requires a < |s.aides| && AnswersStray(s, pub) && Counted(s, pub) != {}
    ensures var u := AideHandles(t, a, DownEffect(Find(t.aides[a].subs, pub.p.h), pub.p, now, {}), pub.p);
            && Flow(s, pub, u, false, owed)
            && forall b, k :: u.inbox[Copy(b, k, pub.p)] == t.inbox[Copy(b, k, pub.p)] +
                 if b == a && k in WatchersOf(s.aides[a].subs, pub.p.h) then 1 else 0
  {
    hide Ups, Downs, Frame;
    FrameTopics(s, pub, t);
    var e := DownEffect(Find(t.aides[a].subs, pub.p.h), pub.p, now, {});
    var u := AideHandles(t, a, e, pub.p);
    assert e.written == WatchersOf(s.aides[a].subs, pub.p.h).Keys;
    AideFrame(s, pub, t, a, e, pub.p);
    PushDowns(t.chans, u.aides[a], e.up, pub.p, true, owed);
    if pub.p.h in s.aides[a].subs {
      assert e.up == [];
      PushNothing(t.chans, u.aides[a]);
    } else {
      assert Link(u.aides[a], pub.p.h) == Link(s.aides[a], pub.p.h);
      PushAnswer(t.chans, u.aides[a], pub.p, pub.link, Strays(s, pub));
    }
    forall b, k
      ensures u.inbox[Copy(b, k, pub.p)] == t.inbox[Copy(b, k, pub.p)] +
                if b == a && k in WatchersOf(s.aides[a].subs, pub.p.h) then 1 else 0
    {
      DeliveredCount(a, e.written, pub.p, b, k, pub.p);
    }
  }

  lemma AideFlows(s: Cluster, pub: Pub, t: Cluster, up: bool, owed: set<ChanId>, c: ChanId, i: nat, now: nat,
                  b: nat, k: Key)
    returns (owed': set<ChanId>)
    requires pub.g < |s.gurus| && pub.p.Send? && FanLeads(s, pub) && AnswersStray(s, pub)
    requires Flow(s, pub, t, up, owed) && b < |s.aides| && Enabled(t, AideTakes(c, i, now, {}))
    ensures owed' == if t.chans[c].down[i] == pub.p then owed - {c} else owed
    ensures Flow(s, pub, Next(t, AideTakes(c, i, now, {})), up, owed')
    ensures Promised(s, pub, Next(t, AideTakes(c, i, now, {})), owed', b, k) == Promised(s, pub, t, owed, b, k)
  {
    hide Frame, Ups, Downs, DownEffect, LeadingTo;
    FrameEnds(s, pub, t, c);
    var q, a := t.chans[c].down[i], t.chans[c].aide;
    var taken := t.(chans := TakenDown(t.chans, c, i));
    TakenDownFlows(s, pub, t, up, owed, c, i);
    if q == pub.p {
      owed' := owed - {c};
      assert c in Fan(s, pub) && c in Counted(s, pub);
      CopyLands(s, pub, taken, owed', a, now);
      Arrive(s, owed, c, b);
    } else {
      owed' := owed;
      OwnTopicOnly(true, Find(t.aides[a].subs, q.h), 0, q, now, {});
      ElsewhereFlows(s, pub, taken, up, owed, a, DownEffect(Find(t.aides[a].subs, q.h), q, now, {}), q);
    }
  }

  // Handing the publish to the aide that its publisher sits on.
  lemma AideWrites(t: Option<Topic>, ss: Key, p: Packet, now: nat)
    requires Ordinary(t)
    ensures var e := OnPublish(false, t, ss, p, now, {});
            && e.written == (if t.Some? then t.value.watchers.Keys else {}) - {ss} && e.up == [p]
            && e.topic.Some? == t.Some?
            && (t.Some? ==> e.topic.value.watchers == t.value.watchers && e.topic.value.billing == t.value.billing)
  {
    if t.Some? {
      assert BadContacts(t.value, ss, {}) == {};
      assert t.value.watchers - {} == t.value.watchers;
    }
  }

  lemma QuietQueues(s: Cluster, p: Packet, owed: set<ChanId>)
    requires Quiet(s, p.h)
    ensures (forall c :: c in s.chans ==> Carries(s.chans[c].up, p, 0)) && Downs(s.chans, p, false, owed)
  {
    forall c | c in s.chans ensures Carries(s.chans[c].up, p, 0) && Carries(s.chans[c].down, p, 0) {
      CountZero(s.chans[c].up, p);
      CountZero(s.chans[c].down, p);
    }
  }

  lemma RoutedOne(ad: Aide, c: ChanId, p: Packet)
    ensures Routed(ad, c, [p]) == if Link(ad, p.h) == Some(c) then [p] else []
  {
    hide Link;
    assert [p][..0] == [] && Routed(ad, c, []) == [];
  }

  lemma PushOne(chans: map<ChanId, Chan>, ad: Aide, p: Packet, link: ChanId, strays: set<ChanId>)
    requires (forall c :: c in chans ==> Carries(chans[c].up, p, 0)) && Link(ad, p.h) == Some(link)
    ensures Ups(Push(chans, ad, [p]), p, true, link, strays)
  {
    hide Carries, Routed, Link;
    forall c | c in chans ensures Carries(Push(chans, ad, [p])[c].up, p, if c == link then 1 else 0) {
      RoutedOne(ad, c, p);
      if c == link {
        CarriesOneMore(chans[c].up, p, 0);
      } else {
        assert chans[c].up + [] == chans[c].up;
      }
    }
  }

  lemma PublishFlows(s: Cluster, pub: Pub, now: nat, b: nat, k: Key)
    requires Ready(s, pub) && b < |s.aides|
    ensures var t := Next(s, ClientPublish(pub.a, pub.ss, pub.p, now, {}));
            && Flow(s, pub, t, true, Fan(s, pub))
            && Promised(s, pub, t, Fan(s, pub), b, k) == s.inbox[Copy(b, k, pub.p)] + Share(s, pub, b, k)
  {
    hide Frame, Ups, Downs, OnPublish, Quiet, FanLeads, AnswersStray, LeadingTo, Carries, Strays, Push, Counted;
    var a, p := pub.a, pub.p;
    var topic := Find(s.aides[a].subs, p.h);
    var e := OnPublish(false, topic, pub.ss, p, now, {});
    var t := AideHandles(s, a, e, p);
    AideWrites(topic, pub.ss, p, now);
    FrameStart(s, pub);
    AideFrame(s, pub, s, a, e, p);
    QuietQueues(s, p, Fan(s, pub));
    PushOne(s.chans, t.aides[a], p, pub.link, Strays(s, pub));
    PushDowns(s.chans, t.aides[a], [p], p, false, Fan(s, pub));
    DeliveredCount(a, e.written, p, b, k, p);
  }

  lemma {:induction false} TrafficFlows(s: Cluster, pub: Pub, t: Cluster, up: bool, owed: set<ChanId>,
                                        steps: seq<Step>, u: Cluster, b: nat, k: Key)
    returns (up': bool, owed': set<ChanId>)
    requires Ready(s, pub) && Flow(s, pub, t, up, owed) && TrafficRuns(t, steps, u, pub.p.h) && b < |s.aides|
    ensures Flow(s, pub, u, up', owed')
    ensures Promised(s, pub, u, owed', b, k) == Promised(s, pub, t, owed, b, k)
    decreases |steps|
  {
    up', owed' := up, owed;
    if steps != [] {
      var step := steps[0];
      up', owed' := StepFlows(s, pub, t, up, owed, step, b, k);
      up', owed' := TrafficFlows(s, pub, Next(t, step), up', owed', steps[1..], u, b, k);
    }
  }

  lemma ClientFlows(s: Cluster, pub: Pub, t: Cluster, up: bool, owed: set<ChanId>, step: Step)
    requires pub.g < |s.gurus| && Flow(s, pub, t, up, owed) && Enabled(t, step) && Traffic(t, step, pub.p.h)
    requires step.ClientSubscribe? || step.ClientUnsubscribe? || step.ClientPublish?
    ensures Flow(s, pub, Next(t, step), up, owed)
    ensures forall b, k :: Next(t, step).inbox[Copy(b, k, pub.p)] == t.inbox[Copy(b, k, pub.p)]
  {
    hide Flow, OnSubscribe, OnUnsubscribe, OnPublish;
    var ad, p := t.aides[step.a], step.p;
    var topic := Find(ad.subs, p.h);
    match step
    case ClientSubscribe(a, ss, _, now) =>
      OwnTopicOnly(ad.links != [], topic, ss, p, now, {});
      ElsewhereFlows(s, pub, t, up, owed, a, OnSubscribe(false, ad.links != [], topic, ss, p, now), p);
    case ClientUnsubscribe(a, ss, _) =>
      OwnTopicOnly(true, topic, ss, p, 0, {});
      ElsewhereFlows(s, pub, t, up, owed, a, OnUnsubscribe(false, topic, ss, p), p);
    case ClientPublish(a, ss, _, now, closed) =>
      OwnTopicOnly(true, topic, ss, p, now, closed);
      ElsewhereFlows(s, pub, t, up, owed, a, OnPublish(false, topic, ss, p, now, closed), p);
  }

  lemma AideSweepFlows(s: Cluster, pub: Pub, t: Cluster, up: bool, owed: set<ChanId>, step: Step)
    requires pub.g < |s.gurus| && Flow(s, pub, t, up, owed)
    requires step.AideHeartbeat? && Enabled(t, step) && Traffic(t, step, pub.p.h)
    ensures Flow(s, pub, Next(t, step), up, owed) && Next(t, step).inbox == t.inbox
  {
    hide Frame, Ups, Downs, Fan, Strays, Sweep;
    var ad := t.aides[step.a];
    var u, ups := Next(t, step), UnsubscribeAll(step.order);
    forall q | q in ups ensures q.h != pub.p.h {
      assert pub.p.h !in step.order;
    }
    AideSweepFrame(s, pub, t, step);
    PushQueues(t.chans, u.aides[step.a], ups, pub.p, up, pub.link, Strays(s, pub));
    PushDowns(t.chans, u.aides[step.a], ups, pub.p, !up, owed);
  }

  lemma AideSweepFrame(s: Cluster, pub: Pub, t: Cluster, step: Step)
    requires pub.g < |s.gurus| && Frame(s, pub, t)
    requires step.AideHeartbeat? && Enabled(t, step) && Traffic(t, step, pub.p.h)
    ensures Frame(s, pub, Next(t, step))
  {
    hide Sweep, Routed;
    assert SameTopic(s.aides[step.a].subs, t.aides[step.a].subs, pub.p.h);
  }

  lemma GuruSweepFlows(s: Cluster, pub: Pub, t: Cluster, up: bool, owed: set<ChanId>, step: Step)
    requires pub.g < |s.gurus| && Flow(s, pub, t, up, owed)
    requires step.GuruHeartbeat? && Enabled(t, step) && Traffic(t, step, pub.p.h)
    ensures Flow(s, pub, Next(t, step), up, owed) && Next(t, step).inbox == t.inbox
  {
    hide Ups, Downs, Fan, Strays, Sweep;
  }

  lemma StepFlows(s: Cluster, pub: Pub, t: Cluster, up: bool, owed: set<ChanId>, step: Step, b: nat, k: Key)
    returns (up': bool, owed': set<ChanId>)
    requires Ready(s, pub) && Flow(s, pub, t, up, owed) && b < |s.aides|
    requires Enabled(t, step) && Traffic(t, step, pub.p.h)
    ensures Flow(s, pub, Next(t, step), up', owed')
    ensures Promised(s, pub, Next(t, step), owed', b, k) == Promised(s, pub, t, owed, b, k)
  {
    hide Frame, Ups, Downs, LeadingTo, OnSubscribe, OnUnsubscribe, OnPublish, FanLeads, AnswersStray, Quiet;
    up', owed' := up, owed;
    match step
    case GuruTakes(c, i, now) =>
      GuruFlows(s, pub, t, up, owed, c, i, now);
      up' := up && t.chans[c].up[i] != pub.p;
    case AideTakes(c, i, now, _) =>
      owed' := AideFlows(s, pub, t, up, owed, c, i, now, b, k);
    case AideHeartbeat(_, _, _, _, _) =>
      AideSweepFlows(s, pub, t, up, owed, step);
    case GuruHeartbeat(_, _, _) =>
      GuruSweepFlows(s, pub, t, up, owed, step);
    case _ =>
      ClientFlows(s, pub, t, up, owed, step);
  }

  /**
   * Every interleaving of deliveries ends with the same count: a contact of aide b gets one
   * copy for each channel to b among the guru's contacts other than the publisher's channel,
   * and one more if it sits on the publisher's aide and is not the publisher.
   */
  lemma CopiesDelivered(s: Cluster, pub: Pub, now: nat, steps: seq<Step>, t: Cluster, b: nat, k: Key)
    requires Ready(s, pub) && b < |s.aides|
    requires TrafficRuns(Next(s, ClientPublish(pub.a, pub.ss, pub.p, now, {})), steps, t, pub.p.h)
    requires Quiet(t, pub.p.h)
    ensures t.inbox[Copy(b, k, pub.p)] == s.inbox[Copy(b, k, pub.p)] + Share(s, pub, b, k)
  {
    PublishFlows(s, pub, now, b, k);
    var first := Next(s, ClientPublish(pub.a, pub.ss, pub.p, now, {}));
    var up, owed := TrafficFlows(s, pub, first, true, Fan(s, pub), steps, t, b, k);
    CountZero(t.chans[pub.link].up, pub.p);
    forall c ensures c !in owed {
      if c in owed {
        CountZero(t.chans[c].down, pub.p);
      }
    }
    assert LeadingTo(s.chans, owed, b) == {};
  }

  // ----- exactly once

  // A publish where everybody follows the same list and nothing about the topic is in flight.
  ghost predicate SettledPublish(s: Cluster, pub: Pub) {
    && Reachable(s) && (forall a :: 0 <= a < |s.aides| ==> Stable(s, a))
    && Quiet(s, pub.p.h) && pub.p.Send? && pub.a < |s.aides|
    && pub.g == Lookup(s.target, pub.p.h) && Link(s.aides[pub.a], pub.p.h) == Some(pub.link)
    && AllOrdinary(s, pub)
  }

  // The link of an aide that does not hold a quiet topic is not counted by the owner.
  lemma LinkIsStray(s: Cluster, b: nat, h: Hash)
    requires Inv(s) && Quiet(s, h) && b < |s.aides| && Stable(s, b) && h !in s.aides[b].subs
    ensures var g := Lookup(s.target, h); var c := s.aides[b].links;
            && g < |s.gurus| && g < |c| && Link(s.aides[b], h) == Some(c[g])
            && c[g] in s.chans && s.chans[c[g]].guru == g
            && !Watched(Find(s.gurus[g].subs, h), c[g])
  {
    hide GuruOk, ChanOk, AideCovered, InStep, Waiting;
    assert AideOk(s, b) && AideExact(s, b);
    var g := Lookup(s.target, h);
    var c := s.aides[b].links[g];
    assert c in s.chans;
    AfterOther(Watched(Find(s.gurus[g].subs, h), c), s.chans[c].up, h);
    assert !Member(s, c, h);
  }

  lemma SettledReady(s: Cluster, pub: Pub)
    requires SettledPublish(s, pub)
    ensures Ready(s, pub)
  {
    hide Reachable, Waiting, AideCovered, AideExact, Ordinary, Quiet;
    ReachableInv(s);
    var h := pub.p.h;
    assert AideOk(s, pub.a) && Stable(s, pub.a);
    assert GuruOk(s, pub.g);
    forall c | c in Fan(s, pub) ensures c in s.chans && s.chans[c].aide < |s.aides| {
      assert ChanOk(s, c);
    }
    forall b, c | 0 <= b < |s.aides| && h !in s.aides[b].subs && Link(s.aides[b], h) == Some(c)
      ensures c in s.chans && s.chans[c].guru == pub.g && c !in Counted(s, pub)
    {
      LinkIsStray(s, b, h);
    }
  }

  // The owner guru counts one channel to each aide with a subscriber, and none but the
  // publisher's own to the aide of the publisher.
  ghost predicate OneWay(s: Cluster, pub: Pub)
    requires pub.g < |s.gurus|
  {
    forall b :: 0 <= b < |s.aides| && WatchersOf(s.aides[b].subs, pub.p.h) != map[] ==>
      |LeadingTo(s.chans, Fan(s, pub), b)| == if b == pub.a then 0 else 1
  }

  // From `s` to `t` each subscriber has got one more copy, and the publisher none.
  ghost predicate OneCopyEach(s: Cluster, pub: Pub, t: Cluster) {
    forall b, k :: 0 <= b < |s.aides| && k in WatchersOf(s.aides[b].subs, pub.p.h) ==>
      t.inbox[Copy(b, k, pub.p)] == s.inbox[Copy(b, k, pub.p)] + if b == pub.a && k == pub.ss then 0 else 1
  }

  /**
   * Exactly when delivery is exactly-once: in every reachable state where everybody follows the
   * newest list, whatever the lists before, and for every order of deliveries, one publish on a
   * quiet topic brings each other subscriber on any aide one copy and the publisher none if and
   * only if the owner guru counts one channel to each aide with a subscriber and no second one
   * to the publisher's. After a list change it may count more: see Echo.dfy.
   */
  lemma ExactlyOnceCondition(s: Cluster, pub: Pub, now: nat, steps: seq<Step>, t: Cluster)
    requires SettledPublish(s, pub)
    requires TrafficRuns(Next(s, ClientPublish(pub.a, pub.ss, pub.p, now, {})), steps, t, pub.p.h)
    requires Quiet(t, pub.p.h)
    ensures OneCopyEach(s, pub, t) <==> OneWay(s, pub)
  {
    hide SettledPublish, Ready, TrafficRuns, Quiet, Fan, LeadingTo;
    SettledReady(s, pub);
    assert pub.g < |s.gurus| by { ReadyGuru(s, pub); }
    forall b, k | 0 <= b < |s.aides| && k in WatchersOf(s.aides[b].subs, pub.p.h)
      ensures t.inbox[Copy(b, k, pub.p)] == s.inbox[Copy(b, k, pub.p)] +
                (if b == pub.a && k != pub.ss then 1 else 0) + |LeadingTo(s.chans, Fan(s, pub), b)|
    {
      CopiesDelivered(s, pub, now, steps, t, b, k);
    }
    forall b | 0 <= b < |s.aides| && WatchersOf(s.aides[b].subs, pub.p.h) != map[]
      ensures exists k :: k in WatchersOf(s.aides[b].subs, pub.p.h)
    {
      var k :| k in WatchersOf(s.aides[b].subs, pub.p.h);
    }
  }

  lemma ReadyGuru(s: Cluster, pub: Pub)
    requires Ready(s, pub)
    ensures pub.g < |s.gurus| && pub.a < |s.aides| && pub.p.Send?
  {
  }

  // ----- it holds on the first list

  ghost predicate SteadyPublish(s: Cluster, pub: Pub) {
    SettledPublish(s, pub) && forall a :: 0 <= a < |s.aides| ==> FirstList(s, a)
  }

  // On its first list the guru's contacts for a quiet topic are exactly the channels of the
  // aides that hold it.
  lemma SteadyContact(s: Cluster, c: ChanId, h: Hash)
    requires Reachable(s) && Quiet(s, h) && c in s.chans && s.chans[c].aide < |s.aides|
    requires Stable(s, s.chans[c].aide) && FirstList(s, s.chans[c].aide)
    ensures s.chans[c].guru < |s.gurus| ==>
              (Watched(Find(s.gurus[s.chans[c].guru].subs, h), c) <==>
               h in s.aides[s.chans[c].aide].subs && s.chans[c].guru == Lookup(s.target, h))
  {
    hide Reachable;
    ExactOverRuns(s, s.chans[c].aide, c, h);
    if s.chans[c].guru < |s.gurus| {
      AfterOther(Watched(Find(s.gurus[s.chans[c].guru].subs, h), c), s.chans[c].up, h);
    }
  }

  lemma SteadyFan(s: Cluster, pub: Pub, b: nat)
    requires SteadyPublish(s, pub) && b < |s.aides| && pub.p.h in s.aides[b].subs
    ensures pub.g < |s.gurus| && |LeadingTo(s.chans, Fan(s, pub), b)| == if b == pub.a then 0 else 1
  {
    hide Reachable, Waiting, AideCovered, AideExact, Ordinary, Quiet, InStep;
    ReachableInv(s);
    var h := pub.p.h;
    assert AideOk(s, b) && AideOk(s, pub.a) && Stable(s, b) && FirstList(s, b) && GuruOk(s, pub.g);
    var link := s.aides[b].links[pub.g];
    SteadyContact(s, link, h);
    assert LeadingTo(s.chans, Fan(s, pub), b) == {link} - {pub.link};
  }

  /**
   * Exactly-once delivery, no echo: in every reachable state where all aides are on their first
   * list, one publish on a topic with nothing in flight gives every other subscriber on any
   * aide exactly one copy and the publisher none, whatever order the deliveries happen in.
   */
  lemma ExactlyOnce(s: Cluster, pub: Pub, now: nat, steps: seq<Step>, t: Cluster)
    requires SteadyPublish(s, pub)
    requires TrafficRuns(Next(s, ClientPublish(pub.a, pub.ss, pub.p, now, {})), steps, t, pub.p.h)
    requires Quiet(t, pub.p.h)
    ensures OneCopyEach(s, pub, t)
  {
    hide SettledPublish, TrafficRuns, Quiet, Fan, LeadingTo, FirstList, OneCopyEach;
    SettledReady(s, pub);
    ReadyGuru(s, pub);
    forall b | 0 <= b < |s.aides| && WatchersOf(s.aides[b].subs, pub.p.h) != map[]
      ensures |LeadingTo(s.chans, Fan(s, pub), b)| == if b == pub.a then 0 else 1
    {
      SteadyFan(s, pub, b);
    }
    ExactlyOnceCondition(s, pub, now, steps, t);
  }
}
