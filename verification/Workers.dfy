// A bucket's worker as it runs: it takes its messages one by one and dispatches them
// (iot/lookup-table.go:370-414). What it does to its bucket is what Sharding.dfy says of it.
module Workers {
  import opened Common
  import opened Hashes
  import opened Topics
  import opened Clusters
  import opened Buckets
  import opened Sharding

  function RoleOf(b: SubscribeBucket): Role {
    Role(b.isGuru)
  }

  // Each kind of message has been handled as its kind.
  ghost predicate AsItsKind(isGuru: bool, v: View, u: View, m: Message) {
    match m
    case SubUp(ss, p, now, upstream) => if p.Subscribe? then Joined(isGuru, v, u, ss, p, now, upstream) else u == v
    case SubDown(p, closed) => Acked(v, u, p, closed)
    case UnsubUp(ss, p) => Parted(isGuru, v, u, ss, p)
    case PubUp(ss, p, now, closed) => Sent(isGuru, v, u, ss, p, now, closed)
    case PubDown(p, now, closed) => SentDown(isGuru, v, u, p, now, closed)
  }

  /** The switch of processMessages, for everything but callbacks. */
  method ProcessMessage(b: SubscribeBucket, m: Message)
    modifies b
    ensures Performs(old(b.Now()), b.Now(), m.p.h, React(RoleOf(b), m, Find(old(b.mySubscriptions), m.p.h)), m.p)
    ensures AsItsKind(b.isGuru, old(b.Now()), b.Now(), m)
  {
    hide Joined, Acked, Parted, Sent, SentDown;
    match m
    case SubUp(ss, p, now, upstream) =>
      if p.Subscribe? {
        b.ProcessSubscribe(ss, p, now, upstream);
      }
    case SubDown(p, closed) =>
      b.ProcessSubscribeDown(p, closed);
    case UnsubUp(ss, p) =>
      b.ProcessUnsubscribe(ss, p);
    case PubUp(ss, p, now, closed) =>
      b.ProcessPublish(ss, p, now, closed);
    case PubDown(p, now, closed) =>
      b.ProcessPublishDown(p, now, closed);
  }

  /**
   * A worker's turn is the cluster's step: on an aide for the three kinds of message from its
   * clients and the two from its gurus, on a guru for the three from its aides.
   */
  lemma TurnIsStep(s: Cluster, a: nat, m: Message)
    requires a < |s.aides|
    ensures var ad := s.aides[a];
            var r := AideHandles(s, a, React(Role(false), m, Find(ad.subs, m.p.h)), m.p);
            && (m.SubUp? && m.p.Subscribe? && m.upstream == (ad.links != []) ==>
                  r == Clusters.Next(s, ClientSubscribe(a, m.ss, m.p, m.now)))
            && (m.UnsubUp? && m.p.Unsubscribe? ==> r == Clusters.Next(s, ClientUnsubscribe(a, m.ss, m.p)))
            && (m.PubUp? && m.p.Send? ==> r == Clusters.Next(s, ClientPublish(a, m.ss, m.p, m.now, m.closed)))
  {
    hide OnSubscribe, OnUnsubscribe, OnPublish, AideHandles;
  }

  lemma DeliveryIsTurn(t: Option<Topic>, c: Key, p: Packet, now: nat, closed: set<Key>)
    ensures match p
            case Subscribe(_, _, _, _) =>
              && GuruEffect(t, c, p, now) == React(Role(true), SubUp(c, p, now, false), t)
              && DownEffect(t, p, now, closed) == React(Role(false), SubDown(p, closed), t)
            case Unsubscribe(_) =>
              GuruEffect(t, c, p, now) == React(Role(true), UnsubUp(c, p), t)
            case Send(_, _) =>
              && GuruEffect(t, c, p, now) == React(Role(true), PubUp(c, p, now, {}), t)
              && DownEffect(t, p, now, closed) == React(Role(false), PubDown(p, now, closed), t)
  {
    hide OnSubscribe, OnUnsubscribe, OnPublish, OnPublishDown, OnSubscribeDown;
  }

  // ----- what a worker puts out about one topic

  ghost function About(q: seq<Packet>, h: Hash): seq<Packet>
  {
    if q == [] then [] else About(q[..|q| - 1], h) + if q[|q| - 1].h == h then [q[|q| - 1]] else []
  }

  ghost function Pushes(os: seq<Output>): seq<Packet>
  {
    if os == [] then [] else Pushes(os[..|os| - 1]) + os[|os| - 1].e.up
  }

  ghost function Writes(os: seq<Output>, w: Write): nat
  {
    if os == [] then 0 else Writes(os[..|os| - 1], w) + WritesOf(os[|os| - 1], w)
  }

  ghost function WritesOf(o: Output, w: Write): nat {
    if o.a.ForTopic? then Copies(o.e.written, o.a.m.p, w) else 0
  }

  // The packets pushed up and the writes made about topic `h` are those of the outputs in `log`,
  // the pushes in their order.
  ghost predicate Matches(r: Role, bits: nat, log: seq<Handled>, pushed: seq<Packet>, written: multiset<Write>,
                          h: Hash)
  {
    var os := Outputs(r, bits, log, h);
    && About(pushed, h) == Pushes(os)
    && forall w: Write :: w.p.h == h ==> written[w] == Writes(os, w)
  }

  lemma {:induction false} AboutAppend(q: seq<Packet>, r: seq<Packet>, h: Hash)
    ensures About(q + r, h) == About(q, h) + About(r, h)
  {
    if r == [] {
      assert q + r == q;
    } else {
      var init := r[..|r| - 1];
      assert (q + r)[..|q + r| - 1] == q + init;
      AboutAppend(q, init, h);
    }
  }

  lemma {:induction false} AboutOne(q: seq<Packet>, own: Hash, h: Hash)
    requires forall x :: x in q ==> x.h == own
    ensures About(q, h) == if h == own then q else []
  {
    if q != [] {
      assert q[|q| - 1] in q && q == q[..|q| - 1] + [q[|q| - 1]];
      AboutOne(q[..|q| - 1], own, h);
    }
  }

  lemma {:induction false} AboutUnsubscribes(order: seq<Hash>, h: Hash)
    requires NoDuplicates(order)
    ensures About(UnsubscribeAll(order), h) == if h in order then [Unsubscribe(h)] else []
  {
    if order != [] {
      var init, last := order[..|order| - 1], order[|order| - 1];
      assert order == init + [last] && last !in init;
      AboutUnsubscribes(init, h);
      assert UnsubscribeAll(order)[..|order| - 1] == UnsubscribeAll(init);
    }
  }

  lemma AtMostOne(os: seq<Output>)
    requires |os| <= 1
    ensures Pushes(os) == if os == [] then [] else os[0].e.up
    ensures forall w :: Writes(os, w) == if os == [] then 0 else WritesOf(os[0], w)
  {
    hide Writes, Pushes, WritesOf;
    PushesOne(os);
    forall w ensures Writes(os, w) == if os == [] then 0 else WritesOf(os[0], w) {
      WritesOne(os, w);
    }
  }

  lemma PushesOne(os: seq<Output>)
    requires |os| <= 1
    ensures Pushes(os) == if os == [] then [] else os[0].e.up
  {
    if os != [] {
      assert os[..0] == [] && Pushes([]) == [];
    }
  }

  lemma WritesOne(os: seq<Output>, w: Write)
    requires |os| <= 1
    ensures Writes(os, w) == if os == [] then 0 else WritesOf(os[0], w)
  {
    hide WritesOf;
    if os != [] {
      assert os[..0] == [] && Writes([], w) == 0;
    }
  }

  // What one turn adds about topic `h`.
  ghost predicate Adds(r: Role, bits: nat, a: Arrival, found: Table, h: Hash,
                       before: seq<Packet>, after: seq<Packet>, was: multiset<Write>, now: multiset<Write>)
  {
    var os := OutputOf(r, bits, Handled(a, found), h);
    && About(after, h) == About(before, h) + Pushes(os)
    && forall w: Write :: w.p.h == h ==> now[w] == was[w] + Writes(os, w)
  }

  lemma OwnPushes(r: Role, m: Message, t: Option<Topic>)
    ensures forall x :: x in React(r, m, t).up ==> x.h == m.p.h
  {
  }

  lemma MessageAdds(r: Role, bits: nat, m: Message, found: Table, h: Hash, before: seq<Packet>, was: multiset<Write>,
                    now: multiset<Write>)
    requires var e := React(r, m, Find(found, m.p.h)); forall w :: now[w] == was[w] + Copies(e.written, m.p, w)
    ensures Adds(r, bits, ForTopic(m), found, h, before, before + React(r, m, Find(found, m.p.h)).up, was, now)
  {
    hide React;
    var e := React(r, m, Find(found, m.p.h));
    OwnPushes(r, m, Find(found, m.p.h));
    AtMostOne(OutputOf(r, bits, Handled(ForTopic(m), found), h));
    AboutAppend(before, e.up, h);
    AboutOne(e.up, m.p.h, h);
  }

  lemma HeartbeatAdds(r: Role, bits: nat, a: Arrival, found: Table, h: Hash, before: seq<Packet>, order: seq<Hash>,
                      was: multiset<Write>)
    requires a.HeartbeatFor? && NoDuplicates(order)
    requires h in found ==> Shard(bits, h) == a.bucket
    requires h in order <==>
               !r.isGuru && h in found && OnHeartbeat(r.isGuru, found[h], h, a.now, a.closed).topic.None?
    ensures Adds(r, bits, a, found, h, before, before + UnsubscribeAll(order), was, was)
  {
    AtMostOne(OutputOf(r, bits, Handled(a, found), h));
    AboutAppend(before, UnsubscribeAll(order), h);
    AboutUnsubscribes(order, h);
  }

  /** One turn of the loop: the map, and what it adds to writes and pushes. */
  method Turn(b: SubscribeBucket, bits: nat, a: Arrival)
    requires a.HeartbeatFor? ==> forall h :: h in b.mySubscriptions ==> Shard(bits, h) == a.bucket
    modifies b
    ensures b.mySubscriptions == Handle(RoleOf(b), Worker(old(b.mySubscriptions), []), a).subs
    ensures forall h ::
              Adds(RoleOf(b), bits, a, old(b.mySubscriptions), h, old(b.pushed), b.pushed, old(b.written), b.written)
  {
    hide React, Adds;
    ghost var found, before, was := b.mySubscriptions, b.pushed, b.written;
    match a
    case ForTopic(m) =>
      ProcessMessage(b, m);
      forall h ensures Adds(RoleOf(b), bits, a, found, h, before, b.pushed, was, b.written) {
        MessageAdds(RoleOf(b), bits, m, found, h, before, was, b.written);
      }
    case HeartbeatFor(_, now, closed) =>
      b.HeartBeat(now, closed);
      ghost var order: seq<Hash> := [];
      if b.isGuru {
        assert b.pushed == before + UnsubscribeAll([]);
      } else {
        order :| && b.pushed == before + UnsubscribeAll(order)
                 && NoDuplicates(order)
                 && forall h :: h in order <==> h in found && h !in b.mySubscriptions;
      }
      forall h ensures Adds(RoleOf(b), bits, a, found, h, before, b.pushed, was, b.written) {
        HeartbeatAdds(RoleOf(b), bits, a, found, h, before, order, was);
      }
  }

  lemma HandleSubs(r: Role, w: Worker, a: Arrival)
    ensures Handle(r, w, a).subs == Handle(r, Worker(w.subs, []), a).subs
    ensures Handle(r, w, a).log == w.log + [Handled(a, w.subs)]
  {
  }

  lemma {:induction false} PushesAppend(x: seq<Output>, y: seq<Output>, w: Write)
    ensures Pushes(x + y) == Pushes(x) + Pushes(y) && Writes(x + y, w) == Writes(x, w) + Writes(y, w)
  {
    if y == [] {
      assert x + y == x;
    } else {
      var init := y[..|y| - 1];
      assert (x + y)[..|x + y| - 1] == x + init;
      PushesAppend(x, init, w);
    }
  }

  lemma StillMatches(r: Role, bits: nat, log: seq<Handled>, a: Arrival, found: Table, h: Hash,
                    before: seq<Packet>, after: seq<Packet>, was: multiset<Write>, now: multiset<Write>)
    requires Adds(r, bits, a, found, h, before, after, was, now)
    requires Matches(r, bits, log, before, was, h)
    ensures Matches(r, bits, log + [Handled(a, found)], after, now, h)
  {
    hide About, Pushes, Writes, Outputs, OutputOf;
    OutputsSnoc(r, bits, log, Handled(a, found), h);
    var x, y := Outputs(r, bits, log, h), OutputOf(r, bits, Handled(a, found), h);
    forall w ensures Pushes(x + y) == Pushes(x) + Pushes(y) && Writes(x + y, w) == Writes(x, w) + Writes(y, w) {
      PushesAppend(x, y, w);
    }
    assert Write(0, Unsubscribe(h)).p.h == h;
    PushesAppend(x, y, Write(0, Unsubscribe(h)));
  }

  // A bucket that only gets its own messages holds only its own topics.
  lemma {:induction false} OwnTopics(r: Role, bits: nat, incoming: seq<Arrival>, index: nat, h: Hash)
    requires forall a :: a in incoming ==> Dest(bits, a) == index
    ensures h in AllHandled(r, incoming).subs ==> Shard(bits, h) == index
  {
    hide Handle, Shard, Dest;
    if incoming != [] {
      var init, last := incoming[..|incoming| - 1], incoming[|incoming| - 1];
      assert last in incoming;
      OwnTopics(r, bits, init, index, h);
      if Shard(bits, h) != index {
        HandleOther(r, bits, AllHandled(r, init), last, h);
      }
    }
  }

  /**
   * The loop, over everything that has arrived in the bucket's channel: its map, its pushes
   * about each topic in order, and its writes are those of the messages handled in order.
   */
  method ProcessMessages(b: SubscribeBucket, bits: nat, index: nat, incoming: seq<Arrival>)
    requires b.mySubscriptions == map[] && b.written == multiset{} && b.pushed == []
    requires forall a :: a in incoming ==> Dest(bits, a) == index
    modifies b
    ensures b.mySubscriptions == AllHandled(RoleOf(b), incoming).subs
    ensures forall h :: Matches(RoleOf(b), bits, AllHandled(RoleOf(b), incoming).log, b.pushed, b.written, h)
  {
    hide Handle, Adds, Dest, Shard, Matches;
    assert incoming[..0] == [];
    forall h ensures Matches(RoleOf(b), bits, [], [], multiset{}, h) {
      NothingMatches(RoleOf(b), bits, h);
    }
    for i := 0 to |incoming|
      invariant b.mySubscriptions == AllHandled(RoleOf(b), incoming[..i]).subs
      invariant forall h :: Matches(RoleOf(b), bits, AllHandled(RoleOf(b), incoming[..i]).log, b.pushed, b.written, h)
    {
      ghost var w, a := AllHandled(RoleOf(b), incoming[..i]), incoming[i];
      ghost var found, before, was := b.mySubscriptions, b.pushed, b.written;
      assert incoming[..i + 1][..i] == incoming[..i] && a in incoming;
      HandleSubs(RoleOf(b), w, a);
      forall h | h in found ensures Shard(bits, h) == index {
        OwnTopics(RoleOf(b), bits, incoming[..i], index, h);
      }
      assert a.HeartbeatFor? ==> a.bucket == index by { HeartbeatDest(bits, a); }
      Turn(b, bits, incoming[i]);
      forall h ensures Matches(RoleOf(b), bits, w.log + [Handled(a, found)], b.pushed, b.written, h) {
        StillMatches(RoleOf(b), bits, w.log, a, found, h, before, b.pushed, was, b.written);
      }
    }
    assert incoming[..|incoming|] == incoming;
  }

  lemma NothingMatches(r: Role, bits: nat, h: Hash)
    ensures Matches(r, bits, [], [], multiset{}, h)
  {
  }

  lemma HeartbeatDest(bits: nat, a: Arrival)
    ensures a.HeartbeatFor? ==> Dest(bits, a) == a.bucket
  {
  }

  lemma {:induction false} ForDest(bits: nat, arrived: seq<Arrival>, index: nat)
    ensures forall a :: a in For(bits, arrived, index) ==> Dest(bits, a) == index
  {
    if arrived != [] {
      ForDest(bits, arrived[..|arrived| - 1], index);
    }
  }

  /**
   * The same for one bucket of a node that starts with nothing: whatever has arrived for any
   * bucket so far, once this worker has emptied its channel it holds exactly the topics of its
   * bucket that one worker handling every message alone would hold, and has pushed up and
   * written about each of them exactly what that worker would have.
   */
  method RunBucket(bits: nat, arrived: seq<Arrival>, index: nat, isGuru: bool) returns (b: SubscribeBucket)
    ensures fresh(b) && b.isGuru == isGuru
    ensures forall h :: Find(b.mySubscriptions, h) ==
              if FractionalBits(h, bits) == index then Find(Alone(Role(isGuru), bits, arrived).subs, h) else None
    ensures forall h :: FractionalBits(h, bits) == index ==>
              Matches(Role(isGuru), bits, Alone(Role(isGuru), bits, arrived).log, b.pushed, b.written, h)
  {
    hide AllHandled, Alone;
    b := new SubscribeBucket(isGuru);
    ForDest(bits, arrived, index);
    ProcessMessages(b, bits, index, For(bits, arrived, index));
    forall h
      ensures Find(b.mySubscriptions, h) ==
                if FractionalBits(h, bits) == index then Find(Alone(Role(isGuru), bits, arrived).subs, h) else None
      ensures FractionalBits(h, bits) == index ==>
                Matches(Role(isGuru), bits, Alone(Role(isGuru), bits, arrived).log, b.pushed, b.written, h)
    {
      SameAsAlone(Role(isGuru), bits, arrived, index, h);
      ghost var mine := AllHandled(Role(isGuru), For(bits, arrived, index));
      assert Matches(Role(isGuru), bits, mine.log, b.pushed, b.written, h);
    }
  }
}
