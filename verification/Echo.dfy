// What happens to exactly-once delivery after a guru-list change. The aide opens a fresh
// channel to every guru, also to those it already had one to (iot/upper-channels.go:105-124
// looks the name up in a map that nothing ever fills), and the old channel stays open. When the
// aide subscribes again over the fresh connection, or else a second client subscribes to a topic
// that did not move, the guru counts two contacts for one aide: the aide's subscribers get two
// copies and the publisher hears its own message. When the client unsubscribes instead, the guru
// goes on counting the old channel.
module Echo {
  import opened Common
  import opened Hashes
  import opened Topics
  import opened Clusters
  import opened Coverage
  import opened Delivery
  import opened Progress
  import Settling
  import opened Stranded

  lemma ReachableStep(s: Cluster, step: Step)
    requires Reachable(s) && Enabled(s, step)
    ensures Reachable(Next(s, step))
  {
    hide Reachable, Enabled, Next, Inv;
    ReachableInv(s);
    Settling.OneStep(s, step);
    Settling.ReachableRun(s, [step], Next(s, step));
  }

  const H := Hash(0, 0, 0)
  const ONE_GURU: Maglev := MaglevTable(1, [0])
  const TWO_GURUS: Maglev := MaglevTable(2, [0, 1])
  const SUB := Subscribe(H, false, false, true)
  const LIFE := SUBSCRIBE_LIFE

  ghost function Watched1(keys: set<Key>): Table {
    map[H := Topic(LIFE, map k | k in keys :: Item(false), false, false)]
  }

  // One guru and one aide that has its list.
  ghost function Start(): Cluster {
    Cluster([Aide(0, map[], Some(ONE_GURU), None, [0], {})], [Guru(0, map[], ONE_GURU)],
            map[0 := Chan(0, 0, [], [])], 1, ONE_GURU, ONE_GURU, multiset{})
  }

  // Client 1 is subscribed, and its subscription has reached the guru.
  ghost function Subscribed(): Cluster {
    Start().(aides := [Start().aides[0].(subs := Watched1({1}))],
             gurus := [Guru(0, Watched1({0}), ONE_GURU)])
  }

  // A second guru has joined and everybody has the new list; the topic did not move.
  ghost function Grown(): Cluster {
    Cluster([Aide(0, Watched1({1}), Some(TWO_GURUS), Some(ONE_GURU), [1, 2], {})],
            [Guru(0, Watched1({0}), TWO_GURUS), Guru(0, map[], TWO_GURUS)],
            map[0 := Chan(0, 0, [], []), 1 := Chan(0, 0, [], []), 2 := Chan(0, 1, [], [])],
            3, ONE_GURU, TWO_GURUS, multiset{})
  }

  // The guru has heard of the topic over the new channel too, and the clients `keys` share it.
  ghost function Twice(keys: set<Key>): Cluster {
    Grown().(aides := [Grown().aides[0].(subs := Watched1(keys))],
             gurus := [Guru(0, Watched1({0, 1}), TWO_GURUS), Guru(0, map[], TWO_GURUS)])
  }

  // Client 2 subscribes to the same topic on the same aide.
  ghost function Doubled(): Cluster {
    Twice({1, 2})
  }

  // Where the tiers talk over TCP no second client is needed: the aide itself subscribes again
  // to all it has over each fresh connection.
  ghost function Redialled(): Cluster {
    Twice({1})
  }

  // Client 1 unsubscribes instead, and the aide drops the topic.
  ghost function Dropped(): Cluster {
    Grown().(aides := [Grown().aides[0].(subs := map[])])
  }

  lemma MoveTo(s: Cluster, step: Step, t: Cluster)
    requires Reachable(s) && Enabled(s, step) && Next(s, step) == t
    ensures Reachable(t)
  {
    ReachableStep(s, step);
  }

  ghost function Empty(): Cluster {
    Cluster([], [Guru(0, map[], ONE_GURU)], map[], 0, ONE_GURU, ONE_GURU, multiset{})
  }

  ghost function Joined(): Cluster {
    Empty().(aides := [Aide(0, map[], None, None, [], {})])
  }

  ghost function Listed(): Cluster {
    Start().(aides := [Start().aides[0].(pending := {0})])
  }

  lemma OneBucket()
    ensures BucketIndices(0) == {0}
  {
    assert Pow2(0) == 1 && Between(0, 0, Pow2(0));
    assert 0 in BucketIndices(0) && forall b :: b in BucketIndices(0) ==> b == 0;
  }

  lemma FirstLinks()
    ensures SwitchAide(Joined(), 0).chans == map[0 := Chan(0, 0, [], [])]
    ensures SwitchAide(Joined(), 0).aides == [Aide(0, map[], Some(ONE_GURU), None, [0], {0})]
  {
    OneBucket();
    assert Between(0, 0, 1);
    assert seq(1, i => 0 + i) == [0];
  }

  lemma SwitchToOne()
    ensures Enabled(Joined(), AideSwitches(0)) && Next(Joined(), AideSwitches(0)) == Listed()
  {
    FirstLinks();
    assert Next(Joined(), AideSwitches(0)) == SwitchAide(Joined(), 0);
    assert SwitchAide(Joined(), 0) == Listed() by { hide BucketIndices; }
  }

  lemma StartReachable()
    ensures Reachable(Start())
  {
    hide Reachable, Start, Listed;
    assert Reachable(Joined()) by {
      hide *;
      EmptyReachable();
      JoinStep();
      MoveTo(Empty(), AddAide(0), Joined());
    }
    SwitchToOne();
    MoveTo(Joined(), AideSwitches(0), Listed());
    assert Reachable(Start()) by {
      hide *;
      ResubscribeNothing();
      MoveTo(Listed(), AideResubscribes(0, 0, []), Start());
    }
  }

  lemma EmptyReachable()
    ensures Reachable(Empty())
  {
    assert Init(Empty()) && Runs(Empty(), [], Empty());
  }

  lemma JoinStep()
    ensures Enabled(Empty(), AddAide(0)) && Next(Empty(), AddAide(0)) == Joined()
  {
  }

  lemma ResubscribeNothing()
    ensures Enabled(Listed(), AideResubscribes(0, 0, []))
    ensures Next(Listed(), AideResubscribes(0, 0, [])) == Start()
  {
    var ad := Listed().aides[0];
    assert ad.pending - {0} == {};
    assert Routed(ad.(pending := {}), 0, []) == [];
    assert SubscribeAll([], false) == [];
    assert Push(Listed().chans, ad.(pending := {}), []) == Start().chans;
  }

  // ----- a client subscribes and the guru hears of it

  ghost function WithUp(s: Cluster, c: ChanId, q: seq<Packet>): Cluster {
    s.(chans := map d | d in s.chans :: if d == c then s.chans[d].(up := q) else s.chans[d])
  }

  ghost function WatchedOr(keys: set<Key>): Table {
    if keys == {} then map[] else Watched1(keys)
  }

  lemma SubscribeEffect(isGuru: bool, keys: set<Key>, k: Key)
    requires k !in keys
    ensures var e := OnSubscribe(isGuru, true, Find(WatchedOr(keys), H), k, SUB, 0);
            && e.written == {} && e.up == (if isGuru then [] else [SUB])
            && Put(WatchedOr(keys), H, e.topic) == Watched1(keys + {k})
  {
    var e := OnSubscribe(isGuru, true, Find(WatchedOr(keys), H), k, SUB, 0);
    assert e.topic.value.watchers == Watched1(keys + {k})[H].watchers;
  }

  lemma PushOnly(chans: map<ChanId, Chan>, ad: Aide, c: ChanId, p: Packet)
    requires c in chans && chans[c].up == [] && p.h == H && Link(ad, H) == Some(c)
    ensures Push(chans, ad, [p]) == map d | d in chans :: if d == c then chans[d].(up := [p]) else chans[d]
  {
    hide Routed, Link;
    forall d | d in chans ensures Push(chans, ad, [p])[d] == if d == c then chans[d].(up := [p]) else chans[d] {
      RoutedOne(ad, d, p);
      assert chans[d].up + [] == chans[d].up;
    }
  }

  // One more contact `k` on the aide; the subscribe leaves through channel `c`.
  lemma SubscribeStep(s: Cluster, k: Key, keys: set<Key>, c: ChanId, t: Cluster)
    requires |s.aides| == 1 && k !in keys && c in s.chans && s.chans[c].up == []
    requires s.aides[0].subs == WatchedOr(keys)
    requires s.aides[0].links != [] && Link(s.aides[0], H) == Some(c)
    requires t == WithUp(s, c, [SUB]).(aides := [s.aides[0].(subs := Watched1(keys + {k}))])
    ensures Enabled(s, ClientSubscribe(0, k, SUB, 0)) && Next(s, ClientSubscribe(0, k, SUB, 0)) == t
  {
    hide OnSubscribe, WatchedOr, Watched1, Put, Push;
    SubscribeEffect(false, keys, k);
    PushOnly(s.chans, t.aides[0], c, SUB);
    assert Delivered(0, {}, SUB) == multiset{};
  }

  lemma TakeStep(s: Cluster, keys: set<Key>, c: ChanId, t: Cluster)
    requires |s.gurus| > 0 && c in t.chans && t.chans[c].up == [] && t.chans[c].guru == 0 && c !in keys
    requires s.gurus[0].subs == WatchedOr(keys)
    requires s == WithUp(t.(gurus := s.gurus), c, [SUB])
    requires t.gurus == s.gurus[0 := s.gurus[0].(subs := Watched1(keys + {c}))]
    ensures Enabled(s, GuruTakes(c, 0, 0)) && Next(s, GuruTakes(c, 0, 0)) == t
  {
    hide WatchedOr, Watched1, Put;
    SubscribeEffect(true, keys, c);
    assert Without([SUB], 0) == [];
    forall d | d in s.chans ensures WriteDown(TakenUp(s.chans, c, 0), {}, SUB)[d] == t.chans[d] {
      assert s.chans[d].down + [] == s.chans[d].down;
    }
    assert WriteDown(TakenUp(s.chans, c, 0), {}, SUB) == t.chans;
  }

  lemma SubscribedReachable()
    ensures Reachable(Subscribed())
  {
    hide Reachable, Enabled, Next;
    var mid := WithUp(Start(), 0, [SUB]).(aides := Subscribed().aides);
    StartReachable();
    assert {} + {1} == {1} && {} + {0} == {0};
    SubscribeStep(Start(), 1, {}, 0, mid);
    MoveTo(Start(), ClientSubscribe(0, 1, SUB, 0), mid);
    assert mid == WithUp(Subscribed().(gurus := mid.gurus), 0, [SUB]);
    TakeStep(mid, {}, 0, Subscribed());
    MoveTo(mid, GuruTakes(0, 0, 0), Subscribed());
  }

  /**
   * Before any list change the same publish is one that ExactlyOnce speaks of: the guru knows
   * the aide by one channel only.
   */
  lemma SteadyBefore()
    ensures SteadyPublish(Subscribed(), Pub(0, 1, Send(H, 7), 0, 0))
  {
    hide Reachable, Watched1;
    SubscribedReachable();
    var s := Subscribed();
    assert Lookup(ONE_GURU, H) == 0;
    assert Stable(s, 0) && FirstList(s, 0);
    SubscribedOrdinary();
  }

  lemma SubscribedOrdinary()
    ensures AllOrdinary(Subscribed(), Pub(0, 1, Send(H, 7), 0, 0))
  {
  }

  // ----- the list change

  ghost function Announced(): Cluster {
    Subscribed().(previous := ONE_GURU, target := TWO_GURUS,
                  gurus := [Guru(0, Watched1({0}), ONE_GURU), Guru(0, map[], TWO_GURUS)])
  }

  ghost function GurusReady(): Cluster {
    Announced().(gurus := Grown().gurus)
  }

  ghost function Relinked(): Cluster {
    Grown().(aides := [Grown().aides[0].(pending := {0})])
  }

  lemma AnnounceStep()
    ensures Enabled(Subscribed(), NewList(TWO_GURUS, 0)) && Next(Subscribed(), NewList(TWO_GURUS, 0)) == Announced()
  {
    assert Settled(Subscribed(), Subscribed().aides[0]);
  }

  lemma GuruStep()
    ensures Enabled(Announced(), GuruSwitches(0)) && Next(Announced(), GuruSwitches(0)) == GurusReady()
  {
  }

  lemma Relinking()
    ensures var t := SwitchAide(GurusReady(), 0); t.chans == Relinked().chans && t.aides == Relinked().aides
  {
    hide Enabled, Next, Watched1, BucketIndices;
    OneBucket();
    var t := SwitchAide(GurusReady(), 0);
    assert t.chans == Relinked().chans by {
      assert Between(1, 1, 3) && Between(1, 2, 3);
    }
    assert t.aides == Relinked().aides by {
      assert seq(2, i => 1 + i) == [1, 2];
    }
  }

  lemma RelinkStep()
    ensures Enabled(GurusReady(), AideSwitches(0)) && Next(GurusReady(), AideSwitches(0)) == Relinked()
  {
    hide Watched1, BucketIndices;
    Relinking();
  }

  lemma NothingMoved()
    ensures Enabled(Relinked(), AideResubscribes(0, 0, [])) && Next(Relinked(), AideResubscribes(0, 0, [])) == Grown()
  {
    hide Watched1, Push;
    var ad := Relinked().aides[0];
    assert Lookup(ONE_GURU, H) == 0 && Lookup(TWO_GURUS, H) == 0;
    assert Enabled(Relinked(), AideResubscribes(0, 0, [])) by { StayedPut(); }
    assert ad.pending - {0} == {} && SubscribeAll([], false) == [];
    PushNothing(Relinked().chans, ad.(pending := {}));
  }

  lemma StayedPut()
    ensures Enabled(Relinked(), AideResubscribes(0, 0, []))
  {
    hide Shard;
    assert Lookup(ONE_GURU, H) == 0 && Lookup(TWO_GURUS, H) == 0;
    assert forall h :: h in Watched1({1}) ==> h == H;
  }

  lemma GrownReachable()
    ensures Reachable(Grown())
  {
    hide *;
    SubscribedReachable();
    AnnounceStep();
    MoveTo(Subscribed(), NewList(TWO_GURUS, 0), Announced());
    GuruStep();
    MoveTo(Announced(), GuruSwitches(0), GurusReady());
    RelinkStep();
    MoveTo(GurusReady(), AideSwitches(0), Relinked());
    NothingMoved();
    MoveTo(Relinked(), AideResubscribes(0, 0, []), Grown());
  }

  lemma DoubledReachable()
    ensures Reachable(Doubled())
  {
    hide Reachable, Enabled, Next;
    var mid := WithUp(Grown(), 1, [SUB]).(aides := Doubled().aides);
    GrownReachable();
    assert {1} + {2} == {1, 2} && {0} + {1} == {0, 1};
    assert Lookup(TWO_GURUS, H) == 0;
    SubscribeStep(Grown(), 2, {1}, 1, mid);
    MoveTo(Grown(), ClientSubscribe(0, 2, SUB, 0), mid);
    assert mid == WithUp(Doubled().(gurus := mid.gurus), 1, [SUB]);
    TakeStep(mid, {0}, 1, Doubled());
    MoveTo(mid, GuruTakes(1, 0, 0), Doubled());
  }

  lemma RedialledReachable()
    ensures Reachable(Redialled())
  {
    hide Reachable, Enabled, Next;
    var mid := WithUp(Grown(), 1, [SUB]);
    GrownReachable();
    assert {0} + {1} == {0, 1};
    DialStep();
    MoveTo(Grown(), AideDials(0, 0, 0, [H]), mid);
    assert mid == WithUp(Redialled().(gurus := mid.gurus), 1, [SUB]);
    TakeStep(mid, {0}, 1, Redialled());
    MoveTo(mid, GuruTakes(1, 0, 0), Redialled());
  }

  lemma DialEnabled()
    ensures Enabled(Grown(), AideDials(0, 0, 0, [H]))
  {
    ShardInRange(H, 0);
    assert Lookup(TWO_GURUS, H) == 0 && Shard(0, H) == 0;
  }

  lemma DialStep()
    ensures Enabled(Grown(), AideDials(0, 0, 0, [H]))
    ensures Next(Grown(), AideDials(0, 0, 0, [H])) == WithUp(Grown(), 1, [SUB])
  {
    hide Watched1, Enabled, Push;
    DialEnabled();
    var s := Grown();
    assert Lookup(TWO_GURUS, H) == 0;
    assert SubscribeAll([H], true) == [SUB];
    PushOnly(s.chans, s.aides[0], 1, SUB);
  }

  lemma DropEffect()
    ensures var e := OnUnsubscribe(false, Find(Watched1({1}), H), 1, Unsubscribe(H));
            e == Effect(None, {}, [Unsubscribe(H)]) && Put(Watched1({1}), H, None) == map[]
  {
    assert Watched1({1})[H].watchers - {1} == map[];
  }

  lemma DropStep(mid: Cluster)
    requires mid == WithUp(Grown(), 1, [Unsubscribe(H)]).(aides := Dropped().aides)
    ensures Enabled(Grown(), ClientUnsubscribe(0, 1, Unsubscribe(H)))
    ensures Next(Grown(), ClientUnsubscribe(0, 1, Unsubscribe(H))) == mid
  {
    hide Watched1, Put, OnUnsubscribe, Push, Find;
    DropEffect();
    assert Lookup(TWO_GURUS, H) == 0;
    PushOnly(Grown().chans, mid.aides[0], 1, Unsubscribe(H));
    assert Delivered(0, {}, Unsubscribe(H)) == multiset{};
  }

  lemma UnheardEffect()
    ensures var topic := Find(Watched1({0}), H);
            && GuruEffect(topic, 1, Unsubscribe(H), 0) == Effect(topic, {}, [])
            && Put(Watched1({0}), H, topic) == Watched1({0})
  {
    var topic := Watched1({0})[H];
    assert 0 in topic.watchers && topic.watchers - {1} == topic.watchers;
    assert topic.(watchers := topic.watchers - {1}) == topic;
  }

  // A guru has taken the only packet of channel `c` and written nothing.
  lemma TakenOnly(chans: map<ChanId, Chan>, c: ChanId, p: Packet)
    requires c in chans && chans[c].up == []
    ensures var full := map d | d in chans :: if d == c then chans[d].(up := [p]) else chans[d];
            WriteDown(TakenUp(full, c, 0), {}, p) == chans
  {
    var full := map d | d in chans :: if d == c then chans[d].(up := [p]) else chans[d];
    assert Without([p], 0) == [];
    forall d | d in chans ensures WriteDown(TakenUp(full, c, 0), {}, p)[d] == chans[d] {
      assert chans[d].down + [] == chans[d].down;
    }
  }

  lemma UnheardStep(mid: Cluster)
    requires mid == WithUp(Grown(), 1, [Unsubscribe(H)]).(aides := Dropped().aides)
    ensures Enabled(mid, GuruTakes(1, 0, 0)) && Next(mid, GuruTakes(1, 0, 0)) == Dropped()
  {
    hide Watched1, Put, GuruEffect, Find, Shard, WriteDown, TakenUp;
    UnheardEffect();
    TakenOnly(Grown().chans, 1, Unsubscribe(H));
    assert mid.gurus[0 := mid.gurus[0]] == mid.gurus;
  }

  /**
   * A state that is reached by a list change and one unsubscribe, with every queue empty: the
   * aide does not hold the topic, and the guru counts its old channel among the topic's
   * contacts. By OldContactsStay it does so in every state up to the next list change.
   */
  lemma DroppedButCounted()
    ensures Reachable(Dropped()) && Stable(Dropped(), 0) && Drained(Dropped(), 0)
    ensures H !in Dropped().aides[0].subs && Old(Dropped(), 0, 0, 0, H, true)
  {
    hide Reachable, Enabled, Next;
    var mid := WithUp(Grown(), 1, [Unsubscribe(H)]).(aides := Dropped().aides);
    GrownReachable();
    DropStep(mid);
    MoveTo(Grown(), ClientUnsubscribe(0, 1, Unsubscribe(H)), mid);
    UnheardStep(mid);
    MoveTo(mid, GuruTakes(1, 0, 0), Dropped());
    assert Lookup(TWO_GURUS, H) == 0;
  }

  // ----- and then somebody publishes

  const PUBLISH := Pub(0, 1, Send(H, 7), 0, 1)

  lemma TwiceIsSettled(keys: set<Key>)
    requires Reachable(Twice(keys))
    ensures SettledPublish(Twice(keys), PUBLISH) && Drained(Twice(keys), 0) && !FirstList(Twice(keys), 0)
  {
    hide Reachable, Watched1;
    var s := Twice(keys);
    assert 0 in s.chans && 0 !in s.aides[0].links;
    assert Lookup(TWO_GURUS, H) == 0;
    TwiceIsOrdinary(keys);
  }

  lemma TwiceIsOrdinary(keys: set<Key>)
    ensures AllOrdinary(Twice(keys), PUBLISH)
    ensures LeadingTo(Twice(keys).chans, Fan(Twice(keys), PUBLISH), 0) == {0}
    ensures WatchersOf(Twice(keys).aides[0].subs, H).Keys == keys
  {
    assert Fan(Twice(keys), PUBLISH) == {0};
  }

  // Everybody on the aide gets one copy too many, whatever order the deliveries happen in.
  lemma OneTooMany(keys: set<Key>, k: Key, steps: seq<Step>, t: Cluster)
    requires Reachable(Twice(keys)) && k in keys
    requires TrafficRuns(Next(Twice(keys), ClientPublish(0, 1, Send(H, 7), 0, {})), steps, t, H) && Quiet(t, H)
    ensures SettledPublish(Twice(keys), PUBLISH) && Drained(Twice(keys), 0) && !FirstList(Twice(keys), 0)
    ensures t.inbox[Copy(0, k, Send(H, 7))] == if k == 1 then 1 else 2
  {
    hide SettledPublish, Ready, TrafficRuns, Reachable, Quiet, Fan, LeadingTo, FirstList;
    TwiceIsSettled(keys);
    TwiceIsOrdinary(keys);
    SettledReady(Twice(keys), PUBLISH);
    CopiesDelivered(Twice(keys), PUBLISH, 0, steps, t, 0, k);
  }

  /**
   * Exactly-once fails after a list change: in a reachable state with every queue empty, where
   * everybody has the newest list, client 1 publishes and gets its own message back, and
   * client 2 next to it gets the message twice.
   */
  lemma EchoAndDuplicate(steps: seq<Step>, t: Cluster)
    requires TrafficRuns(Next(Doubled(), ClientPublish(0, 1, Send(H, 7), 0, {})), steps, t, H) && Quiet(t, H)
    ensures SettledPublish(Doubled(), PUBLISH) && Drained(Doubled(), 0) && !FirstList(Doubled(), 0)
    ensures t.inbox[Copy(0, 1, Send(H, 7))] == 1 && t.inbox[Copy(0, 2, Send(H, 7))] == 2
  {
    hide SettledPublish, TrafficRuns, Reachable, Quiet, FirstList, Twice;
    DoubledReachable();
    OneTooMany({1, 2}, 1, steps, t);
    OneTooMany({1, 2}, 2, steps, t);
  }

  /** Over TCP client 1 alone is enough: the list change makes it hear itself. */
  lemma EchoAlone(steps: seq<Step>, t: Cluster)
    requires TrafficRuns(Next(Redialled(), ClientPublish(0, 1, Send(H, 7), 0, {})), steps, t, H) && Quiet(t, H)
    ensures SettledPublish(Redialled(), PUBLISH) && Drained(Redialled(), 0)
    ensures t.inbox[Copy(0, 1, Send(H, 7))] == 1
  {
    hide SettledPublish, TrafficRuns, Reachable, Quiet, FirstList, Twice;
    RedialledReachable();
    OneTooMany({1}, 1, steps, t);
  }

  /** And such runs there are. */
  lemma EchoHappens() returns (xs: seq<Step>, t: Cluster, ys: seq<Step>, u: Cluster)
    ensures Reachable(Doubled()) && Reachable(Redialled())
    ensures TrafficRuns(Next(Doubled(), ClientPublish(0, 1, Send(H, 7), 0, {})), xs, t, H) && Quiet(t, H)
    ensures t.inbox[Copy(0, 1, Send(H, 7))] == 1 && t.inbox[Copy(0, 2, Send(H, 7))] == 2
    ensures TrafficRuns(Next(Redialled(), ClientPublish(0, 1, Send(H, 7), 0, {})), ys, u, H) && Quiet(u, H)
    ensures u.inbox[Copy(0, 1, Send(H, 7))] == 1
  {
    hide TrafficRuns, Reachable, Quiet, SettledPublish, OneCopyEach, OneWay, FirstList, Twice;
    DoubledReachable();
    TwiceIsSettled({1, 2});
    xs, t := SettledPublishCompletes(Doubled(), PUBLISH, 0);
    EchoAndDuplicate(xs, t);
    RedialledReachable();
    TwiceIsSettled({1});
    ys, u := SettledPublishCompletes(Redialled(), PUBLISH, 0);
    EchoAlone(ys, u);
  }
}
