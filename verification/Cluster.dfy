// The cluster as a state machine: aides, gurus, and the channels between them
// (iot/lookup-table.go, iot/upper-channels.go, iot/executive.go). One step is one message
// handled by one bucket worker, one callback run on one bucket, or one move of a guru-list
// change; a run is any interleaving of steps.
module Clusters {
  import opened Common
  import opened Hashes
  import opened Topics

  // The consistent-hash table of a guru list with `names` entries.
  datatype MaglevTable = MaglevTable(names: nat, entries: seq<nat>)

  type Maglev = m: MaglevTable | m.names > 0 && m.entries != [] && forall e :: e in m.entries ==> e < m.names
    witness MaglevTable(1, [0])

  function Lookup(m: Maglev, h: Hash): (index: nat)
    ensures index < m.names
  {
    m.entries[h.h0 % |m.entries|]
  }

  /** The first word of a hash chooses the entry, and every entry has its turn. */
  lemma LookupSpreads(m: Maglev, i: nat, h1: Word, h2: Word)
    requires |m.entries| <= TWO_TO_THE_64 && i < TWO_TO_THE_64
    ensures i < |m.entries| ==> Lookup(m, Hash(i, h1, h2)) == m.entries[i]
    ensures i + |m.entries| < TWO_TO_THE_64 ==>
              Lookup(m, Hash(i + |m.entries|, h1, h2)) == Lookup(m, Hash(i, h1, h2))
  {
    Turns(i, |m.entries|);
    Small(i, |m.entries|);
  }

  lemma Small(i: nat, n: nat)
    requires n > 0
    ensures i < n ==> i % n == i
  {
  }

  lemma Turns(i: nat, n: nat)
    requires n > 0
    ensures (i + n) % n == i % n
  {
    Remainder(i + n, n, i / n + 1);
  }

  lemma Remainder(x: nat, n: nat, q: nat)
    requires n > 0 && q * n <= x < q * n + n
    ensures x % n == x - q * n
  {
    var p := x / n;
    assert x == p * n + x % n;
    if p != q {
      if p < q {
        Monotone(p + 1, q, n);
      } else {
        Monotone(q + 1, p, n);
      }
      assert false;
    }
  }

  type ChanId = nat

  // `pending`: the buckets that have not yet run reSubscribeRemappedTopics for the last list.
  // `bits`: log2 of the number of buckets.
  datatype Aide = Aide(bits: nat, subs: Table, table: Option<Maglev>, prev: Option<Maglev>,
                       links: seq<ChanId>, pending: set<nat>)

  datatype Guru = Guru(bits: nat, subs: Table, table: Maglev)

  // A channel from an aide to a guru. Its id doubles as the key of the contact it has at the guru.
  // `up` holds what the guru's buckets have not handled yet, `down` what the aide's have not.
  datatype Chan = Chan(aide: nat, guru: nat, up: seq<Packet>, down: seq<Packet>)

  datatype Copy = Copy(aide: nat, key: Key, p: Packet)

  // `target` is the newest guru list and `previous` the one before. `inbox` counts every packet
  // written to a client.
  datatype Cluster = Cluster(aides: seq<Aide>, gurus: seq<Guru>, chans: map<ChanId, Chan>, next: ChanId,
                             previous: Maglev, target: Maglev, inbox: multiset<Copy>)

  datatype Step =
    | ClientSubscribe(a: nat, ss: Key, p: Packet, now: nat)
    | ClientUnsubscribe(a: nat, ss: Key, p: Packet)
    | ClientPublish(a: nat, ss: Key, p: Packet, now: nat, closed: set<Key>)
    | AideHeartbeat(a: nat, bucket: nat, now: nat, closed: set<Key>, order: seq<Hash>)
    | GuruTakes(c: ChanId, i: nat, now: nat)
    | AideTakes(c: ChanId, i: nat, now: nat, closed: set<Key>)
    | GuruHeartbeat(g: nat, bucket: nat, now: nat)
    | AddAide(bits: nat)
    | NewList(list: Maglev, bits: nat)
    | GuruSwitches(g: nat)
    | GuruPrunes(g: nat, bucket: nat)
    | AideSwitches(a: nat)
    | AideResubscribes(a: nat, bucket: nat, order: seq<Hash>)
    | AideDials(a: nat, index: nat, bucket: nat, order: seq<Hash>)

  function Shard(bits: nat, h: Hash): nat {
    FractionalBits(h, bits)
  }

  predicate Between(lo: nat, x: nat, hi: nat) {
    lo <= x < hi
  }

  function BucketIndices(bits: nat): set<nat> {
    set b | 0 <= b < Pow2(bits) && Between(0, b, Pow2(bits))
  }

  // A bucket worker takes the oldest message of its own shard; shards may overtake each other.
  predicate MayTake(q: seq<Packet>, i: nat, bits: nat) {
    i < |q| && forall j :: 0 <= j < i ==> Shard(bits, q[j].h) != Shard(bits, q[i].h)
  }

  /** getUpperChannel, or None while the aide has no guru list. */
  function Link(ad: Aide, h: Hash): Option<ChanId> {
    if ad.table.Some? && |ad.links| == ad.table.value.names then Some(ad.links[Lookup(ad.table.value, h)]) else None
  }

  /** The part of `ps` that PushUp sends into channel `c`, in order. */
  function Routed(ad: Aide, c: ChanId, ps: seq<Packet>): seq<Packet> {
    if ps == [] then []
    else
      var last := ps[|ps| - 1];
      Routed(ad, c, ps[..|ps| - 1]) + if Link(ad, last.h) == Some(c) then [last] else []
  }

  /** PushUp for each packet of `ps`; without a list it is an error that every caller ignores. */
  function Push(chans: map<ChanId, Chan>, ad: Aide, ps: seq<Packet>): map<ChanId, Chan> {
    map c | c in chans :: chans[c].(up := chans[c].up + Routed(ad, c, ps))
  }

  function Delivered(a: nat, keys: set<Key>, p: Packet): multiset<Copy> {
    multiset(set k | k in keys :: Copy(a, k, p))
  }

  function AideActs(s: Cluster, a: nat, ad: Aide, ups: seq<Packet>): Cluster
    requires a < |s.aides|
  {
    s.(aides := s.aides[a := ad], chans := Push(s.chans, ad, ups))
  }

  function AideHandles(s: Cluster, a: nat, e: Effect, p: Packet): Cluster
    requires a < |s.aides|
  {
    AideActs(s, a, s.aides[a].(subs := Put(s.aides[a].subs, p.h, e.topic)), e.up)
      .(inbox := s.inbox + Delivered(a, e.written, p))
  }

  function GuruEffect(t: Option<Topic>, c: ChanId, p: Packet, now: nat): Effect {
    match p
    case Subscribe(_, _, _, _) => OnSubscribe(true, false, t, c, p, now)
    case Unsubscribe(_) => OnUnsubscribe(true, t, c, p)
    case Send(_, _) => OnPublish(true, t, c, p, now, {})
  }

  // PushDownFromTop: only subacks and publishes come down.
  function DownEffect(t: Option<Topic>, p: Packet, now: nat, closed: set<Key>): Effect {
    match p
    case Subscribe(_, _, _, _) => OnSubscribeDown(t, closed)
    case Unsubscribe(_) => Effect(t, {}, [])
    case Send(_, _) => OnPublishDown(false, t, p.h, now, closed)
  }

  function TakenUp(chans: map<ChanId, Chan>, c: ChanId, i: nat): map<ChanId, Chan>
    requires c in chans && i < |chans[c].up|
  {
    chans[c := chans[c].(up := Without(chans[c].up, i))]
  }

  function TakenDown(chans: map<ChanId, Chan>, c: ChanId, i: nat): map<ChanId, Chan>
    requires c in chans && i < |chans[c].down|
  {
    chans[c := chans[c].(down := Without(chans[c].down, i))]
  }

  function WriteDown(chans: map<ChanId, Chan>, to: set<ChanId>, p: Packet): map<ChanId, Chan> {
    map c | c in chans :: chans[c].(down := chans[c].down + if c in to then [p] else [])
  }

  function Sweep(subs: Table, bits: nat, bucket: nat, isGuru: bool, now: nat, closed: set<Key>): Table {
    map h | h in subs && (Shard(bits, h) == bucket ==> OnHeartbeat(isGuru, subs[h], h, now, closed).topic.Some?) ::
      if Shard(bits, h) == bucket then OnHeartbeat(isGuru, subs[h], h, now, closed).topic.value else subs[h]
  }

  /** Whether reSubscribeRemappedTopics finds the topic's index changed. */
  predicate Remapped(ad: Aide, h: Hash) {
    ad.table.Some? && (ad.prev.None? || Lookup(ad.prev.value, h) != Lookup(ad.table.value, h))
  }

  predicate Settled(s: Cluster, ad: Aide) {
    ad.table == Some(s.target) && ad.pending == {}
  }

  ghost predicate Enabled(s: Cluster, step: Step) {
    match step
    case ClientSubscribe(a, ss, p, now) => a < |s.aides| && p.Subscribe?
    case ClientUnsubscribe(a, ss, p) => a < |s.aides| && p.Unsubscribe?
    case ClientPublish(a, ss, p, now, closed) => a < |s.aides| && p.Send?
    case AideHeartbeat(a, bucket, now, closed, order) =>
      && a < |s.aides|
      && NoDuplicates(order)
      && var ad := s.aides[a];
      forall h :: h in order <==> h in ad.subs && h !in Sweep(ad.subs, ad.bits, bucket, false, now, closed)
    case GuruTakes(c, i, now) =>
      c in s.chans && s.chans[c].guru < |s.gurus| && MayTake(s.chans[c].up, i, s.gurus[s.chans[c].guru].bits)
    case AideTakes(c, i, now, closed) =>
      // a contact writes each packet in a goroutine of its own, so on the way down any may overtake
      c in s.chans && s.chans[c].aide < |s.aides| && i < |s.chans[c].down|
    case GuruHeartbeat(g, bucket, now) =>
      // no guru topic times out
      && g < |s.gurus|
      && forall h :: h in s.gurus[g].subs && Shard(s.gurus[g].bits, h) == bucket ==> now <= s.gurus[g].subs[h].expires
    case AddAide(bits) => bits < 64
    case NewList(list, bits) =>
      // Operate changes the list by one name at the end, and only after the last change is done.
      && (forall g :: 0 <= g < |s.gurus| ==> s.gurus[g].table == s.target)
      && (forall a :: 0 <= a < |s.aides| ==> Settled(s, s.aides[a]))
      && (list.names == |s.gurus| + 1 || list.names + 1 == |s.gurus|)
    case GuruSwitches(g) => g < |s.gurus|
    case GuruPrunes(g, bucket) => g < |s.gurus|
    case AideSwitches(a) =>
      // Operate gives every guru the list before the first aide gets it.
      && a < |s.aides|
      && (forall g :: 0 <= g < |s.gurus| ==> s.gurus[g].table == s.target)
      && s.aides[a].table != Some(s.target) && s.aides[a].pending == {}
    case AideResubscribes(a, bucket, order) =>
      && a < |s.aides| && bucket in s.aides[a].pending
      && NoDuplicates(order)
      && var ad := s.aides[a];
      forall h :: h in order <==> h in ad.subs && Shard(ad.bits, h) == bucket && Remapped(ad, h)
    case AideDials(a, index, bucket, order) =>
      // a fresh connection to the guru with this index, where the tiers talk over TCP
      && a < |s.aides| && s.aides[a].table.Some?
      && NoDuplicates(order)
      && var ad := s.aides[a];
      forall h :: h in order <==> h in ad.subs && Shard(ad.bits, h) == bucket && Lookup(ad.table.value, h) == index
  }

  /** SetUpstreamNames on an aide: fresh channels for every name, the ones to lost gurus closed. */
  function SwitchAide(s: Cluster, a: nat): Cluster
    requires a < |s.aides|
  {
    var n := s.target.names;
    var kept := map c | c in s.chans && (s.chans[c].aide == a ==> s.chans[c].guru < n) :: s.chans[c];
    var end := s.next + n;
    var added := map c | s.next <= c < end && Between(s.next, c, end) :: Chan(a, c - s.next, [], []);
    var ad := s.aides[a];
    s.(chans := kept + added,
       next := end,
       aides := s.aides[a := ad.(table := Some(s.target), prev := ad.table,
                                 links := seq(n, i => s.next + i), pending := BucketIndices(ad.bits))])
  }

  /** guruDeleteRemappedAndGoneTopics on one bucket, under the guru's newest table. */
  function Prune(guru: Guru, g: nat, bucket: nat): Table {
    map h | h in guru.subs && (Shard(guru.bits, h) == bucket ==> Lookup(guru.table, h) == g) :: guru.subs[h]
  }

  function Next(s: Cluster, step: Step): Cluster
    requires Enabled(s, step)
  {
    match step
    case ClientSubscribe(a, ss, p, now) =>
      var ad := s.aides[a];
      AideHandles(s, a, OnSubscribe(false, ad.links != [], Find(ad.subs, p.h), ss, p, now), p)
    case ClientUnsubscribe(a, ss, p) =>
      AideHandles(s, a, OnUnsubscribe(false, Find(s.aides[a].subs, p.h), ss, p), p)
    case ClientPublish(a, ss, p, now, closed) =>
      AideHandles(s, a, OnPublish(false, Find(s.aides[a].subs, p.h), ss, p, now, closed), p)
    case AideHeartbeat(a, bucket, now, closed, order) =>
      var ad := s.aides[a];
      AideActs(s, a, ad.(subs := Sweep(ad.subs, ad.bits, bucket, false, now, closed)), UnsubscribeAll(order))
    case GuruTakes(c, i, now) =>
      var g, p := s.chans[c].guru, s.chans[c].up[i];
      var e := GuruEffect(Find(s.gurus[g].subs, p.h), c, p, now);
      s.(gurus := s.gurus[g := s.gurus[g].(subs := Put(s.gurus[g].subs, p.h, e.topic))],
         chans := WriteDown(TakenUp(s.chans, c, i), e.written, p))
    case AideTakes(c, i, now, closed) =>
      var a, p := s.chans[c].aide, s.chans[c].down[i];
      AideHandles(s.(chans := TakenDown(s.chans, c, i)), a, DownEffect(Find(s.aides[a].subs, p.h), p, now, closed), p)
    case GuruHeartbeat(g, bucket, now) =>
      var guru := s.gurus[g];
      s.(gurus := s.gurus[g := guru.(subs := Sweep(guru.subs, guru.bits, bucket, true, now, {}))])
    case AddAide(bits) =>
      s.(aides := s.aides + [Aide(bits, map[], None, None, [], {})])
    case NewList(list, bits) =>
      s.(previous := s.target, target := list,
         gurus := if list.names > |s.gurus| then s.gurus + [Guru(bits, map[], list)] else s.gurus[..|s.gurus| - 1])
    case GuruSwitches(g) =>
      s.(gurus := s.gurus[g := s.gurus[g].(table := s.target)])
    case GuruPrunes(g, bucket) =>
      s.(gurus := s.gurus[g := s.gurus[g].(subs := Prune(s.gurus[g], g, bucket))])
    case AideSwitches(a) =>
      SwitchAide(s, a)
    case AideResubscribes(a, bucket, order) =>
      var ad := s.aides[a];
      AideActs(s, a, ad.(pending := ad.pending - {bucket}), SubscribeAll(order, false))
    case AideDials(a, index, bucket, order) =>
      AideActs(s, a, s.aides[a], SubscribeAll(order, true))
  }

  ghost predicate Init(s: Cluster) {
    && s.aides == [] && s.chans == map[] && s.next == 0 && s.inbox == multiset{}
    && s.previous == s.target && |s.gurus| == s.target.names
    && forall g :: 0 <= g < |s.gurus| ==> s.gurus[g].subs == map[] && s.gurus[g].table == s.target
  }

  ghost predicate Runs(s: Cluster, steps: seq<Step>, t: Cluster)
    decreases |steps|
  {
    if steps == [] then s == t
    else Enabled(s, steps[0]) && Runs(Next(s, steps[0]), steps[1..], t)
  }
}
