// The lookup table is split over 2^bits buckets, each with its own map, queue and worker
// (iot/lookup-table.go). Whatever order the workers run in, they end up as one worker would
// that handled every message in the order it arrived.
module Sharding {
  import opened Common
  import opened Hashes
  import opened Topics
  import opened Clusters

  datatype Role = Role(isGuru: bool)

  // A message with what its handler will read from outside: the clock, who is closed, and
  // whether there are channels up.
  datatype Message =
    | SubUp(ss: Key, p: Packet, now: nat, upstream: bool)
    | SubDown(p: Packet, closed: set<Key>)
    | UnsubUp(ss: Key, p: Packet)
    | PubUp(ss: Key, p: Packet, now: nat, closed: set<Key>)
    | PubDown(p: Packet, now: nat, closed: set<Key>)

  // What the send* functions and Heartbeat put into the buckets' channels.
  datatype Arrival =
    | ForTopic(m: Message)
    | HeartbeatFor(bucket: nat, now: nat, closed: set<Key>)

  // One message handled, with the table the worker found.
  datatype Handled = Handled(a: Arrival, found: Table)

  datatype Worker = Worker(subs: Table, log: seq<Handled>)

  datatype Shelf = Shelf(worker: Worker, queue: seq<Arrival>)

  // `arrived` and, per bucket, `worked` record the history of the run.
  datatype Node = Node(buckets: seq<Shelf>, arrived: seq<Arrival>)

  datatype Event = Arrive(a: Arrival) | Work(bucket: nat)

  function React(r: Role, m: Message, t: Option<Topic>): Effect {
    match m
    case SubUp(ss, p, now, upstream) =>
      if p.Subscribe? then OnSubscribe(r.isGuru, upstream, t, ss, p, now) else Effect(t, {}, [])
    case SubDown(_, closed) => OnSubscribeDown(t, closed)
    case UnsubUp(ss, p) => OnUnsubscribe(r.isGuru, t, ss, p)
    case PubUp(ss, p, now, closed) => OnPublish(r.isGuru, t, ss, p, now, closed)
    case PubDown(p, now, closed) => OnPublishDown(r.isGuru, t, p.h, now, closed)
  }

  /** processMessages: one turn of a worker's loop, on the table it owns. */
  function Handle(r: Role, w: Worker, a: Arrival): Worker {
    Worker(match a
           case ForTopic(m) => Put(w.subs, m.p.h, React(r, m, Find(w.subs, m.p.h)).topic)
           case HeartbeatFor(_, now, closed) =>
             map h | h in w.subs && OnHeartbeat(r.isGuru, w.subs[h], h, now, closed).topic.Some? ::
               OnHeartbeat(r.isGuru, w.subs[h], h, now, closed).topic.value,
           w.log + [Handled(a, w.subs)])
  }

  // The same, by a single worker that owns every topic: a heartbeat meant for one bucket
  // sweeps the topics of that bucket.
  function HandleAlone(r: Role, bits: nat, w: Worker, a: Arrival): Worker {
    match a
    case ForTopic(_) => Handle(r, w, a)
    case HeartbeatFor(b, now, closed) =>
      Worker(Sweep(w.subs, bits, b, r.isGuru, now, closed), w.log + [Handled(a, w.subs)])
  }

  function Alone(r: Role, bits: nat, arrived: seq<Arrival>): Worker
  {
    if arrived == [] then Worker(map[], [])
    else HandleAlone(r, bits, Alone(r, bits, arrived[..|arrived| - 1]), arrived[|arrived| - 1])
  }

  function AllHandled(r: Role, arrived: seq<Arrival>): Worker
  {
    if arrived == [] then Worker(map[], [])
    else Handle(r, AllHandled(r, arrived[..|arrived| - 1]), arrived[|arrived| - 1])
  }

  /** GetFractionalBits picks the bucket of a topic; a callback is sent to each bucket by index. */
  function Dest(bits: nat, a: Arrival): nat {
    match a
    case ForTopic(m) => Shard(bits, m.p.h)
    case HeartbeatFor(b, _, _) => b
  }

  // What one arrival did to one topic: the contacts written to and the packets pushed up.
  datatype Output = Output(a: Arrival, e: Effect)

  function OutputOf(r: Role, bits: nat, x: Handled, h: Hash): (os: seq<Output>)
    ensures |os| <= 1 && (os != [] ==> os[0].a == x.a)
  {
    match x.a
    case ForTopic(m) => if m.p.h == h then [Output(x.a, React(r, m, Find(x.found, h)))] else []
    case HeartbeatFor(b, now, closed) =>
      if Shard(bits, h) == b && h in x.found then
        [Output(x.a, OnHeartbeat(r.isGuru, x.found[h], h, now, closed))]
      else []
  }

  // What happened to topic `h`, in order.
  function Outputs(r: Role, bits: nat, log: seq<Handled>, h: Hash): seq<Output>
  {
    if log == [] then [] else Outputs(r, bits, log[..|log| - 1], h) + OutputOf(r, bits, log[|log| - 1], h)
  }

  ghost predicate Start(n: Node, bits: nat) {
    && n.arrived == [] && |n.buckets| == Pow2(bits)
    && forall b :: 0 <= b < |n.buckets| ==> n.buckets[b] == Shelf(Worker(map[], []), [])
  }

  ghost predicate Enabled(n: Node, bits: nat, e: Event) {
    match e
    case Arrive(a) => Dest(bits, a) < |n.buckets|
    case Work(b) => b < |n.buckets| && n.buckets[b].queue != []
  }

  function Next(r: Role, n: Node, bits: nat, e: Event): Node
    requires Enabled(n, bits, e)
  {
    match e
    case Arrive(a) =>
      var b := Dest(bits, a);
      Node(n.buckets[b := n.buckets[b].(queue := n.buckets[b].queue + [a])], n.arrived + [a])
    case Work(b) =>
      var k := n.buckets[b];
      n.(buckets := n.buckets[b := Shelf(Handle(r, k.worker, k.queue[0]), k.queue[1..])])
  }

  ghost predicate Runs(r: Role, n: Node, bits: nat, events: seq<Event>, t: Node)
    decreases |events|
  {
    if events == [] then n == t
    else Enabled(n, bits, events[0]) && Runs(r, Next(r, n, bits, events[0]), bits, events[1..], t)
  }

  // The arrivals that go to one bucket.
  function For(bits: nat, arrived: seq<Arrival>, b: nat): seq<Arrival>
  {
    if arrived == [] then []
    else
      var last := arrived[|arrived| - 1];
      For(bits, arrived[..|arrived| - 1], b) + if Dest(bits, last) == b then [last] else []
  }

  // Each worker has handled the oldest of its bucket's arrivals, and the rest are queued.
  ghost predicate BucketOk(r: Role, n: Node, bits: nat, b: nat)
    requires b < |n.buckets|
  {
    var k := n.buckets[b];
    var mine := For(bits, n.arrived, b);
    && |k.queue| <= |mine|
    && k.queue == mine[|mine| - |k.queue|..]
    && k.worker == AllHandled(r, mine[..|mine| - |k.queue|])
  }

  lemma QueueGrows(all: seq<Arrival>, rest: seq<Arrival>, more: seq<Arrival>)
    requires |rest| <= |all| && rest == all[|all| - |rest|..]
    ensures rest + more == (all + more)[|all| - |rest|..]
    ensures (all + more)[..|all| - |rest|] == all[..|all| - |rest|]
  {
  }

  lemma ArriveOk(r: Role, n: Node, bits: nat, a: Arrival, b: nat)
    requires Enabled(n, bits, Arrive(a)) && b < |n.buckets| && BucketOk(r, n, bits, b)
    ensures BucketOk(r, Next(r, n, bits, Arrive(a)), bits, b)
  {
    hide AllHandled, Dest, Handle;
    var t := Next(r, n, bits, Arrive(a));
    var more := if Dest(bits, a) == b then [a] else [];
    assert t.arrived[..|t.arrived| - 1] == n.arrived;
    QueueGrows(For(bits, n.arrived, b), n.buckets[b].queue, more);
    assert n.buckets[b].queue + [] == n.buckets[b].queue;
  }

  lemma WorkOk(r: Role, n: Node, bits: nat, b: nat)
    requires Enabled(n, bits, Work(b)) && BucketOk(r, n, bits, b)
    ensures BucketOk(r, Next(r, n, bits, Work(b)), bits, b)
  {
    hide For, Handle;
    var mine, queue := For(bits, n.arrived, b), n.buckets[b].queue;
    var done := |mine| - |queue|;
    assert mine[..done + 1][..done] == mine[..done];
    assert queue[1..] == mine[done + 1..];
  }

  lemma NextOk(r: Role, n: Node, bits: nat, e: Event, b: nat)
    requires Enabled(n, bits, e) && b < |n.buckets| && BucketOk(r, n, bits, b)
    ensures BucketOk(r, Next(r, n, bits, e), bits, b)
  {
    hide AllHandled, Handle, For;
    match e
    case Arrive(a) => ArriveOk(r, n, bits, a, b);
    case Work(w) =>
      if w == b {
        WorkOk(r, n, bits, b);
      }
  }

  lemma {:induction false} RunsOk(r: Role, n: Node, bits: nat, events: seq<Event>, t: Node)
    requires Runs(r, n, bits, events, t)
    requires forall b :: 0 <= b < |n.buckets| ==> BucketOk(r, n, bits, b)
    ensures |t.buckets| == |n.buckets| && forall b :: 0 <= b < |t.buckets| ==> BucketOk(r, t, bits, b)
    decreases |events|
  {
    if events != [] {
      var m := Next(r, n, bits, events[0]);
      forall b | 0 <= b < |m.buckets| ensures BucketOk(r, m, bits, b) {
        NextOk(r, n, bits, events[0], b);
      }
      RunsOk(r, m, bits, events[1..], t);
    }
  }

  lemma OutputsSnoc(r: Role, bits: nat, log: seq<Handled>, x: Handled, h: Hash)
    ensures Outputs(r, bits, log + [x], h) == Outputs(r, bits, log, h) + OutputOf(r, bits, x, h)
  {
    assert (log + [x])[..|log|] == log;
  }

  // What handling one arrival puts out for `h` depends only on what the table has for `h`.
  lemma SameOutput(r: Role, bits: nat, a: Arrival, found: Table, other: Table, h: Hash)
    requires Find(found, h) == Find(other, h)
    ensures OutputOf(r, bits, Handled(a, found), h) == OutputOf(r, bits, Handled(a, other), h)
  {
    hide React, OnHeartbeat;
  }

  lemma NoOutput(r: Role, bits: nat, a: Arrival, found: Table, h: Hash)
    requires Shard(bits, h) != Dest(bits, a)
    ensures OutputOf(r, bits, Handled(a, found), h) == []
  {
    hide React, OnHeartbeat;
  }

  ghost predicate Agree(r: Role, bits: nat, mine: Worker, all: Worker, h: Hash) {
    Find(mine.subs, h) == Find(all.subs, h) && Outputs(r, bits, mine.log, h) == Outputs(r, bits, all.log, h)
  }

  lemma AgreeOnOwn(r: Role, bits: nat, mine: Worker, all: Worker, a: Arrival, h: Hash)
    requires Agree(r, bits, mine, all, h) && Shard(bits, h) == Dest(bits, a)
    ensures Agree(r, bits, Handle(r, mine, a), HandleAlone(r, bits, all, a), h)
  {
    hide React, OnHeartbeat, Outputs, OutputOf;
    OutputsSnoc(r, bits, mine.log, Handled(a, mine.subs), h);
    OutputsSnoc(r, bits, all.log, Handled(a, all.subs), h);
    SameOutput(r, bits, a, mine.subs, all.subs, h);
  }

  lemma AgreeOnOther(r: Role, bits: nat, mine: Worker, all: Worker, a: Arrival, h: Hash)
    requires Agree(r, bits, mine, all, h) && Shard(bits, h) != Dest(bits, a)
    ensures Agree(r, bits, mine, HandleAlone(r, bits, all, a), h)
  {
    hide React, OnHeartbeat, Outputs, OutputOf;
    OutputsSnoc(r, bits, all.log, Handled(a, all.subs), h);
    NoOutput(r, bits, a, all.subs, h);
  }

  lemma HandleOther(r: Role, bits: nat, w: Worker, a: Arrival, h: Hash)
    requires h !in w.subs && Shard(bits, h) != Dest(bits, a)
    ensures h !in Handle(r, w, a).subs
  {
    hide React, OnHeartbeat, Shard;
  }

  // A bucket's worker and the single worker agree on the topics of that bucket, at every point,
  // and the bucket holds no others.
  lemma {:induction false} SameAsAlone(r: Role, bits: nat, arrived: seq<Arrival>, b: nat, h: Hash)
    ensures var mine := AllHandled(r, For(bits, arrived, b));
            if Shard(bits, h) == b then Agree(r, bits, mine, Alone(r, bits, arrived), h) else h !in mine.subs
  {
    hide React, Outputs, Find, OnHeartbeat, HandleAlone, Handle, Shard, Dest, Agree;
    if arrived != [] {
      var init, last := arrived[..|arrived| - 1], arrived[|arrived| - 1];
      SameAsAlone(r, bits, init, b, h);
      var mine, all := AllHandled(r, For(bits, init, b)), Alone(r, bits, init);
      if Dest(bits, last) == b {
        var more := For(bits, arrived, b);
        assert more[..|more| - 1] == For(bits, init, b);
        if Shard(bits, h) == b {
          AgreeOnOwn(r, bits, mine, all, last, h);
        } else {
          HandleOther(r, bits, mine, last, h);
        }
      } else {
        assert For(bits, arrived, b) == For(bits, init, b);
        if Shard(bits, h) == b {
          AgreeOnOther(r, bits, mine, all, last, h);
        }
      }
    } else {
      EmptyAgrees(r, bits, h);
    }
  }

  lemma EmptyAgrees(r: Role, bits: nat, h: Hash)
    ensures Agree(r, bits, Worker(map[], []), Worker(map[], []), h)
  {
  }

  /**
   * Sharding refines one table: after any interleaving of arrivals and workers that ends with
   * empty queues, every topic is in the bucket its hash names and in no other, and it and its
   * whole sequence of deliveries and pushes are what one worker would have produced by handling
   * all messages in arrival order.
   */
  lemma ShardingRefinesOneTable(r: Role, n: Node, bits: nat, events: seq<Event>, t: Node, h: Hash)
    requires bits < 64 && Start(n, bits) && Runs(r, n, bits, events, t)
    requires forall b :: 0 <= b < |t.buckets| ==> t.buckets[b].queue == []
    ensures Shard(bits, h) < |t.buckets| == Pow2(bits)
    ensures Agree(r, bits, t.buckets[Shard(bits, h)].worker, Alone(r, bits, t.arrived), h)
    ensures forall b :: 0 <= b < |t.buckets| && b != Shard(bits, h) ==> h !in t.buckets[b].worker.subs
  {
    ShardInRange(h, bits);
    forall b | 0 <= b < |n.buckets| ensures BucketOk(r, n, bits, b) {
    }
    RunsOk(r, n, bits, events, t);
    forall b | 0 <= b < |t.buckets|
      ensures t.buckets[b].worker == AllHandled(r, For(bits, t.arrived, b))
    {
      assert BucketOk(r, t, bits, b);
      var mine := For(bits, t.arrived, b);
      assert mine[..|mine|] == mine;
    }
    forall b | 0 <= b < |t.buckets| && b != Shard(bits, h) ensures h !in t.buckets[b].worker.subs {
      SameAsAlone(r, bits, t.arrived, b, h);
    }
    SameAsAlone(r, bits, t.arrived, Shard(bits, h), h);
  }
}
