// What one message does to one topic: iot/subscribe.go and iot/publish.go, case by case.
// Every handler of the source touches only the topic its message names, so each is a
// function of that topic (None when the bucket does not hold it). The imperative bucket
// in Bucket.dfy is proved against these functions and the cluster runs on them.
module Topics {
  import opened Common
  import opened Hashes

  // A contact's 64-bit key.
  type Key = nat

  datatype Item = Item(pub2self: bool)

  // `owned`: the topic has a non-empty Owner. `billing`: it has a BillingAccumulator.
  datatype Topic = Topic(expires: nat, watchers: map<Key, Item>, billing: bool, owned: bool)

  type Table = map<Hash, Topic>

  // The packets that move between the tiers, with the options the routing code looks at:
  // `pub2self` and `noack` for the options of those names, `statsmax` for one that parses.
  datatype Packet =
    | Subscribe(h: Hash, pub2self: bool, statsmax: bool, noack: bool)
    | Unsubscribe(h: Hash)
    | Send(h: Hash, body: nat)

  // What a handler leaves behind: the topic, the contacts that `WriteDownstream` was called
  // on (once each, with the packet handled), and the packets handed to `PushUp`.
  datatype Effect = Effect(topic: Option<Topic>, written: set<Key>, up: seq<Packet>)

  const FIRST_LIFE := 20 * 60
  const SUBSCRIBE_LIFE := 26 * 60
  const PUBLISH_LIFE := 25 * 60
  const BILLING_LIFE := 60 * 60

  function Find(table: Table, h: Hash): Option<Topic> {
    if h in table then Some(table[h]) else None
  }

  function Put(table: Table, h: Hash, t: Option<Topic>): Table {
    if t.Some? then table[h := t.value] else table - {h}
  }

  function Open(t: Topic, closed: set<Key>): set<Key> {
    t.watchers.Keys - closed
  }

  /** processSubscribe. `upstream`: the router has channels. */
  function OnSubscribe(isGuru: bool, upstream: bool, t: Option<Topic>, ss: Key, p: Packet, now: nat): Effect
    requires p.Subscribe?
  {
    var found := if t.Some? then t.value else Topic(FIRST_LIFE + now, map[], false, false);
    var watchers := if ss in found.watchers then found.watchers else found.watchers[ss := Item(p.pub2self)];
    var topic := Topic(SUBSCRIBE_LIFE + now, watchers, found.billing || p.statsmax, found.owned);
    var acked := if isGuru then !p.noack else !upstream;
    Effect(Some(topic), if acked then {ss} else {}, if isGuru then [] else [p])
  }

  /** processSubscribeDown: every open contact gets the suback. */
  function OnSubscribeDown(t: Option<Topic>, closed: set<Key>): Effect {
    Effect(t, if t.Some? then Open(t.value, closed) else {}, [])
  }

  /** processUnsubscribe. */
  function OnUnsubscribe(isGuru: bool, t: Option<Topic>, ss: Key, p: Packet): Effect {
    if t.None? then
      Effect(None, {}, [])
    else
      var left := t.value.(watchers := t.value.watchers - {ss});
      var tell := if isGuru then [] else [p];
      if left.owned then
        Effect(Some(left), {}, tell)
      else if left.watchers == map[] && !left.billing then
        Effect(None, {}, tell)
      else
        Effect(Some(left), {}, [])
  }

  /** The contacts one publish from `ss` writes to: never back to the publisher unless it asked. */
  function Audience(t: Topic, ss: Key, closed: set<Key>): set<Key> {
    set k | k in t.watchers && k !in closed && (t.watchers[k].pub2self || k != ss)
  }

  function BadContacts(t: Topic, ss: Key, closed: set<Key>): set<Key> {
    set k | k in t.watchers && k in closed && !t.watchers[k].pub2self && k != ss
  }

  /** processPublish; for a billing topic only what it does to the topic and the push up. */
  function OnPublish(isGuru: bool, t: Option<Topic>, ss: Key, p: Packet, now: nat, closed: set<Key>): Effect {
    var tell := if isGuru then [] else [p];
    if t.None? then
      Effect(None, {}, tell)
    else if t.value.billing then
      Effect(Some(t.value.(expires := BILLING_LIFE + now)), {}, tell)
    else
      var kept := t.value.watchers - BadContacts(t.value, ss, closed);
      Effect(Some(t.value.(expires := PUBLISH_LIFE + now, watchers := kept)), Audience(t.value, ss, closed), tell)
  }

  /** processPublishDown: a copy to every open contact, or an Unsubscribe when nobody is left. */
  function OnPublishDown(isGuru: bool, t: Option<Topic>, h: Hash, now: nat, closed: set<Key>): Effect {
    if t.None? then
      Effect(None, {}, if isGuru then [] else [Unsubscribe(h)])
    else
      Effect(Some(t.value.(expires := PUBLISH_LIFE + now)), Open(t.value, closed), [])
  }

  /** heartBeatCallBack for one topic: what is left of it, and the unsubscribe for a topic that goes. */
  function OnHeartbeat(isGuru: bool, t: Topic, h: Hash, now: nat, closed: set<Key>): Effect {
    var left := if t.expires < now then map[] else t.watchers - closed;
    if left == map[] then
      Effect(None, {}, if isGuru then [] else [Unsubscribe(h)])
    else
      Effect(Some(t.(watchers := left)), {}, [])
  }

  function UnsubscribeAll(order: seq<Hash>): seq<Packet> {
    seq(|order|, i requires 0 <= i < |order| => Unsubscribe(order[i]))
  }

  // The subscribes of reSubscribeRemappedTopics carry no options, those of reSubscribeMyTopics
  // ask for no suback.
  function SubscribeAll(order: seq<Hash>, noack: bool): seq<Packet> {
    seq(|order|, i requires 0 <= i < |order| => Subscribe(order[i], false, false, noack))
  }

  ghost predicate NoDuplicates(order: seq<Hash>) {
    forall i, j :: 0 <= i < j < |order| ==> order[i] != order[j]
  }

  // ----- what the packets in flight will do

  /**
   * Whether the guru will count this aide among the topic's contacts once it has handled all
   * of `q`, given whether it does so now. Only the last Subscribe or Unsubscribe matters.
   */
  function After(member: bool, q: seq<Packet>, h: Hash): bool
  {
    if q == [] then member
    else
      var last := q[|q| - 1];
      if last.h == h && last.Subscribe? then true
      else if last.h == h && last.Unsubscribe? then false
      else After(member, q[..|q| - 1], h)
  }

  lemma AfterOne(member: bool, p: Packet, h: Hash)
    ensures After(member, [p], h) ==
            if p.h != h || p.Send? then member else p.Subscribe?
  {
    assert [p][..0] == [];
  }

  lemma {:induction false} AfterAppend(member: bool, q: seq<Packet>, r: seq<Packet>, h: Hash)
    ensures After(member, q + r, h) == After(After(member, q, h), r, h)
  {
    if r == [] {
      assert q + r == q;
    } else {
      var init := r[..|r| - 1];
      assert (q + r)[..|q + r| - 1] == q + init;
      AfterAppend(member, q, init, h);
    }
  }

  lemma {:induction false} AfterMonotone(q: seq<Packet>, h: Hash)
    ensures After(false, q, h) ==> After(true, q, h)
  {
    if q != [] {
      AfterMonotone(q[..|q| - 1], h);
    }
  }

  lemma {:induction false} AfterOther(member: bool, q: seq<Packet>, h: Hash)
    requires forall p :: p in q ==> p.h != h
    ensures After(member, q, h) == member
  {
    if q != [] {
      assert q[|q| - 1] in q;
      AfterOther(member, q[..|q| - 1], h);
    }
  }

  function Without(q: seq<Packet>, i: nat): seq<Packet>
    requires i < |q|
  {
    q[..i] + q[i + 1..]
  }

  // Handling the first packet of its shard leaves every topic's outcome where it was.
  lemma AfterTake(member: bool, q: seq<Packet>, i: nat, h: Hash)
    requires i < |q|
    requires forall j :: 0 <= j < i ==> q[j].h != q[i].h
    ensures After(member, q, h) == After(After(member, [q[i]], h), Without(q, i), h)
  {
    var pre, post := q[..i], q[i + 1..];
    assert q == pre + ([q[i]] + post);
    AfterAppend(member, pre, [q[i]] + post, h);
    AfterAppend(After(member, pre, h), [q[i]], post, h);
    AfterAppend(After(member, [q[i]], h), pre, post, h);
    AfterOne(member, q[i], h);
    AfterOne(After(member, pre, h), q[i], h);
    if q[i].h == h {
      AfterOther(member, pre, h);
      AfterOther(After(member, [q[i]], h), pre, h);
    }
  }

  // ----- an aide reports every change of heart

  ghost predicate Reports(before: Option<Topic>, e: Effect, h: Hash) {
    && (forall p :: p in e.up ==> p.h == h)
    && After(before.Some?, e.up, h) == e.topic.Some?
  }

  /**
   * On an aide whose topic has no owner, each handler pushes up exactly what keeps a guru that
   * agreed before in agreement: it ends up subscribed if and only if the aide holds the topic.
   */
  lemma AidesReport(upstream: bool, t: Option<Topic>, ss: Key, p: Packet, now: nat, closed: set<Key>)
    requires t.Some? ==> !t.value.owned
    ensures p.Subscribe? ==> Reports(t, OnSubscribe(false, upstream, t, ss, p, now), p.h)
    ensures Reports(t, OnSubscribeDown(t, closed), p.h)
    ensures p.Unsubscribe? ==> Reports(t, OnUnsubscribe(false, t, ss, p), p.h)
    ensures p.Send? ==> Reports(t, OnPublish(false, t, ss, p, now, closed), p.h)
    ensures Reports(t, OnPublishDown(false, t, p.h, now, closed), p.h)
    ensures t.Some? ==> Reports(t, OnHeartbeat(false, t.value, p.h, now, closed), p.h)
  {
    AfterOne(t.Some?, p, p.h);
    AfterOne(t.Some?, Unsubscribe(p.h), p.h);
  }

  /** The one way an aide could mislead its guru: an owned topic is kept but unsubscribed. */
  lemma OwnedTopicMisreports(t: Topic, ss: Key, p: Packet)
    requires t.owned && p.Unsubscribe?
    ensures OnUnsubscribe(false, Some(t), ss, p).topic.Some?
    ensures !Reports(Some(t), OnUnsubscribe(false, Some(t), ss, p), p.h)
  {
    AfterOne(true, p, p.h);
  }

  ghost predicate Watched(t: Option<Topic>, c: Key) {
    t.Some? && c in t.value.watchers
  }

  /**
   * On a guru each packet from contact `c` moves only c's own place in the topic, as After
   * says; all other contacts stay, as long as no contact of the topic is closed.
   */
  lemma GurusListen(t: Option<Topic>, c: Key, p: Packet, now: nat, d: Key)
    ensures p.Subscribe? ==>
              Watched(OnSubscribe(true, false, t, c, p, now).topic, d) == if d == c then true else Watched(t, d)
    ensures p.Unsubscribe? ==>
              Watched(OnUnsubscribe(true, t, c, p).topic, d) == if d == c then false else Watched(t, d)
    ensures p.Send? ==>
              Watched(OnPublish(true, t, c, p, now, {}).topic, d) == Watched(t, d)
  {
    if t.Some? && d in t.value.watchers && d != c {
      assert d in t.value.watchers - {c};
    }
  }
}
