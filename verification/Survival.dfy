// The heartbeat (iot/subscribe.go:296-440): what a sweep keeps, and for how long a topic that
// is in use is safe from it.
module Survival {
  import opened Common
  import opened Hashes
  import opened Topics
  import opened Buckets
  import opened Sharding

  /**
   * The sweep is exact: a topic stays if and only if it has an open contact and its time is
   * not up, and then precisely its open contacts stay, as they were.
   */
  lemma SweepIsExact(isGuru: bool, t: Topic, h: Hash, now: nat, closed: set<Key>)
    ensures var kept := OnHeartbeat(isGuru, t, h, now, closed).topic;
            && (kept.Some? <==> now <= t.expires && exists k :: k in t.watchers && k !in closed)
            && (kept.Some? ==>
                  && (forall k :: k in kept.value.watchers <==> k in t.watchers && k !in closed)
                  && (forall k :: k in kept.value.watchers ==> kept.value.watchers[k] == t.watchers[k])
                  && kept.value.(watchers := t.watchers) == t)
  {
    if now <= t.expires && exists k :: k in t.watchers && k !in closed {
      var k :| k in t.watchers && k !in closed;
      assert k in t.watchers - closed;
    } else if now <= t.expires {
      assert t.watchers - closed == map[];
    }
  }

  /** The same for a whole bucket and the method that sweeps it in place. */
  method SweepBucket(b: SubscribeBucket, now: nat, closed: set<Key>)
    modifies b
    ensures forall h :: h in b.mySubscriptions <==>
              h in old(b.mySubscriptions) && now <= old(b.mySubscriptions)[h].expires &&
              exists k :: k in old(b.mySubscriptions)[h].watchers && k !in closed
    ensures forall h, k :: h in b.mySubscriptions ==>
              && h in old(b.mySubscriptions)
              && (k in b.mySubscriptions[h].watchers <==> k in old(b.mySubscriptions)[h].watchers && k !in closed)
  {
    ghost var was := b.mySubscriptions;
    b.HeartBeat(now, closed);
    forall h | h in was
      ensures var kept := OnHeartbeat(b.isGuru, was[h], h, now, closed).topic;
              && (kept.Some? <==> now <= was[h].expires && exists k :: k in was[h].watchers && k !in closed)
              && (kept.Some? ==> forall k :: k in kept.value.watchers <==> k in was[h].watchers && k !in closed)
    {
      SweepIsExact(b.isGuru, was[h], h, now, closed);
    }
  }

  // A message that renews the topic: a subscribe, or a publish either way.
  predicate Touches(a: Arrival, h: Hash) {
    && a.ForTopic? && a.m.p.h == h
    && ((a.m.SubUp? && a.m.p.Subscribe?) || a.m.PubUp? || a.m.PubDown?)
  }

  // When one was last handled.
  function LastTouch(arrived: seq<Arrival>, h: Hash): Option<nat>
  {
    if arrived == [] then None
    else
      var last := arrived[|arrived| - 1];
      if Touches(last, h) then Some(last.m.now) else LastTouch(arrived[..|arrived| - 1], h)
  }

  // What one arrival does to the topic's time: a touch sets it, and nothing lowers it.
  lemma ExpiryStep(r: Role, w: Worker, a: Arrival, h: Hash)
    ensures var before, after := Find(w.subs, h), Find(Handle(r, w, a).subs, h);
            after.Some? ==>
              && after.value.expires >= (if Touches(a, h) then a.m.now + PUBLISH_LIFE else 0)
              && (!Touches(a, h) ==> before.Some? && after.value.expires == before.value.expires)
  {
  }

  lemma {:induction false} ExpiryFollowsTouch(r: Role, arrived: seq<Arrival>, h: Hash)
    ensures var subs := AllHandled(r, arrived).subs;
            h in subs ==> LastTouch(arrived, h).Some? && subs[h].expires >= LastTouch(arrived, h).value + PUBLISH_LIFE
  {
    hide Handle;
    if arrived != [] {
      var init := arrived[..|arrived| - 1];
      ExpiryFollowsTouch(r, init, h);
      ExpiryStep(r, AllHandled(r, init), arrived[|arrived| - 1], h);
    }
  }

  /**
   * Over every run of a bucket worker: a topic that was last subscribed or published to at
   * time t is not removed by a heartbeat at or before t + 1500, as long as one contact is
   * open; and that contact is kept too.
   */
  lemma RecentTopicsSurvive(r: Role, arrived: seq<Arrival>, h: Hash, bucket: nat, now: nat, closed: set<Key>, k: Key)
    requires var subs := AllHandled(r, arrived).subs; h in subs && k in subs[h].watchers && k !in closed
    requires LastTouch(arrived, h).Some? ==> now <= LastTouch(arrived, h).value + 1500
    ensures var after := AllHandled(r, arrived + [HeartbeatFor(bucket, now, closed)]).subs;
            h in after && k in after[h].watchers
  {
    var subs := AllHandled(r, arrived).subs;
    var more := arrived + [HeartbeatFor(bucket, now, closed)];
    assert more[..|arrived|] == arrived;
    ExpiryFollowsTouch(r, arrived, h);
    SweepIsExact(r.isGuru, subs[h], h, now, closed);
  }

  /** The bound is tight: one second later a published topic goes, open contacts or not. */
  lemma StaleTopicsGo(r: Role, ss: Key, k: Key, p: Packet, now: nat, up: bool)
    requires p.Send? && ss != k
    ensures var s := Subscribe(p.h, false, false, false);
            var arrived := [ForTopic(SubUp(k, s, now, up)), ForTopic(PubUp(ss, p, now, {}))];
            && LastTouch(arrived, p.h) == Some(now)
            && p.h in AllHandled(r, arrived).subs
            && p.h !in AllHandled(r, arrived + [HeartbeatFor(0, now + 1501, {})]).subs
  {
    var s := Subscribe(p.h, false, false, false);
    var one := [ForTopic(SubUp(k, s, now, up))];
    var two := one + [ForTopic(PubUp(ss, p, now, {}))];
    var three := two + [HeartbeatFor(0, now + 1501, {})];
    assert one[..0] == [] && two[..1] == one && three[..2] == two;
    assert two == [ForTopic(SubUp(k, s, now, up)), ForTopic(PubUp(ss, p, now, {}))];
    var t := OnSubscribe(r.isGuru, up, None, k, s, now).topic;
    assert Find(AllHandled(r, one).subs, p.h) == t;
    assert Find(AllHandled(r, two).subs, p.h) == OnPublish(r.isGuru, t, ss, p, now, {}).topic;
    assert three[2] == HeartbeatFor(0, now + 1501, {});
  }
}
