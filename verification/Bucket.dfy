// One bucket of the lookup table: the map its worker owns and the handlers that change it in
// place (iot/subscribe.go, iot/publish.go, iot/lookup-table.go). `written` and `pushed` record
// the calls to WriteDownstream and PushUp. Writes to different contacts are asynchronous in
// the source, so `written` is a bag.
module Buckets {
  import opened Common
  import opened Hashes
  import opened Topics

  datatype Write = Write(key: Key, p: Packet)

  // How often writing `p` once to each of `keys` performs the write `w`.
  ghost function Copies(keys: set<Key>, p: Packet, w: Write): nat {
    if w.p == p && w.key in keys then 1 else 0
  }

  lemma PutTwice(table: Table, h: Hash, t: Option<Topic>, u: Option<Topic>)
    ensures Put(Put(table, h, t), h, u) == Put(table, h, u)
  {
  }

  // What a bucket holds, and what it has written and pushed so far.
  datatype View = View(subs: Table, written: multiset<Write>, pushed: seq<Packet>)

  // The whole new state, for a handler with effect `e` on topic `h`.
  ghost predicate Performs(v: View, u: View, h: Hash, e: Effect, p: Packet) {
    && u.subs == Put(v.subs, h, e.topic)
    && (forall w :: u.written[w] == v.written[w] + Copies(e.written, p, w))
    && u.pushed == v.pushed + e.up
  }

  // ----- what each kind of message leaves behind, in terms of what was there

  ghost predicate OthersKept(v: View, u: View, h: Hash) {
    forall k :: k != h ==> (k in u.subs <==> k in v.subs) && (k in u.subs ==> u.subs[k] == v.subs[k])
  }

  // `p` was written once to each of the contacts `to`, and nothing else was written.
  ghost predicate Wrote(v: View, u: View, to: set<Key>, p: Packet) {
    && (forall k :: k in to ==> u.written[Write(k, p)] == v.written[Write(k, p)] + 1)
    && (forall w: Write :: !(w.p == p && w.key in to) ==> u.written[w] == v.written[w])
  }

  // The contact is in, once and as it first came, and the topic good for 26 more minutes. A
  // guru sends the suback unless asked not to, an aide only if it has no guru; an aide passes
  // the subscribe up.
  ghost predicate Joined(isGuru: bool, v: View, u: View, ss: Key, p: Packet, now: nat, upstream: bool)
    requires p.Subscribe?
  {
    && OthersKept(v, u, p.h) && p.h in u.subs
    && var before, after := Find(v.subs, p.h), u.subs[p.h];
    && after.expires == now + 26 * 60
    && (before.Some? ==> after.owned == before.value.owned && after.billing == (before.value.billing || p.statsmax))
    && (before.None? ==> !after.owned && after.billing == p.statsmax)
    && (forall k :: k in after.watchers <==> k == ss || (before.Some? && k in before.value.watchers))
    && (forall k :: k in after.watchers ==>
          after.watchers[k] ==
          if before.Some? && k in before.value.watchers then before.value.watchers[k] else Item(p.pub2self))
    && Wrote(v, u, if (isGuru && !p.noack) || (!isGuru && !upstream) then {ss} else {}, p)
    && u.pushed == if isGuru then v.pushed else v.pushed + [p]
  }

  // Every open contact of the topic has the suback, and nothing else has happened.
  ghost predicate Acked(v: View, u: View, p: Packet, closed: set<Key>) {
    && u.subs == v.subs && u.pushed == v.pushed
    && Wrote(v, u, (set k | p.h in v.subs && k in v.subs[p.h].watchers && k !in closed), p)
  }

  // The contact is out. An owned or billing topic stays, and so does one with other contacts.
  // An aide tells its guru when the topic went, and always of an owned one.
  ghost predicate Parted(isGuru: bool, v: View, u: View, ss: Key, p: Packet) {
    && OthersKept(v, u, p.h) && u.written == v.written
    && if p.h !in v.subs then p.h !in u.subs && u.pushed == v.pushed
       else
         var before := v.subs[p.h];
         var stays := before.owned || before.billing || exists k :: k in before.watchers && k != ss;
         && (p.h in u.subs <==> stays)
         && (stays ==>
               var after := u.subs[p.h];
               && after.(watchers := before.watchers) == before
               && (forall k :: k in after.watchers <==> k in before.watchers && k != ss)
               && (forall k :: k in after.watchers ==> after.watchers[k] == before.watchers[k]))
         && u.pushed == if !isGuru && (before.owned || !stays) then v.pushed + [p] else v.pushed
  }

  // A copy to each open contact but the publisher, and to the publisher too if it asked for
  // that; the topic is good for 25 more minutes, without the closed contacts that were found. A
  // billing topic only lives on, for an hour. An aide passes the publish up in any case.
  ghost predicate Sent(isGuru: bool, v: View, u: View, ss: Key, p: Packet, now: nat, closed: set<Key>) {
    && OthersKept(v, u, p.h) && u.pushed == (if isGuru then v.pushed else v.pushed + [p])
    && (p.h in u.subs <==> p.h in v.subs)
    && if p.h !in v.subs then Wrote(v, u, {}, p)
       else
         var before, after := v.subs[p.h], u.subs[p.h];
         var was := before.watchers;
         if before.billing then
           Wrote(v, u, {}, p) && after == before.(expires := now + 60 * 60)
         else
           && Wrote(v, u, (set k | k in was && k !in closed && (k == ss ==> was[k].pub2self)), p)
           && after.(watchers := was) == before.(expires := now + 25 * 60)
           && (forall k :: k in after.watchers <==> k in was && (k in closed ==> was[k].pub2self || k == ss))
           && (forall k :: k in after.watchers ==> after.watchers[k] == was[k])
  }

  // A copy to every open contact, and 25 more minutes; or from an aide that does not hold the
  // topic an Unsubscribe.
  ghost predicate SentDown(isGuru: bool, v: View, u: View, p: Packet, now: nat, closed: set<Key>) {
    if p.h in v.subs then
      && u.subs == v.subs[p.h := v.subs[p.h].(expires := now + 25 * 60)] && u.pushed == v.pushed
      && Wrote(v, u, (set k | k in v.subs[p.h].watchers && k !in closed), p)
    else
      && u.subs == v.subs && u.written == v.written
      && u.pushed == if isGuru then v.pushed else v.pushed + [Unsubscribe(p.h)]
  }

  lemma Joins(isGuru: bool, v: View, u: View, ss: Key, p: Packet, now: nat, upstream: bool)
    requires p.Subscribe?
    requires Performs(v, u, p.h, OnSubscribe(isGuru, upstream, Find(v.subs, p.h), ss, p, now), p)
    ensures Joined(isGuru, v, u, ss, p, now, upstream)
  {
  }

  lemma NoWrites(v: View, u: View, p: Packet)
    requires forall w :: u.written[w] == v.written[w] + Copies({}, p, w)
    ensures u.written == v.written
  {
    assert forall w: Write :: u.written[w] == v.written[w];
  }

  lemma Acks(v: View, u: View, p: Packet, closed: set<Key>)
    requires Performs(v, u, p.h, OnSubscribeDown(Find(v.subs, p.h), closed), p)
    ensures Acked(v, u, p, closed)
  {
  }

  lemma Parts(isGuru: bool, v: View, u: View, ss: Key, p: Packet)
    requires Performs(v, u, p.h, OnUnsubscribe(isGuru, Find(v.subs, p.h), ss, p), p)
    ensures Parted(isGuru, v, u, ss, p)
  {
    NoWrites(v, u, p);
    if p.h in v.subs {
      var was := v.subs[p.h].watchers;
      assert (was - {ss} == map[]) <==> !exists k :: k in was && k != ss by {
        if was - {ss} != map[] {
          var k :| k in was - {ss};
        } else {
          forall k | k in was ensures k == ss {
            assert k != ss ==> k in was - {ss};
          }
        }
      }
    }
  }

  lemma Sends(isGuru: bool, v: View, u: View, ss: Key, p: Packet, now: nat, closed: set<Key>)
    requires Performs(v, u, p.h, OnPublish(isGuru, Find(v.subs, p.h), ss, p, now, closed), p)
    ensures Sent(isGuru, v, u, ss, p, now, closed)
  {
  }

  lemma SendsDown(isGuru: bool, v: View, u: View, p: Packet, now: nat, closed: set<Key>)
    requires Performs(v, u, p.h, OnPublishDown(isGuru, Find(v.subs, p.h), p.h, now, closed), p)
    ensures SentDown(isGuru, v, u, p, now, closed)
  {
    if p.h !in v.subs {
      NoWrites(v, u, p);
    }
  }

  class SubscribeBucket {
    var mySubscriptions: Table
    const isGuru: bool
    ghost var written: multiset<Write>
    ghost var pushed: seq<Packet>

    constructor (isGuru: bool)
      ensures this.isGuru == isGuru
      ensures mySubscriptions == map[] && written == multiset{} && pushed == []
    {
      this.isGuru := isGuru;
      mySubscriptions, written, pushed := map[], multiset{}, [];
    }

    ghost function Now(): View
      reads this
    {
      View(mySubscriptions, written, pushed)
    }

    method GetWatcher(h: Hash) returns (t: Option<Topic>)
      ensures t == Find(mySubscriptions, h)
    {
      t := if h in mySubscriptions then Some(mySubscriptions[h]) else None;
    }

    method SetWatcher(h: Hash, t: Option<Topic>)
      modifies this`mySubscriptions
      ensures mySubscriptions == Put(old(mySubscriptions), h, t)
    {
      match t
      case Some(topic) => mySubscriptions := mySubscriptions[h := topic];
      case None => mySubscriptions := mySubscriptions - {h};
    }

    method WriteDownstream(k: Key, p: Packet)
      modifies this`written
      ensures written == old(written) + multiset{Write(k, p)}
    {
      written := written + multiset{Write(k, p)};
    }

    method PushUp(p: Packet)
      modifies this`pushed
      ensures pushed == old(pushed) + [p]
    {
      pushed := pushed + [p];
    }

    method ProcessSubscribe(ss: Key, p: Packet, now: nat, upstream: bool)
      requires p.Subscribe?
      modifies this
      ensures Performs(old(Now()), Now(), p.h,
                       OnSubscribe(isGuru, upstream, Find(old(mySubscriptions), p.h), ss, p, now), p)
      ensures Joined(isGuru, old(Now()), Now(), ss, p, now, upstream)
    {
      hide Joined;
      ghost var was := Now();
      var found := GetWatcher(p.h);
      var topic := if found.Some? then found.value else Topic(FIRST_LIFE + now, map[], false, false);
      if found.None? {
        SetWatcher(p.h, Some(topic));
      }
      if p.statsmax && !topic.billing {
        topic := topic.(billing := true);
      }
      topic := topic.(expires := SUBSCRIBE_LIFE + now);
      if ss !in topic.watchers {
        topic := topic.(watchers := topic.watchers[ss := Item(p.pub2self)]);
      }
      ghost var e := OnSubscribe(isGuru, upstream, Find(old(mySubscriptions), p.h), ss, p, now);
      assert Some(topic) == e.topic;
      SetWatcher(p.h, Some(topic));
      assert mySubscriptions == Put(old(mySubscriptions), p.h, e.topic);
      Acknowledge(ss, p, upstream);
      Joins(isGuru, was, Now(), ss, p, now, upstream);
    }

    /** A guru acknowledges unless asked not to; an aide passes the subscribe on. */
    method Acknowledge(ss: Key, p: Packet, upstream: bool)
      requires p.Subscribe?
      modifies this`written, this`pushed
      ensures var acked := if isGuru then !p.noack else !upstream;
              forall w :: written[w] == old(written)[w] + Copies(if acked then {ss} else {}, p, w)
      ensures pushed == old(pushed) + if isGuru then [] else [p]
    {
      if isGuru {
        if !p.noack {
          WriteDownstream(ss, p);
        }
      } else {
        if !upstream {
          WriteDownstream(ss, p);
        }
        PushUp(p);
      }
    }

    /** Iterate over a topic's contacts and write `p` to those in `to`. */
    method WriteEach(watchers: map<Key, Item>, to: set<Key>, p: Packet)
      requires to <= watchers.Keys
      modifies this`written
      ensures forall w :: written[w] == old(written)[w] + Copies(to, p, w)
    {
      var left := watchers.Keys;
      while left != {}
        invariant left <= watchers.Keys
        invariant forall w :: written[w] == old(written)[w] + if w.key in left then 0 else Copies(to, p, w)
        decreases left
      {
        var key :| key in left;
        if key in to {
          WriteDownstream(key, p);
        }
        left := left - {key};
      }
    }

    method ProcessSubscribeDown(p: Packet, closed: set<Key>)
      modifies this
      ensures Performs(old(Now()), Now(), p.h, OnSubscribeDown(Find(old(mySubscriptions), p.h), closed), p)
      ensures Acked(old(Now()), Now(), p, closed)
    {
      hide Acked;
      ghost var was := Now();
      var found := GetWatcher(p.h);
      if found.Some? {
        WriteEach(found.value.watchers, Open(found.value, closed), p);
      }
      Acks(was, Now(), p, closed);
    }

    method ProcessUnsubscribe(ss: Key, p: Packet)
      modifies this
      ensures Performs(old(Now()), Now(), p.h, OnUnsubscribe(isGuru, Find(old(mySubscriptions), p.h), ss, p), p)
      ensures Parted(isGuru, old(Now()), Now(), ss, p)
    {
      hide Parted;
      ghost var was := Now();
      var found := GetWatcher(p.h);
      if found.Some? {
        var topic := found.value.(watchers := found.value.watchers - {ss});
        SetWatcher(p.h, Some(topic));
        if topic.owned {
          if !isGuru {
            PushUp(p);
          }
        } else if topic.watchers == map[] && !topic.billing {
          PutTwice(old(mySubscriptions), p.h, Some(topic), None);
          SetWatcher(p.h, None);
          if !isGuru {
            PushUp(p);
          }
        }
      }
      Parts(isGuru, was, Now(), ss, p);
    }

    method ProcessPublish(ss: Key, p: Packet, now: nat, closed: set<Key>)
      modifies this
      ensures Performs(old(Now()), Now(), p.h,
                       OnPublish(isGuru, Find(old(mySubscriptions), p.h), ss, p, now, closed), p)
      ensures Sent(isGuru, old(Now()), Now(), ss, p, now, closed)
    {
      hide Sent;
      ghost var was := Now();
      var found := GetWatcher(p.h);
      if found.Some? {
        if found.value.billing {
          SetWatcher(p.h, Some(found.value.(expires := BILLING_LIFE + now)));
        } else {
          var badContacts := PublishToContacts(found.value, ss, p, closed);
          var kept := found.value.watchers - badContacts;
          SetWatcher(p.h, Some(found.value.(expires := PUBLISH_LIFE + now, watchers := kept)));
        }
      }
      if !isGuru {
        PushUp(p);
      }
      Sends(isGuru, was, Now(), ss, p, now, closed);
    }

    /** The loop of processPublish over the contacts of a topic; collects the bad ones. */
    method PublishToContacts(topic: Topic, ss: Key, p: Packet, closed: set<Key>) returns (badContacts: set<Key>)
      modifies this`written
      ensures badContacts == BadContacts(topic, ss, closed)
      ensures forall w :: written[w] == old(written)[w] + Copies(Audience(topic, ss, closed), p, w)
    {
      badContacts := {};
      var left := topic.watchers.Keys;
      while left != {}
        invariant left <= topic.watchers.Keys
        invariant forall k :: k in badContacts <==> k in BadContacts(topic, ss, closed) && k !in left
        invariant forall w :: written[w] == old(written)[w] +
                    if w.key in left then 0 else Copies(Audience(topic, ss, closed), p, w)
        decreases left
      {
        var key :| key in left;
        if topic.watchers[key].pub2self {
          if key !in closed {
            WriteDownstream(key, p);
          }
        } else if key != ss {
          if key !in closed {
            WriteDownstream(key, p);
          } else {
            badContacts := badContacts + {key};
          }
        }
        left := left - {key};
      }
    }

    method ProcessPublishDown(p: Packet, now: nat, closed: set<Key>)
      modifies this
      ensures Performs(old(Now()), Now(), p.h,
                       OnPublishDown(isGuru, Find(old(mySubscriptions), p.h), p.h, now, closed), p)
      ensures SentDown(isGuru, old(Now()), Now(), p, now, closed)
    {
      hide SentDown;
      ghost var was := Now();
      var found := GetWatcher(p.h);
      if found.None? {
        if !isGuru {
          PushUp(Unsubscribe(p.h));
        }
      } else {
        SetWatcher(p.h, Some(found.value.(expires := PUBLISH_LIFE + now)));
        WriteEach(found.value.watchers, Open(found.value, closed), p);
      }
      SendsDown(isGuru, was, Now(), p, now, closed);
    }

    ghost predicate Survives(was: Table, h: Hash, now: nat, closed: set<Key>) {
      h in was && OnHeartbeat(isGuru, was[h], h, now, closed).topic.Some?
    }

    /**
     * heartBeatCallBack: drop closed contacts everywhere, everything from expired topics, and
     * the topics left empty; then an aide unsubscribes from each of those, once.
     */
    method HeartBeat(now: nat, closed: set<Key>)
      modifies this
      ensures forall h :: h in mySubscriptions <==> Survives(old(mySubscriptions), h, now, closed)
      ensures forall h :: h in mySubscriptions ==>
                && h in old(mySubscriptions)
                && Some(mySubscriptions[h]) == OnHeartbeat(isGuru, old(mySubscriptions)[h], h, now, closed).topic
      ensures written == old(written)
      ensures isGuru ==> pushed == old(pushed)
      ensures !isGuru ==> exists order ::
                && pushed == old(pushed) + UnsubscribeAll(order)
                && NoDuplicates(order)
                && forall h :: h in order <==> h in old(mySubscriptions) && h !in mySubscriptions
    {
      var emptyTopics: set<Hash> := {};
      var left := mySubscriptions.Keys;
      ghost var was := mySubscriptions;
      while left != {}
        invariant left <= was.Keys == mySubscriptions.Keys
        invariant forall h :: h in left ==> mySubscriptions[h] == was[h]
        invariant forall h :: h in emptyTopics <==> h in was && h !in left && !Survives(was, h, now, closed)
        invariant forall h :: h in was && h !in left && h !in emptyTopics ==>
                    Some(mySubscriptions[h]) == OnHeartbeat(isGuru, was[h], h, now, closed).topic
        invariant written == old(written) && pushed == old(pushed)
        decreases left
      {
        var h :| h in left;
        var watchedItem := mySubscriptions[h];
        var unsubsNeeded := UnsubsNeeded(watchedItem, now, closed);
        watchedItem := watchedItem.(watchers := watchedItem.watchers - unsubsNeeded);
        mySubscriptions := mySubscriptions[h := watchedItem];
        if watchedItem.watchers == map[] {
          emptyTopics := emptyTopics + {h};
        }
        left := left - {h};
      }
      mySubscriptions := mySubscriptions - emptyTopics;
      if !isGuru {
        var order := SendUnsubscribes(emptyTopics);
      }
    }

    static method UnsubsNeeded(t: Topic, now: nat, closed: set<Key>) returns (keys: set<Key>)
      ensures t.watchers - keys == if t.expires < now then map[] else t.watchers - closed
    {
      keys := if t.expires < now then t.watchers.Keys else t.watchers.Keys * closed;
      assert t.watchers - keys == if t.expires < now then map[] else t.watchers - closed;
    }

    method SendUnsubscribes(topics: set<Hash>) returns (ghost order: seq<Hash>)
      modifies this`pushed
      ensures pushed == old(pushed) + UnsubscribeAll(order)
      ensures NoDuplicates(order) && forall h :: h in order <==> h in topics
    {
      order := [];
      var left := topics;
      while left != {}
        invariant left <= topics
        invariant pushed == old(pushed) + UnsubscribeAll(order)
        invariant NoDuplicates(order) && forall h :: h in order <==> h in topics && h !in left
        decreases left
      {
        var h :| h in left;
        PushUp(Unsubscribe(h));
        assert UnsubscribeAll(order + [h]) == UnsubscribeAll(order) + [Unsubscribe(h)];
        order := order + [h];
        left := left - {h};
      }
    }
  }
}
