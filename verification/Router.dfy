// The upstream routers and the callbacks that go with a new list or a new connection, as they
// run (iot/upper-channels.go:58-221, iot/lookup-table.go:807-882).
module Router {
  import opened Common
  import opened Hashes
  import opened Topics
  import opened Buckets
  import opened Clusters

  type Name = string

  class UpperChannel {
    const name: Name
    const index: nat
    var stopped: bool

    constructor (name: Name, index: nat)
      ensures this.name == name && this.index == index && !stopped
    {
      this.name, this.index, stopped := name, index, false;
    }
  }

  class UpstreamRouter {
    var channels: seq<UpperChannel>
    var maglev: Option<Maglev>
    var previousMaglev: Option<Maglev>
    var name2channel: map<Name, UpperChannel>

    // One channel per name of the list.
    ghost predicate Valid()
      reads this
    {
      && (maglev.Some? ==> |channels| == maglev.value.names) && (maglev.None? ==> channels == [])
    }

    constructor ()
      ensures Valid() && channels == [] && maglev == None && name2channel == map[]
    {
      channels, maglev, previousMaglev, name2channel := [], None, None, map[];
    }

    /**
     * getUpperChannel; None stands for the panic on an index out of range. That cannot happen
     * while list and table go together, and it can while SetUpstreamNames has put a shorter list
     * in place but not yet its table.
     */
    method GetUpperChannel(h: Hash) returns (c: Option<UpperChannel>)
      requires maglev.Some?
      ensures c.Some? <==> Lookup(maglev.value, h) < |channels|
      ensures c.Some? ==> c.value == channels[Lookup(maglev.value, h)]
      ensures Valid() ==> c.Some?
    {
      var index := Lookup(maglev.value, h);
      if index >= |channels| {
        return None;
      }
      c := Some(channels[index]);
    }

    /**
     * SetUpstreamNames on an aide. The same names change nothing. Any other list gets a fresh
     * channel for every name that is not in the map by name; and as nothing is ever put there
     * that is every name, also one that had a channel. Of the old channels those whose name is
     * gone are stopped, and the others stay open although the router has forgotten them.
     */
    method SetUpstreamNames(names: seq<Name>, table: Maglev) returns (hadChange: bool)
      requires Valid() && table.names == |names|
      requires forall c :: c in channels ==> !c.stopped
      modifies this, channels
      ensures Valid()
      ensures hadChange ==
              !(|names| == |old(channels)| && forall i :: 0 <= i < |names| ==> names[i] == old(channels)[i].name)
      ensures !hadChange ==> channels == old(channels) && maglev == old(maglev) && previousMaglev == old(previousMaglev)
      ensures hadChange ==>
                && maglev == Some(table) && previousMaglev == old(maglev) && |channels| == |names|
                && forall i :: 0 <= i < |names| && names[i] !in old(name2channel) ==>
                     fresh(channels[i]) &&
                     channels[i].name == names[i] && channels[i].index == i && !channels[i].stopped
      ensures name2channel.Keys <= old(name2channel).Keys
      ensures forall c :: c in old(channels) ==> c.stopped == (hadChange && c.name !in names)
      ensures old(name2channel) == map[] ==> name2channel == map[] && forall c :: c in channels ==> !c.stopped
    {
      hadChange := |names| != |channels|;
      if !hadChange {
        for i := 0 to |channels|
          invariant hadChange == exists j :: 0 <= j < i && names[j] != channels[j].name
        {
          if names[i] != channels[i].name {
            hadChange := true;
          }
        }
      }
      if !hadChange {
        return;
      }
      ghost var was := channels;
      var oldContacts := channels;
      var list: seq<UpperChannel> := [];
      for i := 0 to |names|
        invariant |list| == i && name2channel == old(name2channel) && channels == was
        invariant maglev == old(maglev) && forall c :: c in was ==> !c.stopped
        invariant forall j :: 0 <= j < i && names[j] !in old(name2channel) ==>
                    fresh(list[j]) && list[j].name == names[j] && list[j].index == j && !list[j].stopped
      {
        if names[i] in name2channel && !name2channel[names[i]].stopped {
          list := list + [name2channel[names[i]]];
        } else {
          var upc := new UpperChannel(names[i], i);
          list := list + [upc];
        }
      }
      channels := list;
      for i := 0 to |oldContacts|
        invariant channels == list && name2channel.Keys <= old(name2channel).Keys && maglev == old(maglev)
        invariant forall j :: 0 <= j < |list| && names[j] !in old(name2channel) ==> !list[j].stopped
        invariant forall c :: c in oldContacts ==> c.stopped == (c in oldContacts[..i] && c.name !in names)
      {
        assert oldContacts[..i + 1] == oldContacts[..i] + [oldContacts[i]];
        if oldContacts[i].name !in names {
          oldContacts[i].stopped := true;
          name2channel := name2channel - {oldContacts[i].name};
        }
      }
      assert oldContacts[..|oldContacts|] == oldContacts;
      previousMaglev := maglev;
      maglev := Some(table);
    }
  }

  class GuruRouter {
    const myname: Name
    var maglev: Option<Maglev>
    var previousMaglev: Option<Maglev>

    constructor (myname: Name)
      ensures this.myname == myname && maglev == None
    {
      this.myname, maglev, previousMaglev := myname, None, None;
    }

    /**
     * setGuruUpstreamNames: a guru, which has no channels, takes every list for a new one and
     * looks for its own place in it; -1 stands for a list it is not on.
     */
    method SetGuruUpstreamNames(names: seq<Name>, table: Maglev) returns (myindex: int)
      requires table.names == |names|
      modifies this
      ensures maglev == Some(table) && previousMaglev == old(maglev)
      ensures if myname in names then 0 <= myindex < |names| && names[myindex] == myname else myindex == -1
      ensures forall i :: myindex < i < |names| ==> i < 0 || names[i] != myname
    {
      previousMaglev := maglev;
      maglev := Some(table);
      myindex := -1;
      for i := 0 to |names|
        invariant maglev == Some(table) && previousMaglev == old(maglev)
        invariant -1 <= myindex < i && (myindex >= 0 ==> names[myindex] == myname)
        invariant forall j :: myindex < j < i ==> j < 0 || names[j] != myname
      {
        if names[i] == myname {
          myindex := i;
        }
      }
    }
  }

  /** reSubscribeRemappedTopics on one bucket: one plain subscribe for each topic that moved. */
  method ReSubscribeRemappedTopics(b: SubscribeBucket, table: Maglev, previous: Option<Maglev>)
    returns (ghost order: seq<Hash>)
    modifies b
    ensures b.mySubscriptions == old(b.mySubscriptions) && b.written == old(b.written)
    ensures b.pushed == old(b.pushed) + SubscribeAll(order, false) && NoDuplicates(order)
    ensures forall h :: h in order <==>
              h in b.mySubscriptions && (previous.None? || Lookup(previous.value, h) != Lookup(table, h))
  {
    order := [];
    var left := b.mySubscriptions.Keys;
    while left != {}
      invariant left <= b.mySubscriptions.Keys
      invariant b.mySubscriptions == old(b.mySubscriptions) && b.written == old(b.written)
      invariant b.pushed == old(b.pushed) + SubscribeAll(order, false) && NoDuplicates(order)
      invariant forall h :: h in order <==>
                  && h in b.mySubscriptions && h !in left
                  && (previous.None? || Lookup(previous.value, h) != Lookup(table, h))
      decreases left
    {
      var h :| h in left;
      left := left - {h};
      var indexNew: int, indexOld: int := Lookup(table, h), -1;
      if previous.Some? {
        indexOld := Lookup(previous.value, h);
      }
      if indexNew != indexOld {
        b.PushUp(Subscribe(h, false, false, false));
        assert SubscribeAll(order + [h], false) == SubscribeAll(order, false) + [Subscribe(h, false, false, false)];
        order := order + [h];
      }
    }
  }

  /**
   * reSubscribeMyTopics on one bucket, over a fresh connection to the guru with this index: one
   * subscribe without suback for each topic of that guru, under the newest table.
   */
  method ReSubscribeMyTopics(b: SubscribeBucket, table: Option<Maglev>, index: nat) returns (ghost order: seq<Hash>)
    modifies b
    ensures b.mySubscriptions == old(b.mySubscriptions) && b.written == old(b.written)
    ensures b.pushed == old(b.pushed) + SubscribeAll(order, true) && NoDuplicates(order)
    ensures forall h :: h in order <==> h in b.mySubscriptions && table.Some? && Lookup(table.value, h) == index
  {
    order := [];
    var left := b.mySubscriptions.Keys;
    while left != {}
      invariant left <= b.mySubscriptions.Keys
      invariant b.mySubscriptions == old(b.mySubscriptions) && b.written == old(b.written)
      invariant b.pushed == old(b.pushed) + SubscribeAll(order, true) && NoDuplicates(order)
      invariant forall h :: h in order <==>
                  h in b.mySubscriptions && h !in left && table.Some? && Lookup(table.value, h) == index
      decreases left
    {
      var h :| h in left;
      left := left - {h};
      if table.None? {
        break;
      }
      var indexNew := Lookup(table.value, h);
      if indexNew != index {
        continue;
      }
      b.PushUp(Subscribe(h, false, false, true));
      assert SubscribeAll(order + [h], true) == SubscribeAll(order, true) + [Subscribe(h, false, false, true)];
      order := order + [h];
    }
  }

  /**
   * guruDeleteRemappedAndGoneTopics on one bucket: exactly the topics of other gurus go, and
   * PushUp is called with one unsubscribe for each. (On a guru, which has no channels, it
   * returns an error.)
   */
  method GuruDeleteRemappedAndGoneTopics(b: SubscribeBucket, table: Maglev, index: int) returns (ghost order: seq<Hash>)
    modifies b
    ensures b.mySubscriptions ==
            map h | h in old(b.mySubscriptions) && Lookup(table, h) == index :: old(b.mySubscriptions)[h]
    ensures b.written == old(b.written)
    ensures b.pushed == old(b.pushed) + UnsubscribeAll(order) && NoDuplicates(order)
    ensures forall h :: h in order <==> h in old(b.mySubscriptions) && h !in b.mySubscriptions
  {
    order := [];
    ghost var was := b.mySubscriptions;
    var left := b.mySubscriptions.Keys;
    while left != {}
      invariant left <= was.Keys && b.written == old(b.written)
      invariant forall h :: h in b.mySubscriptions <==> h in was && (h in left || Lookup(table, h) == index)
      invariant forall h :: h in b.mySubscriptions ==> b.mySubscriptions[h] == was[h]
      invariant b.pushed == old(b.pushed) + UnsubscribeAll(order) && NoDuplicates(order)
      invariant forall h :: h in order <==> h in was && h !in b.mySubscriptions
      decreases left
    {
      var h :| h in left;
      if Lookup(table, h) != index {
        b.PushUp(Unsubscribe(h));
        assert UnsubscribeAll(order + [h]) == UnsubscribeAll(order) + [Unsubscribe(h)];
        b.SetWatcher(h, None);
        order := order + [h];
      }
      left := left - {h};
    }
  }

  // Per bucket of a guru these are the step the cluster takes.
  lemma PruneIsDelete(guru: Guru, g: nat, bucket: nat, mine: Table)
    requires mine == map h | h in guru.subs && Shard(guru.bits, h) == bucket :: guru.subs[h]
    ensures forall h :: Shard(guru.bits, h) == bucket ==>
              Find(Prune(guru, g, bucket), h) == Find(map k | k in mine && Lookup(guru.table, k) == g :: mine[k], h)
    ensures forall h :: Shard(guru.bits, h) != bucket ==> Find(Prune(guru, g, bucket), h) == Find(guru.subs, h)
  {
  }
}
