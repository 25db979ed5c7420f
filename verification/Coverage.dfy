// Subscriptions reach the guru that owns them: the inductive invariant of the cluster, and
// what it says over every run, guru-list changes included.
module Coverage {
  import opened Common
  import opened Hashes
  import opened Topics
  import opened Clusters

  // ----- the invariant

  ghost predicate AideOk(s: Cluster, a: nat)
    requires a < |s.aides|
  {
    var ad := s.aides[a];
    && ad.bits < 64
    && (forall h :: h in ad.subs ==> !ad.subs[h].owned)
    && (ad.table.None? ==> ad.links == [])
    && (ad.table.Some? ==> |ad.links| == ad.table.value.names)
    && (forall i :: 0 <= i < |ad.links| ==>
          ad.links[i] in s.chans && s.chans[ad.links[i]].aide == a && s.chans[ad.links[i]].guru == i)
  }

  ghost predicate ChanOk(s: Cluster, c: ChanId)
    requires c in s.chans
  {
    c < s.next && s.chans[c].aide < |s.aides|
  }

  // Every contact a guru still serves is the far end of a live channel to that guru.
  ghost predicate GuruOk(s: Cluster, g: nat)
    requires g < |s.gurus|
  {
    forall h, c :: h in s.gurus[g].subs && c in s.gurus[g].subs[h].watchers ==> c in s.chans && s.chans[c].guru == g
  }

  ghost predicate WellFormed(s: Cluster) {
    && |s.gurus| == s.target.names
    && (forall a :: 0 <= a < |s.aides| ==> AideOk(s, a))
    && (forall c :: c in s.chans ==> ChanOk(s, c))
    && (forall g :: 0 <= g < |s.gurus| ==> GuruOk(s, g))
  }

  // No aide has a list before every guru has it, and nobody is more than one list behind.
  ghost predicate InStep(s: Cluster) {
    && (forall g :: 0 <= g < |s.gurus| ==> s.gurus[g].table == s.previous || s.gurus[g].table == s.target)
    && (forall a :: 0 <= a < |s.aides| && s.aides[a].table.Some? ==>
          s.aides[a].table.value == s.previous || s.aides[a].table.value == s.target)
    && (forall a, g :: 0 <= a < |s.aides| && 0 <= g < |s.gurus| && s.aides[a].table == Some(s.target) ==>
          s.gurus[g].table == s.target)
  }

  // The guru of channel c will count c among the contacts of h once it has handled c's queue.
  ghost predicate Member(s: Cluster, c: ChanId, h: Hash) {
    && c in s.chans && s.chans[c].guru < |s.gurus|
    && After(Watched(Find(s.gurus[s.chans[c].guru].subs, h), c), s.chans[c].up, h)
  }

  ghost predicate Leads(s: Cluster, c: ChanId, a: nat, g: nat) {
    c in s.chans && s.chans[c].aide == a && s.chans[c].guru == g
  }

  ghost predicate Covered(s: Cluster, a: nat, g: nat, h: Hash) {
    exists c :: Leads(s, c, a, g) && Member(s, c, h)
  }

  // While a list change is under way a topic may wait: for the aide's own bucket to
  // re-subscribe it, or for the aide to hear of the list its guru already follows.
  ghost predicate Waiting(s: Cluster, a: nat, g: nat, h: Hash)
    requires a < |s.aides|
  {
    || (Shard(s.aides[a].bits, h) in s.aides[a].pending && Remapped(s.aides[a], h))
    || g >= |s.gurus|
    || Lookup(s.gurus[g].table, h) != g
  }

  ghost predicate AideCovered(s: Cluster, a: nat)
    requires a < |s.aides|
  {
    var ad := s.aides[a];
    ad.table.Some? ==>
      forall h :: h in ad.subs ==>
        var g := Lookup(ad.table.value, h);
        Waiting(s, a, g, h) || Covered(s, a, g, h)
  }

  // Over its current channels an aide is subscribed only to what it holds, and only at the owner.
  ghost predicate AideExact(s: Cluster, a: nat)
    requires a < |s.aides|
  {
    var ad := s.aides[a];
    ad.table.Some? ==>
      forall i, h :: 0 <= i < |ad.links| && Member(s, ad.links[i], h) ==>
        Lookup(ad.table.value, h) == i && h in ad.subs
  }

  ghost predicate Inv(s: Cluster) {
    && WellFormed(s) && InStep(s)
    && forall a :: 0 <= a < |s.aides| ==> AideCovered(s, a) && AideExact(s, a)
  }

  // ----- steps of one aide

  lemma {:induction false} AfterRouted(member: bool, ad: Aide, c: ChanId, ps: seq<Packet>, h: Hash)
    ensures After(member, Routed(ad, c, ps), h) == if Link(ad, h) == Some(c) then After(member, ps, h) else member
  {
    if ps != [] {
      var init, last := ps[..|ps| - 1], ps[|ps| - 1];
      AfterRouted(member, ad, c, init, h);
      var tail := if Link(ad, last.h) == Some(c) then [last] else [];
      AfterAppend(member, Routed(ad, c, init), tail, h);
      AfterOne(After(member, Routed(ad, c, init), h), last, h);
    }
  }

  // What an aide may do to itself in one step: `ups` reports every topic that comes or goes,
  // and re-subscribes whatever stops waiting.
  ghost predicate Honest(ad: Aide, after: Aide, ups: seq<Packet>) {
    && after.(subs := ad.subs, pending := ad.pending) == ad
    && after.pending <= ad.pending
    && (forall h :: h in after.subs ==> !after.subs[h].owned)
    && (forall h :: After(h in ad.subs, ups, h) == (h in after.subs))
    && (forall h :: h in after.subs && Shard(ad.bits, h) in ad.pending - after.pending && Remapped(ad, h) ==>
          After(false, ups, h))
  }

  lemma PushedMember(s: Cluster, a: nat, after: Aide, ups: seq<Packet>, c: ChanId, h: Hash)
    requires a < |s.aides| && Honest(s.aides[a], after, ups)
    ensures Member(AideActs(s, a, after, ups), c, h) ==
            if Link(s.aides[a], h) == Some(c) && c in s.chans && s.chans[c].guru < |s.gurus|
            then After(Member(s, c, h), ups, h) else Member(s, c, h)
  {
    if c in s.chans && s.chans[c].guru < |s.gurus| {
      var member := Watched(Find(s.gurus[s.chans[c].guru].subs, h), c);
      AfterAppend(member, s.chans[c].up, Routed(after, c, ups), h);
      AfterRouted(After(member, s.chans[c].up, h), after, c, ups, h);
    }
  }

  lemma AideActsWellFormed(s: Cluster, a: nat, after: Aide, ups: seq<Packet>)
    requires WellFormed(s) && a < |s.aides| && Honest(s.aides[a], after, ups)
    ensures WellFormed(AideActs(s, a, after, ups))
  {
    var t := AideActs(s, a, after, ups);
    forall b | 0 <= b < |t.aides| ensures AideOk(t, b) { assert AideOk(s, b); }
    forall c | c in t.chans ensures ChanOk(t, c) { assert ChanOk(s, c); }
    forall g | 0 <= g < |t.gurus| ensures GuruOk(t, g) { assert GuruOk(s, g); }
  }

  lemma MemberLeads(t: Cluster, c: ChanId, h: Hash)
    ensures Member(t, c, h) ==> c in t.chans && t.chans[c].guru < |t.gurus|
  {
  }

  lemma StillExact(s: Cluster, a: nat, after: Aide, ups: seq<Packet>, b: nat)
    requires Inv(s) && a < |s.aides| && Honest(s.aides[a], after, ups) && b < |s.aides|
    ensures AideExact(AideActs(s, a, after, ups), b)
  {
    hide GuruOk, ChanOk, AideCovered, InStep, Member, Waiting, Routed;
    var t := AideActs(s, a, after, ups);
    assert AideExact(s, b) && AideOk(s, b) && AideOk(s, a);
    var ad := t.aides[b];
    forall i, h | ad.table.Some? && 0 <= i < |ad.links| && Member(t, ad.links[i], h)
      ensures Lookup(ad.table.value, h) == i && h in ad.subs
    {
      MemberLeads(t, ad.links[i], h);
      PushedMember(s, a, after, ups, ad.links[i], h);
      AfterMonotone(ups, h);
    }
  }

  lemma AideActsOk(s: Cluster, a: nat, after: Aide, ups: seq<Packet>)
    requires Inv(s) && a < |s.aides| && Honest(s.aides[a], after, ups)
    ensures Inv(AideActs(s, a, after, ups))
  {
    var t := AideActs(s, a, after, ups);
    AideActsWellFormed(s, a, after, ups);
    forall b | 0 <= b < |t.aides| ensures AideCovered(t, b) && AideExact(t, b) {
      StillExact(s, a, after, ups, b);
      var ad := t.aides[b];
      if ad.table.Some? {
        forall h | h in ad.subs && !Waiting(t, b, Lookup(ad.table.value, h), h)
          ensures Covered(t, b, Lookup(ad.table.value, h), h)
        {
          StillCovered(s, a, after, ups, b, h);
        }
      }
    }
  }

  lemma StillCovered(s: Cluster, a: nat, after: Aide, ups: seq<Packet>, b: nat, h: Hash)
    requires Inv(s) && a < |s.aides| && Honest(s.aides[a], after, ups) && b < |s.aides|
    requires var t := AideActs(s, a, after, ups);
             && t.aides[b].table.Some? && h in t.aides[b].subs
             && !Waiting(t, b, Lookup(t.aides[b].table.value, h), h)
    ensures Covered(AideActs(s, a, after, ups), b, Lookup(s.aides[b].table.value, h), h)
  {
    hide Member, GuruOk, ChanOk, AideExact, InStep, Lookup, Shard;
    var t := AideActs(s, a, after, ups);
    var g := Lookup(s.aides[b].table.value, h);
    assert AideOk(s, b) && AideCovered(s, b);
    var link := s.aides[b].links[g];
    PushedMember(s, a, after, ups, link, h);
    AfterMonotone(ups, h);
    if Member(t, link, h) {
      assert Leads(t, link, b, g);
    } else if b != a {
      var c :| Leads(s, c, b, g) && Member(s, c, h);
      assert AideOk(s, a);
      PushedMember(s, a, after, ups, c, h);
      assert Leads(t, c, b, g) && Member(t, c, h);
    } else {
      assert !After(false, ups, h);
      var c :| Leads(s, c, b, g) && Member(s, c, h);
      PushedMember(s, a, after, ups, c, h);
      assert Leads(t, c, b, g) && Member(t, c, h);
    }
  }

  ghost predicate SameEnds(s: Cluster, t: Cluster) {
    && t.aides == s.aides && t.next == s.next && t.chans.Keys == s.chans.Keys
    && forall c :: c in s.chans ==> t.chans[c].aide == s.chans[c].aide && t.chans[c].guru == s.chans[c].guru
  }

  lemma WaitingSame(s: Cluster, t: Cluster)
    requires t.aides == s.aides && |t.gurus| == |s.gurus|
    requires forall g :: 0 <= g < |s.gurus| ==> t.gurus[g].table == s.gurus[g].table
    ensures forall a, g, h :: 0 <= a < |s.aides| && Waiting(s, a, g, h) ==> Waiting(t, a, g, h)
  {
    hide Remapped, Shard;
  }

  lemma EndsOk(s: Cluster, t: Cluster)
    requires WellFormed(s) && SameEnds(s, t)
    ensures forall a :: 0 <= a < |t.aides| ==> AideOk(t, a)
    ensures forall c :: c in t.chans ==> ChanOk(t, c)
  {
    hide GuruOk;
    forall a | 0 <= a < |t.aides| ensures AideOk(t, a) { assert AideOk(s, a); }
    forall c | c in t.chans ensures ChanOk(t, c) { assert ChanOk(s, c); }
  }

  // A step that neither aides nor gurus can tell from doing nothing.
  ghost predicate SameButDown(s: Cluster, t: Cluster) {
    && s.aides == t.aides && s.gurus == t.gurus && s.next == t.next && s.previous == t.previous && s.target == t.target
    && s.chans.Keys == t.chans.Keys
    && forall c :: c in s.chans ==> t.chans[c] == s.chans[c].(down := t.chans[c].down)
  }

  lemma DownIrrelevant(s: Cluster, t: Cluster)
    requires Inv(s) && SameButDown(s, t)
    ensures Inv(t)
  {
    hide AideOk, ChanOk, AideCovered, AideExact, Waiting;
    EndsOk(s, t);
    forall g | 0 <= g < |t.gurus| ensures GuruOk(t, g) { assert GuruOk(s, g); }
    assert forall c, h :: Member(t, c, h) == Member(s, c, h);
    assert InStep(t);
    WaitingSame(s, t);
    GuruMoves(s, t);
  }

  // Only gurus move: nobody becomes a member, and only a guru that has handed a topic over
  // forgets a member of it.
  lemma GuruMoves(s: Cluster, t: Cluster)
    requires Inv(s) && WellFormed(t) && InStep(t) && t.aides == s.aides
    requires s.chans.Keys == t.chans.Keys
    requires forall c :: c in s.chans ==> t.chans[c].aide == s.chans[c].aide && t.chans[c].guru == s.chans[c].guru
    requires forall c, h :: Member(t, c, h) ==> Member(s, c, h)
    requires forall c, h :: Member(s, c, h) && !Member(t, c, h) ==>
               s.chans[c].guru >= |t.gurus| || Lookup(t.gurus[s.chans[c].guru].table, h) != s.chans[c].guru
    requires forall a, h :: 0 <= a < |s.aides| && s.aides[a].table.Some? && h in s.aides[a].subs ==>
               var g := Lookup(s.aides[a].table.value, h);
               Waiting(s, a, g, h) ==> Waiting(t, a, g, h)
    ensures Inv(t)
  {
    forall a | 0 <= a < |t.aides| ensures AideCovered(t, a) && AideExact(t, a) {
      assert AideCovered(s, a) && AideExact(s, a);
      var ad := t.aides[a];
      if ad.table.Some? {
        forall h | h in ad.subs && !Waiting(t, a, Lookup(ad.table.value, h), h)
          ensures Covered(t, a, Lookup(ad.table.value, h), h)
        {
          var g := Lookup(ad.table.value, h);
          var c :| Leads(s, c, a, g) && Member(s, c, h);
          assert Leads(t, c, a, g) && Member(t, c, h);
        }
      }
    }
  }

  // ----- the aide steps

  // Only aides and queues have moved: aides their topics and what is pending, nobody a list.
  ghost predicate OnlyAides(s: Cluster, t: Cluster) {
    && t.gurus == s.gurus && t.target == s.target && |t.aides| == |s.aides| && t.chans.Keys == s.chans.Keys
    && (forall b :: 0 <= b < |s.aides| ==> OwnOnly(s.aides[b], t.aides[b]))
    && (forall c :: c in s.chans ==> t.chans[c].aide == s.chans[c].aide && t.chans[c].guru == s.chans[c].guru)
  }

  ghost predicate OwnOnly(ad: Aide, after: Aide) {
    after.(subs := ad.subs, pending := ad.pending) == ad && after.pending <= ad.pending
  }

  ghost predicate AideStep(step: Step) {
    || step.ClientSubscribe? || step.ClientUnsubscribe? || step.ClientPublish? || step.AideHeartbeat?
    || step.AideResubscribes? || step.AideDials? || step.AideTakes?
  }

  lemma ActsOnly(s: Cluster, b: nat, after: Aide, ups: seq<Packet>)
    requires b < |s.aides| && OwnOnly(s.aides[b], after)
    ensures OnlyAides(s, AideActs(s, b, after, ups))
  {
    hide Routed;
  }

  lemma HandlesOnly(s: Cluster, b: nat, e: Effect, p: Packet)
    requires b < |s.aides|
    ensures OnlyAides(s, AideHandles(s, b, e, p))
  {
    hide Put, Push;
    ActsOnly(s, b, s.aides[b].(subs := Put(s.aides[b].subs, p.h, e.topic)), e.up);
  }

  lemma TakesOnly(s: Cluster, step: Step)
    requires step.AideTakes? && Enabled(s, step)
    ensures OnlyAides(s, Next(s, step))
  {
    hide DownEffect, Put, Push;
    var a, p := s.chans[step.c].aide, s.chans[step.c].down[step.i];
    var taken := s.(chans := TakenDown(s.chans, step.c, step.i));
    HandlesOnly(taken, a, DownEffect(Find(s.aides[a].subs, p.h), p, step.now, step.closed), p);
  }

  lemma AideStepOnly(s: Cluster, step: Step)
    requires AideStep(step) && Enabled(s, step)
    ensures OnlyAides(s, Next(s, step))
  {
    hide OnlyAides, OnSubscribe, OnUnsubscribe, OnPublish, Sweep, AideActs, AideHandles;
    match step
    case ClientSubscribe(b, ss, p, now) =>
      HandlesOnly(s, b, OnSubscribe(false, s.aides[b].links != [], Find(s.aides[b].subs, p.h), ss, p, now), p);
    case ClientUnsubscribe(b, ss, p) =>
      HandlesOnly(s, b, OnUnsubscribe(false, Find(s.aides[b].subs, p.h), ss, p), p);
    case ClientPublish(b, ss, p, now, closed) =>
      HandlesOnly(s, b, OnPublish(false, Find(s.aides[b].subs, p.h), ss, p, now, closed), p);
    case AideHeartbeat(b, bucket, now, closed, order) =>
      var ad := s.aides[b];
      ActsOnly(s, b, ad.(subs := Sweep(ad.subs, ad.bits, bucket, false, now, closed)), UnsubscribeAll(order));
    case AideResubscribes(b, bucket, order) =>
      var ad := s.aides[b];
      ActsOnly(s, b, ad.(pending := ad.pending - {bucket}), SubscribeAll(order, false));
    case AideDials(b, _, _, order) =>
      ActsOnly(s, b, s.aides[b], SubscribeAll(order, true));
    case AideTakes(_, _, _, _) =>
      hide Next;
      TakesOnly(s, step);
  }

  lemma HandlesOk(s: Cluster, a: nat, e: Effect, p: Packet)
    requires Inv(s) && a < |s.aides|
    requires Reports(Find(s.aides[a].subs, p.h), e, p.h)
    requires e.topic.Some? ==> !e.topic.value.owned
    ensures Inv(AideHandles(s, a, e, p))
  {
    var ad := s.aides[a];
    var after := ad.(subs := Put(ad.subs, p.h, e.topic));
    assert AideOk(s, a);
    forall h ensures After(h in ad.subs, e.up, h) == (h in after.subs) {
      if h != p.h {
        AfterOther(h in ad.subs, e.up, h);
      }
    }
    AideActsOk(s, a, after, e.up);
    DownIrrelevant(AideActs(s, a, after, e.up), AideHandles(s, a, e, p));
  }

  lemma ClientStepOk(s: Cluster, step: Step)
    requires Inv(s) && Enabled(s, step)
    requires step.ClientSubscribe? || step.ClientUnsubscribe? || step.ClientPublish?
    ensures Inv(Next(s, step))
  {
    var ad, p := s.aides[step.a], step.p;
    assert AideOk(s, step.a);
    var t := Find(ad.subs, p.h);
    match step
    case ClientSubscribe(a, ss, _, now) =>
      AidesReport(ad.links != [], t, ss, p, now, {});
      HandlesOk(s, a, OnSubscribe(false, ad.links != [], t, ss, p, now), p);
    case ClientUnsubscribe(a, ss, _) =>
      AidesReport(true, t, ss, p, 0, {});
      HandlesOk(s, a, OnUnsubscribe(false, t, ss, p), p);
    case ClientPublish(a, ss, _, now, closed) =>
      AidesReport(true, t, ss, p, now, closed);
      HandlesOk(s, a, OnPublish(false, t, ss, p, now, closed), p);
  }

  lemma AideTakesOk(s: Cluster, step: Step)
    requires Inv(s) && step.AideTakes? && Enabled(s, step)
    ensures Inv(Next(s, step))
  {
    var a, p := s.chans[step.c].aide, s.chans[step.c].down[step.i];
    var taken := s.(chans := TakenDown(s.chans, step.c, step.i));
    DownIrrelevant(s, taken);
    assert AideOk(s, a);
    var t := Find(s.aides[a].subs, p.h);
    AidesReport(true, t, 0, p, step.now, step.closed);
    assert After(t.Some?, [], p.h) == t.Some?;
    HandlesOk(taken, a, DownEffect(t, p, step.now, step.closed), p);
  }

  lemma {:induction false} AfterUnsubscribeAll(member: bool, order: seq<Hash>, h: Hash)
    ensures After(member, UnsubscribeAll(order), h) == (member && h !in order)
  {
    if order != [] {
      var init, last := order[..|order| - 1], order[|order| - 1];
      AfterUnsubscribeAll(member, init, h);
      assert UnsubscribeAll(order)[..|order| - 1] == UnsubscribeAll(init);
      assert order == init + [last];
    }
  }

  lemma {:induction false} AfterSubscribeAll(member: bool, order: seq<Hash>, noack: bool, h: Hash)
    ensures After(member, SubscribeAll(order, noack), h) == (member || h in order)
  {
    if order != [] {
      var init, last := order[..|order| - 1], order[|order| - 1];
      AfterSubscribeAll(member, init, noack, h);
      assert SubscribeAll(order, noack)[..|order| - 1] == SubscribeAll(init, noack);
      assert order == init + [last];
    }
  }

  lemma AideHeartbeatOk(s: Cluster, step: Step)
    requires Inv(s) && step.AideHeartbeat? && Enabled(s, step)
    ensures Inv(Next(s, step))
  {
    var ad, order := s.aides[step.a], step.order;
    var after := ad.(subs := Sweep(ad.subs, ad.bits, step.bucket, false, step.now, step.closed));
    assert AideOk(s, step.a);
    forall h ensures After(h in ad.subs, UnsubscribeAll(order), h) == (h in after.subs) {
      AfterUnsubscribeAll(h in ad.subs, order, h);
    }
    AideActsOk(s, step.a, after, UnsubscribeAll(order));
  }

  lemma AideResubscribesOk(s: Cluster, step: Step)
    requires Inv(s) && step.AideResubscribes? && Enabled(s, step)
    ensures Inv(Next(s, step))
  {
    var ad, order := s.aides[step.a], step.order;
    var after := ad.(pending := ad.pending - {step.bucket});
    assert AideOk(s, step.a);
    forall h ensures After(h in ad.subs, SubscribeAll(order, false), h) == (h in after.subs) {
      AfterSubscribeAll(h in ad.subs, order, false, h);
    }
    forall h ensures After(false, SubscribeAll(order, false), h) == (h in order) {
      AfterSubscribeAll(false, order, false, h);
    }
    AideActsOk(s, step.a, after, SubscribeAll(order, false));
  }

  // Subscribing again to what one holds says nothing new.
  lemma AideDialsOk(s: Cluster, step: Step)
    requires Inv(s) && step.AideDials? && Enabled(s, step)
    ensures Inv(Next(s, step))
  {
    var ad, order := s.aides[step.a], step.order;
    assert AideOk(s, step.a);
    forall h ensures After(h in ad.subs, SubscribeAll(order, true), h) == (h in ad.subs) {
      AfterSubscribeAll(h in ad.subs, order, true, h);
    }
    AideActsOk(s, step.a, ad, SubscribeAll(order, true));
  }

  // ----- the guru steps

  lemma GuruTakesMember(s: Cluster, step: Step, d: ChanId, h: Hash)
    requires Inv(s) && step.GuruTakes? && Enabled(s, step)
    ensures Member(Next(s, step), d, h) == Member(s, d, h)
  {
    hide AideOk, ChanOk, AideCovered, AideExact, InStep, OnSubscribe, OnUnsubscribe, OnPublish;
    var c, i := step.c, step.i;
    var g, p := s.chans[c].guru, s.chans[c].up[i];
    var guru := s.gurus[g];
    var t := Next(s, step);
    if d in s.chans && s.chans[d].guru == g {
      GurusListen(Find(guru.subs, p.h), c, p, step.now, d);
      var before := Watched(Find(guru.subs, h), d);
      var now := Watched(Find(t.gurus[g].subs, h), d);
      AfterOne(before, p, h);
      if d == c {
        forall j | 0 <= j < i ensures s.chans[c].up[j].h != p.h {
          assert Shard(guru.bits, s.chans[c].up[j].h) != Shard(guru.bits, p.h);
        }
        AfterTake(before, s.chans[c].up, i, h);
        assert now == After(before, [p], h);
        assert t.chans[c].up == Without(s.chans[c].up, i);
      } else {
        assert now == before;
        assert t.chans[d].up == s.chans[d].up;
      }
    }
  }

  lemma GuruTakesGuruOk(s: Cluster, step: Step, k: nat)
    requires Inv(s) && step.GuruTakes? && Enabled(s, step) && k < |s.gurus|
    ensures GuruOk(Next(s, step), k)
  {
    hide AideOk, AideCovered, AideExact, InStep;
    hide OnSubscribe, OnUnsubscribe, OnPublish;
    var c := step.c;
    var g, p := s.chans[c].guru, s.chans[c].up[step.i];
    var t := Next(s, step);
    assert GuruOk(s, k);
    if k == g {
      forall h, d | h in t.gurus[k].subs && d in t.gurus[k].subs[h].watchers
        ensures d in t.chans && t.chans[d].guru == k
      {
        if h == p.h {
          GurusListen(Find(s.gurus[g].subs, p.h), c, p, step.now, d);
        }
      }
    }
  }

  lemma GuruTakesOk(s: Cluster, step: Step)
    requires Inv(s) && step.GuruTakes? && Enabled(s, step)
    ensures Inv(Next(s, step))
  {
    hide AideOk, ChanOk, GuruOk, AideCovered, AideExact, Waiting, Member, GuruEffect;
    var t := Next(s, step);
    forall d, h ensures Member(t, d, h) == Member(s, d, h) {
      GuruTakesMember(s, step, d, h);
    }
    assert SameEnds(s, t);
    EndsOk(s, t);
    forall k | 0 <= k < |t.gurus| ensures GuruOk(t, k) {
      GuruTakesGuruOk(s, step, k);
    }
    WaitingSame(s, t);
    GuruMoves(s, t);
  }

  // Guru steps that only rewrite one guru's table of topics.
  lemma GuruRewrites(s: Cluster, g: nat, subs: Table)
    requires Inv(s) && g < |s.gurus|
    requires forall h, c :: Watched(Find(subs, h), c) ==> Watched(Find(s.gurus[g].subs, h), c)
    requires forall h, c :: Watched(Find(s.gurus[g].subs, h), c) && !Watched(Find(subs, h), c) ==>
               Lookup(s.gurus[g].table, h) != g
    ensures Inv(s.(gurus := s.gurus[g := s.gurus[g].(subs := subs)]))
  {
    hide AideOk, ChanOk, AideCovered, AideExact, Waiting;
    var t := s.(gurus := s.gurus[g := s.gurus[g].(subs := subs)]);
    EndsOk(s, t);
    forall k | 0 <= k < |t.gurus| ensures GuruOk(t, k) {
      assert GuruOk(s, k);
      forall h, d | k == g && h in subs && d in subs[h].watchers ensures d in t.chans && t.chans[d].guru == k {
        assert Watched(Find(subs, h), d);
      }
    }
    forall c, h ensures Member(t, c, h) ==> Member(s, c, h) {
      if c in s.chans {
        AfterMonotone(s.chans[c].up, h);
      }
    }
    WaitingSame(s, t);
    GuruMoves(s, t);
  }

  lemma GuruHeartbeatOk(s: Cluster, step: Step)
    requires Inv(s) && step.GuruHeartbeat? && Enabled(s, step)
    ensures Inv(Next(s, step))
  {
    hide Inv;
    var guru := s.gurus[step.g];
    var subs := Sweep(guru.subs, guru.bits, step.bucket, true, step.now, {});
    forall h, c ensures Watched(Find(subs, h), c) == Watched(Find(guru.subs, h), c) {
      if h in guru.subs {
        assert guru.subs[h].watchers - {} == guru.subs[h].watchers;
      }
    }
    GuruRewrites(s, step.g, subs);
  }

  lemma GuruSwitchesOk(s: Cluster, step: Step)
    requires Inv(s) && step.GuruSwitches? && Enabled(s, step)
    ensures Inv(Next(s, step))
  {
    hide AideOk, ChanOk, AideCovered, AideExact, Lookup, Shard;
    var t := Next(s, step);
    EndsOk(s, t);
    forall k | 0 <= k < |t.gurus| ensures GuruOk(t, k) { assert GuruOk(s, k); }
    assert forall c, h :: Member(t, c, h) == Member(s, c, h);
    GuruMoves(s, t);
  }

  // The rest of the cluster when the guru list changes at the end: contacts that exist keep
  // what they have, and no guru that stays learns anything.
  lemma NewListMember(s: Cluster, step: Step, c: ChanId, h: Hash)
    requires step.NewList? && Enabled(s, step)
    requires c in s.chans && s.chans[c].guru < |s.gurus|
    ensures Member(Next(s, step), c, h) == (Member(s, c, h) && s.chans[c].guru < |Next(s, step).gurus|)
  {
  }

  lemma NewListWellFormed(s: Cluster, step: Step)
    requires Inv(s) && step.NewList? && Enabled(s, step)
    ensures WellFormed(Next(s, step)) && InStep(Next(s, step))
  {
    hide AideOk, ChanOk, AideCovered, AideExact;
    var t := Next(s, step);
    EndsOk(s, t);
    forall k | 0 <= k < |t.gurus| ensures GuruOk(t, k) { assert k < |s.gurus| ==> GuruOk(s, k); }
    forall a | 0 <= a < |t.aides| ensures t.aides[a].table == Some(t.previous) { assert Settled(s, s.aides[a]); }
    assert t.previous.names == |s.gurus| != t.target.names;
  }

  lemma NewListOk(s: Cluster, step: Step)
    requires Inv(s) && step.NewList? && Enabled(s, step)
    ensures Inv(Next(s, step))
  {
    NewListWellFormed(s, step);
    forall a | 0 <= a < |s.aides| ensures AideCovered(Next(s, step), a) && AideExact(Next(s, step), a) {
      NewListAide(s, step, a);
    }
  }

  lemma NewListAide(s: Cluster, step: Step, a: nat)
    requires Inv(s) && step.NewList? && Enabled(s, step) && a < |s.aides|
    ensures AideCovered(Next(s, step), a) && AideExact(Next(s, step), a)
  {
    hide Member, InStep, GuruOk, ChanOk;
    var t := Next(s, step);
    var ad := s.aides[a];
    assert AideCovered(s, a) && AideExact(s, a) && AideOk(s, a) && Settled(s, ad);
    forall h | h in ad.subs && !Waiting(t, a, Lookup(ad.table.value, h), h)
      ensures Covered(t, a, Lookup(ad.table.value, h), h)
    {
      var g := Lookup(ad.table.value, h);
      var c :| Leads(s, c, a, g) && Member(s, c, h);
      NewListMember(s, step, c, h);
      assert Leads(t, c, a, g) && Member(t, c, h);
    }
    forall i, h | 0 <= i < |ad.links| && Member(t, ad.links[i], h) ensures Member(s, ad.links[i], h) {
      NewListMember(s, step, ad.links[i], h);
    }
  }

  lemma AddAideOk(s: Cluster, step: Step)
    requires Inv(s) && step.AddAide? && Enabled(s, step)
    ensures Inv(Next(s, step))
  {
    hide Member;
    var t := Next(s, step);
    forall b | 0 <= b < |t.aides| ensures AideOk(t, b) { assert b < |s.aides| ==> AideOk(s, b); }
    forall d | d in t.chans ensures ChanOk(t, d) { assert ChanOk(s, d); }
    forall k | 0 <= k < |t.gurus| ensures GuruOk(t, k) { assert GuruOk(s, k); }
    forall a | 0 <= a < |s.aides| ensures AideCovered(t, a) && AideExact(t, a) {
      AddAideKeeps(s, step, a);
    }
  }

  lemma AddAideKeeps(s: Cluster, step: Step, a: nat)
    requires step.AddAide? && Enabled(s, step)
    requires a < |s.aides| && AideCovered(s, a) && AideExact(s, a)
    ensures AideCovered(Next(s, step), a) && AideExact(Next(s, step), a)
  {
    var t := Next(s, step);
    var ad := s.aides[a];
    assert forall c, h :: Member(t, c, h) == Member(s, c, h);
    if ad.table.Some? {
      forall h | h in ad.subs && !Waiting(t, a, Lookup(ad.table.value, h), h)
        ensures Covered(t, a, Lookup(ad.table.value, h), h)
      {
        var g := Lookup(ad.table.value, h);
        var c :| Leads(s, c, a, g) && Member(s, c, h);
        assert Leads(t, c, a, g) && Member(t, c, h);
      }
    }
  }

  // ----- an aide gets a new list

  lemma SwitchWellFormed(s: Cluster, step: Step)
    requires Inv(s) && step.AideSwitches? && Enabled(s, step)
    ensures WellFormed(Next(s, step)) && InStep(Next(s, step))
  {
    hide AideCovered, AideExact, AideOk, Shard, GuruOk, Lookup, BucketIndices;
    var t := Next(s, step);
    forall b | 0 <= b < |t.aides| ensures AideOk(t, b) {
      SwitchAideOk(s, step, b);
    }
    forall d | d in t.chans ensures ChanOk(t, d) { assert d in s.chans ==> ChanOk(s, d); }
    forall k | 0 <= k < |t.gurus| ensures GuruOk(t, k) {
      SwitchGuruOk(s, step, k);
    }
  }

  lemma SwitchAideOk(s: Cluster, step: Step, b: nat)
    requires Inv(s) && step.AideSwitches? && Enabled(s, step) && b < |s.aides|
    ensures AideOk(Next(s, step), b)
  {
    hide AideCovered, AideExact, GuruOk, InStep, Shard, Lookup, BucketIndices;
    assert AideOk(s, b) && forall i :: 0 <= i < |s.aides[b].links| ==> ChanOk(s, s.aides[b].links[i]);
  }

  lemma SwitchGuruOk(s: Cluster, step: Step, k: nat)
    requires Inv(s) && step.AideSwitches? && Enabled(s, step) && k < |s.gurus|
    ensures GuruOk(Next(s, step), k)
  {
    hide AideCovered, AideExact, AideOk, InStep, Shard;
    var t := Next(s, step);
    assert GuruOk(s, k);
    forall h, c | h in t.gurus[k].subs && c in t.gurus[k].subs[h].watchers
      ensures c in t.chans && t.chans[c].guru == k
    {
      assert c in s.chans && ChanOk(s, c);
    }
  }

  // Old channels keep what they carry; the fresh ones carry nothing and are known to no guru.
  lemma SwitchMember(s: Cluster, step: Step, c: ChanId, h: Hash)
    requires Inv(s) && step.AideSwitches? && Enabled(s, step)
    ensures c < s.next ==> Member(Next(s, step), c, h) == Member(s, c, h)
    ensures c >= s.next ==> !Member(Next(s, step), c, h)
  {
    hide AideOk, AideCovered, AideExact, InStep;
    var t := Next(s, step);
    if c in t.chans && c >= s.next {
      var g := t.chans[c].guru;
      assert GuruOk(s, g);
      assert c in s.chans ==> ChanOk(s, c);
      assert t.chans[c].up == [];
    }
  }

  lemma AllPending(bits: nat, h: Hash)
    requires bits < 64
    ensures Shard(bits, h) in BucketIndices(bits)
  {
    ShardInRange(h, bits);
    assert Between(0, Shard(bits, h), Pow2(bits));
  }

  lemma SwitchCovered(s: Cluster, step: Step, b: nat, h: Hash)
    requires Inv(s) && step.AideSwitches? && Enabled(s, step) && b < |s.aides|
    requires var t := Next(s, step);
             && t.aides[b].table.Some? && h in t.aides[b].subs
             && !Waiting(t, b, Lookup(t.aides[b].table.value, h), h)
    ensures var t := Next(s, step); Covered(t, b, Lookup(t.aides[b].table.value, h), h)
  {
    hide Member, GuruOk, AideExact, Lookup, Shard, BucketIndices;
    var t := Next(s, step);
    var g := Lookup(t.aides[b].table.value, h);
    assert AideCovered(s, b) && AideOk(s, b);
    if b == step.a {
      AllPending(s.aides[b].bits, h);
      assert !Remapped(t.aides[b], h);
    }
    var c :| Leads(s, c, b, g) && Member(s, c, h);
    assert ChanOk(s, c);
    SwitchMember(s, step, c, h);
    assert Leads(t, c, b, g) && Member(t, c, h);
  }

  lemma SwitchExact(s: Cluster, step: Step, b: nat)
    requires Inv(s) && step.AideSwitches? && Enabled(s, step) && b < |s.aides|
    ensures AideExact(Next(s, step), b)
  {
    hide Member, GuruOk, InStep, AideCovered;
    var t := Next(s, step);
    assert AideExact(s, b) && AideOk(s, b);
    var ad := t.aides[b];
    forall i, h | ad.table.Some? && 0 <= i < |ad.links| && Member(t, ad.links[i], h)
      ensures Lookup(ad.table.value, h) == i && h in ad.subs
    {
      if b != step.a {
        assert ChanOk(s, ad.links[i]);
      }
      SwitchMember(s, step, ad.links[i], h);
    }
  }

  lemma AideSwitchesOk(s: Cluster, step: Step)
    requires Inv(s) && step.AideSwitches? && Enabled(s, step)
    ensures Inv(Next(s, step))
  {
    hide Member, AideOk, ChanOk, GuruOk, InStep, AideExact, Covered;
    var t := Next(s, step);
    SwitchWellFormed(s, step);
    forall b | 0 <= b < |t.aides| ensures AideCovered(t, b) && AideExact(t, b) {
      SwitchExact(s, step, b);
      var ad := t.aides[b];
      if ad.table.Some? {
        forall h | h in ad.subs && !Waiting(t, b, Lookup(ad.table.value, h), h)
          ensures Covered(t, b, Lookup(ad.table.value, h), h)
        {
          SwitchCovered(s, step, b, h);
        }
      }
    }
  }

  // ----- over every run

  /** Whatever happens next, the invariant survives it. */
  lemma StepOk(s: Cluster, step: Step)
    requires Inv(s) && Enabled(s, step)
    ensures Inv(Next(s, step))
  {
    match step
    case AideHeartbeat(_, _, _, _, _) => AideHeartbeatOk(s, step);
    case GuruTakes(_, _, _) => GuruTakesOk(s, step);
    case AideTakes(_, _, _, _) => AideTakesOk(s, step);
    case GuruHeartbeat(_, _, _) => GuruHeartbeatOk(s, step);
    case AddAide(_) => AddAideOk(s, step);
    case NewList(_, _) => NewListOk(s, step);
    case GuruSwitches(_) => GuruSwitchesOk(s, step);
    case GuruPrunes(_, _) =>
      GuruRewrites(s, step.g, Prune(s.gurus[step.g], step.g, step.bucket));
    case AideSwitches(_) => AideSwitchesOk(s, step);
    case AideResubscribes(_, _, _) => AideResubscribesOk(s, step);
    case AideDials(_, _, _, _) => AideDialsOk(s, step);
    case _ => ClientStepOk(s, step);
  }

  lemma {:induction false} InvariantOverRuns(s: Cluster, steps: seq<Step>, t: Cluster)
    requires Inv(s) && Runs(s, steps, t)
    ensures Inv(t)
    decreases |steps|
  {
    if steps != [] {
      StepOk(s, steps[0]);
      InvariantOverRuns(Next(s, steps[0]), steps[1..], t);
    }
  }

  ghost predicate Reachable(t: Cluster) {
    exists s, steps :: Init(s) && Runs(s, steps, t)
  }

  lemma ReachableInv(t: Cluster)
    requires Reachable(t)
    ensures Inv(t)
  {
    var s, steps :| Init(s) && Runs(s, steps, t);
    InvariantOverRuns(s, steps, t);
  }

  // A Subscribe for `h` is in flight with no Unsubscribe for it behind.
  ghost predicate SubscribePending(q: seq<Packet>, h: Hash) {
    exists i :: 0 <= i < |q| && q[i].Subscribe? && q[i].h == h && !UnsubscribePending(q[i + 1..], h)
  }

  ghost predicate UnsubscribePending(q: seq<Packet>, h: Hash) {
    exists j :: 0 <= j < |q| && q[j].Unsubscribe? && q[j].h == h
  }

  /** What After computes, in terms of the packets in the queue. */
  lemma {:induction false} AfterMeans(member: bool, q: seq<Packet>, h: Hash)
    ensures After(member, q, h) <==> SubscribePending(q, h) || (member && !UnsubscribePending(q, h))
  {
    if q != [] {
      var init, last := q[..|q| - 1], q[|q| - 1];
      AfterMeans(member, init, h);
      assert UnsubscribePending(q, h) <==> UnsubscribePending(init, h) || (last.Unsubscribe? && last.h == h) by {
        if UnsubscribePending(init, h) {
          var j :| 0 <= j < |init| && init[j].Unsubscribe? && init[j].h == h;
          assert q[j] == init[j];
        }
      }
      PendingSnoc(init, last, h);
      assert q == init + [last];
    }
  }

  lemma PendingSnoc(init: seq<Packet>, last: Packet, h: Hash)
    ensures SubscribePending(init + [last], h) <==>
            (last.Subscribe? && last.h == h) || (SubscribePending(init, h) && !(last.Unsubscribe? && last.h == h))
  {
    var q := init + [last];
    if last.Subscribe? && last.h == h {
      assert q[|init|] == last && q[|init| + 1..] == [];
    }
    forall i | 0 <= i < |init| && init[i].Subscribe? && init[i].h == h
      ensures UnsubscribePending(q[i + 1..], h) <==>
              UnsubscribePending(init[i + 1..], h) || (last.Unsubscribe? && last.h == h)
    {
      var x, y := q[i + 1..], init[i + 1..];
      assert x == y + [last];
      if UnsubscribePending(y, h) {
        var j :| 0 <= j < |y| && y[j].Unsubscribe? && y[j].h == h;
        assert x[j] == y[j];
      }
      if last.Unsubscribe? && last.h == h {
        assert x[|y|] == last;
      }
    }
    if SubscribePending(init, h) && !(last.Unsubscribe? && last.h == h) {
      var i :| 0 <= i < |init| && init[i].Subscribe? && init[i].h == h && !UnsubscribePending(init[i + 1..], h);
      assert q[i] == init[i];
    }
    if SubscribePending(q, h) {
      var i :| 0 <= i < |q| && q[i].Subscribe? && q[i].h == h && !UnsubscribePending(q[i + 1..], h);
      assert i < |init| ==> init[i] == q[i];
    }
  }

  // No list change is under way for this aide.
  ghost predicate Stable(t: Cluster, a: nat) {
    && a < |t.aides| && Settled(t, t.aides[a])
    && forall g :: 0 <= g < |t.gurus| ==> t.gurus[g].table == t.target
  }

  /**
   * Coverage over every run: once an aide and the gurus follow the same list, each topic the
   * aide holds is known to its owner guru under a contact leading to the aide, with no
   * Unsubscribe on its way there, or else a Subscribe is on its way with no Unsubscribe behind.
   */
  lemma CoverageOverRuns(t: Cluster, a: nat, h: Hash)
    requires Reachable(t) && Stable(t, a) && h in t.aides[a].subs
    ensures var g := Lookup(t.target, h);
            && g < |t.gurus|
            && exists c :: Leads(t, c, a, g)
                 && (|| SubscribePending(t.chans[c].up, h)
                     || (Watched(Find(t.gurus[g].subs, h), c) && !UnsubscribePending(t.chans[c].up, h)))
  {
    hide GuruOk, ChanOk, AideOk, AideExact, Reachable;
    ReachableInv(t);
    assert AideCovered(t, a);
    var g := Lookup(t.target, h);
    var c :| Leads(t, c, a, g) && Member(t, c, h);
    AfterMeans(Watched(Find(t.gurus[g].subs, h), c), t.chans[c].up, h);
  }

  // Nothing is on its way up from aide `a`.
  ghost predicate Drained(t: Cluster, a: nat) {
    forall c :: c in t.chans && t.chans[c].aide == a ==> t.chans[c].up == []
  }

  /**
   * Convergence: in whatever order aides re-subscribed and gurus pruned, over any number of
   * lists that each append a name or drop the last one, when an aide and the gurus have the
   * newest list and nothing of the aide's is on its way up, every topic it holds is held by its
   * new owner guru, with a contact leading to that aide. A topic taken on before any list
   * arrived is no exception.
   */
  lemma Convergence(t: Cluster, a: nat, h: Hash)
    requires Reachable(t) && Stable(t, a) && Drained(t, a) && h in t.aides[a].subs
    ensures var g := Lookup(t.target, h);
            && g < |t.gurus| && h in t.gurus[g].subs
            && exists c :: Leads(t, c, a, g) && c in t.gurus[g].subs[h].watchers
  {
    hide GuruOk, ChanOk, AideOk, AideExact, Reachable;
    ReachableInv(t);
    assert AideCovered(t, a);
    var g := Lookup(t.target, h);
    var c :| Leads(t, c, a, g) && Member(t, c, h);
    assert After(Watched(Find(t.gurus[g].subs, h), c), [], h) == Watched(Find(t.gurus[g].subs, h), c);
  }

  // The aide has only the channels of its current list: no list change has ever replaced them.
  ghost predicate FirstList(t: Cluster, a: nat)
    requires a < |t.aides|
  {
    forall c :: c in t.chans && t.chans[c].aide == a ==> c in t.aides[a].links
  }

  /**
   * While an aide is on its first list coverage is exact: the owner guru counts its channel
   * among the topic's contacts if and only if the aide holds the topic, and no other guru does.
   */
  lemma ExactOverRuns(t: Cluster, a: nat, c: ChanId, h: Hash)
    requires Reachable(t) && Stable(t, a) && FirstList(t, a)
    requires c in t.chans && t.chans[c].aide == a
    ensures Member(t, c, h) <==> h in t.aides[a].subs && t.chans[c].guru == Lookup(t.target, h)
  {
    hide GuruOk, ChanOk, Member, Reachable, InStep;
    ReachableInv(t);
    assert AideCovered(t, a) && AideExact(t, a) && AideOk(t, a);
    var links := t.aides[a].links;
    var i :| 0 <= i < |links| && links[i] == c;
    if h in t.aides[a].subs && i == Lookup(t.target, h) {
      var d :| Leads(t, d, a, i) && Member(t, d, h);
      var j :| 0 <= j < |links| && links[j] == d;
    }
  }
}
