// The billing accumulator (iot/billing.go): four buckets used as a ring, changed in place. The
// ring always holds the newest windows of the history of reports.
module Billing {
  import opened Rates

  // StatsWithTime.
  datatype Slot = Slot(stats: Stats, start: int, used: bool)

  ghost predicate Holds(s: Slot, w: Window) {
    s.used && s.start == w.start && s.stats == Total(w.reports)
  }

  // The ring holds the newest windows: window m in slot m % 4, the newest of them in slot i.
  // Slots never used are zero.
  ghost predicate Ring(a: seq<Slot>, i: nat, ws: seq<Window>) {
    && |a| == LOOKBACK
    && i == (if ws == [] then 0 else (|ws| - 1) % LOOKBACK)
    && (forall m :: |ws| - LOOKBACK <= m < |ws| && 0 <= m ==> Holds(a[m % LOOKBACK], ws[m]))
    && (forall k :: |ws| <= k < LOOKBACK ==> !a[k].used && a[k].stats == ZERO)
  }

  lemma RingOpens(a: seq<Slot>, w: Window, b: seq<Slot>)
    requires Ring(a, 0, []) && |b| == LOOKBACK && w.reports == []
    requires forall k :: 0 < k < LOOKBACK ==> b[k] == a[k].(start := b[k].start)
    requires b[0] == Slot(ZERO, w.start, true)
    ensures Ring(b, 0, [w])
  {
  }

  lemma RingFills(a: seq<Slot>, i: nat, ws: seq<Window>, rep: Report)
    requires Ring(a, i, ws) && ws != []
    ensures i < |a| && Ring(a[i := a[i].(used := true, stats := Plus(a[i].stats, rep.stats))], i,
                 ws[|ws| - 1 := Window(Last(ws).start, Last(ws).reports + [rep])])
  {
    var rs := Last(ws).reports;
    assert (rs + [rep])[..|rs|] == rs;
    assert Holds(a[i], ws[|ws| - 1]);
  }

  lemma RingRolls(a: seq<Slot>, i: nat, ws: seq<Window>, start: int)
    requires Ring(a, i, ws) && ws != []
    ensures var j := (i + 1) % LOOKBACK; Ring(a[j := Slot(ZERO, start, true)], j, ws + [Window(start, [])])
  {
    var j := (i + 1) % LOOKBACK;
    assert j == |ws| % LOOKBACK;
  }

  lemma RingCurrent(a: seq<Slot>, i: nat, ws: seq<Window>)
    requires Ring(a, i, ws)
    ensures |a| == LOOKBACK && i < LOOKBACK && a[i].used == (ws != [])
    ensures if ws == [] then i == 0 && a[0].stats == ZERO else a[i].start == Last(ws).start
  {
    if ws != [] {
      assert Holds(a[i], ws[|ws| - 1]);
    }
  }

  lemma WindowsSnoc(h: seq<Report>, rep: Report)
    ensures Windows(h + [rep]) == AddReport(Windows(h), rep)
  {
    assert (h + [rep])[..|h|] == h;
  }

  class BillingAccumulator {
    const a: array<Slot>
    var i: nat
    var max: Stats
    ghost var history: seq<Report>

    ghost predicate Valid()
      reads this, a
    {
      Ring(a[..], i, Windows(history))
    }

    constructor (max: Stats)
      ensures Valid() && history == [] && this.max == max && fresh(a)
    {
      a := new Slot[LOOKBACK](_ => Slot(ZERO, 0, false));
      i, this.max, history := 0, max, [];
    }

    /** AddUsage. */
    method AddUsage(stats: Stats, now: int, deltat: nat)
      requires Valid()
      modifies this, a
      ensures Valid() && history == old(history) + [Report(stats, now, deltat)] && max == old(max)
    {
      hide Ring, Windows, Plus;
      ghost var ws, rep := Windows(history), Report(stats, now, deltat);
      ghost var base := if ws == [] then [Window(now - deltat, [])] else ws;
      RingCurrent(a[..], i, ws);
      if !a[i].used {
        OpenBuckets(now, deltat);
        RingOpens(old(a[..]), base[0], a[..]);
      }
      RingFills(a[..], i, base, rep);
      RingCurrent(a[..], i, base);
      ghost var filled := base[|base| - 1 := Window(Last(base).start, Last(base).reports + [rep])];
      Accumulate(stats);
      WindowsSnoc(history, rep);
      history := history + [rep];
      if a[i].start + SPAN < now {
        RingRolls(a[..], i, filled, a[i].start + SPAN);
        RollForward();
      }
    }

    /** Add a report to the current bucket. */
    method Accumulate(stats: Stats)
      requires i < a.Length
      modifies a
      ensures a[..] == old(a[..])[i := old(a[i]).(used := true, stats := Plus(old(a[i]).stats, stats))]
    {
      a[i] := a[i].(used := true, stats := Plus(a[i].stats, stats));
    }

    /** Go on to the next bucket, cleared, which starts when this one ended. */
    method RollForward()
      requires a.Length == LOOKBACK && i < LOOKBACK
      modifies a, this`i
      ensures i == (old(i) + 1) % LOOKBACK
      ensures a[..] == old(a[..])[i := Slot(ZERO, old(a[i]).start + SPAN, true)]
    {
      var previousTime := a[i].start + SPAN;
      i := (i + 1) % LOOKBACK;
      a[i] := Slot(ZERO, previousTime, true);
    }

    /** The first report: give every bucket a start, and the current one the span it covers. */
    method OpenBuckets(now: int, deltat: nat)
      requires a.Length == LOOKBACK && i < LOOKBACK
      modifies a
      ensures forall k :: 0 <= k < LOOKBACK && k != i ==> a[k] == old(a[k]).(start := a[k].start)
      ensures a[i] == old(a[i]).(start := now - deltat, used := true)
    {
      for k := 0 to LOOKBACK
        invariant forall j :: 0 <= j < LOOKBACK ==> a[j] == old(a[j]).(start := a[j].start)
      {
        a[k] := a[k].(start := now - SPAN * (LOOKBACK - k));
      }
      a[i] := a[i].(start := now - deltat, used := true);
    }

    /** GetStats: walk back from the newest bucket until an unused one. */
    method GetStats(now: int) returns (dest: Stats)
      requires Valid()
      ensures dest == Rate(Windows(history), now)
    {
      hide Ring, Windows, Plus, Total, Flatten, Holds;
      ghost var ws := Windows(history);
      RingCurrent(a[..], i, ws);
      NothingYet(ws);
      dest := ZERO;
      var times, tmpnow, k := 0, now, 0;
      assert ws[|ws|..] == [];
      while k < LOOKBACK
        invariant 0 <= k <= LOOKBACK && k <= |ws|
        invariant dest == Total(Flatten(ws[|ws| - k..]))
        invariant tmpnow == if k == 0 then now else ws[|ws| - k].start
        invariant times == now - tmpnow
      {
        var index := (i - k + LOOKBACK) % LOOKBACK;
        SlotAt(a[..], i, ws, k);
        var c := a[index];
        if !c.used {
          break;
        }
        Backward(ws, k);
        HoldsIs(c, ws[|ws| - 1 - k]);
        dest := Plus(dest, c.stats);
        var buckettime := tmpnow - c.start;
        tmpnow := tmpnow - buckettime;
        times := times + buckettime;
        k := k + 1;
      }
      assert Kept(ws) == ws[|ws| - k..];
      if times != 0 {
        dest := Divide(dest, times);
      }
    }

    /** AreUnderMax: whether each rate is within its limit and a small tolerance. */
    method AreUnderMax(now: int) returns (good: bool)
      requires Valid()
      ensures good <==> UnderMax(Rate(Windows(history), now), max)
      ensures var rate := Rate(Windows(history), now);
              good <==> && rate.connections - max.connections <= 0.1 && rate.input - max.input <= 10.0
                        && rate.output - max.output <= 0.1 && rate.subscriptions - max.subscriptions <= 0.1
    {
      var current := GetStats(now);
      good := true;
      if current.connections > max.connections + 0.1 {
        good := false;
      }
      if current.input > max.input + 0.1 * 100.0 {
        good := false;
      }
      if current.output > max.output + 0.1 {
        good := false;
      }
      if current.subscriptions > max.subscriptions + 0.1 {
        good := false;
      }
    }
  }

  // The slot that GetStats visits k steps back.
  lemma SlotAt(a: seq<Slot>, i: nat, ws: seq<Window>, k: nat)
    requires Ring(a, i, ws) && k < LOOKBACK && k <= |ws|
    ensures var index := (i - k + LOOKBACK) % LOOKBACK;
            a[index].used == (k < |ws|) && (k < |ws| ==> Holds(a[index], ws[|ws| - 1 - k]))
  {
    if k < |ws| {
      var m := |ws| - 1 - k;
      assert (i - k + LOOKBACK) % LOOKBACK == m % LOOKBACK;
      assert Holds(a[m % LOOKBACK], ws[m]);
    } else if ws != [] {
      assert (i - k + LOOKBACK) % LOOKBACK == LOOKBACK - 1;
    }
  }

  lemma HoldsIs(s: Slot, w: Window)
    requires Holds(s, w)
    ensures s.start == w.start && s.stats == Total(w.reports)
  {
  }

  lemma NothingYet(ws: seq<Window>)
    ensures Total(Flatten(ws[|ws|..])) == ZERO
  {
    assert ws[|ws|..] == [];
  }

  lemma Backward(ws: seq<Window>, k: nat)
    requires k < |ws|
    ensures Total(Flatten(ws[|ws| - k - 1..])) == Plus(Total(Flatten(ws[|ws| - k..])), Total(ws[|ws| - k - 1].reports))
  {
    var first := [ws[|ws| - k - 1]];
    assert ws[|ws| - k - 1..] == first + ws[|ws| - k..];
    FlattenAppend(first, ws[|ws| - k..]);
    assert first[..0] == [] && Flatten(first) == first[0].reports;
    TotalAppend(first[0].reports, Flatten(ws[|ws| - k..]));
  }

  predicate UnderMax(current: Stats, max: Stats) {
    && current.connections <= max.connections + 0.1 && current.input <= max.input + 0.1 * 100.0
    && current.output <= max.output + 0.1 && current.subscriptions <= max.subscriptions + 0.1
  }

  /** A client that keeps to its limit is never reported over it. */
  lemma SteadyClientIsUnderMax(h: seq<Report>, r: Stats, max: Stats, now: int)
    requires Steady(h, r) && AtMost(ZERO, r) && AtMost(r, max) && (h != [] ==> Last(h).now <= now)
    ensures UnderMax(Rate(Windows(h), now), max)
  {
    hide Rate, Windows, Steady;
    SteadyClientIsNotOverstated(h, r, now);
  }

  // What was used of one resource since the oldest kept window opened comes to more than its
  // limit, tolerance and rounding included.
  ghost predicate Exceeds(used: real, t: real, limit: real, tolerance: real) {
    used > (limit + tolerance + 0.01) * t
  }

  lemma Caught(used: real, t: real, rate: real, limit: real, tolerance: real)
    requires t > 0.0 && Exceeds(used, t, limit, tolerance) && used / t - 0.01 < rate
    ensures rate > limit + tolerance
  {
    var q, bound := used / t, limit + tolerance + 0.01;
    assert q * t == used;
    if q <= bound {
      assert q * t <= bound * t;
    }
  }

  /** A client that goes over one limit by more than the tolerance is found out. */
  lemma OverUserIsCaught(h: seq<Report>, max: Stats, now: int)
    requires h != [] && now > Kept(Windows(h))[0].start
    requires var sum := Total(Flatten(Kept(Windows(h))));
             var t := (now - Kept(Windows(h))[0].start) as real;
             || Exceeds(sum.connections, t, max.connections, 0.1) || Exceeds(sum.input, t, max.input, 10.0)
             || Exceeds(sum.output, t, max.output, 0.1) || Exceeds(sum.subscriptions, t, max.subscriptions, 0.1)
    ensures !UnderMax(Rate(Windows(h), now), max)
  {
    hide Rate, Flatten, Total, Exceeds;
    RateIsTight(h, now);
    hide Windows, Kept;
    var sum := Total(Flatten(Kept(Windows(h))));
    var t := (now - Kept(Windows(h))[0].start) as real;
    var rate := Rate(Windows(h), now);
    if Exceeds(sum.connections, t, max.connections, 0.1) {
      Caught(sum.connections, t, rate.connections, max.connections, 0.1);
    } else if Exceeds(sum.input, t, max.input, 10.0) {
      Caught(sum.input, t, rate.input, max.input, 10.0);
    } else if Exceeds(sum.output, t, max.output, 0.1) {
      Caught(sum.output, t, rate.output, max.output, 0.1);
    } else {
      Caught(sum.subscriptions, t, rate.subscriptions, max.subscriptions, 0.1);
    }
  }
}
