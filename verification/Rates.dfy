// What a client's usage reports amount to (iot/billing.go): the full history of reports, cut
// into ten-minute windows, and the rate over the last four of them. Floats are reals.
module Rates {
  const SPAN := 10 * 60
  const LOOKBACK := 4

  datatype Stats = Stats(connections: real, input: real, output: real, subscriptions: real)

  const ZERO := Stats(0.0, 0.0, 0.0, 0.0)

  function Plus(x: Stats, y: Stats): Stats {
    Stats(x.connections + y.connections, x.input + y.input, x.output + y.output, x.subscriptions + y.subscriptions)
  }

  function Times(r: Stats, t: int): Stats {
    Stats(r.connections * t as real, r.input * t as real, r.output * t as real, r.subscriptions * t as real)
  }

  predicate AtMost(x: Stats, y: Stats) {
    x.connections <= y.connections && x.input <= y.input && x.output <= y.output && x.subscriptions <= y.subscriptions
  }

  // One call of AddUsage.
  datatype Report = Report(stats: Stats, now: int, deltat: nat)

  // A bucket's worth of reports.
  datatype Window = Window(start: int, reports: seq<Report>)

  function Total(rs: seq<Report>): Stats
  {
    if rs == [] then ZERO else Plus(Total(rs[..|rs| - 1]), rs[|rs| - 1].stats)
  }

  function Last<T>(s: seq<T>): T
    requires s != []
  {
    s[|s| - 1]
  }

  /** Where a report goes: into the newest window, which closes if it is more than 600 s old. */
  function AddReport(ws: seq<Window>, r: Report): (more: seq<Window>)
    ensures more != []
  {
    var base := if ws == [] then [Window(r.now - r.deltat, [])] else ws;
    var current := Window(Last(base).start, Last(base).reports + [r]);
    var filled := base[|base| - 1 := current];
    if current.start + SPAN < r.now then filled + [Window(current.start + SPAN, [])] else filled
  }

  /** All windows ever opened by a history of reports. */
  function Windows(h: seq<Report>): (ws: seq<Window>)
    ensures h != [] ==> ws != []
  {
    if h == [] then [] else AddReport(Windows(h[..|h| - 1]), Last(h))
  }

  function Flatten(ws: seq<Window>): seq<Report>
  {
    if ws == [] then [] else Flatten(ws[..|ws| - 1]) + Last(ws).reports
  }

  function Kept(ws: seq<Window>): seq<Window> {
    ws[if |ws| > LOOKBACK then |ws| - LOOKBACK else 0..]
  }

  /** Round down to two decimals. */
  function Floor2(x: real): real {
    (x * 100.0).Floor as real / 100.0
  }

  function Divide(sum: Stats, times: int): Stats
    requires times != 0
  {
    var t := times as real;
    Stats(Floor2(sum.connections / t), Floor2(sum.input / t), Floor2(sum.output / t), Floor2(sum.subscriptions / t))
  }

  /** The rate over the kept windows; with no time passed the plain sum. */
  function Rate(ws: seq<Window>, now: int): Stats {
    if ws == [] then ZERO
    else
      var sum, times := Total(Flatten(Kept(ws))), now - Kept(ws)[0].start;
      if times == 0 then sum else Divide(sum, times)
  }

  // ----- the windows partition the history

  lemma {:induction false} FlattenAppend(x: seq<Window>, y: seq<Window>)
    ensures Flatten(x + y) == Flatten(x) + Flatten(y)
  {
    if y == [] {
      assert x + y == x;
    } else {
      FlattenAppend(x, y[..|y| - 1]);
      assert (x + y)[..|x + y| - 1] == x + y[..|y| - 1];
    }
  }

  lemma NoneFlat()
    ensures Flatten([]) == []
  {
  }

  lemma FlattenSnoc(init: seq<Window>, last: Window)
    ensures Flatten(init + [last]) == Flatten(init) + last.reports
  {
    assert (init + [last])[..|init|] == init;
  }

  lemma AddReportFlat(ws: seq<Window>, r: Report)
    ensures Flatten(AddReport(ws, r)) == Flatten(ws) + [r]
  {
    hide Flatten;
    var base := if ws == [] then [Window(r.now - r.deltat, [])] else ws;
    var init, last := base[..|base| - 1], Last(base);
    var filled := Window(last.start, last.reports + [r]);
    assert base == init + [last] && base[|base| - 1 := filled] == init + [filled];
    if ws == [] {
      NoneFlat();
      assert init == [];
    }
    FlattenSnoc(init, last);
    FlattenSnoc(init, filled);
    FlattenSnoc(init + [filled], Window(last.start + SPAN, []));
  }

  // All windows but the newest stay as they are, and at most one more opens, empty, 600 s on.
  lemma AddReportGrows(ws: seq<Window>, r: Report)
    ensures var more := AddReport(ws, r);
            && |ws| <= |more| && (ws != [] ==> |more| <= |ws| + 1 && more[|ws| - 1].start == Last(ws).start)
            && (ws == [] ==> |more| <= 2 && more[0].start == r.now - r.deltat)
            && (forall k :: 0 <= k < |ws| - 1 ==> more[k] == ws[k])
            && (|more| > |ws| && |more| > 1 ==>
                  Last(more).reports == [] && Last(more).start == more[|more| - 2].start + SPAN < r.now)
  {
  }

  /**
   * Nothing reported is lost or counted twice: the windows in order hold exactly the history,
   * and they open exactly 600 s apart.
   */
  lemma {:induction false} WindowsPartition(h: seq<Report>)
    ensures Flatten(Windows(h)) == h
    ensures forall k :: 0 < k < |Windows(h)| ==> Windows(h)[k].start == Windows(h)[k - 1].start + SPAN
  {
    hide Flatten, AddReport;
    NoneFlat();
    if h != [] {
      var init := h[..|h| - 1];
      WindowsPartition(init);
      AddReportFlat(Windows(init), Last(h));
      AddReportGrows(Windows(init), Last(h));
      assert h == init + [Last(h)];
    }
  }

  // Window n opened on the report with index k - 1, and the windows before it hold the k
  // reports up to then.
  lemma {:induction false} OpenedAt(h: seq<Report>, n: nat) returns (k: nat)
    requires 0 < n < |Windows(h)|
    ensures 0 < k <= |h| && |Windows(h[..k - 1])| <= n < |Windows(h[..k])|
    ensures Flatten(Windows(h)[..n]) == h[..k]
    decreases |h|
  {
    hide Flatten, AddReport;
    var init := h[..|h| - 1];
    var before, ws := Windows(init), Windows(h);
    AddReportGrows(before, Last(h));
    if n < |before| {
      k := OpenedAt(init, n);
      assert h[..k] == init[..k] && h[..k - 1] == init[..k - 1];
      assert ws[..n] == before[..n];
    } else {
      k := |h|;
      assert h[..k] == h;
      WindowsPartition(h);
      assert ws == ws[..n] + [Last(ws)];
      FlattenSnoc(ws[..n], Last(ws));
    }
  }

  /**
   * The kept windows hold exactly the newest reports: those handled since the oldest of them
   * opened, and all of them while no window has been dropped.
   */
  lemma KeptIsSuffix(h: seq<Report>) returns (older: nat)
    requires h != []
    ensures older <= |h| && Flatten(Kept(Windows(h))) == h[older..]
    ensures var n := |Windows(h)| - |Kept(Windows(h))|;
            if n == 0 then older == 0
            else older > 0 && |Windows(h[..older - 1])| <= n < |Windows(h[..older])|
  {
    hide Flatten, Windows;
    var ws := Windows(h);
    var n := |ws| - |Kept(ws)|;
    WindowsPartition(h);
    FlattenAppend(ws[..n], Kept(ws));
    assert ws == ws[..n] + Kept(ws);
    if n == 0 {
      older := 0;
      NoneFlat();
    } else {
      older := OpenedAt(h, n);
    }
  }

  /**
   * When a window opens: the first covers the span of the first report, and then one more exactly
   * when a report comes in later than 600 s after the newest opened.
   */
  lemma OpensWhenDue(h: seq<Report>, rep: Report)
    ensures var before, after := Windows(h), Windows(h + [rep]);
            var start := if h == [] then rep.now - rep.deltat else Last(before).start;
            && after[if h == [] then 0 else |before| - 1].start == start
            && |after| == (if h == [] then 1 else |before|) + (if rep.now - start > 600 then 1 else 0)
  {
    assert (h + [rep])[..|h|] == h;
    if h == [] {
      NoWindows();
    }
  }

  // No report comes more than 600 s after the one before, and the first covers no more either.
  ghost predicate Regular(h: seq<Report>)
  {
    h != [] ==>
      && Last(h).now - (if |h| == 1 then Last(h).now - Last(h).deltat else h[|h| - 2].now) <= 600
      && Regular(h[..|h| - 1])
  }

  lemma {:induction false} NewestIsFresh(h: seq<Report>)
    requires h != [] && Regular(h)
    ensures Last(h).now - Last(Windows(h)).start <= 600
  {
    hide Windows;
    var init, rep := h[..|h| - 1], Last(h);
    assert h == init + [rep];
    OpensWhenDue(init, rep);
    WindowsPartition(h);
    if init != [] {
      NewestIsFresh(init);
      assert Last(init) == h[|h| - 2];
    }
  }

  /** Of a client that reports regularly nothing counts that is older than 40 minutes. */
  lemma LooksBack(h: seq<Report>)
    requires h != [] && Regular(h)
    ensures |Kept(Windows(h))| <= 4 && Last(h).now - Kept(Windows(h))[0].start <= 4 * 600
  {
    hide Windows;
    var ws := Windows(h);
    NewestIsFresh(h);
    WindowsPartition(h);
    var n := |ws| - |Kept(ws)|;
    assert Kept(ws)[0] == ws[n];
    if n + 1 < |ws| {
      assert ws[n + 1].start == ws[n].start + 600;
    }
    if n + 2 < |ws| {
      assert ws[n + 2].start == ws[n + 1].start + 600;
    }
    if n + 3 < |ws| {
      assert ws[n + 3].start == ws[n + 2].start + 600;
    }
  }

  // ----- a steady client

  // Each report is at most `r` per second since the one before; the first covers its `deltat`.
  ghost predicate Steady(h: seq<Report>, r: Stats)
  {
    h != [] ==>
      var last := Last(h);
      var from := if |h| == 1 then last.now - last.deltat else h[|h| - 2].now;
      Steady(h[..|h| - 1], r) && from <= last.now && AtMost(last.stats, Times(r, last.now - from))
  }

  // From every window on, the reports add up to at most `r` per second since it opened.
  ghost predicate Bounded(ws: seq<Window>, r: Stats, last: int) {
    && ws != [] && Last(ws).start <= last
    && forall j :: 0 <= j < |ws| ==> AtMost(Total(Flatten(ws[j..])), Times(r, last - ws[j].start))
  }

  lemma PlusNone(x: Stats)
    ensures Plus(x, ZERO) == x
  {
  }

  lemma PlusThree(x: Stats, y: Stats, z: Stats)
    ensures Plus(Plus(x, y), z) == Plus(x, Plus(y, z))
  {
  }

  lemma {:induction false} TotalAppend(x: seq<Report>, y: seq<Report>)
    ensures Total(x + y) == Plus(Total(x), Total(y))
  {
    hide Plus;
    if y == [] {
      assert x + y == x;
      PlusNone(Total(x));
    } else {
      var init := y[..|y| - 1];
      assert (x + y)[..|x + y| - 1] == x + init;
      TotalAppend(x, init);
      PlusThree(Total(x), Total(init), y[|y| - 1].stats);
    }
  }

  lemma TimesPlus(r: Stats, s: int, t: int)
    ensures Plus(Times(r, s), Times(r, t)) == Times(r, s + t)
  {
  }

  lemma TimesMonotone(r: Stats, s: int, t: int)
    requires AtMost(ZERO, r) && s <= t
    ensures AtMost(Times(r, s), Times(r, t))
  {
    assert (t - s) as real >= 0.0;
    NonNegative(r, t - s);
    TimesPlus(r, s, t - s);
  }

  lemma NonNegative(r: Stats, t: int)
    requires AtMost(ZERO, r) && t >= 0
    ensures AtMost(ZERO, Times(r, t))
  {
  }

  lemma TotalOne(rep: Report)
    ensures Total([rep]) == rep.stats
  {
    assert [rep][..0] == [];
  }

  lemma Grow(x: Stats, more: Stats, a: Stats, b: Stats)
    requires AtMost(x, a) && AtMost(more, b)
    ensures AtMost(Plus(x, more), Plus(a, b))
  {
  }

  // Adding one report and no window.
  lemma FillBounded(ws: seq<Window>, r: Stats, last: int, rep: Report)
    requires Bounded(ws, r, last) && last <= rep.now
    requires AtMost(rep.stats, Times(r, rep.now - last))
    ensures Bounded(ws[|ws| - 1 := Window(Last(ws).start, Last(ws).reports + [rep])], r, rep.now)
  {
    hide Times, Plus, AtMost, Total;
    var filled := ws[|ws| - 1 := Window(Last(ws).start, Last(ws).reports + [rep])];
    forall j | 0 <= j < |filled|
      ensures AtMost(Total(Flatten(filled[j..])), Times(r, rep.now - filled[j].start))
    {
      var x, y := ws[j..], filled[j..];
      assert x[..|x| - 1] == y[..|y| - 1];
      assert Flatten(y) == Flatten(x) + [rep];
      TotalAppend(Flatten(x), [rep]);
      TotalOne(rep);
      Grow(Total(Flatten(x)), rep.stats, Times(r, last - ws[j].start), Times(r, rep.now - last));
      TimesPlus(r, last - ws[j].start, rep.now - last);
    }
  }

  lemma RollBounded(ws: seq<Window>, r: Stats, last: int)
    requires Bounded(ws, r, last) && AtMost(ZERO, r) && Last(ws).start + SPAN < last
    ensures Bounded(ws + [Window(Last(ws).start + SPAN, [])], r, last)
  {
    hide Times, AtMost, Flatten;
    var next := Window(Last(ws).start + SPAN, []);
    forall j | 0 <= j < |ws + [next]|
      ensures AtMost(Total(Flatten((ws + [next])[j..])), Times(r, last - (ws + [next])[j].start))
    {
      if j < |ws| {
        assert (ws + [next])[j..] == ws[j..] + [next];
        FlattenSnoc(ws[j..], next);
        assert Flatten(ws[j..]) + [] == Flatten(ws[j..]);
      } else {
        assert (ws + [next])[j..] == [] + [next];
        NoneFlat();
        FlattenSnoc([], next);
        NonNegative(r, last - next.start);
        assert Total([]) == ZERO;
      }
    }
  }

  lemma AddBounded(ws: seq<Window>, r: Stats, last: int, rep: Report)
    requires if ws == [] then last == rep.now - rep.deltat else Bounded(ws, r, last)
    requires last <= rep.now && AtMost(rep.stats, Times(r, rep.now - last)) && AtMost(ZERO, r)
    ensures Bounded(AddReport(ws, rep), r, rep.now)
  {
    hide Times, AtMost, Bounded;
    var base := if ws == [] then [Window(rep.now - rep.deltat, [])] else ws;
    if ws == [] {
      FreshWindow(base[0], r);
    }
    FillBounded(base, r, last, rep);
    var filled := base[|base| - 1 := Window(Last(base).start, Last(base).reports + [rep])];
    if Last(filled).start + SPAN < rep.now {
      RollBounded(filled, r, rep.now);
    }
  }

  lemma {:induction false} SteadyBounded(h: seq<Report>, r: Stats)
    requires h != [] && Steady(h, r) && AtMost(ZERO, r)
    ensures Bounded(Windows(h), r, Last(h).now)
  {
    hide Times, AtMost, AddReport, Bounded;
    var init, rep := h[..|h| - 1], Last(h);
    if init != [] {
      SteadyBounded(init, r);
      assert Last(init) == h[|h| - 2];
    } else {
      NoWindows();
    }
    AddBounded(Windows(init), r, if init == [] then rep.now - rep.deltat else Last(init).now, rep);
  }

  lemma FreshWindow(w: Window, r: Stats)
    requires w.reports == []
    ensures Bounded([w], r, w.start)
  {
    assert [w][0..] == [w] && [w][..0] == [];
  }

  lemma FloorBelow(x: real, r: real)
    requires x <= r
    ensures Floor2(x) <= r
    ensures x - 0.01 < Floor2(x) <= x
  {
  }

  lemma Quotient(x: real, r: real, t: real)
    requires t > 0.0 && x <= r * t
    ensures x / t <= r
  {
  }

  lemma DivideAtMost(sum: Stats, r: Stats, times: int)
    requires times > 0 && AtMost(sum, Times(r, times))
    ensures AtMost(Divide(sum, times), r)
  {
    hide Floor2;
    var t := times as real;
    Quotient(sum.connections, r.connections, t);
    Quotient(sum.input, r.input, t);
    Quotient(sum.output, r.output, t);
    Quotient(sum.subscriptions, r.subscriptions, t);
    FloorBelow(sum.connections / t, r.connections);
    FloorBelow(sum.input / t, r.input);
    FloorBelow(sum.output / t, r.output);
    FloorBelow(sum.subscriptions / t, r.subscriptions);
  }

  lemma TimesNothing(sum: Stats, r: Stats)
    requires AtMost(sum, Times(r, 0)) && AtMost(ZERO, r)
    ensures AtMost(sum, r)
  {
  }

  lemma Through(x: Stats, y: Stats, z: Stats)
    requires AtMost(x, y) && AtMost(y, z)
    ensures AtMost(x, z)
  {
  }

  /**
   * Billing never overstates a steady client: at any time from the last report on, through
   * every roll to a new bucket and every bucket dropped, each rate is at most the client's own.
   */
  lemma SteadyClientIsNotOverstated(h: seq<Report>, r: Stats, now: int)
    requires Steady(h, r) && AtMost(ZERO, r) && (h != [] ==> Last(h).now <= now)
    ensures AtMost(Rate(Windows(h), now), r)
  {
    hide Windows, Flatten, Floor2, Divide, Times, AtMost, Total, Steady;
    if h != [] {
      var ws := Windows(h);
      SteadyBounded(h, r);
      var j := |ws| - |Kept(ws)|;
      StartsBefore(h, j);
      assert Kept(ws) == ws[j..];
      var sum, times := Total(Flatten(Kept(ws))), now - Kept(ws)[0].start;
      TimesMonotone(r, Last(h).now - ws[j].start, times);
      Through(sum, Times(r, Last(h).now - ws[j].start), Times(r, times));
      if times == 0 {
        TimesNothing(sum, r);
      } else {
        DivideAtMost(sum, r, times);
      }
    } else {
      assert Windows([]) == [] by { NoWindows(); }
    }
  }

  lemma NoWindows()
    ensures Windows([]) == []
  {
  }

  lemma {:induction false} StartsBefore(h: seq<Report>, j: nat)
    requires h != [] && j < |Windows(h)|
    ensures Windows(h)[j].start <= Last(Windows(h)).start
    decreases |Windows(h)| - j
  {
    WindowsPartition(h);
    if j + 1 < |Windows(h)| {
      StartsBefore(h, j + 1);
    }
  }

  /** Each of the four resources is counted, and at the moment the oldest window opened it is the plain count. */
  lemma AddsUp(h: seq<Report>, r: Report, now: int)
    ensures Total([]) == Stats(0.0, 0.0, 0.0, 0.0)
    ensures Total(h + [r]).connections == Total(h).connections + r.stats.connections
    ensures Total(h + [r]).input == Total(h).input + r.stats.input
    ensures Total(h + [r]).output == Total(h).output + r.stats.output
    ensures Total(h + [r]).subscriptions == Total(h).subscriptions + r.stats.subscriptions
    ensures h != [] && now == Kept(Windows(h))[0].start ==> Rate(Windows(h), now) == Total(Flatten(Kept(Windows(h))))
  {
    assert (h + [r])[..|h|] == h;
  }

  /** A rate is a whole number of hundredths. */
  lemma WholeHundredths(x: real)
    ensures (Floor2(x) * 100.0).Floor as real == Floor2(x) * 100.0
  {
  }

  /** Each rate is the reports of the kept windows over the time since the oldest opened, less under 0.01. */
  lemma RateIsTight(h: seq<Report>, now: int)
    requires h != [] && now != Kept(Windows(h))[0].start
    ensures var sum := Total(Flatten(Kept(Windows(h))));
            var t := (now - Kept(Windows(h))[0].start) as real;
            var rate := Rate(Windows(h), now);
            && sum.connections / t - 0.01 < rate.connections <= sum.connections / t
            && sum.input / t - 0.01 < rate.input <= sum.input / t
            && sum.output / t - 0.01 < rate.output <= sum.output / t
            && sum.subscriptions / t - 0.01 < rate.subscriptions <= sum.subscriptions / t
  {
    hide Windows, Flatten, Floor2;
    var sum := Total(Flatten(Kept(Windows(h))));
    var t := (now - Kept(Windows(h))[0].start) as real;
    FloorBelow(sum.connections / t, sum.connections / t);
    FloorBelow(sum.input / t, sum.input / t);
    FloorBelow(sum.output / t, sum.output / t);
    FloorBelow(sum.subscriptions / t, sum.subscriptions / t);
  }
}
