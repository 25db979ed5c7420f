// How many aides and gurus the cluster wants (iot/executive.go:337-445), and what Operate does
// to the lists. Floats are reals.
module Autoscaler {
  datatype ExecutiveStats = ExecutiveStats(name: string, subscriptions: real, buffers: real, connections: real)

  datatype ExpansionDesired = ExpansionDesired(changeAides: int, removeAide: string, changeGurus: int)

  function Max(x: real, y: real): real {
    if x < y then y else x
  }

  function Buffers(xs: seq<ExecutiveStats>): real
  {
    if xs == [] then 0.0 else Buffers(xs[..|xs| - 1]) + xs[|xs| - 1].buffers
  }

  function Connections(xs: seq<ExecutiveStats>): real
  {
    if xs == [] then 0.0 else Connections(xs[..|xs| - 1]) + xs[|xs| - 1].connections
  }

  function Subscriptions(xs: seq<ExecutiveStats>): real
  {
    if xs == [] then 0.0 else Subscriptions(xs[..|xs| - 1]) + xs[|xs| - 1].subscriptions
  }

  // The whole load of a tier, in units of one full node: its worst resource. Aides are not
  // scaled on subscriptions, gurus not on connections.
  function AideLoad(xs: seq<ExecutiveStats>): real {
    Max(Max(0.0, Buffers(xs)), Connections(xs))
  }

  function GuruLoad(xs: seq<ExecutiveStats>): real {
    Max(Subscriptions(xs), Buffers(xs))
  }

  /** The decision for `n` nodes that share `load`: +1 to grow, -1 to shrink, 0 to stay. */
  function Decide(load: real, n: nat): int {
    if n == 0 then 0
    else if load / n as real >= 0.9 then 1
    else if n > 1 && load / (n - 1) as real < 0.8 then -1
    else 0
  }

  lemma MaxQuotient(x: real, y: real, n: real)
    requires n > 0.0
    ensures Max(x / n, y / n) == Max(x, y) / n
  {
    if x < y {
      Ordered(x, y, n);
    } else {
      Ordered(y, x, n);
    }
  }

  lemma Ordered(x: real, y: real, n: real)
    requires n > 0.0 && x <= y
    ensures x / n <= y / n
    ensures x < y ==> x / n < y / n
  {
    assert (y - x) / n >= 0.0;
    assert y / n - x / n == (y - x) / n;
    if x < y {
      assert (y - x) / n > 0.0;
    }
  }

  lemma Respread(average: real, load: real, n: real)
    requires n > 0.0 && average == load / n
    ensures average * n == load
  {
  }

  /**
   * CalcExpansionDesired. An empty tier divides by zero, and no comparison with the NaN that
   * gives is true, so it is left alone.
   */
  method CalcExpansionDesired(aides: seq<ExecutiveStats>, gurus: seq<ExecutiveStats>) returns (result: ExpansionDesired)
    ensures result.changeAides == Decide(AideLoad(aides), |aides|)
    ensures result.changeGurus == Decide(GuruLoad(gurus), |gurus|)
    ensures var n, buffers, connections := |aides| as real, Buffers(aides), Connections(aides);
            && (result.changeAides == 1 <==> n > 0.0 && (buffers >= 0.9 * n || connections >= 0.9 * n))
            && (result.changeAides == -1 <==> n > 1.0 && buffers < 0.8 * (n - 1.0) && connections < 0.8 * (n - 1.0))
            && -1 <= result.changeAides <= 1
    ensures var n, buffers, subscriptions := |gurus| as real, Buffers(gurus), Subscriptions(gurus);
            && (result.changeGurus == 1 <==> n > 0.0 && (buffers >= 0.9 * n || subscriptions >= 0.9 * n))
            && (result.changeGurus == -1 <==> n > 1.0 && buffers < 0.8 * (n - 1.0) && subscriptions < 0.8 * (n - 1.0))
            && -1 <= result.changeGurus <= 1
    ensures result.changeAides == -1 ==> exists i ::
              && 0 <= i < |aides| && result.removeAide == aides[i].name
              && forall j :: 0 <= j < |aides| ==> aides[j].subscriptions <= Max(0.0, aides[i].subscriptions)
  {
    result := ExpansionDesired(0, "", 0);
    var buffersFraction, contactsTotal := 0.0, 0.0;
    for i := 0 to |aides|
      invariant buffersFraction == Buffers(aides[..i]) && contactsTotal == Connections(aides[..i])
    {
      assert aides[..i + 1][..i] == aides[..i];
      buffersFraction := buffersFraction + aides[i].buffers;
      contactsTotal := contactsTotal + aides[i].connections;
    }
    assert aides[..|aides|] == aides;
    var change := DecideAverages(0.0, buffersFraction, contactsTotal, |aides|);
    result := result.(changeAides := change);
    if change == -1 {
      var busiest := Busiest(aides);
      result := result.(removeAide := aides[busiest].name);
    }

    var subsTotal := 0.0;
    buffersFraction := 0.0;
    for i := 0 to |gurus|
      invariant buffersFraction == Buffers(gurus[..i]) && subsTotal == Subscriptions(gurus[..i])
    {
      assert gurus[..i + 1][..i] == gurus[..i];
      subsTotal := subsTotal + gurus[i].subscriptions;
      buffersFraction := buffersFraction + gurus[i].buffers;
    }
    assert gurus[..|gurus|] == gurus;
    change := DecideAverages(subsTotal, buffersFraction, subsTotal, |gurus|);
    result := result.(changeGurus := change);
    DecideMeans(AideLoad(aides), |aides|);
    DecideMeans(GuruLoad(gurus), |gurus|);
  }

  /** The thresholds, on the whole load. */
  lemma DecideMeans(load: real, n: nat)
    ensures Decide(load, n) == 1 <==> n > 0 && load >= 0.9 * n as real
    ensures Decide(load, n) == -1 <==> n > 1 && load < 0.8 * (n as real - 1.0)
    ensures -1 <= Decide(load, n) <= 1
  {
    if n > 0 {
      AboveAverage(load, n as real, 0.9);
      if n > 1 {
        AboveAverage(load, (n - 1) as real, 0.8);
      }
    }
  }

  lemma AboveAverage(load: real, n: real, limit: real)
    requires n > 0.0
    ensures load / n >= limit <==> load >= limit * n
  {
    var q := load / n;
    assert q * n == load;
    assert (q - limit) * n == load - limit * n;
  }

  /** So a tier whose every node is 90% full on one resource that counts for it grows. */
  lemma {:induction false} FullNodes(xs: seq<ExecutiveStats>)
    ensures (forall x :: x in xs ==> x.buffers >= 0.9) ==> Buffers(xs) >= 0.9 * |xs| as real
    ensures (forall x :: x in xs ==> x.connections >= 0.9) ==> Connections(xs) >= 0.9 * |xs| as real
    ensures (forall x :: x in xs ==> x.subscriptions >= 0.9) ==> Subscriptions(xs) >= 0.9 * |xs| as real
  {
    if xs != [] {
      assert xs[|xs| - 1] in xs && forall x :: x in xs[..|xs| - 1] ==> x in xs;
      FullNodes(xs[..|xs| - 1]);
    }
  }

  lemma OneMore(xs: seq<ExecutiveStats>, x: ExecutiveStats)
    ensures Buffers(xs + [x]) == Buffers(xs) + x.buffers && Buffers([]) == 0.0
    ensures Connections(xs + [x]) == Connections(xs) + x.connections && Connections([]) == 0.0
    ensures Subscriptions(xs + [x]) == Subscriptions(xs) + x.subscriptions && Subscriptions([]) == 0.0
  {
    assert (xs + [x])[..|xs|] == xs;
  }

  /** Each total adds up its own resource, and no other. */
  lemma {:induction false} Totals(xs: seq<ExecutiveStats>, ys: seq<ExecutiveStats>)
    requires |xs| == |ys|
    ensures (forall i :: 0 <= i < |xs| ==> xs[i].buffers == ys[i].buffers) ==> Buffers(xs) == Buffers(ys)
    ensures (forall i :: 0 <= i < |xs| ==> xs[i].connections == ys[i].connections) ==>
              Connections(xs) == Connections(ys)
    ensures (forall i :: 0 <= i < |xs| ==> xs[i].subscriptions == ys[i].subscriptions) ==>
              Subscriptions(xs) == Subscriptions(ys)
  {
    if xs != [] {
      Totals(xs[..|xs| - 1], ys[..|ys| - 1]);
    }
  }

  /** The comparison of the averages of three totals with the two thresholds. */
  method DecideAverages(x: real, y: real, z: real, n: nat) returns (change: int)
    ensures change == Decide(Max(Max(x, y), z), n)
  {
    change := 0;
    if n == 0 {
      return;
    }
    var count := n as real;
    MaxQuotient(x, y, count);
    MaxQuotient(Max(x, y), z, count);
    var max := x / count;
    if max < y / count {
      max := y / count;
    }
    if max < z / count {
      max := z / count;
    }
    assert max == Max(Max(x, y), z) / count;
    change := Compare(max, Max(Max(x, y), z), n);
  }

  method Compare(max: real, ghost load: real, n: nat) returns (change: int)
    requires n > 0 && max == load / n as real
    ensures change == Decide(load, n)
  {
    change := 0;
    if max >= 0.9 {
      change := 1;
    } else if n > 1 {
      var tmp := max * n as real;
      Respread(max, load, n as real);
      assert tmp == load;
      tmp := tmp / (n - 1) as real;
      assert tmp == load / (n - 1) as real;
      if tmp < 0.80 {
        change := -1;
      }
      assert change == Decide(load, n);
    }
  }

  method Busiest(aides: seq<ExecutiveStats>) returns (index: nat)
    requires aides != []
    ensures index < |aides|
    ensures forall j :: 0 <= j < |aides| ==> aides[j].subscriptions <= Max(0.0, aides[index].subscriptions)
  {
    index := 0;
    var max := 0.0;
    for i := 0 to |aides|
      invariant index < |aides| && 0.0 <= max <= Max(0.0, aides[index].subscriptions)
      invariant forall j :: 0 <= j < i ==> aides[j].subscriptions <= max
    {
      if aides[i].subscriptions > max {
        max := aides[i].subscriptions;
        index := i;
      }
    }
  }

  // ----- hysteresis

  /**
   * With the load unchanged a grow is never followed at once by a shrink, nor a shrink by a
   * grow; stated on what the nodes report, for both tiers.
   */
  lemma NoFlapping(before: seq<ExecutiveStats>, after: seq<ExecutiveStats>)
    ensures var change := Decide(AideLoad(before), |before|);
            AideLoad(after) == AideLoad(before) && |after| == |before| + change && change != 0 ==>
              Decide(AideLoad(after), |after|) != -change
    ensures var change := Decide(GuruLoad(before), |before|);
            GuruLoad(after) == GuruLoad(before) && |after| == |before| + change && change != 0 ==>
              Decide(GuruLoad(after), |after|) != -change
  {
    hide AideLoad, GuruLoad;
  }

  // The sizes a tier goes through under a constant load, until it stays.
  function Path(load: real, n: nat): (sizes: seq<nat>)
    requires n > 0
    ensures sizes != [] && sizes[0] == n
    decreases Ahead(load, n)
  {
    var change := Decide(load, n);
    MovesOn(load, n);
    if change == 0 then [n] else [n] + Path(load, n + change)
  }

  // An upper bound on the moves that are left.
  function Ahead(load: real, n: nat): nat
    requires n > 0
  {
    match Decide(load, n)
    case 1 => Growing(load, n); (load / 0.9).Floor - n + 1
    case 0 => 0
    case _ => n
  }

  lemma Growing(load: real, n: nat)
    requires n > 0 && load / n as real >= 0.9
    ensures n <= (load / 0.9).Floor
  {
    var q := load / n as real;
    assert q * n as real == load;
    assert (q - 0.9) * n as real >= 0.0;
    assert q * n as real - 0.9 * n as real == (q - 0.9) * n as real;
    assert load >= 0.9 * n as real;
    assert load / 0.9 >= n as real;
  }

  lemma MovesOn(load: real, n: nat)
    requires n > 0
    ensures var change := Decide(load, n);
            change != 0 ==> n + change > 0 && Ahead(load, n + change) < Ahead(load, n)
  {
    if Decide(load, n) == 1 {
      Growing(load, n);
      if Decide(load, n + 1) == 1 {
        Growing(load, n + 1);
      }
    }
  }

  /**
   * Under a constant load repeated decisions move one way only and stop: with the average below
   * 0.9, and either one node left or an average over one fewer of at least 0.8.
   */
  lemma {:induction false} Settles(load: real, n: nat)
    requires n > 0
    ensures var sizes := Path(load, n);
            var last := sizes[|sizes| - 1];
            && last > 0 && load / last as real < 0.9
            && (last == 1 || load / (last - 1) as real >= 0.8)
    ensures var sizes := Path(load, n);
            || (forall i :: 0 < i < |sizes| ==> sizes[i] == sizes[i - 1] + 1)
            || (forall i :: 0 < i < |sizes| ==> sizes[i] + 1 == sizes[i - 1])
    decreases Ahead(load, n)
  {
    var change := Decide(load, n);
    if change != 0 {
      MovesOn(load, n);
      var rest := Path(load, n + change);
      Settles(load, n + change);
      var sizes := Path(load, n);
      assert sizes == [n] + rest;
      forall i | 0 < i < |sizes| ensures sizes[i] == sizes[i - 1] + change {
        OneWay(load, n, i);
      }
    }
  }

  // Every move on the path is the first one again.
  lemma {:induction false} OneWay(load: real, n: nat, i: nat)
    requires n > 0 && 0 < i < |Path(load, n)|
    ensures Path(load, n)[i] == Path(load, n)[i - 1] + Decide(load, n)
    decreases i
  {
    var change := Decide(load, n);
    MovesOn(load, n);
    var rest := Path(load, n + change);
    assert Path(load, n) == [n] + rest;
    if i > 1 {
      OneWay(load, n + change, i - 1);
      assert Decide(load, n + change) == change;
    }
  }

  // ----- what Operate does to the list of aides

  /**
   * Shrink: the aide with the given name (the first one if there is none) is overwritten by the
   * last one and the list cut.
   */
  method RemoveAide(aides: seq<string>, remove: string) returns (rest: seq<string>)
    requires aides != []
    ensures |rest| == |aides| - 1
    ensures multiset(rest) == multiset(aides) - multiset{if remove in aides then remove else aides[0]}
  {
    var index := 0;
    for i := 0 to |aides|
      invariant index < |aides|
      invariant if remove in aides[..i] then aides[index] == remove else index == 0
    {
      assert aides[..i + 1] == aides[..i] + [aides[i]];
      if aides[i] == remove {
        index := i;
      }
    }
    assert aides[..|aides|] == aides;
    var last := |aides| - 1;
    rest := aides[index := aides[last]][..last];
    SwapOut(aides, index);
  }

  lemma SwapOut(aides: seq<string>, index: nat)
    requires index < |aides|
    ensures var last := |aides| - 1;
            multiset(aides[index := aides[last]][..last]) == multiset(aides) - multiset{aides[index]}
  {
    var last := |aides| - 1;
    if index == last {
      DropLast(aides);
    } else {
      Parts(aides, index);
      Swapped(aides[..index], aides[index], aides[index + 1..last], aides[last]);
    }
  }

  lemma DropLast(aides: seq<string>)
    requires aides != []
    ensures var last := |aides| - 1;
            multiset(aides[last := aides[last]][..last]) == multiset(aides) - multiset{aides[last]}
  {
    var last := |aides| - 1;
    assert aides[last := aides[last]] == aides;
    assert aides == aides[..last] + [aides[last]];
  }

  lemma Parts(aides: seq<string>, index: nat)
    requires index < |aides| - 1
    ensures var last := |aides| - 1;
            && aides == aides[..index] + [aides[index]] + aides[index + 1..last] + [aides[last]]
            && aides[index := aides[last]][..last] == aides[..index] + [aides[last]] + aides[index + 1..last]
  {
  }

  lemma Swapped(front: seq<string>, x: string, back: seq<string>, y: string)
    ensures multiset(front + [y] + back) == multiset(front + [x] + back + [y]) - multiset{x}
  {
    assert multiset(front + [y] + back) == multiset(front) + multiset{y} + multiset(back);
    assert multiset(front + [x] + back + [y]) == multiset(front) + multiset{x} + multiset(back) + multiset{y};
  }
}
