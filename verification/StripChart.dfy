/** The strip chart (MonitorElement::ShiftFillLast): a histogram that shows the
    latest values and, in its first bin, the mean of all older ones. */
module StripCharts {
  function Sum(vs: seq<real>): real {
    if vs == [] then 0.0 else Sum(vs[..|vs| - 1]) + vs[|vs| - 1]
  }

  /** The mean of older values, whose mean is y1, and y2. */
  function Mean(older: real, y1: real, y2: real): real
    requires older > 0.0
  {
    (older * y1 + y2) / (older + 1.0)
  }

  /** Bin j of a full chart after averaging and shifting. */
  function ShiftedBin(bins: seq<real>, entries: nat, j: nat): real
    requires |bins| >= 3 && entries >= |bins| - 2 && j < |bins|
  {
    var n := |bins| - 2;
    if 2 <= j < n then bins[j + 1]
    else if j == 1 then Mean((entries - n) as real + 1.0, bins[1], bins[2])
    else bins[j]
  }

  /** The chart's bins after one more value; entries is the number before it.
      Bin i of the histogram is bins[i], bins[0] and bins[n + 1] are its
      underflow and overflow, n being the number of bins. */
  function Shifted(bins: seq<real>, entries: nat, y: real): (r: seq<real>)
    requires |bins| >= 3
    ensures |r| == |bins|
  {
    var n := |bins| - 2;
    if entries < n then bins[entries + 1 := y]
    else seq(n + 2, j requires 0 <= j < n + 2 => ShiftedBin(bins, entries, j))[n := y]
  }

  /** The bins after the values vs. */
  function Filled(n: nat, vs: seq<real>): (r: seq<real>)
    requires n >= 1
    ensures |r| == n + 2
  {
    if vs == [] then seq(n + 2, i => 0.0)
    else Shifted(Filled(n, vs[..|vs| - 1]), |vs| - 1, vs[|vs| - 1])
  }

  /** The bins show vs: the values themselves while they fit, later the exact
      mean of the oldest ones in bin 1 and the latest ones, in order, in the
      other bins. Nothing is in the underflow and in the overflow. */
  ghost predicate Shows(bins: seq<real>, vs: seq<real>)
    requires |bins| >= 4
  {
    var n, k := |bins| - 2, |vs|;
    bins[0] == bins[n + 1] == 0.0 &&
    if k < n then
      && (forall i | 1 <= i <= k :: bins[i] == vs[i - 1])
      && (forall i | k < i <= n :: bins[i] == 0.0)
    else
      && bins[1] * ((k - n + 1) as real) == Sum(vs[..k - n + 1])
      && (forall i | 2 <= i <= n :: bins[i] == vs[k - n + i - 1])
  }

  lemma MeanStep(mean: real, older: real, sum: real, y: real)
    requires older > 0.0 && mean * older == sum
    ensures (older * mean + y) / (older + 1.0) * (older + 1.0) == sum + y
  {
  }

  lemma ShiftShows(bins: seq<real>, vs: seq<real>, y: real)
    requires |bins| >= 4 && Shows(bins, vs)
    ensures Shows(Shifted(bins, |vs|, y), vs + [y])
  {
    var n, k := |bins| - 2, |vs|;
    var r, ws := Shifted(bins, k, y), vs + [y];
    if k >= n {
      var m := k - n + 1;
      MeanStep(bins[1], m as real, Sum(vs[..m]), bins[2]);
      assert ws[..m + 1][..m] == vs[..m];
      assert r[1] * ((m + 1) as real) == Sum(ws[..m + 1]);
    } else if k == n - 1 {
      assert ws[..1][..0] == [];
      assert Sum(ws[..1]) == ws[0];
    }
  }

  /** After any values, on a chart of at least two bins. */
  lemma {:induction false} FilledShows(n: nat, vs: seq<real>)
    requires n >= 2
    ensures Shows(Filled(n, vs), vs)
  {
    if vs != [] {
      var init, y := vs[..|vs| - 1], vs[|vs| - 1];
      FilledShows(n, init);
      hide Shows, Shifted;
      ShiftShows(Filled(n, init), init, y);
      assert init + [y] == vs;
    }
  }

  /** A chart of one bin shows the latest value and no mean. */
  lemma {:induction false} OneBin(vs: seq<real>)
    requires vs != []
    ensures Filled(1, vs)[1] == vs[|vs| - 1]
  {
  }

  lemma MeanShown(n: nat, vs: seq<real>)
    requires 2 <= n <= |vs|
    ensures IsMean(Filled(n, vs)[1], vs[..|vs| - n + 1])
  {
    FilledShows(n, vs);
    var bins, older := Filled(n, vs), vs[..|vs| - n + 1];
    assert bins[1] * ((|vs| - n + 1) as real) == Sum(older);
    assert |older| == |vs| - n + 1;
    hide Filled, Sum;
  }

  lemma NoMeanShown()
    ensures !IsMean(Filled(1, [0.0, 1.0])[1], [0.0, 1.0])
  {
    var vs := [0.0, 1.0];
    OneBin(vs);
    hide Filled;
    assert vs[..1] == [0.0] && [0.0][..0] == [];
    assert Sum(vs) == 1.0;
  }

  /** So the first bin holds the mean of the older values, whatever they are,
      exactly if the chart has a second bin. */
  lemma MeanIff(n: nat)
    requires n >= 1
    ensures (forall vs: seq<real> | |vs| >= n :: IsMean(Filled(n, vs)[1], vs[..|vs| - n + 1])) <==> n >= 2
  {
    hide Filled, IsMean;
    if n >= 2 {
      forall vs: seq<real> | |vs| >= n
        ensures IsMean(Filled(n, vs)[1], vs[..|vs| - n + 1])
      {
        MeanShown(n, vs);
      }
    } else {
      NoMeanShown();
      assert [0.0, 1.0][..2] == [0.0, 1.0];
    }
  }

  ghost predicate IsMean(m: real, vs: seq<real>) {
    m * (|vs| as real) == Sum(vs)
  }

  /** The first bin's label says that it is an average. */
  datatype Label = Average | Number(n: int)

  /** The fills that the labels of the second and of the last bin name. */
  function LowLabel(n: nat, entries: nat): int {
    if entries >= n then entries - n + 3 else 2
  }

  function HighLabel(n: nat, entries: nat): int {
    if entries >= n then entries + 1 else n
  }

  /** With two bins or more, each labelled bin that has been filled holds the
      value its label counts to. */
  lemma LabelsNameFills(n: nat, vs: seq<real>)
    requires n >= 2 && vs != []
    ensures var low, high := LowLabel(n, |vs| - 1), HighLabel(n, |vs| - 1);
      && low + (n - 2) == high
      && (low <= |vs| ==> Filled(n, vs)[2] == vs[low - 1])
      && (high <= |vs| ==> Filled(n, vs)[n] == vs[high - 1])
  {
    FilledShows(n, vs);
  }

  class StripChart {
    const bins: array<real>
    var entries: nat
    var labels: map<nat, Label>

    ghost predicate Valid() {
      bins.Length >= 3
    }

    constructor (n: nat)
      requires n >= 1
      ensures Valid() && fresh(bins) && bins[..] == Filled(n, []) && entries == 0
    {
      bins := new real[n + 2](i => 0.0);
      entries, labels := 0, map[];
    }

    static method Averaged(older: real, y1: real, y2: real) returns (mean: real)
      requires older > 0.0
      ensures mean == Mean(older, y1, y2)
    {
      var sum := older * y1 + y2;
      mean := sum / (older + 1.0);
    }

    /** The loop that moves the bins from the third on to the left. */
    method ShiftBins()
      requires Valid()
      modifies bins
      ensures forall j | 0 <= j < bins.Length ::
                bins[j] == if 2 <= j < bins.Length - 2 then old(bins[j + 1]) else old(bins[j])
    {
      var n := bins.Length - 2;
      var i := 3;
      while i <= n
        invariant 3 <= i
        invariant forall j | 0 <= j < bins.Length ::
                    bins[j] == if 2 <= j < n && j < i - 1 then old(bins[j + 1]) else old(bins[j])
      {
        bins[i - 1] := bins[i];
        i := i + 1;
      }
    }

    /** The part of ShiftFillLast for a full chart: average into the first bin
        and shift the others. */
    method Shift()
      requires Valid() && entries >= bins.Length - 2
      modifies bins
      ensures forall j | 0 <= j < bins.Length :: bins[j] == ShiftedBin(old(bins[..]), entries, j)
    {
      hide Mean;
      var n := bins.Length - 2;
      bins[1] := Averaged((entries - n) as real + 1.0, bins[1], bins[2]);
      ShiftBins();
    }

    /** ShiftFillLast with error 0, on a one-dimensional histogram. */
    method ShiftFillLast(y: real, xscale: int)
      requires Valid()
      modifies this, bins
      ensures bins[..] == Shifted(old(bins[..]), old(entries), y)
      ensures entries == old(entries) + 1
      ensures var n := bins.Length - 2;
        labels == old(labels)[2 := Number(LowLabel(n, old(entries)) * xscale)]
                             [n := Number(HighLabel(n, old(entries)) * xscale)][1 := Average]
    {
      hide ShiftedBin;
      var n := bins.Length - 2;
      var index, xlow, xup := entries + 1, 2, n;
      if entries >= n {
        index := n;
        xlow, xup := entries - n + 3, entries + 1;
        Shift();
      }
      bins[index] := y;
      entries := entries + 1;
      labels := labels[2 := Number(xlow * xscale)];
      labels := labels[n := Number(xup * xscale)];
      labels := labels[1 := Average];
    }
  }
}
