/**
 * The bin lookup of the recoil corrector: njet and qt bins are intervals
 * `[lo, hi)`; a value below every bin has none, a value at or above the largest
 * edge is moved into the last unit below it, and the first containing interval wins.
 */
module Recoil {
  import opened Wrappers
  import opened Helpers

  /** A bin `(iv[0], iv[1])` */
  datatype Interval = Interval(lo: real, hi: real)

  function Min(a: real, b: real): real { if a <= b then a else b }
  function Max(a: real, b: real): real { if a >= b then a else b }

  /** `min(map(min, bins))` */
  function MinEdge(bins: seq<Interval>): (m: real)
    requires bins != []
    ensures forall i :: 0 <= i < |bins| ==> m <= bins[i].lo && m <= bins[i].hi
    ensures exists i :: 0 <= i < |bins| && (m == bins[i].lo || m == bins[i].hi)
  {
    var here := Min(bins[0].lo, bins[0].hi);
    if |bins| == 1 then here
    else
      assert forall i :: 1 <= i < |bins| ==> bins[i] == bins[1..][i - 1];
      Min(here, MinEdge(bins[1..]))
  }

  /** `max(map(max, bins))` */
  function MaxEdge(bins: seq<Interval>): (m: real)
    requires bins != []
    ensures forall i :: 0 <= i < |bins| ==> bins[i].lo <= m && bins[i].hi <= m
    ensures exists i :: 0 <= i < |bins| && (m == bins[i].lo || m == bins[i].hi)
  {
    var here := Max(bins[0].lo, bins[0].hi);
    if |bins| == 1 then here
    else
      assert forall i :: 1 <= i < |bins| ==> bins[i] == bins[1..][i - 1];
      Max(here, MaxEdge(bins[1..]))
  }

  predicate Contains(x: real, iv: Interval) { iv.lo <= x < iv.hi }

  /** The value the search uses: one below the largest edge when `x` reaches it. */
  function Clamp(x: real, maxEdge: real): (c: real)
    ensures c < maxEdge
    ensures x < maxEdge ==> c == x
  {
    if x >= maxEdge then maxEdge - 1.0 else x
  }

  /** `njet_bin` and `qt_bin`, on the bins in their dictionary order. */
  function BinOf(bins: seq<Interval>, x: real): (r: Option<Interval>)
    requires bins != []
    ensures x < MinEdge(bins) ==> r.None?
    ensures r.Some? ==> r.value in bins && Contains(Clamp(x, MaxEdge(bins)), r.value)
    ensures x >= MinEdge(bins) ==>
      (r.None? <==> forall i :: 0 <= i < |bins| ==> !Contains(Clamp(x, MaxEdge(bins)), bins[i]))
  {
    if x < MinEdge(bins) then None
    else
      FirstContaining(bins, Clamp(x, MaxEdge(bins)))
  }

  /** The loop over the bins: the first one containing `c`. */
  function FirstContaining(bins: seq<Interval>, c: real): (r: Option<Interval>)
    ensures r.None? <==> forall i :: 0 <= i < |bins| ==> !Contains(c, bins[i])
    ensures r.Some? ==> r.value in bins && Contains(c, r.value)
  {
    FirstWhere(bins, iv => Contains(c, iv))
  }

  /** The first bin containing the value is taken: earlier overlapping bins win. */
  lemma BinOfFirst(bins: seq<Interval>, x: real, i: nat)
    requires bins != [] && x >= MinEdge(bins) && i < |bins|
    requires Contains(Clamp(x, MaxEdge(bins)), bins[i])
    requires forall j :: 0 <= j < i ==> !Contains(Clamp(x, MaxEdge(bins)), bins[j])
    ensures BinOf(bins, x) == Some(bins[i])
  {
    var c := Clamp(x, MaxEdge(bins));
    FirstWhereAt(bins, iv => Contains(c, iv), i);
    assert FirstContaining(bins, c) == Some(bins[i]);
  }

  /** Every value at or above the largest edge falls into the same bin. */
  lemma BinOfAboveMax(bins: seq<Interval>, x: real, y: real)
    requires bins != [] && x >= MaxEdge(bins) && y >= MaxEdge(bins)
    ensures BinOf(bins, x) == BinOf(bins, y)
  {
  }

  /**
   * `predict_para` / `predict_perp`: the matcher of the (njet, qt) bin predicts
   * `u`, and nothing is predicted unless both bins are found.
   */
  function Predict(njetBins: seq<Interval>, qtBins: seq<Interval>, njet: real, qt: real, u: real,
                   matcher: (Interval, Interval, real) -> real): (r: Option<real>)
    requires njetBins != [] && qtBins != []
    ensures r.Some? <==> BinOf(njetBins, njet).Some? && BinOf(qtBins, qt).Some?
    ensures r.Some? ==> r.value == matcher(BinOf(njetBins, njet).value, BinOf(qtBins, qt).value, u)
  {
    var njetBin := BinOf(njetBins, njet);
    var qtBin := BinOf(qtBins, qt);
    if njetBin.Some? && qtBin.Some? then Some(matcher(njetBin.value, qtBin.value, u)) else None
  }
}
