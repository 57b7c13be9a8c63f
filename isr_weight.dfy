/**
 * The ISR reweighting: a weight per number of ISR jets, the last bin open
 * towards higher multiplicities, shifted by `sigma` systematic uncertainties.
 */
module IsrWeight {
  import opened Wrappers
  import opened PyStr

  const Weights: seq<real> := [1.0, 0.920, 0.821, 0.715, 0.662, 0.561, 0.511]
  const WeightsSyst: seq<real> := [0.0, 0.040, 0.090, 0.143, 0.169, 0.219, 0.244]
  const Norm: real := 1.071
  /** `len(weights) - 1` */
  const NjetMax: nat := |Weights| - 1

  /** `[w + sigma * weights_syst[i] for i, w in enumerate(weights)]` */
  function Shifted(sigma: real): (w: seq<real>)
    ensures |w| == |Weights|
    ensures forall i :: 0 <= i < |Weights| ==> w[i] == Weights[i] + sigma * WeightsSyst[i]
  {
    seq(|Weights|, i requires 0 <= i < |Weights| => Weights[i] + sigma * WeightsSyst[i])
  }

  /**
   * `getWeight(r, sigma)` with `nISR` for `r.nISR`: a multiplicity above the last
   * bin takes the last weight; a negative one indexes from the end of the list,
   * as a Python list does, and raises IndexError beyond its start.
   */
  function GetWeight(nISR: int, sigma: real): (r: Result<real>)
    ensures 0 <= nISR <= NjetMax ==> r == Ok(Norm * (Weights[nISR] + sigma * WeightsSyst[nISR]))
    ensures nISR > NjetMax ==> r == Ok(Norm * (Weights[NjetMax] + sigma * WeightsSyst[NjetMax]))
    ensures r.Raises? <==> nISR < -|Weights|
  {
    var weights := Shifted(sigma);
    if nISR <= NjetMax then
      if nISR >= 0 then Ok(Norm * weights[nISR])
      else if nISR >= -|weights| then Ok(Norm * weights[|weights| + nISR])
      else Raises(IndexError)
    else Ok(Norm * weights[NjetMax])
  }

  /** Without a shift the weight is the nominal one. */
  lemma NominalWeight(nISR: nat)
    ensures GetWeight(nISR, 0.0) == Ok(Norm * Weights[if nISR <= NjetMax then nISR else NjetMax])
  {
  }

  /** Events without ISR jets get the same weight whatever the shift. */
  lemma NoIsrUnshifted(sigma: real, sigma': real)
    ensures GetWeight(0, sigma) == GetWeight(0, sigma') == Ok(Norm)
  {
  }

  /** The comparison of the term for `njet`: `>=` for the last bin, `==` otherwise. */
  function Op(njet: nat): string {
    if njet == NjetMax then ">=" else "=="
  }

  /** What the term's condition `nISR<op><njet>` says of a multiplicity `n`. */
  predicate Selects(njet: nat, n: int) {
    if Op(njet) == ">=" then n >= njet else n == njet
  }

  /** `'{}*(nISR{}{}) + '.format(weight, op, njet)`, with `fmt` for `'{}'.format` of a float. */
  function Term(njet: nat, weight: real, fmt: real -> string): string {
    fmt(weight) + "*(nISR" + Op(njet) + NatToString(njet) + ") + "
  }

  /** The terms of the weight string, one per bin, each with that bin's shifted weight. */
  function Terms(sigma: real, fmt: real -> string): (ts: seq<string>)
    ensures |ts| == |Weights|
    ensures forall njet :: 0 <= njet < |Weights| ==> ts[njet] == Term(njet, Shifted(sigma)[njet], fmt)
  {
    seq(|Weights|, njet requires 0 <= njet < |Weights| => Term(njet, Shifted(sigma)[njet], fmt))
  }

  /**
   * `getWeightString` and `getWeight` agree up to `norm`: for a multiplicity
   * `n >= 0` exactly one term's condition holds, the term of bin
   * `min(n, njet_max)`, and its coefficient is the shifted weight that
   * `getWeight` multiplies by `norm`.  For a negative `n` no term holds, so the
   * string evaluates to 0, while `getWeight` indexes from the end of the list.
   */
  lemma WeightStringAgrees(n: int, sigma: real, fmt: real -> string)
    ensures n >= 0 ==>
      var j := if n <= NjetMax then n else NjetMax;
      && Selects(j, n)
      && (forall k: nat :: k <= NjetMax && Selects(k, n) ==> k == j)
      && Terms(sigma, fmt)[j] == Term(j, Shifted(sigma)[j], fmt)
      && GetWeight(n, sigma) == Ok(Norm * Shifted(sigma)[j])
    ensures n < 0 ==> forall k: nat :: k <= NjetMax ==> !Selects(k, n)
    ensures -|Weights| <= n < 0 ==> GetWeight(n, sigma) == Ok(Norm * Shifted(sigma)[|Weights| + n])
  {
  }

  /** `getWeightString(sigma)` */
  method GetWeightString(sigma: real, fmt: real -> string) returns (weightStr: string)
    ensures weightStr == "( " + Concat(Terms(sigma, fmt)) + " 0 )"
    ensures StartsWith(weightStr, "( ") && EndsWith(weightStr, " 0 )")
  {
    var weights := Shifted(sigma);
    ghost var terms := Terms(sigma, fmt);
    weightStr := "( ";
    var njet := 0;
    while njet < |weights|
      invariant 0 <= njet <= |weights|
      invariant weightStr == "( " + Concat(terms[..njet])
    {
      var op := "==";
      if njet == NjetMax {
        op := ">=";
      }
      var term := fmt(weights[njet]) + "*(nISR" + op + NatToString(njet) + ") + ";
      assert term == terms[njet];
      ConcatSnoc(terms, njet);
      AppendAssoc("( ", Concat(terms[..njet]), term);
      weightStr := weightStr + term;
      njet := njet + 1;
    }
    assert terms[..njet] == terms;
    Bracketed("( ", Concat(terms), " 0 )");
    weightStr := weightStr + " 0 )";
  }
}
