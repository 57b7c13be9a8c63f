/**
 * Jet/lepton cross cleaning: a lepton close to a jet either loses to the jet
 * (the lepton is dropped) or removes its best-matching jet.
 */
module LeptonJet {
  /**
   * What the arbitration returns for a close (jet, lepton) pair: the jet, the
   * lepton, or both as a pair.  Anything else it could return acts like the lepton.
   */
  datatype Choice = PickJet | PickLepton | KeepBoth

  /** The state of the scan of the jets for one lepton: `goodlep[i_lep]`, `i_jet_best`, `d2min`. */
  datatype ScanState = ScanState(dropped: bool, best: int, d2min: real)

  /** The inner loop's body for jet `j`. */
  function ScanStep<J, L>(s: ScanState, lep: L, jet: J, j: int, dr2: real, d2: (L, J) -> real,
                          arbitration: (J, L) -> Choice): ScanState {
    var d2i := d2(lep, jet);
    if d2i < dr2 && arbitration(jet, lep) == PickJet then s.(dropped := true)
    else if d2i < dr2 && arbitration(jet, lep) == KeepBoth then s
    else if d2i < s.d2min then ScanState(false, j, d2i)
    else s
  }

  /** The inner loop over the first `k` jets, stopping at the first jet the arbitration prefers. */
  function ScanJets<J, L>(lep: L, jets: seq<J>, k: nat, dr2: real, d2: (L, J) -> real,
                          arbitration: (J, L) -> Choice): (s: ScanState)
    requires k <= |jets|
    ensures -1 <= s.best < k && s.d2min <= dr2
    ensures s.best == -1 ==> s.d2min == dr2
    ensures s.best >= 0 ==> s.d2min == d2(lep, jets[s.best])
  {
    if k == 0 then ScanState(false, -1, dr2)
    else
      var s := ScanJets(lep, jets, k - 1, dr2, d2, arbitration);
      if s.dropped then s else ScanStep(s, lep, jets[k - 1], k - 1, dr2, d2, arbitration)
  }

  /** A jet the lepton may be matched to: close, and the arbitration keeps the lepton. */
  predicate Eligible<J, L>(lep: L, jet: J, dr2: real, d2: (L, J) -> real, arbitration: (J, L) -> Choice) {
    d2(lep, jet) < dr2 && arbitration(jet, lep) == PickLepton
  }

  /** A jet that kills the lepton: close, and the arbitration picks the jet. */
  predicate Kills<J, L>(lep: L, jet: J, dr2: real, d2: (L, J) -> real, arbitration: (J, L) -> Choice) {
    d2(lep, jet) < dr2 && arbitration(jet, lep) == PickJet
  }

  /** Once the lepton is dropped, the scan has stopped. */
  lemma {:induction false} ScanStops<J, L>(lep: L, jets: seq<J>, k: nat, m: nat, dr2: real, d2: (L, J) -> real,
                                           arbitration: (J, L) -> Choice)
    requires k <= m <= |jets| && ScanJets(lep, jets, k, dr2, d2, arbitration).dropped
    ensures ScanJets(lep, jets, m, dr2, d2, arbitration) == ScanJets(lep, jets, k, dr2, d2, arbitration)
    decreases m
  {
    if m > k {
      ScanStops(lep, jets, k, m - 1, dr2, d2, arbitration);
    }
  }

  /** The lepton is dropped exactly when some scanned jet kills it. */
  lemma {:induction false} ScanDroppedIff<J, L>(lep: L, jets: seq<J>, k: nat, dr2: real, d2: (L, J) -> real,
                                                arbitration: (J, L) -> Choice)
    requires k <= |jets|
    ensures ScanJets(lep, jets, k, dr2, d2, arbitration).dropped <==>
      exists j :: 0 <= j < k && Kills(lep, jets[j], dr2, d2, arbitration)
  {
    if k > 0 {
      ScanDroppedIff(lep, jets, k - 1, dr2, d2, arbitration);
    }
  }

  /**
   * A lepton that survives is matched to the first jet with the strictly smallest
   * distance among the eligible jets; `-1` when no jet is eligible.
   */
  lemma {:induction false} ScanBest<J, L>(lep: L, jets: seq<J>, k: nat, dr2: real, d2: (L, J) -> real,
                                          arbitration: (J, L) -> Choice)
    requires k <= |jets|
    requires !ScanJets(lep, jets, k, dr2, d2, arbitration).dropped
    ensures var s := ScanJets(lep, jets, k, dr2, d2, arbitration);
      && (s.best == -1 <==> forall j :: 0 <= j < k ==> !Eligible(lep, jets[j], dr2, d2, arbitration))
      && (s.best >= 0 ==> Eligible(lep, jets[s.best], dr2, d2, arbitration))
      && (s.best >= 0 ==> forall j :: 0 <= j < s.best && Eligible(lep, jets[j], dr2, d2, arbitration) ==>
            d2(lep, jets[j]) > s.d2min)
      && (s.best >= 0 ==> forall j :: 0 <= j < k && Eligible(lep, jets[j], dr2, d2, arbitration) ==>
            d2(lep, jets[j]) >= s.d2min)
  {
    if k > 0 {
      ScanBest(lep, jets, k - 1, dr2, d2, arbitration);
    }
  }

  /** The masks `goodjet` and `goodlep` after the first `n` leptons. */
  function Masks<J, L>(jets: seq<J>, leptons: seq<L>, n: nat, dr2: real, d2: (L, J) -> real,
                       arbitration: (J, L) -> Choice): (r: (seq<bool>, seq<bool>))
    requires n <= |leptons|
    ensures |r.0| == |jets| && |r.1| == |leptons|
    ensures forall i :: n <= i < |leptons| ==> r.1[i]
  {
    if n == 0 then (seq(|jets|, _ => true), seq(|leptons|, _ => true))
    else
      var (goodjet, goodlep) := Masks(jets, leptons, n - 1, dr2, d2, arbitration);
      var s := ScanJets(leptons[n - 1], jets, |jets|, dr2, d2, arbitration);
      if s.dropped then (goodjet, goodlep[n - 1 := false])
      else if s.best != -1 then (goodjet[s.best := false], goodlep)
      else (goodjet, goodlep)
  }

  /** The elements whose mask entry is true, in order. */
  function Select<T>(s: seq<T>, mask: seq<bool>): (r: seq<T>)
    requires |mask| == |s|
    ensures |r| <= |s|
  {
    if s == [] then []
    else (if mask[0] then [s[0]] else []) + Select(s[1..], mask[1..])
  }

  /** `a` is `b` with some elements left out, the rest in their order. */
  predicate IsSubsequence<T(==)>(a: seq<T>, b: seq<T>) {
    if b == [] then a == []
    else (a != [] && a[0] == b[0] && IsSubsequence(a[1..], b[1..])) || IsSubsequence(a, b[1..])
  }

  lemma {:induction false} SelectIsSubsequence<T>(s: seq<T>, mask: seq<bool>)
    requires |mask| == |s|
    ensures IsSubsequence(Select(s, mask), s)
  {
    if s != [] {
      SelectIsSubsequence(s[1..], mask[1..]);
      if mask[0] {
        assert Select(s, mask)[1..] == Select(s[1..], mask[1..]);
      } else {
        assert [] + Select(s[1..], mask[1..]) == Select(s[1..], mask[1..]);
        assert Select(s, mask) == Select(s[1..], mask[1..]);
      }
    }
  }

  function CountFalse(mask: seq<bool>): (c: nat)
    ensures c <= |mask|
  {
    if mask == [] then 0 else (if mask[0] then 0 else 1) + CountFalse(mask[1..])
  }

  lemma {:induction false} CountFalseUpdate(mask: seq<bool>, i: int)
    requires 0 <= i < |mask|
    ensures CountFalse(mask[i := false]) <= CountFalse(mask) + 1
  {
    if i > 0 {
      assert mask[i := false][1..] == mask[1..][i - 1 := false];
      CountFalseUpdate(mask[1..], i - 1);
    }
  }

  lemma {:induction false} CountFalseAllTrue(n: nat)
    ensures CountFalse(seq(n, _ => true)) == 0
  {
    if n > 0 {
      assert seq(n, _ => true)[1..] == seq(n - 1, _ => true);
      CountFalseAllTrue(n - 1);
    }
  }

  /** Each lepton removes at most one jet: no more jets are removed than there are leptons. */
  lemma {:induction false} RemovedJetsAtMostLeptons<J, L>(jets: seq<J>, leptons: seq<L>, n: nat, dr2: real,
                                                          d2: (L, J) -> real, arbitration: (J, L) -> Choice)
    requires n <= |leptons|
    ensures CountFalse(Masks(jets, leptons, n, dr2, d2, arbitration).0) <= n
  {
    if n == 0 {
      CountFalseAllTrue(|jets|);
    } else {
      RemovedJetsAtMostLeptons(jets, leptons, n - 1, dr2, d2, arbitration);
      var s := ScanJets(leptons[n - 1], jets, |jets|, dr2, d2, arbitration);
      if !s.dropped && s.best != -1 {
        CountFalseUpdate(Masks(jets, leptons, n - 1, dr2, d2, arbitration).0, s.best);
      }
    }
  }

  /**
   * Every removed jet is the best match of a lepton that survived, and every
   * dropped lepton was killed by a jet the arbitration preferred.
   */
  lemma {:induction false} MasksExplained<J, L>(jets: seq<J>, leptons: seq<L>, n: nat, dr2: real,
                                                d2: (L, J) -> real, arbitration: (J, L) -> Choice)
    requires n <= |leptons|
    ensures var (goodjet, goodlep) := Masks(jets, leptons, n, dr2, d2, arbitration);
      && (forall j :: 0 <= j < |jets| && !goodjet[j] ==> exists i :: (0 <= i < n &&
            !ScanJets(leptons[i], jets, |jets|, dr2, d2, arbitration).dropped &&
            ScanJets(leptons[i], jets, |jets|, dr2, d2, arbitration).best == j))
      && (forall i :: 0 <= i < |leptons| ==>
            (!goodlep[i] <==> i < n && exists j :: 0 <= j < |jets| && Kills(leptons[i], jets[j], dr2, d2, arbitration)))
  {
    if n > 0 {
      MasksExplained(jets, leptons, n - 1, dr2, d2, arbitration);
      ScanDroppedIff(leptons[n - 1], jets, |jets|, dr2, d2, arbitration);
    }
  }

  /** With the default arbitration, which always keeps the lepton, no lepton is dropped. */
  lemma DefaultKeepsLeptons<J, L>(jets: seq<J>, leptons: seq<L>, dr2: real, d2: (L, J) -> real,
                                  arbitration: (J, L) -> Choice)
    requires forall jet, lep :: arbitration(jet, lep) == PickLepton
    ensures forall i :: 0 <= i < |leptons| ==> Masks(jets, leptons, |leptons|, dr2, d2, arbitration).1[i]
  {
    MasksExplained(jets, leptons, |leptons|, dr2, d2, arbitration);
  }

  /** `cleanJetsAndLeptons(jets, leptons, deltaR, arbitration)`, with `d2` for `deltaR2`. */
  method CleanJetsAndLeptons<J, L>(jets: seq<J>, leptons: seq<L>, deltaR: real, d2: (L, J) -> real,
                                   arbitration: (J, L) -> Choice) returns (cleanJets: seq<J>, cleanLeptons: seq<L>)
    ensures var (goodjet, goodlep) := Masks(jets, leptons, |leptons|, deltaR * deltaR, d2, arbitration);
      cleanJets == Select(jets, goodjet) && cleanLeptons == Select(leptons, goodlep)
    ensures IsSubsequence(cleanJets, jets) && IsSubsequence(cleanLeptons, leptons)
  {
    var dr2 := deltaR * deltaR;
    var goodjet := new bool[|jets|](_ => true);
    var goodlep := new bool[|leptons|](_ => true);
    assert goodjet[..] == seq(|jets|, _ => true) && goodlep[..] == seq(|leptons|, _ => true);
    for i := 0 to |leptons|
      invariant (goodjet[..], goodlep[..]) == Masks(jets, leptons, i, dr2, d2, arbitration)
    {
      ScanLepton(goodjet, goodlep, jets, leptons, i, dr2, d2, arbitration);
    }
    cleanJets := SelectMasked(jets, goodjet);
    cleanLeptons := SelectMasked(leptons, goodlep);
    SelectIsSubsequence(jets, goodjet[..]);
    SelectIsSubsequence(leptons, goodlep[..]);
  }

  /** The body of the outer loop for lepton `i`. */
  method ScanLepton<J, L>(goodjet: array<bool>, goodlep: array<bool>, jets: seq<J>, leptons: seq<L>, i: nat,
                          dr2: real, d2: (L, J) -> real, arbitration: (J, L) -> Choice)
    requires goodjet != goodlep && i < |leptons|
    requires (goodjet[..], goodlep[..]) == Masks(jets, leptons, i, dr2, d2, arbitration)
    modifies goodjet, goodlep
    ensures (goodjet[..], goodlep[..]) == Masks(jets, leptons, i + 1, dr2, d2, arbitration)
  {
    ghost var jm := goodjet[..];
    ghost var lm := goodlep[..];
    var lep := leptons[i];
    var best, d2min := -1, dr2;
    var j := 0;
    while j < |jets| && goodlep[i]
      invariant 0 <= j <= |jets|
      invariant ScanJets(lep, jets, j, dr2, d2, arbitration) == ScanState(!goodlep[i], best, d2min)
      invariant goodjet[..] == jm && goodlep[..] == lm[i := goodlep[i]]
    {
      var d2i := d2(lep, jets[j]);
      var choice := arbitration(jets[j], lep);
      if d2i < dr2 && choice == PickJet {
        // the jet wins: drop the lepton and stop
        goodlep[i] := false;
      } else if d2i < dr2 && choice == KeepBoth {
        // keep both: this match does not count
      } else if d2i < d2min {
        best, d2min := j, d2i;
      }
      j := j + 1;
    }
    if !goodlep[i] {
      ScanStops(lep, jets, j, |jets|, dr2, d2, arbitration);
    }
    if goodlep[i] && best != -1 {
      goodjet[best] := false;
    }
  }

  /** `[x for (k, x) in enumerate(s) if mask[k] == True]` */
  method SelectMasked<T>(s: seq<T>, mask: array<bool>) returns (r: seq<T>)
    requires mask.Length == |s|
    ensures r == Select(s, mask[..])
  {
    r := [];
    var k := |s|;
    while k > 0
      invariant 0 <= k <= |s|
      invariant r == Select(s[k..], mask[k..])
    {
      k := k - 1;
      assert s[k..][1..] == s[k + 1..] && mask[k..][1..] == mask[k + 1..];
      if mask[k] {
        r := [s[k]] + r;
      }
    }
  }
}
