/**
 * Photon classification in the tt+gamma overlap removal: ancestry of a
 * generator particle, read as the list of its mothers' pdgIds.
 */
module OverlapRemoval {
  import opened Wrappers
  import opened Helpers

  /** The fields of a generator particle the ancestry walk reads. */
  datatype Particle = Particle(pdgId: int, index: int, genPartIdxMother: int)

  predicate HasIndex(i: int, p: Particle) { p.index == i }

  /**
   * The mother of `g`: the first particle whose `index` is `g`'s
   * `genPartIdxMother`; None for a negative mother index or when no particle
   * carries it.
   */
  function Mother(g: Particle, genParticles: seq<Particle>): Option<Particle> {
    if g.genPartIdxMother < 0 then None
    else FirstWhere(genParticles, p => HasIndex(g.genPartIdxMother, p))
  }

  /** The mother is the first particle carrying the mother index; there is none for a negative index. */
  lemma MotherIsFirstMatch(g: Particle, genParticles: seq<Particle>)
    ensures Mother(g, genParticles).None? <==>
      g.genPartIdxMother < 0 || forall i :: 0 <= i < |genParticles| ==> genParticles[i].index != g.genPartIdxMother
    ensures Mother(g, genParticles).Some? ==> exists i :: (0 <= i < |genParticles| && genParticles[i] == Mother(g, genParticles).value &&
      genParticles[i].index == g.genPartIdxMother && forall j :: 0 <= j < i ==> genParticles[j].index != g.genPartIdxMother)
  {
  }

  /** The particle `k` generations above `g`, or None once the chain of mothers has ended. */
  function Ancestor(g: Particle, genParticles: seq<Particle>, k: nat): Option<Particle>
    decreases k
  {
    if k == 0 then Some(g)
    else
      match Mother(g, genParticles)
      case None => None
      case Some(m) => Ancestor(m, genParticles, k - 1)
  }

  /** The ancestor one generation further up is the mother of the ancestor `k` generations up. */
  lemma {:induction false} AncestorStep(g: Particle, genParticles: seq<Particle>, k: nat)
    ensures Ancestor(g, genParticles, k + 1) ==
      match Ancestor(g, genParticles, k)
      case None => None
      case Some(a) => Mother(a, genParticles)
    decreases k
  {
    if k > 0 {
      match Mother(g, genParticles)
      case None =>
      case Some(m) => AncestorStep(m, genParticles, k - 1);
    }
  }

  /**
   * `getParentIds(g, genParticles)`: the mothers' pdgIds, nearest first, following
   * `genPartIdxMother` to the first particle with that `index`.  A negative mother
   * index or a missing mother ends the chain.  `depth` bounds the recursion, as
   * the interpreter's recursion limit does: where it runs out, the exception is
   * caught and the chain ends there.
   */
  function GetParentIds(g: Particle, genParticles: seq<Particle>, depth: nat): (parents: seq<int>)
    ensures |parents| <= depth
    ensures Mother(g, genParticles).None? ==> parents == []
    ensures parents != [] ==> Mother(g, genParticles).Some? && parents[0] == Mother(g, genParticles).value.pdgId
    decreases depth
  {
    if depth == 0 then []
    else
      match Mother(g, genParticles)
      case None => []
      case Some(mother) => [mother.pdgId] + GetParentIds(mother, genParticles, depth - 1)
  }

  lemma AncestorOfMother(g: Particle, genParticles: seq<Particle>, k: nat)
    requires Mother(g, genParticles).Some?
    ensures Ancestor(g, genParticles, k + 1) == Ancestor(Mother(g, genParticles).value, genParticles, k)
  {
  }

  lemma ParentIdsOfMother(g: Particle, genParticles: seq<Particle>, depth: nat)
    requires depth > 0 && Mother(g, genParticles).Some?
    ensures GetParentIds(g, genParticles, depth) ==
      [Mother(g, genParticles).value.pdgId] + GetParentIds(Mother(g, genParticles).value, genParticles, depth - 1)
  {
  }

  /** Entry `k` of the chain is the pdgId of the ancestor `k + 1` generations up. */
  lemma {:induction false} ParentIsAncestor(g: Particle, genParticles: seq<Particle>, depth: nat, k: nat)
    requires k < |GetParentIds(g, genParticles, depth)|
    ensures Ancestor(g, genParticles, k + 1).Some?
    ensures GetParentIds(g, genParticles, depth)[k] == Ancestor(g, genParticles, k + 1).value.pdgId
    decreases depth
  {
    var m := Mother(g, genParticles).value;
    ParentIdsOfMother(g, genParticles, depth);
    AncestorOfMother(g, genParticles, k);
    if k > 0 {
      ParentIsAncestor(m, genParticles, depth - 1, k - 1);
    }
  }

  /** A chain shorter than `depth` ends because the next ancestor is missing. */
  lemma {:induction false} ParentChainEnd(g: Particle, genParticles: seq<Particle>, depth: nat)
    requires |GetParentIds(g, genParticles, depth)| < depth
    ensures Ancestor(g, genParticles, |GetParentIds(g, genParticles, depth)| + 1).None?
    decreases depth
  {
    if Mother(g, genParticles).Some? {
      var m := Mother(g, genParticles).value;
      ParentIdsOfMother(g, genParticles, depth);
      ParentChainEnd(m, genParticles, depth - 1);
      AncestorOfMother(g, genParticles, |GetParentIds(m, genParticles, depth - 1)| + 1);
    }
  }

  /**
   * The chain is the ancestry: entry `k - 1` is the pdgId of the ancestor `k`
   * generations up, so each entry after the first is the id of the mother of the
   * particle behind the one before; a chain shorter than `depth` ends where the
   * next mother is missing or has a negative index.
   */
  lemma {:induction false} ParentChain(g: Particle, genParticles: seq<Particle>, depth: nat)
    ensures forall k :: 1 <= k <= |GetParentIds(g, genParticles, depth)| ==>
      Ancestor(g, genParticles, k).Some? &&
      GetParentIds(g, genParticles, depth)[k - 1] == Ancestor(g, genParticles, k).value.pdgId
    ensures |GetParentIds(g, genParticles, depth)| < depth ==>
      Ancestor(g, genParticles, |GetParentIds(g, genParticles, depth)| + 1).None?
  {
    forall k | 1 <= k <= |GetParentIds(g, genParticles, depth)|
      ensures Ancestor(g, genParticles, k).Some? &&
        GetParentIds(g, genParticles, depth)[k - 1] == Ancestor(g, genParticles, k).value.pdgId
    {
      ParentIsAncestor(g, genParticles, depth, k - 1);
    }
    if |GetParentIds(g, genParticles, depth)| < depth {
      ParentChainEnd(g, genParticles, depth);
    }
  }

  function MaxAbs(l: seq<int>): (m: nat)
    requires l != []
    ensures forall i :: 0 <= i < |l| ==> Abs(l[i]) <= m
    ensures exists i :: 0 <= i < |l| && Abs(l[i]) == m
  {
    if |l| == 1 then Abs(l[0])
    else
      var m := MaxAbs(l[1..]);
      assert forall i :: 1 <= i < |l| ==> l[i] == l[1..][i - 1];
      if Abs(l[0]) > m then Abs(l[0]) else m
  }

  /** `hasMesonMother`: the largest absolute id lies strictly between 37 and 999. */
  predicate HasMesonMother(parentList: seq<int>) {
    if parentList == [] then false
    else
      var maxParentId := MaxAbs(parentList);
      maxParentId > 37 && maxParentId < 999
  }

  /** A meson mother means: no ancestor id reaches 999 in size, and some exceeds 37. */
  lemma MesonMotherIff(parentList: seq<int>)
    ensures HasMesonMother(parentList) <==>
      parentList != [] && (forall i :: 0 <= i < |parentList| ==> Abs(parentList[i]) < 999) &&
      (exists i :: 0 <= i < |parentList| && Abs(parentList[i]) > 37)
  {
    if parentList != [] {
      var m := MaxAbs(parentList);
      var i :| 0 <= i < |parentList| && Abs(parentList[i]) == m;
    }
  }

  /** `map(abs, l)` */
  function AbsAll(l: seq<int>): (r: seq<int>)
    ensures |r| == |l| && forall i :: 0 <= i < |l| ==> r[i] == Abs(l[i])
  {
    if l == [] then [] else [Abs(l[0]) as int] + AbsAll(l[1..])
  }

  /** `photonFromTopDecay`: a top among the ancestors, but not the nearest one. */
  predicate PhotonFromTopDecay(parentList: seq<int>) {
    if parentList == [] then false
    else
      var absList := AbsAll(parentList);
      if 6 !in absList then false
      else if absList[0] == 6 then false
      else true
  }

  lemma PhotonFromTopDecayIff(parentList: seq<int>)
    ensures PhotonFromTopDecay(parentList) <==>
      parentList != [] && Abs(parentList[0]) != 6 && exists i :: 0 < i < |parentList| && Abs(parentList[i]) == 6
  {
    if parentList != [] {
      var absList := AbsAll(parentList);
      if 6 in absList {
        var i :| 0 <= i < |absList| && absList[i] == 6;
      }
    }
  }

  /** `filter(lambda pdg: pdg != 22, l)` */
  function DropPhotons(l: seq<int>): (r: seq<int>)
    ensures |r| <= |l|
    ensures forall i :: 0 <= i < |r| ==> r[i] != 22 && r[i] in l
  {
    if l == [] then []
    else if l[0] == 22 then DropPhotons(l[1..])
    else [l[0]] + DropPhotons(l[1..])
  }

  /** Dropping the photons keeps the first other id in front. */
  lemma {:induction false} DropPhotonsFirst(l: seq<int>)
    ensures DropPhotons(l) == [] <==> forall i :: 0 <= i < |l| ==> l[i] == 22
    ensures DropPhotons(l) != [] ==> DropPhotons(l)[0] == l[FirstIndex(l, (x: int) => x != 22)]
  {
    if l != [] {
      DropPhotonsFirst(l[1..]);
      assert forall i :: 1 <= i < |l| ==> l[i] == l[1..][i - 1];
      if l[0] == 22 {
        assert FirstIndex(l, (x: int) => x != 22) == 1 + FirstIndex(l[1..], (x: int) => x != 22);
      }
    }
  }

  predicate IsLepton(pdg: int) { pdg in [11, 13, 15] }

  /** `photonFromLepton` */
  predicate PhotonFromLepton(parentList: seq<int>) {
    if parentList == [] then false
    else if HasMesonMother(parentList) then false
    else
      var leptonic := DropPhotons(AbsAll(parentList));
      if leptonic == [] then false
      else if !(exists i :: 0 <= i < |leptonic| && IsLepton(leptonic[i])) then false
      else if !IsLepton(leptonic[0]) then false
      else true
  }

  /**
   * A photon comes from a lepton exactly when it has no meson mother and its
   * nearest ancestor that is not a photon is a lepton (of either charge); the
   * `any` test in between never decides.
   */
  lemma PhotonFromLeptonIff(parentList: seq<int>)
    ensures PhotonFromLepton(parentList) <==>
      !HasMesonMother(parentList) &&
      (exists i :: 0 <= i < |parentList| && Abs(parentList[i]) != 22) &&
      IsLepton(Abs(parentList[FirstIndex(parentList, (x: int) => Abs(x) != 22)]))
  {
    var absList := AbsAll(parentList);
    DropPhotonsFirst(absList);
    FirstIndexAbs(parentList);
  }

  lemma {:induction false} FirstIndexAbs(l: seq<int>)
    ensures FirstIndex(AbsAll(l), (x: int) => x != 22) == FirstIndex(l, (x: int) => Abs(x) != 22)
  {
    if l != [] {
      FirstIndexAbs(l[1..]);
      assert AbsAll(l)[1..] == AbsAll(l[1..]);
    }
  }

  /**
   * `getPhotonCategory`: 0 a genuine photon, 1 a photon from a hadron,
   * 2 an electron without meson mother, 3 anything else.
   */
  function GetPhotonCategory(g: Option<Particle>, genparts: seq<Particle>, depth: nat): (c: int)
    ensures 0 <= c <= 3
    ensures g.None? || Abs(g.value.pdgId) !in {11, 22} ==> c == 3
    ensures g.Some? && Abs(g.value.pdgId) == 22 ==> (c == 0 <==> !HasMesonMother(GetParentIds(g.value, genparts, depth)))
    ensures g.Some? && Abs(g.value.pdgId) == 22 ==> (c == 1 <==> HasMesonMother(GetParentIds(g.value, genparts, depth)))
    ensures g.Some? && Abs(g.value.pdgId) == 11 ==> (c == 2 <==> !HasMesonMother(GetParentIds(g.value, genparts, depth)))
    ensures g.Some? && Abs(g.value.pdgId) == 11 ==> (c == 3 <==> HasMesonMother(GetParentIds(g.value, genparts, depth)))
  {
    if g.None? || Abs(g.value.pdgId) !in {11, 22} then 3
    else
      var hasMeson := HasMesonMother(GetParentIds(g.value, genparts, depth));
      if Abs(g.value.pdgId) == 22 && !hasMeson then 0
      else if Abs(g.value.pdgId) == 22 && hasMeson then 1
      else if Abs(g.value.pdgId) == 11 && !hasMeson then 2
      else 3
  }

  /** `hasLeptonMother`: 0 or 1. */
  function HasLeptonMother(g: Option<Particle>, genparts: seq<Particle>, depth: nat): (r: int)
    ensures r == 0 || r == 1
    ensures r == 1 <==> g.Some? && PhotonFromLepton(GetParentIds(g.value, genparts, depth))
  {
    if g.None? then 0
    else if PhotonFromLepton(GetParentIds(g.value, genparts, depth)) then 1
    else 0
  }

  /** `getPhotonMother`: the nearest ancestor id other than 22 (signed), or -1. */
  function GetPhotonMother(g: Option<Particle>, genparts: seq<Particle>, depth: nat): (r: int)
    ensures g.None? ==> r == -1
    ensures g.Some? && r != -1 ==> r != 22 && r in GetParentIds(g.value, genparts, depth)
  {
    if g.None? then -1
    else
      var parentList := GetParentIds(g.value, genparts, depth);
      if parentList == [] then -1
      else
        var others := DropPhotons(parentList);
        if others == [] then -1
        else others[0]
  }

  /** The photon's mother is the first ancestor a first-match search for "not 22" finds. */
  lemma PhotonMotherIsFirstOther(g: Particle, genparts: seq<Particle>, depth: nat)
    ensures var parentList := GetParentIds(g, genparts, depth);
      GetPhotonMother(Some(g), genparts, depth) ==
        match FirstWhere(parentList, (x: int) => x != 22)
        case None => -1
        case Some(m) => m
  {
    var parentList := GetParentIds(g, genparts, depth);
    DropPhotonsFirst(parentList);
  }
}
