/**
 * The memoizing decorator and the first-match searches over generator particles.
 */
module Helpers {
  import opened Wrappers

  /**
   * The `memoized` decorator around `func`.  `hashable` says which argument
   * tuples can be dictionary keys; `calls` records every call of `func`, in order.
   */
  class Memoized<A(==), R> {
    const func: A -> R
    const hashable: A -> bool
    var cache: map<A, R>
    var calls: seq<A>

    /** Every cached value is what `func` returned for those arguments. */
    ghost predicate Valid()
      reads this
    {
      (forall a :: a in cache ==> hashable(a) && cache[a] == func(a)) &&
      (forall a :: a in cache ==> a in calls)
    }

    constructor (func: A -> R, hashable: A -> bool)
      ensures Valid()
      ensures this.func == func && this.hashable == hashable
      ensures cache == map[] && calls == []
    {
      this.func := func;
      this.hashable := hashable;
      cache := map[];
      calls := [];
    }

    /**
     * `__call__(*args)`.  The `Hashable` test looks at the argument tuple, which
     * is always an instance of `Hashable`, so it never sends a call through
     * uncached; `args in self.cache` then hashes the elements, and an
     * unhashable one raises TypeError before `func` runs.
     */
    method Call(args: A) returns (r: Result<R>)
      requires Valid()
      modifies this
      ensures Valid()
      ensures !hashable(args) <==> r == Raises(TypeError)
      ensures !hashable(args) ==> cache == old(cache) && calls == old(calls)
      ensures hashable(args) ==> r == Ok(func(args))
      ensures hashable(args) && args in old(cache) ==> r == Ok(old(cache)[args]) && cache == old(cache) && calls == old(calls)
      ensures hashable(args) && args !in old(cache) ==> cache == old(cache)[args := func(args)] && calls == old(calls) + [args]
      ensures forall a :: a in old(cache) ==> a in cache && cache[a] == old(cache)[a]
    {
      if !hashable(args) {
        // hashing the tuple for the lookup fails
        return Raises(TypeError);
      }
      if args in cache {
        return Ok(cache[args]);
      }
      var value := func(args);
      calls := calls + [args];
      cache := cache[args := value];
      r := Ok(value);
    }
  }

  /**
   * Calling twice with the same arguments gives the same answer, the function's
   * value or TypeError, and calls `func` at most once.
   */
  method CallTwice<A(==), R>(m: Memoized<A, R>, args: A) returns (r1: Result<R>, r2: Result<R>)
    requires m.Valid()
    modifies m
    ensures r1 == r2
    ensures m.hashable(args) ==> r1 == Ok(m.func(args))
    ensures !m.hashable(args) ==> r1 == Raises(TypeError)
    ensures |m.calls| <= |old(m.calls)| + 1
  {
    r1 := m.Call(args);
    r2 := m.Call(args);
  }

  /** The position of the first element satisfying `p`, or `|s|` when there is none. */
  function FirstIndex<T>(s: seq<T>, p: T -> bool): (i: nat)
    ensures i <= |s|
    ensures i < |s| ==> p(s[i])
    ensures forall j :: 0 <= j < i ==> !p(s[j])
  {
    if s == [] then 0
    else if p(s[0]) then 0
    else 1 + FirstIndex(s[1..], p)
  }

  /** `for g in s: if not p(g): continue; return g` and `return None` after the loop. */
  function FirstWhere<T>(s: seq<T>, p: T -> bool): (r: Option<T>)
    ensures r.None? <==> forall i :: 0 <= i < |s| ==> !p(s[i])
    ensures r.Some? ==> exists i :: 0 <= i < |s| && s[i] == r.value && p(s[i]) && forall j :: 0 <= j < i ==> !p(s[j])
  {
    var i := FirstIndex(s, p);
    if i < |s| then Some(s[i]) else None
  }

  /** The fields of a generator particle the searches read. */
  datatype GenPart = GenPart(pdgId: int, status: int)

  function Abs(x: int): nat { if x < 0 then -x else x }

  predicate IsGenZ(g: GenPart) { g.pdgId == 23 && g.status == 62 }
  predicate IsGenPhoton(g: GenPart) { g.pdgId == 22 && g.status == 23 }
  predicate IsGenB(g: GenPart) { Abs(g.pdgId) == 5 && g.status == 23 }

  /** `getGenZ`: the first Z (pdgId 23) in its last copy before the decay (status 62). */
  function GetGenZ(genparts: seq<GenPart>): (r: Option<GenPart>)
    ensures r.None? <==> forall i :: 0 <= i < |genparts| ==> !(genparts[i].pdgId == 23 && genparts[i].status == 62)
    ensures r.Some? ==> r.value.pdgId == 23 && r.value.status == 62
    ensures r.Some? ==> exists i :: (0 <= i < |genparts| && genparts[i] == r.value &&
      forall j :: 0 <= j < i ==> !(genparts[j].pdgId == 23 && genparts[j].status == 62))
  {
    FirstWhere(genparts, IsGenZ)
  }

  /** `getGenPhoton`: the first photon (pdgId 22) with status 23. */
  function GetGenPhoton(genparts: seq<GenPart>): (r: Option<GenPart>)
    ensures r.None? <==> forall i :: 0 <= i < |genparts| ==> !(genparts[i].pdgId == 22 && genparts[i].status == 23)
    ensures r.Some? ==> r.value.pdgId == 22 && r.value.status == 23
    ensures r.Some? ==> exists i :: (0 <= i < |genparts| && genparts[i] == r.value &&
      forall j :: 0 <= j < i ==> !(genparts[j].pdgId == 22 && genparts[j].status == 23))
  {
    FirstWhere(genparts, IsGenPhoton)
  }

  /** `getGenB`: the first b quark or antiquark (|pdgId| 5) with status 23. */
  function GetGenB(genparts: seq<GenPart>): (r: Option<GenPart>)
    ensures r.None? <==> forall i :: 0 <= i < |genparts| ==> !((genparts[i].pdgId == 5 || genparts[i].pdgId == -5) && genparts[i].status == 23)
    ensures r.Some? ==> (r.value.pdgId == 5 || r.value.pdgId == -5) && r.value.status == 23
    ensures r.Some? ==> exists i :: (0 <= i < |genparts| && genparts[i] == r.value &&
      forall j :: 0 <= j < i ==> !((genparts[j].pdgId == 5 || genparts[j].pdgId == -5) && genparts[j].status == 23))
  {
    FirstWhere(genparts, IsGenB)
  }

  /** An element that passes the test, with none before it, is what the search finds. */
  lemma FirstWhereAt<T>(s: seq<T>, p: T -> bool, i: nat)
    requires i < |s| && p(s[i])
    requires forall j :: 0 <= j < i ==> !p(s[j])
    ensures FirstIndex(s, p) == i && FirstWhere(s, p) == Some(s[i])
  {
  }

  lemma {:induction false} FirstIndexSkips<T>(prefix: seq<T>, s: seq<T>, p: T -> bool)
    requires forall i :: 0 <= i < |prefix| ==> !p(prefix[i])
    ensures FirstIndex(prefix + s, p) == |prefix| + FirstIndex(s, p)
  {
    if prefix != [] {
      assert (prefix + s)[1..] == prefix[1..] + s;
      FirstIndexSkips(prefix[1..], s, p);
    } else {
      assert prefix + s == s;
    }
  }

  /** Putting particles in front that fail the test does not change what a search finds. */
  lemma FirstWhereSkips<T>(prefix: seq<T>, s: seq<T>, p: T -> bool)
    requires forall i :: 0 <= i < |prefix| ==> !p(prefix[i])
    ensures FirstWhere(prefix + s, p) == FirstWhere(s, p)
  {
    FirstIndexSkips(prefix, s, p);
  }
}
