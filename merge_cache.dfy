/**
 * The `mergeCache` script: find the cache directories among a root directory and
 * the directory names of its walk, and merge each of them with `clear=True`.
 */
module MergeCache {
  import opened Wrappers
  import opened PyStr
  import opened StableSort
  import opened FileStore
  import opened MergingDirDb

  /** `any([x.startswith('tmp_') for x in listing])` */
  function AnyTmp(listing: seq<string>): (r: bool)
    ensures r <==> exists i :: 0 <= i < |listing| && StartsWith(listing[i], TmpPrefix)
  {
    if listing == [] then false
    else
      StartsWith(listing[0], TmpPrefix) || (
        assert forall i :: 1 <= i < |listing| ==> listing[i] == listing[1..][i - 1];
        AnyTmp(listing[1..]))
  }

  /** `test_if_cache`, on whether the path is a directory and on its listing. */
  function TestIfCache(isDir: bool, listing: seq<string>): (r: bool)
    ensures !isDir ==> !r
    ensures isDir ==> (r <==> MergedName in listing || exists i :: 0 <= i < |listing| && StartsWith(listing[i], TmpPrefix))
  {
    if isDir then
      if MergedName in listing then true
      else if AnyTmp(listing) then true
      else false
    else false
  }

  /**
   * On a cache directory's own listing, the test holds exactly when the directory
   * has a `merged` file or a tmp file: what `MergingDirDB` reads and merges.
   */
  lemma TestIfCacheOnListing<K, V>(d: Listing<K, V>)
    ensures TestIfCache(true, Names(d)) <==> Lookup(d, MergedName).Some? || TmpEntries(d) != []
  {
    FilterEmpty(d, IsTmp);
    var ns := Names(d);
    if MergedName in ns {
      var i :| 0 <= i < |ns| && ns[i] == MergedName;
      assert d[i].name == MergedName;
    }
  }

  /** One step of `os.walk(root)`: a directory path and the names of its subdirectories. */
  datatype WalkStep = WalkStep(dirpath: string, dirnames: seq<string>)

  predicate IsCache<K(==), V>(fs: map<string, Listing<K, V>>, p: string) {
    TestIfCache(p in fs, if p in fs then Names(fs[p]) else [])
  }

  /** The candidates the walk loop tests: the root joined with every walked directory name. */
  function Candidates(root: string, walk: seq<WalkStep>): seq<string> {
    if walk == [] then []
    else Candidates(root, walk[..|walk| - 1]) + JoinAll(root, Last(walk).dirnames)
  }

  function JoinAll(root: string, names: seq<string>): (r: seq<string>)
    ensures |r| == |names| && forall i :: 0 <= i < |names| ==> r[i] == Join(root, names[i])
  {
    if names == [] then [] else [Join(root, names[0])] + JoinAll(root, names[1..])
  }

  lemma JoinAllSnoc(root: string, names: seq<string>, n: nat)
    requires n < |names|
    ensures JoinAll(root, names[..n + 1]) == JoinAll(root, names[..n]) + [Join(root, names[n])]
  {
    var a, b := JoinAll(root, names[..n + 1]), JoinAll(root, names[..n]) + [Join(root, names[n])];
    assert |a| == |b|;
    forall i | 0 <= i < |a| ensures a[i] == b[i] {
      if i < n {
        assert names[..n + 1][i] == names[..n][i];
      }
    }
  }

  function CacheTest<K(==), V>(fs: map<string, Listing<K, V>>): string -> bool {
    p => IsCache(fs, p)
  }

  /** The `dirs` list: the root when it is a cache, then every candidate that is one. */
  function Selected<K(==), V>(fs: map<string, Listing<K, V>>, root: string, walk: seq<WalkStep>): seq<string> {
    (if IsCache(fs, root) then [root] else []) + Filter(Candidates(root, walk), CacheTest(fs))
  }

  /** The candidates depend on the walked names only, never on the walk's `dirpath`. */
  lemma {:induction false} CandidatesIgnoreDirpath(root: string, walk: seq<WalkStep>, walk': seq<WalkStep>)
    requires |walk| == |walk'| && forall i :: 0 <= i < |walk| ==> walk[i].dirnames == walk'[i].dirnames
    ensures Candidates(root, walk) == Candidates(root, walk')
  {
    if walk != [] {
      var n := |walk| - 1;
      CandidatesIgnoreDirpath(root, walk[..n], walk'[..n]);
    }
  }

  /** One `MergingDirDB(d).merge(clear=True)` at time `now`. */
  function ClearMerge<K(==), V>(now: int, dump: Dumper<Obj<K, V>>): Listing<K, V> -> Result<Listing<K, V>> {
    d => MergeSpec(d, true, now, dump)
  }

  /**
   * The merges of the main block, in list order, each by `merge` on the
   * directory's listing (created empty when missing): the final directories and
   * the exception that stopped the loop.
   */
  function MergeDirs<P(==), L>(fs: map<P, seq<L>>, dirs: seq<P>, merge: seq<L> -> Result<seq<L>>): (map<P, seq<L>>, Option<Exc>)
  {
    if dirs == [] then (fs, None)
    else
      var (fs', stop) := MergeDirs(fs, dirs[..|dirs| - 1], merge);
      if stop.Some? then (fs', stop)
      else
        var dir := Last(dirs);
        var d := if dir in fs' then fs'[dir] else [];
        match merge(d)
        case Raises(x) => (fs'[dir := d], Some(x))
        case Ok(d') => (fs'[dir := d'], None)
  }

  /** Directories that are not in the list are left untouched. */
  lemma {:induction false} MergeDirsElsewhere<P, L>(fs: map<P, seq<L>>, dirs: seq<P>, merge: seq<L> -> Result<seq<L>>, p: P)
    requires p !in dirs
    ensures p in fs <==> p in MergeDirs(fs, dirs, merge).0
    ensures p in fs ==> MergeDirs(fs, dirs, merge).0[p] == fs[p]
  {
    if dirs != [] {
      assert p !in dirs[..|dirs| - 1] by {
        assert forall x :: x in dirs[..|dirs| - 1] ==> x in dirs;
      }
      MergeDirsElsewhere(fs, dirs[..|dirs| - 1], merge, p);
    }
  }

  /**
   * When no merge raised, every directory in the list ends up satisfying what
   * every successful merge establishes (for `ClearMerge`: it has a `merged` file).
   */
  lemma {:induction false} MergeDirsAll<P, L>(fs: map<P, seq<L>>, dirs: seq<P>, merge: seq<L> -> Result<seq<L>>,
                                             post: seq<L> -> bool)
    requires forall d :: merge(d).Ok? ==> post(merge(d).value)
    requires MergeDirs(fs, dirs, merge).1.None?
    ensures forall i :: 0 <= i < |dirs| ==> dirs[i] in MergeDirs(fs, dirs, merge).0 && post(MergeDirs(fs, dirs, merge).0[dirs[i]])
  {
    if dirs != [] {
      var front := dirs[..|dirs| - 1];
      var (fs', stop) := MergeDirs(fs, front, merge);
      MergeDirsAll(fs, front, merge, post);
      var dir := Last(dirs);
      var d := if dir in fs' then fs'[dir] else [];
      var r := MergeDirs(fs, dirs, merge).0;
      assert r == fs'[dir := merge(d).value];
      forall i | 0 <= i < |dirs|
        ensures dirs[i] in r && post(r[dirs[i]])
      {
        if dirs[i] != dir {
          assert dirs[i] == front[i];
        }
      }
    }
  }

  lemma MergedAfterMerge<K, V>(now: int, dump: Dumper<Obj<K, V>>)
    ensures forall d :: ClearMerge(now, dump)(d).Ok? ==> Lookup(ClearMerge(now, dump)(d).value, MergedName).Some?
  {
    forall d | ClearMerge(now, dump)(d).Ok?
      ensures Lookup(ClearMerge(now, dump)(d).value, MergedName).Some?
    {
      ClearOutcome(d, now, dump);
    }
  }

  /** When the loop ran to its end, every listed directory has a `merged` file. */
  lemma MergeDirsMerged<K, V>(fs: map<string, Listing<K, V>>, dirs: seq<string>, now: int, dump: Dumper<Obj<K, V>>)
    requires MergeDirs(fs, dirs, ClearMerge(now, dump)).1.None?
    ensures forall i :: 0 <= i < |dirs| ==>
      dirs[i] in MergeDirs(fs, dirs, ClearMerge(now, dump)).0 &&
      Lookup(MergeDirs(fs, dirs, ClearMerge(now, dump)).0[dirs[i]], MergedName).Some?
  {
    MergedAfterMerge(now, dump);
    MergeDirsAll(fs, dirs, ClearMerge(now, dump), (d: Listing<K, V>) => Lookup(d, MergedName).Some?);
  }

  /** One more merge of the main loop, in terms of the state the previous ones left. */
  lemma MergeDirsStep<P, L>(fs: map<P, seq<L>>, dirs: seq<P>, i: nat, merge: seq<L> -> Result<seq<L>>, cur: map<P, seq<L>>)
    requires i < |dirs| && MergeDirs(fs, dirs[..i], merge) == (cur, None)
    ensures var d := if dirs[i] in cur then cur[dirs[i]] else [];
      && (merge(d).Raises? ==> MergeDirs(fs, dirs, merge) == (cur[dirs[i] := d], Some(merge(d).exc)))
      && (merge(d).Ok? ==> MergeDirs(fs, dirs[..i + 1], merge) == (cur[dirs[i] := merge(d).value], None))
  {
    assert dirs[..i + 1][..i] == dirs[..i];
    assert Last(dirs[..i + 1]) == dirs[i];
    var d := if dirs[i] in cur then cur[dirs[i]] else [];
    if merge(d).Raises? {
      MergeDirsStops(fs, dirs, i + 1, merge);
    }
  }

  lemma {:induction false} MergeDirsStops<P, L>(fs: map<P, seq<L>>, dirs: seq<P>, n: nat, merge: seq<L> -> Result<seq<L>>)
    requires n <= |dirs| && MergeDirs(fs, dirs[..n], merge).1.Some?
    ensures MergeDirs(fs, dirs, merge) == MergeDirs(fs, dirs[..n], merge)
  {
    if n < |dirs| {
      var front := dirs[..|dirs| - 1];
      assert front[..n] == dirs[..n];
      MergeDirsStops(fs, front, n, merge);
    } else {
      assert dirs[..n] == dirs;
    }
  }

  lemma CandidatesSnoc(root: string, walk: seq<WalkStep>, w: nat)
    requires w < |walk|
    ensures Candidates(root, walk[..w + 1]) == Candidates(root, walk[..w]) + JoinAll(root, walk[w].dirnames)
  {
    assert walk[..w + 1][..w] == walk[..w];
    assert Last(walk[..w + 1]) == walk[w];
  }

  /** The inner loop over the `dirnames` of one walk step. */
  method SelectIn(test: string -> bool, root: string, dirnames: seq<string>) returns (found: seq<string>)
    ensures found == Filter(JoinAll(root, dirnames), test)
  {
    found := [];
    var n := 0;
    while n < |dirnames|
      invariant 0 <= n <= |dirnames|
      invariant found == Filter(JoinAll(root, dirnames[..n]), test)
    {
      var candidate := Join(root, dirnames[n]);
      JoinAllSnoc(root, dirnames, n);
      FilterSnoc(JoinAll(root, dirnames[..n]), candidate, test);
      if test(candidate) {
        found := found + [candidate];
      }
      n := n + 1;
    }
    assert dirnames[..n] == dirnames;
  }

  /** The walk loop, with `test_if_cache` as `test`. */
  method SelectWith(test: string -> bool, root: string, walk: seq<WalkStep>) returns (dirs: seq<string>)
    ensures dirs == (if test(root) then [root] else []) + Filter(Candidates(root, walk), test)
  {
    dirs := [];
    if test(root) {
      dirs := dirs + [root];
    }
    ghost var head := dirs;
    var w := 0;
    while w < |walk|
      invariant 0 <= w <= |walk|
      invariant dirs == head + Filter(Candidates(root, walk[..w]), test)
    {
      var dirnames := walk[w].dirnames;
      ghost var a := Candidates(root, walk[..w]);
      CandidatesSnoc(root, walk, w);
      var found := SelectIn(test, root, dirnames);
      FilterAppend(a, JoinAll(root, dirnames), test);
      AppendAssoc(head, Filter(a, test), found);
      dirs := dirs + found;
      w := w + 1;
    }
    assert walk[..w] == walk;
  }

  /** The `dirs` loop of the main block, testing the directories of `disk`. */
  method SelectCaches<K(==), V>(disk: Disk<K, V>, root: string, walk: seq<WalkStep>) returns (dirs: seq<string>)
    ensures dirs == Selected(disk.dirs, root, walk)
  {
    dirs := SelectWith(CacheTest(disk.dirs), root, walk);
  }

  /** `MergingDirDB(d).merge(clear=True)` on a fresh session named by `uuid`. */
  method MergeOne<K(==), V>(disk: Disk<K, V>, dir: string, uuid: string, now: int, dump: Dumper<Obj<K, V>>)
    returns (r: Result<()>)
    modifies disk
    ensures var d := if dir in old(disk.dirs) then old(disk.dirs)[dir] else [];
      && (ClearMerge(now, dump)(d).Raises? ==> r == Raises(ClearMerge(now, dump)(d).exc) && disk.dirs == old(disk.dirs)[dir := d])
      && (ClearMerge(now, dump)(d).Ok? ==> r == Ok(()) && disk.dirs == old(disk.dirs)[dir := ClearMerge(now, dump)(d).value])
  {
    ghost var d := if dir in disk.dirs then disk.dirs[dir] else [];
    ghost var before := disk.dirs;
    var db := new MergingDirDB(disk, dir, uuid, dump);
    assert disk.dirs == before[dir := d];
    r := db.Merge(true, now);
  }

  /**
   * The main block: exactly one argument, else an exception; then every selected
   * directory is merged with `clear=True`, in list order, stopping at the first
   * merge that raises.  `uuid(i)` is the fresh name of the i-th session.
   */
  method MergeCacheMain<K(==), V>(disk: Disk<K, V>, args: seq<string>, walk: seq<WalkStep>, now: int,
                                  uuid: nat -> string, dump: Dumper<Obj<K, V>>) returns (r: Result<()>)
    modifies disk
    ensures |args| != 1 ==> r == Raises(RaisedException) && disk.dirs == old(disk.dirs)
    ensures |args| == 1 ==>
      var (fs, stop) := MergeDirs(old(disk.dirs), Selected(old(disk.dirs), args[0], walk), ClearMerge(now, dump));
      disk.dirs == fs && (r.Raises? <==> stop.Some?) && (stop.Some? ==> r.exc == stop.value)
  {
    if |args| != 1 {
      return Raises(RaisedException);
    }
    var dirs := SelectCaches(disk, args[0], walk);
    ghost var fs0 := disk.dirs;
    var i := 0;
    while i < |dirs|
      invariant 0 <= i <= |dirs|
      invariant MergeDirs(fs0, dirs[..i], ClearMerge(now, dump)) == (disk.dirs, None)
    {
      MergeDirsStep(fs0, dirs, i, ClearMerge(now, dump), disk.dirs);
      var res := MergeOne(disk, dirs[i], uuid(i), now, dump);
      if res.Raises? {
        return Raises(res.exc);
      }
      i := i + 1;
    }
    assert dirs[..i] == dirs;
    r := Ok(());
  }
}
