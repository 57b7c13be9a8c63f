/**
 * The lock-free directory result cache.  Every session writes its whole private
 * dict to its own `tmp_<uuid>` file; readers consult every tmp file and the
 * `merged` file and keep the value with the newest modification time; `merge`
 * folds the tmp files, oldest first, over the `merged` dict and optionally
 * deletes them once the new `merged` file loads again.
 */
module MergingDirDb {
  import opened Wrappers
  import opened PyStr
  import opened StableSort
  import opened FileStore

  /** One element of the reader's `results` list: `[result, os.path.getmtime(f)]`. */
  datatype Found<V> = Found(value: V, mtime: int)

  function FoundMtime<V>(f: Found<V>): int { f.mtime }

  /** The files `read_from_all_files` consults: the tmp files, then `merged` if it exists. */
  function Scan<K(==), V>(d: Listing<K, V>): Listing<K, V> {
    TmpEntries(d) + (match Lookup(d, MergedName) case Some(e) => [e] case None => [])
  }

  /** The exception of the first file whose read raises, if any. */
  function FirstRaise<K(==), V>(files: Listing<K, V>, key: K): Option<Exc> {
    if files == [] then None
    else
      match FirstRaise(files[..|files| - 1], key)
      case Some(x) => Some(x)
      case None => (match ReadKey(Last(files).content, key) case Raises(x) => Some(x) case Ok(_) => None)
  }

  /** The `results` list: value and mtime of every file that yields a value, in scan order. */
  function Yielded<K(==), V>(files: Listing<K, V>, key: K): seq<Found<V>> {
    if files == [] then []
    else
      Yielded(files[..|files| - 1], key)
      + (match ReadKey(Last(files).content, key)
         case Ok(Some(v)) => [Found(v, Last(files).mtime)]
         case _ => [])
  }

  /** `read_from_all_files(key)` on the directory listing `d`. */
  function ReadFromAll<K(==), V>(d: Listing<K, V>, key: K): Result<Option<V>> {
    var files := Scan(d);
    match FirstRaise(files, key)
    case Some(x) => Raises(x)
    case None =>
      var results := Yielded(files, key);
      if results == [] then Ok(None) else Ok(Some(Last(SortByKey(results, FoundMtime)).value))
  }

  /** The value a file holding `key` yields. */
  function ValueIn<K(==), V>(e: Entry<K, V>, key: K): V
    requires Holds(key)(e)
  {
    e.content.obj.m[key]
  }

  /** A read raises exactly when some file's read raises, and it is the first such exception. */
  lemma {:induction false} FirstRaiseSpec<K, V>(files: Listing<K, V>, key: K)
    ensures FirstRaise(files, key).None? <==> forall i :: 0 <= i < |files| ==> ReadKey(files[i].content, key).Ok?
    ensures FirstRaise(files, key).Some? ==>
      exists i :: 0 <= i < |files| && ReadKey(files[i].content, key) == Raises(FirstRaise(files, key).value)
                  && forall j :: 0 <= j < i ==> ReadKey(files[j].content, key).Ok?
  {
    if files != [] {
      var front := files[..|files| - 1];
      FirstRaiseSpec(front, key);
      assert forall i :: 0 <= i < |front| ==> front[i] == files[i];
      if FirstRaise(front, key).Some? {
        var i :| 0 <= i < |front| && ReadKey(front[i].content, key) == Raises(FirstRaise(front, key).value)
                 && forall j :: 0 <= j < i ==> ReadKey(front[j].content, key).Ok?;
        assert ReadKey(files[i].content, key) == Raises(FirstRaise(files, key).value);
      } else if FirstRaise(files, key).Some? {
        var i := |files| - 1;
        assert ReadKey(files[i].content, key) == Raises(FirstRaise(files, key).value);
      }
    }
  }

  /** The `results` list is, element for element, the files that hold the key, in scan order. */
  lemma {:induction false} YieldedIsFilter<K, V>(files: Listing<K, V>, key: K)
    ensures var f := Filter(files, Holds(key));
      && |Yielded(files, key)| == |f|
      && forall i :: 0 <= i < |f| ==> Yielded(files, key)[i] == Found(ValueIn(f[i], key), f[i].mtime)
  {
    if files != [] {
      var front := files[..|files| - 1];
      YieldedIsFilter(front, key);
      assert files == front + [Last(files)];
      FilterSnoc(front, Last(files), Holds(key));
    }
  }

  /**
   * `read_from_all_files` returns None iff every consulted file reads as "nothing
   * found": missing the key, or unreadable with an IOError.
   */
  lemma ReadNoneIff<K, V>(d: Listing<K, V>, key: K)
    ensures ReadFromAll(d, key) == Ok(None)
        <==> forall i :: 0 <= i < |Scan(d)| ==> ReadKey(Scan(d)[i].content, key) == Ok(None)
  {
    var files := Scan(d);
    FirstRaiseSpec(files, key);
    YieldedIsFilter(files, key);
    FilterEmpty(files, Holds(key));
  }

  /** A read raises iff some consulted file raises, and it raises that file's exception. */
  lemma ReadRaises<K, V>(d: Listing<K, V>, key: K)
    ensures ReadFromAll(d, key).Raises?
        <==> exists i :: 0 <= i < |Scan(d)| && ReadKey(Scan(d)[i].content, key).Raises?
    ensures ReadFromAll(d, key).Raises? ==>
      exists i :: 0 <= i < |Scan(d)| && ReadKey(Scan(d)[i].content, key) == ReadFromAll(d, key)
  {
    FirstRaiseSpec(Scan(d), key);
  }

  /**
   * A value that is read comes from the newest of the files that hold the key: no
   * such file is newer, and on equal mtimes the one consulted last wins.
   */
  lemma ReadNewest<K, V>(d: Listing<K, V>, key: K, v: V)
    requires ReadFromAll(d, key) == Ok(Some(v))
    ensures var f := Filter(Scan(d), Holds(key));
      exists j :: IsNewest(f, Mtime, j) && ValueIn(f[j], key) == v
  {
    ReadIsLastSorted(d, key, v);
    NewestOfYielded(Scan(d), key);
  }

  /** A value read is the value of the last result after the sort by mtime. */
  lemma ReadIsLastSorted<K, V>(d: Listing<K, V>, key: K, v: V)
    requires ReadFromAll(d, key) == Ok(Some(v))
    ensures Yielded(Scan(d), key) != [] && v == Last(SortByKey(Yielded(Scan(d), key), FoundMtime)).value
  {
  }

  /** The last result after the sort comes from a newest file holding the key. */
  lemma NewestOfYielded<K, V>(files: Listing<K, V>, key: K)
    requires Yielded(files, key) != []
    ensures var f := Filter(files, Holds(key));
      exists j :: IsNewest(f, Mtime, j) && ValueIn(f[j], key) == Last(SortByKey(Yielded(files, key), FoundMtime)).value
  {
    var f := Filter(files, Holds(key));
    var results := Yielded(files, key);
    YieldedIsFilter(files, key);
    SortLastIsNewest(results, FoundMtime);
    var j :| IsNewest(results, FoundMtime, j) && Last(SortByKey(results, FoundMtime)) == results[j];
    assert forall i :: 0 <= i < |f| ==> FoundMtime(results[i]) == Mtime(f[i]) by {
      forall i | 0 <= i < |f| ensures FoundMtime(results[i]) == Mtime(f[i]) {
        assert results[i] == Found(ValueIn(f[i], key), f[i].mtime);
      }
    }
    NewestTransfer(results, FoundMtime, f, Mtime, j);
    assert results[j] == Found(ValueIn(f[j], key), f[j].mtime);
    assert IsNewest(f, Mtime, j) && ValueIn(f[j], key) == Last(SortByKey(results, FoundMtime)).value;
  }

  // ----- merge -----

  /** `result.update(pickle.load(file(f)))` for one tmp file `e`. */
  function Step<K(==), V>(acc: Obj<K, V>, e: Entry<K, V>): Result<Obj<K, V>> {
    if acc.NoneObj? then Raises(AttributeError)          // `None.update` fails before the load
    else
      match e.content
      case IOFailure => Raises(IOError)
      case Corrupt => Raises(UnpicklingError)
      case Loads(NoneObj) => Raises(TypeError)            // `dict.update(None)`
      case Loads(Dict(m)) => Ok(Dict(acc.m + m))
  }

  /** The update loop over `files`, in order, starting from `base`. */
  function MergeFold<K(==), V>(base: Obj<K, V>, files: Listing<K, V>): Result<Obj<K, V>> {
    if files == [] then Ok(base)
    else
      match MergeFold(base, files[..|files| - 1])
      case Raises(x) => Raises(x)
      case Ok(acc) => Step(acc, Last(files))
  }

  /** What `merge` starts from: the `merged` dict, or `{}` when there is no merged file. */
  function MergeBase<K(==), V>(d: Listing<K, V>): Result<Obj<K, V>> {
    match Lookup(d, MergedName)
    case None => Ok(Dict(map[]))
    case Some(e) => ReadDict(e.content)
  }

  /** The tmp files in the order `merge` applies them: ascending mtime, stable. */
  function MergeOrder<K(==), V>(d: Listing<K, V>): Listing<K, V> {
    SortByKey(TmpEntries(d), Mtime)
  }

  /** The object `merge` dumps to the `merged` file, or the exception it raises before. */
  function MergedObj<K(==), V>(d: Listing<K, V>): Result<Obj<K, V>> {
    match MergeBase(d)
    case Raises(x) => Raises(x)
    case Ok(b) => MergeFold(b, MergeOrder(d))
  }

  /**
   * `merge(clear)` at time `now`: the new listing, or the exception raised before
   * anything was written (by a read, the update loop or the dump of `merged`).
   * With `clear`, the tmp files are deleted only when the freshly written
   * `merged` file loads again.
   */
  function MergeSpec<K(==), V>(d: Listing<K, V>, clear: bool, now: int, dump: Dumper<Obj<K, V>>)
    : Result<Listing<K, V>>
  {
    match MergedObj(d)
    case Raises(x) => Raises(x)
    case Ok(res) =>
      match dump(res)
      case Raises(x) => Raises(x)
      case Ok(c) =>
        var d1 := Write(d, MergedName, now, c);
        Ok(if clear && c.Loads? then Filter(d1, NotTmp) else d1)
  }

  /** Once the accumulator is `None`, the next `update` raises AttributeError. */
  lemma {:induction false} FoldOnNone<K, V>(files: Listing<K, V>)
    ensures files != [] ==> MergeFold(NoneObj, files) == Raises(AttributeError)
  {
    if |files| > 1 {
      FoldOnNone(files[..|files| - 1]);
    }
  }

  /** A fold that succeeds started from a dict and saw only dicts, and yields a dict. */
  lemma {:induction false} FoldOk<K, V>(base: Obj<K, V>, files: Listing<K, V>)
    requires MergeFold(base, files).Ok?
    ensures files != [] ==> base.Dict?
    ensures base.Dict? ==> MergeFold(base, files).value.Dict?
    ensures forall i :: 0 <= i < |files| ==> files[i].content.Loads? && files[i].content.obj.Dict?
  {
    if files != [] {
      var front := files[..|files| - 1];
      FoldOk(base, front);
      FoldOnNone(files);
      assert forall i :: 0 <= i < |front| ==> front[i] == files[i];
    }
  }

  /** Folding over files that all hold dicts, from a dict, succeeds. */
  lemma {:induction false} FoldDicts<K, V>(base: map<K, V>, files: Listing<K, V>)
    requires forall i :: 0 <= i < |files| ==> files[i].content.Loads? && files[i].content.obj.Dict?
    ensures MergeFold(Dict(base), files).Ok? && MergeFold(Dict(base), files).value.Dict?
  {
    if files != [] {
      var front := files[..|files| - 1];
      assert forall i :: 0 <= i < |front| ==> front[i] == files[i];
      FoldDicts(base, front);
    }
  }

  /**
   * Per key, the folded dict holds the value of the last file that holds the key,
   * or else the base value.
   */
  lemma {:induction false} FoldKey<K, V>(b: map<K, V>, files: Listing<K, V>, key: K)
    requires MergeFold(Dict(b), files).Ok?
    ensures MergeFold(Dict(b), files).value.Dict?
    ensures var r := MergeFold(Dict(b), files).value.m;
      var f := Filter(files, Holds(key));
      && (f == [] ==> (key in r <==> key in b) && (key in b ==> r[key] == b[key]))
      && (f != [] ==> key in r && r[key] == ValueIn(Last(f), key))
  {
    FoldOk(Dict(b), files);
    if files != [] {
      var front := files[..|files| - 1];
      var x := Last(files);
      FoldKey(b, front, key);
      assert files == front + [x];
      FilterSnoc(front, x, Holds(key));
    }
  }

  /**
   * `merge` writes, for every key, the value of the newest tmp file holding it
   * (ties: the later listed), and the old merged value for keys no tmp file holds.
   */
  lemma MergeNewestWins<K, V>(d: Listing<K, V>, key: K, b: map<K, V>)
    requires MergeBase(d) == Ok(Dict(b)) && MergedObj(d).Ok?
    ensures MergedObj(d).value.Dict?
    ensures var r := MergedObj(d).value.m;
      var f := Filter(TmpEntries(d), Holds(key));
      && (f == [] ==> (key in r <==> key in b) && (key in b ==> r[key] == b[key]))
      && (f != [] ==> exists j :: IsNewest(f, Mtime, j) && key in r && r[key] == ValueIn(f[j], key))
  {
    var order := MergeOrder(d);
    FoldKey(b, order, key);
    FilterSort(TmpEntries(d), Mtime, Holds(key));
    var f := Filter(TmpEntries(d), Holds(key));
    if f != [] {
      LastMatchIsNewest(TmpEntries(d), Mtime, Holds(key));
    }
  }

  /** With an existing `merged` file that loads as None, `merge` raises before writing, if there is any tmp file. */
  lemma MergeOnNoneRaises<K, V>(d: Listing<K, V>, clear: bool, now: int, dump: Dumper<Obj<K, V>>)
    requires Lookup(d, MergedName).Some? && ReadDict(Lookup(d, MergedName).value.content) == Ok(NoneObj)
    requires TmpEntries(d) != []
    ensures MergeSpec(d, clear, now, dump) == Raises(AttributeError)
  {
    FoldOnNone(MergeOrder(d));
  }

  /** Folding the same files a second time over the result changes nothing. */
  lemma FoldIdempotent<K, V>(b: map<K, V>, files: Listing<K, V>)
    requires MergeFold(Dict(b), files).Ok?
    ensures MergeFold(MergeFold(Dict(b), files).value, files) == MergeFold(Dict(b), files)
  {
    FoldOk(Dict(b), files);
    var r := MergeFold(Dict(b), files).value.m;
    FoldDicts(r, files);
    var r2 := MergeFold(Dict(r), files).value.m;
    forall key | key in r2 ensures key in r {
      FoldKey(b, files, key);
      FoldKey(r, files, key);
    }
    forall key | key in r ensures key in r2 && r2[key] == r[key] {
      FoldKey(b, files, key);
      FoldKey(r, files, key);
    }
    assert r2 == r;
  }

  /**
   * The serializer writes and round-trips (`pickle.load(pickle.dump(o))` gives `o` back).
   */
  ghost predicate Faithful<K(!new), V(!new)>(dump: Dumper<Obj<K, V>>) {
    forall o :: dump(o) == Ok(Loads(o))
  }

  /**
   * Merging is idempotent: merging again, with no new tmp file, writes the same
   * merged object.
   */
  lemma MergeTwice<K(!new), V(!new)>(d: Listing<K, V>, now: int, dump: Dumper<Obj<K, V>>)
    requires Faithful(dump)
    requires MergeSpec(d, false, now, dump).Ok?
    ensures MergedObj(MergeSpec(d, false, now, dump).value) == MergedObj(d)
  {
    var res := MergedObj(d).value;
    var d1 := MergeSpec(d, false, now, dump).value;
    assert d1 == Write(d, MergedName, now, Loads(res));
    MergedNotTmp<K, V>();
    WriteKeepsTmp(d, MergedName, now, Loads(res));
    assert MergeOrder(d1) == MergeOrder(d);
    assert MergeBase(d1) == Ok(res);
    var b := MergeBase(d).value;
    FoldOk(b, MergeOrder(d));
    if b.Dict? {
      FoldIdempotent(b.m, MergeOrder(d));
    }
  }

  /**
   * `merge(clear=True)`: the new `merged` file is written at `now`; the tmp files
   * are gone iff it loads again, and otherwise the directory only gained `merged`.
   */
  lemma ClearOutcome<K, V>(d: Listing<K, V>, now: int, dump: Dumper<Obj<K, V>>)
    requires MergeSpec(d, true, now, dump).Ok?
    ensures MergedObj(d).Ok? && dump(MergedObj(d).value).Ok?
    ensures var d' := MergeSpec(d, true, now, dump).value;
      var c := dump(MergedObj(d).value).value;
      && Lookup(d', MergedName) == Some(Entry(MergedName, now, c))
      && (c.Loads? ==> TmpEntries(d') == [])
      && (!c.Loads? ==> TmpEntries(d') == TmpEntries(d))
      && (forall e :: e in d && !IsTmp(e) && e.name != MergedName ==> e in d')
  {
    var c := dump(MergedObj(d).value).value;
    var d1 := Write(d, MergedName, now, c);
    MergedNotTmp<K, V>();
    WriteKeepsTmp(d, MergedName, now, c);
    forall e | e in d && !IsTmp(e) && e.name != MergedName ensures e in d1 {
      var i :| 0 <= i < |d| && d[i] == e;
      assert IndexOf(d, MergedName) != i;
      if IndexOf(d, MergedName) >= 0 {
        assert d1[i] == e;
      } else {
        assert d1[i] == e;
      }
    }
    if c.Loads? {
      MergedNotTmp<K, V>();
      LookupFilter(d1, NotTmp, MergedName);
      FilterFilter(d1, NotTmp, IsTmp, (e: Entry<K, V>) => false);
      FilterEmpty(d1, (e: Entry<K, V>) => false);
      FilterElements(d1, NotTmp);
    }
  }

  /**
   * After a clearing merge whose `merged` file loads again, a read of any key
   * returns exactly what the merged dict holds: nothing held by a tmp file is lost.
   */
  lemma ReadAfterClear<K(!new), V(!new)>(d: Listing<K, V>, now: int, dump: Dumper<Obj<K, V>>, key: K)
    requires Faithful(dump)
    requires MergeSpec(d, true, now, dump).Ok? && MergedObj(d).value.Dict?
    ensures var r := MergedObj(d).value.m;
      ReadFromAll(MergeSpec(d, true, now, dump).value, key) == Ok(if key in r then Some(r[key]) else None)
  {
    var d' := MergeSpec(d, true, now, dump).value;
    ClearOutcome(d, now, dump);
    var e := Entry(MergedName, now, dump(MergedObj(d).value).value);
    assert e.content == Loads(MergedObj(d).value);
    assert Scan(d') == [e];
    ReadOnlyMerged(d', e, key);
  }

  /** With `merged` the only file consulted, a read answers from its dict. */
  lemma ReadOnlyMerged<K, V>(d: Listing<K, V>, e: Entry<K, V>, key: K)
    requires Scan(d) == [e] && e.content.Loads? && e.content.obj.Dict?
    ensures var r := e.content.obj.m;
      ReadFromAll(d, key) == Ok(if key in r then Some(r[key]) else None)
  {
    assert [e][..0] == [];
    assert FirstRaise([e], key) == None;
    var r := e.content.obj.m;
    if key in r {
      assert Yielded([e], key) == [Found(r[key], e.mtime)];
      assert SortByKey([Found(r[key], e.mtime)], FoundMtime) == [Found(r[key], e.mtime)];
    } else {
      assert Yielded([e], key) == [];
    }
  }

  /**
   * Once the update loop has produced `res`, the dump of `merged` decides: a
   * raising dump is what `merge` raises, with nothing written; otherwise the new
   * `merged` file is written and, with `clear`, the tmp files go iff it loads.
   */
  lemma MergeSpecOk<K, V>(d: Listing<K, V>, clear: bool, now: int, dump: Dumper<Obj<K, V>>, res: Obj<K, V>)
    requires MergeBase(d).Ok? && MergeFold(MergeBase(d).value, MergeOrder(d)) == Ok(res)
    ensures dump(res).Raises? ==> MergeSpec(d, clear, now, dump) == Raises(dump(res).exc)
    ensures dump(res).Ok? ==> var d1 := Write(d, MergedName, now, dump(res).value);
      MergeSpec(d, clear, now, dump) == Ok(if clear && dump(res).value.Loads? then Filter(d1, NotTmp) else d1)
  {
  }

  /** Every file the reader consults is a file of the directory. */
  lemma ScanFromDir<K, V>(d: Listing<K, V>)
    ensures forall x :: x in Scan(d) ==> x in d
  {
    TmpEntriesAre(d);
  }

  /**
   * A value just added is what every reader sees: once the session's tmp file is
   * written at a time later than every other file, and no other file makes the
   * read raise, `read_from_all_files` returns the new value.
   */
  lemma AddVisible<K, V>(d: Listing<K, V>, name: string, now: int, m: map<K, V>, key: K)
    requires StartsWith(name, TmpPrefix) && key in m
    requires forall i :: 0 <= i < |d| ==> d[i].mtime < now
    requires forall i :: 0 <= i < |d| ==> ReadKey(d[i].content, key).Ok?
    ensures ReadFromAll(Write(d, name, now, Loads(Dict(m))), key) == Ok(Some(m[key]))
  {
    var e := Entry(name, now, Loads(Dict(m)));
    var files := Scan(Write(d, name, now, Loads(Dict(m))));
    AddedScan(d, name, now, m, key);
    NewestFileWins(files, e, key);
  }

  /** A file strictly newer than every other, holding the key, decides the read. */
  lemma NewestFileWins<K, V>(files: Listing<K, V>, e: Entry<K, V>, key: K)
    requires e in files && e.content.Loads? && e.content.obj.Dict? && key in e.content.obj.m
    requires forall i :: 0 <= i < |files| ==> ReadKey(files[i].content, key).Ok? && (files[i].mtime < e.mtime || files[i] == e)
    ensures FirstRaise(files, key) == None
    ensures Yielded(files, key) != [] && Last(SortByKey(Yielded(files, key), FoundMtime)).value == e.content.obj.m[key]
  {
    FirstRaiseSpec(files, key);
    var f := Filter(files, Holds(key));
    FilterElements(files, Holds(key));
    var k :| 0 <= k < |f| && f[k] == e;
    YieldedIsFilter(files, key);
    NewestOfYielded(files, key);
    var j :| IsNewest(f, Mtime, j) && ValueIn(f[j], key) == Last(SortByKey(Yielded(files, key), FoundMtime)).value;
    assert f[j] in files;
    var i :| 0 <= i < |files| && files[i] == f[j];
    assert Mtime(f[k]) <= Mtime(f[j]);
    assert f[j] == e by {
      assert files[i].mtime < e.mtime || files[i] == e;
    }
  }

  /** After the write, the consulted files are the new one and older, readable ones. */
  lemma AddedScan<K, V>(d: Listing<K, V>, name: string, now: int, m: map<K, V>, key: K)
    requires StartsWith(name, TmpPrefix) && key in m
    requires forall i :: 0 <= i < |d| ==> d[i].mtime < now
    requires forall i :: 0 <= i < |d| ==> ReadKey(d[i].content, key).Ok?
    ensures var e := Entry(name, now, Loads(Dict(m)));
      var files := Scan(Write(d, name, now, Loads(Dict(m))));
      && e in files
      && forall i :: 0 <= i < |files| ==> ReadKey(files[i].content, key).Ok? && (files[i].mtime < now || files[i] == e)
  {
    var e := Entry(name, now, Loads(Dict(m)));
    var d' := Write(d, name, now, Loads(Dict(m)));
    var files := Scan(d');
    assert e in TmpEntries(d') by {
      TmpEntriesAre(d');
      assert d'[IndexOf(d', name)] == e;
    }
    assert e in files;
    forall i | 0 <= i < |files| ensures ReadKey(files[i].content, key).Ok? && (files[i].mtime < now || files[i] == e) {
      var x := files[i];
      assert x in d' by {
        ScanFromDir(d');
      }
      var j :| 0 <= j < |d'| && d'[j] == x;
      if x != e {
        var k :| 0 <= k < |d| && d[k] == x;
      }
    }
  }

  lemma {:induction false} FirstRaisePrefix<K, V>(files: Listing<K, V>, n: nat, key: K)
    requires n <= |files| && FirstRaise(files[..n], key).Some?
    ensures FirstRaise(files, key) == FirstRaise(files[..n], key)
  {
    if n < |files| {
      var front := files[..|files| - 1];
      assert front[..n] == files[..n];
      FirstRaisePrefix(front, n, key);
    } else {
      assert files[..n] == files;
    }
  }

  lemma {:induction false} FoldRaisePrefix<K, V>(base: Obj<K, V>, files: Listing<K, V>, n: nat)
    requires n <= |files| && MergeFold(base, files[..n]).Raises?
    ensures MergeFold(base, files) == MergeFold(base, files[..n])
  {
    if n < |files| {
      var front := files[..|files| - 1];
      assert front[..n] == files[..n];
      FoldRaisePrefix(base, front, n);
    } else {
      assert files[..n] == files;
    }
  }

  /** Folding in one more file is one more `Step`. */
  lemma FoldStep<K, V>(base: Obj<K, V>, files: Listing<K, V>, i: nat, acc: Obj<K, V>)
    requires i < |files| && MergeFold(base, files[..i]) == Ok(acc)
    ensures MergeFold(base, files[..i + 1]) == Step(acc, files[i])
  {
    assert files[..i + 1][..i] == files[..i];
  }

  /** Removing the tmp files one by one, by name, leaves exactly the other files. */
  lemma RemoveStep<K, V>(d: Listing<K, V>, tmps: Listing<K, V>, j: int)
    requires 0 <= j < |tmps|
    ensures Remove(Filter(d, NotAmong(Names(tmps[..j]))), tmps[j].name) == Filter(d, NotAmong(Names(tmps[..j + 1])))
  {
    var ns, n := Names(tmps[..j]), tmps[j].name;
    assert tmps[..j + 1] == tmps[..j] + [tmps[j]];
    NamesSnoc(tmps[..j], tmps[j]);
    FilterFilter(d, NotAmong(ns), (e: Entry<K, V>) => e.name != n, NotAmong(ns + [n]));
  }

  lemma RemovedAllTmp<K, V>(d: Listing<K, V>)
    ensures Filter(d, NotAmong(Names(TmpEntries(d)[..|TmpEntries(d)|]))) == Filter(d, NotTmp)
  {
    var tmps := TmpEntries(d);
    assert tmps[..|tmps|] == tmps;
    var ns := Names(tmps);
    TmpEntriesAre(d);
    forall i | 0 <= i < |d| ensures NotAmong(ns)(d[i]) == NotTmp(d[i]) {
      if IsTmp(d[i]) {
        var k :| 0 <= k < |tmps| && tmps[k] == d[i];
        assert ns[k] == d[i].name;
      }
    }
    FilterExt(d, NotAmong(ns), NotTmp);
  }

  /** Two writes of the same directory: the second is what remains. */
  lemma UpdateTwice<A, B>(m: map<A, B>, k: A, x: B, y: B)
    ensures m[k := x][k := y] == m[k := y]
  {
  }

  /** A cache session on one directory (`MergingDirDB`). */
  class MergingDirDB<K(==), V> {
    const disk: Disk<K, V>
    const directory: string
    /** The name of this session's own file, `tmp_<uuid>`. */
    const uniqueTmpFile: string
    /** `pickle.dump` followed by `pickle.load`: what a written object reads back as. */
    const dump: Dumper<Obj<K, V>>
    /** `data_dict`: everything this session has added. */
    var dataDict: map<K, V>

    ghost predicate Valid()
      reads this, disk
    {
      directory in disk.dirs && StartsWith(uniqueTmpFile, TmpPrefix)
    }

    /** The listing of the cache directory. */
    function Dir(): Listing<K, V>
      reads this, disk
      requires Valid()
    {
      disk.dirs[directory]
    }

    /**
     * `MergingDirDB(directory)`, with `uuid` the session's `uuid4()`.  The source
     * relies on that name being new to the directory; the model does not assume
     * it: should a file of that name exist, the session's first `add` replaces it.
     */
    constructor (disk: Disk<K, V>, directory: string, uuid: string, dump: Dumper<Obj<K, V>>)
      modifies disk
      ensures Valid()
      ensures this.disk == disk && this.directory == directory && this.dump == dump
      ensures uniqueTmpFile == TmpPrefix + uuid && dataDict == map[]
      ensures disk.dirs == if directory in old(disk.dirs) then old(disk.dirs) else old(disk.dirs)[directory := []]
    {
      this.disk := disk;
      this.directory := directory;
      this.dump := dump;
      this.uniqueTmpFile := TmpPrefix + uuid;
      this.dataDict := map[];
      new;
      assert (TmpPrefix + uuid)[..|TmpPrefix|] == TmpPrefix;
      if directory !in disk.dirs {
        disk.dirs := disk.dirs[directory := []];
      }
    }

    /** `read_from_all_files(key)` */
    method ReadFromAllFiles(key: K) returns (r: Result<Option<V>>)
      requires Valid()
      ensures r == ReadFromAll(Dir(), key)
    {
      var files := Scan(Dir());
      var results: seq<Found<V>> := [];
      var i := 0;
      while i < |files|
        invariant 0 <= i <= |files|
        invariant FirstRaise(files[..i], key) == None
        invariant results == Yielded(files[..i], key)
      {
        assert files[..i + 1][..i] == files[..i];
        var result := ReadKey(files[i].content, key);
        if result.Raises? {
          FirstRaisePrefix(files, i + 1, key);
          return Raises(result.exc);
        }
        if result.value.Some? {
          results := results + [Found(result.value.value, files[i].mtime)];
        }
        i := i + 1;
      }
      assert files[..i] == files;
      if |results| == 0 {
        return Ok(None);
      }
      results := SortByKey(results, FoundMtime);
      r := Ok(Some(results[|results| - 1].value));
    }

    /** `get(key)`: this session's own value first, else whatever the files hold. */
    method Get(key: K) returns (r: Result<Option<V>>)
      requires Valid()
      ensures key in dataDict ==> r == Ok(Some(dataDict[key]))
      ensures key !in dataDict ==> r == ReadFromAll(Dir(), key)
    {
      if key in dataDict {
        return Ok(Some(dataDict[key]));
      }
      r := ReadFromAllFiles(key);
    }

    /** `contains(key)`: `get(key) is not None`. */
    method Contains(key: K) returns (r: Result<bool>)
      requires Valid()
      ensures key in dataDict ==> r == Ok(true)
      ensures key !in dataDict ==> (r.Ok? <==> ReadFromAll(Dir(), key).Ok?)
      ensures key !in dataDict && r.Ok? ==> (r.value <==> ReadFromAll(Dir(), key).value.Some?)
      ensures key !in dataDict && r.Raises? ==> ReadFromAll(Dir(), key) == Raises(r.exc)
    {
      var v := Get(key);
      match v
      case Raises(x) => r := Raises(x);
      case Ok(o) => r := Ok(o.Some?);
    }

    /**
     * `add(key, data, overwrite)`: without `overwrite`, a key some file already
     * holds is refused and nothing changes; otherwise the key goes into the
     * session dict and the whole dict is written to the session's own tmp file.
     * Every path that returns gives back the argument `data`; a write that raises
     * propagates, with the session dict already updated and no file written.
     */
    method Add(key: K, data: V, overwrite: bool, now: int) returns (r: Result<V>)
      requires Valid()
      modifies this, disk
      ensures Valid()
      ensures var found := old(ReadFromAll(Dir(), key));
        && (!overwrite && found.Raises? ==>
              r == Raises(found.exc) && dataDict == old(dataDict) && disk.dirs == old(disk.dirs))
        && (!overwrite && found.Ok? && found.value.Some? ==>
              r == Ok(data) && dataDict == old(dataDict) && disk.dirs == old(disk.dirs))
        && (overwrite || found == Ok(None) ==>
              && dataDict == old(dataDict)[key := data]
              && (dump(Dict(dataDict)).Raises? ==>
                    r == Raises(dump(Dict(dataDict)).exc) && disk.dirs == old(disk.dirs))
              && (dump(Dict(dataDict)).Ok? ==>
                    && r == Ok(data)
                    && disk.dirs == old(disk.dirs)[directory := Write(old(Dir()), uniqueTmpFile, now, dump(Dict(dataDict)).value)]))
    {
      if !overwrite {
        var found := ReadFromAllFiles(key);
        if found.Raises? {
          return Raises(found.exc);
        }
        if found.value.Some? {
          return Ok(data);
        }
      }
      dataDict := dataDict[key := data];
      var written := dump(Dict(dataDict));
      if written.Raises? {
        return Raises(written.exc);
      }
      disk.dirs := disk.dirs[directory := Write(disk.dirs[directory], uniqueTmpFile, now, written.value)];
      r := Ok(data);
    }

    /**
     * The update loop of `merge`: the tmp files sorted by mtime, each loaded and
     * folded into `result`.
     */
    method UpdateFromTmpFiles(base: Obj<K, V>) returns (r: Result<Obj<K, V>>)
      requires Valid()
      ensures r == MergeFold(base, MergeOrder(Dir()))
    {
      var result := base;
      var results := SortByKey(TmpEntries(Dir()), Mtime);
      var i := 0;
      while i < |results|
        invariant 0 <= i <= |results|
        invariant MergeFold(base, results[..i]) == Ok(result)
      {
        FoldStep(base, results, i, result);
        var step := Step(result, results[i]);
        if step.Raises? {
          FoldRaisePrefix(base, results, i + 1);
          return Raises(step.exc);
        }
        result := step.value;
        i := i + 1;
      }
      assert results[..i] == results;
      r := Ok(result);
    }

    /** `for f in self.tmp_files(): os.remove(f)` */
    method RemoveTmpFiles()
      requires Valid()
      modifies disk
      ensures Valid()
      ensures disk.dirs == old(disk.dirs)[directory := Filter(old(Dir()), NotTmp)]
    {
      ghost var dirs1 := disk.dirs;
      var d1 := Dir();
      var tmps := TmpEntries(d1);
      FilterAll(d1, NotAmong(Names(tmps[..0])));
      var j := 0;
      while j < |tmps|
        invariant 0 <= j <= |tmps|
        invariant disk.dirs == dirs1[directory := Filter(d1, NotAmong(Names(tmps[..j])))]
      {
        RemoveStep(d1, tmps, j);
        disk.dirs := disk.dirs[directory := Remove(disk.dirs[directory], tmps[j].name)];
        UpdateTwice(dirs1, directory, Filter(d1, NotAmong(Names(tmps[..j]))), Filter(d1, NotAmong(Names(tmps[..j + 1]))));
        j := j + 1;
      }
      RemovedAllTmp(d1);
    }

    /**
     * `merge(clear)` at time `now`: the new listing is `MergeSpec`; when it raises,
     * nothing has been written.
     */
    method Merge(clear: bool, now: int) returns (r: Result<()>)
      requires Valid()
      modifies disk
      ensures Valid()
      ensures var spec := MergeSpec(old(Dir()), clear, now, dump);
        && (spec.Raises? ==> r == Raises(spec.exc) && disk.dirs == old(disk.dirs))
        && (spec.Ok? ==> r == Ok(()) && disk.dirs == old(disk.dirs)[directory := spec.value])
    {
      var d := Dir();
      var result: Obj<K, V>;
      var merged := Lookup(d, MergedName);
      if merged.Some? {
        var loaded := ReadDict(merged.value.content);
        if loaded.Raises? {
          return Raises(loaded.exc);
        }
        result := loaded.value;
      } else {
        result := Dict(map[]);
      }
      var folded := UpdateFromTmpFiles(result);
      if folded.Raises? {
        return Raises(folded.exc);
      }
      result := folded.value;
      MergeSpecOk(d, clear, now, dump, result);
      var written := dump(result);
      if written.Raises? {
        return Raises(written.exc);
      }
      ghost var dirs0 := disk.dirs;
      var d1 := Write(d, MergedName, now, written.value);
      disk.dirs := disk.dirs[directory := d1];
      if clear && Lookup(d1, MergedName).Some? {
        if !written.value.Loads? {
          // the merged file does not load again: the tmp files stay
          return Ok(());
        }
        RemoveTmpFiles();
        UpdateTwice(dirs0, directory, d1, Filter(d1, NotTmp));
      }
      r := Ok(());
    }
  }
}
