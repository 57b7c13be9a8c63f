/**
 * The on-disk state the result caches work on.  A directory is the listing of its
 * files, in `os.listdir` order; each file has a name, a modification time and a
 * content, which is what `pickle.load` makes of it.  Writing a file replaces an
 * existing file of that name in place or adds it at the end of the listing.
 */
module FileStore {
  import opened Wrappers
  import opened PyStr
  import opened StableSort

  /** The object a cache file holds once unpickled: a dict, or `None`. */
  datatype Obj<K(==), V> = Dict(m: map<K, V>) | NoneObj

  /** What `pickle.load(file(f))` does for a file. */
  datatype Content<T> =
    | Loads(obj: T)   // unpickles to `obj`
    | IOFailure       // opening or reading the file raises IOError
    | Corrupt         // a truncated or malformed pickle

  /**
   * `pickle.dump(o, file(f, 'w'))` and what the file then loads back as: `Ok(c)`
   * when the file is written and loads as `c`; `Raises(x)` when opening the file
   * for writing or pickling `o` raises `x`, and then nothing is written.
   */
  type Dumper<!T> = T -> Result<Content<T>>

  datatype Entry<K(==), V> = Entry(name: string, mtime: int, content: Content<Obj<K, V>>)

  type Listing<K(==), V> = seq<Entry<K, V>>

  const TmpPrefix: string := "tmp_"
  const MergedName: string := "merged"

  function Mtime<K(==), V>(e: Entry<K, V>): int { e.mtime }

  /** `f.startswith('tmp_')` */
  predicate IsTmp<K(==), V>(e: Entry<K, V>) { StartsWith(e.name, TmpPrefix) }

  predicate NotTmp<K(==), V>(e: Entry<K, V>) { !IsTmp(e) }

  /** The file unpickles to a dict that has `key`. */
  function Holds<K(==), V>(key: K): Entry<K, V> -> bool {
    (e: Entry<K, V>) => e.content.Loads? && e.content.obj.Dict? && key in e.content.obj.m
  }

  /**
   * `read_key_from_file` on an existing file: only IOError is swallowed; a
   * corrupt pickle propagates, and a pickled `None` fails on `has_key`.
   */
  function ReadKey<K(==), V>(c: Content<Obj<K, V>>, key: K): (r: Result<Option<V>>)
    ensures r == Ok(None) <==> c.IOFailure? || (c.Loads? && c.obj.Dict? && key !in c.obj.m)
    ensures r == Raises(UnpicklingError) <==> c.Corrupt?
    ensures r == Raises(AttributeError) <==> c == Loads(NoneObj)
    ensures r.Ok? && r.value.Some? <==> c.Loads? && c.obj.Dict? && key in c.obj.m
    ensures r.Ok? && r.value.Some? ==> r.value.value == c.obj.m[key]
  {
    match c
    case IOFailure => Ok(None)
    case Corrupt => Raises(UnpicklingError)
    case Loads(NoneObj) => Raises(AttributeError)
    case Loads(Dict(m)) => if key in m then Ok(Some(m[key])) else Ok(None)
  }

  /** `read_dict_from_file` on an existing file: an IOError reads as `None`. */
  function ReadDict<K(==), V>(c: Content<Obj<K, V>>): (r: Result<Obj<K, V>>)
    ensures r.Raises? <==> c.Corrupt?
    ensures c.IOFailure? ==> r == Ok(NoneObj)
    ensures c.Loads? ==> r == Ok(c.obj)
  {
    match c
    case IOFailure => Ok(NoneObj)
    case Corrupt => Raises(UnpicklingError)
    case Loads(o) => Ok(o)
  }

  /** Position of the first file called `name`, or -1. */
  function IndexOf<K(==), V>(d: Listing<K, V>, name: string): (i: int)
    ensures -1 <= i < |d|
    ensures i >= 0 ==> d[i].name == name
    ensures forall j :: 0 <= j < |d| && (i < 0 || j < i) ==> d[j].name != name
  {
    if d == [] then -1
    else if d[0].name == name then 0
    else
      var i := IndexOf(d[1..], name);
      if i < 0 then -1 else i + 1
  }

  lemma IndexOfFirst<K, V>(d: Listing<K, V>, name: string, k: int)
    requires 0 <= k < |d| && d[k].name == name
    requires forall j :: 0 <= j < k ==> d[j].name != name
    ensures IndexOf(d, name) == k
  {
  }

  /** `os.path.exists` and the file itself. */
  function Lookup<K(==), V>(d: Listing<K, V>, name: string): Option<Entry<K, V>> {
    var i := IndexOf(d, name);
    if i < 0 then None else Some(d[i])
  }

  /** `pickle.dump(obj, file(name, 'w'))` at time `now`, with `c` what was written. */
  function Write<K(==), V>(d: Listing<K, V>, name: string, now: int, c: Content<Obj<K, V>>): (r: Listing<K, V>)
    ensures Lookup(r, name) == Some(Entry(name, now, c))
    ensures forall i :: 0 <= i < |r| ==> r[i] == Entry(name, now, c) || r[i] in d
  {
    var i := IndexOf(d, name);
    var r := if i < 0 then d + [Entry(name, now, c)] else d[i := Entry(name, now, c)];
    IndexOfFirst(r, name, if i < 0 then |d| else i);
    r
  }

  /** No two files of the listing share a name, as in a real directory. */
  predicate DistinctNames<K(==), V>(d: Listing<K, V>) {
    forall i, j :: 0 <= i < j < |d| ==> d[i].name != d[j].name
  }

  /** A write replaces the file of that name or adds one: it never makes a name appear twice. */
  lemma WriteKeepsNamesDistinct<K, V>(d: Listing<K, V>, name: string, now: int, c: Content<Obj<K, V>>)
    requires DistinctNames(d)
    ensures DistinctNames(Write(d, name, now, c))
  {
    var i := IndexOf(d, name);
    var r := Write(d, name, now, c);
    if i < 0 {
      assert r == d + [Entry(name, now, c)];
    } else {
      assert r == d[i := Entry(name, now, c)];
    }
  }

  /** Writing one file leaves every other file as it was: writers do not interfere. */
  lemma WriteOthers<K, V>(d: Listing<K, V>, name: string, now: int, c: Content<Obj<K, V>>, other: string)
    requires other != name
    ensures Lookup(Write(d, name, now, c), other) == Lookup(d, other)
  {
    var r := Write(d, name, now, c);
    var a, b := IndexOf(r, other), IndexOf(d, other);
    assert forall j :: 0 <= j < |d| && r[j].name == other ==> r[j] == d[j];
    if a >= 0 && a < |d| {
      assert d[a].name == other;
    }
    if b >= 0 {
      assert r[b].name == other;
    }
  }

  /** `self.tmp_files()`: the files whose name starts with `tmp_`, in listing order. */
  function TmpEntries<K(==), V>(d: Listing<K, V>): Listing<K, V> {
    Filter(d, IsTmp)
  }

  lemma TmpEntriesAre<K, V>(d: Listing<K, V>)
    ensures forall e :: e in TmpEntries(d) ==> e in d && IsTmp(e)
    ensures forall e :: e in d && IsTmp(e) ==> e in TmpEntries(d)
  {
    FilterElements(d, IsTmp);
  }

  lemma MergedNotTmp<K, V>()
    ensures !StartsWith(MergedName, TmpPrefix)
    ensures forall e: Entry<K, V> :: e.name == MergedName ==> NotTmp(e)
  {
    assert MergedName[0] != TmpPrefix[0];
  }

  /** Writing a file whose name does not start with `tmp_` leaves the tmp files as they were. */
  lemma WriteKeepsTmp<K, V>(d: Listing<K, V>, name: string, now: int, c: Content<Obj<K, V>>)
    requires !StartsWith(name, TmpPrefix)
    ensures TmpEntries(Write(d, name, now, c)) == TmpEntries(d)
  {
    var i := IndexOf(d, name);
    if i < 0 {
      FilterSnoc(d, Entry(name, now, c), IsTmp);
    } else {
      FilterUpdate(d, i, Entry(name, now, c), IsTmp);
    }
  }

  lemma LookupSnoc<K, V>(d: Listing<K, V>, x: Entry<K, V>, name: string)
    ensures Lookup(d + [x], name)
         == if Lookup(d, name).Some? then Lookup(d, name)
            else if x.name == name then Some(x) else None
  {
    var r := d + [x];
    var i := IndexOf(d, name);
    if i >= 0 {
      IndexOfFirst(r, name, i);
    } else if x.name == name {
      IndexOfFirst(r, name, |d|);
    } else {
      assert forall j :: 0 <= j < |d| ==> r[j] == d[j];
    }
  }

  /** A filter that keeps every file called `name` does not change what `name` finds. */
  lemma {:induction false} LookupFilter<K, V>(d: Listing<K, V>, p: Entry<K, V> -> bool, name: string)
    requires forall e: Entry<K, V> :: e.name == name ==> p(e)
    ensures Lookup(Filter(d, p), name) == Lookup(d, name)
  {
    if d != [] {
      var front := d[..|d| - 1];
      var x := Last(d);
      assert d == front + [x];
      LookupFilter(front, p, name);
      LookupSnoc(front, x, name);
      FilterSnoc(front, x, p);
      if p(x) {
        LookupSnoc(Filter(front, p), x, name);
      }
    }
  }

  function Names<K(==), V>(es: Listing<K, V>): (ns: seq<string>)
    ensures |ns| == |es|
    ensures forall i :: 0 <= i < |es| ==> ns[i] == es[i].name
  {
    if es == [] then [] else [es[0].name] + Names(es[1..])
  }

  lemma NamesSnoc<K, V>(es: Listing<K, V>, x: Entry<K, V>)
    ensures Names(es + [x]) == Names(es) + [x.name]
  {
    var a, b := Names(es + [x]), Names(es) + [x.name];
    assert |a| == |b|;
    forall i | 0 <= i < |a| ensures a[i] == b[i] {
      if i < |es| {
        assert (es + [x])[i] == es[i];
      }
    }
  }

  /** The files that survive removing every file named in `ns`. */
  function NotAmong<K(==), V>(ns: seq<string>): Entry<K, V> -> bool {
    (e: Entry<K, V>) => e.name !in ns
  }

  /** `os.remove` of the file `name` */
  function Remove<K(==), V>(d: Listing<K, V>, name: string): Listing<K, V> {
    Filter(d, (e: Entry<K, V>) => e.name != name)
  }

  /** The directories of the file system, each with its listing; `os.makedirs` adds one. */
  class Disk<K(==), V> {
    var dirs: map<string, Listing<K, V>>

    constructor (dirs: map<string, Listing<K, V>>)
      ensures this.dirs == dirs
    {
      this.dirs := dirs;
    }
  }
}
