/**
 * The one-file-per-key result cache: the value for a key is pickled to a file
 * named after `str(hash(key))`, sharded by its first four characters.
 */
module DirDb {
  import opened Wrappers
  import opened FileStore

  /** `__get_filename`: `s[:4] + '/' + s[4:]` for names longer than four characters. */
  function FileName(s: string): (f: string)
    ensures |s| > 4 ==> |f| == |s| + 1 && f[4] == '/' && f[..4] == s[..4] && f[5..] == s[4..]
    ensures |s| <= 4 ==> f == s
  {
    if |s| > 4 then s[..4] + "/" + s[4..] else s
  }

  /** The directory of a file, relative to the cache directory ("" for the cache directory). */
  function ShardDir(s: string): string {
    if |s| > 4 then s[..4] else ""
  }

  /** Removing the inserted '/' again. */
  function Unshard(f: string): string {
    if |f| > 5 && f[4] == '/' then f[..4] + f[5..] else f
  }

  lemma UnshardFileName(s: string)
    ensures Unshard(FileName(s)) == s
  {
    if |s| > 4 {
      assert s == s[..4] + s[4..];
    }
  }

  /** Two keys share a file exactly when their hash strings are equal. */
  lemma SameFileIff(a: string, b: string)
    ensures FileName(a) == FileName(b) <==> a == b
  {
    UnshardFileName(a);
    UnshardFileName(b);
  }

  /**
   * `pickle.load(file(path))` inside `get`, where only IOError is caught.  A path
   * that is no file (missing, or a directory, which `file` refuses with IOError)
   * reads as None.
   */
  function Load<V>(files: map<string, Content<V>>, f: string): (r: Result<Option<V>>)
    ensures f !in files || files[f].IOFailure? ==> r == Ok(None)
    ensures f in files && files[f].Loads? ==> r == Ok(Some(files[f].obj))
    ensures f in files && files[f].Corrupt? ==> r == Raises(UnpicklingError)
  {
    if f !in files then Ok(None)
    else
      match files[f]
      case Loads(v) => Ok(Some(v))
      case IOFailure => Ok(None)
      case Corrupt => Raises(UnpicklingError)
  }

  /**
   * `DirDB`: the directories and files below the cache directory, by relative
   * path; the cache directory itself is "".  A path is a directory or a file,
   * never both.
   */
  class DirDB<K, V> {
    /** `str(hash(key))` */
    const hash: K -> string
    /** `pickle.dump(data, file(f, 'w'))`, and what the file then loads back as. */
    const dump: Dumper<V>
    var dirs: set<string>
    var files: map<string, Content<V>>

    ghost predicate Valid()
      reads this
    {
      && "" in dirs
      && (forall f :: f in files ==> f !in dirs)
      && (forall f :: f in files ==> ShardDir(Unshard(f)) in dirs)
    }

    /** `DirDB(directory)` once no file is in the way of the cache directory, which exists afterwards; `Open` is the call that can raise. */
    constructor (hash: K -> string, dump: Dumper<V>, dirs: set<string>, files: map<string, Content<V>>)
      requires forall f :: f in files ==> f !in dirs + {""}
      requires forall f :: f in files ==> ShardDir(Unshard(f)) in dirs + {""}
      ensures Valid()
      ensures this.hash == hash && this.dump == dump
      ensures this.dirs == dirs + {""} && this.files == files
    {
      this.hash := hash;
      this.dump := dump;
      this.dirs := dirs + {""};
      this.files := files;
    }

    /** `get(key)` */
    method Get(key: K) returns (r: Result<Option<V>>)
      ensures r == Load(files, FileName(hash(key)))
    {
      var filename := FileName(hash(key));
      if filename !in files {
        return Ok(None);
      }
      match files[filename]
      case Loads(v) => r := Ok(Some(v));
      case IOFailure => r := Ok(None);
      case Corrupt => r := Raises(UnpicklingError);
    }

    /**
     * `add(key, data, overwrite)`: the shard directory is created first, which
     * raises OSError when a file of that name is in the way.  Without `overwrite`
     * an existing path, file or directory, is kept and nothing is written; a
     * directory where the file should go makes `file(filename, 'w')` raise
     * IOError; a raising dump propagates with nothing written.
     */
    method Add(key: K, data: V, overwrite: bool) returns (r: Result<()>)
      requires Valid()
      modifies this
      ensures Valid()
      ensures var filename, dirname := FileName(hash(key)), ShardDir(hash(key));
        var present := filename in old(files) || filename in old(dirs);
        && (dirname in old(files) ==> r == Raises(OSError) && dirs == old(dirs) && files == old(files))
        && (dirname !in old(files) ==> dirs == old(dirs) + {dirname})
        && (dirname !in old(files) && !overwrite && present ==> r == Ok(()) && files == old(files))
        && (dirname !in old(files) && (overwrite || !present) && filename in old(dirs) ==>
              r == Raises(IOError) && files == old(files))
        && (dirname !in old(files) && (overwrite || !present) && filename !in old(dirs) && dump(data).Raises? ==>
              r == Raises(dump(data).exc) && files == old(files))
        && (dirname !in old(files) && (overwrite || !present) && filename !in old(dirs) && dump(data).Ok? ==>
              r == Ok(()) && files == old(files)[filename := dump(data).value])
      ensures var filename := FileName(hash(key));
        r.Ok? && filename !in old(dirs) && (overwrite || filename !in old(files)) && dump(data) == Ok(Loads(data)) ==>
          Load(files, filename) == Ok(Some(data))
    {
      var filename := FileName(hash(key));
      UnshardFileName(hash(key));
      var dirname := ShardDir(hash(key));
      if dirname !in dirs {
        if dirname in files {
          // os.makedirs: a file is in the way
          return Raises(OSError);
        }
        dirs := dirs + {dirname};
      }
      if !overwrite && (filename in files || filename in dirs) {
        // os.path.exists holds for files and directories alike
        return Ok(());
      }
      if filename in dirs {
        // file(filename, 'w') on a directory
        return Raises(IOError);
      }
      var written := dump(data);
      if written.Raises? {
        return Raises(written.exc);
      }
      files := files[filename := written.value];
      r := Ok(());
    }
  }

  /**
   * `DirDB(directory)` as a call that can raise: the cache directory is created
   * unless it exists, and `os.makedirs` raises OSError when a file sits at its
   * path ("").  The paths given are a possible filesystem: none is both a file
   * and a directory, and every file's shard directory exists.
   */
  method Open<K, V>(hash: K -> string, dump: Dumper<V>, dirs: set<string>, files: map<string, Content<V>>)
    returns (r: Result<DirDB<K, V>>)
    requires forall f :: f in files ==> f !in dirs
    requires forall f :: f in files ==> ShardDir(Unshard(f)) in dirs + {""}
    ensures "" in files <==> r.Raises?
    ensures r.Raises? ==> r.exc == OSError
    ensures r.Ok? ==> && fresh(r.value) && r.value.Valid()
                      && r.value.hash == hash && r.value.dump == dump
                      && r.value.dirs == dirs + {""} && r.value.files == files
  {
    if "" in files {
      return Raises(OSError);
    }
    var db := new DirDB(hash, dump, dirs, files);
    r := Ok(db);
  }

  /**
   * Two keys whose hashes collide share one file: once the first is stored, a
   * non-overwriting add of the second writes nothing.
   */
  method CollidingAdd<K, V>(db: DirDB<K, V>, a: K, b: K, x: V, y: V) returns (r1: Result<()>, r2: Result<()>)
    requires db.Valid() && db.hash(a) == db.hash(b)
    modifies db
    ensures var f := FileName(db.hash(a));
      r1.Ok? && f !in old(db.dirs) ==>
        && r2 == Ok(())
        && (f in old(db.files) ==> db.files == old(db.files))
        && (f !in old(db.files) ==> db.dump(x).Ok? && db.files == old(db.files)[f := db.dump(x).value])
  {
    r1 := db.Add(a, x, false);
    r2 := db.Add(b, y, false);
  }

  /**
   * A four-character hash file in the way of a longer hash's shard directory:
   * once the short key is stored, adding the long one raises OSError.
   */
  method FileBlocksShard<K, V>(db: DirDB<K, V>, a: K, b: K, x: V, y: V, overwrite: bool) returns (r1: Result<()>, r2: Result<()>)
    requires db.Valid() && |db.hash(a)| == 4 && |db.hash(b)| > 4 && db.hash(b)[..4] == db.hash(a)
    requires db.hash(a) !in db.dirs && db.dump(x).Ok?
    modifies db
    ensures r1 == Ok(()) && r2 == Raises(OSError)
  {
    r1 := db.Add(a, x, false);
    r2 := db.Add(b, y, overwrite);
  }

  /**
   * The other order: once the longer hash's shard directory exists, the short
   * key's file can never be written; the add is refused, or raises IOError with
   * `overwrite`, and the short key reads as None.
   */
  method ShardBlocksFile<K, V>(db: DirDB<K, V>, a: K, b: K, x: V, y: V, overwrite: bool) returns (r1: Result<()>, r2: Result<()>)
    requires db.Valid() && |db.hash(a)| == 4 && |db.hash(b)| > 4 && db.hash(b)[..4] == db.hash(a)
    requires db.hash(a) !in db.files
    modifies db
    ensures overwrite ==> r2 == Raises(IOError)
    ensures !overwrite ==> r2 == Ok(())
    ensures Load(db.files, FileName(db.hash(a))) == Ok(None)
  {
    r1 := db.Add(b, y, false);
    r2 := db.Add(a, x, overwrite);
  }
}
