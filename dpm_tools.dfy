/**
 * Path handling of the storage tools: whether a path names a file, the
 * expansion of `*` path segments against directory listings, and the guard
 * that keeps removals inside the user's own area.
 */
module DpmTools {
  import opened Wrappers
  import opened PyStr

  /** The last `/`-separated piece of `path`. */
  function BaseName(path: string): string {
    var pieces := SplitOn(path, "/");
    pieces[|pieces| - 1]
  }

  /** What follows the last `/` (or the whole string) and holds no `/`. */
  predicate LastPiece(s: string, t: string) {
    EndsWith(s, t) && '/' !in t && (|t| < |s| ==> s[|s| - |t| - 1] == '/')
  }

  /** The last piece is what follows the last `/`, or the whole string. */
  lemma {:induction false} BaseNameIsSuffix(s: string)
    ensures LastPiece(s, BaseName(s))
    decreases |s|
  {
    var i := Find(s, "/");
    if i >= 0 {
      assert s[i..i + 1] == "/";
      var t := BaseName(s[i + 1..]);
      BaseNameIsSuffix(s[i + 1..]);
      SlashSuffix(s, i, t);
      BaseNameStep(s, i);
    } else {
      CharContains(s, '/');
      NoSlashBaseName(s);
      assert s[|s| - |s|..] == s;
    }
  }

  lemma NoSlashBaseName(s: string)
    requires '/' !in s
    ensures BaseName(s) == s
  {
    CharContains(s, '/');
    assert SplitOn(s, "/") == [s];
  }

  /** A last piece of what follows a `/` at `i` is a last piece of `s`. */
  lemma SlashSuffix(s: string, i: nat, t: string)
    requires i < |s| && s[i] == '/'
    requires LastPiece(s[i + 1..], t)
    ensures LastPiece(s, t)
  {
    var rest := s[i + 1..];
    SuffixOfSuffix(s, rest, t);
  }

  lemma BaseNameStep(s: string, i: nat)
    requires i < |s| && Find(s, "/") == i
    ensures BaseName(s) == BaseName(s[i + 1..])
  {
    LastPieceStep(s, "/", i);
  }

  lemma SuffixOfSuffix(s: string, rest: string, t: string)
    requires |rest| <= |s| && s[|s| - |rest|..] == rest && EndsWith(rest, t)
    ensures EndsWith(s, t) && s[|s| - |t|..] == t
    ensures |t| < |rest| ==> s[|s| - |t| - 1] == rest[|rest| - |t| - 1]
  {
    assert s[|s| - |t|..] == rest[|rest| - |t|..];
  }

  /** `isFile(path)`: the last piece of the path contains a dot. */
  predicate IsFile(path: string) {
    '.' in BaseName(path)
  }

  /** A path names a file iff some dot comes after its last slash. */
  lemma IsFileIff(path: string)
    ensures IsFile(path) <==> exists i :: (0 <= i < |path| && path[i] == '.' &&
      forall j :: i < j < |path| ==> path[j] != '/')
  {
    var t := BaseName(path);
    BaseNameIsSuffix(path);
    var start := |path| - |t|;
    assert path[start..] == t;
    if IsFile(path) {
      var k :| 0 <= k < |t| && t[k] == '.';
      assert path[start + k] == '.';
      forall j | start + k < j < |path| ensures path[j] != '/' {
        assert path[j] == t[j - start];
      }
    }
    if exists i :: 0 <= i < |path| && path[i] == '.' && forall j :: i < j < |path| ==> path[j] != '/' {
      var i :| 0 <= i < |path| && path[i] == '.' && forall j :: i < j < |path| ==> path[j] != '/';
      assert i >= start;
      assert t[i - start] == '.';
    }
  }

  /** `"".join(sub.split(part)[1:])`: the text after the first `part`, with every later `part` cut out. */
  function Remainder(sub: string, part: string): string
    requires part != ""
  {
    Concat(SplitOn(sub, part)[1..])
  }

  /**
   * The parts of a wildcard segment against a listing entry: every non-empty part
   * is searched in what is left after the previous one.
   */
  predicate PartsMatch(parts: seq<string>, sub: string) {
    if parts == [] then true
    else if parts[0] == "" then PartsMatch(parts[1..], sub)
    else if !Contains(sub, parts[0]) then false
    else PartsMatch(parts[1..], Remainder(sub, parts[0]))
  }

  /** The segment `dir` (containing `*`) matches the listing entry `file`. */
  predicate SegmentMatch(dir: string, file: string) {
    PartsMatch(SplitOn(dir, "*"), file)
  }

  /** The loop of `convertToPathList` that decides `copyFile` for one entry. */
  method SegmentMatches(dir: string, file: string) returns (copyFile: bool)
    ensures copyFile == SegmentMatch(dir, file)
  {
    var parts := SplitOn(dir, "*");
    var subString := file;
    copyFile := true;
    var k := 0;
    while k < |parts|
      invariant 0 <= k <= |parts|
      invariant PartsMatch(parts, file) == PartsMatch(parts[k..], subString)
    {
      var part := parts[k];
      assert parts[k..][1..] == parts[k + 1..];
      if part == "" {
        k := k + 1;
        continue;
      }
      if !Contains(subString, part) {
        copyFile := false;
        break;
      }
      subString := Remainder(subString, part);
      k := k + 1;
    }
  }

  /** The segment `*` matches every entry. */
  lemma StarMatchesAll(file: string)
    ensures SegmentMatch("*", file)
  {
    assert OccursAt("*", "*", 0);
    assert Find("*", "*") == 0;
    assert "*"[1..] == "";
    assert SplitOn("", "*") == [""];
    assert SplitOn("*", "*") == ["", ""];
  }

  /**
   * A segment `*p` matches every entry that contains `p` anywhere, not only at its
   * end: there is no anchoring at either end of the entry.
   */
  lemma LeadingStarContains(p: string, file: string)
    requires p != "" && '*' !in p
    ensures SegmentMatch("*" + p, file) <==> Contains(file, p)
  {
    var dir := "*" + p;
    assert dir[0..1] == "*";
    assert OccursAt(dir, "*", 0);
    assert Find(dir, "*") == 0;
    assert dir[1..] == p;
    CharContains(p, '*');
    assert SplitOn(p, "*") == [p];
    var parts := SplitOn(dir, "*");
    assert parts == ["", p];
    assert parts[1..] == [p] && parts[1..][1..] == [];
    assert PartsMatch(parts, file) == PartsMatch([p], file);
  }

  /**
   * Because later occurrences of a part are cut out before the next part is
   * searched, parts can match across a cut: `x` then `bc` match `axbxc` (say
   * `X` and `bc` in `aXbXc`), where `bc` does not occur.
   */
  lemma MatchAcrossCut(a: char, b: char, c: char, x: char)
    requires x != a && x != b && x != c
    ensures PartsMatch([[x], [b, c]], [a, x, b, x, c]) && !Contains([a, x, b, x, c], [b, c])
  {
    var s := [a, x, b, x, c];
    SplitAcrossCut(a, b, c, x);
    assert SplitOn(s, [x])[1..] == [[b], [c]];
    assert [[b], [c]][1..] == [[c]] && [[c]][1..] == [];
    assert Concat([[c]]) == [c] + Concat([]);
    assert Concat([[b], [c]]) == [b] + Concat([[c]]);
    assert [b] + [c] == [b, c];
    assert OccursAt(s, [x], 1) && OccursAt([b, c], [b, c], 0);
    assert [[x], [b, c]][1..][1..] == [];
    NoPairIn(a, b, c, x);
  }

  /** `axbxc.split(x)` */
  lemma SplitAcrossCut(a: char, b: char, c: char, x: char)
    requires x != a && x != b && x != c
    ensures SplitOn([a, x, b, x, c], [x]) == [[a], [b], [c]]
  {
    var s := [a, x, b, x, c];
    assert s[1..2] == [x];
    assert !OccursAt(s, [x], 0) by { assert s[0..1][0] != x; }
    SplitAt(s, [x], 1);
    assert s[..1] == [a] && s[2..] == [b, x, c];
    SplitTail(b, c, x);
  }

  /** `bxc.split(x)` */
  lemma SplitTail(b: char, c: char, x: char)
    requires x != b && x != c
    ensures SplitOn([b, x, c], [x]) == [[b], [c]]
  {
    var s := [b, x, c];
    assert s[1..2] == [x];
    assert !OccursAt(s, [x], 0) by { assert s[0..1][0] != x; }
    SplitAt(s, [x], 1);
    assert s[..1] == [b] && s[2..] == [c];
    CharContains([c], x);
  }

  /** `bc` does not occur in `axbxc`. */
  lemma NoPairIn(a: char, b: char, c: char, x: char)
    requires x != a && x != b && x != c
    ensures !Contains([a, x, b, x, c], [b, c])
  {
    var s := [a, x, b, x, c];
    ContainsIff(s, [b, c]);
    forall i | 0 <= i <= 3 ensures !OccursAt(s, [b, c], i) {
      assert s[i..i + 2][1] == s[i + 1];
      assert s[i..i + 2][0] == s[i];
    }
  }

  /** What the expansion works on: one path (a string) or a list of them. */
  datatype Paths = One(path: string) | Many(paths: seq<string>)

  /**
   * `convertToPathList(path)` on a string, with `listing` giving the entries of a
   * directory.  `fuel` bounds the depth of the recursion into matched entries;
   * where it runs out, the entry gives no paths.
   */
  function Expand(path: string, listing: string -> seq<string>, fuel: nat): seq<string>
    decreases fuel, 4, 0
  {
    if '*' !in path then [path] else ExpandAll([path], listing, fuel)
  }

  /** The loop over the paths of a list. */
  function ExpandAll(paths: seq<string>, listing: string -> seq<string>, fuel: nat): seq<string>
    decreases fuel, 3, |paths|
  {
    if paths == [] then []
    else ExpandAll(paths[..|paths| - 1], listing, fuel) + Contribution(paths[|paths| - 1], listing, fuel)
  }

  /** What one path of the list adds: its expansion, or the path itself if it has no `*`. */
  function Contribution(path: string, listing: string -> seq<string>, fuel: nat): seq<string>
    decreases fuel, 2, 0
  {
    var pathList := ScanSegments(SplitOn(path, "/"), 0, "", listing, fuel);
    if pathList != [] then pathList
    else if '*' !in path then [path]
    else []
  }

  /**
   * The loop over the segments from segment `i`: plain segments extend `dirPath`;
   * the first wildcard segment whose listing yields paths ends the scan.
   */
  function ScanSegments(dirs: seq<string>, i: nat, dirPath: string, listing: string -> seq<string>, fuel: nat): seq<string>
    decreases fuel, 1, |dirs| - i
  {
    if i >= |dirs| then []
    else if '*' !in dirs[i] then ScanSegments(dirs, i + 1, dirPath + dirs[i] + "/", listing, fuel)
    else
      var pathList := ScanFiles(listing(dirPath), dirs, i, dirPath, listing, fuel);
      if pathList != [] then pathList else ScanSegments(dirs, i + 1, dirPath, listing, fuel)
  }

  /** The loop over the entries of the listing of `dirPath`, for wildcard segment `dirs[i]`. */
  function ScanFiles(files: seq<string>, dirs: seq<string>, i: nat, dirPath: string,
                     listing: string -> seq<string>, fuel: nat): seq<string>
    requires i < |dirs|
    decreases fuel, 0, |files|
  {
    if files == [] then []
    else
      var file := files[|files| - 1];
      ScanFiles(files[..|files| - 1], dirs, i, dirPath, listing, fuel) +
        (if SegmentMatch(dirs[i], file) && fuel > 0
         then Expand(Join(dirPath, JoinWith("/", [file] + dirs[i + 1..])), listing, fuel - 1)
         else [])
  }

  /** One more entry of the listing adds what that entry expands to. */
  lemma ScanFilesStep(files: seq<string>, j: nat, dirs: seq<string>, i: nat, dirPath: string,
                      listing: string -> seq<string>, fuel: nat)
    requires i < |dirs| && j < |files|
    ensures ScanFiles(files[..j + 1], dirs, i, dirPath, listing, fuel) ==
      ScanFiles(files[..j], dirs, i, dirPath, listing, fuel) +
        (if SegmentMatch(dirs[i], files[j]) && fuel > 0
         then Expand(Join(dirPath, JoinWith("/", [files[j]] + dirs[i + 1..])), listing, fuel - 1)
         else [])
  {
    assert files[..j + 1][..j] == files[..j];
  }

  /** The result of `convertToPathList(paths)`. */
  function Converted(paths: Paths, listing: string -> seq<string>, fuel: nat): seq<string> {
    match paths
    case One(p) => Expand(p, listing, fuel)
    case Many(ps) => ExpandAll(ps, listing, fuel)
  }

  /** `convertToPathList(paths)` */
  method ConvertToPathList(paths: Paths, listing: string -> seq<string>, fuel: nat) returns (allPathList: seq<string>)
    ensures allPathList == Converted(paths, listing, fuel)
    decreases fuel
  {
    var ps: seq<string>;
    match paths {
      case One(p) =>
        if '*' !in p {
          return [p];
        }
        ps := [p];
      case Many(list) =>
        ps := list;
    }
    allPathList := [];
    for k := 0 to |ps|
      invariant allPathList == ExpandAll(ps[..k], listing, fuel)
    {
      var path := ps[k];
      assert ps[..k + 1][..k] == ps[..k];
      var pathList := PathsOfPath(path, listing, fuel);
      if pathList == [] && '*' !in path {
        allPathList := allPathList + [path];
      } else if pathList == [] && '*' in path {
        continue;
      } else {
        allPathList := allPathList + pathList;
      }
    }
    assert ps[..|ps|] == ps;
  }

  /** The body of the loop over the paths: `pathList` for one path. */
  method PathsOfPath(path: string, listing: string -> seq<string>, fuel: nat) returns (pathList: seq<string>)
    ensures pathList == ScanSegments(SplitOn(path, "/"), 0, "", listing, fuel)
    decreases fuel, 1
  {
    var dirs := SplitOn(path, "/");
    var dirPath := "";
    pathList := [];
    var i := 0;
    while i < |dirs| && pathList == []
      invariant 0 <= i <= |dirs|
      invariant pathList == [] ==> ScanSegments(dirs, 0, "", listing, fuel) == ScanSegments(dirs, i, dirPath, listing, fuel)
      invariant pathList != [] ==> pathList == ScanSegments(dirs, 0, "", listing, fuel)
    {
      var dir := dirs[i];
      if '*' !in dir {
        dirPath := dirPath + dir + "/";
        i := i + 1;
        continue;
      }
      pathList := PathsOfSegment(dirs, i, dirPath, listing, fuel);
      i := i + 1;
    }
  }

  /** The loop over the listing of `dirPath` for the wildcard segment `dirs[i]`. */
  method PathsOfSegment(dirs: seq<string>, i: nat, dirPath: string, listing: string -> seq<string>, fuel: nat)
    returns (pathList: seq<string>)
    requires i < |dirs|
    ensures pathList == ScanFiles(listing(dirPath), dirs, i, dirPath, listing, fuel)
    decreases fuel, 0
  {
    var allFiles := listing(dirPath);
    pathList := [];
    for j := 0 to |allFiles|
      invariant pathList == ScanFiles(allFiles[..j], dirs, i, dirPath, listing, fuel)
    {
      var file := allFiles[j];
      ScanFilesStep(allFiles, j, dirs, i, dirPath, listing, fuel);
      var copyFile := SegmentMatches(dirs[i], file);
      if copyFile && fuel > 0 {
        var full := JoinWith("/", [file] + dirs[i + 1..]);
        var more := ConvertToPathList(One(Join(dirPath, full)), listing, fuel - 1);
        pathList := pathList + more;
      }
    }
    assert allFiles[..|allFiles|] == allFiles;
  }

  /** Every path the expansion yields is concrete: it has no `*` left. */
  lemma {:induction false} ExpandConcrete(path: string, listing: string -> seq<string>, fuel: nat)
    ensures forall q :: q in Expand(path, listing, fuel) ==> '*' !in q
    decreases fuel, 4, 0
  {
    if '*' in path {
      ExpandAllConcrete([path], listing, fuel);
    }
  }

  lemma {:induction false} ExpandAllConcrete(paths: seq<string>, listing: string -> seq<string>, fuel: nat)
    ensures forall q :: q in ExpandAll(paths, listing, fuel) ==> '*' !in q
    decreases fuel, 3, |paths|
  {
    if paths != [] {
      ExpandAllConcrete(paths[..|paths| - 1], listing, fuel);
      ContributionConcrete(paths[|paths| - 1], listing, fuel);
    }
  }

  lemma {:induction false} ContributionConcrete(path: string, listing: string -> seq<string>, fuel: nat)
    ensures forall q :: q in Contribution(path, listing, fuel) ==> '*' !in q
    decreases fuel, 2, 0
  {
    ScanSegmentsConcrete(SplitOn(path, "/"), 0, "", listing, fuel);
  }

  lemma {:induction false} ScanSegmentsConcrete(dirs: seq<string>, i: nat, dirPath: string,
                                                listing: string -> seq<string>, fuel: nat)
    ensures forall q :: q in ScanSegments(dirs, i, dirPath, listing, fuel) ==> '*' !in q
    decreases fuel, 1, |dirs| - i
  {
    if i < |dirs| {
      if '*' !in dirs[i] {
        ScanSegmentsConcrete(dirs, i + 1, dirPath + dirs[i] + "/", listing, fuel);
      } else {
        ScanFilesConcrete(listing(dirPath), dirs, i, dirPath, listing, fuel);
        ScanSegmentsConcrete(dirs, i + 1, dirPath, listing, fuel);
      }
    }
  }

  lemma {:induction false} ScanFilesConcrete(files: seq<string>, dirs: seq<string>, i: nat, dirPath: string,
                                             listing: string -> seq<string>, fuel: nat)
    requires i < |dirs|
    ensures forall q :: q in ScanFiles(files, dirs, i, dirPath, listing, fuel) ==> '*' !in q
    decreases fuel, 0, |files|
  {
    if files != [] {
      var file := files[|files| - 1];
      var front := ScanFiles(files[..|files| - 1], dirs, i, dirPath, listing, fuel);
      ScanFilesConcrete(files[..|files| - 1], dirs, i, dirPath, listing, fuel);
      if SegmentMatch(dirs[i], file) && fuel > 0 {
        var target := Join(dirPath, JoinWith("/", [file] + dirs[i + 1..]));
        ExpandConcrete(target, listing, fuel - 1);
        AppendConcrete(front, Expand(target, listing, fuel - 1));
      } else {
        assert ScanFiles(files, dirs, i, dirPath, listing, fuel) == front + [];
        AppendConcrete(front, []);
      }
    }
  }

  lemma AppendConcrete(a: seq<string>, b: seq<string>)
    requires forall q :: q in a ==> '*' !in q
    requires forall q :: q in b ==> '*' !in q
    ensures forall q :: q in a + b ==> '*' !in q
  {
  }

  /** The guard of `removeDPMFiles`: the path lies in the user's area, or the CERN user's on a clip host. */
  predicate MayRemove(path: string, user: string, cernUser: string, hostname: string) {
    Contains(path, user) || (Contains(path, cernUser) && Contains(hostname, "clip"))
  }

  /** The removal command for one path. */
  function RemoveCommand(hostname: string, rmPath: string): string {
    RemovePrefix(hostname) + rmPath
  }

  /** What precedes the path: `xrdfs … rmdir` on the cern and clip hosts, `rfrm -rf` elsewhere. */
  function RemovePrefix(hostname: string): string {
    if Contains(hostname, "cern") || Contains(hostname, "clip") then "xrdfs root://hephyse.oeaw.ac.at/ rmdir "
    else "/usr/bin/rfrm -rf "
  }

  /**
   * `removeDPMFiles(path)`: exit with status 1 outside the user's area; otherwise
   * the removal commands for the expanded path, in order.
   */
  method RemoveDPMFiles(path: string, user: string, cernUser: string, hostname: string,
                        listing: string -> seq<string>, fuel: nat) returns (r: Result<seq<string>>)
    ensures !MayRemove(path, user, cernUser, hostname) <==> r == Raises(SystemExit(1))
    ensures MayRemove(path, user, cernUser, hostname) <==> r.Ok?
    ensures r.Ok? ==> var targets := Expand(path, listing, fuel);
      |r.value| == |targets| && forall i :: 0 <= i < |targets| ==> r.value[i] == RemoveCommand(hostname, targets[i])
  {
    if !MayRemove(path, user, cernUser, hostname) {
      return Raises(SystemExit(1));
    }
    var rmPathList := ConvertToPathList(One(path), listing, fuel);
    var commands := RemoveCommands(hostname, rmPathList);
    r := Ok(commands);
  }

  /** The loop of `removeDPMFiles` over the expanded paths: one command per path, in order. */
  method RemoveCommands(hostname: string, rmPathList: seq<string>) returns (commands: seq<string>)
    ensures |commands| == |rmPathList|
    ensures forall i :: 0 <= i < |rmPathList| ==> commands[i] == RemoveCommand(hostname, rmPathList[i])
  {
    var prefix := RemovePrefix(hostname);
    commands := [];
    for k := 0 to |rmPathList|
      invariant |commands| == k
      invariant forall i :: 0 <= i < k ==> commands[i] == prefix + rmPathList[i]
    {
      commands := commands + [prefix + rmPathList[k]];
    }
  }

  /** No removal command is issued for a path with `*` in it. */
  lemma RemovalsAreConcrete(path: string, listing: string -> seq<string>, fuel: nat, i: nat)
    requires i < |Expand(path, listing, fuel)|
    ensures '*' !in Expand(path, listing, fuel)[i]
  {
    ExpandConcrete(path, listing, fuel);
  }
}
