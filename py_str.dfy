/** The Python string operations the modelled scripts rely on, written out. */
module PyStr {

  /** `s.startswith(p)` */
  predicate StartsWith(s: string, p: string) {
    |p| <= |s| && s[..|p|] == p
  }

  /** `s.endswith(p)` */
  predicate EndsWith(s: string, p: string) {
    |p| <= |s| && s[|s| - |p|..] == p
  }

  /** `t` occurs in `s` at position `i` */
  predicate OccursAt(s: string, t: string, i: int) {
    0 <= i && i + |t| <= |s| && s[i..i + |t|] == t
  }

  /** `s.find(t)`: the first position where `t` occurs in `s`, or -1. */
  function Find(s: string, t: string): (i: int)
    ensures -1 <= i <= |s|
    ensures i >= 0 ==> OccursAt(s, t, i)
    ensures forall j :: 0 <= j && (i < 0 || j < i) ==> !OccursAt(s, t, j)
  {
    FindFrom(s, t, 0)
  }

  /** The scan behind `find`, from position `k` on. */
  function FindFrom(s: string, t: string, k: nat): (i: int)
    ensures -1 <= i <= |s|
    ensures i >= 0 ==> k <= i && OccursAt(s, t, i)
    ensures forall j :: k <= j && (i < 0 || j < i) ==> !OccursAt(s, t, j)
    decreases |s| - k
  {
    if |s| < k + |t| then -1
    else if OccursAt(s, t, k) then k
    else FindFrom(s, t, k + 1)
  }

  /** Python's `t in s` for strings. */
  predicate Contains(s: string, t: string) {
    Find(s, t) >= 0
  }

  lemma ContainsIff(s: string, t: string)
    ensures Contains(s, t) <==> exists i :: OccursAt(s, t, i)
  {
    if !Contains(s, t) {
      forall i ensures !OccursAt(s, t, i) {
        if i < 0 { } else { }
      }
    }
  }

  /** For a one-character string, `c in s` is membership of the character. */
  lemma CharContains(s: string, c: char)
    ensures Contains(s, [c]) <==> c in s
  {
    ContainsIff(s, [c]);
    if c in s {
      var k :| 0 <= k < |s| && s[k] == c;
      assert s[k..k + 1] == [c];
      assert OccursAt(s, [c], k);
    }
    if Contains(s, [c]) {
      var i := Find(s, [c]);
      assert s[i..i + 1] == [c];
      assert s[i] == c;
    }
  }

  /** `s.count(c)` for a one-character string `c`. */
  function CountChar(s: string, c: char): (n: nat)
    ensures n <= |s|
    ensures n == 0 <==> c !in s
  {
    if s == [] then 0 else (if s[0] == c then 1 else 0) + CountChar(s[1..], c)
  }

  lemma {:induction false} CountCharAppend(a: string, b: string, c: char)
    ensures CountChar(a + b, c) == CountChar(a, c) + CountChar(b, c)
  {
    if a != [] {
      assert (a + b)[1..] == a[1..] + b;
      CountCharAppend(a[1..], b, c);
    } else {
      assert a + b == b;
    }
  }

  /** `"".join(parts)` */
  function Concat(parts: seq<string>): string {
    if parts == [] then "" else parts[0] + Concat(parts[1..])
  }

  lemma {:induction false} ConcatSnoc(parts: seq<string>, n: nat)
    requires n < |parts|
    ensures Concat(parts[..n + 1]) == Concat(parts[..n]) + parts[n]
  {
    if n > 0 {
      assert parts[..n + 1][1..] == parts[1..][..n];
      assert parts[..n][1..] == parts[1..][..n - 1];
      ConcatSnoc(parts[1..], n - 1);
    } else {
      assert parts[..1][1..] == [];
    }
  }

  /** `sep.join(parts)` */
  function JoinWith(sep: string, parts: seq<string>): string {
    if parts == [] then ""
    else if |parts| == 1 then parts[0]
    else parts[0] + sep + JoinWith(sep, parts[1..])
  }

  /** `os.path.join(a, b)` */
  function Join(a: string, b: string): string {
    if StartsWith(b, "/") then b
    else if a == [] || EndsWith(a, "/") then a + b
    else a + "/" + b
  }

  /** `s.split(sep)` for a non-empty separator `sep`. */
  function SplitOn(s: string, sep: string): (r: seq<string>)
    requires sep != ""
    ensures |r| >= 1
    decreases |s|
  {
    var i := Find(s, sep);
    if i < 0 then [s] else [s[..i]] + SplitOn(s[i + |sep|..], sep)
  }

  /** The first occurrence of the separator cuts off the first piece. */
  lemma SplitAt(s: string, sep: string, i: int)
    requires sep != "" && OccursAt(s, sep, i)
    requires forall j :: 0 <= j < i ==> !OccursAt(s, sep, j)
    ensures SplitOn(s, sep) == [s[..i]] + SplitOn(s[i + |sep|..], sep)
  {
    FindFirst(s, sep, i);
    SplitAtFind(s, sep, i);
  }

  /** The last piece of a split is the last piece of what follows the first separator. */
  lemma LastPieceStep(s: string, sep: string, i: int)
    requires sep != "" && Find(s, sep) == i && i >= 0
    ensures var pieces, rest := SplitOn(s, sep), SplitOn(s[i + |sep|..], sep);
      pieces[|pieces| - 1] == rest[|rest| - 1]
  {
    var pieces, rest := SplitOn(s, sep), SplitOn(s[i + |sep|..], sep);
    assert pieces == [s[..i]] + rest by {
      SplitAtFind(s, sep, i);
    }
    LastOfCons(pieces, s[..i], rest);
  }

  lemma LastOfCons<T>(l: seq<T>, x: T, r: seq<T>)
    requires r != [] && l == [x] + r
    ensures l[|l| - 1] == r[|r| - 1]
  {
  }

  /** `split` cuts at what `find` returns. */
  lemma SplitAtFind(s: string, sep: string, i: int)
    requires sep != "" && Find(s, sep) == i && i >= 0
    ensures SplitOn(s, sep) == [s[..i]] + SplitOn(s[i + |sep|..], sep)
  {
  }

  /** An occurrence with none before it is what `find` returns. */
  lemma FindFirst(s: string, t: string, i: int)
    requires OccursAt(s, t, i)
    requires forall j :: 0 <= j < i ==> !OccursAt(s, t, j)
    ensures Find(s, t) == i
  {
    var k := Find(s, t);
    assert k >= 0 && !(k < i) by {
      assert OccursAt(s, t, i);
    }
  }

  /** Splitting and joining back with the same separator gives the string again. */
  lemma {:induction false} SplitJoin(s: string, sep: string)
    requires sep != ""
    ensures JoinWith(sep, SplitOn(s, sep)) == s
    decreases |s|
  {
    var i := Find(s, sep);
    if i >= 0 {
      var rest := s[i + |sep|..];
      SplitJoin(rest, sep);
      JoinCons(sep, s[..i], SplitOn(rest, sep));
      Reassemble(s, i, i + |sep|);
    }
  }

  lemma AppendAssoc<T>(a: seq<T>, b: seq<T>, c: seq<T>)
    ensures (a + b) + c == a + (b + c)
  {
  }

  lemma Bracketed<T>(a: seq<T>, b: seq<T>, c: seq<T>)
    ensures (a + b + c)[..|a|] == a && (a + b + c)[|a + b + c| - |c|..] == c
  {
  }

  lemma Reassemble<T>(s: seq<T>, i: nat, j: nat)
    requires i <= j <= |s|
    ensures s == s[..i] + s[i..j] + s[j..]
  {
  }

  lemma JoinCons(sep: string, a: string, tail: seq<string>)
    requires tail != []
    ensures JoinWith(sep, [a] + tail) == a + sep + JoinWith(sep, tail)
  {
    assert ([a] + tail)[1..] == tail;
  }

  /** The first `/`-piece of `SplitOn(s, [c])`: everything before the first `c`. */
  lemma {:induction false} FirstPieceBeforeChar(s: string, c: char)
    ensures var h := SplitOn(s, [c])[0];
      StartsWith(s, h) && c !in h && (|h| < |s| ==> s[|h|] == c)
  {
    var i := Find(s, [c]);
    if i >= 0 {
      assert OccursAt(s, [c], i);
      assert s[i] == c;
      forall j | 0 <= j < i ensures s[j] != c {
        assert s[j..j + 1] == [s[j]] && !OccursAt(s, [c], j);
      }
    } else {
      forall j | 0 <= j < |s| ensures s[j] != c {
        assert s[j..j + 1] == [s[j]] && !OccursAt(s, [c], j);
      }
    }
  }

  /** Python's `str.isspace` for one character. */
  predicate IsSpace(c: char) {
    c == ' ' || c == '\t' || c == '\n' || c == '\r' || c == '\U{B}' || c == '\U{C}'
  }

  predicate NoSpace(s: string) {
    forall i :: 0 <= i < |s| ==> !IsSpace(s[i])
  }

  /** Length of the run of non-space characters at the front of `s`. */
  function TokenLength(s: string): (n: nat)
    ensures n <= |s|
    ensures NoSpace(s[..n])
    ensures n < |s| ==> IsSpace(s[n])
  {
    if s == [] || IsSpace(s[0]) then 0
    else
      var n := 1 + TokenLength(s[1..]);
      assert s[..n] == [s[0]] + s[1..][..n - 1];
      n
  }

  /** `s.split()`: the maximal runs of non-space characters, in order. */
  function SplitWs(s: string): (r: seq<string>)
    ensures forall i :: 0 <= i < |r| ==> r[i] != "" && NoSpace(r[i])
    ensures NoSpace(s) && s != "" ==> r == [s]
    decreases |s|
  {
    if s == [] then []
    else if IsSpace(s[0]) then SplitWs(s[1..])
    else
      var n := TokenLength(s);
      if n == |s| then (assert s[..n] == s; [s]) else [s[..n]] + SplitWs(s[n..])
  }

  predicate IsDigit(c: char) { '0' <= c <= '9' }

  function DigitValue(c: char): nat requires IsDigit(c) { (c - '0') as nat }

  function DigitChar(d: nat): (c: char)
    requires d < 10
    ensures IsDigit(c) && DigitValue(c) == d
  {
    ('0' as int + d) as char
  }

  /** `int(ds)` for a string of decimal digits (leading zeros allowed). */
  function DecimalValue(ds: string): nat
    requires forall i :: 0 <= i < |ds| ==> IsDigit(ds[i])
  {
    if ds == [] then 0 else 10 * DecimalValue(ds[..|ds| - 1]) + DigitValue(ds[|ds| - 1])
  }

  /** `"%i" % n` for a non-negative integer: its decimal digits, no leading zero. */
  function NatToString(n: nat): (s: string)
    ensures s != []
    ensures forall i :: 0 <= i < |s| ==> IsDigit(s[i])
    ensures |s| > 1 ==> s[0] != '0'
  {
    if n < 10 then [DigitChar(n)] else NatToString(n / 10) + [DigitChar(n % 10)]
  }

  /** `"%i" % n` for any integer. */
  function IntToString(n: int): string {
    if n < 0 then "-" + NatToString(-n) else NatToString(n)
  }

  /** Formatting a number and reading it back gives the number again. */
  lemma {:induction false} NatToStringRoundTrip(n: nat)
    ensures DecimalValue(NatToString(n)) == n
  {
    if n >= 10 {
      NatToStringRoundTrip(n / 10);
      var s := NatToString(n);
      assert s[..|s| - 1] == NatToString(n / 10);
    }
  }
}
