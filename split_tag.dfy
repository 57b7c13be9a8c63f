/**
 * The command-line conventions shared by the two submission scripts: the text
 * before the first `#` is the command, and a `SPLITn` tag anywhere in the line
 * asks for `n` jobs.
 */
module SplitTag {
  import opened Wrappers
  import opened PyStr

  /** The regular expression `SPLIT[0-9][0-9]*` matches at `i`. */
  predicate TagAt(line: string, i: int) {
    0 <= i && i + 6 <= |line| && line[i..i + 5] == "SPLIT" && IsDigit(line[i + 5])
  }

  /** The length of the run of decimal digits at the front of `s`. */
  function DigitRun(s: string): (n: nat)
    ensures n <= |s|
    ensures forall k :: 0 <= k < n ==> IsDigit(s[k])
    ensures n < |s| ==> !IsDigit(s[n])
  {
    if s == [] || !IsDigit(s[0]) then 0 else 1 + DigitRun(s[1..])
  }

  /** The digit run is the whole of a digit string placed before a non-digit. */
  lemma {:induction false} DigitRunOf(ds: string, rest: string)
    requires forall k :: 0 <= k < |ds| ==> IsDigit(ds[k])
    requires rest == [] || !IsDigit(rest[0])
    ensures DigitRun(ds + rest) == |ds|
  {
    if ds != [] {
      assert (ds + rest)[1..] == ds[1..] + rest;
      DigitRunOf(ds[1..], rest);
    } else {
      assert ds + rest == rest;
    }
  }

  /** The first match of the tag at or after `from`, or -1. */
  function FindTagFrom(line: string, from: nat): (i: int)
    ensures i == -1 || from <= i < |line|
    ensures i >= 0 ==> TagAt(line, i)
    ensures forall j :: from <= j && (i < 0 || j < i) ==> !TagAt(line, j)
    decreases |line| - from
  {
    if from >= |line| then -1
    else if TagAt(line, from) then from
    else FindTagFrom(line, from + 1)
  }

  /** Where `re.search` finds the tag, or -1 when it does not. */
  function FindTag(line: string): (i: int)
    ensures -1 <= i < |line|
    ensures i >= 0 ==> TagAt(line, i)
    ensures forall j :: 0 <= j && (i < 0 || j < i) ==> !TagAt(line, j)
  {
    FindTagFrom(line, 0)
  }

  /**
   * `int(m.group(0).replace('SPLIT', ''))`, or None where `re.search` found
   * nothing and the attribute access on None raised.
   */
  function SplitNumber(line: string): (r: Option<nat>)
    ensures r.None? <==> forall i :: !TagAt(line, i)
    ensures r.Some? ==> var i := FindTag(line);
      i >= 0 && r.value == DecimalValue(line[i + 5..][..DigitRun(line[i + 5..])])
  {
    var i := FindTag(line);
    if i < 0 then None
    else
      var digits := line[i + 5..];
      Some(DecimalValue(digits[..DigitRun(digits)]))
  }

  /**
   * A `SPLITn` tag written with `"%i" % n`, and not preceded by another tag,
   * is read back as `n`.
   */
  lemma SplitNumberOfTag(before: string, n: nat, after: string)
    requires forall j :: 0 <= j < |before| ==> !TagAt(before + "SPLIT" + NatToString(n) + after, j)
    requires after == [] || !IsDigit(after[0])
    ensures SplitNumber(before + "SPLIT" + NatToString(n) + after) == Some(n)
  {
    var ds := NatToString(n);
    var line := before + "SPLIT" + ds + after;
    var i := |before|;
    Pieces(before, "SPLIT", ds, after);
    assert line[i + 5] == ds[0];
    assert TagAt(line, i);
    assert FindTag(line) == i;
    DigitRunOf(ds, after);
    assert (ds + after)[..|ds|] == ds;
    NatToStringRoundTrip(n);
  }

  lemma Pieces<T>(a: seq<T>, b: seq<T>, c: seq<T>, d: seq<T>)
    requires c != []
    ensures var s := a + b + c + d;
      s[|a|..|a| + |b|] == b && s[|a| + |b|..] == c + d && s[|a| + |b|] == c[0]
  {
  }

  /** `line.split('#')[0]`: the text before the first `#`. */
  function CommandText(line: string): (cmd: string)
    ensures StartsWith(line, cmd) && '#' !in cmd
    ensures |cmd| < |line| ==> line[|cmd|] == '#'
  {
    FirstPieceBeforeChar(line, '#');
    SplitOn(line, "#")[0]
  }

  /** Whatever follows the first `#` is not part of the command. */
  lemma CommandBeforeComment(cmd: string, comment: string)
    requires '#' !in cmd
    ensures CommandText(cmd + "#" + comment) == cmd
  {
    var line := cmd + "#" + comment;
    assert line[..|cmd|] == cmd && line[|cmd|] == '#';
  }
}
