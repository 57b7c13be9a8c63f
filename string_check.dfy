/**
 * The string predicates of the reconstruction utilities: membership in a list
 * of names, and a prefix test against a list of prefixes in which an empty
 * entry ends the list.
 */
module StringCheck {
  import opened PyStr
  import opened Helpers

  /** `common::makeStringCheck(v)`: the test that a string equals one of the names. */
  function MakeStringCheck(names: seq<string>): (check: string -> bool)
    ensures forall test :: check(test) <==> exists i :: 0 <= i < |names| && names[i] == test
  {
    (test: string) => test in names
  }

  /** The loop of the closure of `makeStringCheckBegin`. */
  function CheckBegin(prefixes: seq<string>, test: string): bool {
    if prefixes == [] then false
    else if prefixes[0] == "" then test == ""
    else if StartsWith(test, prefixes[0]) then true
    else CheckBegin(prefixes[1..], test)
  }

  /** `common::makeStringCheckBegin(v)` */
  function MakeStringCheckBegin(prefixes: seq<string>): (check: string -> bool)
    ensures forall test :: check(test) == CheckBegin(prefixes, test)
  {
    (test: string) => CheckBegin(prefixes, test)
  }

  /** The position of the first empty entry, `|prefixes|` without one. */
  function FirstEmpty(prefixes: seq<string>): nat {
    FirstIndex(prefixes, (p: string) => p == "")
  }

  /**
   * A string passes iff it starts with one of the entries before the first
   * empty one, or there is an empty entry and the string is empty.
   */
  lemma {:induction false} CheckBeginIff(prefixes: seq<string>, test: string)
    ensures CheckBegin(prefixes, test) <==>
      (exists j :: 0 <= j < FirstEmpty(prefixes) && StartsWith(test, prefixes[j])) ||
      (FirstEmpty(prefixes) < |prefixes| && test == "")
  {
    if prefixes != [] && prefixes[0] != "" {
      var rest := prefixes[1..];
      CheckBeginIff(rest, test);
      assert FirstEmpty(prefixes) == 1 + FirstEmpty(rest);
      assert forall j :: 1 <= j < |prefixes| ==> prefixes[j] == rest[j - 1];
      if !StartsWith(test, prefixes[0]) && exists j :: 0 <= j < FirstEmpty(prefixes) && StartsWith(test, prefixes[j]) {
        var j :| 0 <= j < FirstEmpty(prefixes) && StartsWith(test, prefixes[j]);
        assert StartsWith(test, rest[j - 1]);
      }
    }
  }

  /** With no entries nothing passes. */
  lemma EmptyListRejects(test: string)
    ensures !MakeStringCheckBegin([])(test)
  {
  }

  /** The empty string passes exactly when the list holds an empty entry. */
  lemma EmptyTestIff(prefixes: seq<string>)
    ensures MakeStringCheckBegin(prefixes)("") <==> "" in prefixes
  {
    CheckBeginIff(prefixes, "");
    var k := FirstEmpty(prefixes);
    if "" in prefixes {
      var i :| 0 <= i < |prefixes| && prefixes[i] == "";
      assert k <= i;
    }
  }

  /** Entries after the first empty one are never consulted. */
  lemma {:induction false} AfterEmptyIgnored(front: seq<string>, back: seq<string>, other: seq<string>, test: string)
    ensures CheckBegin(front + [""] + back, test) == CheckBegin(front + [""] + other, test)
  {
    if front != [] {
      assert (front + [""] + back)[1..] == front[1..] + [""] + back;
      assert (front + [""] + other)[1..] == front[1..] + [""] + other;
      AfterEmptyIgnored(front[1..], back, other, test);
    } else {
      assert (front + [""] + back)[0] == "" && (front + [""] + other)[0] == "";
    }
  }
}
