/**
 * Reading a combine datacard as a list of lines: the bin and process header
 * lines, one prefit uncertainty, and the checks `scaleCardFile` makes before
 * writing the scaled card.
 */
module CardFileHelpers {
  import opened Wrappers
  import opened PyStr
  import opened Helpers

  /** The first whitespace token of `line` is `word`. */
  predicate Heads(line: string, word: string) {
    SplitWs(line) != [] && SplitWs(line)[0] == word
  }

  /** `getAllBinNames`: the tokens after `bin` on the first line that starts with it, or None. */
  method GetAllBinNames(card: seq<string>) returns (r: Option<seq<string>>)
    ensures r.None? <==> forall k :: 0 <= k < |card| ==> !Heads(card[k], "bin")
    ensures r.Some? ==> exists k :: (0 <= k < |card| && Heads(card[k], "bin") &&
      (forall j :: 0 <= j < k ==> !Heads(card[j], "bin")) && r.value == SplitWs(card[k])[1..])
  {
    for k := 0 to |card|
      invariant forall j :: 0 <= j < k ==> !Heads(card[j], "bin")
    {
      var tokens := SplitWs(card[k]);
      if |tokens| == 0 {
        continue;
      }
      if tokens[0] == "bin" {
        return Some(tokens[1..]);
      }
    }
    return None;
  }

  /** Where the list of process names stops: just before the first token repeats. */
  function ProcessCut(procs: seq<string>): (n: nat)
    ensures n <= |procs|
    ensures procs != [] ==> 1 <= n && forall j :: 1 <= j < n ==> procs[j] != procs[0]
    ensures n < |procs| ==> procs[n] == procs[0]
  {
    if procs == [] then 0 else 1 + FirstIndex(procs[1..], (p: string) => p == procs[0])
  }

  /** The loop of `getAllProcesses` over the tokens of the `process` line. */
  method ProcessList(procs: seq<string>) returns (processList: seq<string>)
    ensures processList == procs[..ProcessCut(procs)]
  {
    processList := [];
    var k := 0;
    while k < |procs| && (processList == [] || procs[k] != processList[0])
      invariant 0 <= k <= |procs|
      invariant processList == procs[..k]
      invariant k <= ProcessCut(procs)
    {
      processList := processList + [procs[k]];
      k := k + 1;
    }
  }

  /**
   * The list keeps the first process once: no later entry repeats it, while a
   * name other than the first may repeat.
   */
  lemma ProcessListFirstOnce(procs: seq<string>)
    requires procs != []
    ensures var r := procs[..ProcessCut(procs)];
      r != [] && r[0] == procs[0] && forall j :: 1 <= j < |r| ==> r[j] != r[0]
  {
  }

  /** `getAllProcesses`: the process list of the first line that starts with `process`, or None. */
  method GetAllProcesses(card: seq<string>) returns (r: Option<seq<string>>)
    ensures r.None? <==> forall k :: 0 <= k < |card| ==> !Heads(card[k], "process")
    ensures r.Some? ==> exists k :: (0 <= k < |card| && Heads(card[k], "process") &&
      (forall j :: 0 <= j < k ==> !Heads(card[j], "process")) &&
      r.value == SplitWs(card[k])[1..][..ProcessCut(SplitWs(card[k])[1..])])
  {
    for k := 0 to |card|
      invariant forall j :: 0 <= j < k ==> !Heads(card[j], "process")
    {
      var tokens := SplitWs(card[k]);
      if |tokens| == 0 {
        continue;
      }
      if tokens[0] == "process" {
        var processList := ProcessList(tokens[1..]);
        return Some(processList);
      }
    }
    return None;
  }

  /**
   * The value of `binList` in `getPreFitUncFromCard`: False before any `bin`
   * line, True after the first, then the bin names of a later one.
   */
  datatype BinList = NoBinLine | FirstBinLine | Bins(names: seq<string>)

  predicate Truthy(b: BinList) {
    b.FirstBinLine? || (b.Bins? && b.names != [])
  }

  /** `binList` after reading a line with these tokens. */
  function NextBins(tokens: seq<string>, binList: BinList): BinList
    requires tokens != []
  {
    if tokens[0] != "bin" then binList
    else if !Truthy(binList) then FirstBinLine
    else Bins(tokens[1..])
  }

  /** `estimateList` (None while it is False) after reading a line with these tokens. */
  function NextEstimates(tokens: seq<string>, estimateList: Option<seq<string>>): Option<seq<string>>
    requires tokens != []
  {
    if tokens[0] == "process" && (estimateList.None? || estimateList.value == []) then Some(tokens[1..])
    else estimateList
  }

  /**
   * The inner loop over the bins, from bin `i`, on an uncertainty line: the value
   * in the column of the first bin and process that match, or None to go on with
   * the next line.  `toFloat` is Python's `float` on a token, None where it raises.
   */
  function Column(tokens: seq<string>, bins: seq<string>, estimateList: Option<seq<string>>, i: nat,
                  estimateName: string, binName: string, toFloat: string -> Option<real>): Option<Result<real>>
    decreases |bins| - i
  {
    if i >= |bins| then None
    else if bins[i] != binName then Column(tokens, bins, estimateList, i + 1, estimateName, binName, toFloat)
    else if estimateList.None? then Some(Raises(TypeError))
    else if i >= |estimateList.value| then Some(Raises(IndexError))
    else if estimateList.value[i] != estimateName then Column(tokens, bins, estimateList, i + 1, estimateName, binName, toFloat)
    else if 2 + i < |tokens| && toFloat(tokens[2 + i]).Some? then Some(Ok(toFloat(tokens[2 + i]).value - 1.0))
    else Some(Ok(0.0))
  }

  /** What the scan of `getPreFitUncFromCard` returns from line `k` on. */
  function PreFitFrom(card: seq<string>, k: nat, binList: BinList, estimateList: Option<seq<string>>,
                      estimateName: string, uncName: string, binName: string,
                      toFloat: string -> Option<real>): Result<real>
    decreases |card| - k
  {
    if k >= |card| then Ok(0.0)
    else
      var tokens := SplitWs(card[k]);
      if tokens == [] then PreFitFrom(card, k + 1, binList, estimateList, estimateName, uncName, binName, toFloat)
      else
        var bins := NextBins(tokens, binList);
        var estimates := NextEstimates(tokens, estimateList);
        if tokens[0] != uncName then PreFitFrom(card, k + 1, bins, estimates, estimateName, uncName, binName, toFloat)
        else if !bins.Bins? then Raises(TypeError)
        else match Column(tokens, bins.names, estimates, 0, estimateName, binName, toFloat)
          case Some(r) => r
          case None => PreFitFrom(card, k + 1, bins, estimates, estimateName, uncName, binName, toFloat)
  }

  /**
   * `getPreFitUncFromCard`: the relative prefit uncertainty `uncName` of process
   * `estimateName` in bin `binName`, as read from the datacard's lines.
   */
  method GetPreFitUncFromCard(card: seq<string>, estimateName: string, uncName: string, binName: string,
                              toFloat: string -> Option<real>) returns (r: Result<real>)
    ensures r == PreFitFrom(card, 0, NoBinLine, None, estimateName, uncName, binName, toFloat)
  {
    var binList := NoBinLine;
    var estimateList: Option<seq<string>> := None;
    for k := 0 to |card|
      invariant PreFitFrom(card, 0, NoBinLine, None, estimateName, uncName, binName, toFloat) ==
        PreFitFrom(card, k, binList, estimateList, estimateName, uncName, binName, toFloat)
    {
      var tokens := SplitWs(card[k]);
      if |tokens| == 0 {
        continue;
      }
      if tokens[0] == "bin" {
        if !Truthy(binList) {
          binList := FirstBinLine;
        } else {
          binList := Bins(tokens[1..]);
        }
      }
      if tokens[0] == "process" {
        if estimateList.None? || estimateList.value == [] {
          estimateList := Some(tokens[1..]);
        }
      }
      if tokens[0] != uncName {
        continue;
      }
      if !binList.Bins? {
        // len() of a bool
        return Raises(TypeError);
      }
      var column := FindColumn(tokens, binList.names, estimateList, estimateName, binName, toFloat);
      if column.Some? {
        return column.value;
      }
    }
    return Ok(0.0);
  }

  /** The inner loop of `getPreFitUncFromCard` over the bins of an uncertainty line. */
  method FindColumn(tokens: seq<string>, bins: seq<string>, estimateList: Option<seq<string>>,
                    estimateName: string, binName: string, toFloat: string -> Option<real>) returns (r: Option<Result<real>>)
    ensures r == Column(tokens, bins, estimateList, 0, estimateName, binName, toFloat)
  {
    var i := 0;
    while i < |bins|
      invariant 0 <= i <= |bins|
      invariant Column(tokens, bins, estimateList, 0, estimateName, binName, toFloat) ==
        Column(tokens, bins, estimateList, i, estimateName, binName, toFloat)
    {
      if bins[i] == binName {
        if estimateList.None? {
          return Some(Raises(TypeError));
        }
        if i >= |estimateList.value| {
          return Some(Raises(IndexError));
        }
        if estimateList.value[i] == estimateName {
          var entries := if |tokens| >= 2 then tokens[2..] else [];
          if i < |entries| && toFloat(entries[i]).Some? {
            return Some(Ok(toFloat(entries[i]).value - 1.0));
          }
          // a muted entry such as "-"
          return Some(Ok(0.0));
        }
      }
      i := i + 1;
    }
    return None;
  }

  /** Without a line for the uncertainty the result is 0. */
  lemma {:induction false} NoUncertaintyLine(card: seq<string>, k: nat, binList: BinList, estimateList: Option<seq<string>>,
                                             estimateName: string, uncName: string, binName: string,
                                             toFloat: string -> Option<real>)
    requires forall j :: k <= j < |card| ==> !Heads(card[j], uncName)
    ensures PreFitFrom(card, k, binList, estimateList, estimateName, uncName, binName, toFloat) == Ok(0.0)
    decreases |card| - k
  {
    if k < |card| {
      var tokens := SplitWs(card[k]);
      if tokens == [] {
        NoUncertaintyLine(card, k + 1, binList, estimateList, estimateName, uncName, binName, toFloat);
      } else {
        NoUncertaintyLine(card, k + 1, NextBins(tokens, binList), NextEstimates(tokens, estimateList),
                          estimateName, uncName, binName, toFloat);
      }
    }
  }

  /** A column that is found either raises or holds 0 or a number read from the line, less one. */
  lemma {:induction false} ColumnValue(tokens: seq<string>, bins: seq<string>, estimateList: Option<seq<string>>, i: nat,
                                       estimateName: string, binName: string, toFloat: string -> Option<real>)
    ensures match Column(tokens, bins, estimateList, i, estimateName, binName, toFloat)
      case Some(Ok(v)) => v == 0.0 || exists j :: 2 <= j < |tokens| && toFloat(tokens[j]) == Some(v + 1.0)
      case _ => true
    decreases |bins| - i
  {
    if i < |bins| && (bins[i] != binName || (estimateList.Some? && i < |estimateList.value| && estimateList.value[i] != estimateName)) {
      ColumnValue(tokens, bins, estimateList, i + 1, estimateName, binName, toFloat);
    }
  }

  /** Line `n` is a line of uncertainty `uncName` holding the number `v + 1` after its second token. */
  predicate ReadOnLine(card: seq<string>, n: nat, uncName: string, v: real, toFloat: string -> Option<real>)
    requires n < |card|
  {
    Heads(card[n], uncName) &&
    exists j :: 2 <= j < |SplitWs(card[n])| && toFloat(SplitWs(card[n])[j]) == Some(v + 1.0)
  }

  /**
   * A non-zero uncertainty is a number on a line of that uncertainty, less one:
   * the value the datacard gives is `1 + uncertainty`.
   */
  lemma {:induction false} PreFitValue(card: seq<string>, k: nat, binList: BinList, estimateList: Option<seq<string>>,
                                       estimateName: string, uncName: string, binName: string,
                                       toFloat: string -> Option<real>)
    ensures match PreFitFrom(card, k, binList, estimateList, estimateName, uncName, binName, toFloat)
      case Ok(v) => v == 0.0 || exists n :: k <= n < |card| && ReadOnLine(card, n, uncName, v, toFloat)
      case _ => true
    decreases |card| - k
  {
    if k < |card| {
      var tokens := SplitWs(card[k]);
      if tokens == [] {
        PreFitValue(card, k + 1, binList, estimateList, estimateName, uncName, binName, toFloat);
      } else {
        var bins := NextBins(tokens, binList);
        var estimates := NextEstimates(tokens, estimateList);
        if tokens[0] == uncName && bins.Bins? {
          var c := Column(tokens, bins.names, estimates, 0, estimateName, binName, toFloat);
          if c.Some? {
            ColumnValue(tokens, bins.names, estimates, 0, estimateName, binName, toFloat);
            if c.value.Ok? && c.value.value != 0.0 {
              assert ReadOnLine(card, k, uncName, c.value.value, toFloat);
            }
          } else {
            PreFitValue(card, k + 1, bins, estimates, estimateName, uncName, binName, toFloat);
          }
        } else {
          PreFitValue(card, k + 1, bins, estimates, estimateName, uncName, binName, toFloat);
        }
      }
    }
  }

  /**
   * The first column whose bin and process both match decides: its number less
   * one, or 0 for a muted entry such as `-` (or a missing one).
   */
  lemma {:induction false} ColumnFirstMatch(tokens: seq<string>, bins: seq<string>, estimates: seq<string>, i: nat, at: nat,
                                            estimateName: string, binName: string, toFloat: string -> Option<real>)
    requires i <= at < |bins| && at < |estimates|
    requires bins[at] == binName && estimates[at] == estimateName
    requires forall j :: i <= j < at && bins[j] == binName ==> j < |estimates| && estimates[j] != estimateName
    ensures Column(tokens, bins, Some(estimates), i, estimateName, binName, toFloat) ==
      if 2 + at < |tokens| && toFloat(tokens[2 + at]).Some? then Some(Ok(toFloat(tokens[2 + at]).value - 1.0))
      else Some(Ok(0.0))
    decreases at - i
  {
    if i < at {
      ColumnFirstMatch(tokens, bins, estimates, i + 1, at, estimateName, binName, toFloat);
    }
  }

  /** The `scale` dictionary the caller passes, which `scaleCardFile` completes in place. */
  class ScaleDict {
    var entries: map<string, real>

    constructor (entries: map<string, real>)
      ensures this.entries == entries
    {
      this.entries := entries;
    }
  }

  /** `scale`: a dictionary by region, or one number for every region. */
  datatype Scale = ByRegion(dict: ScaleDict) | Everywhere(factor: real)

  /** What the card is rewritten with: the scale of every region and the processes it applies to. */
  datatype ScalePlan = ScalePlan(scale: map<string, real>, scaledProcesses: seq<string>, bgProcesses: seq<string>)

  /** `list.remove(x)`: drops the first `x`. */
  function RemoveFirst<T(==)>(s: seq<T>, x: T): (r: seq<T>)
    requires x in s
    ensures |r| == |s| - 1
    ensures exists i :: (0 <= i < |s| && s[i] == x && (forall j :: 0 <= j < i ==> s[j] != x) && r == s[..i] + s[i + 1..])
  {
    var i := FirstIndex(s, (y: T) => y == x);
    s[..i] + s[i + 1..]
  }

  /**
   * The checks and settings of `scaleCardFile` before it writes the card, with
   * `regions` and `processes` as the header lines gave them (None without such
   * a line).
   */
  method ScaleSetup(regions: Option<seq<string>>, processes: Option<seq<string>>, scale: Scale,
                    scaledProcesses: Option<seq<string>>) returns (r: Result<ScalePlan>)
    modifies if scale.ByRegion? then {scale.dict} else {}
    ensures regions.None? ==> r == Raises(TypeError)
    ensures regions.None? && scale.ByRegion? ==> scale.dict.entries == old(scale.dict.entries)
    ensures scale.ByRegion? && regions.Some? && (exists k :: k in old(scale.dict.entries) && k !in regions.value) ==>
      r == Raises(RaisedException) && scale.dict.entries == old(scale.dict.entries)
    ensures scale.ByRegion? && regions.Some? && (forall k :: k in old(scale.dict.entries) ==> k in regions.value) ==>
      (forall k :: k in scale.dict.entries <==> k in regions.value) &&
      (forall k :: k in old(scale.dict.entries) ==> scale.dict.entries[k] == old(scale.dict.entries)[k]) &&
      (forall k :: k in regions.value && k !in old(scale.dict.entries) ==> scale.dict.entries[k] == 1.0)
    ensures r.Ok? && scale.ByRegion? ==> r.value.scale == scale.dict.entries
    ensures r.Ok? && scale.Everywhere? ==> forall k :: k in r.value.scale <==> k in regions.value
    ensures r.Ok? && scale.Everywhere? ==> forall k :: k in r.value.scale ==> r.value.scale[k] == scale.factor
    ensures r.Ok? ==> processes.Some? && "signal" in processes.value
    ensures r.Ok? ==> r.value.bgProcesses == RemoveFirst(processes.value, "signal")
    ensures r.Ok? && scaledProcesses.None? ==> r.value.scaledProcesses == processes.value
    ensures r.Ok? && scaledProcesses.Some? ==> (r.value.scaledProcesses == scaledProcesses.value &&
      forall i :: 0 <= i < |scaledProcesses.value| ==> scaledProcesses.value[i] in processes.value)
    ensures (regions.Some? && scaledProcesses.Some? && processes.Some? &&
      exists i :: 0 <= i < |scaledProcesses.value| && scaledProcesses.value[i] !in processes.value) ==> r.Raises?
    ensures regions.Some? && processes.Some? && "signal" !in processes.value ==> r.Raises?
    ensures r.Ok? <==>
      && regions.Some?
      && (scale.ByRegion? ==> forall k :: k in old(scale.dict.entries) ==> k in regions.value)
      && processes.Some? && "signal" in processes.value
      && (scaledProcesses.Some? ==> forall i :: 0 <= i < |scaledProcesses.value| ==> scaledProcesses.value[i] in processes.value)
  {
    if regions.None? {
      // set(None), or iterating over None
      return Raises(TypeError);
    }
    var scaleMap: map<string, real>;
    match scale {
      case ByRegion(dict) =>
        if exists k :: k in dict.entries && k !in regions.value {
          return Raises(RaisedException);
        }
        // add the missing scales
        for i := 0 to |regions.value|
          invariant forall k :: k in dict.entries <==> k in old(dict.entries) || k in regions.value[..i]
          invariant forall k :: k in old(dict.entries) ==> dict.entries[k] == old(dict.entries)[k]
          invariant forall k :: k in dict.entries && k !in old(dict.entries) ==> dict.entries[k] == 1.0
        {
          var region := regions.value[i];
          if region !in dict.entries {
            dict.entries := dict.entries[region := 1.0];
          }
        }
        assert regions.value[..|regions.value|] == regions.value;
        scaleMap := dict.entries;
      case Everywhere(factor) =>
        scaleMap := map region | region in regions.value :: factor;
    }
    if processes.None? {
      if scaledProcesses.Some? {
        // set(None)
        return Raises(TypeError);
      }
      // None.remove("signal")
      return Raises(AttributeError);
    }
    var scaled: seq<string>;
    if scaledProcesses.None? {
      scaled := processes.value;
    } else {
      if exists i :: 0 <= i < |scaledProcesses.value| && scaledProcesses.value[i] !in processes.value {
        return Raises(RaisedException);
      }
      scaled := scaledProcesses.value;
    }
    if "signal" !in processes.value {
      // list.remove of a missing element
      return Raises(ValueError);
    }
    r := Ok(ScalePlan(scaleMap, scaled, RemoveFirst(processes.value, "signal")));
  }
}
