/**
 * `getCommands` of the condor submission script: one command per job.
 */
module SubmitCondor {
  import opened Wrappers
  import opened PyStr
  import opened SplitTag

  /** The suffix of job `i` of `n`: `" --nJobs %i --job %i" % (n, i)`. */
  function JobCommand(cmd: string, n: nat, i: nat): string {
    cmd + " --nJobs " + NatToString(n) + " --job " + NatToString(i)
  }

  /** The number of jobs asked for; `0` when there is no tag, as `if split` treats None. */
  function Jobs(line: string): nat {
    match SplitNumber(line)
    case None => 0
    case Some(n) => n
  }

  /**
   * `getCommands(line)`: nothing for an empty command; the command alone without
   * a tag or with `SPLIT0`; otherwise one command per job, numbered from 0.
   */
  method GetCommands(line: string) returns (commands: seq<string>)
    ensures CommandText(line) == "" ==> commands == []
    ensures CommandText(line) != "" && Jobs(line) == 0 ==> commands == [CommandText(line)]
    ensures CommandText(line) != "" && Jobs(line) > 0 ==>
      |commands| == Jobs(line) &&
      forall i :: 0 <= i < |commands| ==> commands[i] == JobCommand(CommandText(line), Jobs(line), i)
  {
    commands := [];
    var split := SplitNumber(line);
    var cmd := CommandText(line);
    if cmd != "" {
      if split.Some? && split.value != 0 {
        var i := 0;
        while i < split.value
          invariant 0 <= i <= split.value
          invariant |commands| == i
          invariant forall k :: 0 <= k < i ==> commands[k] == JobCommand(cmd, split.value, k)
        {
          commands := commands + [JobCommand(cmd, split.value, i)];
          i := i + 1;
        }
      } else {
        commands := commands + [cmd];
      }
    }
  }

  /** The job number can be read back from the end of a job's command. */
  lemma JobNumberReadBack(cmd: string, n: nat, i: nat)
    ensures var c := JobCommand(cmd, n, i);
      var k := |cmd + " --nJobs " + NatToString(n) + " --job "|;
      k <= |c| && (forall j :: k <= j < |c| ==> IsDigit(c[j])) && DecimalValue(c[k..]) == i
  {
    var c := JobCommand(cmd, n, i);
    var k := |cmd + " --nJobs " + NatToString(n) + " --job "|;
    assert c[k..] == NatToString(i);
    NatToStringRoundTrip(i);
  }

  /** All jobs of a split line get different commands. */
  lemma JobCommandsDistinct(cmd: string, n: nat, i: nat, j: nat)
    requires i != j
    ensures JobCommand(cmd, n, i) != JobCommand(cmd, n, j)
  {
    JobNumberReadBack(cmd, n, i);
    JobNumberReadBack(cmd, n, j);
  }
}
