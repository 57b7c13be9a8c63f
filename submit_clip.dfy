/**
 * The SLURM submission script: `getCommands` turns a line into at most one
 * (command, number of jobs) pair, and `make_batch_job` writes the submission
 * script and the execution script as lists of lines.
 */
module SubmitClip {
  import opened Wrappers
  import opened PyStr
  import opened SplitTag

  /** The number of jobs asked for, `1` where the line has no tag. */
  function ClipJobs(line: string): nat {
    match SplitNumber(line)
    case None => 1
    case Some(n) => n
  }

  /** The command of an array job: `" --nJobs %i --job $SLURM_ARRAY_TASK_ID" % split` appended. */
  function ArrayCommand(cmd: string, n: nat): string {
    cmd + " --nJobs " + NatToString(n) + " --job $SLURM_ARRAY_TASK_ID"
  }

  /** `getCommands(line)` */
  method GetCommands(line: string) returns (commands: seq<(string, nat)>)
    ensures commands == [] <==> CommandText(line) == ""
    ensures |commands| <= 1
    ensures commands != [] ==> commands[0].1 == ClipJobs(line)
    ensures commands != [] && ClipJobs(line) > 1 ==> commands[0].0 == ArrayCommand(CommandText(line), ClipJobs(line))
    ensures commands != [] && ClipJobs(line) <= 1 ==> commands[0].0 == CommandText(line)
  {
    commands := [];
    var split: nat := 1;
    var m := SplitNumber(line);
    if m.Some? {
      split := m.value;
    }
    var cmd := CommandText(line);
    if cmd != "" {
      if split > 1 {
        commands := commands + [(ArrayCommand(cmd, split), split)];
      } else {
        commands := commands + [(cmd, split)];
      }
    }
  }

  /** The command of a split line is the same for every job; the job number comes from SLURM. */
  lemma ArrayCommandKeepsCommand(cmd: string, n: nat)
    ensures StartsWith(ArrayCommand(cmd, n), cmd)
    ensures EndsWith(ArrayCommand(cmd, n), "$SLURM_ARRAY_TASK_ID")
  {
    var c := ArrayCommand(cmd, n);
    assert c[..|cmd|] == cmd;
    assert c[|c| - |"$SLURM_ARRAY_TASK_ID"|..] == "$SLURM_ARRAY_TASK_ID";
  }

  /**
   * The options `make_batch_job` reads.  An integer option is None when not
   * given; a string option is "" when not given (both are false in `if`).
   */
  datatype Options = Options(title: string, output: string, nNodes: Option<int>, nTasks: Option<int>,
                             nCPUs: Option<int>, memory: Option<int>, walltime: string,
                             nGPUs: Option<int>, partition: string, cmssw: string)

  /** Python's truth value of an optional integer. */
  predicate Set(o: Option<int>) { o.Some? && o.value != 0 }

  /** An `#SBATCH` directive of the submission script. */
  datatype Sbatch =
    | JobName(title: string)
    | WorkDir(dir: string)
    | OutputLog(path: string)
    | ErrorLog(path: string)
    | Nodes(n: int)
    | Tasks(n: int)
    | CpusPerTask(n: int)
    | MemPerCpu(gb: int)
    | Time(walltime: string)
    | Gpus(n: int)
    | Partition(name: string)
    | Array(last: int)

  /** A line of the submission script: a directive or a shell line. */
  datatype Line = Directive(d: Sbatch) | Text(s: string)

  /** The text written for a directive. */
  function RenderSbatch(d: Sbatch): string {
    match d
    case JobName(t) => "#SBATCH -J " + t
    case WorkDir(p) => "#SBATCH -D " + p
    case OutputLog(p) => "#SBATCH -o " + p
    case ErrorLog(p) => "#SBATCH -e " + p
    case Nodes(n) => "#SBATCH --nodes=" + IntToString(n)
    case Tasks(n) => "#SBATCH --ntasks=" + IntToString(n)
    case CpusPerTask(n) => "#SBATCH --cpus-per-task=" + IntToString(n)
    case MemPerCpu(n) => "#SBATCH --mem-per-cpu=" + IntToString(n) + "G"
    case Time(s) => "#SBATCH --time=" + s
    case Gpus(n) => "#SBATCH --gres=gpu:" + IntToString(n)
    case Partition(p) => "#SBATCH --partition " + p
    case Array(n) => "#SBATCH --array=0-" + IntToString(n)
  }

  /** The text written for a line of the submission script. */
  function Render(l: Line): string {
    match l
    case Directive(d) => RenderSbatch(d)
    case Text(s) => s
  }

  /** The shell line that runs the execution script. */
  function RunLine(cmssw: string, script: string): string {
    if cmssw != "" then "singularity exec /mnt/hephy/cms/test/cmssw_CMSSW_" + cmssw + ".sif sh " + script
    else "sh " + script
  }

  /** The log file names: array-style names for more than one job. */
  function OutLog(output: string, nJobs: int): string {
    if nJobs > 1 then output + "/clipBatch.%J.%A-%a.out" else output + "/batch.%J.out"
  }

  function ErrLog(output: string, nJobs: int): string {
    if nJobs > 1 then output + "/clipBatch.%J.%A-%a.err" else output + "/batch.%J.err"
  }

  /** A directive set by an option rather than one of the four every script has. */
  predicate Optional(d: Sbatch) {
    !(d.JobName? || d.WorkDir? || d.OutputLog? || d.ErrorLog?)
  }

  /**
   * The optional directive `d` is written: each appears when its option is set,
   * carrying the option's value, and the job array when there is more than one job.
   */
  predicate Wanted(opts: Options, nJobs: int, d: Sbatch) {
    match d
    case Nodes(n) => Set(opts.nNodes) && n == opts.nNodes.value
    case Tasks(n) => Set(opts.nTasks) && n == opts.nTasks.value
    case CpusPerTask(n) => Set(opts.nCPUs) && n == opts.nCPUs.value
    case MemPerCpu(n) => Set(opts.memory) && n == opts.memory.value
    case Time(t) => opts.walltime != "" && t == opts.walltime
    case Gpus(n) => Set(opts.nGPUs) && n == opts.nGPUs.value
    case Partition(p) => opts.partition != "" && p == opts.partition
    case Array(last) => nJobs > 1 && last == nJobs - 1
    case _ => false
  }

  /** The directives asking for nodes, tasks, cores and memory. */
  predicate Resource(d: Sbatch) { d.Nodes? || d.Tasks? || d.CpusPerTask? || d.MemPerCpu? }

  /** The first four optional directives: the resources asked for. */
  method ResourceDirectives(opts: Options, nJobs: int) returns (ds: seq<Sbatch>)
    ensures forall d :: d in ds <==> Wanted(opts, nJobs, d) && Resource(d)
  {
    ds := [];
    if Set(opts.nNodes) {
      ds := ds + [Nodes(opts.nNodes.value)];
    }
    if Set(opts.nTasks) {
      ds := ds + [Tasks(opts.nTasks.value)];
    }
    if Set(opts.nCPUs) {
      ds := ds + [CpusPerTask(opts.nCPUs.value)];
    }
    if Set(opts.memory) {
      ds := ds + [MemPerCpu(opts.memory.value)];
    }
  }

  /** The last four optional directives: wall time, GPUs, partition and the job array. */
  method PlacementDirectives(opts: Options, nJobs: int) returns (ds: seq<Sbatch>)
    ensures forall d :: d in ds <==> Wanted(opts, nJobs, d) && !Resource(d)
  {
    ds := [];
    if opts.walltime != "" {
      ds := ds + [Time(opts.walltime)];
    }
    if Set(opts.nGPUs) {
      ds := ds + [Gpus(opts.nGPUs.value)];
    }
    if opts.partition != "" {
      ds := ds + [Partition(opts.partition)];
    }
    if nJobs > 1 {
      ds := ds + [Array(nJobs - 1)];
    }
  }

  /** The optional `#SBATCH` directives of `make_batch_job`, in the order it writes them. */
  method OptionalDirectives(opts: Options, nJobs: int) returns (ds: seq<Sbatch>)
    ensures forall d :: d in ds <==> Wanted(opts, nJobs, d)
  {
    var resources := ResourceDirectives(opts, nJobs);
    var placement := PlacementDirectives(opts, nJobs);
    ds := resources + placement;
  }

  /** The directives as lines. */
  function AsLines(ds: seq<Sbatch>): (lines: seq<Line>)
    ensures |lines| == |ds| && forall i :: 0 <= i < |ds| ==> lines[i] == Directive(ds[i])
  {
    if ds == [] then [] else [Directive(ds[0])] + AsLines(ds[1..])
  }

  /** The directives of the middle part are those of `ds`, when the outer parts hold none of them. */
  lemma MiddleLines(pre: seq<Line>, ds: seq<Sbatch>, post: seq<Line>)
    requires forall i :: 0 <= i < |pre| && pre[i].Directive? ==> !Optional(pre[i].d)
    requires forall i :: 0 <= i < |post| ==> post[i].Text?
    ensures forall d :: Optional(d) ==> (Directive(d) in pre + AsLines(ds) + post <==> d in ds)
  {
    var lines := pre + AsLines(ds) + post;
    forall d | Optional(d) ensures Directive(d) in lines <==> d in ds {
      if d in ds {
        var i :| 0 <= i < |ds| && ds[i] == d;
        assert lines[|pre| + i] == Directive(d);
      }
      if Directive(d) in lines {
        var i :| 0 <= i < |lines| && lines[i] == Directive(d);
        assert ds[i - |pre|] == d;
      }
    }
  }

  /** Line `i` of a script or file joined from three parts. */
  lemma PartAt<T>(a: seq<T>, b: seq<T>, c: seq<T>, i: int)
    requires 0 <= i < |a| + |b| + |c|
    ensures (a + b + c)[i] == if i < |a| then a[i] else if i < |a| + |b| then b[i - |a|] else c[i - |a| - |b|]
  {
  }

  /** The head of the submission file: the shell line, the job name, the directory and the logs. */
  method HeaderLines(opts: Options, cwd: string, nJobs: int) returns (header: seq<Line>)
    ensures |header| == 7 && header[0] == Text("#!/usr/bin/bash")
    ensures header[2] == Directive(JobName(opts.title)) && header[3] == Directive(WorkDir(cwd))
    ensures header[4] == Directive(OutputLog(OutLog(opts.output, nJobs)))
    ensures header[5] == Directive(ErrorLog(ErrLog(opts.output, nJobs)))
    ensures forall i :: 0 <= i < |header| && header[i].Directive? ==> !Optional(header[i].d)
  {
    header := [Text("#!/usr/bin/bash"), Text(""), Directive(JobName(opts.title)), Directive(WorkDir(cwd))];
    if nJobs > 1 {
      header := header + [Directive(OutputLog(opts.output + "/clipBatch.%J.%A-%a.out"))];
      header := header + [Directive(ErrorLog(opts.output + "/clipBatch.%J.%A-%a.err"))];
    } else {
      header := header + [Directive(OutputLog(opts.output + "/batch.%J.out"))];
      header := header + [Directive(ErrorLog(opts.output + "/batch.%J.err"))];
    }
    header := header + [Text("")];
  }

  /** The end of the submission file: run the execution script (in the container for CMSSW), then remove it. */
  method RunSection(opts: Options, script: string) returns (tail: seq<Line>)
    ensures |tail| >= 4 && forall i :: 0 <= i < |tail| ==> tail[i].Text?
    ensures tail[|tail| - 3] == Text(RunLine(opts.cmssw, script))
    ensures tail[|tail| - 2] == Text("rm " + script)
    ensures tail[|tail| - 1] == Text("echo Removed execution file: " + script)
  {
    var run: seq<Line>;
    if opts.cmssw != "" {
      run := [Text("echo Loading CMSSW version " + opts.cmssw + " from singularity container /mnt/hephy/cms/test/cmssw_CMSSW_" + opts.cmssw + ".sif"),
              Text("module load singularity/3.4.1"),
              Text("singularity exec /mnt/hephy/cms/test/cmssw_CMSSW_" + opts.cmssw + ".sif sh " + script)];
    } else {
      run := [Text("sh " + script)];
    }
    tail := [Text("")] + run + [Text("rm " + script), Text("echo Removed execution file: " + script)];
  }

  /** Where the header lines, the directives and the tail end up in the submission file. */
  lemma Assembled(header: seq<Line>, ds: seq<Sbatch>, tail: seq<Line>)
    requires |header| == 7 && |tail| >= 4
    requires forall i :: 0 <= i < |header| && header[i].Directive? ==> !Optional(header[i].d)
    requires forall i :: 0 <= i < |tail| ==> tail[i].Text?
    ensures var s := header + AsLines(ds) + tail;
      && s[0] == header[0] && s[2] == header[2] && s[3] == header[3] && s[4] == header[4] && s[5] == header[5]
      && s[|s| - 3] == tail[|tail| - 3] && s[|s| - 2] == tail[|tail| - 2] && s[|s| - 1] == tail[|tail| - 1]
      && forall d :: Optional(d) ==> (Directive(d) in s <==> d in ds)
  {
    var lines := AsLines(ds);
    var s := header + lines + tail;
    PartAt(header, lines, tail, |s| - 3);
    PartAt(header, lines, tail, |s| - 2);
    PartAt(header, lines, tail, |s| - 1);
    MiddleLines(header, ds, tail);
  }

  /** `submitCommands` of `make_batch_job`: the header, the optional directives, then the run. */
  method SubmitCommands(opts: Options, cwd: string, script: string, nJobs: int) returns (submit: seq<Line>)
    ensures |submit| >= 3 && submit[0] == Text("#!/usr/bin/bash")
    ensures Directive(JobName(opts.title)) in submit && Directive(WorkDir(cwd)) in submit
    ensures Directive(OutputLog(OutLog(opts.output, nJobs))) in submit
    ensures Directive(ErrorLog(ErrLog(opts.output, nJobs))) in submit
    ensures forall d :: Optional(d) ==> (Directive(d) in submit <==> Wanted(opts, nJobs, d))
    ensures exists i :: 0 <= i < |submit| - 2 && submit[i] == Text(RunLine(opts.cmssw, script))
    ensures submit[|submit| - 3] == Text(RunLine(opts.cmssw, script))
    ensures forall i :: 0 <= i < |submit| && submit[i].Directive? ==> i < |submit| - 3
    ensures submit[|submit| - 2] == Text("rm " + script)
    ensures submit[|submit| - 1] == Text("echo Removed execution file: " + script)
  {
    var header := HeaderLines(opts, cwd, nJobs);
    var ds := OptionalDirectives(opts, nJobs);
    var tail := RunSection(opts, script);
    submit := header + AsLines(ds) + tail;
    Assembled(header, ds, tail);
    assert submit[|submit| - 2] == tail[|tail| - 2] && submit[|submit| - 1] == tail[|tail| - 1];
    assert submit[|submit| - 3] == tail[|tail| - 3] by {
      PartAt(header, AsLines(ds), tail, |submit| - 3);
    }
    DirectivesBeforeTail(header, AsLines(ds), tail);
  }

  /** Every directive of a file joined from three parts lies before the last part when that part has none. */
  lemma DirectivesBeforeTail(header: seq<Line>, middle: seq<Line>, tail: seq<Line>)
    requires forall i :: 0 <= i < |tail| ==> tail[i].Text?
    ensures var s := header + middle + tail;
      forall i :: 0 <= i < |s| && s[i].Directive? ==> i < |header| + |middle|
  {
    var s := header + middle + tail;
    forall i | 0 <= i < |s| && s[i].Directive?
      ensures i < |header| + |middle|
    {
      PartAt(header, middle, tail, i);
    }
  }

  /** The line that runs the user's command: through `srun` for every task when tasks are set. */
  function UserLine(opts: Options, command: string): string {
    if Set(opts.nTasks) then "srun -l " + command else command
  }

  /** The start of the execution script: the CMSSW environment and, with a proxy, its check. */
  method SetupLines(opts: Options, proxyCmd: string) returns (lines: seq<string>)
    ensures |lines| == 2 + (if opts.cmssw != "" then 1 else 0) + (if opts.cmssw != "" && proxyCmd != "" then 5 else 0)
    ensures lines[0] == "#!/usr/bin/bash" && lines[1] == ""
    ensures opts.cmssw != "" ==> lines[2] == "eval $(/opt/cms/common/scram runtime -sh)"
    ensures opts.cmssw != "" && proxyCmd != "" ==> lines[3] == proxyCmd && lines[7] == "voms-proxy-info -all"
  {
    lines := ["#!/usr/bin/bash", ""];
    if opts.cmssw != "" {
      lines := lines + ["eval $(/opt/cms/common/scram runtime -sh)"];
      if proxyCmd != "" {
        lines := lines + [proxyCmd, "echo", "echo Checking Proxy Certificate:", "echo", "voms-proxy-info -all"];
      }
    }
  }

  /** The user's command, announced and then run (through `srun` when tasks are set). */
  method RunLines(opts: Options, command: string) returns (lines: seq<string>)
    ensures |lines| == 5 && lines[0] == "echo" && lines[4] == UserLine(opts, command)
  {
    lines := ["echo"];
    if Set(opts.nTasks) {
      lines := lines + ["echo Executing user command for each of the " + IntToString(opts.nTasks.value) + " tasks"];
      lines := lines + ["echo srun -l " + command, "echo", "srun -l " + command];
    } else {
      lines := lines + ["echo Executing user command:", "echo " + command, "echo", command];
    }
  }

  /** The end of the execution script: the proxy check again, then the command echoed. */
  method DoneLines(opts: Options, command: string, proxyCmd: string) returns (lines: seq<string>)
    ensures |lines| == 4 + (if opts.cmssw != "" && proxyCmd != "" then 3 else 0)
    ensures opts.cmssw != "" && proxyCmd != "" ==> lines[3] == "voms-proxy-info -all"
    ensures lines[|lines| - 3] == "echo"
    ensures lines[|lines| - 2] == "echo Done executing command:" && lines[|lines| - 1] == "echo " + command
  {
    lines := ["echo"];
    if proxyCmd != "" && opts.cmssw != "" {
      lines := lines + ["echo Checking Proxy Certificate:", "echo", "voms-proxy-info -all"];
    }
    lines := lines + ["echo", "echo Done executing command:", "echo " + command];
  }

  /** `scriptCommands` of `make_batch_job`: the execution script. */
  method ScriptCommands(opts: Options, command: string, proxyCmd: string) returns (script: seq<string>)
    ensures |script| == 11 + (if opts.cmssw != "" then 1 else 0) + (if opts.cmssw != "" && proxyCmd != "" then 8 else 0)
    ensures script[0] == "#!/usr/bin/bash" && script[1] == ""
    ensures opts.cmssw != "" ==> script[2] == "eval $(/opt/cms/common/scram runtime -sh)"
    ensures opts.cmssw != "" && proxyCmd != "" ==> script[3] == proxyCmd && script[7] == "voms-proxy-info -all"
    ensures opts.cmssw != "" && proxyCmd != "" ==> script[|script| - 4] == "voms-proxy-info -all"
    ensures exists i :: 2 <= i < |script| - 3 && script[i] == UserLine(opts, command)
    ensures script[|script| - 2] == "echo Done executing command:"
    ensures script[|script| - 1] == "echo " + command
  {
    var setup := SetupLines(opts, proxyCmd);
    var run := RunLines(opts, command);
    var done := DoneLines(opts, command, proxyCmd);
    script := setup + run + done;
    PartAt(setup, run, done, 0);
    PartAt(setup, run, done, 1);
    if opts.cmssw != "" {
      PartAt(setup, run, done, 2);
      if proxyCmd != "" {
        PartAt(setup, run, done, 3);
        PartAt(setup, run, done, 7);
        PartAt(setup, run, done, |script| - 4);
      }
    }
    PartAt(setup, run, done, |setup| + 4);
    PartAt(setup, run, done, |script| - 2);
    PartAt(setup, run, done, |script| - 1);
  }

  /**
   * `make_batch_job(file, script, command, proxy_cmd, nJobs)`: the lines of the
   * submission file and of the execution script, which the source writes to
   * `file` and `script`.
   */
  method MakeBatchJob(opts: Options, cwd: string, scriptFile: string, command: string, proxyCmd: string, nJobs: int)
    returns (submit: seq<Line>, script: seq<string>)
    ensures |submit| >= 3 && submit[0] == Text("#!/usr/bin/bash")
    ensures Directive(JobName(opts.title)) in submit && Directive(WorkDir(cwd)) in submit
    ensures Directive(OutputLog(OutLog(opts.output, nJobs))) in submit
    ensures Directive(ErrorLog(ErrLog(opts.output, nJobs))) in submit
    ensures forall d :: Optional(d) ==> (Directive(d) in submit <==> Wanted(opts, nJobs, d))
    ensures exists i :: 0 <= i < |submit| - 2 && submit[i] == Text(RunLine(opts.cmssw, scriptFile))
    ensures submit[|submit| - 3] == Text(RunLine(opts.cmssw, scriptFile))
    ensures forall i :: 0 <= i < |submit| && submit[i].Directive? ==> i < |submit| - 3
    ensures submit[|submit| - 2] == Text("rm " + scriptFile)
    ensures submit[|submit| - 1] == Text("echo Removed execution file: " + scriptFile)
    ensures |script| == 11 + (if opts.cmssw != "" then 1 else 0) + (if opts.cmssw != "" && proxyCmd != "" then 8 else 0)
    ensures script[0] == "#!/usr/bin/bash" && script[1] == ""
    ensures opts.cmssw != "" ==> script[2] == "eval $(/opt/cms/common/scram runtime -sh)"
    ensures opts.cmssw != "" && proxyCmd != "" ==> script[3] == proxyCmd && script[7] == "voms-proxy-info -all"
    ensures opts.cmssw != "" && proxyCmd != "" ==> script[|script| - 4] == "voms-proxy-info -all"
    ensures exists i :: 2 <= i < |script| - 3 && script[i] == UserLine(opts, command)
    ensures script[|script| - 2] == "echo Done executing command:"
    ensures script[|script| - 1] == "echo " + command
  {
    submit := SubmitCommands(opts, cwd, scriptFile, nJobs);
    script := ScriptCommands(opts, command, proxyCmd);
  }

  /** A job array is requested exactly when there is more than one job, covering jobs 0 to nJobs - 1. */
  lemma ArrayIff(opts: Options, nJobs: int)
    ensures (exists last :: Wanted(opts, nJobs, Array(last))) <==> nJobs > 1
    ensures forall last :: Wanted(opts, nJobs, Array(last)) ==> last + 1 == nJobs
  {
    if nJobs > 1 {
      assert Wanted(opts, nJobs, Array(nJobs - 1));
    }
  }

  /** A resource directive is written only with the option's own value. */
  lemma NodesIff(opts: Options, nJobs: int)
    ensures (exists n :: Wanted(opts, nJobs, Nodes(n))) <==> Set(opts.nNodes)
  {
    if Set(opts.nNodes) {
      assert Wanted(opts, nJobs, Nodes(opts.nNodes.value));
    }
  }
}
