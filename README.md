# Analysis tools — a verified model of the caches and their helpers

This project models the cache and bookkeeping core of a CMS analysis
toolkit, together with the small helpers around it.

- **`MergingDirDB`** is a directory-based result cache that concurrent
  batch jobs share.
  - Each process writes its own `tmp_<uuid>` pickle file.
  - Reads look at every `tmp_*` file and at `merged`, and return the value
    from the newest file by modification time.
  - `merge` folds all tmp files, oldest first, into `merged`. With
    `clear`, it then deletes the tmp files, but only if `merged` loads
    back.
- **`DirDB`** is the older variant: one pickle file per key, sharded by the
  first four characters of the key's hash.
- **`mergeCache.py`** walks a directory tree and merges every cache it
  finds.
- The physics-object helpers:
  - the memoizing decorator;
  - first-match generator-particle searches;
  - photon ancestry categories of the tt+gamma overlap removal;
  - jet/lepton cross-cleaning;
  - the recoil corrector's bin lookup;
  - the ISR weight.
- The batch and bookkeeping scripts:
  - `squeue` parsing and filtering;
  - `SPLIT<n>` command expansion for HTCondor and SLURM, and the SLURM
    submit and execution scripts;
  - combine data-card parsing and scale setup;
  - DPM wildcard path expansion and removal;
  - the string-check closures of the C++ utilities;
  - the nested-dictionary map of the post-fit tools.

How the model is built:

- The filesystem is a value: a map from directory to a listing of
  entries, each with a name, an mtime and its content as pickle would load
  it.
- The listing order is the order of `os.listdir`.
- The clock, the uuid, `pickle.dump`, `hash`, `os.listdir` of the DPM
  tree and float parsing are parameters.
- Writing a pickle is a parameter that either gives what the file then
  loads back as, or raises (IOError when the file cannot be opened, or
  whatever pickling raises), and then nothing is written.
- Classes whose fields the source updates become Dafny classes:
  `MergingDirDB`, `DirDB`, the memoizer, the scale dictionary, and the
  disk they write to.
- Loops become methods, each proved against a specification function.
- Pure code becomes functions and lemmas.
- Python exceptions are values of a `Result` type: the raises of the
  modelled code, of the file reads and writes, and of `os.makedirs` in
  `DirDB(directory)` and `DirDB.add`.
  Exceptions of the interpreter itself (memory, recursion) are not
  modelled, except where the source catches them.

## Model

| member | source | states |
|---|---|---|
| FileStore.ReadKey | Tools/python/MergingDirDB.py:16-24 | a missing or unreadable file and a dict without the key give None; a corrupt pickle raises; a pickled None raises AttributeError at `has_key`; otherwise the stored value |
| FileStore.ReadDict | Tools/python/MergingDirDB.py:27-33 | an unreadable file gives None, a corrupt one raises, otherwise the loaded object |
| FileStore.Write | Tools/python/MergingDirDB.py:73 | after writing, looking the name up finds the new entry; no entry appears that was not there or written |
| FileStore.WriteKeepsNamesDistinct | Tools/python/MergingDirDB.py:73 | a write replaces the file of its name or adds one, so a listing whose names are distinct keeps them distinct |
| FileStore.WriteOthers | Tools/python/MergingDirDB.py:73 | writing one file leaves every other name's entry as it was |
| FileStore.WriteKeepsTmp | Tools/python/MergingDirDB.py:127 | writing `merged` does not change the set of tmp files |
| FileStore.TmpEntriesAre | Tools/python/MergingDirDB.py:91-92 | `tmp_files` lists exactly the entries whose names start with `tmp_` |
| FileStore.MergedNotTmp | Tools/python/MergingDirDB.py:96-98 | the merged file is never one of the tmp files |
| FileStore.LookupFilter | Tools/python/MergingDirDB.py:137-138 | removing entries a name is kept by leaves that name's lookup unchanged |
| MergingDirDb.FirstRaiseSpec | Tools/python/MergingDirDB.py:104-107 | the read over all files raises exactly when some file's read raises, and the first such exception escapes |
| MergingDirDb.YieldedIsFilter | Tools/python/MergingDirDB.py:104-107 | the results collected are the (value, mtime) of exactly the files that hold the key, in listing order |
| MergingDirDb.ReadNoneIff | Tools/python/MergingDirDB.py:100-108 | `read_from_all_files` gives None iff no tmp file and not `merged` holds the key |
| MergingDirDb.ReadRaises | Tools/python/MergingDirDB.py:100-107 | the read raises iff some scanned file's read raises, and it raises that file's exception |
| MergingDirDb.ReadNewest | Tools/python/MergingDirDB.py:108-112 | a found value comes from a file with the largest mtime among those holding the key, the last such one in listing order on ties |
| MergingDirDb.FoldOnNone | Tools/python/MergingDirDB.py:119-126 | folding tmp files into a None base raises AttributeError |
| MergingDirDb.FoldOk | Tools/python/MergingDirDB.py:125-126 | a successful fold had a dict base and only dict-valued tmp files, and gives a dict |
| MergingDirDb.FoldDicts | Tools/python/MergingDirDB.py:125-126 | a dict base and dict-valued tmp files always fold successfully |
| MergingDirDb.FoldKey | Tools/python/MergingDirDB.py:125-126 | after the fold a key holds the value of the last tmp file that has it, or the base value when none has it |
| MergingDirDb.MergeNewestWins | Tools/python/MergingDirDB.py:114-127 | in the merged dict each key holds the value of the newest tmp file that has it, or the old merged value |
| MergingDirDb.MergeOnNoneRaises | Tools/python/MergingDirDB.py:115-126 | an unreadable `merged` with tmp files present makes `merge` raise before writing |
| MergingDirDb.FoldIdempotent | Tools/python/MergingDirDB.py:125-126 | folding the same tmp files again into the result changes nothing |
| MergingDirDb.MergeTwice | Tools/python/MergingDirDB.py:114-127 | merging again without clearing writes the same merged object |
| MergingDirDb.ClearOutcome | Tools/python/MergingDirDB.py:127-138 | a successful `merge(clear=True)` read `merged` and wrote it without a raise, at the current time; the tmp files are gone iff `merged` loads back; other files stay |
| MergingDirDb.ReadAfterClear | Tools/python/MergingDirDB.py:100-138 | after a clearing merge every key reads back as it stands in the merged dict |
| MergingDirDb.ReadOnlyMerged | Tools/python/MergingDirDB.py:100-112 | when `merged` is the only file the read consults, a key reads back as its value in the merged dict, or None when the dict lacks it |
| MergingDirDb.MergeSpecOk | Tools/python/MergingDirDB.py:114-138 | after a successful fold, a raising write of `merged` is what `merge` raises, before anything is cleared; otherwise `merged` is written and the tmp files are cleared only when asked and `merged` loads |
| MergingDirDb.AddVisible | Tools/python/MergingDirDB.py:64-112 | a value just added under a fresh mtime is what the next read returns |
| MergingDirDb.NewestFileWins | Tools/python/MergingDirDB.py:100-112 | a dict file holding the key that is strictly newer than every other readable file decides the read: no exception, and its value is returned |
| MergingDirDb.AddedScan | Tools/python/MergingDirDB.py:91-104 | after an add the scanned files hold the new tmp entry, and every other entry is older |
| MergingDirDb.MergingDirDB.constructor | Tools/python/MergingDirDB.py:36-50 | the directory is created if missing; the data dict is empty; the tmp file is `tmp_` plus the uuid, which the source takes to be new to the directory |
| MergingDirDb.MergingDirDB.ReadFromAllFiles | Tools/python/MergingDirDB.py:100-112 | the loop over the tmp files and `merged` computes the read specification |
| MergingDirDb.MergingDirDB.Get | Tools/python/MergingDirDB.py:77-83 | a key of the private dict is answered from it; otherwise the read over all files |
| MergingDirDb.MergingDirDB.Contains | Tools/python/MergingDirDB.py:85-88 | true iff `get` is not None, and it raises what `get` raises |
| MergingDirDb.MergingDirDB.Add | Tools/python/MergingDirDB.py:64-75 | without overwrite, a key already present anywhere (or a read that raises) stores nothing; otherwise the private dict gains the key and is written whole to the process's tmp file, and a write that raises propagates with the dict already updated and the disk unchanged |
| MergingDirDb.MergingDirDB.UpdateFromTmpFiles | Tools/python/MergingDirDB.py:121-126 | the loop over the tmp files sorted by mtime computes the fold |
| MergingDirDb.MergingDirDB.RemoveTmpFiles | Tools/python/MergingDirDB.py:137-138 | the directory afterwards is the old one without its tmp files |
| MergingDirDb.MergingDirDB.Merge | Tools/python/MergingDirDB.py:114-138 | `merge` raises and changes nothing, or leaves the directory as the merge specification says |
| StableSort.SortAscending | Tools/python/MergingDirDB.py:109 | sorting by mtime gives an ascending sequence |
| StableSort.SortLastIsNewest | Tools/python/MergingDirDB.py:109-112 | the last element after the stable sort is a newest element, the last of the newest in input order |
| StableSort.FilterSort | Tools/python/MergingDirDB.py:109-124 | filtering commutes with the stable sort |
| StableSort.InsertElements | Tools/python/MergingDirDB.py:109 | the sort is a permutation |
| DirDb.FileName | Tools/python/DirDB.py:24-29 | hashes longer than four characters are split after the fourth by a `/`; shorter ones are the file name |
| DirDb.UnshardFileName | Tools/python/DirDB.py:24-29 | the file name gives back the hash |
| DirDb.SameFileIff | Tools/python/DirDB.py:24-29 | two keys share a file iff their hashes are equal |
| DirDb.Load | Tools/python/DirDB.py:31-42 | a path that is no file (missing, or a directory) or an unreadable file gives None, a corrupt one raises, otherwise the stored value |
| DirDb.Open | Tools/python/DirDB.py:15-22 | `DirDB(directory)` raises OSError iff a file sits at the cache directory's path; otherwise a new database on the given directories and files, with the cache directory created |
| DirDb.DirDB.constructor | Tools/python/DirDB.py:15-22 | the non-raising path of `DirDB(directory)`: the database starts on the given directories and files, with the cache directory created |
| DirDb.DirDB.Get | Tools/python/DirDB.py:31-42 | `get` loads the key's sharded file |
| DirDb.DirDB.Add | Tools/python/DirDB.py:44-53 | a file where the shard directory should go raises OSError; otherwise the shard directory exists afterwards; an existing file or directory of the key's name is kept unless overwriting; a directory there raises IOError; a raising dump propagates with nothing written; otherwise the data is written and reads back |
| DirDb.CollidingAdd | Tools/python/DirDB.py:24-53 | two keys with the same hash share one file, and the first writer wins |
| DirDb.FileBlocksShard | Tools/python/DirDB.py:24-53 | once a four-character hash's file exists, adding a key whose longer hash starts with it raises OSError |
| DirDb.ShardBlocksFile | Tools/python/DirDB.py:24-53 | once a longer hash's shard directory exists, the four-character hash's key is refused or raises IOError, and reads as None |
| MergeCache.AnyTmp | Tools/scripts/mergeCache.py:26 | true iff some listed name starts with `tmp_` |
| MergeCache.TestIfCache | Tools/scripts/mergeCache.py:22-28 | a directory is a cache iff it lists `merged` or a `tmp_` file |
| MergeCache.TestIfCacheOnListing | Tools/scripts/mergeCache.py:22-28 | on a cache listing: `merged` exists or there are tmp files |
| MergeCache.JoinAll | Tools/scripts/mergeCache.py:38-40 | each child name is joined to the root argument |
| MergeCache.CandidatesIgnoreDirpath | Tools/scripts/mergeCache.py:37-40 | the candidates depend only on the walk's dirnames, never on dirpath |
| MergeCache.SelectWith | Tools/scripts/mergeCache.py:34-40 | the selected directories are the root if it is a cache, then every joined candidate that is a cache, in walk order |
| MergeCache.SelectIn | Tools/scripts/mergeCache.py:38-40 | the inner loop keeps exactly the joined directory names that pass the test, in order |
| MergeCache.SelectCaches | Tools/scripts/mergeCache.py:34-40 | the selection on the disk is `Selected` |
| MergeCache.MergeDirsElsewhere | Tools/scripts/mergeCache.py:42-45 | directories not selected are left unchanged |
| MergeCache.MergeDirsAll | Tools/scripts/mergeCache.py:42-45 | when no merge raises, every selected directory satisfies what each merge establishes |
| MergeCache.MergedAfterMerge | Tools/scripts/mergeCache.py:45 | a successful merge leaves a `merged` file |
| MergeCache.MergeDirsMerged | Tools/scripts/mergeCache.py:42-45 | after a run with no exception, every selected directory has a `merged` file |
| MergeCache.MergeDirsStops | Tools/scripts/mergeCache.py:42-45 | the first exception ends the run: later directories are not touched |
| MergeCache.MergeOne | Tools/scripts/mergeCache.py:44-45 | one directory merged with clearing, as `MergingDirDB.merge(clear=True)` specifies |
| MergeCache.MergeCacheMain | Tools/scripts/mergeCache.py:31-45 | anything but one argument raises and changes nothing; otherwise the selected caches are merged in order until one raises |
| Helpers.Memoized.constructor | Tools/python/helpers.py:53-55 | an empty cache around the function |
| Helpers.Memoized.Call | Tools/python/helpers.py:56-66 | unhashable arguments raise TypeError at the cache lookup, with nothing called or cached (the `Hashable` test sees the tuple and always passes); otherwise the result is `func(args)`, a cached key is answered without calling, a new key is computed once and cached, and earlier entries stay |
| Helpers.CallTwice | Tools/python/helpers.py:56-66 | two calls with the same hashable arguments agree, and the function runs at most once |
| Helpers.FirstWhere | Tools/python/helpers.py:118-137 | the first element that passes the test, or None iff none does |
| Helpers.GetGenZ | Tools/python/helpers.py:118-123 | the first particle with pdgId 23 and status 62, or None iff there is none |
| Helpers.GetGenPhoton | Tools/python/helpers.py:125-130 | the first particle with pdgId 22 and status 23, or None iff there is none |
| Helpers.GetGenB | Tools/python/helpers.py:132-137 | the first particle with pdgId ±5 and status 23, or None iff there is none |
| Helpers.FirstWhereSkips | Tools/python/helpers.py:118-137 | particles in front that fail the test do not change what is found |
| OverlapRemoval.MotherIsFirstMatch | Tools/python/overlapRemovalTTG.py:24-27 | the mother is the first particle whose `index` is the mother index; there is none for a negative index or when no particle carries it |
| OverlapRemoval.AncestorStep | Tools/python/overlapRemovalTTG.py:27-28 | the ancestor one generation further up is the mother of the ancestor below it |
| OverlapRemoval.GetParentIds | Tools/python/overlapRemovalTTG.py:21-32 | the chain is at most `depth` long; it is empty without a mother; its first id is the mother's |
| OverlapRemoval.ParentIsAncestor | Tools/python/overlapRemovalTTG.py:21-32 | entry k of the chain is the pdgId of the ancestor k + 1 generations up |
| OverlapRemoval.ParentChainEnd | Tools/python/overlapRemovalTTG.py:24-32 | a chain shorter than `depth` ends where the next ancestor is missing |
| OverlapRemoval.ParentChain | Tools/python/overlapRemovalTTG.py:21-32 | the chain lists the pdgIds of the successive mothers, nearest first, and ends early only at a negative or missing mother |
| OverlapRemoval.MesonMotherIff | Tools/python/overlapRemovalTTG.py:34-37 | a meson mother means some ancestor id exceeds 37 in size and none reaches 999 |
| OverlapRemoval.PhotonFromTopDecayIff | Tools/python/overlapRemovalTTG.py:39-44 | a top (±6) is among the ancestors, but not the nearest one |
| OverlapRemoval.DropPhotonsFirst | Tools/python/overlapRemovalTTG.py:50 | dropping photons leaves nothing iff all are photons, and keeps the first non-photon in front |
| OverlapRemoval.PhotonFromLeptonIff | Tools/python/overlapRemovalTTG.py:46-56 | no meson mother, and the nearest ancestor that is not a photon is an e, mu or tau |
| OverlapRemoval.GetPhotonCategory | Tools/python/overlapRemovalTTG.py:58-69 | 0 a photon without meson mother, 1 with one, 2 an electron without, 3 otherwise |
| OverlapRemoval.HasLeptonMother | Tools/python/overlapRemovalTTG.py:74-77 | 1 iff there is a particle and it comes from a lepton, else 0 |
| OverlapRemoval.GetPhotonMother | Tools/python/overlapRemovalTTG.py:79-87 | -1 without a particle; otherwise a non-photon ancestor id, or -1 |
| OverlapRemoval.PhotonMotherIsFirstOther | Tools/python/overlapRemovalTTG.py:79-87 | the mother is the first ancestor id other than 22, or -1 |
| LeptonJet.ScanJets | Tools/python/leptonJetArbitration.py:14-28 | the best jet is -1 with the threshold kept, or a scanned jet whose distance is the minimum found |
| LeptonJet.ScanStops | Tools/python/leptonJetArbitration.py:19-22 | once a jet kills the lepton, the scan stops (`break`) |
| LeptonJet.ScanDroppedIff | Tools/python/leptonJetArbitration.py:16-22 | the lepton is dropped iff some jet within the cone wins the arbitration |
| LeptonJet.ScanBest | Tools/python/leptonJetArbitration.py:23-28 | for a surviving lepton, the best jet is the first eligible jet closest to it, or -1 iff none is eligible |
| LeptonJet.Masks | Tools/python/leptonJetArbitration.py:11-31 | one flag per jet and lepton; leptons not yet scanned are kept |
| LeptonJet.SelectIsSubsequence | Tools/python/leptonJetArbitration.py:32-33 | the cleaned list is a subsequence of the input, in input order |
| LeptonJet.RemovedJetsAtMostLeptons | Tools/python/leptonJetArbitration.py:29-31 | at most one jet is removed per lepton |
| LeptonJet.MasksExplained | Tools/python/leptonJetArbitration.py:13-31 | a jet is removed only as some surviving lepton's best match; a lepton is removed iff some jet kills it |
| LeptonJet.DefaultKeepsLeptons | Tools/python/leptonJetArbitration.py:7 | with the default arbitration (prefer the lepton) no lepton is removed |
| LeptonJet.CleanJetsAndLeptons | Tools/python/leptonJetArbitration.py:7-33 | the nested loops compute the masks with `dr2 = deltaR**2`; the results keep input order |
| LeptonJet.ScanLepton | Tools/python/leptonJetArbitration.py:14-31 | one lepton's scan updates the flag arrays in place, as the masks after that lepton say |
| LeptonJet.SelectMasked | Tools/python/leptonJetArbitration.py:32-33 | the comprehension keeps exactly the flagged elements |
| Recoil.MinEdge | Tools/python/RecoilCorrector.py:22-28 | the smallest bin edge |
| Recoil.MaxEdge | Tools/python/RecoilCorrector.py:22-28 | the largest bin edge |
| Recoil.BinOf | Tools/python/RecoilCorrector.py:38-63 | None below the smallest edge; a value at or above the largest edge is moved one unit below it; the bin found contains the value, and None iff no bin does |
| Recoil.FirstContaining | Tools/python/RecoilCorrector.py:46-49 | the search returns None iff no bin contains the value, and otherwise a bin of the list that contains it |
| Recoil.BinOfFirst | Tools/python/RecoilCorrector.py:38-63 | the first bin containing the value wins over later overlapping ones |
| Recoil.BinOfAboveMax | Tools/python/RecoilCorrector.py:38-63 | every value at or above the largest edge falls into the same bin |
| Recoil.Predict | Tools/python/RecoilCorrector.py:65-77 | a prediction exists iff both bins are found, and it is that bin pair's matcher applied to `u` |
| IsrWeight.Shifted | Tools/python/isrWeight.py:26 | each weight shifted by sigma times its systematic |
| IsrWeight.GetWeight | Tools/python/isrWeight.py:25-27 | norm times the shifted weight at nISR, saturating at the last bin; a negative index beyond the list raises |
| IsrWeight.NominalWeight | Tools/python/isrWeight.py:25-27 | at sigma 0 the weight is norm times the nominal weight |
| IsrWeight.NoIsrUnshifted | Tools/python/isrWeight.py:6-27 | zero ISR jets always weigh `norm`, whatever sigma |
| IsrWeight.WeightStringAgrees | Tools/python/isrWeight.py:11-27 | for nISR >= 0 exactly one term of the weight string selects it (`==` below the last bin, `>=` at it), the term of bin min(nISR, njet_max), whose coefficient is the shifted weight that `getWeight` multiplies by `norm`; for a negative nISR no term selects it, while `getWeight` indexes from the end |
| IsrWeight.GetWeightString | Tools/python/isrWeight.py:11-23 | the string is `( `, one term per bin, then ` 0 )` |
| BatchHelpers.ReadInfoFromBatchLine | Tools/python/batchHelpers.py:19-21 | the first eight whitespace tokens as the job's fields; IndexError iff there are fewer than eight |
| BatchHelpers.FormatBatchInfo | Tools/python/batchHelpers.py:23-27 | one job per line, in order; raises iff some line is short, and then it raises the first short line's IndexError |
| BatchHelpers.StarMatchesAll | Tools/python/batchHelpers.py:29-33 | `*` matches every string |
| BatchHelpers.LeadingStar | Tools/python/batchHelpers.py:30 | `*x` matches iff the string ends with `x` |
| BatchHelpers.TrailingStar | Tools/python/batchHelpers.py:31 | `x*` matches iff the string starts with `x` |
| BatchHelpers.BothStars | Tools/python/batchHelpers.py:32 | `*x*` matches iff `x` occurs in the string |
| BatchHelpers.NoStar | Tools/python/batchHelpers.py:33 | a pattern without `*` matches only itself |
| BatchHelpers.GetBatchInfo | Tools/python/batchHelpers.py:35-60 | the jobs kept are, in listing order, exactly those that pass every applicable filter |
| BatchHelpers.FilterByJobId | Tools/python/batchHelpers.py:39-42 | the job-id filters narrow the list |
| BatchHelpers.FilterByPartition | Tools/python/batchHelpers.py:43-46 | the partition filters narrow the list |
| BatchHelpers.FilterByUser | Tools/python/batchHelpers.py:47-48 | the user filter keeps jobs whose user is a prefix of the given name |
| BatchHelpers.FilterByStatus | Tools/python/batchHelpers.py:49-52 | the status filters narrow the list |
| BatchHelpers.FilterByTitle | Tools/python/batchHelpers.py:53-58 | the title filters narrow the list; a list of titles is applied twice |
| BatchHelpers.SelectedJobs | Tools/python/batchHelpers.py:35-60 | a listed job is kept iff it is selected |
| BatchHelpers.UnknownPartitionIgnored | Tools/python/batchHelpers.py:43-46 | a partition outside c, m, g filters nothing |
| BatchHelpers.UnknownStatusIgnored | Tools/python/batchHelpers.py:49-52 | a status outside R, PD, CG filters nothing |
| SplitTag.DigitRun | Tools/scripts/submitCondor.py:45 | the length of the leading run of digits |
| SplitTag.FindTag | Tools/scripts/submitCondor.py:45 | the first position where `SPLIT` and a digit occur, or -1 |
| SplitTag.SplitNumber | Tools/scripts/submitCondor.py:44-48 | None iff the line has no `SPLIT<digit>`; otherwise the number of the first tag |
| SplitTag.SplitNumberOfTag | Tools/scripts/submitCondor.py:44-48 | a tag written as `SPLIT<n>` reads back as `n` |
| SplitTag.CommandText | Tools/scripts/submitCondor.py:49 | the part of the line before the first `#` |
| SplitTag.CommandBeforeComment | Tools/scripts/submitCondor.py:49 | a command followed by a comment gives back the command |
| SubmitCondor.GetCommands | Tools/scripts/submitCondor.py:41-56 | nothing for an empty command; the command alone without a split number; otherwise one command per job, each with `--nJobs n --job i` |
| SubmitCondor.JobNumberReadBack | Tools/scripts/submitCondor.py:53 | the job number reads back from the end of each command |
| SubmitCondor.JobCommandsDistinct | Tools/scripts/submitCondor.py:52-53 | the commands of different jobs differ |
| SubmitClip.GetCommands | Tools/scripts/submitClip.py:77-94 | nothing for an empty command; otherwise one pair of the command and the job count, as an array command when the count exceeds 1 |
| SubmitClip.ArrayCommandKeepsCommand | Tools/scripts/submitClip.py:90 | the array command extends the command and ends with the task-id variable |
| SubmitClip.OptionalDirectives | Tools/scripts/submitClip.py:111-126 | an optional directive is emitted iff its option is set (the array directive iff there is more than one job) |
| SubmitClip.ResourceDirectives | Tools/scripts/submitClip.py:111-118 | a nodes, tasks, cores or memory directive is written iff its option is set, with the option's value |
| SubmitClip.PlacementDirectives | Tools/scripts/submitClip.py:119-126 | a time, GPU or partition directive iff its option is set, and the array `0-(nJobs-1)` iff there is more than one job |
| SubmitClip.AsLines | Tools/scripts/submitClip.py:111-126 | one `#SBATCH` line per directive |
| SubmitClip.MiddleLines | Tools/scripts/submitClip.py:100-138 | the optional directives in the script are exactly those in the middle part |
| SubmitClip.SubmitCommands | Tools/scripts/submitClip.py:100-138 | the submit script starts with the shell line, names the job, work directory and logs, holds exactly the wanted options, all of them before the run line, runs the script, then removes it |
| SubmitClip.DirectivesBeforeTail | Tools/scripts/submitClip.py:100-138 | no `#SBATCH` directive of the joined file lies in its command tail |
| SubmitClip.HeaderLines | Tools/scripts/submitClip.py:100-110 | seven lines: the shell line, the job name, the work directory, the array-style or single log names, none of them an optional directive |
| SubmitClip.RunSection | Tools/scripts/submitClip.py:127-138 | text lines only, ending with the run of the script (inside the container for CMSSW), its removal and the echo of the removal |
| SubmitClip.Assembled | Tools/scripts/submitClip.py:100-138 | in the joined submit file the header keeps its place, the tail ends the file, and an optional directive is present iff it is among the directives |
| SubmitClip.ScriptCommands | Tools/scripts/submitClip.py:145-181 | the execution script's length and layout: the CMSSW environment, the proxy setup and check lines, the user command (with `srun -l` for tasks), and the closing echo lines |
| SubmitClip.SetupLines | Tools/scripts/submitClip.py:146-157 | the shell line, then with CMSSW the scram line, and with a proxy command as well the proxy command and its check ending in `voms-proxy-info -all` |
| SubmitClip.RunLines | Tools/scripts/submitClip.py:159-170 | five lines ending in the user's command, through `srun -l` when tasks are set |
| SubmitClip.DoneLines | Tools/scripts/submitClip.py:172-181 | the second proxy check only with both CMSSW and a proxy command, then the closing echo of the command |
| SubmitClip.MakeBatchJob | Tools/scripts/submitClip.py:96-185 | the submit file as `SubmitCommands` states it (header, log files, exactly the wanted optional directives, every directive before the run line, the run line, the removal of the script) and the execution script as `ScriptCommands` states it (length, environment setup, proxy checks, the user's command, the closing echo) |
| SubmitClip.ArrayIff | Tools/scripts/submitClip.py:104-126 | an array directive appears iff there is more than one job, and it spans jobs 0 to nJobs-1 |
| SubmitClip.NodesIff | Tools/scripts/submitClip.py:111-112 | a nodes directive appears iff the option is set and non-zero |
| CardFileHelpers.GetAllBinNames | Tools/python/cardFileHelpers.py:196-202 | the names after `bin` on the first line that starts with it, or None iff there is none |
| CardFileHelpers.ProcessCut | Tools/python/cardFileHelpers.py:204-216 | the process list ends just before the first process name repeats |
| CardFileHelpers.ProcessList | Tools/python/cardFileHelpers.py:208-215 | the loop keeps the names up to that cut |
| CardFileHelpers.ProcessListFirstOnce | Tools/python/cardFileHelpers.py:208-215 | the list starts with the first name and does not repeat it |
| CardFileHelpers.GetAllProcesses | Tools/python/cardFileHelpers.py:204-216 | the names after the first `process` line, cut at the first repeat, or None iff there is none |
| CardFileHelpers.GetPreFitUncFromCard | Tools/python/cardFileHelpers.py:37-55 | the loop over the card computes the scan specification |
| CardFileHelpers.FindColumn | Tools/python/cardFileHelpers.py:49-53 | the loop over the bins of an uncertainty line computes the column specification, including its TypeError and IndexError cases |
| CardFileHelpers.NoUncertaintyLine | Tools/python/cardFileHelpers.py:37-55 | without a line for the uncertainty the result is 0 |
| CardFileHelpers.ColumnValue | Tools/python/cardFileHelpers.py:48-54 | a column's result is 0 or one less than a value parsed from the line |
| CardFileHelpers.PreFitValue | Tools/python/cardFileHelpers.py:37-55 | the result is 0 or one less than a value parsed from an uncertainty line |
| CardFileHelpers.ColumnFirstMatch | Tools/python/cardFileHelpers.py:48-54 | the first column with the bin and estimate decides: its value minus 1, or 0 when it does not parse |
| CardFileHelpers.ScaleDict.constructor | Tools/python/cardFileHelpers.py:233-240 | the dictionary as given |
| CardFileHelpers.RemoveFirst | Tools/python/cardFileHelpers.py:251-252 | `list.remove`: the first occurrence is removed |
| CardFileHelpers.ScaleSetup | Tools/python/cardFileHelpers.py:218-252 | the checks and defaults before writing: it succeeds iff the card has regions, every scaled region is one of them, the card has processes including `signal`, and every scaled process is one of them; missing regions get 1.0 in place; a single factor applies to every region; the background list is the processes without signal; without a `bin` line it raises TypeError and leaves the caller's region dict unchanged; a scaled region the card lacks raises with the dict unchanged |
| DpmTools.BaseNameIsSuffix | Tools/scripts/dpmTools.py:123-127 | the last path component is a slash-free suffix that follows a slash |
| DpmTools.IsFileIff | Tools/scripts/dpmTools.py:123-127 | a path names a file iff a dot follows its last slash |
| DpmTools.SegmentMatches | Tools/scripts/dpmTools.py:51-61 | the loop over the wildcard parts computes the match predicate |
| DpmTools.StarMatchesAll | Tools/scripts/dpmTools.py:51-61 | `*` matches every name |
| DpmTools.LeadingStarContains | Tools/scripts/dpmTools.py:51-61 | `*p` matches every name that contains `p`, without anchoring at the end |
| DpmTools.MatchAcrossCut | Tools/scripts/dpmTools.py:51-61 | a later part may match across an earlier cut: for any distinct separator `x`, the parts `x`, `bc` (as in `X*bc`) match `axbxc` although `bc` does not occur in it |
| DpmTools.SplitAcrossCut | Tools/scripts/dpmTools.py:51-61 | `axbxc` split at `x` gives the three pieces `a`, `b`, `c` |
| DpmTools.NoPairIn | Tools/scripts/dpmTools.py:51-61 | the witness name `axbxc` does not contain the part `bc` it matched |
| DpmTools.ConvertToPathList | Tools/scripts/dpmTools.py:29-75 | the recursion computes the expansion specification for a path or a list of paths |
| DpmTools.PathsOfPath | Tools/scripts/dpmTools.py:38-70 | the segment loop, ended by the first segment that produced paths |
| DpmTools.PathsOfSegment | Tools/scripts/dpmTools.py:49-68 | the listing loop of one wildcard segment |
| DpmTools.ExpandConcrete | Tools/scripts/dpmTools.py:29-75 | no expanded path contains a wildcard |
| DpmTools.ExpandAllConcrete | Tools/scripts/dpmTools.py:72-74 | no path expanded from a list contains a wildcard |
| DpmTools.ScanSegmentsConcrete | Tools/scripts/dpmTools.py:43-70 | no path found by the segment scan contains a wildcard |
| DpmTools.ScanFilesConcrete | Tools/scripts/dpmTools.py:49-68 | no path found in a listing contains a wildcard |
| DpmTools.RemoveDPMFiles | Tools/scripts/dpmTools.py:77-94 | exit code 1 iff the ownership guard fails, and success iff it passes; then one removal command per expanded path, in order |
| DpmTools.RemoveCommands | Tools/scripts/dpmTools.py:88-94 | one removal command per expanded path, in order, `xrdfs` on the cern and clip hosts and `rfrm` elsewhere |
| DpmTools.RemovalsAreConcrete | Tools/scripts/dpmTools.py:77-94 | nothing is removed by a wildcard name |
| StringCheck.MakeStringCheck | TopReco/src/utils.cc:53-59 | the check holds iff the string equals one of the entries |
| StringCheck.MakeStringCheckBegin | TopReco/src/utils.cc:63-76 | the check runs the first-match scan over the prefixes |
| StringCheck.CheckBeginIff | TopReco/src/utils.cc:63-76 | a string passes iff it starts with an entry before the first empty one, or an empty entry exists and the string is empty |
| StringCheck.EmptyListRejects | TopReco/src/utils.cc:74 | with no prefixes nothing passes |
| StringCheck.EmptyTestIff | TopReco/src/utils.cc:63-76 | the empty string passes iff the empty prefix is listed |
| StringCheck.AfterEmptyIgnored | TopReco/src/utils.cc:68-70 | entries after an empty one never matter |
| PostFit.DictFunction | Tools/python/getPostFit.py:45-58 | the new dict has the same keys; leaves become `func(v)`; a sub-dict becomes the sub-dict mapped the same way |
| PostFit.MapValueAt | Tools/python/getPostFit.py:45-58 | at every depth a key path reaches a value of the result iff it reaches one of the input, and a leaf `x` there becomes `func(x)` |
| PostFit.MapValueShape | Tools/python/getPostFit.py:45-58 | the result has the same nesting and keys at every level |
| PostFit.MapValueCompose | Tools/python/getPostFit.py:45-58 | mapping with `f` then `g` equals mapping once with `g ∘ f` |
| PostFit.MapValueIdentity | Tools/python/getPostFit.py:45-58 | mapping with the identity gives an equal dictionary |

## Left out

- Real I/O is not performed: files, `os.path`, `os.makedirs`, `os.walk`, pickle and `os.system` act on a filesystem value, and pickle is a parameter. What pickle loads is one of: a dict, None, an I/O failure, or a corrupt stream.
- Concurrent writers are not modelled, nor races between a reader and `merge`. Each call sees one snapshot of the directory.
- The order of `os.listdir` and `os.walk` is a parameter, not the real filesystem order.
- `hash`, `uuid.uuid4`, the clock and `os.path.getmtime` are parameters.
- Logging calls are left out. They change no state the model tracks.
- OverlapRemoval.GetParentIds: the recursion depth is a parameter, standing in for the interpreter's recursion limit, where the source's `except` ends the chain.
- DpmTools.ConvertToPathList: a fuel bound stands in for the finiteness of the DPM tree. Where it runs out, the path contributes nothing.
- The recoil corrector's constructor is not modelled: it reads ROOT files and `QuantileMatcher` objects. The matcher is a parameter of Recoil.Predict.
- Float parsing and float formatting are parameters (`toFloat`, `fmt`), and reals replace floats. No rounding is modelled.
- CardFileHelpers.ScaleSetup covers the checks and defaults of `scaleCardFile`. The `CardFileWriter` output it then builds is not part of this model.
- The other card-file readers (`getPull`, `getEstimateFromCard`, …) are not part of this model.
- `scaleCardFile` loops over the region set in hash order. The model loops over the region list; the resulting dictionary is the same.
- DpmTools.RemoveDPMFiles returns the `rm` commands rather than running them.
  - The `except` fallback never runs, because `os.system` does not raise, so it is not modelled.
  - The username and hostname come in as parameters.
- SubmitClip.MakeBatchJob returns the submit script and the execution script as line lists. Writing them to files and calling `sbatch` are not modelled.
- Option parsing, the `clip` hostname check, the singularity check and proxy discovery are not modelled. Options arrive as a record.
- SubmitClip.Options: an option that is 0 counts as unset, as in Python. Negative values are rendered as given.
- Helpers.Memoized: `func` is pure. Side effects of the wrapped function are not modelled. `__repr__` and `__get__` are left out.
- Values stored in the caches are never Python None. A stored None would read as "not found".
- MergeCache.MergeCacheMain: the uuid each `MergingDirDB` draws is a parameter. Reading `USER` and other environment variables is left out.
- PostFit.DictFunction returns a new value. That the input dictionary is not modified holds because values are immutable here.
- `deltaR2`, `deltaPhi` and the other kinematic helpers are parameters (`d2`) of the lepton-jet cleaning.
- LeptonJet.Choice: the source compares what the arbitration returns with `jet` and with `(jet, lep)` or `(lep, jet)` by `==`. The model gives the arbitration three outcomes instead, so a jet that compares equal to a lepton, or an arbitration that returns some other object equal to the jet, is not modelled.
- MergingDirDb.MergingDirDB.constructor: the OSError `os.makedirs` raises when a file sits at the cache directory's path is not modelled. The disk holds directories and their listings only, so such a file has no place in it.
- FileStore.Listing: names in a listing are not required to be distinct. Lookups and writes act on the first entry of a name and removals on all of them; a write never adds a second entry of a name (FileStore.WriteKeepsNamesDistinct) and a removal only drops entries.
- MergingDirDb.MergingDirDB.Add: a pickling error after `file(..., 'w')` has opened the tmp file leaves it truncated in the source. The model treats every raising dump as writing nothing.
- DirDb.DirDB.Add: the same holds for the key's file, which the source truncates before a pickling error.
- MergingDirDb.MergingDirDB.Merge: the same holds for `merged`, truncated in the source before a pickling error.
