/**
 * The batch loop: announce how many files were found, then for each file in
 * order run the transform, commit, and report "i/n files processed.". A
 * transform that fails ends the batch there: its file is not committed and
 * no later file is touched.
 */
module Batch {
  import opened Records
  import opened Database
  import opened SongFile
  import opened LogFile
  import opened Decimal

  /** The transform a batch runs on each of its files. */
  datatype Transform = SongTransform | LogTransform

  /** One data file, already parsed into records. */
  datatype DataFile = SongData(songs: seq<SongRecord>) | LogData(events: seq<LogRecord>)

  /** What running `func` on one file does. A file of the other kind lacks
      the columns the transform selects, so it fails before any call. */
  function FileRun(func: Transform, file: DataFile, catalog: map<seq<Value>, SongMatch>): Run {
    if func == SongTransform && file.SongData? then SongFileRun(file.songs)
    else if func == LogTransform && file.LogData? then LogFileRun(file.events, catalog)
    else Run(Fail(ColumnNotFound), [])
  }

  method RunTransform(s: Session, func: Transform, file: DataFile) returns (o: Outcome)
    modifies s
    ensures o == FileRun(func, file, s.catalog).outcome
    ensures s.trace == old(s.trace) + FileRun(func, file, s.catalog).effects
  {
    if func == SongTransform && file.SongData? {
      o := ProcessSongFile(s, file.songs);
    } else if func == LogTransform && file.LogData? {
      o := ProcessLogFile(s, file.events);
    } else {
      o := Fail(ColumnNotFound);
    }
  }

  /** The header: "<n> files found in <path>". */
  function FoundLine(n: nat, path: string): string {
    NatText(n) + " files found in " + path
  }

  /** The progress line after the `i`-th of `n` files: "<i>/<n> files processed.". */
  function ProgressLine(i: nat, n: nat): string {
    NatText(i) + "/" + NatText(n) + " files processed."
  }

  /** The runs of the transform on each file, in file order. */
  function FileRuns(func: Transform, files: seq<DataFile>, catalog: map<seq<Value>, SongMatch>): (runs: seq<Run>)
    ensures |runs| == |files|
  {
    if files == [] then [] else [FileRun(func, files[0], catalog)] + FileRuns(func, files[1..], catalog)
  }

  /** The per-file runs are the transform's runs on the files, one for one. */
  lemma {:induction false} FileRunsAt(func: Transform, files: seq<DataFile>, catalog: map<seq<Value>, SongMatch>)
    ensures forall j :: 0 <= j < |files| ==> FileRuns(func, files, catalog)[j] == FileRun(func, files[j], catalog)
  {
    if files != [] {
      FileRunsAt(func, files[1..], catalog);
    }
  }

  /** The batch over the first `k` files, which run as `runs`, with progress
      lines counting up to `total`: after each file that passes, a commit and
      its progress line; the first failure ends the batch. */
  function Combine(runs: seq<Run>, k: nat, total: nat): Run
    requires k <= |runs|
  {
    if k == 0 then Run(Pass, [])
    else
      var before := Combine(runs, k - 1, total);
      if before.outcome.Fail? then before
      else
        var r := runs[k - 1];
        if r.outcome.Fail? then Run(r.outcome, before.effects + r.effects)
        else Run(Pass, before.effects + r.effects + [Committed, Printed(ProgressLine(k, total))])
  }

  /** What the whole batch over the file list `files` found under `path` does. */
  function ProcessDataRun(func: Transform, path: string, files: seq<DataFile>,
                          catalog: map<seq<Value>, SongMatch>): Run {
    var b := Combine(FileRuns(func, files, catalog), |files|, |files|);
    Run(b.outcome, [Printed(FoundLine(|files|, path))] + b.effects)
  }

  method ProcessData(s: Session, path: string, files: seq<DataFile>, func: Transform) returns (o: Outcome)
    modifies s
    ensures o == ProcessDataRun(func, path, files, s.catalog).outcome
    ensures s.trace == old(s.trace) + ProcessDataRun(func, path, files, s.catalog).effects
  {
    var numFiles := |files|;
    s.Print(NatText(numFiles) + " files found in " + path);
    ghost var runs := FileRuns(func, files, s.catalog);
    FileRunsFor(func, files, s.catalog);
    o := ProcessFiles(s, func, files, runs);
    AppendAssoc(old(s.trace), [Printed(FoundLine(numFiles, path))], Combine(runs, numFiles, numFiles).effects);
  }

  /** The run at position `j` of `runs`. */
  ghost function RunAt(runs: seq<Run>, j: nat): Run
    requires j < |runs|
  {
    runs[j]
  }

  /** `runs` holds the transform's run on each of `files`, one for one. */
  ghost predicate RunsFor(func: Transform, files: seq<DataFile>, catalog: map<seq<Value>, SongMatch>, runs: seq<Run>) {
    && |runs| == |files|
    && forall j {:trigger RunAt(runs, j)} :: 0 <= j < |runs| ==> RunAt(runs, j) == FileRun(func, files[j], catalog)
  }

  lemma FileRunsFor(func: Transform, files: seq<DataFile>, catalog: map<seq<Value>, SongMatch>)
    ensures RunsFor(func, files, catalog, FileRuns(func, files, catalog))
  {
    FileRunsAt(func, files, catalog);
    var runs := FileRuns(func, files, catalog);
    forall j | 0 <= j < |runs|
      ensures RunAt(runs, j) == FileRun(func, files[j], catalog)
    {
    }
  }

  /** The loop over the files, which run as `runs`: transform, commit,
      progress line, in file order. */
  method ProcessFiles(s: Session, func: Transform, files: seq<DataFile>, ghost runs: seq<Run>) returns (o: Outcome)
    requires RunsFor(func, files, s.catalog, runs)
    modifies s
    ensures o == Combine(runs, |files|, |files|).outcome
    ensures s.trace == old(s.trace) + Combine(runs, |files|, |files|).effects
  {
    var numFiles := |files|;
    var i := 0;
    while i < numFiles
      invariant 0 <= i <= numFiles
      invariant Combine(runs, i, numFiles).outcome == Pass
      invariant s.trace == old(s.trace) + Combine(runs, i, numFiles).effects
    {
      var r := ProcessOneFile(s, func, files, i, numFiles, runs);
      if r.Fail? {
        StopAtFailure(runs, i, numFiles);
        return r;
      }
      PassStep(old(s.trace), runs, i, numFiles);
      i := i + 1;
    }
    o := Pass;
  }

  /** One turn of the batch loop: the transform on the file at `i` (from 0),
      then, unless it failed, the commit and the progress line "<i+1>/<n>". */
  method ProcessOneFile(s: Session, func: Transform, files: seq<DataFile>, i: nat, numFiles: nat,
                        ghost runs: seq<Run>)
    returns (o: Outcome)
    requires i < |files|
    requires RunsFor(func, files, s.catalog, runs)
    modifies s
    ensures o == runs[i].outcome
    ensures o.Fail? ==> s.trace == old(s.trace) + runs[i].effects
    ensures o.Pass? ==> s.trace == old(s.trace) + (runs[i].effects + [Committed, Printed(ProgressLine(i + 1, numFiles))])
  {
    assert RunAt(runs, i) == FileRun(func, files[i], s.catalog);
    o := RunTransform(s, func, files[i]);
    if o.Fail? {
      return;
    }
    s.Commit();
    s.Print(NatText(i + 1) + "/" + NatText(numFiles) + " files processed.");
    AppendAssoc(old(s.trace) + runs[i].effects, [Committed], [Printed(ProgressLine(i + 1, numFiles))]);
    AppendAssoc(old(s.trace), runs[i].effects, [Committed, Printed(ProgressLine(i + 1, numFiles))]);
  }

  /** A file that passes extends the batch by its calls, the commit and its progress line. */
  lemma PassStep(t: seq<Effect>, runs: seq<Run>, i: nat, total: nat)
    requires i < |runs|
    requires Combine(runs, i, total).outcome == Pass && runs[i].outcome == Pass
    ensures Combine(runs, i + 1, total).outcome == Pass
    ensures t + Combine(runs, i + 1, total).effects
         == t + Combine(runs, i, total).effects + (runs[i].effects + [Committed, Printed(ProgressLine(i + 1, total))])
  {
  }

  /** The batch stops at the first failing run: what was recorded up to and
      including that run is the whole batch. */
  lemma StopAtFailure(runs: seq<Run>, i: nat, total: nat)
    requires i < |runs|
    requires Combine(runs, i, total).outcome == Pass
    requires runs[i].outcome.Fail?
    ensures Combine(runs, |runs|, total) == Run(runs[i].outcome, Combine(runs, i, total).effects + runs[i].effects)
  {
    FailureSticks(runs, i + 1, |runs|, total);
  }

  /** Once the batch has failed, later files change nothing. */
  lemma {:induction false} FailureSticks(runs: seq<Run>, k: nat, m: nat, total: nat)
    requires k <= m <= |runs|
    requires Combine(runs, k, total).outcome.Fail?
    ensures Combine(runs, m, total) == Combine(runs, k, total)
    decreases m
  {
    if k < m {
      FailureSticks(runs, k, m - 1, total);
    }
  }

  /** The commits and console lines of a trace, in order. */
  function Markers(e: seq<Effect>): seq<Effect> {
    if e == [] then []
    else Markers(e[..|e| - 1]) + (if e[|e| - 1].Committed? || e[|e| - 1].Printed? then [e[|e| - 1]] else [])
  }

  lemma {:induction false} MarkersAppend(a: seq<Effect>, b: seq<Effect>)
    ensures Markers(a + b) == Markers(a) + Markers(b)
    decreases |b|
  {
    if b != [] {
      var front := b[..|b| - 1];
      assert (a + b)[..|a + b| - 1] == a + front;
      MarkersAppend(a, front);
    } else {
      assert a + b == a;
    }
  }

  lemma {:induction false} CursorCallsNoMarkers(e: seq<Effect>)
    requires CursorCallsOnly(e)
    ensures Markers(e) == []
    decreases |e|
  {
    if e != [] {
      CursorCallsNoMarkers(e[..|e| - 1]);
    }
  }

  /** A transform only talks to the cursor: it neither commits nor prints. */
  lemma FileRunCursorCalls(func: Transform, file: DataFile, catalog: map<seq<Value>, SongMatch>)
    ensures CursorCallsOnly(FileRun(func, file, catalog).effects)
    ensures Markers(FileRun(func, file, catalog).effects) == []
  {
    if func == SongTransform && file.SongData? {
      SongFileFails(file.songs);
    } else if func == LogTransform && file.LogData? {
      LogFileCursorCallsOnly(file.events, catalog);
    }
    CursorCallsNoMarkers(FileRun(func, file, catalog).effects);
  }

  /** `m` is `k` commits, each followed by its progress line "<j+1>/<total> files processed.". */
  ghost predicate CommitsAndProgress(m: seq<Effect>, k: nat, total: nat) {
    && |m| == 2 * k
    && forall j :: 0 <= j < k ==> m[2 * j] == Committed && m[2 * j + 1] == Printed(ProgressLine(j + 1, total))
  }

  lemma CommitsAndProgressExtend(m: seq<Effect>, k: nat, total: nat)
    requires CommitsAndProgress(m, k, total)
    ensures CommitsAndProgress(m + [Committed, Printed(ProgressLine(k + 1, total))], k + 1, total)
  {
    var m' := m + [Committed, Printed(ProgressLine(k + 1, total))];
    forall j | 0 <= j < k + 1
      ensures m'[2 * j] == Committed && m'[2 * j + 1] == Printed(ProgressLine(j + 1, total))
    {
      if j < k {
        assert m'[2 * j] == m[2 * j] && m'[2 * j + 1] == m[2 * j + 1];
      }
    }
  }

  /** A run that neither commits nor prints, followed by a commit and a line,
      adds just that commit and that line to the markers. */
  lemma MarkersQuietStep(a: seq<Effect>, r: seq<Effect>, line: string)
    requires Markers(r) == []
    ensures Markers(a + r + [Committed, Printed(line)]) == Markers(a) + [Committed, Printed(line)]
  {
    var tail := [Committed, Printed(line)];
    assert Markers(a + r) == Markers(a) by {
      MarkersAppend(a, r);
      assert Markers(a) + [] == Markers(a);
    }
    MarkersAppend(a + r, tail);
    assert tail[..1] == [Committed];
    assert [Committed][..0] == [];
  }

  /** In a batch that passes over runs that neither commit nor print, the
      commits and progress lines alternate: after the `j`-th run (from 0)
      come one commit and then "<j+1>/<total> files processed.", and nothing
      else is committed or printed. */
  lemma {:induction false} CommitThenProgress(runs: seq<Run>, k: nat, total: nat)
    requires k <= |runs|
    requires forall j :: 0 <= j < k ==> Markers(runs[j].effects) == []
    requires Combine(runs, k, total).outcome == Pass
    ensures CommitsAndProgress(Markers(Combine(runs, k, total).effects), k, total)
    decreases k
  {
    if k > 0 {
      var before := Combine(runs, k - 1, total);
      var r := runs[k - 1];
      var tail := [Committed, Printed(ProgressLine(k, total))];
      CommitThenProgress(runs, k - 1, total);
      var m0 := Markers(before.effects);
      assert Combine(runs, k, total).effects == before.effects + r.effects + tail;
      MarkersQuietStep(before.effects, r.effects, ProgressLine(k, total));
      CommitsAndProgressExtend(m0, k - 1, total);
    }
  }

  /** For the files of a batch that passes: after the header, one commit and
      then the progress line "<j+1>/<n> files processed." after the `j`-th
      file, and no other commit or console line. */
  lemma ProgressAfterEachFile(func: Transform, path: string, files: seq<DataFile>,
                              catalog: map<seq<Value>, SongMatch>)
    requires ProcessDataRun(func, path, files, catalog).outcome == Pass
    ensures var m := Markers(ProcessDataRun(func, path, files, catalog).effects);
      && |m| == 2 * |files| + 1
      && m[0] == Printed(FoundLine(|files|, path))
      && forall j :: 0 <= j < |files| ==>
           m[2 * j + 1] == Committed && m[2 * j + 2] == Printed(ProgressLine(j + 1, |files|))
  {
    var runs := FileRuns(func, files, catalog);
    FileRunsQuiet(func, files, catalog);
    CommitThenProgress(runs, |files|, |files|);
    HeaderThenMarkers(Printed(FoundLine(|files|, path)), Combine(runs, |files|, |files|).effects, |files|);
  }

  /** None of the per-file runs commits or prints. */
  lemma FileRunsQuiet(func: Transform, files: seq<DataFile>, catalog: map<seq<Value>, SongMatch>)
    ensures forall j :: 0 <= j < |files| ==> Markers(FileRuns(func, files, catalog)[j].effects) == []
  {
    FileRunsAt(func, files, catalog);
    forall j | 0 <= j < |files|
      ensures Markers(FileRuns(func, files, catalog)[j].effects) == []
    {
      FileRunCursorCalls(func, files[j], catalog);
    }
  }

  lemma HeaderThenMarkers(h: Effect, e: seq<Effect>, k: nat)
    requires h.Printed?
    requires CommitsAndProgress(Markers(e), k, k)
    ensures var m := Markers([h] + e);
      && |m| == 2 * k + 1
      && m[0] == h
      && forall j :: 0 <= j < k ==> m[2 * j + 1] == Committed && m[2 * j + 2] == Printed(ProgressLine(j + 1, k))
  {
    var head := [h];
    MarkersAppend(head, e);
    assert Markers(head) == head by {
      assert head[..0] == [];
    }
    var m := Markers(e);
    forall j | 0 <= j < k
      ensures (head + m)[2 * j + 1] == m[2 * j] && (head + m)[2 * j + 2] == m[2 * j + 1]
    {
    }
  }

  /** The batch passes exactly when every run passes. */
  lemma {:induction false} CombinePasses(runs: seq<Run>, k: nat, total: nat)
    requires k <= |runs|
    ensures Combine(runs, k, total).outcome == Pass <==> forall j :: 0 <= j < k ==> runs[j].outcome == Pass
    decreases k
  {
    if k > 0 {
      CombinePasses(runs, k - 1, total);
    }
  }

  /** When the `k`-th run is the first to fail, the batch ends with its
      failure right after its calls: it is not committed, gets no progress
      line, and no later file is processed. */
  lemma FirstFailure(runs: seq<Run>, k: nat, total: nat)
    requires k < |runs|
    requires forall j :: 0 <= j < k ==> runs[j].outcome == Pass
    requires runs[k].outcome.Fail?
    ensures Combine(runs, |runs|, total) == Run(runs[k].outcome, Combine(runs, k, total).effects + runs[k].effects)
  {
    CombinePasses(runs, k, total);
    FailureSticks(runs, k + 1, |runs|, total);
  }

  /** Different files get different progress lines. */
  lemma ProgressLinesDistinct(i: nat, j: nat, n: nat)
    requires i != j
    ensures ProgressLine(i, n) != ProgressLine(j, n)
  {
    var a, b := NatText(i), NatText(j);
    NatTextDigits(i);
    NatTextDigits(j);
    if ProgressLine(i, n) == ProgressLine(j, n) {
      var line := ProgressLine(i, n);
      assert |a| == |b| by {
        assert line[|a|] == '/' && line[|b|] == '/';
      }
      assert a == line[..|a|] == b;
      NatTextInjective(i, j);
    }
  }

  /** With no files there is only the header: nothing is committed. */
  lemma NoFiles(func: Transform, path: string, catalog: map<seq<Value>, SongMatch>)
    ensures ProcessDataRun(func, path, [], catalog) == Run(Pass, [Printed("0 files found in " + path)])
  {
    assert NatText(0) + " files found in " == "0 files found in ";
  }
}
