/** The CLOUDS mode: load the geometry snapshot, walk the 81 snapshots in
    order (load, diagnose, record, request cuts, report progress), then write
    the results table. The snapshot loader, the diagnostic routine and the
    number formatter are parameters of the run. */
module Clouds {
  import opened Wrappers
  import opened Numerals
  import opened Snapshots
  import opened Series

  /** The results file of simulation `simName`. */
  function OutputPath(simName: string): string {
    "./clouds/" + simName + "_diagnostics.dat"
  }

  /** The progress line printed after snapshot `k` (counted from 0). */
  function ProgressLine(k: nat): string {
    "Simulation " + DecimalString(k + 1) + " out of 81 done"
  }

  /** The number in a progress line is the count of snapshots done so far:
      the line after snapshot `k` reads back as `k + 1`. */
  lemma ProgressLineCount(k: nat)
    ensures var p := ProgressLine(k);
      |p| >= 27 && p[..11] == "Simulation " && p[|p| - 15..] == " out of 81 done" &&
      AllDigits(p[11..|p| - 15]) && ParseDecimal(p[11..|p| - 15]) == k + 1
  {
    var p, d := ProgressLine(k), DecimalString(k + 1);
    assert p == "Simulation " + d + " out of 81 done";
    assert p[11..|p| - 15] == d;
    ParseDecimalString(k + 1);
  }

  /** What one pass of the loop did, in the order it did it: the file it
      loaded, the fields and identifier it passed to the cut routine, the
      progress line it printed. */
  datatype Step<F> = Step(loaded: string, cutFields: F, cutId: string, progress: string)

  /** The results file as written: its path and its rows, one line each. */
  datatype Table = Table(path: string, rows: seq<string>)

  /** A snapshot file the loader could not read; the run stops there. */
  datatype LoadError = LoadFailed(path: string)

  /** Position of the first file in `files`, from `from` on, that does not
      load; `|files|` when all of them load. */
  function FirstFailure<F>(load: string -> Option<F>, files: seq<string>, from: nat): (k: nat)
    requires from <= |files|
    ensures from <= k <= |files|
    ensures forall i :: from <= i < k ==> load(files[i]).Some?
    ensures k < |files| ==> load(files[k]).None?
    decreases |files| - from
  {
    if from == |files| || load(files[from]).None? then from
    else FirstFailure(load, files, from + 1)
  }

  /** `FirstFailure` is the one position before which every file loads and at
      which (unless it is the end) the file does not. */
  lemma FirstFailureUnique<F>(load: string -> Option<F>, files: seq<string>, k: nat)
    requires k <= |files|
    requires forall i :: 0 <= i < k ==> load(files[i]).Some?
    requires k < |files| ==> load(files[k]).None?
    ensures FirstFailure(load, files, 0) == k
  {
  }

  /** The snapshot loop over `files` (with identifiers `ids`). It stops at the
      first file that does not load, or after the last file. Every pass before
      that loaded its file, recorded the diagnostics of the fields in `series`
      and requested the cuts. */
  method Process<F, V>(geometry: F, ids: seq<string>, files: seq<string>,
                       load: string -> Option<F>, diagnose: (F, F) -> Diagnostics<V>)
    returns (steps: seq<Step<F>>, series: TimeSeries<V>)
    requires |ids| == |files|
    ensures fresh(series) && series.Valid()
    ensures |steps| == FirstFailure(load, files, 0) && series.Length() == |steps|
    ensures forall i :: 0 <= i < |steps| ==>
      load(files[i]).Some? &&
      steps[i] == Step(files[i], load(files[i]).value, ids[i], ProgressLine(i)) &&
      series.Snapshot(i) == diagnose(geometry, load(files[i]).value)
  {
    steps := [];
    series := new TimeSeries<V>();
    for k := 0 to |files|
      invariant |steps| == k && series.Valid() && series.Length() == k
      invariant forall i :: 0 <= i < k ==>
        load(files[i]).Some? &&
        steps[i] == Step(files[i], load(files[i]).value, ids[i], ProgressLine(i)) &&
        series.Snapshot(i) == diagnose(geometry, load(files[i]).value)
    {
      var fields := load(files[k]);
      if fields.None? {
        FirstFailureUnique(load, files, k);
        return;
      }
      series.Append(diagnose(geometry, fields.value));
      steps := steps + [Step(files[k], fields.value, ids[k], ProgressLine(k))];
    }
    FirstFailureUnique(load, files, |files|);
  }

  /** Runs the CLOUDS mode. `load` stands for the snapshot loader (None when a
      file cannot be read), `diagnose(geometry, fields)` for the diagnostic
      object built from the geometry snapshot, `fmt` for the number format.
      Returns the identifier and path lists, the passes of the snapshot loop
      and the outcome. The run stops at the first file that does not load;
      the passes made before it stay made, and the table is written only
      when all 81 snapshots were processed. */
  method RunClouds<F, V>(simpath: string, simName: string, load: string -> Option<F>,
                         diagnose: (F, F) -> Diagnostics<V>, fmt: V -> string)
    returns (sinnums: seq<string>, simfiles: seq<string>, steps: seq<Step<F>>,
             outcome: Result<Table, LoadError>)
    ensures load(GeometryPath(simpath)).None? ==>
      sinnums == [] && simfiles == [] && steps == [] &&
      outcome == Failure(LoadFailed(GeometryPath(simpath)))
    ensures load(GeometryPath(simpath)).Some? ==>
      |sinnums| == SnapshotCount && |simfiles| == SnapshotCount &&
      (forall i :: 0 <= i < SnapshotCount ==> sinnums[i] == SnapshotId(i)) &&
      (forall i :: 0 <= i < SnapshotCount ==> simfiles[i] == SnapshotPath(simpath, sinnums[i])) &&
      |steps| == FirstFailure(load, simfiles, 0)
    ensures forall k :: 0 <= k < |steps| ==>
      load(simfiles[k]).Some? &&
      steps[k] == Step(simfiles[k], load(simfiles[k]).value, sinnums[k], ProgressLine(k))
    ensures outcome.Success? <==>
      load(GeometryPath(simpath)).Some? && FirstFailure(load, simfiles, 0) == SnapshotCount
    ensures outcome.Failure? && load(GeometryPath(simpath)).Some? ==>
      outcome.error == LoadFailed(simfiles[FirstFailure(load, simfiles, 0)])
    ensures outcome.Success? ==>
      outcome.value.path == OutputPath(simName) && |outcome.value.rows| == SnapshotCount &&
      forall m :: 0 <= m < SnapshotCount ==>
        outcome.value.rows[m] ==
          Row(fmt, diagnose(load(GeometryPath(simpath)).value, load(simfiles[m]).value))
  {
    var geometry := load(simpath + "data.0000.vtk");
    if geometry.None? {
      return [], [], [], Failure(LoadFailed(simpath + "data.0000.vtk"));
    }
    sinnums := Identifiers();
    simfiles := Paths(simpath, sinnums);
    var series;
    steps, series := Process(geometry.value, sinnums, simfiles, load, diagnose);
    if |steps| < SnapshotCount {
      return sinnums, simfiles, steps, Failure(LoadFailed(simfiles[|steps|]));
    }
    var rows := series.Rows(fmt);
    outcome := Success(Table(OutputPath(simName), rows));
  }
}
