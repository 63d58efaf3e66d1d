# py4radiation: the CLOUDS time-series pipeline

py4radiation post-processes wind-cloud simulation output. Its entry point
reads the integer `MODE.mode` from a configuration file and runs one of
three pipelines. This project models the CLOUDS pipeline (mode 2) and the
mode dispatch.

The CLOUDS pipeline does this:

1. It loads the geometry snapshot `data.0000.vtk` and builds the diagnostic
   object from it.
2. It builds the 81 snapshot identifiers `"0000"` … `"0080"`: three zeros in
   front of a one-digit index, two zeros in front of a longer one.
3. It builds one path per identifier, `simpath + "data." + id + ".dat"`.
4. For each snapshot `k` in order it loads the file and computes the
   diagnostics. It appends the ten values (average density, average
   temperature, mixing fraction, centre-of-mass position, the three
   components of the offset, the three components of the velocity) to ten
   parallel lists. It then requests the cut images for identifier `k` and
   prints `Simulation <k+1> out of 81 done`.
5. It writes `./clouds/<simname>_diagnostics.dat`. The file has one line per
   snapshot: the ten values, each formatted with `'{0:.7E}'` and separated
   by two blanks.

Modules:

- `Wrappers`: `Option` and `Result`.
- `Numerals`: Python's `str()` of a natural number (`DecimalString`) and
  reading digits back (`ParseDecimal`).
- `Text`: Python's string order (`LexLess`), `Join`, and the inverse
  readings of a table. `Words` splits a line at runs of blanks. `Lines`
  splits a text into lines.
- `Snapshots`: the identifiers, the paths, and the two loops that build
  them (`Identifiers`, `Paths`).
- `Series`: the diagnostic record, the class `TimeSeries` holding the ten
  lists as `seq` fields, the row of a record, and the row-writing loop
  (`TimeSeries.Rows`).
- `Clouds`: the snapshot loop (`Process`) and the whole run (`RunClouds`).
- `Modes`: the dispatch on the mode code.

The outside collaborators are parameters of `RunClouds`:

- `load: string -> Option<F>` is the snapshot loader; `None` stands for a
  file it cannot read.
- `diagnose(geometry, fields)` is the diagnostic object, built from the
  geometry snapshot, applied to one snapshot's fields.
- `fmt: V -> string` is the number format.

Values (`V`) and fields (`F`) are abstract types. `RunClouds` returns:

- the identifier and path lists;
- the log of the loop's passes: for each pass, the file it loaded, the
  fields and identifier it handed to the cut routine, and the progress line
  it printed;
- either the table written (its path and rows) or the load failure that
  stopped the run.

A failed load raises an exception in the source. The model stops at the
first file that does not load. The passes made before it stay in the log.
No table is written. The text of the results file is `Series.TableText(rows)`:
each row followed by a newline, as `print` writes it.

## Notes on the code

- Identifiers are four characters wide only for indices below 100; index
  100 would get five (`Snapshots.SnapshotIdWidth`); the run uses 0 to 80.
- The diagnostic object is built from the geometry snapshot's fields and
  the box. So each record depends on the geometry fields as well as the
  snapshot's own.
- The table is written by redirecting `sys.stdout` to the open file, not
  through a separate writer. The model keeps only the written rows.
- The exception for an unknown mode says `(1) radiation (2) synthetic
  (3) clouds`, but the codes the dispatch accepts are 0, 1 and 2. The model
  keeps the message as written (`Modes.UnknownModeMessage`).

## Model

| member | source | states |
|---|---|---|
| `Numerals.DecimalString` | py4radiation/main.py:89-91 | `str(i)` is a non-empty string of decimal digits with no leading zero except for 0 |
| `Numerals.ParseDecimalString` | py4radiation/main.py:89-91 | reading the digits `str(n)` wrote gives `n` back |
| `Numerals.DecimalStringLength` | py4radiation/main.py:88-91 | `str(n)` has one digit below 10, two from 10 to 99, and at least three from 100 on |
| `Snapshots.SnapshotIdDigits` | py4radiation/main.py:88-91 | identifier `i` is `"000"` and the digit of `i` below 10, and `"00"` and the two digits of `i` from 10 to 99 |
| `Snapshots.SnapshotIdWidth` | py4radiation/main.py:86-91 | every identifier below 100, so all 81 of them, is exactly 4 characters; from 100 on the padding gives 5 or more |
| `Snapshots.SnapshotIdParses` | py4radiation/main.py:86-91 | every identifier is all digits and reads back as its index |
| `Snapshots.SnapshotIdInjective` | py4radiation/main.py:86-91 | different indices give different identifiers |
| `Snapshots.SnapshotIdOrdered` | py4radiation/main.py:86-91 | below 100, a smaller index gives a lexicographically smaller identifier |
| `Snapshots.Identifiers` | py4radiation/main.py:86-91 | the append loop yields exactly 81 entries; entry `i` is identifier `i`, 4 characters wide and read back as `i`; entries are strictly increasing as strings |
| `Snapshots.SnapshotPathId` | py4radiation/main.py:95 | a snapshot path has 9 more characters than directory and identifier together, and the identifier can be cut back out of it |
| `Snapshots.SnapshotPathInjective` | py4radiation/main.py:95 | different identifiers give different paths in the same directory |
| `Snapshots.GeometryIsNotFirstSnapshot` | py4radiation/main.py:83-95 | the geometry file differs from the file of snapshot 0, although both share the stem `data.0000` |
| `Snapshots.Paths` | py4radiation/main.py:93-95 | one path per identifier, index-aligned: path `j` is `simpath + "data." + ids[j] + ".dat"`, starts with `simpath` and holds `ids[j]` |
| `Series.ColumnsRoundTrip` | py4radiation/main.py:110-120 | the ten columns of a record give the record back and the record of ten columns gives them back, so every component reaches exactly one column |
| `Series.TimeSeries.constructor` | py4radiation/main.py:97-106 | ten empty lists of equal length |
| `Series.TimeSeries.Append` | py4radiation/main.py:110-120 | every list grows by exactly one value, the matching component of the record; earlier records are unchanged; the lists keep equal length |
| `Series.TimeSeries.Rows` | py4radiation/main.py:130-131 | the writing loop yields exactly 81 rows; row `m` is the row of record `m` |
| `Series.RowSpelledOut` | py4radiation/main.py:131 | a row is the ten formatted values in the fixed column order with a two-blank separator between each pair |
| `Series.RowLength` | py4radiation/main.py:131 | a row is as long as its ten formatted values together plus 18, the nine two-blank separators |
| `Series.RowReadsBack` | py4radiation/main.py:131 | when the format yields non-empty strings without blanks, splitting a row at blanks gives the ten formatted values in column order |
| `Series.TableReadsBack` | py4radiation/main.py:128-131 | reading the written file line by line and each line word by word gives, for line `m`, the formatted values of record `m` |
| `Clouds.ProgressLineCount` | py4radiation/main.py:124 | the progress line after snapshot `k` is `Simulation <n> out of 81 done` with `n` reading back as `k + 1` |
| `Clouds.FirstFailure` | py4radiation/main.py:108-109 | the first position whose file does not load: every earlier file loads |
| `Clouds.Process` | py4radiation/main.py:108-124 | the loop makes one pass per file up to the first that does not load; pass `i` loads file `i`, records the diagnostics of its fields, requests the cuts for identifier `i` and prints progress line `i` |
| `Clouds.RunClouds` | py4radiation/main.py:83-134 | a failed geometry load stops before anything else; otherwise the id and path lists are as built, the passes stop at the first unreadable file, and the table is produced exactly when all 81 files load: path `./clouds/<simname>_diagnostics.dat`, 81 rows, row `m` the row of the diagnostics of snapshot `m` |
| `Modes.SelectMode` | py4radiation/main.py:30-137 | codes 0, 1 and 2 select a pipeline; every other integer raises the unknown-mode error |
| `Modes.SelectModeOfCode` | py4radiation/main.py:30-69 | each mode is selected by its own code |
| `Modes.CodeOfSelectMode` | py4radiation/main.py:30-69 | an accepted code selects the mode with that code, so each code runs exactly one branch |

## Left out

- Number formatting: `'{0:.7E}'` is Python's float formatting. It is the
  parameter `fmt`; digit counts and exponent form are not modelled.
- The snapshot loader `simload` and the diagnostic routines
  (`Diagnose`, `get_sim_diagnostics`, `get_cuts`) are parameters. Only the
  loader can fail in the model. Failures of the diagnostic and cut routines
  are not modelled. The images the cut routine writes are not modelled; each
  pass only records the request.
- The model assumes that neither `get_sim_diagnostics` nor `get_cuts`
  changes the `Diagnose` object between passes: `diagnose` is a function of
  the geometry fields and one snapshot's fields. The `Diagnose` class is not
  part of this model; if it kept state across passes, row `m` would not be
  determined by snapshot `m` alone.
- The radiation mode (`SED`, `ParameterFiles`) and the synthetic-observables
  mode (`simload`, `SyntheticObservables`) are single library calls. Only
  their selection and banner lines are modelled.
- Command-line and configuration parsing are not modelled: `argparse`,
  `ConfigParser`, `int()` of the mode, and the `split()`/`astype(int)` of
  the box ranges. The corresponding values are plain inputs.
- Filesystem effects are not modelled: creating `./clouds/`, opening the
  results file, and a write that fails partway.
- The redirection of `sys.stdout` is not modelled. The content written is
  the rows, one line each (`Series.TableText`).
- The closing line `DIAGNOSE and CUTS done` is printed after the table and
  is not part of the returned value.
- `Series.TimeSeries.Rows`: The method requires at least 81 records,
  because the source indexes the lists at 0..80. It does not model the
  `IndexError` the source would raise on shorter lists, which the loop
  never produces.
