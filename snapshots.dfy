/** The snapshot sequence of the CLOUDS mode: the 81 zero-padded snapshot
    identifiers and the file path of each snapshot in the simulation
    directory. */
module Snapshots {
  import opened Numerals
  import opened Text

  /** Number of snapshots the CLOUDS mode walks. */
  const SnapshotCount: nat := 81

  /** Identifier of snapshot `i`: three zeros in front of a one-digit index,
      two zeros in front of any longer one. */
  function SnapshotId(i: nat): string {
    if i < 10 then "000" + DecimalString(i) else "00" + DecimalString(i)
  }

  /** File of snapshot `id` in the simulation directory `simpath`, as the
      diagnostics loop loads it. */
  function SnapshotPath(simpath: string, id: string): string {
    simpath + "data." + id + ".dat"
  }

  /** File loaded once, before the loop, to give the geometry. */
  function GeometryPath(simpath: string): string {
    simpath + "data.0000.vtk"
  }

  /** The characters of an identifier: "000d" for a one-digit index and "00dd"
      for a two-digit one. */
  lemma SnapshotIdDigits(i: nat)
    ensures i < 10 ==> SnapshotId(i) == ['0', '0', '0', DigitChar(i)]
    ensures 10 <= i < 100 ==> SnapshotId(i) == ['0', '0', DigitChar(i / 10), DigitChar(i % 10)]
  {
    DecimalStringDigits(i);
  }

  /** Identifiers are four characters wide for every index below 100, which
      covers all 81 snapshots; from 100 on the padding gives five or more. */
  lemma SnapshotIdWidth(i: nat)
    ensures i < 100 ==> |SnapshotId(i)| == 4
    ensures i >= 100 ==> |SnapshotId(i)| >= 5
  {
    DecimalStringLength(i);
  }

  /** An identifier is all digits and reads back as its index. */
  lemma SnapshotIdParses(i: nat)
    ensures AllDigits(SnapshotId(i)) && ParseDecimal(SnapshotId(i)) == i
  {
    ParseDecimalString(i);
    ParseLeadingZeros(if i < 10 then "000" else "00", DecimalString(i));
  }

  /** Different snapshots have different identifiers. */
  lemma SnapshotIdInjective(i: nat, j: nat)
    requires i != j
    ensures SnapshotId(i) != SnapshotId(j)
  {
    SnapshotIdParses(i);
    SnapshotIdParses(j);
  }

  /** Below 100 the identifiers sort as strings exactly as their indices sort
      as numbers. */
  lemma SnapshotIdOrdered(i: nat, j: nat)
    requires i < j < 100
    ensures LexLess(SnapshotId(i), SnapshotId(j))
  {
    SnapshotIdDigits(i);
    SnapshotIdDigits(j);
    var a, b := SnapshotId(i), SnapshotId(j);
    assert |a| == 4 && |b| == 4 && a[..2] == b[..2] == "00";
    if i / 10 == j / 10 {
      assert a[2] == b[2] && a[3] < b[3];
      assert LexLess(a[3..], b[3..]);
      assert a[2..][1..] == a[3..] && b[2..][1..] == b[3..];
    } else {
      assert a[2] < b[2];
    }
    assert LexLess(a[2..], b[2..]);
    assert a[1..][1..] == a[2..] && b[1..][1..] == b[2..];
    assert LexLess(a[1..], b[1..]);
  }

  /** The identifier of a snapshot can be cut back out of its path. */
  lemma SnapshotPathId(simpath: string, id: string)
    ensures var p := SnapshotPath(simpath, id);
      |p| == |simpath| + |id| + 9 && p[|simpath| + 5..|p| - 4] == id
  {
  }

  /** Different identifiers give different paths. */
  lemma SnapshotPathInjective(simpath: string, a: string, b: string)
    requires SnapshotPath(simpath, a) == SnapshotPath(simpath, b)
    ensures a == b
  {
    SnapshotPathId(simpath, a);
    SnapshotPathId(simpath, b);
  }

  /** The geometry file is not the file loaded for snapshot 0: they share
      the stem "data.0000" and differ in the extension. */
  lemma GeometryIsNotFirstSnapshot(simpath: string)
    ensures GeometryPath(simpath) != SnapshotPath(simpath, SnapshotId(0))
    ensures GeometryPath(simpath)[..|simpath| + 9] == SnapshotPath(simpath, SnapshotId(0))[..|simpath| + 9]
  {
    var g, p := GeometryPath(simpath), SnapshotPath(simpath, SnapshotId(0));
    assert SnapshotId(0) == "0000";
    assert p == simpath + "data.0000.dat";
    assert g[|simpath| + 10] == 'v' && p[|simpath| + 10] == 'd';
  }

  /** Builds the identifier list of all snapshots, one append per index. */
  method Identifiers() returns (ids: seq<string>)
    ensures |ids| == SnapshotCount
    ensures forall i :: 0 <= i < |ids| ==> ids[i] == SnapshotId(i)
    ensures forall i :: 0 <= i < |ids| ==> |ids[i]| == 4 && AllDigits(ids[i]) && ParseDecimal(ids[i]) == i
    ensures forall i, j :: 0 <= i < j < |ids| ==> LexLess(ids[i], ids[j])
  {
    ids := [];
    for i := 0 to SnapshotCount
      invariant |ids| == i
      invariant forall k :: 0 <= k < i ==> ids[k] == SnapshotId(k)
    {
      if i < 10 {
        ids := ids + ["000" + DecimalString(i)];
      } else {
        ids := ids + ["00" + DecimalString(i)];
      }
    }
    forall i | 0 <= i < |ids|
      ensures |ids[i]| == 4 && AllDigits(ids[i]) && ParseDecimal(ids[i]) == i
    {
      SnapshotIdWidth(i);
      SnapshotIdParses(i);
    }
    forall i, j | 0 <= i < j < |ids|
      ensures LexLess(ids[i], ids[j])
    {
      SnapshotIdOrdered(i, j);
    }
  }

  /** Builds the path list, one path per identifier, in the same order. */
  method Paths(simpath: string, ids: seq<string>) returns (files: seq<string>)
    ensures |files| == |ids|
    ensures forall j :: 0 <= j < |files| ==> files[j] == SnapshotPath(simpath, ids[j])
    ensures forall j :: 0 <= j < |files| ==>
      |files[j]| == |simpath| + |ids[j]| + 9 &&
      files[j][..|simpath|] == simpath && files[j][|simpath| + 5..|files[j]| - 4] == ids[j]
  {
    files := [];
    for j := 0 to |ids|
      invariant |files| == j
      invariant forall k :: 0 <= k < j ==> files[k] == SnapshotPath(simpath, ids[k])
    {
      files := files + [simpath + "data." + ids[j] + ".dat"];
    }
    forall j | 0 <= j < |files|
      ensures |files[j]| == |simpath| + |ids[j]| + 9 &&
        files[j][..|simpath|] == simpath && files[j][|simpath| + 5..|files[j]| - 4] == ids[j]
    {
      SnapshotPathId(simpath, ids[j]);
    }
  }
}
