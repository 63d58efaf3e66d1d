/** The time series of the CLOUDS mode: the per-snapshot diagnostic record,
    the ten parallel lists it is appended to, and the rows of the results
    table written from them. */
module Series {
  import opened Text
  import opened Snapshots

  /** A 3-vector as returned by the diagnostic routine, read by index 0, 1, 2. */
  datatype Vec3<V> = Vec3(x: V, y: V, z: V)

  /** What the diagnostic routine returns for one snapshot: average density,
      average temperature, mixing fraction, centre-of-mass position, the
      tracked structure's offset and its velocity. Values are abstract. */
  datatype Diagnostics<V> = Diagnostics(nAv: V, tAv: V, fmix: V, yCm: V, jSg: Vec3<V>, vSg: Vec3<V>)

  /** The ten values of a record in the table's column order. */
  function Columns<V>(d: Diagnostics<V>): seq<V> {
    [d.nAv, d.tAv, d.fmix, d.yCm, d.jSg.x, d.jSg.y, d.jSg.z, d.vSg.x, d.vSg.y, d.vSg.z]
  }

  /** The record a row of ten values stands for, read column by column. */
  function FromColumns<V>(c: seq<V>): Diagnostics<V>
    requires |c| == 10
  {
    Diagnostics(c[0], c[1], c[2], c[3], Vec3(c[4], c[5], c[6]), Vec3(c[7], c[8], c[9]))
  }

  /** Every component of a record reaches its own column: the ten columns
      give the record back, and the record of ten columns gives them back. */
  lemma ColumnsRoundTrip<V>(d: Diagnostics<V>, c: seq<V>)
    requires |c| == 10
    ensures |Columns(d)| == 10 && FromColumns(Columns(d)) == d
    ensures Columns(FromColumns(c)) == c
  {
  }

  /** Separator between the columns of a row. */
  const ColumnSeparator: string := "  "

  function FormatAll<V>(fmt: V -> string, vs: seq<V>): (cells: seq<string>)
    ensures |cells| == |vs| && forall i :: 0 <= i < |vs| ==> cells[i] == fmt(vs[i])
  {
    if vs == [] then [] else [fmt(vs[0])] + FormatAll(fmt, vs[1..])
  }

  /** The row of one record: every column formatted with `fmt` (the source's
      seven-digit scientific notation) and joined by two blanks. */
  function Row<V>(fmt: V -> string, d: Diagnostics<V>): string {
    Join(FormatAll(fmt, Columns(d)), ColumnSeparator)
  }

  /** A row is written column by column: the ten formatted values in order,
      with nine two-blank separators between them. */
  lemma RowSpelledOut<V>(fmt: V -> string, d: Diagnostics<V>)
    ensures Row(fmt, d) ==
      fmt(d.nAv) + "  " + fmt(d.tAv) + "  " + fmt(d.fmix) + "  " + fmt(d.yCm) + "  " +
      fmt(d.jSg.x) + "  " + fmt(d.jSg.y) + "  " + fmt(d.jSg.z) + "  " +
      fmt(d.vSg.x) + "  " + fmt(d.vSg.y) + "  " + fmt(d.vSg.z)
  {
    var c := FormatAll(fmt, Columns(d));
    var sep := ColumnSeparator;
    forall n | 2 <= n <= 10
      ensures Join(c[..n], sep) == Join(c[..n - 1], sep) + sep + c[n - 1]
    {
      JoinSnoc(c[..n], sep);
      assert c[..n][..n - 1] == c[..n - 1];
    }
    assert Join(c[..1], sep) == c[0];
    assert c[0] == fmt(d.nAv) && c[1] == fmt(d.tAv) && c[2] == fmt(d.fmix) && c[3] == fmt(d.yCm);
    assert c[4] == fmt(d.jSg.x) && c[5] == fmt(d.jSg.y) && c[6] == fmt(d.jSg.z);
    assert c[7] == fmt(d.vSg.x) && c[8] == fmt(d.vSg.y) && c[9] == fmt(d.vSg.z);
    assert c[..10] == c;
  }

  /** A row is as long as its ten formatted values together plus the nine
      two-blank separators. */
  lemma RowLength<V>(fmt: V -> string, d: Diagnostics<V>)
    ensures |Row(fmt, d)| == SumLengths(FormatAll(fmt, Columns(d))) + 18
  {
    JoinLength(FormatAll(fmt, Columns(d)), ColumnSeparator, SumLengths(FormatAll(fmt, Columns(d))));
  }

  /** Reading a row back: when every formatted value is a non-empty string
      without blanks, splitting the row at blanks gives the ten formatted
      values in column order. */
  lemma RowReadsBack<V>(fmt: V -> string, d: Diagnostics<V>)
    requires forall v :: IsWord(fmt(v))
    ensures Words(Row(fmt, d)) == FormatAll(fmt, Columns(d))
  {
    WordsOfJoin(FormatAll(fmt, Columns(d)), ColumnSeparator);
  }

  /** The ten parallel lists the CLOUDS loop appends to. */
  class TimeSeries<V> {
    var nList: seq<V>
    var tList: seq<V>
    var fmixList: seq<V>
    var yCmList: seq<V>
    var xSgList: seq<V>
    var ySgList: seq<V>
    var zSgList: seq<V>
    var vxSgList: seq<V>
    var vySgList: seq<V>
    var vzSgList: seq<V>

    /** All ten lists have the same length. */
    ghost predicate Valid()
      reads this
    {
      |tList| == |nList| && |fmixList| == |nList| && |yCmList| == |nList| &&
      |xSgList| == |nList| && |ySgList| == |nList| && |zSgList| == |nList| &&
      |vxSgList| == |nList| && |vySgList| == |nList| && |vzSgList| == |nList|
    }

    /** Number of snapshots recorded so far. */
    function Length(): nat
      reads this
    {
      |nList|
    }

    /** The record of snapshot `k`, read back from position `k` of every list. */
    function Snapshot(k: nat): Diagnostics<V>
      reads this
      requires Valid() && k < Length()
    {
      Diagnostics(nList[k], tList[k], fmixList[k], yCmList[k],
                  Vec3(xSgList[k], ySgList[k], zSgList[k]),
                  Vec3(vxSgList[k], vySgList[k], vzSgList[k]))
    }

    /** Ten empty lists. */
    constructor ()
      ensures Valid() && Length() == 0
    {
      nList, tList, fmixList, yCmList := [], [], [], [];
      xSgList, ySgList, zSgList := [], [], [];
      vxSgList, vySgList, vzSgList := [], [], [];
    }

    /** Appends one record: one value to each list, the vectors split into
        their x, y and z components. */
    method Append(d: Diagnostics<V>)
      requires Valid()
      modifies this
      ensures Valid() && Length() == old(Length()) + 1
      ensures Snapshot(old(Length())) == d
      ensures forall k :: 0 <= k < old(Length()) ==> Snapshot(k) == old(Snapshot(k))
      ensures nList == old(nList) + [d.nAv] && tList == old(tList) + [d.tAv]
      ensures fmixList == old(fmixList) + [d.fmix] && yCmList == old(yCmList) + [d.yCm]
      ensures xSgList == old(xSgList) + [d.jSg.x] && ySgList == old(ySgList) + [d.jSg.y]
      ensures zSgList == old(zSgList) + [d.jSg.z]
      ensures vxSgList == old(vxSgList) + [d.vSg.x] && vySgList == old(vySgList) + [d.vSg.y]
      ensures vzSgList == old(vzSgList) + [d.vSg.z]
    {
      nList := nList + [d.nAv];
      tList := tList + [d.tAv];
      fmixList := fmixList + [d.fmix];
      yCmList := yCmList + [d.yCm];
      xSgList := xSgList + [d.jSg.x];
      ySgList := ySgList + [d.jSg.y];
      zSgList := zSgList + [d.jSg.z];
      vxSgList := vxSgList + [d.vSg.x];
      vySgList := vySgList + [d.vSg.y];
      vzSgList := vzSgList + [d.vSg.z];
    }

    /** The rows of the results table: one per snapshot, for the first 81
        records, row `m` written from position `m` of every list. */
    method Rows(fmt: V -> string) returns (rows: seq<string>)
      requires Valid() && Length() >= SnapshotCount
      ensures |rows| == SnapshotCount
      ensures forall m :: 0 <= m < |rows| ==> rows[m] == Row(fmt, Snapshot(m))
    {
      rows := [];
      for m := 0 to SnapshotCount
        invariant |rows| == m
        invariant forall i :: 0 <= i < m ==> rows[i] == Row(fmt, Snapshot(i))
      {
        var row := fmt(nList[m]) + "  " + fmt(tList[m]) + "  " + fmt(fmixList[m]) + "  " +
          fmt(yCmList[m]) + "  " + fmt(xSgList[m]) + "  " + fmt(ySgList[m]) + "  " +
          fmt(zSgList[m]) + "  " + fmt(vxSgList[m]) + "  " + fmt(vySgList[m]) + "  " +
          fmt(vzSgList[m]);
        RowSpelledOut(fmt, Snapshot(m));
        rows := rows + [row];
      }
    }
  }

  /** The text of the results file: each row on a line of its own. */
  function TableText(rows: seq<string>): string {
    Terminated(rows)
  }

  /** Reading the results file back line by line and each line word by word
      gives, for line `m`, the formatted values of record `m` in column order. */
  lemma TableReadsBack<V>(fmt: V -> string, records: seq<Diagnostics<V>>, rows: seq<string>)
    requires forall v :: IsWord(fmt(v)) && NoNewline(fmt(v))
    requires |rows| == |records| && forall m :: 0 <= m < |rows| ==> rows[m] == Row(fmt, records[m])
    ensures |Lines(TableText(rows))| == |records|
    ensures forall m :: 0 <= m < |records| ==>
      Words(Lines(TableText(rows))[m]) == FormatAll(fmt, Columns(records[m]))
  {
    forall m | 0 <= m < |rows|
      ensures NoNewline(rows[m]) && Words(rows[m]) == FormatAll(fmt, Columns(records[m]))
    {
      RowHasNoNewline(fmt, records[m]);
      RowReadsBack(fmt, records[m]);
    }
    LinesOfTerminated(rows);
  }

  lemma RowHasNoNewline<V>(fmt: V -> string, d: Diagnostics<V>)
    requires forall v :: NoNewline(fmt(v))
    ensures NoNewline(Row(fmt, d))
  {
    RowSpelledOut(fmt, d);
  }
}
