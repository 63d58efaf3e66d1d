/** String operations the pipeline relies on: Python's ordering of strings,
    joining cells with a separator, and the two ways a written table is read
    back -- splitting a line at runs of blanks and splitting text into lines. */
module Text {

  /** Python's `a < b` on strings: lexicographic by code point. */
  predicate LexLess(a: string, b: string) {
    if a == [] then b != []
    else b != [] && (a[0] < b[0] || (a[0] == b[0] && LexLess(a[1..], b[1..])))
  }

  /** `sep.join(cells)`. */
  function Join(cells: seq<string>, sep: string): string {
    if |cells| == 0 then ""
    else if |cells| == 1 then cells[0]
    else cells[0] + sep + Join(cells[1..], sep)
  }

  /** Joining is the same built from the back: the join of all but the last
      cell, the separator, and the last cell. */
  lemma {:induction false} JoinSnoc(cells: seq<string>, sep: string)
    requires |cells| >= 2
    ensures Join(cells, sep) == Join(cells[..|cells| - 1], sep) + sep + cells[|cells| - 1]
  {
    var n := |cells|;
    if n > 2 {
      JoinSnoc(cells[1..], sep);
      assert cells[1..][..n - 2] == cells[..n - 1][1..];
    }
  }

  /** Number of characters at the front of `s` before the first `stop`. */
  function RunLength(s: string, stop: char): (n: nat)
    ensures n <= |s|
    ensures forall i :: 0 <= i < n ==> s[i] != stop
    ensures n < |s| ==> s[n] == stop
  {
    if s == [] || s[0] == stop then 0 else 1 + RunLength(s[1..], stop)
  }

  /** Python's `s.split(' ')` followed by dropping the empty pieces: the words
      of a line whose separators are runs of blanks. */
  function Words(s: string): seq<string>
    decreases |s|
  {
    if s == [] then []
    else if s[0] == ' ' then Words(s[1..])
    else
      var n := RunLength(s, ' ');
      [s[..n]] + Words(s[n..])
  }

  /** What `print` writes for each of `rows`: the row and a newline. */
  function Terminated(rows: seq<string>): (s: string)
  {
    if rows == [] then "" else rows[0] + "\n" + Terminated(rows[1..])
  }

  /** The lines of a text; a last line without a newline still counts. */
  function Lines(s: string): seq<string>
    decreases |s|
  {
    if s == [] then []
    else
      var n := RunLength(s, '\n');
      if n == |s| then [s] else [s[..n]] + Lines(s[n + 1..])
  }

  predicate Blanks(s: string) {
    forall i :: 0 <= i < |s| ==> s[i] == ' '
  }

  /** A word is a non-empty string without blanks. */
  predicate IsWord(w: string) {
    w != [] && forall i :: 0 <= i < |w| ==> w[i] != ' '
  }

  predicate NoNewline(s: string) {
    forall i :: 0 <= i < |s| ==> s[i] != '\n'
  }

  /** The run before `stop` in `w + rest` is `w` when `w` holds no `stop`
      and `rest` starts with one. */
  lemma {:induction false} RunLengthAppend(w: string, rest: string, stop: char)
    requires forall i :: 0 <= i < |w| ==> w[i] != stop
    requires rest != [] && rest[0] == stop
    ensures RunLength(w + rest, stop) == |w|
  {
    if w != [] {
      assert (w + rest)[1..] == w[1..] + rest;
      RunLengthAppend(w[1..], rest, stop);
    }
  }

  /** Blanks in front of a line do not change its words. */
  lemma {:induction false} WordsAfterBlanks(b: string, s: string)
    requires Blanks(b)
    ensures Words(b + s) == Words(s)
  {
    if b == [] {
      assert b + s == s;
    } else {
      assert (b + s)[1..] == b[1..] + s;
      WordsAfterBlanks(b[1..], s);
    }
  }

  /** A word followed by blanks and more text is the first word. */
  lemma WordsOfWordThenBlanks(w: string, sep: string, s: string)
    requires IsWord(w) && Blanks(sep) && sep != []
    ensures Words(w + sep + s) == [w] + Words(s)
  {
    var t := w + sep + s;
    RunLengthAppend(w, sep + s, ' ');
    assert t == w + (sep + s);
    assert t[..|w|] == w && t[|w|..] == sep + s;
    WordsAfterBlanks(sep, s);
  }

  /** Joining words with a blank separator and splitting the line at blanks
      gives the words back. */
  lemma {:induction false} WordsOfJoin(cells: seq<string>, sep: string)
    requires forall i :: 0 <= i < |cells| ==> IsWord(cells[i])
    requires Blanks(sep) && sep != []
    ensures Words(Join(cells, sep)) == cells
  {
    if |cells| == 1 {
      var w := cells[0];
      assert RunLength(w, ' ') == |w| by {
        RunLengthWhole(w, ' ');
      }
      assert w[..|w|] == w && w[|w|..] == [];
      assert Words(w) == [w] + Words([]);
    } else if |cells| > 1 {
      WordsOfJoin(cells[1..], sep);
      WordsOfWordThenBlanks(cells[0], sep, Join(cells[1..], sep));
    }
  }

  lemma RunLengthWhole(w: string, stop: char)
    requires forall i :: 0 <= i < |w| ==> w[i] != stop
    ensures RunLength(w, stop) == |w|
  {
  }

  /** Splitting what `print` wrote for each row gives the rows back, provided
      no row holds a newline itself. */
  lemma {:induction false} LinesOfTerminated(rows: seq<string>)
    requires forall i :: 0 <= i < |rows| ==> NoNewline(rows[i])
    ensures Lines(Terminated(rows)) == rows
  {
    if rows != [] {
      var r := rows[0];
      var rest := Terminated(rows[1..]);
      var t := Terminated(rows);
      assert t == r + ("\n" + rest);
      RunLengthAppend(r, "\n" + rest, '\n');
      assert t[..|r|] == r && t[|r| + 1..] == rest;
      LinesOfTerminated(rows[1..]);
    }
  }

  /** The length of a joined line: the cells and one separator between each
      neighbouring pair. */
  lemma {:induction false} JoinLength(cells: seq<string>, sep: string, total: nat)
    requires |cells| >= 1
    requires total == SumLengths(cells)
    ensures |Join(cells, sep)| == total + (|cells| - 1) * |sep|
  {
    if |cells| > 1 {
      JoinLength(cells[1..], sep, SumLengths(cells[1..]));
    }
  }

  function SumLengths(cells: seq<string>): nat {
    if cells == [] then 0 else |cells[0]| + SumLengths(cells[1..])
  }
}
