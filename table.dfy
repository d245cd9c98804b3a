/**
 * The queue sheet of googleSheets.js as a value: a sequence of rows, each a
 * sequence of cells, with columns A (amount), B (wallet) and C (processed).
 * This module holds what the sheet operations compute, as functions, and the
 * properties of those functions; sheets.dfy holds the operations themselves.
 */
module Table {

  /** A cell as the Sheets API hands it back: almost always text, but the
      pending filter also accepts a boolean `false`. */
  datatype Cell = Text(text: string) | Flag(flag: bool)

  type Row = seq<Cell>

  /** A row number as the Sheets API counts them: row 1 is the first row. */
  type RowIndex = n: nat | n >= 1 witness 1

  /** JavaScript truthiness of a cell value. */
  predicate Truthy(c: Cell) {
    match c
    case Text(t) => t != ""
    case Flag(b) => b
  }

  /** `processed === 'false' || processed === false || processed === ''`. */
  predicate IsUnprocessed(c: Cell) {
    c == Text("false") || c == Flag(false) || c == Text("")
  }

  /** The row test of getPendingTransactions. */
  predicate IsPendingRow(row: Row) {
    |row| >= 3 && Truthy(row[0]) && Truthy(row[1]) && IsUnprocessed(row[2])
  }

  /** One entry of the pending list. */
  datatype PendingTx = PendingTx(rowIndex: RowIndex, amount: Cell, wallet: Cell, processed: Cell)

  function EntryOf(row: Row, rowIndex: RowIndex): PendingTx
    requires |row| >= 3
  {
    PendingTx(rowIndex, row[0], row[1], row[2])
  }

  /** The pending list of a sheet: one entry per pending row, in sheet order,
      each carrying its 1-based row number. */
  function PendingOf(rows: seq<Row>): (r: seq<PendingTx>)
    ensures |r| <= |rows|
    ensures forall e :: e in r ==> e.rowIndex <= |rows|
    decreases |rows|
  {
    if rows == [] then []
    else
      var n := |rows|;
      var before := PendingOf(rows[..n - 1]);
      if IsPendingRow(rows[n - 1]) then before + [EntryOf(rows[n - 1], n)] else before
  }

  /** Entries in strictly increasing row order. */
  predicate InSheetOrder(p: seq<PendingTx>) {
    forall j, k :: 0 <= j < k < |p| ==> p[j].rowIndex < p[k].rowIndex
  }

  /** The pending list is exactly the filter of the sheet: an entry is listed
      if and only if its row is pending and the entry copies that row; entries
      come in strictly increasing row order. */
  lemma {:induction false} PendingIsFilter(rows: seq<Row>)
    ensures forall e :: e in PendingOf(rows) <==>
      e.rowIndex <= |rows| && IsPendingRow(rows[e.rowIndex - 1]) && e == EntryOf(rows[e.rowIndex - 1], e.rowIndex)
    ensures InSheetOrder(PendingOf(rows))
    decreases |rows|
  {
    if rows != [] {
      var n := |rows|;
      var init := rows[..n - 1];
      var before := PendingOf(init);
      var p := PendingOf(rows);
      PendingIsFilter(init);
      assert forall i :: 0 <= i < n - 1 ==> init[i] == rows[i];
      var tail := if IsPendingRow(rows[n - 1]) then [EntryOf(rows[n - 1], n)] else [];
      assert p == before + tail;
      assert forall e :: e in p <==> e in before || e in tail;
      forall j, k | 0 <= j < k < |p| ensures p[j].rowIndex < p[k].rowIndex {
        assert p[j] == before[j];
        if k >= |before| {
          assert p[j] in before;
          assert p[k] == EntryOf(rows[n - 1], n);
        } else {
          assert p[k] == before[k];
          assert before[j].rowIndex < before[k].rowIndex;
        }
      }
    }
  }

  /** Appending a row extends the pending list by that row's entry, if it is
      pending, and leaves the earlier entries as they were. */
  lemma PendingOfAppend(rows: seq<Row>, row: Row)
    ensures PendingOf(rows + [row]) ==
      PendingOf(rows) + (if IsPendingRow(row) then [EntryOf(row, |rows| + 1)] else [])
  {
    assert (rows + [row])[..|rows|] == rows;
  }

  // ---------------------------------------------------------------------
  // addTransactionToQueue
  // ---------------------------------------------------------------------

  /** The row addTransactionToQueue appends: `[amount, wallet, 'false']`. */
  function NewRow(amount: string, wallet: string): Row {
    [Text(amount), Text(wallet), Text("false")]
  }

  /** A row appended with a non-empty amount and wallet is listed as pending,
      last, under the next row number; with an empty amount or wallet it is
      never listed. */
  lemma AppendThenList(rows: seq<Row>, amount: string, wallet: string)
    ensures amount != "" && wallet != "" ==>
      PendingOf(rows + [NewRow(amount, wallet)]) ==
        PendingOf(rows) + [PendingTx(|rows| + 1, Text(amount), Text(wallet), Text("false"))]
    ensures amount == "" || wallet == "" ==>
      PendingOf(rows + [NewRow(amount, wallet)]) == PendingOf(rows)
  {
    PendingOfAppend(rows, NewRow(amount, wallet));
  }

  // ---------------------------------------------------------------------
  // markTransactionAsProcessed
  // ---------------------------------------------------------------------

  function Blanks(n: nat): (r: Row)
    ensures |r| == n && forall j :: 0 <= j < n ==> r[j] == Text("")
  {
    seq(n, _ => Text(""))
  }

  /** Writing 'true' into column C of one row. The cells between the row's end
      and column C, if any, read back as empty text. */
  function MarkCell(row: Row): Row {
    if |row| >= 3 then row[2 := Text("true")] else row + Blanks(2 - |row|) + [Text("true")]
  }

  /** The table after the update of cell C<rowIndex> to 'true'. A row past the
      end of the table is created, with the rows in between left empty. */
  function MarkRow(rows: seq<Row>, rowIndex: RowIndex): seq<Row> {
    if rowIndex <= |rows| then rows[rowIndex - 1 := MarkCell(rows[rowIndex - 1])]
    else rows + seq(rowIndex - 1 - |rows|, _ => []) + [MarkCell([])]
  }

  /** Every cell of `before` other than the one in column `col` is unchanged in `after`. */
  predicate SameCellsExcept(before: Row, after: Row, col: nat) {
    |before| <= |after| && forall j :: 0 <= j < |before| && j != col ==> after[j] == before[j]
  }

  /** The cells of `row` from position `from` up to, but not including, `to` are empty text. */
  predicate BlankBetween(row: Row, from: nat, to: nat) {
    to <= |row| && forall j :: from <= j < to ==> row[j] == Text("")
  }

  /** Marking writes 'true' into column C of the named row and changes no
      other cell. */
  lemma MarkRowFrame(rows: seq<Row>, r: RowIndex)
    ensures var m := MarkRow(rows, r);
      && |m| == (if r <= |rows| then |rows| else r)
      && (forall i :: 0 <= i < |rows| && i != r - 1 ==> m[i] == rows[i])
      && (forall i :: |rows| <= i < r - 1 ==> m[i] == [])
      && |m[r - 1]| >= 3 && m[r - 1][2] == Text("true")
      && (r <= |rows| ==> |m[r - 1]| == (if |rows[r - 1]| >= 3 then |rows[r - 1]| else 3))
      && (r <= |rows| ==> SameCellsExcept(rows[r - 1], m[r - 1], 2) && BlankBetween(m[r - 1], |rows[r - 1]|, 2))
      && (r > |rows| ==> BlankBetween(m[r - 1], 0, 2))
  {
    if r > |rows| {
      var m := MarkRow(rows, r);
      assert m[r - 1] == MarkCell([]);
    }
  }

  /** Marking a row twice leaves the same table as marking it once. */
  lemma MarkRowIdempotent(rows: seq<Row>, r: RowIndex)
    ensures MarkRow(MarkRow(rows, r), r) == MarkRow(rows, r)
  {
    MarkRowFrame(rows, r);
    var m := MarkRow(rows, r);
    assert MarkCell(m[r - 1]) == m[r - 1];
  }

  /** After marking, the pending list is the old one without the marked row. */
  lemma {:induction false} MarkThenNotPending(rows: seq<Row>, r: RowIndex)
    ensures forall e :: e in PendingOf(MarkRow(rows, r)) <==> e in PendingOf(rows) && e.rowIndex != r
  {
    var m := MarkRow(rows, r);
    MarkRowFrame(rows, r);
    PendingIsFilter(rows);
    PendingIsFilter(m);
    assert !IsPendingRow(m[r - 1]);
    forall i | |rows| <= i < |m| ensures !IsPendingRow(m[i]) {
      if i < r - 1 { assert m[i] == []; }
    }
  }

  // ---------------------------------------------------------------------
  // ensureHeaderRow
  // ---------------------------------------------------------------------

  const HeaderRow: Row := [Text("amount"), Text("wallet"), Text("processed")]

  /** Cells A1, B1 and C1 hold the header. */
  predicate HasHeader(rows: seq<Row>) {
    rows != [] && |rows[0]| >= 3 && rows[0][..3] == HeaderRow
  }

  /** The table after ensureHeaderRow: unchanged when the header is there,
      otherwise with A1:C1 overwritten by the header. */
  function WithHeader(rows: seq<Row>): seq<Row> {
    if HasHeader(rows) then rows
    else if rows == [] then [HeaderRow]
    else [HeaderRow + (if |rows[0]| > 3 then rows[0][3..] else [])] + rows[1..]
  }

  /** ensureHeaderRow establishes the header, keeps every row after the first,
      and is idempotent. */
  lemma WithHeaderProperties(rows: seq<Row>)
    ensures HasHeader(WithHeader(rows))
    ensures HasHeader(rows) ==> WithHeader(rows) == rows
    ensures |WithHeader(rows)| == (if rows == [] then 1 else |rows|)
    ensures forall i :: 1 <= i < |rows| ==> WithHeader(rows)[i] == rows[i]
    ensures WithHeader(WithHeader(rows)) == WithHeader(rows)
  {
    if !HasHeader(rows) && rows != [] {
      var h := HeaderRow + (if |rows[0]| > 3 then rows[0][3..] else []);
      assert h[..3] == HeaderRow;
    }
  }

  /** The header row is never listed as pending. */
  lemma HeaderNeverPending(rows: seq<Row>)
    requires HasHeader(rows)
    ensures forall e :: e in PendingOf(rows) ==> e.rowIndex != 1
  {
    PendingIsFilter(rows);
    assert rows[0][2] == rows[0][..3][2];
  }

  /** When row 1 held a request rather than the header, ensureHeaderRow
      overwrites it: the request drops out of the pending list and every other
      entry stays. */
  lemma {:induction false} WithHeaderPending(rows: seq<Row>)
    ensures forall e :: e in PendingOf(WithHeader(rows)) <==> e in PendingOf(rows) && e.rowIndex != 1
  {
    var w := WithHeader(rows);
    WithHeaderProperties(rows);
    PendingIsFilter(rows);
    PendingIsFilter(w);
    HeaderNeverPending(w);
    if HasHeader(rows) {
      HeaderNeverPending(rows);
    }
  }
}
