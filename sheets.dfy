/**
 * GoogleSheetsManager of googleSheets.js over an in-memory table. Each
 * operation makes the same remote requests as the original, in the same
 * order, and changes the table only when the request that writes it succeeds.
 */
module Sheets {
  import opened Wrappers
  import opened Table
  import opened Remote

  // ---------------------------------------------------------------------
  // What each operation does to the world
  // ---------------------------------------------------------------------

  /** getPendingTransactions: one read of A:C; on success the pending list of
      the table, on failure the request's error. */
  function PendingSpec(w: World): (World, Result<seq<PendingTx>, string>) {
    var reply := NextReply(w.replies);
    (Ask(w, ReadRows), if reply.Confirmed? then Ok(PendingOf(w.rows)) else Err(reply.message))
  }

  /** addTransactionToQueue: one append request; on success the new row is at
      the end and its row number is returned. */
  function AppendSpec(w: World, amount: string, wallet: string): (World, Result<RowIndex, string>) {
    var reply := NextReply(w.replies);
    var w' := Ask(w, AppendRow(amount, wallet));
    if reply.Confirmed? then (w'.(rows := w.rows + [NewRow(amount, wallet)]), Ok(|w.rows| + 1))
    else (w', Err(reply.message))
  }

  /** markTransactionAsProcessed: one update request of C<rowIndex>. */
  function MarkSpec(w: World, rowIndex: RowIndex): (World, Result<(), string>) {
    var reply := NextReply(w.replies);
    var w' := Ask(w, MarkProcessed(rowIndex));
    if reply.Confirmed? then (w'.(rows := MarkRow(w.rows, rowIndex)), Ok(()))
    else (w', Err(reply.message))
  }

  /** validateConfiguration: false without a request when no spreadsheet id is
      set; otherwise whether the test read succeeds. */
  function ValidateSpec(w: World, spreadsheetId: string): (World, bool) {
    if spreadsheetId == "" then (w, false)
    else (Ask(w, ReadSpreadsheet), NextReply(w.replies).Confirmed?)
  }

  /** ensureHeaderRow: a read of A1:C1, then, when the header is not there, a
      write of it. A failure of either request is swallowed. */
  function EnsureHeaderSpec(w: World): World {
    var read := NextReply(w.replies);
    var w1 := Ask(w, ReadHeader);
    if read.Rejected? || HasHeader(w.rows) then w1
    else
      var write := NextReply(w1.replies);
      var w2 := Ask(w1, WriteHeader);
      if write.Confirmed? then w2.(rows := WithHeader(w.rows)) else w2
  }

  /** A successful read of an empty sheet gives an empty pending list, not an
      error; getPendingTransactions fails only when its read fails. */
  lemma EmptySheetNoPending(w: World)
    ensures PendingSpec(w).1.Err? <==> NextReply(w.replies).Rejected?
    ensures w.rows == [] && NextReply(w.replies).Confirmed? ==> PendingSpec(w).1 == Ok([])
  {
  }

  /** ensureHeaderRow never fails and, when both requests succeed (or the
      header is already there), leaves the header in row 1. */
  lemma EnsureHeaderEstablishes(w: World)
    ensures EnsureHeaderSpec(w).rows == w.rows || EnsureHeaderSpec(w).rows == WithHeader(w.rows)
    ensures NextReply(w.replies).Confirmed? && NextReply(RestOf(w.replies)).Confirmed? ==>
      HasHeader(EnsureHeaderSpec(w).rows)
    ensures HasHeader(w.rows) ==> EnsureHeaderSpec(w).rows == w.rows
  {
    WithHeaderProperties(w.rows);
  }

  class SheetStore {
    /** GOOGLE_SPREADSHEET_ID; the empty string when it is not set. */
    const spreadsheetId: string
    const remote: Network
    /** The rows of the sheet's A:C range, row 1 first. */
    var rows: seq<Row>

    function State(): World
      reads this, remote
    {
      World(rows, remote.replies, remote.log)
    }

    constructor (spreadsheetId: string, rows: seq<Row>, remote: Network)
      ensures this.spreadsheetId == spreadsheetId && this.rows == rows && this.remote == remote
    {
      this.spreadsheetId := spreadsheetId;
      this.rows := rows;
      this.remote := remote;
    }

    method AddTransactionToQueue(amount: string, wallet: string) returns (r: Result<RowIndex, string>)
      modifies this, remote
      ensures (State(), r) == AppendSpec(old(State()), amount, wallet)
    {
      var reply := remote.Request(AppendRow(amount, wallet));
      if reply.Rejected? {
        return Err(reply.message);
      }
      rows := rows + [[Text(amount), Text(wallet), Text("false")]];
      r := Ok(|rows|);
    }

    method GetPendingTransactions() returns (r: Result<seq<PendingTx>, string>)
      modifies remote
      ensures (State(), r) == PendingSpec(old(State()))
    {
      var reply := remote.Request(ReadRows);
      if reply.Rejected? {
        return Err(reply.message);
      }
      var pending: seq<PendingTx> := [];
      for i := 0 to |rows|
        invariant pending == PendingOf(rows[..i])
      {
        var row := rows[i];
        assert rows[..i + 1][..i] == rows[..i];
        if |row| >= 3 {
          var amount, wallet, processed := row[0], row[1], row[2];
          if Truthy(amount) && Truthy(wallet) && IsUnprocessed(processed) {
            pending := pending + [PendingTx(i + 1, amount, wallet, processed)];
          }
        }
      }
      assert rows[..|rows|] == rows;
      r := Ok(pending);
    }

    method MarkTransactionAsProcessed(rowIndex: RowIndex) returns (r: Result<(), string>)
      modifies this, remote
      ensures (State(), r) == MarkSpec(old(State()), rowIndex)
    {
      var reply := remote.Request(MarkProcessed(rowIndex));
      if reply.Rejected? {
        return Err(reply.message);
      }
      rows := MarkRow(rows, rowIndex);
      r := Ok(());
    }

    method ValidateConfiguration() returns (ok: bool)
      modifies remote
      ensures (State(), ok) == ValidateSpec(old(State()), spreadsheetId)
      ensures ok ==> spreadsheetId != ""
    {
      if spreadsheetId == "" {
        return false;
      }
      var reply := remote.Request(ReadSpreadsheet);
      ok := reply.Confirmed?;
    }

    method EnsureHeaderRow()
      modifies this, remote
      ensures State() == EnsureHeaderSpec(old(State()))
    {
      var read := remote.Request(ReadHeader);
      if read.Rejected? {
        return;
      }
      var missing := rows == [] || |rows[0]| < 3 ||
        rows[0][0] != Text("amount") || rows[0][1] != Text("wallet") || rows[0][2] != Text("processed");
      assert missing == !HasHeader(rows);
      if missing {
        var written := remote.Request(WriteHeader);
        if written.Confirmed? {
          if rows == [] {
            rows := [HeaderRow];
          } else {
            var beyondC := if |rows[0]| > 3 then rows[0][3..] else [];
            rows := [HeaderRow + beyondC] + rows[1..];
          }
        }
      }
    }
  }
}
