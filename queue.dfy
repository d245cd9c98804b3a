/**
 * TransactionQueue of queue.js: the single-flight worker that lists the
 * pending rows of the sheet and fulfils them one after another, each with up
 * to three attempts of "token transfer, then ETH transfer, then mark the row".
 *
 * The first half states, as functions on the World, what each operation
 * does; the lemmas prove what the queue promises about those functions; the
 * class at the end is the queue itself, each method proved to do what its
 * function says.
 */
module Queue {
  import opened Wrappers
  import opened Utils
  import opened Table
  import opened Remote
  import opened Sheets

  /** MAX_RETRIES: the number of attempts processTransaction makes. */
  const MaxRetries: nat := 3

  /** The fixed ETH amount sendEth transfers. */
  const EthAmount: string := "0.000001"

  /** What sendTokens and sendEth return (gas used and block number are not modelled). */
  datatype Receipt = Receipt(transactionHash: string, amount: Cell, recipient: Cell)

  /** The value processTransaction returns on success (`success: true`). */
  datatype Fulfilled = Fulfilled(tokenTransaction: Receipt, ethTransaction: Receipt)

  // ---------------------------------------------------------------------
  // What each step does to the world
  // ---------------------------------------------------------------------

  const TokenFailurePrefix: string := "Token-Transfer fehlgeschlagen: "
  const EthFailurePrefix: string := "ETH-Transfer fehlgeschlagen: "

  /** sendTokens: one signed token transfer; a failure is rethrown with the
      classified ledger message. */
  function SendTokensSpec(w: World, amount: Cell, wallet: Cell): (World, Result<Receipt, string>) {
    var reply := NextReply(w.replies);
    (Ask(w, TokenTransfer(amount, wallet)),
     if reply.Confirmed? then Ok(Receipt(reply.hash, amount, wallet))
     else Err(TokenFailurePrefix + HandleWeb3Error(reply.message)))
  }

  /** sendEth: one signed transfer of the fixed ETH amount. */
  function SendEthSpec(w: World, wallet: Cell): (World, Result<Receipt, string>) {
    var reply := NextReply(w.replies);
    (Ask(w, EthTransfer(wallet)),
     if reply.Confirmed? then Ok(Receipt(reply.hash, Text(EthAmount), wallet))
     else Err(EthFailurePrefix + HandleWeb3Error(reply.message)))
  }

  datatype Attempt = Attempt(world: World, result: Result<Fulfilled, string>)

  /** One pass through the try block of processTransaction: the three steps
      in order, stopping at the first that throws. */
  function AttemptSpec(w: World, tx: PendingTx): Attempt {
    var (w1, tokens) := SendTokensSpec(w, tx.amount, tx.wallet);
    if tokens.Err? then Attempt(w1, Err(tokens.error))
    else
      var (w2, eth) := SendEthSpec(w1, tx.wallet);
      if eth.Err? then Attempt(w2, Err(eth.error))
      else
        var (w3, marked) := MarkSpec(w2, tx.rowIndex);
        if marked.Err? then Attempt(w3, Err(marked.error))
        else Attempt(w3, Ok(Fulfilled(tokens.value, eth.value)))
  }

  /** The error processTransaction throws once every attempt has failed. */
  function ExhaustedMessage(lastError: string): string {
    "Transaktion nach 3 Versuchen fehlgeschlagen: " + lastError
  }

  /** The outcome of processTransaction and the number of attempts it made. */
  datatype Fulfilment = Fulfilment(world: World, result: Result<Fulfilled, string>, attempts: nat)

  /** processTransaction from the point where `retries` attempts have failed. */
  function FulfilFrom(w: World, tx: PendingTx, retries: nat): Fulfilment
    requires retries < MaxRetries
    decreases MaxRetries - retries
  {
    var a := AttemptSpec(w, tx);
    if a.result.Ok? then Fulfilment(a.world, a.result, retries + 1)
    else if retries + 1 < MaxRetries then FulfilFrom(a.world, tx, retries + 1)
    else Fulfilment(a.world, Err(ExhaustedMessage(a.result.error)), retries + 1)
  }

  /** processTransaction. */
  function Fulfil(w: World, tx: PendingTx): Fulfilment {
    FulfilFrom(w, tx, 0)
  }

  /** The loop of processQueue over a snapshot of the pending list: every entry
      is fulfilled in turn, whatever became of the ones before it. */
  function RunPending(w: World, txs: seq<PendingTx>): World
    decreases |txs|
  {
    if txs == [] then w
    else Fulfil(RunPending(w, txs[..|txs| - 1]), txs[|txs| - 1]).world
  }

  /** processQueue when no run is in progress: fetch the pending list, then
      fulfil it; a failed fetch ends the run. */
  function RunOnce(w: World): World {
    var (w1, fetched) := PendingSpec(w);
    if fetched.Err? then w1 else RunPending(w1, fetched.value)
  }

  // ---------------------------------------------------------------------
  // Reading the log
  // ---------------------------------------------------------------------

  /** The later world's log continues the earlier one's. */
  ghost predicate Extends(w: World, w': World) {
    |w.log| <= |w'.log| && w'.log[..|w.log|] == w.log
  }

  ghost function NewEvents(w: World, w': World): seq<Event>
    requires Extends(w, w')
  {
    w'.log[|w.log|..]
  }

  /** The request belongs to the fulfilment of this entry. */
  predicate Concerns(e: Event, tx: PendingTx) {
    e.call == TokenTransfer(tx.amount, tx.wallet) || e.call == EthTransfer(tx.wallet) ||
    e.call == MarkProcessed(tx.rowIndex)
  }

  /** Every mark request comes right after a confirmed token transfer and a
      confirmed ETH transfer, in that order. */
  predicate MarksAfterBothSends(d: seq<Event>) {
    forall p :: 0 <= p < |d| && d[p].call.MarkProcessed? ==>
      && 2 <= p
      && d[p - 2].call.TokenTransfer? && d[p - 2].reply.Confirmed?
      && d[p - 1].call.EthTransfer? && d[p - 1].reply.Confirmed?
  }

  /** The requests of one entry's fulfilment: they start with its token
      transfer, concern only it, and mark only after both sends. */
  predicate FulfilmentLog(d: seq<Event>, tx: PendingTx) {
    && |d| > 0
    && d[0].call == TokenTransfer(tx.amount, tx.wallet)
    && (forall p :: 0 <= p < |d| ==> Concerns(d[p], tx))
    && MarksAfterBothSends(d)
  }

  function CountTokenTransfers(d: seq<Event>): nat {
    if d == [] then 0
    else (if d[0].call.TokenTransfer? then 1 else 0) + CountTokenTransfers(d[1..])
  }

  /** The rows of the mark requests that succeeded, in log order. */
  function MarkedRows(d: seq<Event>): seq<RowIndex> {
    if d == [] then []
    else
      var head := if d[0].call.MarkProcessed? && d[0].reply.Confirmed? then [d[0].call.rowIndex] else [];
      head + MarkedRows(d[1..])
  }

  /** The error message a failed request turns into inside processTransaction. */
  function StepError(e: Event): string
    requires e.reply.Rejected?
  {
    match e.call
    case TokenTransfer(_, _) => TokenFailurePrefix + HandleWeb3Error(e.reply.message)
    case EthTransfer(_) => EthFailurePrefix + HandleWeb3Error(e.reply.message)
    case _ => e.reply.message
  }

  /** On success the log ends with the confirmed token transfer, ETH transfer
      and mark of this entry, and the receipts carry those transfers' hashes. */
  predicate EndsWithSuccess(d: seq<Event>, tx: PendingTx, r: Fulfilled) {
    && |d| >= 3
    && d[|d| - 3] == Event(TokenTransfer(tx.amount, tx.wallet), Confirmed(r.tokenTransaction.transactionHash))
    && d[|d| - 2] == Event(EthTransfer(tx.wallet), Confirmed(r.ethTransaction.transactionHash))
    && d[|d| - 1].call == MarkProcessed(tx.rowIndex) && d[|d| - 1].reply.Confirmed?
    && r.tokenTransaction.amount == tx.amount && r.tokenTransaction.recipient == tx.wallet
    && r.ethTransaction.amount == Text(EthAmount) && r.ethTransaction.recipient == tx.wallet
  }

  /** On failure the log ends with the failed request, and the error carries
      that request's message. */
  predicate EndsWithFailure(d: seq<Event>, message: string) {
    |d| > 0 && d[|d| - 1].reply.Rejected? && message == StepError(d[|d| - 1])
  }

  // ---------------------------------------------------------------------
  // Lemmas about logs
  // ---------------------------------------------------------------------

  lemma {:induction false} CountConcat(a: seq<Event>, b: seq<Event>)
    ensures CountTokenTransfers(a + b) == CountTokenTransfers(a) + CountTokenTransfers(b)
  {
    if a != [] {
      assert (a + b)[1..] == a[1..] + b;
      CountConcat(a[1..], b);
    } else {
      assert a + b == b;
    }
  }

  lemma {:induction false} MarkedConcat(a: seq<Event>, b: seq<Event>)
    ensures MarkedRows(a + b) == MarkedRows(a) + MarkedRows(b)
  {
    if a != [] {
      assert (a + b)[1..] == a[1..] + b;
      MarkedConcat(a[1..], b);
    } else {
      assert a + b == b;
    }
  }

  lemma FulfilmentLogConcat(a: seq<Event>, b: seq<Event>, tx: PendingTx)
    requires FulfilmentLog(a, tx) && FulfilmentLog(b, tx)
    ensures FulfilmentLog(a + b, tx)
  {
    var d := a + b;
    forall p | 0 <= p < |d| && d[p].call.MarkProcessed?
      ensures 2 <= p && d[p - 2].call.TokenTransfer? && d[p - 2].reply.Confirmed?
      ensures d[p - 1].call.EthTransfer? && d[p - 1].reply.Confirmed?
    {
      if p >= |a| {
        var q := p - |a|;
        assert d[p] == b[q];
        assert d[p - 1] == b[q - 1] && d[p - 2] == b[q - 2];
      }
    }
  }

  lemma ExtendsTrans(w1: World, w2: World, w3: World)
    requires Extends(w1, w2) && Extends(w2, w3)
    ensures Extends(w1, w3)
    ensures NewEvents(w1, w3) == NewEvents(w1, w2) + NewEvents(w2, w3)
  {
    assert w3.log[..|w1.log|] == w3.log[..|w2.log|][..|w1.log|];
    assert w3.log == w3.log[..|w2.log|] + w3.log[|w2.log|..];
    assert w2.log == w2.log[..|w1.log|] + w2.log[|w1.log|..];
  }

  // ---------------------------------------------------------------------
  // Lemmas about one attempt and about processTransaction
  // ---------------------------------------------------------------------

  /** What an attempt does: it starts with the token transfer, marks only
      after both transfers succeeded, marks the row exactly when it succeeds,
      and otherwise reports the error of the request that failed. */
  ghost predicate AttemptFacts(w: World, tx: PendingTx, a: Attempt) {
    && Extends(w, a.world)
    && var d := NewEvents(w, a.world);
    && FulfilmentLog(d, tx)
    && CountTokenTransfers(d) == 1
    && MarkedRows(d) == (if a.result.Ok? then [tx.rowIndex] else [])
    && a.world.rows == (if a.result.Ok? then MarkRow(w.rows, tx.rowIndex) else w.rows)
    && (a.result.Ok? ==> EndsWithSuccess(d, tx, a.result.value))
    && (a.result.Err? ==> EndsWithFailure(d, a.result.error))
  }

  /** The three logs one attempt can leave behind. */
  lemma AttemptLogs(tx: PendingTx, r1: Reply, r2: Reply, r3: Reply)
    ensures var t := Event(TokenTransfer(tx.amount, tx.wallet), r1);
      FulfilmentLog([t], tx) && CountTokenTransfers([t]) == 1 && MarkedRows([t]) == []
    ensures var t := Event(TokenTransfer(tx.amount, tx.wallet), r1);
      var e := Event(EthTransfer(tx.wallet), r2);
      FulfilmentLog([t, e], tx) && CountTokenTransfers([t, e]) == 1 && MarkedRows([t, e]) == []
    ensures var t := Event(TokenTransfer(tx.amount, tx.wallet), r1);
      var e := Event(EthTransfer(tx.wallet), r2);
      var m := Event(MarkProcessed(tx.rowIndex), r3);
      r1.Confirmed? && r2.Confirmed? ==>
        && FulfilmentLog([t, e, m], tx) && CountTokenTransfers([t, e, m]) == 1
        && MarkedRows([t, e, m]) == (if r3.Confirmed? then [tx.rowIndex] else [])
  {
    var t := Event(TokenTransfer(tx.amount, tx.wallet), r1);
    var e := Event(EthTransfer(tx.wallet), r2);
    var m := Event(MarkProcessed(tx.rowIndex), r3);
    assert [t, e][1..] == [e];
    assert [t, e, m][1..] == [e, m] && [e, m][1..] == [m];
    assert MarkedRows([e]) == [];
    assert MarkedRows([e, m]) == MarkedRows([m]);
    assert [m][1..] == [];
    assert CountTokenTransfers([m]) == 0;
    assert CountTokenTransfers([e, m]) == 0;
  }

  lemma AttemptProperties(w: World, tx: PendingTx)
    ensures AttemptFacts(w, tx, AttemptSpec(w, tx))
  {
    var a := AttemptSpec(w, tx);
    var r1 := NextReply(w.replies);
    var r2 := NextReply(RestOf(w.replies));
    var r3 := NextReply(RestOf(RestOf(w.replies)));
    var t := Event(TokenTransfer(tx.amount, tx.wallet), r1);
    var e := Event(EthTransfer(tx.wallet), r2);
    var m := Event(MarkProcessed(tx.rowIndex), r3);
    AttemptLogs(tx, r1, r2, r3);
    assert a.world.log[..|w.log|] == w.log;
    var d := NewEvents(w, a.world);
    if r1.Rejected? {
      assert d == [t];
    } else if r2.Rejected? {
      assert d == [t, e];
    } else {
      var w1 := Ask(w, TokenTransfer(tx.amount, tx.wallet));
      var w2 := Ask(w1, EthTransfer(tx.wallet));
      var w3 := Ask(w2, MarkProcessed(tx.rowIndex));
      assert w3.log == w.log + [t, e, m];
      assert a.world.log == w3.log;
      assert d == [t, e, m];
    }
  }

  /** The log of attempts of one entry, `attempts` of them, ending in `result`. */
  ghost predicate AttemptsLog(d: seq<Event>, tx: PendingTx, result: Result<Fulfilled, string>, attempts: nat) {
    && FulfilmentLog(d, tx)
    && CountTokenTransfers(d) == attempts
    && MarkedRows(d) == (if result.Ok? then [tx.rowIndex] else [])
    && (result.Ok? ==> EndsWithSuccess(d, tx, result.value))
    && (result.Err? ==> exists m :: EndsWithFailure(d, m) && result.error == ExhaustedMessage(m))
  }

  /** A failed attempt followed by further attempts. */
  lemma AttemptsLogConcat(d1: seq<Event>, d2: seq<Event>, tx: PendingTx, result: Result<Fulfilled, string>, n: nat)
    requires FulfilmentLog(d1, tx) && CountTokenTransfers(d1) == 1 && MarkedRows(d1) == []
    requires AttemptsLog(d2, tx, result, n)
    ensures AttemptsLog(d1 + d2, tx, result, n + 1)
  {
    FulfilmentLogConcat(d1, d2, tx);
    CountConcat(d1, d2);
    MarkedConcat(d1, d2);
    if result.Ok? {
      EndsWithSuccessConcat(d1, d2, tx, result.value);
    } else {
      var m :| EndsWithFailure(d2, m) && result.error == ExhaustedMessage(m);
      EndsWithFailureConcat(d1, d2, m);
    }
  }

  lemma EndsWithSuccessConcat(d1: seq<Event>, d2: seq<Event>, tx: PendingTx, r: Fulfilled)
    requires EndsWithSuccess(d2, tx, r)
    ensures EndsWithSuccess(d1 + d2, tx, r)
  {
    var d := d1 + d2;
    assert d[|d| - 3] == d2[|d2| - 3] && d[|d| - 2] == d2[|d2| - 2] && d[|d| - 1] == d2[|d2| - 1];
  }

  lemma EndsWithFailureConcat(d1: seq<Event>, d2: seq<Event>, message: string)
    requires EndsWithFailure(d2, message)
    ensures EndsWithFailure(d1 + d2, message)
  {
    var d := d1 + d2;
    assert d[|d| - 1] == d2[|d2| - 1];
  }

  /** What processTransaction does from `retries` failed attempts on. */
  ghost predicate FulfilFacts(w: World, tx: PendingTx, f: Fulfilment, retries: nat) {
    && Extends(w, f.world)
    && retries < f.attempts <= MaxRetries
    && AttemptsLog(NewEvents(w, f.world), tx, f.result, f.attempts - retries)
    && (f.result.Err? ==> f.attempts == MaxRetries)
    && f.world.rows == (if f.result.Ok? then MarkRow(w.rows, tx.rowIndex) else w.rows)
  }

  lemma FulfilSucceedsNow(w: World, tx: PendingTx, retries: nat)
    requires retries < MaxRetries
    requires AttemptFacts(w, tx, AttemptSpec(w, tx))
    requires AttemptSpec(w, tx).result.Ok?
    ensures FulfilFacts(w, tx, FulfilFrom(w, tx, retries), retries)
  {
  }

  lemma FulfilFailsLast(w: World, tx: PendingTx, retries: nat)
    requires retries + 1 == MaxRetries
    requires AttemptFacts(w, tx, AttemptSpec(w, tx))
    requires AttemptSpec(w, tx).result.Err?
    ensures FulfilFacts(w, tx, FulfilFrom(w, tx, retries), retries)
  {
    var a := AttemptSpec(w, tx);
    assert EndsWithFailure(NewEvents(w, a.world), a.result.error);
  }

  lemma FulfilRetries(w: World, tx: PendingTx, a: Attempt, rest: Fulfilment, retries: nat)
    requires retries + 1 < MaxRetries
    requires AttemptFacts(w, tx, a) && a.result.Err?
    requires FulfilFacts(a.world, tx, rest, retries + 1)
    ensures FulfilFacts(w, tx, rest, retries)
  {
    ExtendsTrans(w, a.world, rest.world);
    AttemptsLogConcat(NewEvents(w, a.world), NewEvents(a.world, rest.world), tx, rest.result, rest.attempts - retries - 1);
  }

  lemma {:induction false} FulfilFromProperties(w: World, tx: PendingTx, retries: nat)
    requires retries < MaxRetries
    ensures FulfilFacts(w, tx, FulfilFrom(w, tx, retries), retries)
    decreases MaxRetries - retries
  {
    var a := AttemptSpec(w, tx);
    AttemptProperties(w, tx);
    if a.result.Ok? {
      FulfilSucceedsNow(w, tx, retries);
    } else if retries + 1 < MaxRetries {
      FulfilFromProperties(a.world, tx, retries + 1);
      FulfilRetries(w, tx, a, FulfilFrom(a.world, tx, retries + 1), retries);
    } else {
      FulfilFailsLast(w, tx, retries);
    }
  }

  /** processTransaction makes between one and MAX_RETRIES attempts, each of
      which starts with a token transfer, so the token is sent once per
      attempt, also in attempts where only the ETH transfer or the mark
      failed. When it throws, it has made exactly MAX_RETRIES attempts, sent
      the token MAX_RETRIES times, and marked nothing. */
  lemma RetryBound(w: World, tx: PendingTx)
    ensures var f := Fulfil(w, tx);
      && Extends(w, f.world)
      && 1 <= f.attempts <= MaxRetries
      && CountTokenTransfers(NewEvents(w, f.world)) == f.attempts
      && NewEvents(w, f.world)[0].call == TokenTransfer(tx.amount, tx.wallet)
    ensures var f := Fulfil(w, tx);
      f.result.Err? ==>
        && f.attempts == MaxRetries
        && CountTokenTransfers(NewEvents(w, f.world)) == MaxRetries
        && MarkedRows(NewEvents(w, f.world)) == []
        && f.world.rows == w.rows
  {
    FulfilFromProperties(w, tx, 0);
  }

  /** Within processTransaction every mark request follows a confirmed token
      transfer and a confirmed ETH transfer, and only this entry's row is
      ever marked. */
  lemma MarkedOnlyAfterBothSends(w: World, tx: PendingTx)
    ensures var f := Fulfil(w, tx);
      && Extends(w, f.world)
      && MarksAfterBothSends(NewEvents(w, f.world))
      && forall e :: e in NewEvents(w, f.world) ==> Concerns(e, tx)
  {
    FulfilFromProperties(w, tx, 0);
    var f := Fulfil(w, tx);
    var d := NewEvents(w, f.world);
    forall e | e in d ensures Concerns(e, tx) {
      var p :| 0 <= p < |d| && d[p] == e;
    }
  }

  /** On the first attempt that gets through all three steps, processTransaction
      returns both receipts, has marked the row once and makes no further
      request. When it throws, the error names the last failure. */
  lemma FirstSuccessStops(w: World, tx: PendingTx)
    ensures var f := Fulfil(w, tx);
      f.result.Ok? ==>
        && Extends(w, f.world)
        && EndsWithSuccess(NewEvents(w, f.world), tx, f.result.value)
        && MarkedRows(NewEvents(w, f.world)) == [tx.rowIndex]
        && f.world.rows == MarkRow(w.rows, tx.rowIndex)
    ensures var f := Fulfil(w, tx);
      f.result.Err? ==>
        && Extends(w, f.world)
        && exists m :: EndsWithFailure(NewEvents(w, f.world), m) && f.result.error == ExhaustedMessage(m)
  {
    FulfilFromProperties(w, tx, 0);
  }

  /** When the token transfer succeeds but the ETH transfer fails every time,
      each of the three attempts sends the token again: three confirmed token
      transfers, no mark, and the row stays as it was. */
  lemma TokenResentWhenEthFails(w: World, tx: PendingTx, h1: string, h2: string, h3: string,
                                m1: string, m2: string, m3: string, rest: seq<Reply>)
    requires w.replies == [Confirmed(h1), Rejected(m1), Confirmed(h2), Rejected(m2), Confirmed(h3), Rejected(m3)] + rest
    ensures var f := Fulfil(w, tx);
      && f.result == Err(ExhaustedMessage(EthFailurePrefix + HandleWeb3Error(m3)))
      && f.world.rows == w.rows
      && f.world.replies == rest
      && f.world.log == w.log + [
           Event(TokenTransfer(tx.amount, tx.wallet), Confirmed(h1)), Event(EthTransfer(tx.wallet), Rejected(m1)),
           Event(TokenTransfer(tx.amount, tx.wallet), Confirmed(h2)), Event(EthTransfer(tx.wallet), Rejected(m2)),
           Event(TokenTransfer(tx.amount, tx.wallet), Confirmed(h3)), Event(EthTransfer(tx.wallet), Rejected(m3))]
  {
    var a1 := AttemptSpec(w, tx);
    assert a1.world.replies == w.replies[2..];
    var a2 := AttemptSpec(a1.world, tx);
    assert a2.world.replies == w.replies[4..];
    var a3 := AttemptSpec(a2.world, tx);
    assert a3.world.replies == rest;
  }

  // ---------------------------------------------------------------------
  // Lemmas about processQueue
  // ---------------------------------------------------------------------

  lemma ExtendsRefl(w: World)
    ensures Extends(w, w) && NewEvents(w, w) == []
  {
  }

  /** The log of a run continues the log of every earlier point of the run. */
  lemma {:induction false} RunPendingExtends(w: World, txs: seq<PendingTx>, k: nat)
    requires k <= |txs|
    ensures Extends(RunPending(w, txs[..k]), RunPending(w, txs))
    decreases |txs|
  {
    if k == |txs| {
      assert txs[..k] == txs;
      ExtendsRefl(RunPending(w, txs));
    } else {
      var n := |txs|;
      var init := txs[..n - 1];
      RunPendingExtends(w, init, k);
      assert init[..k] == txs[..k];
      FulfilFromProperties(RunPending(w, init), txs[n - 1], 0);
      ExtendsTrans(RunPending(w, txs[..k]), RunPending(w, init), RunPending(w, txs));
    }
  }

  lemma RunSegment(w: World, txs: seq<PendingTx>, k: nat)
    requires k < |txs|
    ensures RunPending(w, txs[..k + 1]) == Fulfil(RunPending(w, txs[..k]), txs[k]).world
  {
    assert txs[..k + 1][..k] == txs[..k];
  }

  /** Every entry of the snapshot is attempted, whatever became of the entries
      before it: entry k owns the stretch of the run's log between the two
      offsets below; that stretch starts with its token transfer and is
      exactly one processTransaction of it, with at most MAX_RETRIES attempts. */
  lemma EveryEntryAttempted(w: World, txs: seq<PendingTx>, k: nat)
    requires k < |txs|
    ensures var final := RunPending(w, txs);
      var before := RunPending(w, txs[..k]);
      var f := Fulfil(before, txs[k]);
      var start, end := |before.log|, |f.world.log|;
      && Extends(w, final)
      && |w.log| <= start < end <= |final.log|
      && final.log[start].call == TokenTransfer(txs[k].amount, txs[k].wallet)
      && f.attempts <= MaxRetries
      && AttemptsLog(final.log[start..end], txs[k], f.result, f.attempts)
  {
    var final := RunPending(w, txs);
    var before := RunPending(w, txs[..k]);
    var f := Fulfil(before, txs[k]);
    RunPendingExtends(w, txs, 0);
    assert txs[..0] == [];
    RunPendingExtends(w, txs[..k], 0);
    assert txs[..k][..0] == [];
    RunSegment(w, txs, k);
    RunPendingExtends(w, txs, k + 1);
    FulfilFromProperties(before, txs[k], 0);
    assert final.log[..|f.world.log|] == f.world.log;
    assert final.log[|before.log|..|f.world.log|] == NewEvents(before, f.world);
    assert final.log[|before.log|] == NewEvents(before, f.world)[0];
  }

  /** Entries are attempted in the order of the snapshot: the fulfilment of an
      earlier entry starts, and ends, before that of a later one. */
  lemma EntriesInOrder(w: World, txs: seq<PendingTx>, j: nat, k: nat)
    requires j < k < |txs|
    ensures |Fulfil(RunPending(w, txs[..j]), txs[j]).world.log| <= |RunPending(w, txs[..k]).log|
    ensures |RunPending(w, txs[..j]).log| < |RunPending(w, txs[..k]).log|
  {
    var pre := txs[..k];
    RunPendingExtends(w, pre, j + 1);
    assert pre[..j + 1] == txs[..j + 1];
    RunSegment(w, txs, j);
    FulfilFromProperties(RunPending(w, txs[..j]), txs[j], 0);
  }

  /** The row numbers of the snapshot's entries. */
  function RowsOf(txs: seq<PendingTx>): (r: seq<RowIndex>)
    ensures |r| == |txs| && forall i :: 0 <= i < |txs| ==> r[i] == txs[i].rowIndex
  {
    seq(|txs|, i requires 0 <= i < |txs| => txs[i].rowIndex)
  }

  predicate Increasing(rs: seq<RowIndex>) {
    forall i, j :: 0 <= i < j < |rs| ==> rs[i] < rs[j]
  }

  /** The table after marking the rows in the given order. */
  function MarkAll(rows: seq<Row>, rs: seq<RowIndex>): seq<Row>
    decreases |rs|
  {
    if rs == [] then rows else MarkRow(MarkAll(rows, rs[..|rs| - 1]), rs[|rs| - 1])
  }

  /** Marking a list of rows removes exactly those rows from the pending list. */
  lemma {:induction false} MarkAllPending(rows: seq<Row>, rs: seq<RowIndex>)
    ensures forall e :: e in PendingOf(MarkAll(rows, rs)) <==> e in PendingOf(rows) && e.rowIndex !in rs
    decreases |rs|
  {
    if rs != [] {
      var init := rs[..|rs| - 1];
      MarkAllPending(rows, init);
      MarkThenNotPending(MarkAll(rows, init), rs[|rs| - 1]);
      assert rs == init + [rs[|rs| - 1]];
    }
  }

  /** What one processTransaction contributes to the marks and the table. */
  lemma FulfilMarks(w: World, tx: PendingTx)
    ensures var f := Fulfil(w, tx);
      && Extends(w, f.world)
      && MarkedRows(NewEvents(w, f.world)) == (if f.result.Ok? then [tx.rowIndex] else [])
      && f.world.rows == (if f.result.Ok? then MarkRow(w.rows, tx.rowIndex) else w.rows)
  {
    FulfilFromProperties(w, tx, 0);
  }

  /** Over a snapshot in sheet order, a run marks rows in increasing order (so
      no row twice), marks only rows of the snapshot, and the table it leaves
      is the old one with exactly those rows marked. */
  lemma {:induction false} RunPendingMarks(w: World, txs: seq<PendingTx>)
    requires InSheetOrder(txs)
    ensures Extends(w, RunPending(w, txs))
    ensures var marked := MarkedRows(NewEvents(w, RunPending(w, txs)));
      && Increasing(marked)
      && (forall r :: r in marked ==> r in RowsOf(txs))
      && RunPending(w, txs).rows == MarkAll(w.rows, marked)
    decreases |txs|
  {
    if txs == [] {
      ExtendsRefl(w);
    } else {
      var n := |txs|;
      var init := txs[..n - 1];
      var w0 := RunPending(w, init);
      var last := txs[n - 1];
      var f := Fulfil(w0, last);
      assert InSheetOrder(init);
      RunPendingMarks(w, init);
      FulfilMarks(w0, last);
      ExtendsTrans(w, w0, f.world);
      var d0, d1 := NewEvents(w, w0), NewEvents(w0, f.world);
      MarkedConcat(d0, d1);
      var m0 := MarkedRows(d0);
      RunPendingStep(m0, init, txs);
      if f.result.Ok? {
        var marked := m0 + [last.rowIndex];
        assert marked[..|marked| - 1] == m0;
        assert MarkAll(w.rows, marked) == MarkRow(MarkAll(w.rows, m0), last.rowIndex);
      } else {
        assert m0 + [] == m0;
      }
    }
  }

  /** The marks of the first entries of a sheet-ordered snapshot are rows of
      the snapshot below the row of its last entry. */
  lemma RunPendingStep(m0: seq<RowIndex>, init: seq<PendingTx>, txs: seq<PendingTx>)
    requires |txs| > 0 && init == txs[..|txs| - 1] && InSheetOrder(txs)
    requires Increasing(m0) && forall r :: r in m0 ==> r in RowsOf(init)
    ensures Increasing(m0 + [txs[|txs| - 1].rowIndex])
    ensures forall r :: r in m0 + [txs[|txs| - 1].rowIndex] ==> r in RowsOf(txs)
    ensures forall r :: r in m0 ==> r in RowsOf(txs)
  {
    var n := |txs|;
    forall r | r in m0 ensures r in RowsOf(txs) && r < txs[n - 1].rowIndex {
      var i :| 0 <= i < n - 1 && RowsOf(init)[i] == r;
      assert RowsOf(txs)[i] == r;
    }
    var marked := m0 + [txs[n - 1].rowIndex];
    forall i, j | 0 <= i < j < |marked| ensures marked[i] < marked[j] {
      assert marked[i] == m0[i] && m0[i] in m0;
      if j < |m0| {
        assert marked[j] == m0[j];
      }
    }
    forall r | r in marked ensures r in RowsOf(txs) {
      if r !in m0 {
        assert RowsOf(txs)[n - 1] == r;
      }
    }
  }

  /** The fetch that opens a run: one ReadRows request, which marks nothing. */
  lemma FetchStep(w: World)
    ensures var w1 := Ask(w, ReadRows);
      && Extends(w, w1)
      && NewEvents(w, w1) == [Event(ReadRows, NextReply(w.replies))]
      && MarkedRows(NewEvents(w, w1)) == []
      && w1.rows == w.rows
  {
    var w1 := Ask(w, ReadRows);
    assert w1.log[..|w.log|] == w.log;
    var fetch := NewEvents(w, w1);
    assert fetch[1..] == [];
  }

  /** What one run of processQueue does to the sheet. A failed fetch ends it
      after that one request. Otherwise every row it marks was pending when
      the run began, no row is marked twice, and afterwards the pending list
      is the old one without exactly the marked rows. */
  lemma RunOnceOutcome(w: World)
    ensures Extends(w, RunOnce(w))
    ensures NextReply(w.replies).Rejected? ==> RunOnce(w) == Ask(w, ReadRows)
    ensures var marked := MarkedRows(NewEvents(w, RunOnce(w)));
      && Increasing(marked)
      && (forall r :: r in marked ==> r <= |w.rows| && IsPendingRow(w.rows[r - 1]))
      && (forall e :: e in PendingOf(RunOnce(w).rows) <==> e in PendingOf(w.rows) && e.rowIndex !in marked)
  {
    FetchStep(w);
    if NextReply(w.replies).Rejected? {
      MarkAllPending(w.rows, []);
    } else {
      RunAfterFetch(w);
    }
  }

  /** The part of a run after a successful fetch. */
  lemma RunAfterFetch(w: World)
    requires NextReply(w.replies).Confirmed?
    ensures Extends(w, RunOnce(w))
    ensures var marked := MarkedRows(NewEvents(w, RunOnce(w)));
      && Increasing(marked)
      && (forall r :: r in marked ==> r <= |w.rows| && IsPendingRow(w.rows[r - 1]))
      && (forall e :: e in PendingOf(RunOnce(w).rows) <==> e in PendingOf(w.rows) && e.rowIndex !in marked)
  {
    RunAfterFetchMarks(w);
    MarkedSnapshotRows(w.rows, RunOnce(w).rows, MarkedRows(NewEvents(w, RunOnce(w))));
  }

  /** Marking rows drawn from the pending list marks pending rows and removes
      exactly their entries. */
  lemma MarkedSnapshotRows(rows: seq<Row>, final: seq<Row>, marked: seq<RowIndex>)
    requires forall r :: r in marked ==> r in RowsOf(PendingOf(rows))
    requires final == MarkAll(rows, marked)
    ensures forall r :: r in marked ==> r <= |rows| && IsPendingRow(rows[r - 1])
    ensures forall e :: e in PendingOf(final) <==> e in PendingOf(rows) && e.rowIndex !in marked
  {
    MarkedFromSnapshot(rows, marked);
    MarkAllPending(rows, marked);
  }

  /** After a successful fetch, the run marks rows of the snapshot, in
      increasing order, and the table is the fetched one with those rows
      marked. */
  lemma RunAfterFetchMarks(w: World)
    requires NextReply(w.replies).Confirmed?
    ensures Extends(w, RunOnce(w))
    ensures var marked := MarkedRows(NewEvents(w, RunOnce(w)));
      && Increasing(marked)
      && (forall r :: r in marked ==> r in RowsOf(PendingOf(w.rows)))
      && RunOnce(w).rows == MarkAll(w.rows, marked)
  {
    var w1 := Ask(w, ReadRows);
    FetchStep(w);
    var txs := PendingOf(w.rows);
    SnapshotInSheetOrder(w.rows);
    RunPendingMarks(w1, txs);
    var final := RunPending(w1, txs);
    assert final == RunOnce(w);
    ExtendsTrans(w, w1, final);
    MarkedConcat(NewEvents(w, w1), NewEvents(w1, final));
    assert MarkedRows(NewEvents(w, final)) == MarkedRows(NewEvents(w1, final));
  }

  lemma SnapshotInSheetOrder(rows: seq<Row>)
    ensures InSheetOrder(PendingOf(rows))
  {
    PendingIsFilter(rows);
  }

  /** Rows drawn from the pending list were pending rows of the table. */
  lemma MarkedFromSnapshot(rows: seq<Row>, marked: seq<RowIndex>)
    requires forall r :: r in marked ==> r in RowsOf(PendingOf(rows))
    ensures forall r :: r in marked ==> r <= |rows| && IsPendingRow(rows[r - 1])
  {
    forall r | r in marked ensures r <= |rows| && IsPendingRow(rows[r - 1]) {
      PendingRowOf(rows, r);
    }
  }

  /** A row number on the pending list belongs to a pending row. */
  lemma PendingRowOf(rows: seq<Row>, r: RowIndex)
    requires r in RowsOf(PendingOf(rows))
    ensures r <= |rows| && IsPendingRow(rows[r - 1])
  {
    var i := IndexOfRow(PendingOf(rows), r);
    PendingEntryRow(rows, i);
  }

  /** The position on a list of the entry that carries a given row number. */
  lemma IndexOfRow(txs: seq<PendingTx>, r: RowIndex) returns (i: nat)
    requires r in RowsOf(txs)
    ensures i < |txs| && txs[i].rowIndex == r
  {
    var rs := RowsOf(txs);
    i :| 0 <= i < |rs| && rs[i] == r;
  }

  lemma PendingEntryRow(rows: seq<Row>, i: nat)
    requires i < |PendingOf(rows)|
    ensures PendingOf(rows)[i].rowIndex <= |rows| && IsPendingRow(rows[PendingOf(rows)[i].rowIndex - 1])
  {
    PendingIsFilter(rows);
    assert PendingOf(rows)[i] in PendingOf(rows);
  }

  /** With every request confirmed, processTransaction succeeds on its first
      attempt and marks the entry's row. */
  lemma FulfilAllConfirmed(w: World, tx: PendingTx)
    requires AllConfirmed(w.replies)
    ensures var f := Fulfil(w, tx);
      && Extends(w, f.world)
      && AllConfirmed(f.world.replies)
      && MarkedRows(NewEvents(w, f.world)) == [tx.rowIndex]
  {
    var s1 := RestOf(w.replies);
    var s2 := RestOf(s1);
    ConfirmedStep(w.replies);
    ConfirmedStep(s1);
    ConfirmedStep(s2);
    var a := AttemptSpec(w, tx);
    assert a.result.Ok? && a.world.replies == RestOf(s2);
    FulfilMarks(w, tx);
  }

  /** When the ledger and the sheet confirm every request, a run over the
      snapshot marks every entry's row, in order. */
  lemma {:induction false} RunPendingAllConfirmed(w: World, txs: seq<PendingTx>)
    requires AllConfirmed(w.replies)
    ensures Extends(w, RunPending(w, txs))
    ensures AllConfirmed(RunPending(w, txs).replies)
    ensures MarkedRows(NewEvents(w, RunPending(w, txs))) == RowsOf(txs)
    decreases |txs|
  {
    if txs != [] {
      var init := txs[..|txs| - 1];
      RunPendingAllConfirmed(w, init);
      RunConfirmedStep(w, txs);
    } else {
      ExtendsRefl(w);
    }
  }

  /** The step of RunPendingAllConfirmed: the run over all but the last entry
      followed by the last entry's processTransaction. */
  lemma RunConfirmedStep(w: World, txs: seq<PendingTx>)
    requires txs != []
    requires var w0 := RunPending(w, txs[..|txs| - 1]);
      && Extends(w, w0)
      && AllConfirmed(w0.replies)
      && MarkedRows(NewEvents(w, w0)) == RowsOf(txs[..|txs| - 1])
    ensures Extends(w, RunPending(w, txs))
    ensures AllConfirmed(RunPending(w, txs).replies)
    ensures MarkedRows(NewEvents(w, RunPending(w, txs))) == RowsOf(txs)
  {
    var n := |txs|;
    var w0 := RunPending(w, txs[..n - 1]);
    FulfilAllConfirmed(w0, txs[n - 1]);
    MarksChain(w, w0, RunPending(w, txs), RowsOf(txs[..n - 1]), txs[n - 1].rowIndex);
    RowsOfSnoc(txs);
  }

  /** Marks of two consecutive stretches of log add up. */
  lemma MarksChain(w: World, w0: World, w1: World, rs: seq<RowIndex>, r: RowIndex)
    requires Extends(w, w0) && Extends(w0, w1)
    requires MarkedRows(NewEvents(w, w0)) == rs && MarkedRows(NewEvents(w0, w1)) == [r]
    ensures Extends(w, w1) && MarkedRows(NewEvents(w, w1)) == rs + [r]
  {
    ExtendsTrans(w, w0, w1);
    MarkedConcat(NewEvents(w, w0), NewEvents(w0, w1));
  }

  lemma RowsOfSnoc(txs: seq<PendingTx>)
    requires txs != []
    ensures RowsOf(txs) == RowsOf(txs[..|txs| - 1]) + [txs[|txs| - 1].rowIndex]
  {
  }

  /** The end-to-end case: with every request confirmed, one run of
      processQueue leaves nothing pending. */
  lemma RunOnceAllConfirmed(w: World)
    requires AllConfirmed(w.replies)
    ensures Extends(w, RunOnce(w))
    ensures forall e :: e !in PendingOf(RunOnce(w).rows)
    ensures MarkedRows(NewEvents(w, RunOnce(w))) == RowsOf(PendingOf(w.rows))
  {
    ConfirmedStep(w.replies);
    RunOnceOutcome(w);
    FetchStep(w);
    var w1 := Ask(w, ReadRows);
    var txs := PendingOf(w.rows);
    RunPendingAllConfirmed(w1, txs);
    var final := RunOnce(w);
    ExtendsTrans(w, w1, final);
    MarkedConcat(NewEvents(w, w1), NewEvents(w1, final));
    AllRemoved(txs, PendingOf(final.rows));
  }

  /** A list that keeps only the entries whose row is not among the rows of
      all of the entries holds no entry. */
  lemma AllRemoved(before: seq<PendingTx>, after: seq<PendingTx>)
    requires forall e :: e in after <==> e in before && e.rowIndex !in RowsOf(before)
    ensures forall e :: e !in after
  {
    forall e | e in before ensures e.rowIndex in RowsOf(before) {
      var i :| 0 <= i < |before| && before[i] == e;
      assert RowsOf(before)[i] == e.rowIndex;
    }
  }

  // ---------------------------------------------------------------------
  // The queue
  // ---------------------------------------------------------------------

  /** `amount` passes `!(isNaN(amount) || amount <= 0)`; None stands for NaN. */
  predicate IsPositiveNumber(n: Option<real>) {
    n.Some? && n.value > 0.0
  }

  /** The object getQueueStatus returns; pendingCount is None where the
      original reports 'unknown'. */
  datatype QueueStatus = QueueStatus(
    isProcessing: bool,
    pendingCount: Option<nat>,
    processInterval: nat,
    isRunning: bool,
    error: Option<string>)

  class TransactionQueue {
    const sheetsManager: SheetStore
    const remote: Network
    /** PROCESS_INTERVAL_MS. */
    const processIntervalMs: nat
    /** The single-flight guard of processQueue. */
    var isProcessing: bool
    /** The handle of the periodic timer, None while the queue is stopped. */
    var processInterval: Option<nat>

    ghost predicate Valid() {
      sheetsManager.remote == remote
    }

    function State(): World
      reads sheetsManager, remote
    {
      World(sheetsManager.rows, remote.replies, remote.log)
    }

    constructor (sheetsManager: SheetStore, processIntervalMs: nat)
      ensures Valid()
      ensures this.sheetsManager == sheetsManager && this.processIntervalMs == processIntervalMs
      ensures !isProcessing && processInterval == None
    {
      this.sheetsManager := sheetsManager;
      this.remote := sheetsManager.remote;
      this.processIntervalMs := processIntervalMs;
      this.isProcessing := false;
      this.processInterval := None;
    }

    /** startQueue: validate the sheet configuration, make sure of the header,
        start the timer, and run the queue once straight away. */
    method StartQueue(timerId: nat) returns (r: Outcome<string>)
      requires Valid()
      modifies this`processInterval, this`isProcessing, sheetsManager, remote
      ensures var (w1, valid) := ValidateSpec(old(State()), sheetsManager.spreadsheetId);
        !valid ==>
          && r == Fail("Google Sheets Konfiguration ist ungültig")
          && State() == w1
          && processInterval == old(processInterval) && isProcessing == old(isProcessing)
      ensures var (w1, valid) := ValidateSpec(old(State()), sheetsManager.spreadsheetId);
        valid ==>
          && r == Pass
          && processInterval == Some(timerId)
          && (old(isProcessing) ==> isProcessing && State() == EnsureHeaderSpec(w1))
          && (!old(isProcessing) ==> !isProcessing && State() == RunOnce(EnsureHeaderSpec(w1)))
    {
      var isValid := sheetsManager.ValidateConfiguration();
      if !isValid {
        return Fail("Google Sheets Konfiguration ist ungültig");
      }
      sheetsManager.EnsureHeaderRow();
      processInterval := Some(timerId);
      ProcessQueue();
      r := Pass;
    }

    /** stopQueue: clears the timer if one is running. */
    method StopQueue()
      modifies this`processInterval
      ensures processInterval == None
    {
      if processInterval.Some? {
        processInterval := None;
      }
    }

    /** addTransaction: validates the wallet, then the amount, and only then
        appends the row. `isAddress` stands for Web3.utils.isAddress and
        `toNumber` for JavaScript's conversion of the amount to a number. */
    method AddTransaction(amount: string, wallet: string, isAddress: string -> bool, toNumber: string -> Option<real>)
      returns (r: Result<RowIndex, string>)
      requires Valid()
      modifies sheetsManager, remote
      ensures !isAddress(wallet) ==> r == Err("Ungültige Wallet-Adresse") && State() == old(State())
      ensures isAddress(wallet) && !IsPositiveNumber(toNumber(amount)) ==>
        r == Err("Ungültiger Amount-Wert") && State() == old(State())
      ensures isAddress(wallet) && IsPositiveNumber(toNumber(amount)) ==>
        (State(), r) == AppendSpec(old(State()), amount, wallet)
    {
      if !isAddress(wallet) {
        return Err("Ungültige Wallet-Adresse");
      }
      var number := toNumber(amount);
      if number.None? || number.value <= 0.0 {
        return Err("Ungültiger Amount-Wert");
      }
      r := sheetsManager.AddTransactionToQueue(amount, wallet);
    }

    /** processQueue: the single-flight run over a snapshot of the pending
        list. The guard is released on every path out of the run. */
    method ProcessQueue()
      requires Valid()
      modifies this`isProcessing, sheetsManager, remote
      ensures old(isProcessing) ==> isProcessing && State() == old(State())
      ensures !old(isProcessing) ==> !isProcessing && State() == RunOnce(old(State()))
    {
      if isProcessing {
        return;
      }
      isProcessing := true;
      var fetched := sheetsManager.GetPendingTransactions();
      if fetched.Ok? {
        var pendingTransactions := fetched.value;
        if |pendingTransactions| != 0 {
          ghost var w1 := State();
          for i := 0 to |pendingTransactions|
            invariant isProcessing
            invariant State() == RunPending(w1, pendingTransactions[..i])
          {
            // A thrown error is logged and the loop goes on with the next entry.
            var outcome := ProcessTransaction(pendingTransactions[i]);
            assert pendingTransactions[..i + 1][..i] == pendingTransactions[..i];
          }
          assert pendingTransactions[..|pendingTransactions|] == pendingTransactions;
        }
      }
      isProcessing := false;
    }

    /** processTransaction: up to MAX_RETRIES attempts of the three steps. */
    method ProcessTransaction(tx: PendingTx) returns (r: Result<Fulfilled, string>)
      requires Valid()
      modifies sheetsManager, remote
      ensures var f := Fulfil(old(State()), tx); State() == f.world && r == f.result
    {
      var retries := 0;
      ghost var w0 := State();
      while retries < MaxRetries
        invariant retries < MaxRetries
        invariant FulfilFrom(State(), tx, retries) == Fulfil(w0, tx)
        decreases MaxRetries - retries
      {
        ghost var before := State();
        var failure: string;
        var tokenResult := SendTokens(tx.amount, tx.wallet);
        if tokenResult.Ok? {
          var ethResult := SendEth(tx.wallet);
          if ethResult.Ok? {
            var marked := sheetsManager.MarkTransactionAsProcessed(tx.rowIndex);
            if marked.Ok? {
              return Ok(Fulfilled(tokenResult.value, ethResult.value));
            }
            failure := marked.error;
          } else {
            failure := ethResult.error;
          }
        } else {
          failure := tokenResult.error;
        }
        assert State() == AttemptSpec(before, tx).world && failure == AttemptSpec(before, tx).result.error;
        retries := retries + 1;
        if retries >= MaxRetries {
          return Err(ExhaustedMessage(failure));
        }
      }
    }

    /** sendTokens, as one fallible ledger request. */
    method SendTokens(amount: Cell, wallet: Cell) returns (r: Result<Receipt, string>)
      requires Valid()
      modifies remote
      ensures (State(), r) == SendTokensSpec(old(State()), amount, wallet)
    {
      var reply := remote.Request(TokenTransfer(amount, wallet));
      if reply.Rejected? {
        return Err(TokenFailurePrefix + HandleWeb3Error(reply.message));
      }
      r := Ok(Receipt(reply.hash, amount, wallet));
    }

    /** sendEth, as one fallible ledger request. */
    method SendEth(wallet: Cell) returns (r: Result<Receipt, string>)
      requires Valid()
      modifies remote
      ensures (State(), r) == SendEthSpec(old(State()), wallet)
    {
      var reply := remote.Request(EthTransfer(wallet));
      if reply.Rejected? {
        return Err(EthFailurePrefix + HandleWeb3Error(reply.message));
      }
      r := Ok(Receipt(reply.hash, Text(EthAmount), wallet));
    }

    /** getQueueStatus: a fresh fetch of the pending list and the guard and
        timer state; a failed fetch is reported, not thrown. */
    method GetQueueStatus() returns (s: QueueStatus)
      requires Valid()
      modifies remote
      ensures var (w, fetched) := PendingSpec(old(State()));
        && State() == w
        && s == QueueStatus(
             isProcessing,
             if fetched.Ok? then Some(|fetched.value|) else None,
             processIntervalMs,
             processInterval.Some?,
             if fetched.Err? then Some(fetched.error) else None)
    {
      var fetched := sheetsManager.GetPendingTransactions();
      if fetched.Ok? {
        s := QueueStatus(isProcessing, Some(|fetched.value|), processIntervalMs, processInterval.Some?, None);
      } else {
        s := QueueStatus(isProcessing, None, processIntervalMs, processInterval.Some?, Some(fetched.error));
      }
    }
  }
}
