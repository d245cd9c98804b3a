# TokenTransfer queue processor, modelled in Dafny

TokenTransfer fulfils queued transfer requests. Each request is a row of a
Google Sheets table: an amount, a wallet, and a `processed` flag. The
`TransactionQueue` of `queue.js` periodically reads the pending rows. For each
row it sends the token amount and then a small fixed amount of ETH to the
wallet, and marks the row as processed. The whole attempt is made at most
`MAX_RETRIES` = 3 times. The `GoogleSheetsManager` of `googleSheets.js`
holds the table operations. `utils.js` holds the private-key check, the
classifier for ledger error messages, and the environment check.

This project models these three files and proves what they promise.

- `wrappers.dfy`: `Option`, `Result`, and `Outcome` (pass or fail with an error).
- `utils.dfy` (module `Utils`): functions for `isValidPrivateKey`,
  `handleWeb3Error` and `validateEnvironmentVariables`, with lemmas on key
  shape, first-match priority and check precedence.
- `table.dfy` (module `Table`): the sheet as a value, `seq<Row>` with
  `Row = seq<Cell>`. It defines the pending filter, the appended row, the
  mark of column C, the header row, and their properties: filter
  characterisation, sheet order, append then list, mark then not pending,
  frame, idempotence.
- `remote.dfy` (module `Remote`): the outside world. Every request to the
  Sheets API or to the ledger is a `Call`. It takes the next reply from a
  script fixed in advance, either `Confirmed(hash)` or `Rejected(message)`,
  and is appended with its reply to a log. The `Network` class holds the
  script and the log.
- `sheets.dfy` (module `Sheets`): `SheetStore`, a class whose `rows` field
  the operations update in place. Each method is proved equal to a function
  on the `World` (rows, remaining replies, log). `getPendingTransactions`
  keeps its indexed `for` loop, whose invariant ties the list so far to the
  filter of the rows seen so far.
- `queue.dfy` (module `Queue`): functions for one attempt, the retry loop
  (`Fulfil`) and one run over the pending snapshot (`RunOnce`). Lemmas over
  the request log cover attempt counts, call order, marks only after both
  sends, the order of entries, and the pending list after a run. The class
  `TransactionQueue` holds the `isProcessing` guard and the
  `processInterval` timer field. Its `processTransaction` keeps the `while`
  loop over `retries`, and its `processQueue` keeps the `for` loop over the
  snapshot. Both are proved equal to those functions.

Two consequences of the code are proved outright rather than hidden.

- The retry loop wraps all three steps together (queue.js:146-177). So an
  attempt whose ETH transfer or mark fails is followed by an attempt that
  sends the token again (`Queue.RetryBound`, `Queue.TokenResentWhenEthFails`).
- Only a failed read of the pending list ends a run early (queue.js:107,
  129-133). A failed mark is retried inside `processTransaction` like a
  failed transfer.

`ensureHeaderRow` overwrites row 1 whenever it is not exactly the header. So
a transaction stored in row 1 is replaced and drops out of the pending list
(`Table.WithHeaderPending`).

## Model

| member | source | states |
|---|---|---|
| Utils.Contains | utils.js:63 | `includes`: true exactly when the pattern occurs at some position of the message |
| Utils.AllHex | utils.js:12 | true exactly when every character is one of `[0-9a-fA-F]` |
| Utils.NormaliseKey | utils.js:11 | the result always starts with `0x`; a key already starting with `0x` is kept, any other gets `0x` in front |
| Utils.IsValidPrivateKey | utils.js:9-16 | the key check as the code does it: `0x` is put in front when missing, then the key must have length 66 and match `0x` followed by 64 hex digits; `Utils.ValidPrivateKeyShape` and `Utils.PrefixDoesNotMatter` characterise it |
| Utils.ValidPrivateKeyShape | utils.js:9-16 | a key is valid exactly when it is 64 hex digits, or `0x` followed by 64 hex digits; every valid key has length 64 or 66, so any other length or a non-hex character is rejected |
| Utils.PrefixDoesNotMatter | utils.js:11 | for a key without `0x`, the key and `0x` plus the key are both valid or both invalid |
| Utils.HandleWeb3Error | utils.js:62-76 | the classifier as the code does it: the five `includes` tests in order, each with its fixed German message, and the message itself when none matches; `Utils.HandleWeb3ErrorIsFirstMatch` and `Utils.HandleWeb3ErrorPassThrough` characterise it |
| Utils.FirstMatch | utils.js:63-74 | None exactly when no pattern occurs in the message; otherwise the message of a pattern that occurs while no earlier pattern does |
| Utils.HandleWeb3ErrorIsFirstMatch | utils.js:62-76 | the classifier returns the message of the first of the five patterns, in their fixed order, that occurs, and otherwise the message itself |
| Utils.HandleWeb3ErrorPassThrough | utils.js:63-74 | with none of the patterns present the message comes back unchanged; with one present the result is one of the five fixed texts, namely the fixed text of the first pattern, in table order, that occurs |
| Utils.Unset | utils.js:34 | the names kept are exactly the listed names whose variable is absent or empty |
| Utils.MissingInOrder | utils.js:33-38 | the missing list is the unset ones of `RPC_URL`, `PRIVATE_KEY`, `TOKEN_CONTRACT_ADDRESS`, in that order |
| Utils.ValidateEnvironmentVariables | utils.js:32-59 | passes exactly when all five conditions hold; a missing-variables error lists exactly the unset required names |
| Utils.EnvironmentPrecedence | utils.js:36-58 | each error is reported exactly when its own condition fails and every earlier one holds: missing variables, private key, token address, Google auth, spreadsheet id |
| Table.PendingOf | googleSheets.js:91-105 | the pending list is no longer than the table and every row number on it is within the table |
| Table.PendingIsFilter | googleSheets.js:91-105 | an entry is listed exactly when its row has at least 3 cells, a truthy amount and wallet and a processed cell of `'false'`, `false` or `''`, and the entry copies that row with its 1-based number; entries come in strictly increasing row order |
| Table.PendingOfAppend | googleSheets.js:91-105 | adding a row at the end adds at most one entry, at the end, for that row |
| Table.AppendThenList | googleSheets.js:48-49 | after appending `[amount, wallet, 'false']`, the new row is listed last as pending when both are non-empty, and the list is unchanged otherwise |
| Table.MarkRow | googleSheets.js:121-130 | the update of `C<rowIndex>` to `'true'`: a shorter row is padded with empty cells up to column C, and a row past the end is created with empty rows in between; `Table.MarkRowFrame`, `Table.MarkRowIdempotent` and `Table.MarkThenNotPending` characterise it |
| Table.MarkRowFrame | googleSheets.js:123-130 | marking row r sets its column C to `'true'` and changes no other cell: other rows and the other cells of row r are kept, and cells filled in up to column C are empty |
| Table.MarkRowIdempotent | googleSheets.js:123-130 | marking a row twice leaves the same table as marking it once |
| Table.MarkThenNotPending | googleSheets.js:97 | after marking row r, an entry is pending exactly when it was before and its row is not r |
| Table.WithHeader | googleSheets.js:185-198 | the table unchanged when A1:C1 already hold `amount`, `wallet`, `processed`, otherwise with those three cells written over A1:C1 (cells after C1 kept) or, in an empty table, as its only row; `Table.WithHeaderProperties` and `Table.WithHeaderPending` characterise it |
| Table.WithHeaderProperties | googleSheets.js:185-198 | the result starts with the header; a table that already has it is unchanged; only row 1 changes; writing the header twice is the same as once |
| Table.HeaderNeverPending | googleSheets.js:97 | when row 1 is the header, no entry of the pending list is row 1 |
| Table.WithHeaderPending | googleSheets.js:185-198 | writing the header removes row 1 from the pending list and keeps every other entry |
| Sheets.PendingSpec | googleSheets.js:80-114 | one read request; on success the pending filter of the rows, on failure the request's error, and the rows unchanged either way; `Table.PendingIsFilter` and `Sheets.EmptySheetNoPending` characterise it, and `Sheets.SheetStore.GetPendingTransactions` is proved equal to it |
| Sheets.AppendSpec | googleSheets.js:46-74 | one append request; on success the row `[amount, wallet, 'false']` goes at the end and its row number is returned, on failure only the request is logged; `Table.AppendThenList` characterises the new table and `Sheets.SheetStore.AddTransactionToQueue` is proved equal to it |
| Sheets.MarkSpec | googleSheets.js:121-147 | one update request of the row; the row is marked only when it succeeds, and the error is passed on otherwise; `Sheets.SheetStore.MarkTransactionAsProcessed` is proved equal to it |
| Sheets.ValidateSpec | googleSheets.js:153-170 | false with no request when no spreadsheet id is set, otherwise whether the test read is confirmed; `Sheets.SheetStore.ValidateConfiguration` is proved equal to it |
| Sheets.EnsureHeaderSpec | googleSheets.js:175-204 | a read of row 1, a header write only when the read succeeds and row 1 is not the header, and the header in the table only when the write succeeds; `Sheets.EnsureHeaderEstablishes` characterises it and `Sheets.SheetStore.EnsureHeaderRow` is proved equal to it |
| Sheets.EmptySheetNoPending | googleSheets.js:87 | the read fails only when its request fails; an empty sheet gives an empty list, not an error |
| Sheets.EnsureHeaderEstablishes | googleSheets.js:175-204 | the table is either unchanged or has the header written; if both requests succeed the header is there; a table with the header is never changed |
| Sheets.SheetStore.AddTransactionToQueue | googleSheets.js:46-74 | one append request; on success the row `[amount, wallet, 'false']` is added at the end and its row number returned, on failure nothing changes and the error is passed on |
| Sheets.SheetStore.GetPendingTransactions | googleSheets.js:80-114 | one read; on success the result is the pending filter of the rows, built by the indexed loop; the rows are not changed |
| Sheets.SheetStore.MarkTransactionAsProcessed | googleSheets.js:121-147 | one update request; column C of the row becomes `'true'` only when it succeeds |
| Sheets.SheetStore.ValidateConfiguration | googleSheets.js:153-170 | false with no request when no spreadsheet id is set; otherwise whether the test read succeeds; never an error |
| Sheets.SheetStore.EnsureHeaderRow | googleSheets.js:175-204 | a read of row 1, then a header write only when row 1 is not exactly the header; failures are swallowed |
| Queue.SendTokensSpec | queue.js:184-221 | one token transfer request; on success a receipt with the reply's hash, the amount and the recipient, on failure `Token-Transfer fehlgeschlagen: ` followed by the classified message; `Queue.TransactionQueue.SendTokens` is proved equal to it |
| Queue.SendEthSpec | queue.js:226-260 | one transfer request of `0.000001` ETH; on success a receipt with the reply's hash, that amount and the recipient, on failure `ETH-Transfer fehlgeschlagen: ` followed by the classified message; `Queue.TransactionQueue.SendEth` is proved equal to it |
| Queue.AttemptSpec | queue.js:147-166 | one pass of the try block: token transfer, ETH transfer, mark, stopping at the first that fails with its error; `Queue.AttemptProperties` characterises it |
| Queue.AttemptProperties | queue.js:147-166 | an attempt asks for the token transfer first, sends the token exactly once, marks the row only after both transfers were confirmed and exactly when it succeeds, ends with the receipts on success and with the failing request's error otherwise, and changes the rows only by that mark |
| Queue.FulfilFrom | queue.js:144-177 | the retry loop from `retries` failed attempts on: a successful attempt returns, a failed one is repeated until MAX_RETRIES attempts have failed, then the exhausted message with the last error; `Queue.FulfilFromProperties` characterises it |
| Queue.Fulfil | queue.js:139-179 | processTransaction: the retry loop from zero failed attempts; `Queue.RetryBound`, `Queue.MarkedOnlyAfterBothSends`, `Queue.FirstSuccessStops` and `Queue.TokenResentWhenEthFails` characterise it, and `Queue.TransactionQueue.ProcessTransaction` is proved equal to it |
| Queue.FulfilFromProperties | queue.js:144-177 | the remaining attempts stay within MAX_RETRIES; their requests all concern the entry and start with its token transfer; a success ends with the three confirmed steps and one mark, and exhaustion comes only after the last attempt |
| Queue.RetryBound | queue.js:144-177 | between 1 and 3 attempts; the token is sent once per attempt, and the first request is the token transfer; after failing, exactly 3 attempts, no mark, and the rows unchanged |
| Queue.MarkedOnlyAfterBothSends | queue.js:149-155 | every mark request comes right after a confirmed token transfer and a confirmed ETH transfer, and every request concerns this entry |
| Queue.FirstSuccessStops | queue.js:155-165 | on success the log ends with the confirmed transfers whose hashes are in the returned receipts and one mark of its row, and nothing follows; on failure the error is the exhausted message with the last step's error |
| Queue.TokenResentWhenEthFails | queue.js:146-152 | if the ETH transfer fails in every attempt, the token transfer is sent and confirmed three times, nothing is marked, and the rows are unchanged |
| Queue.RunPending | queue.js:116-126 | the loop over the snapshot: each entry is fulfilled in turn, whatever became of the earlier ones; `Queue.EveryEntryAttempted`, `Queue.EntriesInOrder`, `Queue.RunPendingMarks` and `Queue.RunPendingAllConfirmed` characterise it |
| Queue.RunOnce | queue.js:98-134 | one run of processQueue when none is in progress: fetch the pending list, then fulfil it, with a failed fetch ending the run; `Queue.RunOnceOutcome` and `Queue.RunOnceAllConfirmed` characterise it, and `Queue.TransactionQueue.ProcessQueue` is proved equal to it |
| Queue.EveryEntryAttempted | queue.js:116-126 | each entry of the snapshot owns one stretch of the run's log that starts with its token transfer and is a whole processTransaction for it, whatever became of the earlier entries |
| Queue.EntriesInOrder | queue.js:116-126 | an earlier entry's processing starts and ends before a later entry's starts |
| Queue.RunPendingMarks | queue.js:116-126 | over a snapshot in sheet order, rows are marked in strictly increasing order (no row twice), only rows of the snapshot are marked, and the table afterwards is the old one with exactly those rows marked |
| Queue.MarkAllPending | googleSheets.js:97 | marking a list of rows removes exactly those rows from the pending list |
| Queue.RunOnceOutcome | queue.js:98-134 | a failed fetch ends the run after that one request; otherwise each marked row was pending at the start, no row is marked twice, and the pending list afterwards is the old one without exactly the marked rows |
| Queue.RunPendingAllConfirmed | queue.js:116-126 | when every reply still to come is a confirmation, whatever its hashes, the run marks every entry's row, in snapshot order, and leaves a script of confirmations |
| Queue.RunOnceAllConfirmed | queue.js:98-134 | when every reply still to come is a confirmation, whatever its hashes, one run marks exactly the rows that were pending and leaves nothing pending |
| Queue.TransactionQueue.constructor | queue.js:10-26 | a new queue is not processing and has no timer |
| Queue.TransactionQueue.StartQueue | queue.js:31-57 | an invalid configuration fails with `Google Sheets Konfiguration ist ungültig` and changes nothing else; otherwise a header check, the timer is set, and one run of processQueue |
| Queue.TransactionQueue.StopQueue | queue.js:62-68 | the timer is cleared; the guard is not touched |
| Queue.TransactionQueue.AddTransaction | queue.js:73-93 | an invalid wallet, and then a NaN or non-positive amount, are rejected with their messages before any request; otherwise exactly the sheet append |
| Queue.TransactionQueue.ProcessQueue | queue.js:98-134 | when a run is already in progress, nothing is requested and nothing changes; otherwise exactly one run over the fetched snapshot and the guard is released afterwards, also after an empty list or a failed fetch |
| Queue.TransactionQueue.ProcessTransaction | queue.js:139-179 | the retry loop does exactly the retry function: up to 3 attempts of token, ETH, mark, with the first success returned and the exhausted error thrown after the third failure |
| Queue.TransactionQueue.SendTokens | queue.js:184-221 | one token transfer; on failure the error is `Token-Transfer fehlgeschlagen: ` and the classified message; on success a receipt with the hash, amount and recipient; proved equal to `Queue.SendTokensSpec` |
| Queue.TransactionQueue.SendEth | queue.js:226-260 | one transfer of `0.000001` ETH; on failure the error is `ETH-Transfer fehlgeschlagen: ` and the classified message; proved equal to `Queue.SendEthSpec` |
| Queue.TransactionQueue.GetQueueStatus | queue.js:272-291 | one fresh fetch; the count of pending entries, or no count and the error when the fetch fails; the interval, the guard, and whether a timer is set |

## Left out

- The Sheets API and the ledger are not called. Each request takes its reply from a script fixed in advance. Once the script is used up, every further request succeeds with an empty hash. Gas estimation, gas price, signing, broadcasting and the googleapis request objects are left out.
- formatTokenAmount and parseTokenAmount (utils.js:19-29) are floating-point conversions and are not modelled. The token amount is passed on as the sheet's cell.
- isValidEthereumAddress (utils.js:4-6) is Web3.utils.isAddress, a library call. It is a function parameter (`isAddress`) of `Utils.ValidateEnvironmentVariables` and `Queue.TransactionQueue.AddTransaction`.
- Queue.TransactionQueue.AddTransaction: JavaScript's conversion of the amount to a number is a function parameter (`toNumber`, with None standing for NaN), so the model does not decide which strings are numbers.
- Timing is not modelled: `delay`, the 2000 ms pause between entries, the 5000 ms pause between attempts, and setInterval/clearInterval. The timer handle is the `processInterval` field, set by `StartQueue` to a handle passed in. A timer tick is a further call of `ProcessQueue`. A trigger during a run is a call of `ProcessQueue` while `isProcessing` is true, and real concurrency is not modelled.
- Queue.TransactionQueue.GetQueueStatus: `processInterval` is reported as the number given to the constructor. The source reports the raw `QUEUE_PROCESS_INTERVAL_MS` string, or 10000 when it is not set.
- The receipts' gasUsed and blockNumber, and the updatedRows and updatedRange of the Sheets responses, are not modelled. A successful append returns the new row's number.
- Sheets.SheetStore.AddTransactionToQueue: the append goes after the last row of the modelled table. The Sheets API's own detection of where a table ends is not modelled.
- initAuth and the constructor of GoogleSheetsManager (googleSheets.js:1-38) read credentials from the environment. The spreadsheet id is a constructor parameter of `SheetStore`, the empty string when it is not set.
- isValidPrivateKey's catch of a non-string argument is not reachable in the model, because keys are strings. An unset variable is the empty string.
- Logging through console.log and console.error is left out. So is the rethrow with a log line in startQueue and addTransaction, which does not change the error.
- index.js and test-setup.js are not part of this model.
