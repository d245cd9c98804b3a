/**
 * The outside world the core talks to. Every request to the Sheets API or to
 * the ledger is one Call; its outcome is taken from a script of replies fixed
 * in advance (success with a transaction hash, or failure with the error
 * message), and the request and its reply are appended to a log. This stands
 * in for the googleapis and Web3 clients, whose results the core cannot see
 * in advance.
 */
module Remote {
  import opened Table

  /** What a remote request came back with. */
  datatype Reply = Confirmed(hash: string) | Rejected(message: string)

  /** The remote requests the core makes. */
  datatype Call =
    | ReadSpreadsheet                          // spreadsheets.get in validateConfiguration
    | ReadHeader                               // values.get of A1:C1
    | WriteHeader                              // values.update of A1:C1
    | AppendRow(newAmount: string, newWallet: string) // values.append of [amount, wallet, 'false']
    | ReadRows                                 // values.get of A:C
    | MarkProcessed(rowIndex: RowIndex)        // values.update of C<rowIndex>
    | TokenTransfer(amount: Cell, wallet: Cell) // the signed token transfer of sendTokens
    | EthTransfer(wallet: Cell)                // the signed ETH transfer of sendEth

  datatype Event = Event(call: Call, reply: Reply)

  /** The reply the next request gets; once the script is used up, every
      request succeeds. */
  function NextReply(script: seq<Reply>): Reply {
    if script == [] then Confirmed("") else script[0]
  }

  function RestOf(script: seq<Reply>): seq<Reply> {
    if script == [] then [] else script[1..]
  }

  /** Every reply still to come is a success. */
  predicate AllConfirmed(script: seq<Reply>) {
    forall r :: r in script ==> r.Confirmed?
  }

  /** A script of successes answers the next request with a success and
      leaves a script of successes. */
  lemma ConfirmedStep(script: seq<Reply>)
    requires AllConfirmed(script)
    ensures NextReply(script).Confirmed? && AllConfirmed(RestOf(script))
  {
    if script != [] {
      assert script[0] in script;
      forall r | r in script[1..] ensures r.Confirmed? {
        var i :| 0 <= i < |script[1..]| && script[1..][i] == r;
        assert script[i + 1] in script;
      }
    }
  }

  /** The whole observable state: the sheet's rows, the replies still to come,
      and the log of requests made so far. */
  datatype World = World(rows: seq<Row>, replies: seq<Reply>, log: seq<Event>)

  /** The world after one request: its reply is consumed and both are logged;
      the rows change only through the sheet operations that use it. */
  function Ask(w: World, call: Call): (w': World)
    ensures w'.rows == w.rows
    ensures w'.log == w.log + [Event(call, NextReply(w.replies))]
    ensures |w'.replies| == if w.replies == [] then 0 else |w.replies| - 1
  {
    World(w.rows, RestOf(w.replies), w.log + [Event(call, NextReply(w.replies))])
  }

  /** The connection to the outside world: the scripted replies and the log. */
  class Network {
    var replies: seq<Reply>
    var log: seq<Event>

    constructor (script: seq<Reply>)
      ensures replies == script && log == []
    {
      replies := script;
      log := [];
    }

    /** Makes one request: takes the next scripted reply and logs the exchange. */
    method Request(call: Call) returns (reply: Reply)
      modifies this
      ensures reply == NextReply(old(replies))
      ensures replies == RestOf(old(replies))
      ensures log == old(log) + [Event(call, reply)]
    {
      reply := NextReply(replies);
      replies := RestOf(replies);
      log := log + [Event(call, reply)];
    }
  }
}
