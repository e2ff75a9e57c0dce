/** The in-memory chain adapter and the loop that polls it for confirmations. */
module Chain {

  datatype TxStatus = TxPending | TxConfirmed | TxFailed

  datatype TxResult = TxResult(status: TxStatus, confirmations: int)

  /** The hash of a signed transaction. */
  type TxHash = nat

  const MAX_CONFIRMATION_POLLS := 30

  class StubChainAdapter {
    const confirmationsRequired: int
    var pollCount: map<TxHash, nat>

    constructor (required: int)
      ensures confirmationsRequired == required && pollCount == map[]
    {
      confirmationsRequired := required;
      pollCount := map[];
    }

    /** submit_signed_tx: a resubmission starts to count afresh. */
    method SubmitSignedTx(tx: TxHash) returns (result: TxResult)
      modifies this
      ensures pollCount == old(pollCount)[tx := 0]
      ensures result == TxResult(TxPending, 0)
    {
      pollCount := pollCount[tx := 0];
      result := TxResult(TxPending, 0);
    }

    /** get_tx_status: asking is what makes a transaction confirm; an unknown one has failed. */
    method GetTxStatus(tx: TxHash) returns (result: TxResult)
      modifies this
      ensures tx !in old(pollCount) ==> result == TxResult(TxFailed, 0) && pollCount == old(pollCount)
      ensures tx in old(pollCount) ==>
        && pollCount == old(pollCount)[tx := old(pollCount)[tx] + 1]
        && result.confirmations == old(pollCount)[tx] + 1
        && result.status == (if result.confirmations >= confirmationsRequired then TxConfirmed else TxPending)
    {
      if tx !in pollCount {
        return TxResult(TxFailed, 0);
      }
      pollCount := pollCount[tx := pollCount[tx] + 1];
      if pollCount[tx] >= confirmationsRequired {
        return TxResult(TxConfirmed, pollCount[tx]);
      }
      result := TxResult(TxPending, pollCount[tx]);
    }
  }

  /** How many checks a fresh transaction gets: it stops at the first confirmed one, and after the last. */
  function Checks(required: int): nat {
    if required <= 1 then 1 else if required <= 31 then required else 31
  }

  /** _poll_confirmations, for a transaction that was just submitted: 30 checks and a last one. It ends
      confirmed exactly when at most 31 confirmations are required, and then has as many as required. */
  method PollConfirmations(adapter: StubChainAdapter, tx: TxHash) returns (result: TxResult)
    requires tx in adapter.pollCount && adapter.pollCount[tx] == 0
    modifies adapter
    ensures result.confirmations == Checks(adapter.confirmationsRequired)
    ensures result.status == TxConfirmed <==> adapter.confirmationsRequired <= 31
    ensures result.status == TxConfirmed ==> result.confirmations >= adapter.confirmationsRequired
    ensures result.status != TxFailed
    ensures adapter.pollCount == old(adapter.pollCount)[tx := Checks(adapter.confirmationsRequired)]
  {
    var required := adapter.confirmationsRequired;
    for i := 0 to MAX_CONFIRMATION_POLLS
      invariant adapter.pollCount == old(adapter.pollCount)[tx := i]
      invariant i > 0 ==> i < required
    {
      result := adapter.GetTxStatus(tx);
      if result.status == TxConfirmed {
        if result.confirmations >= required {
          return;
        }
      } else if result.status == TxFailed {
        return;
      }
    }
    result := adapter.GetTxStatus(tx);
  }
}
