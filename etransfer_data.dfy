/** The e-transfer record: a transaction sent to a saved recipient, with its
    own PENDING / SENT / FAILED status. */
module ETransferRecords {
  import opened Common
  import opened Ids
  import opened Ledger
  import opened Recipients

  const NoTransactionMessage := "Source account should not be empty"
  const NoRecipientMessage := "Recipient should not be empty"

  datatype ETransferStatus = Pending | Sent | Failed

  class ETransferData {
    const id: string
    const transaction: Transaction
    const recipient: Recipient
    const message: string
    const createdAt: int
    var status: ETransferStatus
    var failureReason: Option<string>

    constructor (id: string, transaction: Transaction, recipient: Recipient, message: Option<string>, createdAt: int)
      ensures this.id == id && this.transaction == transaction && this.recipient == recipient
      ensures this.message == (if message.Some? then message.value else "") && this.createdAt == createdAt
      ensures status == ETransferStatus.Pending && failureReason == None
    {
      this.id := id;
      this.transaction := transaction;
      this.recipient := recipient;
      this.message := if message.Some? then message.value else "";
      this.createdAt := createdAt;
      status := ETransferStatus.Pending;
      failureReason := None;
    }

    /** new ETransferData(...): both the transaction and the recipient must
        exist; a null message becomes "". */
    static method Create(transaction: Transaction?, recipient: Recipient?, message: Option<string>,
                         ids: IdGenerator, now: int)
      returns (r: Result<ETransferData>)
      modifies ids
      ensures transaction == null ==> r == Err(IllegalArgument(NoTransactionMessage))
      ensures transaction != null && recipient == null ==> r == Err(IllegalArgument(NoRecipientMessage))
      ensures r.Err? ==> ids.next == old(ids.next)
      ensures r.Ok? <==> transaction != null && recipient != null
      ensures r.Ok? ==>
        var e := r.value;
        fresh(e) && e.id == Uid(old(ids.next)) && ids.next == old(ids.next) + 1
        && e.transaction == transaction && e.recipient == recipient && e.createdAt == now
        && e.message == (if message.Some? then message.value else "")
        && e.status == ETransferStatus.Pending && e.failureReason == None
    {
      if transaction == null {
        return Err(IllegalArgument(NoTransactionMessage));
      }
      if recipient == null {
        return Err(IllegalArgument(NoRecipientMessage));
      }
      var id := ids.Fresh();
      var e := new ETransferData(id, transaction, recipient, message, now);
      return Ok(e);
    }

    /** markSent: SENT, and no failure reason. */
    method MarkSent()
      modifies this
      ensures status == Sent && failureReason == None
    {
      status := Sent;
      failureReason := None;
    }

    /** markFailed: FAILED, with the reason or "" for a null one. */
    method MarkFailed(reason: Option<string>)
      modifies this
      ensures status == ETransferStatus.Failed && failureReason == Some(if reason.Some? then reason.value else "")
    {
      status := ETransferStatus.Failed;
      failureReason := Some(if reason.Some? then reason.value else "");
    }

    /** isSent: SENT on this record and COMPLETED on the wrapped
        transaction; neither status alone suffices. */
    function IsSent(): (r: bool)
      reads this, transaction
      ensures r <==> status == Sent && transaction.status == TxStatus.Completed
    {
      status == Sent && transaction.status == TxStatus.Completed
    }

    /** getAmount: always the wrapped transaction's amount. */
    function Amount(): (r: real)
      ensures r == transaction.amount
    {
      transaction.amount
    }
  }
}
