/** An immutable summary of a transaction, issued to the customer. */
module Receipts {
  import opened Common
  import opened Ledger

  const NullTransactionReceiptMessage := "Transaction must not be null"

  datatype Receipt = Receipt(
    referenceNumber: string,
    transactionID: string,
    initiatedBy: Customer,
    description: string,
    sourceAccountID: Option<string>,
    destinationAccountID: Option<string>,
    amount: real,
    issuedAt: int,
    successful: bool,
    failureReason: string)

  /** The ID of an account that may be absent. */
  function AccountIDOf(a: Account?): (r: Option<string>)
    ensures r.None? <==> a == null
    ensures a != null ==> r == Some(a.accountID)
  {
    if a == null then None else Some(a.accountID)
  }

  /** Receipt.fromTransaction. The reference number (a random UUID in the
      source) and the issue time (the clock) are parameters. */
  function FromTransaction(t: Transaction?, referenceNumber: string, issuedAt: int): (r: Result<Receipt>)
    reads t
    ensures t == null <==> r.Err?
    ensures r.Err? ==> r.error == IllegalArgument(NullTransactionReceiptMessage)
    ensures r.Ok? ==>
      var p := r.value;
      p.referenceNumber == referenceNumber && p.issuedAt == issuedAt
      && p.transactionID == t.id && p.initiatedBy == t.initiatedBy
      && p.description == t.description && p.amount == t.amount
      && (p.sourceAccountID.None? <==> t.sourceAccount == null)
      && (p.destinationAccountID.None? <==> t.destinationAccount == null)
      && (t.sourceAccount != null ==> p.sourceAccountID == Some(t.sourceAccount.accountID))
      && (t.destinationAccount != null ==> p.destinationAccountID == Some(t.destinationAccount.accountID))
      && (p.successful <==> t.status == Completed)
      && (t.failureReason.None? ==> p.failureReason == "")
      && (t.failureReason.Some? ==> p.failureReason == t.failureReason.value)
  {
    if t == null then Err(IllegalArgument(NullTransactionReceiptMessage))
    else Ok(Receipt(
      referenceNumber, t.id, t.initiatedBy, t.description,
      AccountIDOf(t.sourceAccount), AccountIDOf(t.destinationAccount),
      t.amount, issuedAt, t.status == Completed,
      if t.failureReason.Some? then t.failureReason.value else ""))
  }

  /** For a transaction in a consistent state, the receipt reports success
      with an empty reason, or failure with the recorded reason, or (while
      still pending) neither success nor a reason. */
  lemma ReceiptReportsOutcome(t: Transaction, referenceNumber: string, issuedAt: int)
    requires t.Valid()
    ensures var p := FromTransaction(t, referenceNumber, issuedAt).value;
      (t.status == Completed ==> p.successful && p.failureReason == "")
      && (t.status == Failed ==> !p.successful && p.failureReason == t.failureReason.value)
      && (t.status == Pending ==> !p.successful && p.failureReason == "")
  {
  }
}
