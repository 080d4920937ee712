/** Moving money between two accounts of the same customer. */
module Transfers {
  import opened Common
  import opened JavaText
  import opened Ids
  import opened Ledger
  import opened Repos

  const NoAccountRepoMessage := "account repository should exist"
  const NoTransactionRepoMessage := "transaction repository should exist"
  const NullTransferCustomerMessage := "Customer should not be null"
  const BlankSourceIdMessage := "Source account ID must exist"
  const BlankDestinationIdMessage := "Destination account ID must exist"
  const SameAccountMessage := "Source and destination accounts cannot be the same"
  const NonPositiveTransferMessage := "Transfer amount must be positive and not zero"
  const SourceNotFoundPrefix := "Source account not found: "
  const DestinationNotFoundPrefix := "Destination account not found: "
  const SourceNotOwnedMessage := "Customer does not own the source account"
  const DestinationNotOwnedMessage := "Customer does not own the destination account"

  /** The checks transferFunds makes on its arguments before it looks
      anything up, in the source's order. */
  function TransferRequestValidation(customer: Option<Customer>, sourceAccountID: Option<string>,
                                     destinationAccountID: Option<string>, amount: real): (r: Outcome)
    ensures r.Pass? <==>
      customer.Some? && !NullOrBlank(sourceAccountID) && !NullOrBlank(destinationAccountID)
      && sourceAccountID.value != destinationAccountID.value && amount > 0.0
    ensures customer.None? ==> r == Fail(IllegalArgument(NullTransferCustomerMessage))
    ensures customer.Some? && NullOrBlank(sourceAccountID) ==> r == Fail(IllegalArgument(BlankSourceIdMessage))
    ensures customer.Some? && !NullOrBlank(sourceAccountID) && NullOrBlank(destinationAccountID) ==>
      r == Fail(IllegalArgument(BlankDestinationIdMessage))
    ensures customer.Some? && !NullOrBlank(sourceAccountID) && !NullOrBlank(destinationAccountID)
            && sourceAccountID.value == destinationAccountID.value
            ==> r == Fail(IllegalArgument(SameAccountMessage))
    ensures r.Fail? && customer.Some? && !NullOrBlank(sourceAccountID) && !NullOrBlank(destinationAccountID)
            && sourceAccountID.value != destinationAccountID.value
            ==> amount <= 0.0 && r == Fail(IllegalArgument(NonPositiveTransferMessage))
  {
    if customer.None? then Fail(IllegalArgument(NullTransferCustomerMessage))
    else if NullOrBlank(sourceAccountID) then Fail(IllegalArgument(BlankSourceIdMessage))
    else if NullOrBlank(destinationAccountID) then Fail(IllegalArgument(BlankDestinationIdMessage))
    else if sourceAccountID.value == destinationAccountID.value then Fail(IllegalArgument(SameAccountMessage))
    else if amount <= 0.0 then Fail(IllegalArgument(NonPositiveTransferMessage))
    else Pass
  }

  /** The checks on the looked-up accounts, in the source's order. The
      default description is built from both accounts before either is
      checked for null, so a missing account with a blank description
      ends in a NullPointerException rather than "not found". */
  function AccountsCheck(source: Account?, destination: Account?, sourceAccountID: string,
                         destinationAccountID: string, customer: Customer, description: Option<string>): (r: Outcome)
    ensures r.Pass? <==>
      source != null && destination != null && source.customer == customer && destination.customer == customer
    ensures NullOrBlank(description) && (source == null || destination == null) ==> r == Fail(NullPointer)
    ensures !NullOrBlank(description) && source == null ==>
      r == Fail(IllegalArgument(SourceNotFoundPrefix + sourceAccountID))
    ensures !NullOrBlank(description) && source != null && destination == null ==>
      r == Fail(IllegalArgument(DestinationNotFoundPrefix + destinationAccountID))
    ensures source != null && destination != null && source.customer != customer ==>
      r == Fail(IllegalArgument(SourceNotOwnedMessage))
    ensures source != null && destination != null && source.customer == customer && destination.customer != customer ==>
      r == Fail(IllegalArgument(DestinationNotOwnedMessage))
  {
    if NullOrBlank(description) && (source == null || destination == null) then Fail(NullPointer)
    else if source == null then Fail(IllegalArgument(SourceNotFoundPrefix + sourceAccountID))
    else if destination == null then Fail(IllegalArgument(DestinationNotFoundPrefix + destinationAccountID))
    else if source.customer != customer then Fail(IllegalArgument(SourceNotOwnedMessage))
    else if destination.customer != customer then Fail(IllegalArgument(DestinationNotOwnedMessage))
    else Pass
  }

  /** The description used when the caller gives a blank one. */
  function DefaultDescription(source: Account, destination: Account): string
    reads source, destination
  {
    "Transfer funds from " + source.AccountType() + " to " + destination.AccountType()
  }

  /** new Transaction(...) on a request already validated: it cannot throw,
      and the id it draws is not yet a key of the repository. */
  method OpenTransaction(transactionRepo: TransactionRepo, ids: IdGenerator, customer: Customer,
                         source: Account, destination: Account?, amount: real, description: string, now: int)
    returns (t: Transaction)
    requires amount > 0.0 && Unissued(transactionRepo.transactions.Keys, ids.next)
    modifies ids
    ensures fresh(t) && t.Valid() && t.id == Uid(old(ids.next)) && ids.next == old(ids.next) + 1
    ensures t.initiatedBy == customer && t.sourceAccount == source && t.destinationAccount == destination
    ensures t.amount == amount && t.description == description && t.createdAt == now
    ensures t.status == Pending && t.failureReason == None
    ensures t.id !in transactionRepo.transactions
    ensures Unissued(transactionRepo.transactions.Keys + {t.id}, ids.next)
  {
    ghost var keys, next := transactionRepo.transactions.Keys, ids.next;
    var created := Transaction.Create(Some(customer), source, destination, amount, Some(description), ids, now);
    if created.Err? {
      assert false;
    }
    t := created.value;
    IssueKeepsUnissued(keys, next);
  }

  /** The refused branch of both transfer services: the attempt is stored
      as a FAILED transaction with the fixed reason. */
  method RecordRefused(transactionRepo: TransactionRepo, ids: IdGenerator, customer: Customer,
                       source: Account, destination: Account?, amount: real, description: string, now: int)
    returns (t: Transaction)
    requires amount > 0.0 && transactionRepo.Valid() && Unissued(transactionRepo.transactions.Keys, ids.next)
    modifies transactionRepo, ids
    ensures transactionRepo.Valid() && Unissued(transactionRepo.transactions.Keys, ids.next)
    ensures fresh(t) && t.Valid() && t.id == Uid(old(ids.next)) && ids.next == old(ids.next) + 1
    ensures t.initiatedBy == customer && t.sourceAccount == source && t.destinationAccount == destination
    ensures t.amount == amount && t.description == description && t.createdAt == now
    ensures t.status == Failed && t.failureReason == Some(DebitRefusedReason)
    ensures t.id !in old(transactionRepo.transactions)
    ensures transactionRepo.transactions == old(transactionRepo.transactions)[t.id := t]
  {
    t := OpenTransaction(transactionRepo, ids, customer, source, destination, amount, description, now);
    t.MarkFailed(Some(DebitRefusedReason));
    var saved := transactionRepo.Save(t);
  }

  /** The TransferFunds service over an account repository and a
      transaction repository; `ids` stands for UUID generation. */
  class TransferFunds {
    const accountRepo: AccountRepo
    const transactionRepo: TransactionRepo
    const ids: IdGenerator

    /** The repositories are keyed consistently, every stored account keeps
        its invariant, and no identifier still to be issued is in use. */
    ghost predicate Valid()
      reads this, accountRepo, transactionRepo, ids, accountRepo.accounts.Values
    {
      accountRepo.Valid() && transactionRepo.Valid()
      && (forall a :: a in accountRepo.accounts.Values ==> a.Valid())
      && Unissued(transactionRepo.transactions.Keys, ids.next)
    }

    constructor (accountRepo: AccountRepo, transactionRepo: TransactionRepo, ids: IdGenerator)
      ensures this.accountRepo == accountRepo && this.transactionRepo == transactionRepo && this.ids == ids
    {
      this.accountRepo := accountRepo;
      this.transactionRepo := transactionRepo;
      this.ids := ids;
    }

    /** new TransferFunds(...): both repositories must exist. */
    static method Create(accountRepo: AccountRepo?, transactionRepo: TransactionRepo?, ids: IdGenerator)
      returns (r: Result<TransferFunds>)
      ensures accountRepo == null ==> r == Err(IllegalArgument(NoAccountRepoMessage))
      ensures accountRepo != null && transactionRepo == null ==> r == Err(IllegalArgument(NoTransactionRepoMessage))
      ensures r.Ok? <==> accountRepo != null && transactionRepo != null
      ensures r.Ok? ==>
        fresh(r.value) && r.value.accountRepo == accountRepo
        && r.value.transactionRepo == transactionRepo && r.value.ids == ids
    {
      if accountRepo == null {
        return Err(IllegalArgument(NoAccountRepoMessage));
      }
      if transactionRepo == null {
        return Err(IllegalArgument(NoTransactionRepoMessage));
      }
      var service := new TransferFunds(accountRepo, transactionRepo, ids);
      return Ok(service);
    }

    /** The successful branch of transferFunds: debit, then credit, then
        both histories, then COMPLETED, then every save. */
    method Complete(source: Account, destination: Account, transaction: Transaction, amount: real)
      requires accountRepo.Valid() && transactionRepo.Valid()
      requires forall a :: a in accountRepo.accounts.Values ==> a.Valid()
      requires Unissued(transactionRepo.transactions.Keys + {transaction.id}, ids.next)
      requires source.accountID in accountRepo.accounts && accountRepo.accounts[source.accountID] == source
      requires destination.accountID in accountRepo.accounts && accountRepo.accounts[destination.accountID] == destination
      requires source != destination && transaction.Valid()
      requires DebitAllowed(source.State(), amount) == Ok(true)
      modifies source, destination, transaction, accountRepo, transactionRepo
      ensures Valid()
      ensures accountRepo.accounts == old(accountRepo.accounts)
      ensures transactionRepo.transactions == old(transactionRepo.transactions)[transaction.id := transaction]
      ensures transaction.status == Completed && transaction.failureReason == None
      ensures Ok(source.State()) == old(Debited(source.State(), amount))
      ensures Ok(destination.State()) == old(Credited(destination.State(), amount))
      ensures source.transactions == old(source.transactions) + [transaction]
      ensures destination.transactions == old(destination.transactions) + [transaction]
    {
      var debited := source.Debit(amount);
      if debited.Fail? {
        assert false;
      }
      var credited := destination.Credit(amount);
      if credited.Fail? {
        assert false;
      }
      source.AddTransaction(transaction);
      destination.AddTransaction(transaction);
      transaction.MarkCompleted();
      forall a | a in accountRepo.accounts.Values ensures a.Valid() {
        if a != source && a != destination {
          assert old(a.Valid());
        }
      }
      PersistTransfer(source, destination, transaction);
    }

    /** The saves that end a successful transfer: both accounts and the
        transaction. */
    method PersistTransfer(source: Account, destination: Account, transaction: Transaction)
      requires accountRepo.Valid() && transactionRepo.Valid()
      requires forall a :: a in accountRepo.accounts.Values ==> a.Valid()
      requires Unissued(transactionRepo.transactions.Keys + {transaction.id}, ids.next)
      requires source.accountID in accountRepo.accounts && accountRepo.accounts[source.accountID] == source
      requires destination.accountID in accountRepo.accounts && accountRepo.accounts[destination.accountID] == destination
      requires transaction.Valid()
      modifies accountRepo, transactionRepo
      ensures Valid()
      ensures accountRepo.accounts == old(accountRepo.accounts)
      ensures transactionRepo.transactions == old(transactionRepo.transactions)[transaction.id := transaction]
    {
      ghost var accounts := accountRepo.accounts;
      var savedSource := accountRepo.Save(source);
      var savedDestination := accountRepo.Save(destination);
      assert accountRepo.accounts == accounts;
      var savedTransaction := transactionRepo.Save(transaction);
    }

    /** transferFunds. Every rejected request leaves all state alone.
        Otherwise exactly one new transaction is stored: FAILED with the
        fixed reason when canDebit refuses (balances untouched), else
        COMPLETED, with the amount moved from source to destination and the
        transaction appended to both histories. */
    method Transfer(customer: Option<Customer>, sourceAccountID: Option<string>,
                    destinationAccountID: Option<string>, amount: real, description: Option<string>, now: int)
      returns (r: Result<Transaction>)
      requires Valid()
      modifies accountRepo, transactionRepo, ids, accountRepo.accounts.Values
      ensures Valid()
      ensures accountRepo.accounts == old(accountRepo.accounts)
      ensures TransferRequestValidation(customer, sourceAccountID, destinationAccountID, amount).Fail? ==>
        r == Err(TransferRequestValidation(customer, sourceAccountID, destinationAccountID, amount).error)
      ensures TransferRequestValidation(customer, sourceAccountID, destinationAccountID, amount).Pass? ==>
        var src, dst := old(accountRepo.FindByID(sourceAccountID)), old(accountRepo.FindByID(destinationAccountID));
        var check := AccountsCheck(src, dst, sourceAccountID.value, destinationAccountID.value, customer.value, description);
        (check.Fail? ==> r == Err(check.error))
        && (check.Pass? ==>
              r.Ok? && fresh(r.value) && r.value.Valid()
              && r.value.id == Uid(old(ids.next)) && ids.next == old(ids.next) + 1
              && r.value.initiatedBy == customer.value && r.value.amount == amount && r.value.createdAt == now
              && r.value.sourceAccount == src && r.value.destinationAccount == dst
              && r.value.description ==
                   (if NullOrBlank(description) then old(DefaultDescription(src, dst)) else description.value)
              && r.value.id !in old(transactionRepo.transactions)
              && transactionRepo.transactions == old(transactionRepo.transactions)[r.value.id := r.value]
              && (old(DebitAllowed(src.State(), amount)) != Ok(true) ==>
                    r.value.status == Failed && r.value.failureReason == Some(DebitRefusedReason))
              && (old(DebitAllowed(src.State(), amount)) == Ok(true) ==>
                    r.value.status == Completed && r.value.failureReason == None
                    && src != dst
                    && Ok(src.State()) == old(Debited(src.State(), amount))
                    && Ok(dst.State()) == old(Credited(dst.State(), amount))
                    && src.balance + dst.balance == old(src.balance + dst.balance)
                    && src.transactions == old(src.transactions) + [r.value]
                    && dst.transactions == old(dst.transactions) + [r.value]))
      ensures r.Err? ==>
        transactionRepo.transactions == old(transactionRepo.transactions) && ids.next == old(ids.next)
      ensures forall a :: a in accountRepo.accounts.Values && (r.Err? || r.value.status != Completed
                          || (a != r.value.sourceAccount && a != r.value.destinationAccount)) ==>
        a.State() == old(a.State()) && a.transactions == old(a.transactions)
    {
      var v := TransferRequestValidation(customer, sourceAccountID, destinationAccountID, amount);
      if v.Fail? {
        return Err(v.error);
      }
      var source := accountRepo.FindByID(sourceAccountID);
      var destination := accountRepo.FindByID(destinationAccountID);
      var check := AccountsCheck(source, destination, sourceAccountID.value, destinationAccountID.value,
                                 customer.value, description);
      if check.Fail? {
        return Err(check.error);
      }
      var desc := if NullOrBlank(description) then DefaultDescription(source, destination) else description.value;
      var allowed := source.CanDebit(amount);
      if allowed != Ok(true) {
        var failed := RecordRefused(transactionRepo, ids, customer.value, source, destination, amount, desc, now);
        return Ok(failed);
      }
      var transaction := OpenTransaction(transactionRepo, ids, customer.value, source, destination, amount, desc, now);
      Complete(source, destination, transaction, amount);
      return Ok(transaction);
    }
  }
}
