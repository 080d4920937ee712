/** E-transfers: sending money from a customer's account to one of their
    saved recipients, under a per-transfer cap and a daily cap. */
module ETransfers {
  import opened Common
  import opened JavaText
  import opened Ids
  import opened Ledger
  import opened Recipients
  import opened ETransferRecords
  import opened Repos
  import opened Transfers

  /** The most a single e-transfer may move. */
  const MaxETransferPerTransaction: real := 5000.00
  /** The most a customer may send by e-transfer in one day. */
  const DailyETransferLimit: real := 10000.00
  /** Clock readings are nanoseconds; a day is this many of them. */
  const NanosPerDay: int := 86_400_000_000_000

  const MissingAccountRepoMessage := "Account repository should exist"
  const MissingRecipientRepoMessage := "Recipient repository should exist"
  const MissingTransactionRepoMessage := "Transaction repository should exist"
  const MissingETransferRepoMessage := "ETransfer repository should exist"
  const NoCustomerMessage := "Customer should exist"
  const NoSourceIdMessage := "Source account should exist"
  const NoRecipientIdMessage := "Recipient should exist"
  const NonPositiveETransferMessage := "Amount has to be positive and not zero"
  const PerTransferLimitMessage := "Amount exceeds the maximum allowed per e-transfer (5000.00)."
  const DailyLimitPrefix := "Amount exceeds the remaining daily e-transfer limit. Remaining today: "
  const RecipientNotFoundPrefix := "Recipient not found: "
  const RecipientNotSavedMessage := "Customer does not have recipient saved"
  const NullLimitCustomerMessage := "Customer must not be null"
  const ETransferDescriptionPrefix := "E-Transfer to "

  /** Midnight at the start of the day containing `now`. */
  function DayStart(now: int): int
  {
    now - now % NanosPerDay
  }

  /** The last instant (23:59:59.999999999) of the day containing `now`. */
  function DayEnd(now: int): int
  {
    DayStart(now) + NanosPerDay - 1
  }

  /** Today's range contains the present moment. */
  lemma NowIsToday(now: int)
    ensures DayStart(now) <= now <= DayEnd(now)
  {
  }

  /** What one transaction adds to a customer's e-transfer total: its
      amount when it is COMPLETED, has a source owned by the customer and
      has no destination account; nothing otherwise. */
  function Weight(t: Transaction, c: Customer): (r: real)
    reads t
    ensures r != 0.0 ==> r == t.amount
    ensures r == t.amount <== t.status == Completed && t.sourceAccount != null
                                && t.destinationAccount == null && t.sourceAccount.customer == c
    ensures t.status != Completed ==> r == 0.0
    ensures t.destinationAccount != null || t.sourceAccount == null || t.sourceAccount.customer != c ==> r == 0.0
  {
    if t.status == Completed && t.sourceAccount != null && t.destinationAccount == null
       && t.sourceAccount.customer == c
    then t.amount else 0.0
  }

  /** The total weight of a set of transactions. */
  ghost function SumOutgoing(ts: set<Transaction>, c: Customer): real
    reads ts
  {
    if ts == {} then 0.0 else var t :| t in ts; Weight(t, c) + SumOutgoing(ts - {t}, c)
  }

  /** Any member can be taken out of the sum first. */
  lemma {:induction false} SumOutgoingRemove(ts: set<Transaction>, t: Transaction, c: Customer)
    requires t in ts
    ensures SumOutgoing(ts, c) == Weight(t, c) + SumOutgoing(ts - {t}, c)
    decreases |ts|
  {
    var u :| u in ts && SumOutgoing(ts, c) == Weight(u, c) + SumOutgoing(ts - {u}, c);
    if u != t {
      SumOutgoingRemove(ts - {u}, t, c);
      SumOutgoingRemove(ts - {t}, u, c);
      assert ts - {u} - {t} == ts - {t} - {u};
    }
  }

  /** The running total the daily loop accumulates, front to back. */
  function SumWeights(ts: seq<Transaction>, c: Customer): real
    reads ts
  {
    if ts == [] then 0.0 else SumWeights(ts[..|ts| - 1], c) + Weight(ts[|ts| - 1], c)
  }

  /** Over a list without repeats the loop's total is the set's total. */
  lemma {:induction false} SumWeightsIsSumOutgoing(ts: seq<Transaction>, c: Customer)
    requires NoDuplicates(ts)
    ensures SumWeights(ts, c) == SumOutgoing((set t | t in ts), c)
    decreases |ts|
  {
    var all := set t | t in ts;
    if ts == [] {
      assert all == {};
    } else {
      var init, last := ts[..|ts| - 1], ts[|ts| - 1];
      assert NoDuplicates(init);
      SumWeightsIsSumOutgoing(init, c);
      SumOutgoingRemove(all, last, c);
      forall t | t in all - {last} ensures t in init {
        var i :| 0 <= i < |ts| && ts[i] == t;
        assert i < |ts| - 1;
        assert init[i] == t;
      }
      assert all - {last} == set t | t in init;
    }
  }

  /** The stored transactions a customer initiated today. */
  ghost function TodaySet(store: map<string, Transaction>, c: Customer, now: int): set<Transaction>
  {
    set t | t in store.Values && t.initiatedBy == c && DayStart(now) <= t.createdAt <= DayEnd(now)
  }

  /** What the customer has already sent by e-transfer today. */
  ghost function UsedToday(store: map<string, Transaction>, c: Customer, now: int): real
    reads store.Values
  {
    SumOutgoing(TodaySet(store, c, now), c)
  }

  /** getRemainingDailyETransferLimit: the daily cap less today's use,
      floored at zero. */
  ghost function RemainingDailyLimit(store: map<string, Transaction>, c: Customer, now: int): (r: real)
    reads store.Values
    ensures r >= 0.0
    ensures r > 0.0 ==> r == DailyETransferLimit - UsedToday(store, c, now)
    ensures r == 0.0 <==> UsedToday(store, c, now) >= DailyETransferLimit
  {
    var remaining := DailyETransferLimit - UsedToday(store, c, now);
    if remaining > 0.0 then remaining else 0.0
  }

  /** Storing a new transaction of the customer's, stamped today, under a
      new key raises today's use by exactly that transaction's weight. */
  lemma UsedAfterRecording(store: map<string, Transaction>, k: string, t: Transaction, c: Customer, now: int)
    requires k !in store && t !in store.Values
    requires t.initiatedBy == c && DayStart(now) <= t.createdAt <= DayEnd(now)
    ensures UsedToday(store[k := t], c, now) == UsedToday(store, c, now) + Weight(t, c)
  {
    var s0, s1 := TodaySet(store, c, now), TodaySet(store[k := t], c, now);
    assert store[k := t].Values == store.Values + {t} by {
      assert store[k := t][k] == t;
      forall v | v in store[k := t].Values ensures v in store.Values + {t} {
        var k' :| k' in store[k := t] && store[k := t][k'] == v;
        if k' != k { assert store[k'] == v; }
      }
      forall v | v in store.Values ensures v in store[k := t].Values {
        var k' :| k' in store && store[k'] == v;
        assert store[k := t][k'] == v;
      }
    }
    assert s1 == s0 + {t};
    SumOutgoingRemove(s1, t, c);
    assert s1 - {t} == s0;
  }

  /** A successful e-transfer of `amount`, with amount within what was
      left, lowers what is left by exactly the amount. */
  lemma RemainingDropsByAmount(used: real, amount: real)
    requires 0.0 < amount
    requires amount <= (if DailyETransferLimit - used > 0.0 then DailyETransferLimit - used else 0.0)
    ensures var before := if DailyETransferLimit - used > 0.0 then DailyETransferLimit - used else 0.0;
      var after := if DailyETransferLimit - (used + amount) > 0.0 then DailyETransferLimit - (used + amount) else 0.0;
      after == before - amount
  {
  }

  /** The argument checks sendETransfer makes first, in the source's order. */
  function ETransferRequestValidation(customer: Option<Customer>, sourceAccountID: Option<string>,
                                      recipientID: Option<string>, amount: real): (r: Outcome)
    ensures r.Pass? <==>
      customer.Some? && !NullOrBlank(sourceAccountID) && !NullOrBlank(recipientID) && amount > 0.0
    ensures customer.None? ==> r == Fail(IllegalArgument(NoCustomerMessage))
    ensures customer.Some? && NullOrBlank(sourceAccountID) ==> r == Fail(IllegalArgument(NoSourceIdMessage))
    ensures customer.Some? && !NullOrBlank(sourceAccountID) && NullOrBlank(recipientID) ==>
      r == Fail(IllegalArgument(NoRecipientIdMessage))
    ensures customer.Some? && !NullOrBlank(sourceAccountID) && !NullOrBlank(recipientID) && amount <= 0.0 ==>
      r == Fail(IllegalArgument(NonPositiveETransferMessage))
  {
    if customer.None? then Fail(IllegalArgument(NoCustomerMessage))
    else if NullOrBlank(sourceAccountID) then Fail(IllegalArgument(NoSourceIdMessage))
    else if NullOrBlank(recipientID) then Fail(IllegalArgument(NoRecipientIdMessage))
    else if amount <= 0.0 then Fail(IllegalArgument(NonPositiveETransferMessage))
    else Pass
  }

  /** enforceETransferAmountLimits against a given remaining allowance: the
      per-transfer cap first, then the daily one. */
  function LimitCheck(amount: real, remaining: real): (r: Outcome)
    ensures r.Pass? <==> amount <= MaxETransferPerTransaction && amount <= remaining
    ensures amount > MaxETransferPerTransaction ==> r == Fail(IllegalArgument(PerTransferLimitMessage))
    ensures amount <= MaxETransferPerTransaction && amount > remaining ==>
      r == Fail(IllegalArgumentWithAmount(DailyLimitPrefix, remaining))
  {
    if amount > MaxETransferPerTransaction then Fail(IllegalArgument(PerTransferLimitMessage))
    else if amount > remaining then Fail(IllegalArgumentWithAmount(DailyLimitPrefix, remaining))
    else Pass
  }

  /** The checks on the looked-up account and recipient, in the source's
      order. A missing recipient is reported with the source account's ID,
      as the source does. */
  function PartiesCheck(source: Account?, recipient: Recipient?, sourceAccountID: string, customer: Customer)
    : (r: Outcome)
    ensures r.Pass? <==>
      source != null && recipient != null && source.customer == customer && recipient.owner == customer
    ensures source == null ==> r == Fail(IllegalArgument(SourceNotFoundPrefix + sourceAccountID))
    ensures source != null && recipient == null ==> r == Fail(IllegalArgument(RecipientNotFoundPrefix + sourceAccountID))
    ensures source != null && recipient != null && source.customer != customer ==>
      r == Fail(IllegalArgument(SourceNotOwnedMessage))
    ensures source != null && recipient != null && source.customer == customer && recipient.owner != customer ==>
      r == Fail(IllegalArgument(RecipientNotSavedMessage))
  {
    if source == null then Fail(IllegalArgument(SourceNotFoundPrefix + sourceAccountID))
    else if recipient == null then Fail(IllegalArgument(RecipientNotFoundPrefix + sourceAccountID))
    else if source.customer != customer then Fail(IllegalArgument(SourceNotOwnedMessage))
    else if !recipient.IsOwnedBy(Some(customer)) then Fail(IllegalArgument(RecipientNotSavedMessage))
    else Pass
  }

  /** new ETransferData(...) with a transaction and a recipient in hand: it
      cannot throw. */
  method OpenETransferData(transaction: Transaction, recipient: Recipient, message: Option<string>,
                           ids: IdGenerator, now: int)
    returns (e: ETransferData)
    modifies ids
    ensures fresh(e) && e.id == Uid(old(ids.next)) && ids.next == old(ids.next) + 1
    ensures e.transaction == transaction && e.recipient == recipient && e.createdAt == now
    ensures e.message == (if message.Some? then message.value else "")
    ensures e.status == ETransferStatus.Pending && e.failureReason == None
  {
    var created := ETransferData.Create(transaction, recipient, message, ids, now);
    if created.Err? {
      assert false;
    }
    e := created.value;
  }

  /** The ETransfer service over the four repositories; `ids` stands for
      UUID generation. */
  class ETransfer {
    const accountRepo: AccountRepo
    const recipientRepo: RecipientRepo
    const transactionRepo: TransactionRepo
    const eTransferRepo: ETransferRepo
    const ids: IdGenerator

    /** The repositories are keyed consistently, every stored account keeps
        its invariant, and no transaction ID still to be issued is in use. */
    ghost predicate Valid()
      reads this, accountRepo, recipientRepo, transactionRepo, eTransferRepo, ids, accountRepo.accounts.Values
    {
      accountRepo.Valid() && recipientRepo.Valid() && transactionRepo.Valid() && eTransferRepo.Valid()
      && (forall a :: a in accountRepo.accounts.Values ==> a.Valid())
      && Unissued(transactionRepo.transactions.Keys, ids.next)
    }

    constructor (accountRepo: AccountRepo, recipientRepo: RecipientRepo, transactionRepo: TransactionRepo,
                 eTransferRepo: ETransferRepo, ids: IdGenerator)
      ensures this.accountRepo == accountRepo && this.recipientRepo == recipientRepo
      ensures this.transactionRepo == transactionRepo && this.eTransferRepo == eTransferRepo && this.ids == ids
    {
      this.accountRepo := accountRepo;
      this.recipientRepo := recipientRepo;
      this.transactionRepo := transactionRepo;
      this.eTransferRepo := eTransferRepo;
      this.ids := ids;
    }

    /** new ETransfer(...): all four repositories must exist. */
    static method Create(accountRepo: AccountRepo?, recipientRepo: RecipientRepo?, transactionRepo: TransactionRepo?,
                         eTransferRepo: ETransferRepo?, ids: IdGenerator)
      returns (r: Result<ETransfer>)
      ensures accountRepo == null ==> r == Err(IllegalArgument(MissingAccountRepoMessage))
      ensures accountRepo != null && recipientRepo == null ==> r == Err(IllegalArgument(MissingRecipientRepoMessage))
      ensures accountRepo != null && recipientRepo != null && transactionRepo == null ==>
        r == Err(IllegalArgument(MissingTransactionRepoMessage))
      ensures accountRepo != null && recipientRepo != null && transactionRepo != null && eTransferRepo == null ==>
        r == Err(IllegalArgument(MissingETransferRepoMessage))
      ensures r.Ok? <==> accountRepo != null && recipientRepo != null && transactionRepo != null && eTransferRepo != null
      ensures r.Ok? ==>
        fresh(r.value) && r.value.accountRepo == accountRepo && r.value.recipientRepo == recipientRepo
        && r.value.transactionRepo == transactionRepo && r.value.eTransferRepo == eTransferRepo && r.value.ids == ids
    {
      if accountRepo == null {
        return Err(IllegalArgument(MissingAccountRepoMessage));
      }
      if recipientRepo == null {
        return Err(IllegalArgument(MissingRecipientRepoMessage));
      }
      if transactionRepo == null {
        return Err(IllegalArgument(MissingTransactionRepoMessage));
      }
      if eTransferRepo == null {
        return Err(IllegalArgument(MissingETransferRepoMessage));
      }
      var service := new ETransfer(accountRepo, recipientRepo, transactionRepo, eTransferRepo, ids);
      return Ok(service);
    }

    /** calculateUsedETransferAmountToday: fetches today's transactions of
        the customer and adds up the counted ones. */
    method CalculateUsedETransferAmountToday(customer: Customer, now: int) returns (total: real)
      requires transactionRepo.Valid()
      ensures total == UsedToday(transactionRepo.transactions, customer, now)
    {
      var todays := transactionRepo.FindByCustomerAndDateRange(Some(customer), Some(DayStart(now)), Some(DayEnd(now)));
      total := 0.0;
      var i := 0;
      while i < |todays|
        invariant 0 <= i <= |todays|
        invariant total == SumWeights(todays[..i], customer)
      {
        var tx := todays[i];
        assert todays[..i + 1][..i] == todays[..i];
        if tx.status == Completed {
          var src, dest := tx.sourceAccount, tx.destinationAccount;
          if src != null && dest == null && customer == src.customer {
            total := total + tx.amount;
          }
        }
        i := i + 1;
      }
      assert todays[..|todays|] == todays;
      SumWeightsIsSumOutgoing(todays, customer);
      assert (set t | t in todays) == TodaySet(transactionRepo.transactions, customer, now);
    }

    /** getRemainingDailyETransferLimit. */
    method GetRemainingDailyETransferLimit(customer: Option<Customer>, now: int) returns (r: Result<real>)
      requires transactionRepo.Valid()
      ensures customer.None? ==> r == Err(IllegalArgument(NullLimitCustomerMessage))
      ensures customer.Some? ==> r == Ok(RemainingDailyLimit(transactionRepo.transactions, customer.value, now))
    {
      if customer.None? {
        return Err(IllegalArgument(NullLimitCustomerMessage));
      }
      var usedToday := CalculateUsedETransferAmountToday(customer.value, now);
      var remaining := DailyETransferLimit - usedToday;
      return Ok(if remaining > 0.0 then remaining else 0.0);
    }

    /** enforceETransferAmountLimits. */
    method EnforceETransferAmountLimits(customer: Customer, amount: real, now: int) returns (r: Outcome)
      requires transactionRepo.Valid()
      ensures r == LimitCheck(amount, RemainingDailyLimit(transactionRepo.transactions, customer, now))
    {
      if amount > MaxETransferPerTransaction {
        return Fail(IllegalArgument(PerTransferLimitMessage));
      }
      var remainingToday := GetRemainingDailyETransferLimit(Some(customer), now);
      if amount > remainingToday.value {
        return Fail(IllegalArgumentWithAmount(DailyLimitPrefix, remainingToday.value));
      }
      return Pass;
    }

    /** The refused branch of sendETransfer: a FAILED transaction is
        stored; a FAILED record is built but not stored. */
    method RecordRefusedETransfer(customer: Customer, source: Account, recipient: Recipient, amount: real,
                                  message: Option<string>, now: int)
      returns (e: ETransferData)
      requires amount > 0.0 && transactionRepo.Valid() && Unissued(transactionRepo.transactions.Keys, ids.next)
      modifies transactionRepo, ids
      ensures transactionRepo.Valid() && Unissued(transactionRepo.transactions.Keys, ids.next)
      ensures fresh(e) && fresh(e.transaction) && e.transaction.Valid()
      ensures e.recipient == recipient && e.createdAt == now
      ensures e.message == (if message.Some? then message.value else "")
      ensures e.status == ETransferStatus.Failed && e.failureReason == Some(DebitRefusedReason)
      ensures var t := e.transaction;
        t.id == Uid(old(ids.next)) && ids.next == old(ids.next) + 2
        && t.initiatedBy == customer && t.sourceAccount == source && t.destinationAccount == null
        && t.amount == amount && t.description == ETransferDescriptionPrefix + recipient.name && t.createdAt == now
        && t.status == TxStatus.Failed && t.failureReason == Some(DebitRefusedReason)
        && t.id !in old(transactionRepo.transactions)
        && transactionRepo.transactions == old(transactionRepo.transactions)[t.id := t]
      ensures UsedToday(transactionRepo.transactions, customer, now)
              == old(UsedToday(transactionRepo.transactions, customer, now))
    {
      ghost var store := transactionRepo.transactions;
      var failed := RecordRefused(transactionRepo, ids, customer, source, null, amount,
                                  ETransferDescriptionPrefix + recipient.name, now);
      e := OpenETransferData(failed, recipient, message, ids, now);
      e.MarkFailed(Some(DebitRefusedReason));
      NowIsToday(now);
      UsedAfterRecording(store, failed.id, failed, customer, now);
    }

    /** The successful branch of sendETransfer: debit, history, COMPLETED
        and SENT, then every save. */
    method CompleteETransfer(source: Account, e: ETransferData, amount: real)
      requires accountRepo.Valid() && recipientRepo.Valid() && transactionRepo.Valid() && eTransferRepo.Valid()
      requires forall a :: a in accountRepo.accounts.Values ==> a.Valid()
      requires Unissued(transactionRepo.transactions.Keys + {e.transaction.id}, ids.next)
      requires source.accountID in accountRepo.accounts && accountRepo.accounts[source.accountID] == source
      requires e.transaction.Valid() && DebitAllowed(source.State(), amount) == Ok(true)
      modifies source, e, e.transaction, accountRepo, transactionRepo, eTransferRepo
      ensures Valid()
      ensures accountRepo.accounts == old(accountRepo.accounts)
      ensures transactionRepo.transactions == old(transactionRepo.transactions)[e.transaction.id := e.transaction]
      ensures eTransferRepo.eTransfers == old(eTransferRepo.eTransfers)[e.id := e]
      ensures e.transaction.status == Completed && e.transaction.failureReason == None
      ensures e.status == Sent && e.failureReason == None
      ensures Ok(source.State()) == old(Debited(source.State(), amount))
      ensures source.transactions == old(source.transactions) + [e.transaction]
    {
      var transaction := e.transaction;
      var debited := source.Debit(amount);
      if debited.Fail? {
        assert false;
      }
      source.AddTransaction(transaction);
      transaction.MarkCompleted();
      e.MarkSent();
      forall a | a in accountRepo.accounts.Values ensures a.Valid() {
        if a != source {
          assert old(a.Valid());
        }
      }
      PersistETransfer(source, e);
    }

    /** The saves that end a successful e-transfer: the source account, the
        transaction and the record. */
    method PersistETransfer(source: Account, e: ETransferData)
      requires accountRepo.Valid() && recipientRepo.Valid() && transactionRepo.Valid() && eTransferRepo.Valid()
      requires forall a :: a in accountRepo.accounts.Values ==> a.Valid()
      requires Unissued(transactionRepo.transactions.Keys + {e.transaction.id}, ids.next)
      requires source.accountID in accountRepo.accounts && accountRepo.accounts[source.accountID] == source
      requires e.transaction.Valid()
      modifies accountRepo, transactionRepo, eTransferRepo
      ensures Valid()
      ensures accountRepo.accounts == old(accountRepo.accounts)
      ensures transactionRepo.transactions == old(transactionRepo.transactions)[e.transaction.id := e.transaction]
      ensures eTransferRepo.eTransfers == old(eTransferRepo.eTransfers)[e.id := e]
    {
      ghost var accounts := accountRepo.accounts;
      var savedSource := accountRepo.Save(source);
      assert accountRepo.accounts == accounts;
      var savedTransaction := transactionRepo.Save(e.transaction);
      var savedETransfer := eTransferRepo.Save(e);
    }

    /** sendETransfer once every check has passed: the canDebit decision
        and the branch it selects. */
    method Dispatch(c: Customer, source: Account, recipient: Recipient, amount: real, message: Option<string>, now: int)
      returns (e: ETransferData)
      requires Valid() && amount > 0.0
      requires source.accountID in accountRepo.accounts && accountRepo.accounts[source.accountID] == source
      modifies accountRepo, transactionRepo, eTransferRepo, ids, accountRepo.accounts.Values
      ensures Valid()
      ensures accountRepo.accounts == old(accountRepo.accounts)
      ensures fresh(e) && fresh(e.transaction)
      ensures e.recipient == recipient && e.createdAt == now
      ensures e.message == (if message.Some? then message.value else "")
      ensures var t := e.transaction;
        t.Valid() && t.id == Uid(old(ids.next)) && ids.next == old(ids.next) + 2
        && t.initiatedBy == c && t.sourceAccount == source && t.destinationAccount == null
        && t.amount == amount && t.description == ETransferDescriptionPrefix + recipient.name
        && t.createdAt == now
        && t.id !in old(transactionRepo.transactions)
        && transactionRepo.transactions == old(transactionRepo.transactions)[t.id := t]
      ensures old(DebitAllowed(source.State(), amount)) != Ok(true) ==>
        e.transaction.status == TxStatus.Failed && e.transaction.failureReason == Some(DebitRefusedReason)
        && e.status == ETransferStatus.Failed && e.failureReason == Some(DebitRefusedReason)
        && eTransferRepo.eTransfers == old(eTransferRepo.eTransfers)
        && UsedToday(transactionRepo.transactions, c, now) == old(UsedToday(transactionRepo.transactions, c, now))
      ensures old(DebitAllowed(source.State(), amount)) == Ok(true) ==>
        e.transaction.status == Completed && e.status == Sent && e.IsSent()
        && Ok(source.State()) == old(Debited(source.State(), amount))
        && source.transactions == old(source.transactions) + [e.transaction]
        && eTransferRepo.eTransfers == old(eTransferRepo.eTransfers)[e.id := e]
        && (source.customer == c ==>
              UsedToday(transactionRepo.transactions, c, now)
              == old(UsedToday(transactionRepo.transactions, c, now)) + amount)
      ensures forall a :: a in accountRepo.accounts.Values && (e.status != Sent || a != source) ==>
        a.State() == old(a.State()) && a.transactions == old(a.transactions)
    {
      var allowed := source.CanDebit(amount);
      if allowed != Ok(true) {
        e := RecordRefusedETransfer(c, source, recipient, amount, message, now);
      } else {
        e := SendApproved(c, source, recipient, amount, message, now);
      }
    }

    /** The successful branch of sendETransfer, from the new transaction
        and record to the last save. */
    method SendApproved(c: Customer, source: Account, recipient: Recipient, amount: real,
                        message: Option<string>, now: int)
      returns (e: ETransferData)
      requires Valid() && DebitAllowed(source.State(), amount) == Ok(true)
      requires source.accountID in accountRepo.accounts && accountRepo.accounts[source.accountID] == source
      modifies accountRepo, transactionRepo, eTransferRepo, ids, source
      ensures Valid()
      ensures accountRepo.accounts == old(accountRepo.accounts)
      ensures fresh(e) && fresh(e.transaction)
      ensures e.recipient == recipient && e.createdAt == now
      ensures e.message == (if message.Some? then message.value else "")
      ensures var t := e.transaction;
        t.Valid() && t.id == Uid(old(ids.next)) && ids.next == old(ids.next) + 2
        && t.initiatedBy == c && t.sourceAccount == source && t.destinationAccount == null
        && t.amount == amount && t.description == ETransferDescriptionPrefix + recipient.name
        && t.createdAt == now
        && t.id !in old(transactionRepo.transactions)
        && transactionRepo.transactions == old(transactionRepo.transactions)[t.id := t]
      ensures e.transaction.status == Completed && e.status == Sent && e.IsSent()
      ensures Ok(source.State()) == old(Debited(source.State(), amount))
      ensures source.transactions == old(source.transactions) + [e.transaction]
      ensures eTransferRepo.eTransfers == old(eTransferRepo.eTransfers)[e.id := e]
      ensures source.customer == c ==>
        UsedToday(transactionRepo.transactions, c, now) == old(UsedToday(transactionRepo.transactions, c, now)) + amount
    {
      ghost var store := transactionRepo.transactions;
      ghost var used := UsedToday(store, c, now);
      var transaction := OpenTransaction(transactionRepo, ids, c, source, null, amount,
                                         ETransferDescriptionPrefix + recipient.name, now);
      assert UsedToday(store, c, now) == used;
      e := OpenETransferData(transaction, recipient, message, ids, now);
      assert UsedToday(store, c, now) == used;
      CompleteETransfer(source, e, amount);
      assert UsedToday(store, c, now) == used;
      NowIsToday(now);
      UsedAfterRecording(store, transaction.id, transaction, c, now);
      assert source.customer == c ==> Weight(transaction, c) == amount;
    }

    /** sendETransfer. Every rejected request leaves all state alone.
        Otherwise one new transaction (with no destination account) is
        stored: FAILED when canDebit refuses, with the FAILED record returned
        but not stored and the daily allowance untouched; else COMPLETED,
        with the amount taken from the source, the record SENT and stored,
        and the daily allowance lowered by exactly the amount. */
    method SendETransfer(customer: Option<Customer>, sourceAccountID: Option<string>, recipientID: Option<string>,
                         amount: real, message: Option<string>, now: int)
      returns (r: Result<ETransferData>)
      requires Valid()
      modifies accountRepo, transactionRepo, eTransferRepo, ids, accountRepo.accounts.Values
      ensures Valid()
      ensures accountRepo.accounts == old(accountRepo.accounts)
      ensures ETransferRequestValidation(customer, sourceAccountID, recipientID, amount).Fail? ==>
        r == Err(ETransferRequestValidation(customer, sourceAccountID, recipientID, amount).error)
      ensures ETransferRequestValidation(customer, sourceAccountID, recipientID, amount).Pass? ==>
        var c := customer.value;
        var remaining := old(RemainingDailyLimit(transactionRepo.transactions, c, now));
        var limits := LimitCheck(amount, remaining);
        var src, rec := old(accountRepo.FindByID(sourceAccountID)), old(recipientRepo.FindByID(recipientID));
        var parties := PartiesCheck(src, rec, sourceAccountID.value, c);
        (limits.Fail? ==> r == Err(limits.error))
        && (limits.Pass? && parties.Fail? ==> r == Err(parties.error))
        && (limits.Pass? && parties.Pass? ==>
              r.Ok? && fresh(r.value) && fresh(r.value.transaction)
              && (var e, t := r.value, r.value.transaction;
                  e.recipient == rec && e.createdAt == now
                  && e.message == (if message.Some? then message.value else "")
                  && t.Valid() && t.id == Uid(old(ids.next)) && ids.next == old(ids.next) + 2
                  && t.initiatedBy == c && t.sourceAccount == src && t.destinationAccount == null
                  && t.amount == amount && t.description == ETransferDescriptionPrefix + rec.name
                  && t.createdAt == now
                  && t.id !in old(transactionRepo.transactions)
                  && transactionRepo.transactions == old(transactionRepo.transactions)[t.id := t]
                  && (old(DebitAllowed(src.State(), amount)) != Ok(true) ==>
                        t.status == TxStatus.Failed && t.failureReason == Some(DebitRefusedReason)
                        && e.status == ETransferStatus.Failed && e.failureReason == Some(DebitRefusedReason)
                        && eTransferRepo.eTransfers == old(eTransferRepo.eTransfers)
                        && RemainingDailyLimit(transactionRepo.transactions, c, now) == remaining)
                  && (old(DebitAllowed(src.State(), amount)) == Ok(true) ==>
                        t.status == Completed && e.status == Sent && e.IsSent()
                        && Ok(src.State()) == old(Debited(src.State(), amount))
                        && src.transactions == old(src.transactions) + [t]
                        && eTransferRepo.eTransfers == old(eTransferRepo.eTransfers)[e.id := e]
                        && RemainingDailyLimit(transactionRepo.transactions, c, now) == remaining - amount)))
      ensures r.Err? ==>
        transactionRepo.transactions == old(transactionRepo.transactions)
        && eTransferRepo.eTransfers == old(eTransferRepo.eTransfers) && ids.next == old(ids.next)
      ensures forall a :: a in accountRepo.accounts.Values
                          && (r.Err? || r.value.status != Sent || a != r.value.transaction.sourceAccount) ==>
        a.State() == old(a.State()) && a.transactions == old(a.transactions)
    {
      var v := ETransferRequestValidation(customer, sourceAccountID, recipientID, amount);
      if v.Fail? {
        return Err(v.error);
      }
      var c := customer.value;
      var limits := EnforceETransferAmountLimits(c, amount, now);
      if limits.Fail? {
        return Err(limits.error);
      }
      var source := accountRepo.FindByID(sourceAccountID);
      if source == null {
        return Err(IllegalArgument(SourceNotFoundPrefix + sourceAccountID.value));
      }
      var recipient := recipientRepo.FindByID(recipientID);
      if recipient == null {
        return Err(IllegalArgument(RecipientNotFoundPrefix + sourceAccountID.value));
      }
      if source.customer != c {
        return Err(IllegalArgument(SourceNotOwnedMessage));
      }
      if !recipient.IsOwnedBy(customer) {
        return Err(IllegalArgument(RecipientNotSavedMessage));
      }
      ghost var used := UsedToday(transactionRepo.transactions, c, now);
      RemainingDropsByAmount(used, amount);
      var e := Dispatch(c, source, recipient, amount, message, now);
      return Ok(e);
    }
  }
}
