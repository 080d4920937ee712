/** The walk-through the repository's own entry point performs: two
    accounts of one customer, two internal transfers and one e-transfer to
    a saved recipient, with the balances, statuses and remaining daily
    allowance it prints. */
module Scenarios {
  import opened Common
  import opened JavaText
  import opened Ids
  import opened Ledger
  import opened Recipients
  import opened ETransferRecords
  import opened Repos
  import opened Transfers
  import opened ETransfers

  const CheckingID := "CHECKING-0001"
  const SavingsID := "SAVINGS-0001"

  /** The sample payee's texts carry nothing for trim to remove. */
  lemma SampleTextsAreTrimmed()
    ensures Trim("Luke") == "Luke" && Trim("luke@gmail.com") == "luke@gmail.com"
    ensures Trim("514-000-0000") == "514-000-0000"
  {
    TrimmedTextIsFixed("Luke");
    TrimmedTextIsFixed("luke@gmail.com");
    TrimmedTextIsFixed("514-000-0000");
  }

  /** The sample e-mail address matches the e-mail pattern. */
  lemma SampleEmailMatches()
    ensures MatchesEmailPattern("luke@gmail.com")
  {
    var email := "luke@gmail.com";
    assert email[4] == '@' && email[10] == '.';
    forall k | 0 <= k < |email| && k != 4 ensures EmailChar(email[k]) {
    }
  }

  /** The sample phone number matches the phone pattern. */
  lemma SamplePhoneMatches()
    ensures MatchesPhonePattern("514-000-0000")
  {
    var phone := "514-000-0000";
    forall k | 0 <= k < |phone| ensures PhoneChar(phone[k]) {
    }
  }

  /** The sample payee's contact data passes validation. */
  lemma SampleRecipientIsValid()
    ensures RecipientInfoValidation(Some("Luke"), Some("luke@gmail.com"), Some("514-000-0000")).Pass?
  {
    var name, email, phone := Some("Luke"), Some("luke@gmail.com"), Some("514-000-0000");
    assert !NullOrBlank(name) by { assert !IsJavaWhitespace(name.value[0]); }
    assert !NullOrBlank(email) by { assert !IsJavaWhitespace(email.value[0]); }
    SampleTextsAreTrimmed();
    SampleEmailMatches();
    SamplePhoneMatches();
    assert MatchesEmailPattern(Trim(email.value)) && MatchesPhonePattern(Trim(phone.value));
  }

  /** An issued identifier is never blank. */
  lemma UidIsNotBlank(n: nat)
    ensures !NullOrBlank(Some(Uid(n)))
  {
    assert Uid(n)[0] == 'u';
  }

  /** Nobody has sent anything from an empty store. */
  lemma NothingUsedFromEmptyStore(c: Customer, now: int)
    ensures UsedToday(map[], c, now) == 0.0
  {
    assert TodaySet(map[], c, now) == {};
  }

  /** Recording an internal transfer (one with a destination account)
      leaves the customer's e-transfer use for the day unchanged. */
  lemma InternalTransferUsesNothing(store: map<string, Transaction>, t: Transaction, c: Customer, now: int)
    requires t.id !in store && t !in store.Values && t.destinationAccount != null
    requires t.initiatedBy == c && t.createdAt == now
    ensures UsedToday(store[t.id := t], c, now) == UsedToday(store, c, now)
  {
    NowIsToday(now);
    UsedAfterRecording(store, t.id, t, c, now);
  }

  /** The two account IDs are usable and distinct. */
  lemma SampleIDsAreUsable()
    ensures !NullOrBlank(Some(CheckingID)) && !NullOrBlank(Some(SavingsID)) && CheckingID != SavingsID
  {
    assert CheckingID[0] == 'C' && SavingsID[0] == 'S';
  }

  /** A store holding the two sample accounts holds nothing else. */
  lemma AccountPairValues(checking: Account, savings: Account)
    requires CheckingID != SavingsID
    ensures map[CheckingID := checking, SavingsID := savings].Values == {checking, savings}
  {
    var m := map[CheckingID := checking, SavingsID := savings];
    assert m[CheckingID] == checking && m[SavingsID] == savings;
    forall a | a in m.Values ensures a in {checking, savings} {
      var k :| k in m && m[k] == a;
    }
  }

  /** The customer's checking account with 1000 and savings account with 500. */
  method OpenSampleAccounts(john: Customer, now: int) returns (checking: Account, savings: Account)
    ensures fresh(checking) && fresh(savings) && checking.Valid() && savings.Valid()
    ensures checking.State() == Funds(1000.0, Checking) && checking.customer == john
    ensures savings.State() == Funds(500.0, Savings(0, MonthlyWithdrawalLimit)) && savings.customer == john
    ensures checking.accountID == CheckingID && savings.accountID == SavingsID
    ensures checking.transactions == [] && savings.transactions == []
  {
    SampleIDsAreUsable();
    var c := Account.NewCheck(Some(CheckingID), Some(john), 1000.0, now);
    var s := Account.NewSaving(Some(SavingsID), Some(john), 500.0, now);
    checking, savings := c.value, s.value;
  }

  /** The customer's saved payee. */
  method OpenSamplePayee(john: Customer, ids: IdGenerator) returns (luke: Recipient)
    modifies ids
    ensures fresh(luke) && luke.owner == john && luke.name == "Luke"
    ensures luke.id == Uid(old(ids.next)) && ids.next == old(ids.next) + 1
  {
    SampleRecipientIsValid();
    SampleTextsAreTrimmed();
    var l := Recipient.Create(Some(john), Some("Luke"), Some("luke@gmail.com"), Some("514-000-0000"), ids);
    luke := l.value;
  }

  /** Both accounts and the payee, saved in new repositories. */
  method StoreSample(checking: Account, savings: Account, luke: Recipient)
    returns (accountRepo: AccountRepo, recipientRepo: RecipientRepo)
    requires checking.accountID == CheckingID && savings.accountID == SavingsID
    ensures fresh(accountRepo) && fresh(recipientRepo)
    ensures accountRepo.Valid() && recipientRepo.Valid()
    ensures accountRepo.accounts == map[CheckingID := checking, SavingsID := savings]
    ensures accountRepo.accounts.Values == {checking, savings}
    ensures recipientRepo.recipients == map[luke.id := luke]
  {
    accountRepo := new AccountRepo();
    recipientRepo := new RecipientRepo();
    var saved := accountRepo.Save(checking);
    saved := accountRepo.Save(savings);
    saved := recipientRepo.Save(luke);
    SampleIDsAreUsable();
    AccountPairValues(checking, savings);
  }

  /** The two accounts, the sample payee and both services, saved and
      consistent, with nothing yet recorded. */
  method SetUp(john: Customer, now: int)
    returns (transfers: Transfers.TransferFunds, eTransfers: ETransfers.ETransfer,
             checking: Account, savings: Account, luke: Recipient)
    ensures fresh(checking) && fresh(savings) && fresh(luke)
    ensures fresh(transfers) && fresh(eTransfers)
    ensures fresh(transfers.accountRepo) && fresh(transfers.transactionRepo) && fresh(transfers.ids)
    ensures fresh(eTransfers.recipientRepo) && fresh(eTransfers.eTransferRepo)
    ensures transfers.Valid() && eTransfers.Valid()
    ensures eTransfers.accountRepo == transfers.accountRepo && eTransfers.transactionRepo == transfers.transactionRepo
    ensures eTransfers.ids == transfers.ids
    ensures transfers.accountRepo.accounts == map[CheckingID := checking, SavingsID := savings]
    ensures transfers.transactionRepo.transactions == map[]
    ensures eTransfers.recipientRepo.recipients == map[luke.id := luke]
    ensures checking.State() == Funds(1000.0, Checking) && checking.customer == john
    ensures savings.State() == Funds(500.0, Savings(0, MonthlyWithdrawalLimit)) && savings.customer == john
    ensures checking.accountID == CheckingID && savings.accountID == SavingsID
    ensures luke.owner == john && luke.name == "Luke" && luke.id == Uid(0)
  {
    var ids := new IdGenerator();
    checking, savings := OpenSampleAccounts(john, now);
    luke := OpenSamplePayee(john, ids);
    var accountRepo, recipientRepo := StoreSample(checking, savings, luke);
    var transactionRepo := new TransactionRepo();
    var eTransferRepo := new ETransferRepo();
    transfers := new Transfers.TransferFunds(accountRepo, transactionRepo, ids);
    eTransfers := new ETransfers.ETransfer(accountRepo, recipientRepo, transactionRepo, eTransferRepo, ids);
  }

  /** One transfer of 200 from the checking account to the savings
      account, which completes and leaves the day's e-transfer use alone. */
  method MoveTwoHundred(transfers: Transfers.TransferFunds, john: Customer, checking: Account, savings: Account,
                        now: int)
    returns (t: Transaction)
    requires transfers.Valid()
    requires transfers.accountRepo.accounts == map[CheckingID := checking, SavingsID := savings]
    requires checking.accountID == CheckingID && savings.accountID == SavingsID
    requires checking.customer == john && savings.customer == john
    requires checking.kind == Checking && checking.balance >= 200.0
    modifies transfers.accountRepo, transfers.transactionRepo, transfers.ids, checking, savings
    ensures transfers.Valid()
    ensures transfers.accountRepo.accounts == old(transfers.accountRepo.accounts)
    ensures checking.State() == Funds(old(checking.balance) - 200.0, Checking)
    ensures savings.State() == Funds(old(savings.balance) + 200.0, old(savings.kind))
    ensures fresh(t) && t.status == Completed
    ensures UsedToday(transfers.transactionRepo.transactions, john, now)
            == old(UsedToday(transfers.transactionRepo.transactions, john, now))
  {
    SampleIDsAreUsable();
    ghost var store := transfers.transactionRepo.transactions;
    assert transfers.accountRepo.accounts.Values == {checking, savings} by {
      AccountPairValues(checking, savings);
    }
    var r := transfers.Transfer(Some(john), Some(CheckingID), Some(SavingsID), 200.0, None, now);
    t := r.value;
    InternalTransferUsesNothing(store, t, john, now);
  }

  /** The e-transfer of 150 from the checking account to the saved payee,
      with all of the day's allowance still there: it is sent. */
  method SendOneFifty(eTransfers: ETransfers.ETransfer, john: Customer, checking: Account, savings: Account,
                      luke: Recipient, now: int)
    returns (e: ETransferData)
    requires eTransfers.Valid()
    requires eTransfers.accountRepo.accounts == map[CheckingID := checking, SavingsID := savings]
    requires checking.accountID == CheckingID && savings.accountID == SavingsID
    requires eTransfers.recipientRepo.recipients == map[luke.id := luke]
    requires luke.id == Uid(0) && luke.owner == john && checking.customer == john
    requires checking.kind == Checking && checking.balance >= 150.0
    requires UsedToday(eTransfers.transactionRepo.transactions, john, now) == 0.0
    modifies eTransfers.accountRepo, eTransfers.transactionRepo, eTransfers.eTransferRepo, eTransfers.ids
    modifies checking, savings
    ensures eTransfers.Valid()
    ensures checking.balance == old(checking.balance) - 150.0 && savings.balance == old(savings.balance)
    ensures e.status == Sent
    ensures RemainingDailyLimit(eTransfers.transactionRepo.transactions, john, now) == 9850.0
  {
    SampleIDsAreUsable();
    UidIsNotBlank(0);
    AccountPairValues(checking, savings);
    var r := eTransfers.SendETransfer(Some(john), Some(CheckingID), Some(luke.id), 150.0, Some("Ski trip payment"), now);
    e := r.value;
  }

  /** Both transfers of 200: checking 1000, 800, 600; savings 500, 700, 900. */
  method TransferTwice(transfers: Transfers.TransferFunds, john: Customer, checking: Account, savings: Account,
                       now: int)
    returns (first: TxStatus, second: TxStatus)
    requires transfers.Valid()
    requires transfers.accountRepo.accounts == map[CheckingID := checking, SavingsID := savings]
    requires checking.accountID == CheckingID && savings.accountID == SavingsID
    requires checking.customer == john && savings.customer == john
    requires checking.State() == Funds(1000.0, Checking) && savings.balance == 500.0
    modifies transfers.accountRepo, transfers.transactionRepo, transfers.ids, checking, savings
    ensures transfers.Valid()
    ensures transfers.accountRepo.accounts == old(transfers.accountRepo.accounts)
    ensures checking.State() == Funds(600.0, Checking) && savings.balance == 900.0
    ensures first == Completed && second == Completed
    ensures UsedToday(transfers.transactionRepo.transactions, john, now)
            == old(UsedToday(transfers.transactionRepo.transactions, john, now))
  {
    var t1 := MoveTwoHundred(transfers, john, checking, savings, now);
    first := t1.status;
    var t2 := MoveTwoHundred(transfers, john, checking, savings, now);
    second := t2.status;
  }

  /** The repository's walk-through: transfer 200 from checking to savings
      twice, then send 150 by e-transfer from checking to the saved payee,
      all on one day. Checking goes 1000, 800, 600, 450; savings 500, 700,
      900; both transfers complete, the e-transfer is sent, and 9850 of the
      daily 10000 is left. */
  method Walkthrough(now: int)
    returns (checkingBalance: real, savingsBalance: real, first: TxStatus, second: TxStatus,
             sent: ETransferStatus, remaining: real)
    ensures checkingBalance == 450.0 && savingsBalance == 900.0
    ensures first == Completed && second == Completed && sent == Sent
    ensures remaining == 9850.0
  {
    var john := Customer(0);
    var transfers, eTransfers, checking, savings, luke := SetUp(john, now);
    NothingUsedFromEmptyStore(john, now);
    first, second := TransferTwice(transfers, john, checking, savings, now);
    assert eTransfers.Valid();
    var e := SendOneFifty(eTransfers, john, checking, savings, luke, now);
    sent := e.status;
    var left := eTransfers.GetRemainingDailyETransferLimit(Some(john), now);
    checkingBalance, savingsBalance := checking.balance, savings.balance;
    remaining := left.value;
  }
}
