/** Accounts and the transactions that move money between them.
    Account, Check and Saving are one class whose `kind` says which variant
    it is; the debit policy of each variant is stated once, on the abstract
    money state `Funds`, and every mutating method is tied to it. */
module Ledger {
  import opened Common
  import opened JavaText
  import opened Ids

  /** Saving: at most 5 withdrawals per month. */
  const MonthlyWithdrawalLimit: int := 5
  /** Saving: 0.1% interest per month. */
  const MonthlyInterestRate: real := 0.001

  const InvalidAmountMessage := "Amount must be positive and non zero."
  const AccountDebitRefusedMessage := "Insufficient funds or account rules do not allow this debit."
  const SavingsDebitRefusedMessage :=
    "Cannot debit from this savings account. Either insufficient funds or monthly withdrawl limt has been reached."

  /** Which variant an account is; a savings account also carries its
      withdrawal counter and its (fixed) monthly limit. */
  datatype Kind = Checking | Savings(withdrawalCount: int, withdrawalLimit: int)

  /** The part of an account that credit and debit act on. */
  datatype Funds = Funds(balance: real, kind: Kind)

  /** The invariant every account keeps: no negative balance, and a savings
      account's limit is the fixed monthly limit. */
  predicate ValidFunds(f: Funds)
  {
    f.balance >= 0.0 && (f.kind.Savings? ==> f.kind.withdrawalLimit == MonthlyWithdrawalLimit)
  }

  /** Account.validateAmount: only strictly positive amounts pass. */
  function AmountValidation(amount: real): (r: Outcome)
    ensures r.Pass? <==> amount > 0.0
    ensures r.Fail? ==> r.error == IllegalArgument(InvalidAmountMessage)
  {
    if amount <= 0.0 then Fail(IllegalArgument(InvalidAmountMessage)) else Pass
  }

  /** canDebit of either variant. A savings account at its withdrawal limit
      is refused before its balance is looked at. */
  function DebitAllowed(f: Funds, amount: real): (r: Result<bool>)
    ensures r.Err? <==> amount <= 0.0
    ensures r.Err? ==> r.error == IllegalArgument(InvalidAmountMessage)
    ensures r == Ok(true) <==>
      amount > 0.0 && f.balance >= amount
      && (f.kind.Savings? ==> f.kind.withdrawalCount < f.kind.withdrawalLimit)
  {
    if AmountValidation(amount).Fail? then Err(AmountValidation(amount).error)
    else match f.kind
      case Checking => Ok(f.balance >= amount)
      case Savings(count, limit) => if count >= limit then Ok(false) else Ok(f.balance >= amount)
  }

  /** debit of either variant: refused (with the variant's message) unless
      canDebit holds; otherwise the balance drops by the amount and a
      savings account counts one more withdrawal. */
  function Debited(f: Funds, amount: real): (r: Result<Funds>)
    ensures r.Ok? <==> DebitAllowed(f, amount) == Ok(true)
    ensures r.Ok? ==> r.value.balance == f.balance - amount && r.value.kind.Savings? == f.kind.Savings?
    ensures r.Ok? && ValidFunds(f) ==> ValidFunds(r.value)
    ensures amount <= 0.0 ==> r == Err(IllegalArgument(InvalidAmountMessage))
    ensures r.Err? && amount > 0.0 ==>
      r.error == IllegalArgument(if f.kind.Checking? then AccountDebitRefusedMessage else SavingsDebitRefusedMessage)
  {
    match DebitAllowed(f, amount)
    case Err(e) => Err(e)
    case Ok(allowed) =>
      if !allowed then
        Err(IllegalArgument(if f.kind.Checking? then AccountDebitRefusedMessage else SavingsDebitRefusedMessage))
      else match f.kind
        case Checking => Ok(Funds(f.balance - amount, Checking))
        case Savings(count, limit) => Ok(Funds(f.balance - amount, Savings(count + 1, limit)))
  }

  /** credit: any positive amount is added; nothing else changes. */
  function Credited(f: Funds, amount: real): (r: Result<Funds>)
    ensures r.Ok? <==> amount > 0.0
    ensures r.Ok? ==> r.value == Funds(f.balance + amount, f.kind)
    ensures amount <= 0.0 ==> r == Err(IllegalArgument(InvalidAmountMessage))
    ensures r.Ok? && ValidFunds(f) ==> ValidFunds(r.value)
  {
    if AmountValidation(amount).Fail? then Err(AmountValidation(amount).error)
    else Ok(Funds(f.balance + amount, f.kind))
  }

  /** Saving.applyMonthlyInterest: credit balance * 0.001, which credit
      refuses when the balance (so the interest) is zero. */
  function WithInterest(f: Funds): (r: Result<Funds>)
    requires f.kind.Savings?
    ensures f.balance > 0.0 ==> r == Ok(Funds(f.balance * (1.0 + MonthlyInterestRate), f.kind))
    ensures f.balance <= 0.0 ==> r.Err?
  {
    Credited(f, f.balance * MonthlyInterestRate)
  }

  /** How a method's outcome and new state follow from a spec function's
      result: on success the new state is the one computed, on failure the
      exception is the one computed and the state is left as it was. */
  predicate Follows(spec: Result<Funds>, before: Funds, out: Outcome, after: Funds)
  {
    match spec
    case Ok(f) => out == Pass && after == f
    case Err(e) => out == Fail(e) && after == before
  }

  datatype TxStatus = Pending | Completed | Failed

  /** The failure reason both transfer services record when canDebit
      refuses; it lacks the final period of Account's debit message. */
  const DebitRefusedReason := "Insufficient funds or account rules do not allow this debit"

  const NoInitiatorMessage := "Customer who initiated the transaction must exist"
  const NonPositiveTxAmountMessage := "Transaction amount must be positive and not zero"
  const NoAccountsMessage := "At least one of the source account or destination account must be valid"

  /** A money-movement attempt. Everything but its status and failure
      reason is fixed at creation. */
  class Transaction {
    const id: string
    const initiatedBy: Customer
    const sourceAccount: Account?
    const destinationAccount: Account?
    const amount: real
    const description: string
    const createdAt: int
    var status: TxStatus
    var failureReason: Option<string>

    /** A failure reason is present exactly when the status is FAILED. */
    ghost predicate Valid()
      reads this
    {
      amount > 0.0 && (sourceAccount != null || destinationAccount != null)
      && (failureReason.Some? <==> status == Failed)
    }

    constructor (id: string, initiatedBy: Customer, sourceAccount: Account?, destinationAccount: Account?,
                 amount: real, description: Option<string>, createdAt: int)
      requires amount > 0.0 && (sourceAccount != null || destinationAccount != null)
      ensures Valid()
      ensures this.id == id && this.initiatedBy == initiatedBy
      ensures this.sourceAccount == sourceAccount && this.destinationAccount == destinationAccount
      ensures this.amount == amount && this.createdAt == createdAt
      ensures this.description == (if description.Some? then description.value else "")
      ensures status == Pending && failureReason == None
    {
      this.id := id;
      this.initiatedBy := initiatedBy;
      this.sourceAccount := sourceAccount;
      this.destinationAccount := destinationAccount;
      this.amount := amount;
      this.description := if description.Some? then description.value else "";
      this.createdAt := createdAt;
      status := Pending;
      failureReason := None;
    }

    /** new Transaction(...): validates its inputs in the source's order,
        then draws a fresh id and stamps the clock reading `now`. */
    static method Create(initiatedBy: Option<Customer>, sourceAccount: Account?, destinationAccount: Account?,
                         amount: real, description: Option<string>, ids: IdGenerator, now: int)
      returns (r: Result<Transaction>)
      modifies ids
      ensures initiatedBy.None? ==> r == Err(IllegalArgument(NoInitiatorMessage))
      ensures initiatedBy.Some? && amount <= 0.0 ==> r == Err(IllegalArgument(NonPositiveTxAmountMessage))
      ensures initiatedBy.Some? && amount > 0.0 && sourceAccount == null && destinationAccount == null ==>
        r == Err(IllegalArgument(NoAccountsMessage))
      ensures r.Err? ==> ids.next == old(ids.next)
      ensures r.Ok? <==> initiatedBy.Some? && amount > 0.0 && (sourceAccount != null || destinationAccount != null)
      ensures r.Ok? ==>
        var t := r.value;
        fresh(t) && t.Valid() && t.id == Uid(old(ids.next)) && ids.next == old(ids.next) + 1
        && t.initiatedBy == initiatedBy.value && t.sourceAccount == sourceAccount
        && t.destinationAccount == destinationAccount && t.amount == amount && t.createdAt == now
        && t.description == (if description.Some? then description.value else "")
        && t.status == Pending && t.failureReason == None
    {
      if initiatedBy.None? {
        return Err(IllegalArgument(NoInitiatorMessage));
      }
      if amount <= 0.0 {
        return Err(IllegalArgument(NonPositiveTxAmountMessage));
      }
      if sourceAccount == null && destinationAccount == null {
        return Err(IllegalArgument(NoAccountsMessage));
      }
      var id := ids.Fresh();
      var t := new Transaction(id, initiatedBy.value, sourceAccount, destinationAccount, amount, description, now);
      return Ok(t);
    }

    /** markCompleted: COMPLETED, and no failure reason. */
    method MarkCompleted()
      modifies this
      ensures status == Completed && failureReason == None
      ensures old(Valid()) ==> Valid()
    {
      status := Completed;
      failureReason := None;
    }

    /** markFailed: FAILED, with the reason or "" for a null one. */
    method MarkFailed(reason: Option<string>)
      modifies this
      ensures status == Failed && failureReason == Some(if reason.Some? then reason.value else "")
      ensures old(Valid()) ==> Valid()
    {
      status := Failed;
      failureReason := Some(if reason.Some? then reason.value else "");
    }

    /** isSuccessful. */
    function IsSuccessful(): (r: bool)
      reads this
      ensures r <==> status == Completed
    {
      status == Completed
    }
  }

  const BlankAccountIdMessage := "AccountID must not be null or blank"
  const NullCustomerMessage := "Customer must not be null"
  const NegativeOpeningMessage := "Opening balance must not be null or negative"

  /** The account-construction checks, in the source's order. */
  function OpeningValidation(accountID: Option<string>, customer: Option<Customer>, openingBalance: real): (r: Outcome)
    ensures r.Pass? <==> !NullOrBlank(accountID) && customer.Some? && openingBalance >= 0.0
    ensures NullOrBlank(accountID) ==> r == Fail(IllegalArgument(BlankAccountIdMessage))
    ensures !NullOrBlank(accountID) && customer.None? ==> r == Fail(IllegalArgument(NullCustomerMessage))
    ensures !NullOrBlank(accountID) && customer.Some? && openingBalance < 0.0 ==>
      r == Fail(IllegalArgument(NegativeOpeningMessage))
  {
    if NullOrBlank(accountID) then Fail(IllegalArgument(BlankAccountIdMessage))
    else if customer.None? then Fail(IllegalArgument(NullCustomerMessage))
    else if openingBalance < 0.0 then Fail(IllegalArgument(NegativeOpeningMessage))
    else Pass
  }

  /** An account: checking or savings, with its balance and the history of
      transactions appended to it. */
  class Account {
    const accountID: string
    const customer: Customer
    const createdAt: int
    var balance: real
    var kind: Kind
    var transactions: seq<Transaction>

    /** The money state that credit and debit act on. */
    function State(): Funds
      reads this
    {
      Funds(balance, kind)
    }

    ghost predicate Valid()
      reads this
    {
      ValidFunds(State())
    }

    constructor (accountID: string, customer: Customer, openingBalance: real, kind: Kind, now: int)
      requires OpeningValidation(Some(accountID), Some(customer), openingBalance).Pass?
      requires kind.Savings? ==> kind == Savings(0, MonthlyWithdrawalLimit)
      ensures Valid()
      ensures this.accountID == accountID && this.customer == customer && createdAt == now
      ensures balance == openingBalance && this.kind == kind && transactions == []
    {
      this.accountID := accountID;
      this.customer := customer;
      this.createdAt := now;
      balance := openingBalance;
      this.kind := kind;
      transactions := [];
    }

    /** new Check(...): Account's validation and nothing more. */
    static method NewCheck(accountID: Option<string>, customer: Option<Customer>, openingBalance: real, now: int)
      returns (r: Result<Account>)
      ensures r.Err? <==> OpeningValidation(accountID, customer, openingBalance).Fail?
      ensures r.Err? ==> r.error == OpeningValidation(accountID, customer, openingBalance).error
      ensures r.Ok? ==>
        fresh(r.value) && r.value.Valid()
        && r.value.accountID == accountID.value && r.value.customer == customer.value
        && r.value.State() == Funds(openingBalance, Checking) && r.value.transactions == []
    {
      var v := OpeningValidation(accountID, customer, openingBalance);
      if v.Fail? {
        return Err(v.error);
      }
      var a := new Account(accountID.value, customer.value, openingBalance, Checking, now);
      return Ok(a);
    }

    /** new Saving(...): Account's validation, then counter 0 and limit 5. */
    static method NewSaving(accountID: Option<string>, customer: Option<Customer>, openingBalance: real, now: int)
      returns (r: Result<Account>)
      ensures r.Err? <==> OpeningValidation(accountID, customer, openingBalance).Fail?
      ensures r.Err? ==> r.error == OpeningValidation(accountID, customer, openingBalance).error
      ensures r.Ok? ==>
        fresh(r.value) && r.value.Valid()
        && r.value.accountID == accountID.value && r.value.customer == customer.value
        && r.value.State() == Funds(openingBalance, Savings(0, MonthlyWithdrawalLimit))
        && r.value.transactions == []
    {
      var v := OpeningValidation(accountID, customer, openingBalance);
      if v.Fail? {
        return Err(v.error);
      }
      var a := new Account(accountID.value, customer.value, openingBalance, Savings(0, MonthlyWithdrawalLimit), now);
      return Ok(a);
    }

    /** getAccountType. */
    function AccountType(): (r: string)
      reads this
      ensures r == (if kind.Checking? then "CHECKING" else "SAVINGS")
    {
      match kind
      case Checking => "CHECKING"
      case Savings(_, _) => "SAVINGS"
    }

    /** getTransactions: a read-only view of the history. */
    method GetTransactions() returns (r: seq<Transaction>)
      ensures r == transactions
    {
      r := transactions;
    }

    /** addTransaction: appends a non-null transaction, ignores null. */
    method AddTransaction(t: Transaction?)
      modifies this`transactions
      ensures transactions == old(transactions) + (if t == null then [] else [t])
    {
      if t != null {
        transactions := transactions + [t];
      }
    }

    /** validateAmount. */
    method ValidateAmount(amount: real) returns (r: Outcome)
      ensures r == AmountValidation(amount)
    {
      if amount <= 0.0 {
        r := Fail(IllegalArgument(InvalidAmountMessage));
      } else {
        r := Pass;
      }
    }

    /** canDebit, dispatched on the variant; changes nothing. */
    method CanDebit(amount: real) returns (r: Result<bool>)
      ensures r == DebitAllowed(State(), amount)
    {
      var v := ValidateAmount(amount);
      if v.Fail? {
        return Err(v.error);
      }
      if kind.Savings? && kind.withdrawalCount >= kind.withdrawalLimit {
        return Ok(false);
      }
      return Ok(balance >= amount);
    }

    /** credit. */
    method Credit(amount: real) returns (r: Outcome)
      modifies this`balance
      ensures Follows(Credited(old(State()), amount), old(State()), r, State())
    {
      r := ValidateAmount(amount);
      if r.Pass? {
        balance := balance + amount;
      }
    }

    /** debit, dispatched on the variant. */
    method Debit(amount: real) returns (r: Outcome)
      modifies this`balance, this`kind
      ensures Follows(Debited(old(State()), amount), old(State()), r, State())
    {
      var allowed := CanDebit(amount);
      if allowed.Err? {
        return Fail(allowed.error);
      }
      if !allowed.value {
        var message := if kind.Checking? then AccountDebitRefusedMessage else SavingsDebitRefusedMessage;
        return Fail(IllegalArgument(message));
      }
      balance := balance - amount;
      if kind.Savings? {
        kind := Savings(kind.withdrawalCount + 1, kind.withdrawalLimit);
      }
      r := Pass;
    }

    /** Saving.applyMonthlyInterest. */
    method ApplyMonthlyInterest() returns (r: Outcome)
      requires kind.Savings?
      modifies this`balance
      ensures Follows(WithInterest(old(State())), old(State()), r, State())
    {
      var interest := balance * MonthlyInterestRate;
      r := Credit(interest);
    }

    /** Saving.resetMonthlyWithdrawalCount. */
    method ResetMonthlyWithdrawalCount()
      requires kind.Savings?
      modifies this`kind
      ensures kind == Savings(0, old(kind).withdrawalLimit)
    {
      kind := Savings(0, kind.withdrawalLimit);
    }

    /** Saving.setMonthlyWithdrawalCount. */
    method SetMonthlyWithdrawalCount(count: int)
      requires kind.Savings?
      modifies this`kind
      ensures kind == Savings(count, old(kind).withdrawalLimit)
    {
      kind := Savings(count, kind.withdrawalLimit);
    }
  }
}
