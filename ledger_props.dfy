/** Properties of the account debit policy, proved on the abstract money
    state that every Account method is tied to. */
module LedgerProps {
  import opened Common
  import opened Ledger

  function Sum(amounts: seq<real>): real
  {
    if amounts == [] then 0.0 else amounts[0] + Sum(amounts[1..])
  }

  /** A run of debits, one after the other, stopping at the first refusal. */
  function DebitAll(f: Funds, amounts: seq<real>): Result<Funds>
    decreases |amounts|
  {
    if amounts == [] then Ok(f)
    else match Debited(f, amounts[0])
      case Err(e) => Err(e)
      case Ok(g) => DebitAll(g, amounts[1..])
  }

  /** The funds a new savings account starts with. */
  function OpenedSavings(openingBalance: real): Funds
  {
    Funds(openingBalance, Savings(0, MonthlyWithdrawalLimit))
  }

  /** canDebit answering true means debit goes through: the catch branches
      after a successful canDebit in the transfer services cannot run. */
  lemma DebitAfterCanDebit(f: Funds, amount: real)
    requires DebitAllowed(f, amount) == Ok(true)
    ensures Debited(f, amount).Ok?
  {
  }

  /** A debit is allowed exactly when the amount is positive, the balance
      covers it, and (savings) the monthly count is below its limit; on a
      valid account it never drives the balance negative. */
  lemma DebitPolicy(f: Funds, amount: real)
    requires ValidFunds(f)
    ensures Debited(f, amount).Ok? <==>
      amount > 0.0 && f.balance >= amount
      && (f.kind.Savings? ==> f.kind.withdrawalCount < MonthlyWithdrawalLimit)
    ensures Debited(f, amount).Ok? ==> Debited(f, amount).value.balance >= 0.0
  {
  }

  /** A checking account has no count and no per-debit cap: every amount
      its balance covers can be debited, and only the balance changes. */
  lemma CheckingDebitOnlyBalance(balance: real, amount: real)
    requires 0.0 < amount <= balance
    ensures Debited(Funds(balance, Checking), amount) == Ok(Funds(balance - amount, Checking))
  {
  }

  /** On a savings account at (or past) its limit canDebit is false
      whatever the balance. */
  lemma SavingsCapRefuses(f: Funds, amount: real)
    requires f.kind.Savings? && f.kind.withdrawalCount >= f.kind.withdrawalLimit && amount > 0.0
    ensures DebitAllowed(f, amount) == Ok(false)
    ensures Debited(f, amount) == Err(IllegalArgument(SavingsDebitRefusedMessage))
  {
  }

  /** A refused savings debit leaves balance and counter alone, and a
      successful one lowers the balance by the amount and counts one. */
  lemma SavingsDebitEffect(balance: real, count: int, limit: int, amount: real)
    requires amount > 0.0
    ensures var r := Debited(Funds(balance, Savings(count, limit)), amount);
      if count < limit && balance >= amount
      then r == Ok(Funds(balance - amount, Savings(count + 1, limit)))
      else r.Err?
  {
  }

  /** A run of successful debits lowers the balance by their sum, keeps the
      variant and adds one withdrawal per debit to a savings counter. */
  lemma {:induction false} DebitAllEffect(f: Funds, amounts: seq<real>)
    requires DebitAll(f, amounts).Ok?
    ensures DebitAll(f, amounts).value.balance == f.balance - Sum(amounts)
    ensures DebitAll(f, amounts).value.kind.Savings? == f.kind.Savings?
    ensures f.kind.Savings? ==>
      DebitAll(f, amounts).value.kind == Savings(f.kind.withdrawalCount + |amounts|, f.kind.withdrawalLimit)
    ensures ValidFunds(f) ==> ValidFunds(DebitAll(f, amounts).value)
    decreases |amounts|
  {
    if amounts != [] {
      var g := Debited(f, amounts[0]).value;
      DebitAllEffect(g, amounts[1..]);
    }
  }

  /** From a fresh savings account, five successful debits exhaust the
      month: every further debit is refused, whatever the balance. */
  lemma FifthWithdrawalExhaustsMonth(openingBalance: real, amounts: seq<real>, next: real)
    requires |amounts| == 5 && DebitAll(OpenedSavings(openingBalance), amounts).Ok?
    requires next > 0.0
    ensures DebitAllowed(DebitAll(OpenedSavings(openingBalance), amounts).value, next) == Ok(false)
  {
    DebitAllEffect(OpenedSavings(openingBalance), amounts);
  }

  /** Resetting the monthly count makes canDebit depend on the balance
      alone again. */
  lemma ResetRestoresWithdrawals(f: Funds, amount: real)
    requires f.kind.Savings? && f.kind.withdrawalLimit == MonthlyWithdrawalLimit && amount > 0.0
    ensures DebitAllowed(Funds(f.balance, Savings(0, f.kind.withdrawalLimit)), amount) == Ok(f.balance >= amount)
  {
  }

  /** Debit undoes credit on a checking account. */
  lemma CreditThenDebitChecking(balance: real, amount: real)
    requires balance >= 0.0 && amount > 0.0
    ensures Credited(Funds(balance, Checking), amount).Ok?
    ensures Debited(Credited(Funds(balance, Checking), amount).value, amount) == Ok(Funds(balance, Checking))
  {
  }

  /** Interest on an empty savings account is zero, which credit refuses. */
  lemma InterestOnZeroBalanceFails(count: int, limit: int)
    ensures WithInterest(Funds(0.0, Savings(count, limit))) == Err(IllegalArgument(InvalidAmountMessage))
  {
  }
}
