/** The in-memory repositories: hash maps from identifier to entity, with
    queries that scan the stored values. */
module Repos {
  import opened Common
  import opened Ledger
  import opened Recipients
  import opened ETransferRecords

  /** No value is stored under two keys. */
  ghost predicate Injective<V>(m: map<string, V>)
  {
    forall k1, k2 :: k1 in m && k2 in m && m[k1] == m[k2] ==> k1 == k2
  }

  /** The values of `m` that satisfy `keep`, in some order: exactly those,
      and, when no value is stored twice, each of them once. This is the
      loop over `values()` shared by every query. */
  method CollectValues<V(==)>(m: map<string, V>, keep: V -> bool) returns (r: seq<V>)
    ensures forall v :: v in r <==> v in m.Values && keep(v)
    ensures Injective(m) ==> NoDuplicates(r)
  {
    r := [];
    var rest := m.Keys;
    ghost var ks: seq<string> := [];
    while rest != {}
      invariant rest <= m.Keys && |ks| == |r|
      invariant forall i :: 0 <= i < |r| ==> ks[i] in m && ks[i] !in rest && r[i] == m[ks[i]] && keep(r[i])
      invariant forall k :: k in m && k !in rest && keep(m[k]) ==> m[k] in r
      invariant NoDuplicates(ks)
      decreases |rest|
    {
      var k :| k in rest;
      if keep(m[k]) {
        AppendFresh(ks, k);
        r := r + [m[k]];
        ks := ks + [k];
      }
      rest := rest - {k};
    }
    forall v | v in m.Values && keep(v) ensures v in r {
      var k :| k in m && m[k] == v;
    }
    if Injective(m) {
      forall i, j | 0 <= i < j < |r| ensures r[i] != r[j] {
        assert ks[i] != ks[j];
      }
    }
  }

  /** Appending a key not yet in a list without repeats keeps it so. */
  lemma AppendFresh(ks: seq<string>, k: string)
    requires NoDuplicates(ks) && k !in ks
    ensures NoDuplicates(ks + [k])
  {
  }

  const NullAccountMessage := "Account should not be null"
  const NullTransactionMessage := "Transaction should not be null"
  const NullRecipientMessage := "recipient must not be null"
  const NullETransferMessage := "eTransfer must not be null"

  /** InMemoryAccountRepo: accounts keyed by their account ID. */
  class AccountRepo {
    var accounts: map<string, Account>

    /** Every account is stored under its own ID. */
    ghost predicate Valid()
      reads this
    {
      forall k :: k in accounts ==> accounts[k].accountID == k
    }

    constructor ()
      ensures Valid() && accounts == map[]
    {
      accounts := map[];
    }

    /** findByID: null for a null ID or an unknown one. */
    function FindByID(accountID: Option<string>): (r: Account?)
      reads this
      ensures accountID.None? ==> r == null
      ensures accountID.Some? ==> (r != null <==> accountID.value in accounts)
      ensures r != null ==> r == accounts[accountID.value]
      ensures r != null && Valid() ==> r.accountID == accountID.value
    {
      if accountID.None? || accountID.value !in accounts then null else accounts[accountID.value]
    }

    /** save: refuses null; otherwise maps the account's ID to it,
        replacing any earlier entry, and touches no other key. */
    method Save(account: Account?) returns (r: Outcome)
      modifies this
      ensures account == null ==> r == Fail(IllegalArgument(NullAccountMessage)) && accounts == old(accounts)
      ensures account != null ==> r == Pass && accounts == old(accounts)[account.accountID := account]
      ensures account != null ==> FindByID(Some(account.accountID)) == account
      ensures old(Valid()) ==> Valid()
    {
      if account == null {
        return Fail(IllegalArgument(NullAccountMessage));
      }
      accounts := accounts[account.accountID := account];
      r := Pass;
    }

    /** findByCustomer: exactly the stored accounts of that customer, each
        once; nothing for a null customer. */
    method FindByCustomer(customer: Option<Customer>) returns (r: seq<Account>)
      requires Valid()
      ensures customer.None? ==> r == []
      ensures forall a :: a in r <==> customer.Some? && a in accounts.Values && a.customer == customer.value
      ensures NoDuplicates(r)
    {
      if customer.None? {
        return [];
      }
      var c := customer.value;
      r := CollectValues(accounts, (a: Account) => a.customer == c);
    }

    /** findAll: every stored account, each once. */
    method FindAll() returns (r: seq<Account>)
      requires Valid()
      ensures forall a :: a in r <==> a in accounts.Values
      ensures NoDuplicates(r)
    {
      r := CollectValues(accounts, (a: Account) => true);
    }
  }

  /** InMemoryTransactionRepo: transactions keyed by their ID. */
  class TransactionRepo {
    var transactions: map<string, Transaction>

    /** Every transaction is stored under its own ID. */
    ghost predicate Valid()
      reads this
    {
      forall k :: k in transactions ==> transactions[k].id == k
    }

    constructor ()
      ensures Valid() && transactions == map[]
    {
      transactions := map[];
    }

    /** findByID: null for a null ID or an unknown one. */
    function FindByID(id: Option<string>): (r: Transaction?)
      reads this
      ensures id.None? ==> r == null
      ensures id.Some? ==> (r != null <==> id.value in transactions)
      ensures r != null ==> r == transactions[id.value]
    {
      if id.None? || id.value !in transactions then null else transactions[id.value]
    }

    /** save: refuses null; otherwise maps the transaction's ID to it. */
    method Save(transaction: Transaction?) returns (r: Outcome)
      modifies this
      ensures transaction == null ==>
        r == Fail(IllegalArgument(NullTransactionMessage)) && transactions == old(transactions)
      ensures transaction != null ==> r == Pass && transactions == old(transactions)[transaction.id := transaction]
      ensures transaction != null ==> FindByID(Some(transaction.id)) == transaction
      ensures old(Valid()) ==> Valid()
    {
      if transaction == null {
        return Fail(IllegalArgument(NullTransactionMessage));
      }
      transactions := transactions[transaction.id := transaction];
      r := Pass;
    }

    /** findByAccount: exactly the stored transactions whose source or
        destination is that very account, each once. */
    method FindByAccount(account: Account?) returns (r: seq<Transaction>)
      requires Valid()
      ensures account == null ==> r == []
      ensures forall t :: t in r <==>
        account != null && t in transactions.Values
        && (t.sourceAccount == account || t.destinationAccount == account)
      ensures NoDuplicates(r)
    {
      if account == null {
        return [];
      }
      r := CollectValues(transactions, (t: Transaction) => t.sourceAccount == account || t.destinationAccount == account);
    }

    /** findAll: every stored transaction, each once. */
    method FindAll() returns (r: seq<Transaction>)
      requires Valid()
      ensures forall t :: t in r <==> t in transactions.Values
      ensures NoDuplicates(r)
    {
      r := CollectValues(transactions, (t: Transaction) => true);
    }

    /** findByCustomerAndDateRange: the stored transactions initiated by the
        customer whose creation time lies in [from, to], both ends included;
        nothing when any argument is null. */
    method FindByCustomerAndDateRange(customer: Option<Customer>, from: Option<int>, to: Option<int>)
      returns (r: seq<Transaction>)
      requires Valid()
      ensures customer.None? || from.None? || to.None? ==> r == []
      ensures forall t :: t in r <==>
        customer.Some? && from.Some? && to.Some? && t in transactions.Values
        && t.initiatedBy == customer.value && from.value <= t.createdAt <= to.value
      ensures NoDuplicates(r)
    {
      if customer.None? || from.None? || to.None? {
        return [];
      }
      var c, lo, hi := customer.value, from.value, to.value;
      r := CollectValues(transactions, (t: Transaction) => t.initiatedBy == c && lo <= t.createdAt <= hi);
    }
  }

  /** InMemoryRecipientRepo: recipients keyed by their ID. */
  class RecipientRepo {
    var recipients: map<string, Recipient>

    /** Every recipient is stored under its own ID. */
    ghost predicate Valid()
      reads this
    {
      forall k :: k in recipients ==> recipients[k].id == k
    }

    constructor ()
      ensures Valid() && recipients == map[]
    {
      recipients := map[];
    }

    /** save: refuses null; otherwise maps the recipient's ID to it. */
    method Save(recipient: Recipient?) returns (r: Outcome)
      modifies this
      ensures recipient == null ==>
        r == Fail(IllegalArgument(NullRecipientMessage)) && recipients == old(recipients)
      ensures recipient != null ==> r == Pass && recipients == old(recipients)[recipient.id := recipient]
      ensures recipient != null ==> FindByID(Some(recipient.id)) == recipient
      ensures old(Valid()) ==> Valid()
    {
      if recipient == null {
        return Fail(IllegalArgument(NullRecipientMessage));
      }
      recipients := recipients[recipient.id := recipient];
      r := Pass;
    }

    /** findByID: null for a null ID or an unknown one. */
    function FindByID(id: Option<string>): (r: Recipient?)
      reads this
      ensures id.None? ==> r == null
      ensures id.Some? ==> (r != null <==> id.value in recipients)
      ensures r != null ==> r == recipients[id.value]
      ensures r != null && Valid() ==> r.id == id.value
    {
      if id.None? || id.value !in recipients then null else recipients[id.value]
    }

    /** findByOwner: exactly the stored recipients owned by that customer,
        each once; nothing for a null owner. */
    method FindByOwner(owner: Option<Customer>) returns (r: seq<Recipient>)
      requires Valid()
      ensures owner.None? ==> r == []
      ensures forall p :: p in r <==> owner.Some? && p in recipients.Values && p.IsOwnedBy(owner)
      ensures NoDuplicates(r)
    {
      if owner.None? {
        return [];
      }
      r := CollectValues(recipients, (p: Recipient) => p.IsOwnedBy(owner));
    }

    /** delete: removes the recipient's key and no other; null is ignored. */
    method Delete(recipient: Recipient?)
      modifies this
      ensures recipient == null ==> recipients == old(recipients)
      ensures recipient != null ==> recipients == old(recipients) - {recipient.id}
      ensures recipient != null ==> FindByID(Some(recipient.id)) == null
      ensures old(Valid()) ==> Valid()
    {
      if recipient != null {
        recipients := recipients - {recipient.id};
      }
    }

    /** findAll: every stored recipient, each once. */
    method FindAll() returns (r: seq<Recipient>)
      requires Valid()
      ensures forall p :: p in r <==> p in recipients.Values
      ensures NoDuplicates(r)
    {
      r := CollectValues(recipients, (p: Recipient) => true);
    }
  }

  /** InMemoryETransferRepo: e-transfer records keyed by their ID. */
  class ETransferRepo {
    var eTransfers: map<string, ETransferData>

    /** Every record is stored under its own ID. */
    ghost predicate Valid()
      reads this
    {
      forall k :: k in eTransfers ==> eTransfers[k].id == k
    }

    constructor ()
      ensures Valid() && eTransfers == map[]
    {
      eTransfers := map[];
    }

    /** save: refuses null; otherwise maps the record's ID to it. */
    method Save(eTransfer: ETransferData?) returns (r: Outcome)
      modifies this
      ensures eTransfer == null ==>
        r == Fail(IllegalArgument(NullETransferMessage)) && eTransfers == old(eTransfers)
      ensures eTransfer != null ==> r == Pass && eTransfers == old(eTransfers)[eTransfer.id := eTransfer]
      ensures eTransfer != null ==> FindByID(Some(eTransfer.id)) == eTransfer
      ensures old(Valid()) ==> Valid()
    {
      if eTransfer == null {
        return Fail(IllegalArgument(NullETransferMessage));
      }
      eTransfers := eTransfers[eTransfer.id := eTransfer];
      r := Pass;
    }

    /** findByID: null for a null ID or an unknown one. */
    function FindByID(id: Option<string>): (r: ETransferData?)
      reads this
      ensures id.None? ==> r == null
      ensures id.Some? ==> (r != null <==> id.value in eTransfers)
      ensures r != null ==> r == eTransfers[id.value]
    {
      if id.None? || id.value !in eTransfers then null else eTransfers[id.value]
    }

    /** findByCustomer: exactly the records whose transaction the customer
        initiated, each once; nothing for a null customer. */
    method FindByCustomer(customer: Option<Customer>) returns (r: seq<ETransferData>)
      requires Valid()
      ensures customer.None? ==> r == []
      ensures forall e :: e in r <==>
        customer.Some? && e in eTransfers.Values && e.transaction.initiatedBy == customer.value
      ensures NoDuplicates(r)
    {
      if customer.None? {
        return [];
      }
      var c := customer.value;
      r := CollectValues(eTransfers, (e: ETransferData) => e.transaction.initiatedBy == c);
    }

    /** findByRecipient: exactly the records sent to that very recipient,
        each once; nothing for a null recipient. */
    method FindByRecipient(recipient: Recipient?) returns (r: seq<ETransferData>)
      requires Valid()
      ensures recipient == null ==> r == []
      ensures forall e :: e in r <==> recipient != null && e in eTransfers.Values && e.recipient == recipient
      ensures NoDuplicates(r)
    {
      if recipient == null {
        return [];
      }
      r := CollectValues(eTransfers, (e: ETransferData) => e.recipient == recipient);
    }

    /** findAll: every stored record, each once. */
    method FindAll() returns (r: seq<ETransferData>)
      requires Valid()
      ensures forall e :: e in r <==> e in eTransfers.Values
      ensures NoDuplicates(r)
    {
      r := CollectValues(eTransfers, (e: ETransferData) => true);
    }
  }
}
