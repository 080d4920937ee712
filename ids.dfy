/** Identifiers for transactions, recipients and e-transfer records. The
    source draws them from UUID.randomUUID() and relies on them never
    colliding; here they come from a counter, and freshness is proved. */
module Ids {

  function DigitChar(d: nat): char
    requires d < 10
  {
    ('0' as int + d) as char
  }

  /** The decimal digits of n, most significant first. */
  function Digits(n: nat): (r: string)
    ensures |r| >= 1
    ensures n >= 10 ==> |r| >= 2
  {
    if n < 10 then [DigitChar(n)] else Digits(n / 10) + [DigitChar(n % 10)]
  }

  /** The identifier issued for counter value n. */
  function Uid(n: nat): string
  {
    "uid-" + Digits(n)
  }

  /** Distinct numbers have distinct decimal spellings. */
  lemma {:induction false} DigitsInjective(m: nat, n: nat)
    requires Digits(m) == Digits(n)
    ensures m == n
  {
    if m >= 10 && n >= 10 {
      var a, b := Digits(m), Digits(n);
      assert a[|a| - 1] == b[|b| - 1];
      assert Digits(m / 10) == a[..|a| - 1];
      assert Digits(n / 10) == b[..|b| - 1];
      DigitsInjective(m / 10, n / 10);
    }
  }

  /** Distinct counter values give distinct identifiers. */
  lemma UidInjective(m: nat, n: nat)
    requires Uid(m) == Uid(n)
    ensures m == n
  {
    assert Digits(m) == Uid(m)[4..];
    assert Digits(n) == Uid(n)[4..];
    DigitsInjective(m, n);
  }

  /** No identifier the generator will still issue from `next` on is among
      `keys`. */
  ghost predicate Unissued(keys: set<string>, next: nat)
  {
    forall j: nat :: next <= j ==> Uid(j) !in keys
  }

  /** Issuing Uid(next) and moving the counter on keeps the store clear of
      every identifier still to come. */
  lemma IssueKeepsUnissued(keys: set<string>, next: nat)
    requires Unissued(keys, next)
    ensures Unissued(keys + {Uid(next)}, next + 1)
  {
    forall j: nat | next + 1 <= j ensures Uid(j) != Uid(next) {
      if Uid(j) == Uid(next) { UidInjective(j, next); }
    }
  }

  /** The stand-in for UUID.randomUUID(): a counter. */
  class IdGenerator {
    var next: nat

    constructor ()
      ensures next == 0
    {
      next := 0;
    }

    method Fresh() returns (id: string)
      modifies this
      ensures id == Uid(old(next)) && next == old(next) + 1
    {
      id := Uid(next);
      next := next + 1;
    }
  }
}
