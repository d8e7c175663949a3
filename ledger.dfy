/**
 * Balances as a map from account id to account: crediting, debiting and
 * moving money between two accounts, and the total the bank holds.
 */
module Ledger {
  import opened AccountEntity

  /** The sum of all balances. */
  ghost function Total(m: map<int, Account>): int
    decreases |m|
  {
    if m.Keys == {} then 0
    else
      var k := Pick(m.Keys);
      m[k].balance + Total(m - {k})
  }

  /** Some element of a non-empty set. */
  ghost function Pick<T>(s: set<T>): (x: T)
    requires s != {}
    ensures x in s
  {
    var x :| x in s; x
  }

  /** `Total` may peel off any account, not only the one it picked. */
  lemma {:induction false} TotalRemove(m: map<int, Account>, k: int)
    requires k in m
    ensures Total(m) == m[k].balance + Total(m - {k})
    decreases |m|
  {
    var j := Pick(m.Keys);
    if j != k {
      assert (m - {j}) - {k} == (m - {k}) - {j};
      TotalRemove(m - {j}, k);
      TotalRemove(m - {k}, j);
    }
  }

  /** Replacing one account changes the total by the change in its balance. */
  lemma TotalUpdate(m: map<int, Account>, k: int, a: Account)
    requires k in m
    ensures Total(m[k := a]) == Total(m) - m[k].balance + a.balance
  {
    TotalRemove(m, k);
    TotalRemove(m[k := a], k);
    assert m[k := a] - {k} == m - {k};
  }

  /** `setBalance(getBalance() + amount)` on account `k`. */
  function Credit(m: map<int, Account>, k: int, amount: int): (r: map<int, Account>)
    requires k in m
    ensures r.Keys == m.Keys
    ensures r[k] == m[k].(balance := m[k].balance + amount)
    ensures forall j :: j in m && j != k ==> r[j] == m[j]
  {
    m[k := m[k].(balance := m[k].balance + amount)]
  }

  /** `setBalance(getBalance() - amount)` on account `k`. */
  function Debit(m: map<int, Account>, k: int, amount: int): (r: map<int, Account>)
    requires k in m
    ensures r.Keys == m.Keys
    ensures r[k] == m[k].(balance := m[k].balance - amount)
    ensures forall j :: j in m && j != k ==> r[j] == m[j]
  {
    m[k := m[k].(balance := m[k].balance - amount)]
  }

  lemma CreditTotal(m: map<int, Account>, k: int, amount: int)
    requires k in m
    ensures Total(Credit(m, k, amount)) == Total(m) + amount
  {
    TotalUpdate(m, k, m[k].(balance := m[k].balance + amount));
  }

  lemma DebitTotal(m: map<int, Account>, k: int, amount: int)
    requires k in m
    ensures Total(Debit(m, k, amount)) == Total(m) - amount
  {
    TotalUpdate(m, k, m[k].(balance := m[k].balance - amount));
  }

  /**
   * The sender is debited first and the receiver is then credited from the
   * balance as it stands after the debit, so sending to oneself nets zero.
   */
  function Transfer(m: map<int, Account>, from: int, to: int, amount: int): (r: map<int, Account>)
    requires from in m && to in m
  {
    Credit(Debit(m, from, amount), to, amount)
  }

  /**
   * A transfer between two different accounts moves exactly `amount` from
   * one balance to the other; a transfer to oneself changes nothing; no other
   * account is touched; the bank's total is the same afterwards.
   */
  lemma TransferEffect(m: map<int, Account>, from: int, to: int, amount: int)
    requires from in m && to in m
    ensures Transfer(m, from, to, amount).Keys == m.Keys
    ensures from != to ==> Transfer(m, from, to, amount)[from].balance == m[from].balance - amount
    ensures from != to ==> Transfer(m, from, to, amount)[to].balance == m[to].balance + amount
    ensures from == to ==> Transfer(m, from, to, amount) == m
    ensures forall j :: j in m && j != from && j != to ==> Transfer(m, from, to, amount)[j] == m[j]
    ensures Total(Transfer(m, from, to, amount)) == Total(m)
  {
    DebitTotal(m, from, amount);
    CreditTotal(Debit(m, from, amount), to, amount);
    if from == to {
      assert Transfer(m, from, to, amount)[from] == m[from];
      assert Transfer(m, from, to, amount) == m;
    }
  }
}
