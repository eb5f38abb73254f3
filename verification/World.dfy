/** The account state that transactions act on, as far as core/state_transition.go looks at it. */
module Worlds {
  type Address = nat

  const MAX_UINT64: nat := 0xffff_ffff_ffff_ffff

  type Uint64 = n: nat | n <= MAX_UINT64

  /** Unsigned 64-bit arithmetic wraps around. */
  function Wrap(x: int): (r: Uint64)
  {
    x % (MAX_UINT64 + 1)
  }

  /** Account code: none, an EIP-7702 delegation designator, or anything else. */
  datatype Code = NoCode | Delegation(target: Address) | Contract(id: nat)

  datatype Account = Account(balance: int, nonce: nat, code: Code)

  const EMPTY := Account(0, 0, NoCode)

  /** The accounts and the refund counter of the running transaction. */
  datatype World = World(accounts: map<Address, Account>, refund: nat) {

    function Get(a: Address): (r: Account)
    {
      if a in accounts then accounts[a] else EMPTY
    }

    function Put(a: Address, account: Account): (w: World)
    {
      this.(accounts := accounts[a := account])
    }

    function Balance(a: Address): (r: int)
    {
      Get(a).balance
    }

    /** AddBalance; a negative amount is SubBalance. */
    function Credit(a: Address, amount: int): (w: World)
    {
      Put(a, Get(a).(balance := Get(a).balance + amount))
    }
  }

  /** The money in the world. */
  ghost function Total(accounts: map<Address, Account>): (sum: int)
    decreases |accounts|
  {
    if accounts == map[] then 0
    else
      var a :| a in accounts;
      accounts[a].balance + Total(accounts - {a})
  }

  lemma {:induction false} TotalSplit(accounts: map<Address, Account>, a: Address)
    requires a in accounts
    ensures Total(accounts) == accounts[a].balance + Total(accounts - {a})
    decreases |accounts|
  {
    var b :| b in accounts && Total(accounts) == accounts[b].balance + Total(accounts - {b});
    if a != b {
      TotalSplit(accounts - {b}, a);
      TotalSplit(accounts - {a}, b);
      assert accounts - {b} - {a} == accounts - {a} - {b};
    }
  }

  lemma TotalPut(w: World, a: Address, account: Account)
    ensures Total(w.Put(a, account).accounts) == Total(w.accounts) - w.Balance(a) + account.balance
  {
    var r := w.Put(a, account);
    TotalSplit(r.accounts, a);
    if a in w.accounts {
      TotalSplit(w.accounts, a);
      assert r.accounts - {a} == w.accounts - {a};
    } else {
      assert r.accounts - {a} == w.accounts;
    }
  }

  /** Crediting an account adds the amount to the total, whoever else the account may be. */
  lemma TotalCredit(w: World, a: Address, amount: int)
    ensures Total(w.Credit(a, amount).accounts) == Total(w.accounts) + amount
  {
    TotalPut(w, a, w.Get(a).(balance := w.Get(a).balance + amount));
  }
}
