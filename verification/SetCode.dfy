/** EIP-7702 authorizations, core/state_transition.go: an account lets its code point elsewhere.

A transaction carries a list of authorization tuples.  Each is checked against the state that the ones
before it left, and skipped if it does not fit.
*/
module SetCode {
  import opened Worlds
  import opened Options

  const CALL_NEW_ACCOUNT_GAS: nat := 25000
  const TX_AUTH_TUPLE_GAS: nat := 12500

  /** A tuple; `authority` is the account that its signature recovers to, if it recovers. */
  datatype Authorization = Authorization(chainId: nat, address: Address, nonce: Uint64, authority: Option<Address>)

  datatype Verdict =
    | Valid(authority: Address)
    | WrongChainId
    | NonceOverflow
    | InvalidSignature
    | DestinationHasCode
    | NonceMismatch

  /** validateAuthorization */
  function Validate(w: World, chainId: nat, auth: Authorization): (v: Verdict)
    ensures v.Valid? <==>
              && (auth.chainId == 0 || auth.chainId == chainId)
              && auth.nonce < MAX_UINT64
              && auth.authority.Some?
              && !w.Get(auth.authority.value).code.Contract?
              && w.Get(auth.authority.value).nonce == auth.nonce
    ensures v.Valid? ==> auth.authority == Some(v.authority)
  {
    if auth.chainId != 0 && auth.chainId != chainId then WrongChainId
    else if Wrap(auth.nonce + 1) < auth.nonce then NonceOverflow
    else if auth.authority.None? then InvalidSignature
    else
      var account := w.Get(auth.authority.value);
      if account.code.Contract? then DestinationHasCode
      else if account.nonce != auth.nonce then NonceMismatch
      else Valid(auth.authority.value)
  }

  /** What the tuple makes of the account's code; the zero address clears it. */
  function CodeOf(auth: Authorization): (c: Code)
  {
    if auth.address == 0 then NoCode else Delegation(auth.address)
  }

  /** applyAuthorization for a valid tuple. */
  function Apply(w: World, auth: Authorization, authority: Address): (r: World)
  {
    var refunded := if authority in w.accounts then w.(refund := w.refund + CALL_NEW_ACCOUNT_GAS - TX_AUTH_TUPLE_GAS)
                    else w;
    refunded.Put(authority, w.Get(authority).(nonce := auth.nonce + 1, code := CodeOf(auth)))
  }

  // ---------------------------------------------------------------- the whole list

  /** The tuples that take effect, in order. */
  function Effective(w: World, chainId: nat, auths: seq<Authorization>): (applied: seq<Authorization>)
    decreases |auths|
  {
    if auths == [] then []
    else
      var v := Validate(w, chainId, auths[0]);
      if v.Valid? then [auths[0]] + Effective(Apply(w, auths[0], v.authority), chainId, auths[1..])
      else Effective(w, chainId, auths[1..])
  }

  function ApplyAll(w: World, chainId: nat, auths: seq<Authorization>): (r: World)
    decreases |auths|
  {
    if auths == [] then w
    else
      var v := Validate(w, chainId, auths[0]);
      ApplyAll(if v.Valid? then Apply(w, auths[0], v.authority) else w, chainId, auths[1..])
  }

  /** The loop over the list. */
  method ApplyAuthorizations(w: World, chainId: nat, auths: seq<Authorization>) returns (r: World)
    ensures r == ApplyAll(w, chainId, auths)
  {
    r := w;
    for i := 0 to |auths|
      invariant ApplyAll(r, chainId, auths[i..]) == ApplyAll(w, chainId, auths)
    {
      assert auths[i..][0] == auths[i] && auths[i..][1..] == auths[i + 1..];
      var v := Validate(r, chainId, auths[i]);
      if v.Valid? {
        r := Apply(r, auths[i], v.authority);
      }
    }
  }

  /** How many of the tuples are `a`'s. */
  function Uses(applied: seq<Authorization>, a: Address): (n: nat)
    decreases |applied|
  {
    if applied == [] then 0
    else (if applied[0].authority == Some(a) then 1 else 0) + Uses(applied[1..], a)
  }

  lemma {:induction false} UsesSplit(applied: seq<Authorization>, n: nat, a: Address)
    requires n <= |applied|
    ensures Uses(applied, a) == Uses(applied[..n], a) + Uses(applied[n..], a)
    decreases n
  {
    if 0 < n {
      UsesSplit(applied[1..], n - 1, a);
      assert applied[..n][1..] == applied[1..][..n - 1] && applied[n..] == applied[1..][n - 1..];
    } else {
      assert applied[..n] == [] && applied[n..] == applied;
    }
  }

  /** Every account's nonce grows by one per tuple of its own that takes effect. */
  lemma {:induction false} NonceCounts(w: World, chainId: nat, auths: seq<Authorization>, a: Address)
    ensures ApplyAll(w, chainId, auths).Get(a).nonce == w.Get(a).nonce + Uses(Effective(w, chainId, auths), a)
    decreases |auths|
  {
    if auths != [] {
      var v := Validate(w, chainId, auths[0]);
      var next := if v.Valid? then Apply(w, auths[0], v.authority) else w;
      NonceCounts(next, chainId, auths[1..], a);
      if v.Valid? {
        assert Effective(w, chainId, auths)[1..] == Effective(next, chainId, auths[1..]);
      }
    }
  }

  /** The tuples of one account that take effect use consecutive nonces, starting at the account's own. */
  lemma {:induction false} ConsecutiveNonces(w: World, chainId: nat, auths: seq<Authorization>, i: nat)
    requires i < |Effective(w, chainId, auths)|
    ensures var applied := Effective(w, chainId, auths);
            applied[i].authority.Some? &&
            applied[i].nonce == w.Get(applied[i].authority.value).nonce + Uses(applied[..i], applied[i].authority.value)
    decreases |auths|
  {
    var applied := Effective(w, chainId, auths);
    var v := Validate(w, chainId, auths[0]);
    if !v.Valid? {
      ConsecutiveNonces(w, chainId, auths[1..], i);
    } else if 0 < i {
      var next := Apply(w, auths[0], v.authority);
      ConsecutiveNonces(next, chainId, auths[1..], i - 1);
      assert applied[1..] == Effective(next, chainId, auths[1..]);
      assert applied[..i][1..] == applied[1..][..i - 1];
    }
  }

  /** So no tuple takes effect twice. */
  lemma NoReplay(w: World, chainId: nat, auths: seq<Authorization>, i: nat, j: nat)
    requires i < j < |Effective(w, chainId, auths)|
    ensures Effective(w, chainId, auths)[i] != Effective(w, chainId, auths)[j]
  {
    var applied := Effective(w, chainId, auths);
    ConsecutiveNonces(w, chainId, auths, i);
    ConsecutiveNonces(w, chainId, auths, j);
    var a := applied[i].authority.value;
    UsesSplit(applied[..j], i, a);
    assert applied[..j][..i] == applied[..i] && applied[..j][i..][0] == applied[i];
    assert 0 < Uses(applied[..j][i..], a);
  }

  /** The last of the tuples that is `a`'s. */
  function LastOf(applied: seq<Authorization>, a: Address): (r: Option<Authorization>)
    decreases |applied|
  {
    if applied == [] then None
    else
      var rest := LastOf(applied[1..], a);
      if rest.Some? then rest else if applied[0].authority == Some(a) then Some(applied[0]) else None
  }

  /** An account's final code is set by its last tuple that takes effect; without one the account is untouched,
      and in particular an account with contract code is.  No balance changes. */
  lemma {:induction false} FinalAccount(w: World, chainId: nat, auths: seq<Authorization>, a: Address)
    ensures var r, last := ApplyAll(w, chainId, auths), LastOf(Effective(w, chainId, auths), a);
            && r.Get(a).balance == w.Get(a).balance
            && (last.Some? ==>
                  r.Get(a).code == if last.value.address == 0 then NoCode else Delegation(last.value.address))
            && (last.None? ==> r.Get(a) == w.Get(a))
            && (w.Get(a).code.Contract? ==> last.None?)
    decreases |auths|
  {
    if auths != [] {
      var v := Validate(w, chainId, auths[0]);
      var next := if v.Valid? then Apply(w, auths[0], v.authority) else w;
      FinalAccount(next, chainId, auths[1..], a);
      if v.Valid? {
        assert Effective(w, chainId, auths)[1..] == Effective(next, chainId, auths[1..]);
      }
    }
  }

  /** How many of the tuples find their account there: among `known`, or made by one before them. */
  function Existed(known: set<Address>, applied: seq<Authorization>): (n: nat)
    ensures n <= |applied|
    decreases |applied|
  {
    if applied == [] || applied[0].authority.None? then 0
    else
      var a := applied[0].authority.value;
      (if a in known then 1 else 0) + Existed(known + {a}, applied[1..])
  }

  /** The refund grows by the price difference for exactly the tuples that take effect on an account that exists. */
  lemma {:induction false} RefundGrowth(w: World, chainId: nat, auths: seq<Authorization>)
    ensures var found := Existed(w.accounts.Keys, Effective(w, chainId, auths));
            ApplyAll(w, chainId, auths).refund == w.refund + (CALL_NEW_ACCOUNT_GAS - TX_AUTH_TUPLE_GAS) * found
    decreases |auths|
  {
    if auths != [] {
      var v := Validate(w, chainId, auths[0]);
      var next := if v.Valid? then Apply(w, auths[0], v.authority) else w;
      RefundGrowth(next, chainId, auths[1..]);
      if v.Valid? {
        assert Effective(w, chainId, auths)[1..] == Effective(next, chainId, auths[1..]);
        assert next.accounts.Keys == w.accounts.Keys + {v.authority};
      }
    }
  }

  /** Authorizations move no money. */
  lemma {:induction false} TotalUnchanged(w: World, chainId: nat, auths: seq<Authorization>)
    ensures Total(ApplyAll(w, chainId, auths).accounts) == Total(w.accounts)
    decreases |auths|
  {
    if auths != [] {
      var v := Validate(w, chainId, auths[0]);
      if v.Valid? {
        var next := Apply(w, auths[0], v.authority);
        TotalPut(w, v.authority, next.Get(v.authority));
        assert next.accounts == w.Put(v.authority, next.Get(v.authority)).accounts;
        TotalUnchanged(next, chainId, auths[1..]);
      } else {
        TotalUnchanged(w, chainId, auths[1..]);
      }
    }
  }
}
