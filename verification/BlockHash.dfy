/** core/evm.go, GetHashFn: the memoised lookup behind BLOCKHASH. */
module BlockHashes {
  import opened HeaderTree
  import opened Worlds
  import opened Options

  /** ChainContext.GetHeader */
  type Chain = (Hash, Uint64) -> Option<Header>

  /** A header found under a number has that number, and no block has the last number of all. */
  ghost predicate Numbered(chain: Chain)
  {
    && (forall h, n :: chain(h, n).Some? ==> chain(h, n).value.number == n)
    && (forall h :: chain(h, MAX_UINT64).None?)
  }

  /** Subtraction of 64-bit numbers. */
  function Minus(a: Uint64, b: Uint64): (r: Uint64)
  {
    if b <= a then a - b else a + (MAX_UINT64 - b) + 1
  }

  function Height(number: Uint64): (h: nat)
  {
    if number == MAX_UINT64 then 0 else number + 1
  }

  /** The plain walk from the header `hash` numbered `number` down to `n`. */
  ghost function Walk(chain: Chain, hash: Hash, number: Uint64, n: Uint64): (r: Hash)
    requires Numbered(chain)
    decreases Height(number)
  {
    if n == number then hash
    else
      var header := chain(hash, number);
      if header.None? then NO_HASH else Walk(chain, header.value.parentHash, Minus(number, 1), n)
  }

  /** Of a chain in a header tree the walk finds the block at number `n` of the path. */
  lemma {:induction false} WalkIsPath(t: Tree, chain: Chain, k: Hash, n: nat)
    requires Numbered(chain) && t.Rooted() && k in t.headers && n <= t.headers[k].number < MAX_UINT64
    requires forall j :: j in t.headers && t.headers[j].number < MAX_UINT64 ==>
                           chain(j, t.headers[j].number) == Some(t.headers[j])
    ensures Walk(chain, k, t.headers[k].number, n) == t.Path(k)[n]
    decreases t.headers[k].number
  {
    assert t.Anchored(k);
    if n < t.headers[k].number {
      WalkIsPath(t, chain, t.headers[k].parentHash, n);
    }
  }

  /** The number of the ancestor in slot `i` of the cache of a block numbered `number`. */
  function Slot(number: Uint64, i: Uint64): (r: Uint64)
  {
    Minus(Minus(number, 1), i)
  }

  ghost predicate Linked(chain: Chain, number: Uint64, cache: seq<Hash>, i: nat)
    requires i + 1 < |cache| <= MAX_UINT64
  {
    var header := chain(cache[i], Slot(number, i));
    header.Some? && header.value.parentHash == cache[i + 1]
  }

  /** Slot `i` holds the ancestor numbered ref - 1 - i. */
  ghost predicate Cached(chain: Chain, number: Uint64, parent: Hash, cache: seq<Hash>)
  {
    && 0 < |cache| <= number + 1 && |cache| <= MAX_UINT64
    && cache[0] == parent
    && (forall i :: 0 <= i < |cache| - 1 ==> Linked(chain, number, cache, i))
  }

  /** Where the plain walk stands after `i` steps. */
  lemma {:induction false} WalkFrom(chain: Chain, number: Uint64, parent: Hash, cache: seq<Hash>, i: nat, n: Uint64)
    requires Numbered(chain) && Cached(chain, number, parent, cache)
    requires i < |cache| && i <= Minus(Minus(number, n), 1)
    ensures Walk(chain, parent, Minus(number, 1), n) == Walk(chain, cache[i], Slot(number, i), n)
  {
    if 0 < i {
      WalkFrom(chain, number, parent, cache, i - 1, n);
      assert Linked(chain, number, cache, i - 1);
    }
  }

  lemma CachedNext(chain: Chain, number: Uint64, parent: Hash, cache: seq<Hash>)
    requires Numbered(chain) && Cached(chain, number, parent, cache) && number < MAX_UINT64
    ensures var header := chain(cache[|cache| - 1], Slot(number, |cache| - 1));
            header.Some? ==> Cached(chain, number, parent, cache + [header.value.parentHash])
  {
    var last := |cache| - 1;
    var header := chain(cache[last], Slot(number, last));
    if header.Some? {
      assert Slot(number, last) != MAX_UINT64;
      var next := cache + [header.value.parentHash];
      forall i | 0 <= i < |next| - 1
        ensures Linked(chain, number, next, i)
      {
        if i < last { assert Linked(chain, number, cache, i); }
      }
    }
  }

  /** The walk from the last slot, filling the cache on its way. */
  method Extend(chain: Chain, number: Uint64, parent: Hash, cache: seq<Hash>, n: Uint64)
      returns (r: Hash, filled: seq<Hash>)
    requires Numbered(chain) && Cached(chain, number, parent, cache) && number < MAX_UINT64
    requires |cache| <= Minus(Minus(number, n), 1)
    ensures Cached(chain, number, parent, filled) && cache <= filled
    ensures r == Walk(chain, parent, Minus(number, 1), n)
  {
    filled := cache;
    var lastKnownHash := cache[|cache| - 1];
    var lastKnownNumber := Minus(number, |cache|);
    WalkFrom(chain, number, parent, cache, |cache| - 1, n);
    while true
      invariant Cached(chain, number, parent, filled) && cache <= filled && |filled| <= Minus(Minus(number, n), 1)
      invariant lastKnownHash == filled[|filled| - 1] && lastKnownNumber == Slot(number, |filled| - 1)
      invariant Walk(chain, parent, Minus(number, 1), n) == Walk(chain, lastKnownHash, lastKnownNumber, n)
      decreases Height(lastKnownNumber)
    {
      var header := chain(lastKnownHash, lastKnownNumber);
      if header.None? { break; }
      CachedNext(chain, number, parent, filled);
      filled := filled + [header.value.parentHash];
      lastKnownHash := header.value.parentHash;
      lastKnownNumber := Minus(header.value.number, 1);
      if n == lastKnownNumber {
        return lastKnownHash, filled;
      }
    }
    return NO_HASH, filled;
  }

  class HashFn {
    const ref: Header
    const chain: Chain
    var cache: seq<Hash>

    ghost predicate Valid()
      reads this
    {
      && Numbered(chain) && ref.number < MAX_UINT64
      && (cache != [] ==> Cached(chain, ref.number, ref.parentHash, cache))
    }

    constructor (ref: Header, chain: Chain)
      requires ref.number < MAX_UINT64 && Numbered(chain)
      ensures Valid() && this.ref == ref && this.chain == chain
    {
      this.ref, this.chain, cache := ref, chain, [];
    }

    /** Every answer, in whatever order the questions come, is that of an uncached walk. */
    method Get(n: Uint64) returns (r: Hash)
      requires Valid()
      modifies this
      ensures Valid() && old(cache) <= cache
      ensures r == Walk(chain, ref.parentHash, Minus(ref.number, 1), n)
    {
      if |cache| == 0 {
        cache := cache + [ref.parentHash];
      }
      var idx := Minus(Minus(ref.number, n), 1);
      if idx < |cache| {
        WalkFrom(chain, ref.number, ref.parentHash, cache, idx, n);
        return cache[idx];
      }
      r, cache := Extend(chain, ref.number, ref.parentHash, cache, n);
    }
  }
}
