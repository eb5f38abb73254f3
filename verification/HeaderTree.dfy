/** The tree of block headers that every chain index in this project is derived from.

A header names its parent by hash.  A `Tree` is the set of headers a node has
stored; it is `Rooted` when every stored header leads back to the genesis header
one number at a time.  `Path` and `Td` are the reference definitions (the chain
from genesis, and the sum of difficulties along it) that the incremental code in
core/headerchain.go and core/blockchain.go is compared with.
*/
module HeaderTree {

  type Hash = nat

  /** The zero hash, which the database answers for an absent entry. */
  const NO_HASH: Hash := 0

  datatype Header = Header(hash: Hash, parentHash: Hash, number: nat, difficulty: nat, root: Hash)

  /** The canonical index that a chain of hashes, oldest first, stands for. */
  function IndexOf(path: seq<Hash>): (canon: map<nat, Hash>)
  {
    map n | 0 <= n < |path| :: path[n]
  }

  function Without(canon: map<nat, Hash>, from: nat, to: nat): (r: map<nat, Hash>)
  {
    map n | n in canon && !(from <= n < to) :: canon[n]
  }

  /** The rows from `from` on go up to `gap`, which is absent. */
  ghost predicate RunEnds(canon: map<nat, Hash>, from: nat, gap: nat)
  {
    from <= gap && gap !in canon && forall n :: from <= n < gap ==> n in canon
  }

  ghost function RowsFrom(canon: map<nat, Hash>, n: nat): (rows: set<nat>)
  {
    set m | m in canon && n <= m
  }

  /** Deletes index rows from `from` upwards until the first gap. */
  method DropRun(canon: map<nat, Hash>, from: nat) returns (markers: map<nat, Hash>, gap: nat)
    ensures RunEnds(canon, from, gap) && markers == Without(canon, from, gap)
  {
    markers, gap := canon, from;
    while gap in canon
      invariant from <= gap && forall n :: from <= n < gap ==> n in canon
      invariant markers == Without(canon, from, gap)
      decreases RowsFrom(canon, gap)
    {
      assert gap in RowsFrom(canon, gap) && gap !in RowsFrom(canon, gap + 1);
      assert RowsFrom(canon, gap + 1) <= RowsFrom(canon, gap);
      markers := markers - {gap};
      gap := gap + 1;
    }
  }

  datatype Tree = Tree(genesis: Header, headers: map<Hash, Header>) {

    /** Stored under its own hash, with a known parent one number below. */
    ghost predicate Anchored(k: Hash)
    {
      && k in headers
      && k != NO_HASH
      && headers[k].hash == k
      && 0 < headers[k].difficulty
      && (headers[k].number == 0 ==> headers[k] == genesis)
      && (0 < headers[k].number ==>
            && headers[k].parentHash in headers
            && headers[headers[k].parentHash].number == headers[k].number - 1)
    }

    // The trigger keeps the verifier from following parent links without end.
    ghost predicate Rooted()
    {
      && Anchored(genesis.hash)
      && headers[genesis.hash] == genesis
      && genesis.number == 0
      && forall k {:trigger Anchored(k)} :: k in headers ==> Anchored(k)
    }

    /** The hashes from genesis to `k`, oldest first. */
    ghost function Path(k: Hash): (p: seq<Hash>)
      requires Rooted() && k in headers
      ensures |p| == headers[k].number + 1 && p[headers[k].number] == k
      decreases headers[k].number
    {
      assert Anchored(k);
      if headers[k].number == 0 then [k]
      else Path(headers[k].parentHash) + [k]
    }

    /** Total difficulty: the sum along the path. */
    ghost function Td(k: Hash): (td: nat)
      requires Rooted() && k in headers
      decreases headers[k].number
    {
      assert Anchored(k);
      if headers[k].number == 0 then headers[k].difficulty
      else Td(headers[k].parentHash) + headers[k].difficulty
    }

    ghost predicate TdTable(td: map<Hash, nat>)
      requires Rooted()
    {
      td.Keys == headers.Keys && forall k {:trigger td[k]} {:trigger Td(k)} :: k in headers ==> td[k] == Td(k)
    }

    ghost predicate HasChild(k: Hash)
    {
      exists c :: c in headers && 0 < headers[c].number && headers[c].parentHash == k
    }

    /** Every header of a path is stored at its own number, and its own path is a prefix. */
    lemma {:induction false} PathAt(k: Hash, n: nat)
      requires Rooted() && k in headers && n <= headers[k].number
      ensures Path(k)[n] in headers && headers[Path(k)[n]].number == n
      ensures Path(Path(k)[n]) == Path(k)[..n + 1]
      decreases headers[k].number
    {
      assert Anchored(k);
      var h := headers[k];
      if n < h.number {
        PathAt(h.parentHash, n);
        assert Path(k)[..n + 1] == Path(h.parentHash)[..n + 1];
      } else {
        assert Path(k)[..n + 1] == Path(k);
      }
    }

    lemma PathLink(k: Hash, n: nat)
      requires Rooted() && k in headers && 0 < n <= headers[k].number
      ensures Path(k)[n] in headers
      ensures headers[Path(k)[n]].parentHash == Path(k)[n - 1]
    {
      PathAt(k, n);
      var c := Path(k)[n];
      assert Anchored(c);
      var p := headers[c].parentHash;
      assert Path(c) == Path(p) + [c];
      assert Path(c)[n - 1] == p;
    }

    lemma PathStart(k: Hash)
      requires Rooted() && k in headers
      ensures Path(k)[0] == genesis.hash
    {
      PathAt(k, 0);
      assert Anchored(Path(k)[0]);
    }

    /** Two paths that meet at one number agree below it. */
    lemma PathsMeet(a: Hash, b: Hash, n: nat)
      requires Rooted() && a in headers && b in headers
      requires n <= headers[a].number && n <= headers[b].number
      requires Path(a)[n] == Path(b)[n]
      ensures Path(a)[..n + 1] == Path(b)[..n + 1]
    {
      PathAt(a, n);
      PathAt(b, n);
    }

    lemma PathsAgree(a: Hash, b: Hash, n: nat, i: nat)
      requires Rooted() && a in headers && b in headers
      requires i <= n <= headers[a].number && n <= headers[b].number
      ensures Path(a)[n] == Path(b)[n] ==> Path(a)[i] == Path(b)[i]
    {
      if Path(a)[n] == Path(b)[n] {
        PathsMeet(a, b, n);
        assert Path(a)[i] == Path(a)[..n + 1][i] && Path(b)[i] == Path(b)[..n + 1][i];
      }
    }

    /** A chain of parent links that ends in `k` is the path to `k`. */
    lemma {:induction false} LinkedIsPath(k: Hash, p: seq<Hash>)
      requires Rooted() && k in headers
      requires |p| == headers[k].number + 1 && p[headers[k].number] == k
      requires forall n :: 0 < n < |p| ==> p[n] in headers && headers[p[n]].parentHash == p[n - 1]
      ensures p == Path(k)
      decreases headers[k].number
    {
      assert Anchored(k);
      var h := headers[k];
      if 0 < h.number {
        assert p[h.number] in headers;
        LinkedIsPath(h.parentHash, p[..h.number]);
        assert p == p[..h.number] + [k];
      }
    }

    /** Total difficulty grows strictly along a path. */
    lemma {:induction false} TdGrows(k: Hash, n: nat)
      requires Rooted() && k in headers && n < headers[k].number
      ensures Path(k)[n] in headers
      ensures Td(Path(k)[n]) < Td(k)
      decreases headers[k].number
    {
      assert Anchored(k);
      var p := headers[k].parentHash;
      PathAt(k, n);
      if n < headers[p].number {
        TdGrows(p, n);
      }
    }

    /** Adding or removing other headers changes neither a path nor its total difficulty. */
    lemma {:induction false} Stable(other: Tree, k: Hash)
      requires Rooted() && other.Rooted() && k in headers && k in other.headers
      requires forall j :: j in headers && j in other.headers ==> headers[j] == other.headers[j]
      ensures other.Path(k) == Path(k) && other.Td(k) == Td(k)
      decreases headers[k].number
    {
      assert Anchored(k) && other.Anchored(k);
      if 0 < headers[k].number {
        Stable(other, headers[k].parentHash);
      }
    }

    /** Levels have no gap: with nothing stored at number `n` there is nothing above it. */
    lemma NoGap(n: nat)
      requires Rooted()
      requires forall k :: k in headers ==> headers[k].number != n
      ensures forall k :: k in headers ==> headers[k].number < n
    {
      forall k | k in headers
        ensures headers[k].number < n
      {
        if n < headers[k].number { PathAt(k, n); }
      }
    }
  }

  /** A header tree with a head: what a chain database is about. */
  datatype View = View(tree: Tree, head: Hash) {

    ghost predicate Placed()
    {
      tree.Rooted() && head in tree.headers
    }

    /** The head has no known child; the shortcut for extending batches rests on it. */
    ghost predicate Sound()
    {
      Placed() && !tree.HasChild(head)
    }

    /** Nothing stored is heavier than the head, nor as heavy and lower. */
    ghost predicate Heaviest()
      requires Placed()
    {
      forall k :: k in tree.headers ==>
        || tree.Td(k) < tree.Td(head)
        || (tree.Td(k) == tree.Td(head) && tree.headers[head].number <= tree.headers[k].number)
    }
  }
}
