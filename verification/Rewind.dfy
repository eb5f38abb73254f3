/** core/blockchain.go, setHeadBeyondRoot: rewinding a chain of blocks.

The header chain is rewound one header at a time (core/headerchain.go, SetHead).  At each step the head-block and
fast-block markers are lowered first, and all three markers are written to the database; the deletions are collected
and written in the end.  Blocks may lack bodies and states.  The freezer is empty.
*/
module Rewinds {
  import opened HeaderTree
  import opened HeaderChains
  import opened Options

  /** The head-block, head-fast-block and head-header markers. */
  datatype Markers = Markers(block: Hash, fast: Hash, header: Hash)

  datatype Disk = Disk(headers: map<Hash, Header>, tds: map<Hash, nat>, canon: map<nat, Hash>, bodies: set<Hash>,
                       markers: Markers)

  /** The states that can be opened or recovered, and the pivot of the last fast sync. */
  datatype States = States(present: set<Hash>, recoverable: set<Hash>, pivot: Option<nat>) {

    predicate Usable(root: Hash)
    {
      root in present || root in recoverable
    }

    /** Recover, where the state is missing but recoverable. */
    function Recovered(root: Hash): (s: States)
    {
      if root !in present && root in recoverable then this.(present := present + {root}) else this
    }

    /** The states after some of the recoverable ones were recovered. */
    predicate Restored(s: States)
    {
      s.recoverable == recoverable && s.pivot == pivot && present <= s.present <= present + recoverable
    }
  }

  // ---------------------------------------------------------------- the search for a block with state

  /** Where the search ends: at a block, or in the missing parent of a block that has state. */
  datatype Search = Landed(block: Hash, rootNumber: nat) | Nil

  predicate ParentStored(t: Tree, bodies: set<Hash>, k: Hash)
    requires k in t.headers
  {
    0 < t.headers[k].number && t.headers[k].parentHash in t.headers && t.headers[k].parentHash in bodies
  }

  predicate AbovePivot(s: States, number: nat)
  {
    s.pivot.None? || s.pivot.value < number
  }

  /** The search from `k`; `beyond` says that the requested root has been passed. */
  ghost function Seek(t: Tree, bodies: set<Hash>, s: States, root: Hash, k: Hash, beyond: bool, rootNumber: nat)
      : (r: Search)
    requires t.Rooted() && k in t.headers
    ensures r.Landed? ==> r.block in t.headers
    decreases t.headers[k].number
  {
    assert t.Anchored(k);
    var h := t.headers[k];
    var passed := beyond || h.root == root;
    var number := if !beyond && h.root == root then h.number else rootNumber;
    if !s.Usable(h.root) then
      if AbovePivot(s, h.number) && ParentStored(t, bodies, k)
      then Seek(t, bodies, s, root, h.parentHash, passed, number)
      else Landed(t.genesis.hash, number)
    else if passed || h.number == 0 then Landed(k, number)
    else if ParentStored(t, bodies, k) then Seek(t, bodies, s, root, h.parentHash, passed, number)
    else Nil
  }

  /** The loop of updateFn. */
  method FindBlock(t: Tree, bodies: set<Hash>, s: States, root: Hash, k: Hash, start: nat) returns (r: Search)
    requires t.Rooted() && k in t.headers
    ensures r == Seek(t, bodies, s, root, k, root == NO_HASH, start)
  {
    var block, rootNumber, beyond := t.headers[k], start, root == NO_HASH;
    assert t.Anchored(k);
    while true
      invariant t.Anchored(block.hash) && t.headers[block.hash] == block
      invariant root == NO_HASH ==> beyond
      invariant Seek(t, bodies, s, root, block.hash, beyond, rootNumber)
                == Seek(t, bodies, s, root, k, root == NO_HASH, start)
      decreases block.number
    {
      if root != NO_HASH && !beyond && block.root == root {
        beyond, rootNumber := true, block.number;
      }
      if !s.Usable(block.root) {
        if s.pivot.None? || s.pivot.value < block.number {
          if ParentStored(t, bodies, block.hash) {
            assert t.Anchored(block.parentHash);
            block := t.headers[block.parentHash];
            continue;
          }
        }
        return Landed(t.genesis.hash, rootNumber);
      }
      if beyond || block.number == 0 {
        return Landed(block.hash, rootNumber);
      }
      if !ParentStored(t, bodies, block.hash) {
        return Nil;
      }
      assert t.Anchored(block.parentHash);
      block := t.headers[block.parentHash];
    }
  }

  /** The block found is an ancestor of the start or the start itself, has a body, and is genesis or has a state;
      without a requested root a block is always found. */
  lemma {:induction false} SeekLands(t: Tree, bodies: set<Hash>, s: States, root: Hash, k: Hash, beyond: bool,
                                     rootNumber: nat)
    requires t.Rooted() && k in t.headers && k in bodies && t.genesis.hash in bodies
    ensures var r := Seek(t, bodies, s, root, k, beyond, rootNumber);
            && (beyond ==> r.Landed?)
            && (r.Landed? ==>
                  && r.block in t.headers && r.block in bodies && t.headers[r.block].number <= t.headers[k].number
                  && t.Path(k)[t.headers[r.block].number] == r.block
                  && (r.block == t.genesis.hash || s.Usable(t.headers[r.block].root)))
    decreases t.headers[k].number
  {
    assert t.Anchored(k);
    t.PathStart(k);
    if ParentStored(t, bodies, k) {
      var h := t.headers[k];
      var number := if !beyond && h.root == root then h.number else rootNumber;
      SeekLands(t, bodies, s, root, h.parentHash, beyond || h.root == root, number);
    }
  }

  // ---------------------------------------------------------------- the highest block with state

  /** The path has a state at `n`. */
  ghost predicate StateAt(t: Tree, s: States, path: seq<Hash>, n: nat)
  {
    n < |path| && path[n] in t.headers && s.Usable(t.headers[path[n]].root)
  }

  /** `r` is the highest number up to `n` with a state, or genesis if there is none. */
  ghost predicate Highest(t: Tree, s: States, path: seq<Hash>, n: nat, r: nat)
  {
    r <= n && (0 < r ==> StateAt(t, s, path, r)) && forall m :: r < m <= n ==> !StateAt(t, s, path, m)
  }

  ghost predicate RootAt(t: Tree, path: seq<Hash>, n: nat, root: Hash)
  {
    n < |path| && path[n] in t.headers && t.headers[path[n]].root == root
  }

  /** `c` is the first number at or below `n`, going down, that carries the root; genesis if none does. */
  ghost predicate FirstWithRoot(t: Tree, path: seq<Hash>, n: nat, root: Hash, c: nat)
  {
    c <= n && (0 < c ==> RootAt(t, path, c, root)) && forall m :: c < m <= n ==> !RootAt(t, path, m, root)
  }

  lemma StateOnPrefix(t: Tree, s: States, k: Hash, p: Hash, n: nat)
    requires t.Rooted() && k in t.headers && 0 < t.headers[k].number && p == t.headers[k].parentHash && p in t.headers
    requires n < t.headers[k].number && t.headers[p].number == t.headers[k].number - 1
    ensures StateAt(t, s, t.Path(k), n) == StateAt(t, s, t.Path(p), n)
    ensures forall root :: RootAt(t, t.Path(k), n, root) == RootAt(t, t.Path(p), n, root)
  {
    assert t.Path(k) == t.Path(p) + [k];
  }

  /** A search that starts at `n` gets down to `r`: it does not go below the pivot. */
  predicate Reached(s: States, n: nat, r: nat)
  {
    r == n || s.pivot.None? || s.pivot.value <= r
  }

  /** With the root passed and no body missing, the search lands on the highest block with state if that is not below
      the pivot, and on genesis otherwise. */
  lemma {:induction false} SeekHighest(t: Tree, bodies: set<Hash>, s: States, root: Hash, k: Hash, rootNumber: nat)
      returns (r: nat)
    requires t.Rooted() && k in t.headers
    requires forall n :: 0 <= n <= t.headers[k].number ==> t.Path(k)[n] in bodies
    ensures Highest(t, s, t.Path(k), t.headers[k].number, r)
    ensures Seek(t, bodies, s, root, k, true, rootNumber) ==
            Landed(if Reached(s, t.headers[k].number, r) then t.Path(k)[r] else t.genesis.hash, rootNumber)
    decreases t.headers[k].number
  {
    assert t.Anchored(k);
    t.PathStart(k);
    var h := t.headers[k];
    r := h.number;
    if !s.Usable(h.root) && 0 < h.number {
      var p := h.parentHash;
      assert t.Path(k) == t.Path(p) + [k];
      assert forall n :: 0 <= n < h.number ==> t.Path(p)[n] == t.Path(k)[n];
      assert t.Path(k)[h.number - 1] == p;
      r := SeekHighest(t, bodies, s, root, p, rootNumber);
      forall n | 0 <= n < h.number
        ensures StateAt(t, s, t.Path(k), n) == StateAt(t, s, t.Path(p), n)
      {
        StateOnPrefix(t, s, k, p, n);
      }
    }
  }

  /** The search from `n` stops at the pivot before it gets to `c`. */
  ghost predicate Halted(t: Tree, s: States, path: seq<Hash>, n: nat, c: nat)
  {
    s.pivot.Some? && exists m: nat {:trigger StateAt(t, s, path, m)} ::
      c < m <= n && m <= s.pivot.value && !StateAt(t, s, path, m)
  }

  /** With a root requested, it lands on the highest block with state at or below the first block with that root,
      or on genesis if the pivot is in the way before or after it. */
  lemma {:induction false} SeekBelowRoot(t: Tree, bodies: set<Hash>, s: States, root: Hash, k: Hash, rootNumber: nat)
      returns (c: nat, r: nat)
    requires t.Rooted() && k in t.headers
    requires forall n :: 0 <= n <= t.headers[k].number ==> t.Path(k)[n] in bodies
    ensures FirstWithRoot(t, t.Path(k), t.headers[k].number, root, c) && Highest(t, s, t.Path(k), c, r)
    ensures Seek(t, bodies, s, root, k, false, rootNumber) ==
            if Halted(t, s, t.Path(k), t.headers[k].number, c) then Landed(t.genesis.hash, rootNumber)
            else Landed(if Reached(s, c, r) then t.Path(k)[r] else t.genesis.hash,
                        if RootAt(t, t.Path(k), c, root) then c else rootNumber)
    decreases t.headers[k].number
  {
    assert t.Anchored(k);
    t.PathStart(k);
    var h := t.headers[k];
    assert t.Path(k)[h.number] == k;
    if h.root == root {
      c := h.number;
      r := SeekHighest(t, bodies, s, root, k, c);
      SeekPassed(t, bodies, s, root, k, rootNumber);
    } else if h.number == 0 {
      c, r := 0, 0;
    } else {
      var p := h.parentHash;
      assert t.Path(k) == t.Path(p) + [k];
      assert forall n :: 0 <= n < h.number ==> t.Path(p)[n] == t.Path(k)[n];
      assert t.Path(k)[h.number - 1] == p;
      c, r := SeekBelowRoot(t, bodies, s, root, p, rootNumber);
      forall n | 0 <= n < h.number
        ensures StateAt(t, s, t.Path(k), n) == StateAt(t, s, t.Path(p), n)
        ensures RootAt(t, t.Path(k), n, root) == RootAt(t, t.Path(p), n, root)
      {
        StateOnPrefix(t, s, k, p, n);
      }
      assert StateAt(t, s, t.Path(k), h.number) == s.Usable(h.root);
    }
  }

  lemma SeekPassed(t: Tree, bodies: set<Hash>, s: States, root: Hash, k: Hash, rootNumber: nat)
    requires t.Rooted() && k in t.headers && t.headers[k].root == root
    ensures Seek(t, bodies, s, root, k, false, rootNumber) == Seek(t, bodies, s, root, k, true, t.headers[k].number)
  {
  }

  // ---------------------------------------------------------------- the search that ends in a missing block

  /** The search leaves the block at `n` for its parent: the block is not the requested one, its parent is stored, and
      it has a state or is above the pivot. */
  ghost predicate Leaves(t: Tree, bodies: set<Hash>, s: States, root: Hash, path: seq<Hash>, n: nat)
  {
    && 0 < n < |path| && !RootAt(t, path, n, root) && path[n - 1] in bodies
    && (StateAt(t, s, path, n) || AbovePivot(s, n))
  }

  /** The search from `top` breaks off at `n`: it gets there without meeting the requested root, and there is a state,
      not the requested one, over a missing parent. */
  ghost predicate Breaks(t: Tree, bodies: set<Hash>, s: States, root: Hash, path: seq<Hash>, top: nat, n: nat)
  {
    && 0 < n <= top < |path| && StateAt(t, s, path, n) && !RootAt(t, path, n, root) && path[n - 1] !in bodies
    && forall m: nat {:trigger Leaves(t, bodies, s, root, path, m)} ::
         n < m <= top ==> Leaves(t, bodies, s, root, path, m)
  }

  lemma BreaksOnPrefix(t: Tree, bodies: set<Hash>, s: States, root: Hash, k: Hash, p: Hash, n: nat)
    requires t.Rooted() && k in t.headers && 0 < t.headers[k].number && p == t.headers[k].parentHash && p in t.headers
    requires n < t.headers[k].number && t.headers[p].number == t.headers[k].number - 1
    ensures Breaks(t, bodies, s, root, t.Path(k), t.headers[k].number, n) <==>
            && Breaks(t, bodies, s, root, t.Path(p), t.headers[p].number, n)
            && Leaves(t, bodies, s, root, t.Path(k), t.headers[k].number)
  {
    var top, path, low := t.headers[k].number, t.Path(k), t.Path(p);
    assert path == low + [k];
    forall m: nat | m < top
      ensures Leaves(t, bodies, s, root, path, m) == Leaves(t, bodies, s, root, low, m)
      ensures StateAt(t, s, path, m) == StateAt(t, s, low, m) && RootAt(t, path, m, root) == RootAt(t, low, m, root)
    {
      StateOnPrefix(t, s, k, p, m);
    }
  }

  /** With a root requested, the search ends in a missing block if and only if it breaks off somewhere. */
  lemma {:induction false} SeekNil(t: Tree, bodies: set<Hash>, s: States, root: Hash, k: Hash, rootNumber: nat)
    requires t.Rooted() && k in t.headers
    ensures Seek(t, bodies, s, root, k, false, rootNumber).Nil? <==>
            exists n :: Breaks(t, bodies, s, root, t.Path(k), t.headers[k].number, n)
    decreases t.headers[k].number
  {
    assert t.Anchored(k);
    t.PathStart(k);
    var h := t.headers[k];
    var path := t.Path(k);
    assert path[h.number] == k;
    if h.root == root {
      SeekFound(t, bodies, s, root, k, h.number);
      assert RootAt(t, path, h.number, root) && !Leaves(t, bodies, s, root, path, h.number);
    } else if 0 < h.number {
      var p := h.parentHash;
      assert path == t.Path(p) + [k] && path[h.number - 1] == p;
      SeekNil(t, bodies, s, root, p, rootNumber);
      forall n: nat | n < h.number
        ensures Breaks(t, bodies, s, root, path, h.number, n) <==>
                && Breaks(t, bodies, s, root, t.Path(p), h.number - 1, n)
                && Leaves(t, bodies, s, root, path, h.number)
      {
        BreaksOnPrefix(t, bodies, s, root, k, p, n);
      }
      if ParentStored(t, bodies, k) {
        assert !Breaks(t, bodies, s, root, path, h.number, h.number);
        var low, top := t.Path(p), t.headers[p].number;
        if n: nat :| Breaks(t, bodies, s, root, low, top, n) {
          assert Breaks(t, bodies, s, root, path, h.number, n) <==> Leaves(t, bodies, s, root, path, h.number);
        }
      } else if s.Usable(h.root) {
        assert Breaks(t, bodies, s, root, path, h.number, h.number);
      }
    }
  }

  /** Past the requested root a block is always found. */
  lemma {:induction false} SeekFound(t: Tree, bodies: set<Hash>, s: States, root: Hash, k: Hash, rootNumber: nat)
    requires t.Rooted() && k in t.headers
    ensures Seek(t, bodies, s, root, k, true, rootNumber).Landed?
    decreases t.headers[k].number
  {
    assert t.Anchored(k);
    if ParentStored(t, bodies, k) {
      SeekFound(t, bodies, s, root, t.headers[k].parentHash, rootNumber);
    }
  }

  /** The search fails only on a chain that lacks a body. */
  lemma SeekComplete(t: Tree, bodies: set<Hash>, s: States, root: Hash, k: Hash, beyond: bool, rootNumber: nat)
    requires t.Rooted() && k in t.headers
    requires forall n :: 0 <= n <= t.headers[k].number ==> t.Path(k)[n] in bodies
    ensures Seek(t, bodies, s, root, k, beyond, rootNumber).Landed?
  {
    if beyond {
      SeekFound(t, bodies, s, root, k, rootNumber);
    } else {
      SeekNil(t, bodies, s, root, k, rootNumber);
    }
  }

  // ---------------------------------------------------------------- markers

  /** The block is on the chain to the header head, with its body. */
  ghost predicate Blocked(v: View, bodies: set<Hash>, k: Hash, limit: nat)
    requires v.Placed()
  {
    && k in v.tree.headers && k in bodies
    && v.tree.headers[k].number <= limit && limit <= v.tree.headers[v.head].number
    && v.tree.Path(v.head)[v.tree.headers[k].number] == k
  }

  /** The block and fast heads are on the chain, at `limit` or below. */
  ghost predicate Ranged(v: View, bodies: set<Hash>, m: Markers, limit: nat)
    requires v.Placed()
  {
    Blocked(v, bodies, m.block, limit) && Blocked(v, bodies, m.fast, limit)
  }

  /** A database as it should be: the header rows are exact, and the block and fast heads are on the chain. */
  ghost predicate Consistent(v: View, d: Disk)
  {
    && Exact(v, d.tds, d.canon, d.markers.header)
    && d.headers == v.tree.headers
    && d.bodies <= d.headers.Keys && v.tree.genesis.hash in d.bodies
    && Ranged(v, d.bodies, d.markers, v.tree.headers[v.head].number)
  }

  /** What must hold whenever the program may be cut off: every marker names data in the database. */
  predicate Safe(d: Disk)
  {
    && d.markers.header in d.headers
    && d.markers.block in d.headers && d.markers.block in d.bodies
    && d.markers.fast in d.headers && d.markers.fast in d.bodies
  }

  lemma GenesisBlocked(v: View, bodies: set<Hash>, limit: nat)
    requires v.Placed() && v.tree.genesis.hash in bodies && limit <= v.tree.headers[v.head].number
    ensures Blocked(v, bodies, v.tree.genesis.hash, limit)
  {
    v.tree.PathStart(v.head);
  }

  /** The new block head that updateFn finds for the header `k`. */
  ghost function NewBlock(t: Tree, bodies: set<Hash>, s: States, root: Hash, block: Hash, k: Hash, rootNumber: nat)
      : (r: Search)
    requires t.Rooted() && k in t.headers && block in t.headers
  {
    if t.headers[block].number < t.headers[k].number then Landed(block, rootNumber)
    else if k in bodies then Seek(t, bodies, s, root, k, root == NO_HASH, rootNumber)
    else Landed(t.genesis.hash, rootNumber)
  }

  ghost function NewFast(t: Tree, bodies: set<Hash>, fast: Hash, k: Hash): (r: Hash)
    requires t.Rooted() && k in t.headers && fast in t.headers
  {
    if t.headers[fast].number <= t.headers[k].number then fast
    else if k in bodies then k
    else t.genesis.hash
  }

  /** Below a header of the chain, the heads stay on the chain, no higher than that header. */
  lemma NewHeadsRanged(v: View, bodies: set<Hash>, s: States, root: Hash, m: Markers, limit: nat, k: Hash,
                       rootNumber: nat)
    requires v.Placed() && v.tree.genesis.hash in bodies && Ranged(v, bodies, m, limit)
    requires k in v.tree.headers && v.tree.headers[k].number <= v.tree.headers[v.head].number
    requires v.tree.Path(v.head)[v.tree.headers[k].number] == k
    ensures var n, r := v.tree.headers[k].number, NewBlock(v.tree, bodies, s, root, m.block, k, rootNumber);
            && Blocked(v, bodies, NewFast(v.tree, bodies, m.fast, k), n)
            && (root == NO_HASH ==> r.Landed?)
            && (r.Landed? ==> Blocked(v, bodies, r.block, n))
            && (r.Landed? && n <= v.tree.headers[m.block].number ==>
                  r.block == v.tree.genesis.hash || s.Usable(v.tree.headers[r.block].root))
  {
    var n := v.tree.headers[k].number;
    GenesisBlocked(v, bodies, n);
    if k in bodies {
      SeekLands(v.tree, bodies, s, root, k, root == NO_HASH, rootNumber);
      var r := NewBlock(v.tree, bodies, s, root, m.block, k, rootNumber);
      if r.Landed? && n <= v.tree.headers[m.block].number {
        v.tree.PathsAgree(k, v.head, n, v.tree.headers[r.block].number);
      }
    }
  }

  /** Recovering states does not change what the search finds. */
  lemma {:induction false} SeekRestored(t: Tree, bodies: set<Hash>, s: States, s': States, root: Hash, k: Hash,
                                        beyond: bool, rootNumber: nat)
    requires t.Rooted() && k in t.headers && s.Restored(s')
    ensures Seek(t, bodies, s, root, k, beyond, rootNumber) == Seek(t, bodies, s', root, k, beyond, rootNumber)
    decreases t.headers[k].number
  {
    assert t.Anchored(k);
    var h := t.headers[k];
    assert s.Usable(h.root) == s'.Usable(h.root);
    if ParentStored(t, bodies, k) {
      var number := if !beyond && h.root == root then h.number else rootNumber;
      SeekRestored(t, bodies, s, s', root, h.parentHash, beyond || h.root == root, number);
    }
  }

  /** What updateFn makes of the heads. */
  datatype Update = Update(block: Hash, fast: Hash, rootNumber: nat, states: States) | Panic

  /** updateFn for the header `k`.  Nothing comes back if it dereferences a missing block; a block head that it moves
      is genesis or has a state, recovered if need be. */
  method UpdateHeads(ghost v: View, t: Tree, bodies: set<Hash>, s: States, root: Hash, m: Markers, ghost limit: nat,
                     k: Hash, rootNumber: nat)
      returns (u: Update)
    requires v.Placed() && t == v.tree && t.genesis.hash in bodies && Ranged(v, bodies, m, limit)
    requires k in t.headers && t.headers[k].number <= t.headers[v.head].number
    requires t.Path(v.head)[t.headers[k].number] == k
    ensures u.Panic? <==> NewBlock(t, bodies, s, root, m.block, k, rootNumber).Nil?
    ensures u.Panic? ==> root != NO_HASH
    ensures u.Update? ==>
              && NewBlock(t, bodies, s, root, m.block, k, rootNumber) == Landed(u.block, u.rootNumber)
              && u.fast == NewFast(t, bodies, m.fast, k)
              && Ranged(v, bodies, Markers(u.block, u.fast, m.header), t.headers[k].number)
              && s.Restored(u.states)
    ensures u.Update? ==>
              u.states.present == s.present + (if k in bodies && t.headers[k].number <= t.headers[m.block].number
                                               then {t.headers[u.block].root} * s.recoverable else {})
    ensures u.Update? && t.headers[k].number <= t.headers[m.block].number ==>
              u.block == t.genesis.hash || t.headers[u.block].root in u.states.present
  {
    NewHeadsRanged(v, bodies, s, root, m, limit, k, rootNumber);
    var number := t.headers[k].number;
    var block, fast, found, states := m.block, m.fast, rootNumber, s;
    if number <= t.headers[m.block].number {
      if k in bodies {
        var r := FindBlock(t, bodies, s, root, k, rootNumber);
        if r.Nil? { return Panic; }
        block, found := r.block, r.rootNumber;
        states := s.Recovered(t.headers[block].root);
      } else {
        block := t.genesis.hash;
      }
    }
    if number < t.headers[m.fast].number {
      fast := if k in bodies then k else t.genesis.hash;
    }
    return Update(block, fast, found, states);
  }

  // ---------------------------------------------------------------- the rewind

  /** The local variables of the loop. */
  datatype Progress = Progress(markers: Markers, current: Header, dead: set<Hash>, rows: set<nat>, origin: bool,
                               states: States, rootNumber: nat)

  /** Between two rounds: the markers are on the chain, at the current header or below, and everything above it is
      marked for deletion. */
  ghost predicate Midway(v: View, d: Disk, head: nat, p: Progress)
    requires v.Placed()
  {
    && p.current.hash in v.tree.headers && v.tree.headers[p.current.hash] == p.current
    && p.markers.header == p.current.hash
    && Ranged(v, d.bodies, p.markers, p.current.number)
    && (p.origin ==> p.current.hash == v.head && p.dead == {} && p.rows == {})
    && (!p.origin ==>
          && Rewinding(v, p.current, p.dead, p.rows) && head <= p.current.number < v.tree.headers[v.head].number)
  }

  lemma MidwaySafe(v: View, d: Disk, head: nat, p: Progress)
    requires Consistent(v, d) && Midway(v, d, head, p)
    ensures Safe(d.(markers := p.markers))
  {
  }

  /** The numbers whose rows go in the round that leaves `hdr`. */
  method RoundLevels(ghost v: View, headers: map<Hash, Header>, hdr: Header, origin: bool)
      returns (dead: set<Hash>, rows: set<nat>)
    requires v.Placed() && headers == v.tree.headers && hdr.hash in headers && headers[hdr.hash] == hdr
    requires 0 < hdr.number
    ensures origin ==> && dead == Above(headers, hdr.number - 1) && hdr.number in rows
                       && forall n :: n in rows ==> hdr.number <= n
    ensures !origin ==> dead == Level(headers, hdr.number) && rows == {hdr.number}
  {
    var nums: seq<nat> := [];
    if origin {
      nums := LeftoverLevels(v.tree, headers, hdr.number);
    }
    nums := nums + [hdr.number];
    assert hdr.hash in Level(headers, hdr.number);
    dead, rows := GatherLevels(headers, hdr, nums);
    assert hdr.number in nums;
  }

  /** What a round promises. */
  ghost predicate RoundDone(v: View, d: Disk, root: Hash, head: nat, p: Progress, q: Progress)
    requires Consistent(v, d) && Midway(v, d, head, p) && head < p.current.number
  {
    var below := v.tree.Path(v.head)[p.current.number - 1];
    && below in v.tree.headers && q.current.hash == below
    && Midway(v, d, head, q) && q.current.number == p.current.number - 1 && !q.origin
    && p.states.Restored(q.states)
    && q.markers.fast == NewFast(v.tree, d.bodies, p.markers.fast, below)
    && NewBlock(v.tree, d.bodies, p.states, root, p.markers.block, below, p.rootNumber)
       == Landed(q.markers.block, q.rootNumber)
    && (q.markers.block == p.markers.block || q.markers.block == v.tree.genesis.hash
        || v.tree.headers[q.markers.block].root in q.states.present)
  }

  /** One round of SetHead. */
  method Round(ghost v: View, t: Tree, d: Disk, root: Hash, head: nat, p: Progress)
      returns (q: Progress, panicked: bool)
    requires Consistent(v, d) && t == v.tree && Midway(v, d, head, p) && head < p.current.number
    ensures var below := v.tree.Path(v.head)[p.current.number - 1];
            && below in t.headers && t.headers[below].number == p.current.number - 1
            && (panicked ==> NewBlock(t, d.bodies, p.states, root, p.markers.block, below, p.rootNumber).Nil?)
    ensures panicked ==> root != NO_HASH
    ensures !panicked ==> RoundDone(v, d, root, head, p, q)
  {
    var hdr := p.current;
    ParentOnPath(v, hdr.hash);
    var parent := if hdr.parentHash in d.headers then d.headers[hdr.parentHash] else t.genesis;
    var u := UpdateHeads(v, t, d.bodies, p.states, root, p.markers, hdr.number, parent.hash, p.rootNumber);
    if u.Panic? { return p, true; }
    var dead, rows := RoundLevels(v, d.headers, hdr, p.origin);
    q := Progress(Markers(u.block, u.fast, parent.hash), parent, p.dead + dead, p.rows + rows, false, u.states,
                  u.rootNumber);
    panicked := false;
    assert Rewinding(v, q.current, q.dead, q.rows);
  }

  /** With the deletions written the database is as it should be, for the rewound chain. */
  lemma RewoundConsistent(v: View, d: Disk, head: nat, p: Progress)
    requires Consistent(v, d) && Midway(v, d, head, p) && !p.origin && p.current.number == head
    ensures Consistent(Rewound(v, head),
                       Disk(d.headers - p.dead, d.tds - p.dead, d.canon - p.rows, d.bodies - p.dead, p.markers))
  {
    var w := Rewound(v, head);
    RewoundExact(v, head, p.current, p.dead, p.rows, d.tds, d.canon, v.head);
    v.tree.Stable(w.tree, w.head);
    v.tree.PathAt(v.head, head);
    assert w.tree.Path(w.head) == v.tree.Path(v.head)[..head + 1];
    assert forall k :: k in d.headers && d.headers[k].number <= head ==> k !in p.dead;
  }

  // ---------------------------------------------------------------- the rounds of a rewind

  ghost predicate Stored(t: Tree, path: seq<Hash>, top: nat)
  {
    top < |path| && forall n :: 0 <= n <= top ==> path[n] in t.headers && t.headers[path[n]].number == n
  }

  lemma PathStored(v: View)
    requires v.Placed()
    ensures Stored(v.tree, v.tree.Path(v.head), v.tree.headers[v.head].number)
  {
    forall n | 0 <= n <= v.tree.headers[v.head].number
      ensures v.tree.Path(v.head)[n] in v.tree.headers && v.tree.headers[v.tree.Path(v.head)[n]].number == n
    {
      v.tree.PathAt(v.head, n);
    }
  }

  /** The rounds that take the header head from the number `from` down to `to`, by what they make of the block head. */
  ghost function Rounds(t: Tree, bodies: set<Hash>, s: States, root: Hash, path: seq<Hash>, block: Hash,
                        rootNumber: nat, from: nat, to: nat): (r: Search)
    requires t.Rooted() && block in t.headers && from <= |path|
    requires forall n :: 0 <= n < from ==> path[n] in t.headers
    decreases from
  {
    if from <= to then Landed(block, rootNumber)
    else
      var r := NewBlock(t, bodies, s, root, block, path[from - 1], rootNumber);
      if r.Nil? then r else Rounds(t, bodies, s, root, path, r.block, r.rootNumber, from - 1, to)
  }

  /** The block head of a round at `n` that moves it. */
  ghost function Found(t: Tree, bodies: set<Hash>, s: States, root: Hash, k: Hash): (r: Search)
    requires t.Rooted() && k in t.headers
  {
    if k in bodies then Seek(t, bodies, s, root, k, root == NO_HASH, 0) else Landed(t.genesis.hash, 0)
  }

  /** The block that the search finds does not depend on the root number so far. */
  lemma {:induction false} SeekAnyNumber(t: Tree, bodies: set<Hash>, s: States, root: Hash, k: Hash, beyond: bool,
                                         a: nat, b: nat)
    requires t.Rooted() && k in t.headers
    ensures SameBlock(Seek(t, bodies, s, root, k, beyond, a), Seek(t, bodies, s, root, k, beyond, b))
    decreases t.headers[k].number
  {
    assert t.Anchored(k);
    var h := t.headers[k];
    if ParentStored(t, bodies, k) {
      var found := !beyond && h.root == root;
      SeekAnyNumber(t, bodies, s, root, h.parentHash, beyond || h.root == root, if found then h.number else a,
                    if found then h.number else b);
    }
  }

  predicate SameBlock(a: Search, b: Search)
  {
    if a.Nil? then b.Nil? else b.Landed? && b.block == a.block
  }

  /** What the rounds come to is what one of them finds: the last one, or one that puts the block head below all the
      rest, or one that ends in a missing block.  Or none of them moves the block head, which was below them all. */
  lemma {:induction false} RoundsEnd(t: Tree, bodies: set<Hash>, s: States, root: Hash, path: seq<Hash>, block: Hash,
                                     rootNumber: nat, from: nat, to: nat)
    requires t.Rooted() && block in t.headers && from <= |path| && to < from
    requires forall n :: 0 <= n < from ==> path[n] in t.headers && t.headers[path[n]].number == n
    ensures var r := Rounds(t, bodies, s, root, path, block, rootNumber, from, to);
            || (r == Landed(block, rootNumber) && t.headers[block].number < to)
            || (exists n :: to <= n < from && n <= t.headers[block].number
                  && SameBlock(r, Found(t, bodies, s, root, path[n]))
                  && (r.Nil? || n == to || t.headers[r.block].number < to))
    decreases from
  {
    var k := path[from - 1];
    var r := NewBlock(t, bodies, s, root, block, k, rootNumber);
    if from - 1 <= t.headers[block].number {
      SeekAnyNumber(t, bodies, s, root, k, root == NO_HASH, rootNumber, 0);
      assert SameBlock(r, Found(t, bodies, s, root, path[from - 1]));
      SeekBelow(t, bodies, s, root, k, root == NO_HASH, rootNumber);
    }
    if r.Landed? && to < from - 1 {
      RoundsEnd(t, bodies, s, root, path, r.block, r.rootNumber, from - 1, to);
    }
  }

  lemma {:induction false} SeekBelow(t: Tree, bodies: set<Hash>, s: States, root: Hash, k: Hash, beyond: bool,
                                     rootNumber: nat)
    requires t.Rooted() && k in t.headers
    ensures var r := Seek(t, bodies, s, root, k, beyond, rootNumber);
            r.Landed? ==> t.headers[r.block].number <= t.headers[k].number
    decreases t.headers[k].number
  {
    assert t.Anchored(k);
    var h := t.headers[k];
    if ParentStored(t, bodies, k) {
      SeekBelow(t, bodies, s, root, h.parentHash, beyond || h.root == root,
                if !beyond && h.root == root then h.number else rootNumber);
    }
  }

  lemma RoundsNext(t: Tree, bodies: set<Hash>, s: States, s': States, root: Hash, path: seq<Hash>, block: Hash,
                   rootNumber: nat, from: nat, to: nat)
    requires t.Rooted() && block in t.headers && from <= |path| && to < from && s.Restored(s')
    requires forall n :: 0 <= n < from ==> path[n] in t.headers
    ensures var r := NewBlock(t, bodies, s', root, block, path[from - 1], rootNumber);
            Rounds(t, bodies, s, root, path, block, rootNumber, from, to) ==
            if r.Nil? then r else Rounds(t, bodies, s, root, path, r.block, r.rootNumber, from - 1, to)
  {
    SeekRestored(t, bodies, s, s', root, path[from - 1], root == NO_HASH, rootNumber);
  }

  // ---------------------------------------------------------------- where the block head ends up

  /** Nothing stands in the way of the search: there is no pivot, and the chain has its bodies. */
  ghost predicate Unhindered(v: View, d: Disk, s: States)
    requires v.Placed()
  {
    && s.pivot.None?
    && forall n :: 0 <= n <= v.tree.headers[v.head].number ==> v.tree.Path(v.head)[n] in d.bodies
  }

  ghost predicate HighestBlock(v: View, s: States, n: nat, k: Hash)
    requires v.Placed() && n <= v.tree.headers[v.head].number
  {
    exists r :: 0 <= r <= n && Highest(v.tree, s, v.tree.Path(v.head), n, r) && k == v.tree.Path(v.head)[r]
  }

  /** The block head for a header head at `n`: the highest block with state, if it was as high as `n`. */
  ghost predicate Settled(v: View, s: States, before: Hash, n: nat, after: Hash)
    requires v.Placed() && n <= v.tree.headers[v.head].number && before in v.tree.headers
  {
    if n <= v.tree.headers[before].number then HighestBlock(v, s, n, after) else after == before
  }

  lemma SeekSettles(v: View, d: Disk, s: States, k: Hash, rootNumber: nat)
    requires Consistent(v, d) && Unhindered(v, d, s) && k in v.tree.headers
    requires v.tree.headers[k].number <= v.tree.headers[v.head].number
    requires v.tree.Path(v.head)[v.tree.headers[k].number] == k
    ensures var r := Seek(v.tree, d.bodies, s, NO_HASH, k, true, rootNumber);
            r.Landed? && HighestBlock(v, s, v.tree.headers[k].number, r.block)
  {
    var t, n, path := v.tree, v.tree.headers[k].number, v.tree.Path(v.head);
    t.PathAt(v.head, n);
    assert t.Path(k) == path[..n + 1];
    assert forall m :: 0 <= m <= n ==> t.Path(k)[m] == path[m];
    var r := SeekHighest(t, d.bodies, s, NO_HASH, k, rootNumber);
    assert forall m: nat :: m <= n ==> StateAt(t, s, t.Path(k), m) == StateAt(t, s, path, m);
    assert Highest(t, s, path, n, r);
  }

  /** The block head when the header head is at `n`: as it was, or settled. */
  ghost predicate OnTheWay(v: View, s: States, before: Hash, n: nat, block: Hash)
    requires v.Placed() && n <= v.tree.headers[v.head].number && before in v.tree.headers
  {
    (n == v.tree.headers[v.head].number && block == before) || Settled(v, s, before, n, block)
  }

  lemma SettledNext(v: View, d: Disk, s: States, before: Hash, block: Hash, rootNumber: nat, n: nat)
    requires Consistent(v, d) && Unhindered(v, d, s) && before in v.tree.headers && block in v.tree.headers
    requires n < v.tree.headers[v.head].number && OnTheWay(v, s, before, n + 1, block)
    requires var k := v.tree.Path(v.head)[n]; k in v.tree.headers && v.tree.headers[k].number == n
    ensures var r := NewBlock(v.tree, d.bodies, s, NO_HASH, block, v.tree.Path(v.head)[n], rootNumber);
            r.Landed? && Settled(v, s, before, n, r.block)
  {
    var t, path := v.tree, v.tree.Path(v.head);
    if n <= t.headers[block].number {
      assert path[n] in d.bodies;
      SeekSettles(v, d, s, path[n], rootNumber);
    } else if block != before && n + 1 <= t.headers[before].number {
      var r :| 0 <= r <= n + 1 && Highest(t, s, path, n + 1, r) && block == path[r];
      t.PathAt(v.head, r);
      assert Highest(t, s, path, n, r);
    }
  }

  /** Without a requested root, nothing in the way, the rounds settle on the highest block with state. */
  lemma {:induction false} RoundsSettle(v: View, d: Disk, s: States, before: Hash, block: Hash, rootNumber: nat,
                                        from: nat, to: nat)
    requires Consistent(v, d) && Unhindered(v, d, s) && before in v.tree.headers && block in v.tree.headers
    requires to < from <= v.tree.headers[v.head].number && OnTheWay(v, s, before, from, block)
    requires Stored(v.tree, v.tree.Path(v.head), v.tree.headers[v.head].number)
    ensures var r := Rounds(v.tree, d.bodies, s, NO_HASH, v.tree.Path(v.head), block, rootNumber, from, to);
            r.Landed? && Settled(v, s, before, to, r.block)
    decreases from
  {
    var path := v.tree.Path(v.head);
    SettledNext(v, d, s, before, block, rootNumber, from - 1);
    var r := NewBlock(v.tree, d.bodies, s, NO_HASH, block, path[from - 1], rootNumber);
    assert OnTheWay(v, s, before, from - 1, r.block);
    if to < from - 1 {
      RoundsSettle(v, d, s, before, r.block, r.rootNumber, from - 1, to);
    }
  }

  // ---------------------------------------------------------------- whole rewinds

  /** How a rewind ends; a panic leaves what was written before it. */
  datatype Outcome = Outcome(disk: Disk, states: States, rootNumber: nat, panicked: bool)

  /** A block head that was moved is genesis or has its state. */
  predicate Moved(t: Tree, s: States, before: Hash, after: Hash)
  {
    after == before || after == t.genesis.hash || (after in t.headers && t.headers[after].root in s.present)
  }

  /** Where the block head ends up, from the database and the states before. */
  ghost function End(v: View, d: Disk, s: States, root: Hash, head: nat, repair: bool): (r: Search)
    requires Consistent(v, d)
  {
    PathStored(v);
    if repair then Seek(v.tree, d.bodies, s, root, d.markers.block, root == NO_HASH, 0)
    else Rounds(v.tree, d.bodies, s, root, v.tree.Path(v.head), d.markers.block, 0, v.tree.headers[v.head].number, head)
  }

  /** The program panics if a search ends in a missing block, and only then; otherwise the block head is what the
      searches come to. */
  ghost predicate Ended(v: View, d: Disk, s: States, root: Hash, head: nat, repair: bool, panicked: bool, block: Hash,
                        rootNumber: nat)
    requires Consistent(v, d)
  {
    End(v, d, s, root, head, repair) == if panicked then Nil else Landed(block, rootNumber)
  }

  /** With nothing in the way, the block head is the highest block with state, if it was as high as the new head. */
  ghost predicate Settles(v: View, d: Disk, s: States, head: nat, block: Hash)
    requires Consistent(v, d)
  {
    Unhindered(v, d, s) && head < v.tree.headers[v.head].number ==> Settled(v, s, d.markers.block, head, block)
  }

  lemma EndSettles(v: View, d: Disk, s: States, head: nat, block: Hash, rootNumber: nat)
    requires Consistent(v, d) && Ended(v, d, s, NO_HASH, head, false, false, block, rootNumber)
    ensures Settles(v, d, s, head, block)
  {
    var top := v.tree.headers[v.head].number;
    PathStored(v);
    if Unhindered(v, d, s) && head < top {
      RoundsSettle(v, d, s, d.markers.block, d.markers.block, 0, top, head);
    }
  }

  /** What is left of the rounds comes to the same end. */
  ghost predicate Leads(v: View, d: Disk, s: States, root: Hash, head: nat, p: Progress)
    requires Consistent(v, d) && Midway(v, d, head, p)
  {
    PathStored(v);
    && s.Restored(p.states)
    && Rounds(v.tree, d.bodies, s, root, v.tree.Path(v.head), p.markers.block, p.rootNumber, p.current.number, head)
       == End(v, d, s, root, head, false)
  }

  lemma LeadsOn(v: View, d: Disk, s: States, root: Hash, head: nat, p: Progress, q: Progress)
    requires Consistent(v, d) && Midway(v, d, head, p) && Leads(v, d, s, root, head, p) && head < p.current.number
    requires Midway(v, d, head, q) && p.states.Restored(q.states) && q.current.number == p.current.number - 1
    requires var below := v.tree.Path(v.head)[q.current.number];
             && below in v.tree.headers
             && NewBlock(v.tree, d.bodies, p.states, root, p.markers.block, below, p.rootNumber)
                == Landed(q.markers.block, q.rootNumber)
    ensures Leads(v, d, s, root, head, q)
  {
    PathStored(v);
    RoundsNext(v.tree, d.bodies, s, p.states, root, v.tree.Path(v.head), p.markers.block, p.rootNumber,
               p.current.number, head);
  }

  lemma LeadsNowhere(v: View, d: Disk, s: States, root: Hash, head: nat, p: Progress)
    requires Consistent(v, d) && Midway(v, d, head, p) && Leads(v, d, s, root, head, p) && head < p.current.number
    requires var below := v.tree.Path(v.head)[p.current.number - 1];
             && below in v.tree.headers
             && NewBlock(v.tree, d.bodies, p.states, root, p.markers.block, below, p.rootNumber).Nil?
    ensures End(v, d, s, root, head, false).Nil?
  {
    PathStored(v);
    RoundsNext(v.tree, d.bodies, s, p.states, root, v.tree.Path(v.head), p.markers.block, p.rootNumber,
               p.current.number, head);
  }

  /** The deletions, written in the end. */
  method WriteDeletions(ghost v: View, d: Disk, head: nat, p: Progress) returns (r: Disk)
    requires Consistent(v, d) && Midway(v, d, head, p) && p.current.number <= head
    requires p.origin ==> p.markers == d.markers
    ensures Consistent(Rewound(v, head), r) && r.markers == p.markers && (p.origin ==> r == d)
    ensures r.bodies == d.bodies * r.headers.Keys
  {
    r := Disk(d.headers - p.dead, d.tds - p.dead, d.canon - p.rows, d.bodies - p.dead, p.markers);
    if p.origin {
      assert r == d;
    } else {
      RewoundConsistent(v, d, head, p);
    }
  }

  lemma ConsistentSafe(v: View, d: Disk)
    requires Consistent(v, d)
    ensures Safe(d)
  {
  }

  /** The fast head once the header head is at `n`: where it was if that is not above `n`; else the block at `n`, or
      genesis if a body is missing between the two. */
  ghost predicate FastAt(v: View, d: Disk, n: nat, fast: Hash)
    requires Consistent(v, d)
  {
    var path, f := v.tree.Path(v.head), v.tree.headers[d.markers.fast].number;
    if f <= n then fast == d.markers.fast
    else if forall i :: n <= i < f ==> path[i] in d.bodies then fast == path[n]
    else fast == v.tree.genesis.hash
  }

  lemma FastNext(v: View, d: Disk, n: nat, fast: Hash)
    requires Consistent(v, d) && 0 < n <= v.tree.headers[v.head].number && FastAt(v, d, n, fast)
    ensures var k := v.tree.Path(v.head)[n - 1];
            && k in v.tree.headers && fast in v.tree.headers
            && FastAt(v, d, n - 1, NewFast(v.tree, d.bodies, fast, k))
  {
    PathStored(v);
    var path, f := v.tree.Path(v.head), v.tree.headers[d.markers.fast].number;
    if n <= f && path[n - 1] in d.bodies && forall i :: n <= i < f ==> path[i] in d.bodies {
      assert forall i :: n - 1 <= i < f ==> path[i] in d.bodies;
    }
  }

  /** Between two rounds, from the database and the states before. */
  ghost predicate Underway(v: View, d: Disk, s: States, root: Hash, head: nat, p: Progress)
    requires Consistent(v, d)
  {
    && Midway(v, d, head, p) && (p.origin ==> p.markers == d.markers)
    && p.current.number <= v.tree.headers[v.head].number
    && Moved(v.tree, p.states, d.markers.block, p.markers.block)
    && Leads(v, d, s, root, head, p) && FastAt(v, d, p.current.number, p.markers.fast)
  }

  lemma UnderwayNext(v: View, d: Disk, s: States, root: Hash, head: nat, p: Progress, q: Progress)
    requires Consistent(v, d) && Underway(v, d, s, root, head, p) && head < p.current.number
    requires RoundDone(v, d, root, head, p, q)
    ensures Underway(v, d, s, root, head, q) && Safe(d.(markers := q.markers))
  {
    LeadsOn(v, d, s, root, head, p, q);
    FastNext(v, d, p.current.number, p.markers.fast);
    MidwaySafe(v, d, head, q);
  }

  /** SetHead of the header chain with the hooks of the block chain.  `trace` lists the database at every point where
      the program may be cut off. */
  method RewindBlocks(ghost v: View, t: Tree, d: Disk, s: States, root: Hash, head: nat)
      returns (o: Outcome, ghost trace: seq<Disk>)
    requires Consistent(v, d) && t == v.tree
    ensures 0 < |trace| && trace[0] == d && trace[|trace| - 1] == o.disk
    ensures forall i :: 0 <= i < |trace| ==> Safe(trace[i])
    ensures var top := t.headers[v.head].number;
            !o.panicked ==> |trace| == if head < top then top - head + 2 else 1
    ensures o.panicked ==> root != NO_HASH
    ensures Ended(v, d, s, root, head, false, o.panicked, o.disk.markers.block, o.rootNumber)
    ensures !o.panicked ==> Consistent(Rewound(v, head), o.disk) && o.disk.bodies == d.bodies * o.disk.headers.Keys
    ensures !o.panicked ==> FastAt(v, d, head, o.disk.markers.fast)
    ensures o.panicked ==> exists n :: head < n <= t.headers[v.head].number && FastAt(v, d, n, o.disk.markers.fast)
    ensures Moved(t, o.states, d.markers.block, o.disk.markers.block) && s.Restored(o.states)
  {
    var p := Progress(d.markers, d.headers[d.markers.header], {}, {}, true, s, 0);
    assert t.Anchored(v.head);
    trace := [d];
    while head < p.current.number
      invariant Underway(v, d, s, root, head, p)
      invariant 0 < |trace| && trace[0] == d && trace[|trace| - 1] == d.(markers := p.markers)
      invariant forall i :: 0 <= i < |trace| ==> Safe(trace[i])
      invariant |trace| == t.headers[v.head].number - p.current.number + 1
      invariant p.origin <==> p.current.number == t.headers[v.head].number
      decreases p.current.number
    {
      var q, panicked := Round(v, t, d, root, head, p);
      if panicked {
        LeadsNowhere(v, d, s, root, head, p);
        return Outcome(d.(markers := p.markers), p.states, p.rootNumber, true), trace;
      }
      UnderwayNext(v, d, s, root, head, p, q);
      trace := trace + [d.(markers := q.markers)];
      p := q;
    }
    var r := WriteDeletions(v, d, head, p);
    if !p.origin {
      ConsistentSafe(Rewound(v, head), r);
      trace := trace + [r];
    }
    return Outcome(r, p.states, p.rootNumber, false), trace;
  }

  /** The lower of two heads, the first if they are level. */
  ghost function LowerOf(t: Tree, a: Hash, b: Hash): (r: Hash)
    requires a in t.headers && b in t.headers
  {
    if t.headers[a].number <= t.headers[b].number then a else b
  }

  /** The repair of a head block without state: updateFn alone, on the head block itself, writing directly. */
  method Repair(ghost v: View, t: Tree, d: Disk, s: States, root: Hash) returns (o: Outcome, ghost trace: seq<Disk>)
    requires Consistent(v, d) && t == v.tree
    ensures 0 < |trace| && trace[0] == d && trace[|trace| - 1] == o.disk
    ensures forall i :: 0 <= i < |trace| ==> Safe(trace[i])
    ensures Ended(v, d, s, root, 0, true, o.panicked, o.disk.markers.block, o.rootNumber)
    ensures (o.panicked ==> o.disk == d && root != NO_HASH) && s.Restored(o.states)
    ensures !o.panicked ==>
              && Consistent(v, o.disk) && o.disk == d.(markers := o.disk.markers)
              && trace == [d, d.(markers := d.markers.(block := o.disk.markers.block)), o.disk]
              && Moved(t, o.states, d.markers.block, o.disk.markers.block)
              && o.disk.markers.fast == LowerOf(t, d.markers.fast, d.markers.block)
              && o.states.present == s.present + {t.headers[o.disk.markers.block].root} * s.recoverable
  {
    trace := [d];
    var u := UpdateHeads(v, t, d.bodies, s, root, d.markers, t.headers[v.head].number, d.markers.block, 0);
    if u.Panic? {
      return Outcome(d, s, 0, true), trace;
    }
    var lowered := d.(markers := d.markers.(block := u.block));
    trace := trace + [lowered];
    var r := lowered.(markers := lowered.markers.(fast := u.fast));
    trace := trace + [r];
    return Outcome(r, u.states, u.rootNumber, false), trace;
  }

  class BlockStore {
    const genesis: Header
    var disk: Disk
    var states: States

    ghost function State(): (v: View)
      reads this
    {
      View(Tree(genesis, disk.headers), disk.markers.header)
    }

    ghost predicate Valid()
      reads this
    {
      Consistent(State(), disk)
    }

    constructor (genesis: Header, states: States)
      requires genesis.hash != NO_HASH && genesis.number == 0 && 0 < genesis.difficulty
      ensures Valid() && this.genesis == genesis && this.states == states
    {
      this.genesis, this.states := genesis, states;
      disk := Disk(map[genesis.hash := genesis], map[genesis.hash := genesis.difficulty], map[0 := genesis.hash],
                   {genesis.hash}, Markers(genesis.hash, genesis.hash, genesis.hash));
      new;
      assert State().tree.Anchored(genesis.hash);
    }

    /** A node that comes up with a database from before. */
    constructor Open(genesis: Header, disk: Disk, states: States)
      requires Consistent(View(Tree(genesis, disk.headers), disk.markers.header), disk)
      ensures Valid() && this.genesis == genesis && this.disk == disk && this.states == states
    {
      this.genesis, this.disk, this.states := genesis, disk, states;
    }

    /** Every point where the program may be cut off leaves markers that name data in the database.  A rewind that
        ends leaves exactly the rewound chain, with all three markers on it and the header head the highest; a repair
        leaves the chain as it was.  Only a requested root can make it panic. */
    method SetHeadBeyondRoot(head: nat, root: Hash, repair: bool)
        returns (rootNumber: nat, panicked: bool, ghost trace: seq<Disk>)
      requires Valid()
      modifies this
      ensures 0 < |trace| && trace[0] == old(disk) && trace[|trace| - 1] == disk
      ensures forall i :: 0 <= i < |trace| ==> Safe(trace[i])
      ensures panicked ==> root != NO_HASH
      ensures !panicked ==> Valid() && State() == if repair then old(State()) else Rewound(old(State()), head)
      ensures Moved(old(State()).tree, states, old(disk).markers.block, disk.markers.block)
      ensures old(states).Restored(states)
      ensures Ended(old(State()), old(disk), old(states), root, if repair then 0 else head, repair, panicked,
                    disk.markers.block, rootNumber)
      ensures !repair && root == NO_HASH ==>
                Settles(old(State()), old(disk), old(states), head, disk.markers.block)
      ensures !panicked && !repair ==>
                && FastAt(old(State()), old(disk), head, disk.markers.fast)
                && disk.bodies == old(disk).bodies * disk.headers.Keys
      ensures repair ==> disk == old(disk).(markers := disk.markers) && (panicked ==> disk == old(disk))
      ensures !panicked && repair ==>
                && states.present ==
                   old(states).present + {disk.headers[disk.markers.block].root} * old(states).recoverable
                && disk.markers.fast == LowerOf(old(State()).tree, old(disk).markers.fast, old(disk).markers.block)
    {
      var t := Tree(genesis, disk.headers);
      var o;
      if repair {
        o, trace := Repair(State(), t, disk, states, root);
      } else {
        o, trace := RewindBlocks(State(), t, disk, states, root, head);
        if root == NO_HASH {
          EndSettles(State(), disk, states, head, o.disk.markers.block, o.rootNumber);
        }
      }
      disk, states := o.disk, o.states;
      return o.rootNumber, o.panicked, trace;
    }

    /** SetHead never panics. */
    method SetHead(head: nat) returns (ghost trace: seq<Disk>)
      requires Valid()
      modifies this
      ensures Valid() && State() == Rewound(old(State()), head)
      ensures 0 < |trace| && trace[0] == old(disk) && trace[|trace| - 1] == disk
      ensures forall i :: 0 <= i < |trace| ==> Safe(trace[i])
      ensures Moved(old(State()).tree, states, old(disk).markers.block, disk.markers.block)
      ensures Settles(old(State()), old(disk), old(states), head, disk.markers.block)
      ensures FastAt(old(State()), old(disk), head, disk.markers.fast)
      ensures disk.bodies == old(disk).bodies * disk.headers.Keys
    {
      var rootNumber, panicked;
      rootNumber, panicked, trace := SetHeadBeyondRoot(head, NO_HASH, false);
    }
  }

  // ---------------------------------------------------------------- the panic is reachable

  const H0 := Header(1, 0, 0, 1, 10)
  const H1 := Header(2, 1, 1, 1, 11)
  const H2 := Header(3, 2, 2, 1, 12)
  const H3 := Header(4, 3, 3, 1, 13)

  /** A chain of three blocks, the first without its body. */
  const GAPPED := Disk(map[1 := H0, 2 := H1, 3 := H2, 4 := H3], map[1 := 1, 2 := 2, 3 := 3, 4 := 4],
                       map[0 := 1, 1 := 2, 2 := 3, 3 := 4], {1, 3, 4}, Markers(4, 4, 4))

  ghost function Gapped(): (v: View)
  {
    View(Tree(H0, GAPPED.headers), 4)
  }

  lemma GappedPaths()
    ensures var t := Gapped().tree;
            && t.Rooted()
            && t.Path(4) == [1, 2, 3, 4] && t.Td(1) == 1 && t.Td(2) == 2 && t.Td(3) == 3 && t.Td(4) == 4
  {
    var t := Gapped().tree;
    assert t.Anchored(1) && t.Anchored(2) && t.Anchored(3) && t.Anchored(4);
    assert t.Path(1) == [1] && t.Path(2) == [1, 2] && t.Path(3) == [1, 2, 3];
  }

  lemma GappedConsistent()
    ensures Consistent(Gapped(), GAPPED)
  {
    GappedPaths();
    assert GAPPED.canon == IndexOf([1, 2, 3, 4]);
  }

  /** The head has no state and the block below it has one, but the block below that has no body: a repair down to the
      root of the snapshot, which is further down, panics. */
  method RepairPanics() returns (store: BlockStore, panicked: bool)
    ensures panicked
  {
    GappedConsistent();
    var states := States({10, 12}, {}, None);
    store := new BlockStore.Open(H0, GAPPED, states);
    assert store.State() == Gapped();
    var rootNumber;
    ghost var trace;
    rootNumber, panicked, trace := store.SetHeadBeyondRoot(3, 10, true);
    GappedBreaks(states);
  }

  lemma GappedBreaks(s: States)
    requires s == States({10, 12}, {}, None)
    ensures Gapped().tree.Rooted() && Seek(Gapped().tree, GAPPED.bodies, s, 10, 4, false, 0).Nil?
  {
    GappedPaths();
    SeekNil(Gapped().tree, GAPPED.bodies, s, 10, 4, 0);
    assert Breaks(Gapped().tree, GAPPED.bodies, s, 10, [1, 2, 3, 4], 3, 2);
  }
}
