/** The rows that a block chain derives from its head block, and what is announced when they change.

The number index, the transaction lookup and the three head markers of core/blockchain.go are functions of
the path from genesis to the head block.  Everything here is about paths, as sequences of hashes, and rows;
where the paths come from does not matter.
*/
module ChainRows {
  import opened HeaderTree
  import opened Options

  type Tx = nat
  type Log = nat

  datatype Event =
    | RemovedLogs(logs: seq<Log>)
    | NewLogs(logs: seq<Log>)
    | SideBlock(hash: Hash)
    | ReorgedBlock(hash: Hash)

  // ---------------------------------------------------------------- data along a path

  /** The row of `k`; an absent row is empty. */
  function RowOf<T>(rows: map<Hash, seq<T>>, k: Hash): (row: seq<T>)
  {
    if k in rows then rows[k] else []
  }

  /** The rows of `path` one after the other. */
  function Along<T>(rows: map<Hash, seq<T>>, path: seq<Hash>): (all: seq<T>)
  {
    if path == [] then []
    else Along(rows, path[..|path| - 1]) + RowOf(rows, path[|path| - 1])
  }

  lemma {:induction false} AlongConcat<T>(rows: map<Hash, seq<T>>, a: seq<Hash>, b: seq<Hash>)
    ensures Along(rows, a + b) == Along(rows, a) + Along(rows, b)
    decreases |b|
  {
    if b == [] {
      assert a + b == a;
    } else {
      var n := |b| - 1;
      assert (a + b)[..|a + b| - 1] == a + b[..n];
      AlongConcat(rows, a, b[..n]);
    }
  }

  lemma Grow<T>(rows: map<Hash, seq<T>>, path: seq<Hash>, k: Hash)
    ensures Along(rows, path + [k]) == Along(rows, path) + RowOf(rows, k)
  {
    assert (path + [k])[..|path|] == path;
  }

  lemma AlongFirst<T>(rows: map<Hash, seq<T>>, path: seq<Hash>)
    requires path != []
    ensures Along(rows, path) == RowOf(rows, path[0]) + Along(rows, path[1..])
  {
    assert path == [path[0]] + path[1..];
    AlongConcat(rows, [path[0]], path[1..]);
    assert [path[0]][..0] == [];
  }

  lemma {:induction false} AlongSame<T>(rows: map<Hash, seq<T>>, more: map<Hash, seq<T>>, path: seq<Hash>)
    requires forall i :: 0 <= i < |path| ==> RowOf(more, path[i]) == RowOf(rows, path[i])
    ensures Along(more, path) == Along(rows, path)
    decreases |path|
  {
    if path != [] {
      AlongSame(rows, more, path[..|path| - 1]);
    }
  }

  /** The block with number `n` of the path has `x`. */
  ghost predicate At<T>(rows: map<Hash, seq<T>>, path: seq<Hash>, x: T, n: nat)
  {
    n < |path| && x in RowOf(rows, path[n])
  }

  /** One of the blocks `lo` to `hi - 1` of the path has `x`. */
  ghost predicate Has<T>(rows: map<Hash, seq<T>>, path: seq<Hash>, x: T, lo: nat, hi: nat)
  {
    exists n {:trigger At(rows, path, x, n)} :: lo <= n < hi && At(rows, path, x, n)
  }

  /** Blocks `lo` to `hi - 1` of the path, as a path of their own. */
  ghost function Part(path: seq<Hash>, lo: nat, hi: nat): (part: seq<Hash>)
    requires hi <= |path|
    decreases hi
  {
    if hi <= lo then [] else Part(path, lo, hi - 1) + [path[hi - 1]]
  }

  lemma {:induction false} PartAt(path: seq<Hash>, lo: nat, hi: nat)
    requires lo <= hi <= |path|
    ensures |Part(path, lo, hi)| == hi - lo
    ensures forall i :: 0 <= i < hi - lo ==> Part(path, lo, hi)[i] == path[lo + i]
    decreases hi
  {
    if lo < hi { PartAt(path, lo, hi - 1); }
  }

  lemma {:induction false} PartConcat(path: seq<Hash>, lo: nat, mid: nat, hi: nat)
    requires lo <= mid <= hi <= |path|
    ensures Part(path, lo, mid) + Part(path, mid, hi) == Part(path, lo, hi)
    decreases hi
  {
    if mid < hi {
      PartConcat(path, lo, mid, hi - 1);
      var a, b := Part(path, lo, mid), Part(path, mid, hi - 1);
      assert a + (b + [path[hi - 1]]) == a + b + [path[hi - 1]];
    } else {
      assert Part(path, lo, mid) + [] == Part(path, lo, mid);
    }
  }

  lemma {:induction false} PartHas<T>(rows: map<Hash, seq<T>>, path: seq<Hash>, x: T, lo: nat, hi: nat)
    requires hi <= |path|
    ensures x in Along(rows, Part(path, lo, hi)) <==> Has(rows, path, x, lo, hi)
    decreases hi
  {
    if lo < hi {
      PartHas(rows, path, x, lo, hi - 1);
      Grow(rows, Part(path, lo, hi - 1), path[hi - 1]);
      assert At(rows, path, x, hi - 1) <==> x in RowOf(rows, path[hi - 1]);
    }
  }

  // ---------------------------------------------------------------- logs

  /** The log lists of the blocks that have any. */
  function LogLists(receipts: map<Hash, seq<Log>>, chain: seq<Hash>): (lists: seq<seq<Log>>)
  {
    if chain == [] then []
    else Listed(LogLists(receipts, chain[..|chain| - 1]), RowOf(receipts, chain[|chain| - 1]))
  }

  function Listed(lists: seq<seq<Log>>, logs: seq<Log>): (r: seq<seq<Log>>)
  {
    if logs == [] then lists else lists + [logs]
  }

  lemma GrowLists(receipts: map<Hash, seq<Log>>, chain: seq<Hash>, k: Hash)
    ensures LogLists(receipts, chain + [k]) == Listed(LogLists(receipts, chain), RowOf(receipts, k))
  {
    assert (chain + [k])[..|chain|] == chain;
  }

  function MergeUp(lists: seq<seq<Log>>): (logs: seq<Log>)
  {
    if lists == [] then [] else MergeUp(lists[..|lists| - 1]) + lists[|lists| - 1]
  }

  function MergeDown(lists: seq<seq<Log>>): (logs: seq<Log>)
  {
    if lists == [] then [] else lists[|lists| - 1] + MergeDown(lists[..|lists| - 1])
  }

  /** mergeLogs: the lists joined, in order or in reverse order of the lists. */
  method MergeLogs(lists: seq<seq<Log>>, reverse: bool) returns (logs: seq<Log>)
    ensures logs == if reverse then MergeDown(lists) else MergeUp(lists)
  {
    logs := [];
    assert lists[..|lists|] == lists;
    if reverse {
      for i := |lists| downto 0
        invariant MergeDown(lists) == logs + MergeDown(lists[..i])
      {
        assert lists[..i + 1][..i] == lists[..i];
        logs := logs + lists[i];
      }
    } else {
      for i := 0 to |lists|
        invariant logs == MergeUp(lists[..i])
      {
        assert lists[..i + 1][..i] == lists[..i];
        logs := logs + lists[i];
      }
    }
  }

  lemma MergeNext(lists: seq<seq<Log>>, logs: seq<Log>)
    ensures MergeDown(Listed(lists, logs)) == logs + MergeDown(lists)
    ensures MergeUp(Listed(lists, logs)) == MergeUp(lists) + logs
  {
    if logs == [] {
      assert logs + MergeDown(lists) == MergeDown(lists) && MergeUp(lists) + logs == MergeUp(lists);
    } else {
      assert (lists + [logs])[..|lists|] == lists;
    }
  }

  /** The lists of a stretch of path, merged in order, are its logs. */
  lemma {:induction false} MergedUp(receipts: map<Hash, seq<Log>>, path: seq<Hash>)
    ensures MergeUp(LogLists(receipts, path)) == Along(receipts, path)
    ensures LogLists(receipts, path) == [] <==> Along(receipts, path) == []
    decreases |path|
  {
    if path != [] {
      var n := |path| - 1;
      MergedUp(receipts, path[..n]);
      MergeNext(LogLists(receipts, path[..n]), RowOf(receipts, path[n]));
    }
  }

  /** `chain` is `path` the other way round. */
  ghost predicate Mirrors(chain: seq<Hash>, path: seq<Hash>)
  {
    |chain| == |path| && forall i {:trigger chain[i]} :: 0 <= i < |chain| ==> chain[i] == path[|path| - 1 - i]
  }

  /** The lists of a stretch of path walked down, merged in reverse, are its logs, oldest first. */
  lemma {:induction false} MergedDown(receipts: map<Hash, seq<Log>>, chain: seq<Hash>, path: seq<Hash>)
    requires Mirrors(chain, path)
    ensures MergeDown(LogLists(receipts, chain)) == Along(receipts, path)
    ensures LogLists(receipts, chain) == [] <==> Along(receipts, path) == []
    decreases |chain|
  {
    if chain != [] {
      var last := |chain| - 1;
      assert chain[last] == path[0];
      MergedDown(receipts, chain[..last], path[1..]);
      AlongFirst(receipts, path);
      MergeNext(LogLists(receipts, chain[..last]), RowOf(receipts, path[0]));
    }
  }

  lemma {:induction false} MirroredMembers<T>(rows: map<Hash, seq<T>>, chain: seq<Hash>, path: seq<Hash>, x: T)
    requires Mirrors(chain, path)
    ensures x in Along(rows, chain) <==> x in Along(rows, path)
    decreases |chain|
  {
    if chain != [] {
      var last := |chain| - 1;
      assert chain[last] == path[0];
      MirroredMembers(rows, chain[..last], path[1..], x);
      AlongFirst(rows, path);
    }
  }

  // ---------------------------------------------------------------- announcements

  /** Side and reorg announcements, one of each per dropped block, in the order of the path. */
  function Sides(path: seq<Hash>): (events: seq<Event>)
  {
    if path == [] then [] else [SideBlock(path[0]), ReorgedBlock(path[0])] + Sides(path[1..])
  }

  function Removed(logs: seq<Log>): (events: seq<Event>)
  {
    if logs == [] then [] else [RemovedLogs(logs)]
  }

  function Added(logs: seq<Log>): (events: seq<Event>)
  {
    if logs == [] then [] else [NewLogs(logs)]
  }

  /** What a reorg announces about the blocks it drops and the blocks it revives, both oldest first. */
  function Announced(receipts: map<Hash, seq<Log>>, dropped: seq<Hash>, revived: seq<Hash>): (events: seq<Event>)
  {
    Removed(Along(receipts, dropped)) + Added(Along(receipts, revived)) + Sides(dropped)
  }

  /** Announces dropped blocks from the last collected, the oldest, to the first. */
  method AnnounceDropped(chain: seq<Hash>, ghost path: seq<Hash>) returns (events: seq<Event>)
    requires Mirrors(chain, path)
    ensures events == Sides(path)
  {
    events := [];
    ghost var done := 0;
    for i := |chain| downto 0
      invariant done == |chain| - i && events + Sides(path[done..]) == Sides(path)
    {
      assert chain[i] == path[done] && path[done..][0] == path[done] && path[done..][1..] == path[done + 1..];
      SidesNext(events, path[done..]);
      events := events + [SideBlock(chain[i]), ReorgedBlock(chain[i])];
      done := done + 1;
    }
  }

  lemma SidesNext(events: seq<Event>, path: seq<Hash>)
    requires path != []
    ensures events + Sides(path) == events + [SideBlock(path[0]), ReorgedBlock(path[0])] + Sides(path[1..])
  {
  }

  /** The announcements of a reorg, in the order in which it makes them. */
  method Announce(receipts: map<Hash, seq<Log>>, oldChain: seq<Hash>, deletedLogs: seq<seq<Log>>,
                  rebirthLogs: seq<seq<Log>>,
                  ghost dropped: seq<Hash>, ghost revived: seq<Hash>) returns (events: seq<Event>)
    requires Mirrors(oldChain, dropped)
    requires deletedLogs == LogLists(receipts, oldChain) && rebirthLogs == LogLists(receipts, revived)
    ensures events == Announced(receipts, dropped, revived)
  {
    MergedDown(receipts, oldChain, dropped);
    MergedUp(receipts, revived);
    var removed: seq<Event>, reborn: seq<Event> := [], [];
    if 0 < |deletedLogs| {
      var logs := MergeLogs(deletedLogs, true);
      removed := [RemovedLogs(logs)];
    }
    if 0 < |rebirthLogs| {
      var logs := MergeLogs(rebirthLogs, false);
      reborn := [NewLogs(logs)];
    }
    MergedNonempty(deletedLogs, receipts, oldChain);
    var sides := AnnounceDropped(oldChain, dropped);
    events := removed + reborn + sides;
  }

  /** Lists are entered only if they are not empty, so merging some gives something. */
  lemma {:induction false} MergedNonempty(lists: seq<seq<Log>>, receipts: map<Hash, seq<Log>>, chain: seq<Hash>)
    requires lists == LogLists(receipts, chain)
    ensures lists != [] ==> MergeDown(lists) != [] && MergeUp(lists) != []
    decreases |chain|
  {
    if chain != [] {
      var n := |chain| - 1;
      MergedNonempty(LogLists(receipts, chain[..n]), receipts, chain[..n]);
      MergeNext(LogLists(receipts, chain[..n]), RowOf(receipts, chain[n]));
    }
  }

  // ---------------------------------------------------------------- a client of the log feeds

  /** A client holds the canonical logs.  It takes removed logs off the end, and gives up if they
      are not there. */
  function FollowOne(held: seq<Log>, event: Event): (r: Option<seq<Log>>)
  {
    match event
    case RemovedLogs(gone) =>
      if |gone| <= |held| && held[|held| - |gone|..] == gone then Some(held[..|held| - |gone|]) else None
    case NewLogs(added) => Some(held + added)
    case SideBlock(_) => Some(held)
    case ReorgedBlock(_) => Some(held)
  }

  function Follow(logs: Option<seq<Log>>, events: seq<Event>): (r: Option<seq<Log>>)
    decreases |events|
  {
    if logs.None? || events == [] then logs
    else Follow(FollowOne(logs.value, events[0]), events[1..])
  }

  lemma {:induction false} FollowConcat(logs: Option<seq<Log>>, a: seq<Event>, b: seq<Event>)
    ensures Follow(logs, a + b) == Follow(Follow(logs, a), b)
    decreases |a|
  {
    if a == [] {
      assert a + b == b;
    } else if logs.Some? {
      assert (a + b)[1..] == a[1..] + b;
      FollowConcat(FollowOne(logs.value, a[0]), a[1..], b);
    }
  }

  lemma {:induction false} FollowSides(logs: seq<Log>, path: seq<Hash>)
    ensures Follow(Some(logs), Sides(path)) == Some(logs)
    decreases |path|
  {
    if path != [] {
      FollowSides(logs, path[1..]);
      var events := Sides(path);
      assert events[1..][1..] == Sides(path[1..]);
    }
  }

  lemma FollowRemoved(base: seq<Log>, gone: seq<Log>)
    ensures Follow(Some(base + gone), Removed(gone)) == Some(base)
  {
    if gone == [] {
      assert base + gone == base;
    } else {
      assert Removed(gone)[1..] == [];
      assert (base + gone)[|base|..] == gone && (base + gone)[..|base|] == base;
    }
  }

  lemma FollowAdded(base: seq<Log>, back: seq<Log>)
    ensures Follow(Some(base), Added(back)) == Some(base + back)
  {
    if back == [] {
      assert base + back == base;
    } else {
      assert Added(back)[1..] == [];
    }
  }

  /** After a reorg's announcements the client holds the logs up to the block before the new head. */
  lemma FollowAnnounced(receipts: map<Hash, seq<Log>>, low: seq<Hash>, dropped: seq<Hash>, revived: seq<Hash>)
    ensures Follow(Some(Along(receipts, low + dropped)), Announced(receipts, dropped, revived))
            == Some(Along(receipts, low + revived))
  {
    AlongConcat(receipts, low, dropped);
    AlongConcat(receipts, low, revived);
    var base, gone, back := Along(receipts, low), Along(receipts, dropped), Along(receipts, revived);
    FollowRemoved(base, gone);
    FollowAdded(base, back);
    FollowSides(base + back, dropped);
    FollowConcat(Some(base + gone), Removed(gone), Added(back));
    FollowConcat(Some(base + gone), Removed(gone) + Added(back), Sides(dropped));
  }

  // ---------------------------------------------------------------- two paths that fork

  /** The paths share the blocks up to number `c` and no others. */
  ghost predicate Forked(a: seq<Hash>, b: seq<Hash>, c: nat)
  {
    && c < |a| && c < |b|
    && forall n {:trigger a[n]} {:trigger b[n]} :: 0 <= n < |a| && n < |b| ==> (a[n] == b[n] <==> n <= c)
  }

  /** The last block that reorg itself writes as head: the one before the new head. */
  function LastRewritten(top: nat, c: nat): (m: nat)
  {
    if c < top then top - 1 else c
  }

  ghost function Dropped(a: seq<Hash>, c: nat): (path: seq<Hash>)
  {
    Part(a, c + 1, |a|)
  }

  ghost function Revived(b: seq<Hash>, c: nat): (path: seq<Hash>)
    requires c < |b|
  {
    Part(b, c + 1, LastRewritten(|b| - 1, c) + 1)
  }

  lemma {:induction false} SamePrefix(a: seq<Hash>, b: seq<Hash>, c: nat, hi: nat)
    requires Forked(a, b, c) && hi <= c + 1
    ensures Part(a, 0, hi) == Part(b, 0, hi)
    decreases hi
  {
    if 0 < hi {
      SamePrefix(a, b, c, hi - 1);
      assert a[hi - 1] == b[hi - 1];
    }
  }

  lemma WholePath(a: seq<Hash>)
    ensures Part(a, 0, |a|) == a
  {
    PartAt(a, 0, |a|);
  }

  /** The new path is the common part, the revived blocks and, unless it is common too, the new head. */
  lemma SwitchPaths(a: seq<Hash>, b: seq<Hash>, c: nat)
    requires Forked(a, b, c)
    ensures a == Part(a, 0, c + 1) + Dropped(a, c)
    ensures b == Part(a, 0, c + 1) + Revived(b, c) + (if c < |b| - 1 then [b[|b| - 1]] else [])
  {
    WholePath(a);
    PartConcat(a, 0, c + 1, |a|);
    SamePrefix(a, b, c, c + 1);
    WholePath(b);
    PartConcat(b, 0, c + 1, LastRewritten(|b| - 1, c) + 1);
  }

  lemma SuffixEmpty<T>(s: seq<T>, x: seq<T>)
    ensures s + x == s <==> x == []
  {
    assert |s + x| == |s| + |x|;
  }

  /** The announcements of a switch, followed by the logs of the new head, take the client from the logs of one path
      to those of the other, unless the new head was canonical before and has logs. */
  lemma FollowSwitch(receipts: map<Hash, seq<Log>>, a: seq<Hash>, b: seq<Hash>, c: nat)
    requires Forked(a, b, c)
    ensures var events := Announced(receipts, Dropped(a, c), Revived(b, c)) + Added(RowOf(receipts, b[|b| - 1]));
            Follow(Some(Along(receipts, a)), events) == Some(Along(receipts, b)) <==>
            c < |b| - 1 || RowOf(receipts, b[|b| - 1]) == []
  {
    var low, dropped, revived, logs := Part(a, 0, c + 1), Dropped(a, c), Revived(b, c), RowOf(receipts, b[|b| - 1]);
    SwitchPaths(a, b, c);
    FollowAnnounced(receipts, low, dropped, revived);
    FollowConcat(Some(Along(receipts, a)), Announced(receipts, dropped, revived), Added(logs));
    FollowAdded(Along(receipts, low + revived), logs);
    if c < |b| - 1 {
      Grow(receipts, low + revived, b[|b| - 1]);
    } else {
      assert low + revived + [] == low + revived;
      SuffixEmpty(Along(receipts, low + revived), logs);
    }
  }

  // ---------------------------------------------------------------- the rows of a head block

  /** The number index, the transaction lookup and the head-block, head-fast-block and head-header markers. */
  datatype Rows = Rows(canon: map<nat, Hash>, lookup: map<Tx, nat>, headBlock: Hash, headFast: Hash, headHeader: Hash)

  /** The lookup with an entry for each of the transactions of block number `n`. */
  function Entered(lookup: map<Tx, nat>, txs: seq<Tx>, n: nat): (r: map<Tx, nat>)
  {
    lookup + (map x | x in txs :: n)
  }

  /** writeHeadBlock: makes `k` canonical at its number and the head block, and moves the
      other two heads onto it unless it was canonical already. */
  function HeadRows(r: Rows, k: Hash, n: nat, txs: seq<Tx>): (after: Rows)
  {
    var updateHeads := !(n in r.canon && r.canon[n] == k);
    Rows(r.canon[n := k], Entered(r.lookup, txs, n), k,
         if updateHeads then k else r.headFast, if updateHeads then k else r.headHeader)
  }

  /** No transaction occurs at two numbers of the path (its nonce is spent by then). */
  ghost predicate Once(bodies: map<Hash, seq<Tx>>, path: seq<Hash>)
  {
    forall x, a, b {:trigger At(bodies, path, x, a), At(bodies, path, x, b)} ::
      At(bodies, path, x, a) && At(bodies, path, x, b) ==> a == b
  }

  /** The lookup finds exactly the transactions on the path, at their blocks. */
  ghost predicate LookupExact(bodies: map<Hash, seq<Tx>>, lookup: map<Tx, nat>, path: seq<Hash>)
  {
    forall x, n {:trigger At(bodies, path, x, n)} :: (x in lookup && lookup[x] == n) <==> At(bodies, path, x, n)
  }

  /** The rows are those of the last block of the path. */
  ghost predicate Derived(bodies: map<Hash, seq<Tx>>, path: seq<Hash>, r: Rows)
  {
    && path != [] && r.headBlock == path[|path| - 1] && r.headFast == r.headBlock && r.headHeader == r.headBlock
    && r.canon == IndexOf(path)
    && LookupExact(bodies, r.lookup, path)
  }

  // ---------------------------------------------------------------- extending the head block

  lemma ExtendedLookup(bodies: map<Hash, seq<Tx>>, lookup: map<Tx, nat>, path: seq<Hash>, k: Hash)
    requires LookupExact(bodies, lookup, path) && Once(bodies, path + [k])
    ensures LookupExact(bodies, Entered(lookup, RowOf(bodies, k), |path|), path + [k])
  {
    var r, longer := Entered(lookup, RowOf(bodies, k), |path|), path + [k];
    forall x, n: nat
      ensures (x in r && r[x] == n) <==> At(bodies, longer, x, n)
    {
      assert n < |path| ==> (At(bodies, longer, x, n) <==> At(bodies, path, x, n));
      assert At(bodies, longer, x, |path|) <==> x in RowOf(bodies, k);
      assert x in lookup ==> At(bodies, path, x, lookup[x]);
    }
  }

  /** Extending the head block by a child keeps the rows those of the head. */
  lemma ExtendedDerived(bodies: map<Hash, seq<Tx>>, path: seq<Hash>, r: Rows, k: Hash)
    requires Derived(bodies, path, r) && Once(bodies, path + [k])
    ensures Derived(bodies, path + [k], HeadRows(r, k, |path|, RowOf(bodies, k)))
  {
    ExtendedLookup(bodies, r.lookup, path, k);
    assert r.canon[|path| := k] == IndexOf(path + [k]);
  }

  // ---------------------------------------------------------------- rewriting the rows of the new branch

  /** The index with rows for blocks `c + 1` to `m` of `path`. */
  ghost function CanonWritten(canon: map<nat, Hash>, path: seq<Hash>, c: nat, m: nat): (after: map<nat, Hash>)
    requires m < |path|
    decreases m
  {
    if m <= c then canon else CanonWritten(canon, path, c, m - 1)[m := path[m]]
  }

  /** The lookup with the transactions of blocks `c + 1` to `m` of `path`. */
  ghost function LookupOf(bodies: map<Hash, seq<Tx>>, lookup: map<Tx, nat>, path: seq<Hash>, c: nat, m: nat)
      : (after: map<Tx, nat>)
    requires m < |path|
    decreases m
  {
    if m <= c then lookup else Entered(LookupOf(bodies, lookup, path, c, m - 1), RowOf(bodies, path[m]), m)
  }

  /** Rows `c + 1` to `m` hold the path, the others what they held before. */
  ghost predicate RowsWritten(path: seq<Hash>, before: map<nat, Hash>, after: map<nat, Hash>, c: nat, m: nat)
  {
    && m < |path|
    && (forall n :: c < n <= m ==> n in after && after[n] == path[n])
    && (forall n :: !(c < n <= m) ==> (n in after <==> n in before) && (n in after ==> after[n] == before[n]))
  }

  ghost predicate SameEntry(before: map<Tx, nat>, after: map<Tx, nat>, x: Tx)
  {
    (x in after <==> x in before) && (x in after ==> after[x] == before[x])
  }

  /** A transaction of one of the blocks `c + 1` to `m` is looked up there, any other as before. */
  ghost predicate LookupWritten(bodies: map<Hash, seq<Tx>>, path: seq<Hash>, before: map<Tx, nat>,
                                after: map<Tx, nat>, c: nat, m: nat, x: Tx)
  {
    if Has(bodies, path, x, c + 1, m + 1) then x in after && c < after[x] <= m && At(bodies, path, x, after[x])
    else SameEntry(before, after, x)
  }

  /** Writing the branch block by block writes its rows, and no others. */
  lemma {:induction false} BranchRows(canon: map<nat, Hash>, path: seq<Hash>, c: nat, m: nat)
    requires c <= m < |path|
    ensures RowsWritten(path, canon, CanonWritten(canon, path, c, m), c, m)
    decreases m
  {
    if c < m { BranchRows(canon, path, c, m - 1); }
  }

  /** The rows up to `m` are those of the path. */
  ghost predicate WholeUpTo(path: seq<Hash>, canon: map<nat, Hash>, m: nat)
  {
    m < |path| && forall n :: 0 <= n <= m ==> n in canon && canon[n] == path[n]
  }

  lemma BatchWhole(canon: map<nat, Hash>, a: seq<Hash>, b: seq<Hash>, c: nat, m: nat)
    requires Forked(a, b, c) && c <= m < |b| && canon == IndexOf(a)
    ensures WholeUpTo(b, CanonWritten(canon, b, c, m), m)
  {
    BranchRows(canon, b, c, m);
    assert forall n :: 0 <= n <= c ==> a[n] == b[n];
  }

  lemma LookupNext(bodies: map<Hash, seq<Tx>>, path: seq<Hash>, before: map<Tx, nat>, after: map<Tx, nat>, c: nat,
                   m: nat, x: Tx)
    requires c <= m < |path| - 1 && LookupWritten(bodies, path, before, after, c, m, x)
    ensures LookupWritten(bodies, path, before, Entered(after, RowOf(bodies, path[m + 1]), m + 1), c, m + 1, x)
  {
    if x in RowOf(bodies, path[m + 1]) {
      assert At(bodies, path, x, m + 1);
    } else {
      assert !At(bodies, path, x, m + 1);
      assert Has(bodies, path, x, c + 1, m + 2) <==> Has(bodies, path, x, c + 1, m + 1);
    }
  }

  /** It enters its transactions, and leaves the others alone. */
  lemma {:induction false} BranchLookup(bodies: map<Hash, seq<Tx>>, lookup: map<Tx, nat>, path: seq<Hash>, c: nat,
                                        m: nat, x: Tx)
    requires c <= m < |path|
    ensures LookupWritten(bodies, path, lookup, LookupOf(bodies, lookup, path, c, m), c, m, x)
    decreases m
  {
    if c < m {
      BranchLookup(bodies, lookup, path, c, m - 1, x);
      LookupNext(bodies, path, lookup, LookupOf(bodies, lookup, path, c, m - 1), c, m - 1, x);
    }
  }

  // ---------------------------------------------------------------- reorganising

  /** TxDifference, as the set of entries to delete. */
  function TxDifference(a: seq<Tx>, b: seq<Tx>): (r: set<Tx>)
  {
    set x | x in a && x !in b
  }

  /** The transactions that are only on the old branch. */
  ghost function Gone(bodies: map<Hash, seq<Tx>>, a: seq<Hash>, b: seq<Hash>, c: nat): (r: set<Tx>)
    requires c < |a| && c < |b|
  {
    TxDifference(Along(bodies, Dropped(a, c)), Along(bodies, Revived(b, c)))
  }

  /** The number of the head block once the branch is rewritten; deletion starts above it. */
  function MidTop(a: seq<Hash>, b: seq<Hash>, c: nat): (n: nat)
    requires a != []
  {
    if c + 1 < |b| - 1 then |b| - 2 else |a| - 1
  }

  /** The rows that a reorg leaves: the branch rewritten except for its head, the entries of lost transactions and
      the index rows above the rewritten part, up to the first gap, deleted. */
  ghost predicate Reorganised(bodies: map<Hash, seq<Tx>>, a: seq<Hash>, b: seq<Hash>, c: nat, before: Rows,
                              after: Rows, gap: nat)
    requires Forked(a, b, c)
  {
    var m := LastRewritten(|b| - 1, c);
    && after.lookup == LookupOf(bodies, before.lookup, b, c, m) - Gone(bodies, a, b, c)
    && after.headBlock == (if c < m then b[m] else before.headBlock)
    && (m == c ==> after.headFast == before.headFast && after.headHeader == before.headHeader)
    && RunEnds(CanonWritten(before.canon, b, c, m), MidTop(a, b, c) + 1, gap)
    && after.canon == Without(CanonWritten(before.canon, b, c, m), MidTop(a, b, c) + 1, gap)
  }

  /** The one case in which a reorg leaves stale index rows: the new head is lower than the old
      head and is built on the canonical chain, so that no block is rewritten before rows are deleted. */
  ghost predicate Stale(a: seq<Hash>, b: seq<Hash>)
  {
    1 < |b| < |a| && a[|b| - 2] == b[|b| - 2]
  }

  /** The deletions of a reorg leave the rows up to the head block, which is on the new branch if a block was rewritten;
      with the row of the new head they are whole up to that. */
  lemma DeletedWhole(a: seq<Hash>, b: seq<Hash>, c: nat, gap: nat)
    requires Forked(a, b, c)
    ensures var canon := Without(CanonWritten(IndexOf(a), b, c, LastRewritten(|b| - 1, c)), MidTop(a, b, c) + 1, gap);
            && (if c + 1 < |b| - 1 then WholeUpTo(b, canon, |b| - 2) else WholeUpTo(a, canon, |a| - 1))
            && WholeUpTo(b, canon[|b| - 1 := b[|b| - 1]], |b| - 1)
  {
    var m := LastRewritten(|b| - 1, c);
    if c + 1 < |b| - 1 {
      BatchWhole(IndexOf(a), a, b, c, m);
    } else {
      assert forall n :: 0 <= n <= c ==> a[n] == b[n];
    }
  }

  lemma ReorganisedRows(bodies: map<Hash, seq<Tx>>, a: seq<Hash>, b: seq<Hash>, c: nat, before: Rows, after: Rows,
                        gap: nat)
    requires Forked(a, b, c) && Reorganised(bodies, a, b, c, before, after, gap)
    requires before.canon == IndexOf(a) && before.headBlock == a[|a| - 1]
    ensures if c + 1 < |b| - 1 then after.headBlock == b[|b| - 2] && WholeUpTo(b, after.canon, |b| - 2)
            else after.headBlock == a[|a| - 1] && WholeUpTo(a, after.canon, |a| - 1)
    ensures WholeUpTo(b, after.canon[|b| - 1 := b[|b| - 1]], |b| - 1)
  {
    DeletedWhole(a, b, c, gap);
  }

  /** Rewriting at least one block lets the deletion start right above the new branch. */
  lemma RowsAfterRewrite(a: seq<Hash>, b: seq<Hash>, c: nat, mid: map<nat, Hash>, gap: nat)
    requires Forked(a, b, c) && c + 1 < |b| - 1
    requires RowsWritten(b, IndexOf(a), mid, c, |b| - 2) && RunEnds(mid, |b| - 1, gap)
    ensures var canon := Without(mid, |b| - 1, gap);
            |b| - 1 !in canon && canon[|b| - 1 := b[|b| - 1]] == IndexOf(b)
  {
    var top := |b| - 1;
    forall n | 0 <= n < top
      ensures n in mid && mid[n] == b[n]
    {
      if n <= c { assert a[n] == b[n]; }
    }
    assert forall n :: n in mid && top <= n ==> n < |a|;
    assert forall n :: n in mid && top <= n ==> n < gap;
  }

  /** Without a rewritten block nothing is deleted, and the row of the new head makes the index that of its path exactly
      when nothing of the old chain reaches above it. */
  lemma RowsAfterNothing(a: seq<Hash>, b: seq<Hash>, c: nat, gap: nat)
    requires Forked(a, b, c) && |b| - 1 <= c + 1 && RunEnds(IndexOf(a), |a|, gap)
    ensures Without(IndexOf(a), |a|, gap) == IndexOf(a)
    ensures IndexOf(a)[|b| - 1 := b[|b| - 1]] == IndexOf(b) <==> |a| <= |b|
  {
    var top := |b| - 1;
    var canon := IndexOf(a)[top := b[top]];
    if |b| < |a| {
      assert |a| - 1 in canon && |a| - 1 !in IndexOf(b);
    } else {
      forall n | 0 <= n < top
        ensures n in canon && canon[n] == b[n]
      {
        assert a[n] == b[n];
      }
      assert canon == IndexOf(b);
    }
  }

  lemma GoneIs(bodies: map<Hash, seq<Tx>>, a: seq<Hash>, b: seq<Hash>, c: nat, x: Tx)
    requires c < |a| && c < |b|
    ensures x in Gone(bodies, a, b, c) <==>
            Has(bodies, a, x, c + 1, |a|) && !Has(bodies, b, x, c + 1, LastRewritten(|b| - 1, c) + 1)
  {
    PartHas(bodies, a, x, c + 1, |a|);
    PartHas(bodies, b, x, c + 1, LastRewritten(|b| - 1, c) + 1);
  }

  /** A transaction of the new path is found there. */
  lemma LookupFinds(bodies: map<Hash, seq<Tx>>, a: seq<Hash>, b: seq<Hash>, c: nat, before: map<Tx, nat>,
                    mid: map<Tx, nat>, x: Tx, n: nat)
    requires Forked(a, b, c) && Once(bodies, a) && LookupExact(bodies, before, a)
    requires LookupWritten(bodies, b, before, mid, c, LastRewritten(|b| - 1, c), x)
    requires At(bodies, b, x, n)
    ensures x in Entered(mid - Gone(bodies, a, b, c), RowOf(bodies, b[|b| - 1]), |b| - 1)
  {
    GoneIs(bodies, a, b, c, x);
    if x !in RowOf(bodies, b[|b| - 1]) && n <= c {
      assert a[n] == b[n] && At(bodies, a, x, n);
      assert !Has(bodies, a, x, c + 1, |a|);
    }
  }

  /** What is found is on the new path, where it is found. */
  lemma LookupFindsOnly(bodies: map<Hash, seq<Tx>>, a: seq<Hash>, b: seq<Hash>, c: nat, before: map<Tx, nat>,
                        mid: map<Tx, nat>, x: Tx)
    requires Forked(a, b, c) && LookupExact(bodies, before, a)
    requires LookupWritten(bodies, b, before, mid, c, LastRewritten(|b| - 1, c), x)
    ensures var r := Entered(mid - Gone(bodies, a, b, c), RowOf(bodies, b[|b| - 1]), |b| - 1);
            x in r ==> At(bodies, b, x, r[x])
  {
    GoneIs(bodies, a, b, c, x);
    if x in mid && !Has(bodies, b, x, c + 1, LastRewritten(|b| - 1, c) + 1) && !Has(bodies, a, x, c + 1, |a|) {
      assert At(bodies, a, x, before[x]);
      assert a[before[x]] == b[before[x]];
    }
  }

  /** After a reorg and the writing of the new head the lookup is exact. */
  lemma SwitchedLookup(bodies: map<Hash, seq<Tx>>, a: seq<Hash>, b: seq<Hash>, c: nat, before: map<Tx, nat>)
    requires Forked(a, b, c) && Once(bodies, a) && Once(bodies, b) && LookupExact(bodies, before, a)
    ensures var mid := LookupOf(bodies, before, b, c, LastRewritten(|b| - 1, c)) - Gone(bodies, a, b, c);
            LookupExact(bodies, Entered(mid, RowOf(bodies, b[|b| - 1]), |b| - 1), b)
  {
    var m := LastRewritten(|b| - 1, c);
    var mid := LookupOf(bodies, before, b, c, m);
    var r := Entered(mid - Gone(bodies, a, b, c), RowOf(bodies, b[|b| - 1]), |b| - 1);
    forall x, n
      ensures (x in r && r[x] == n) <==> At(bodies, b, x, n)
    {
      BranchLookup(bodies, before, b, c, m, x);
      LookupFindsOnly(bodies, a, b, c, before, mid, x);
      if At(bodies, b, x, n) { LookupFinds(bodies, a, b, c, before, mid, x, n); }
    }
  }

  /** After a reorg and the writing of the new head the index is right exactly when the new head does not cut the old
      chain short; then the new head had no row before, or was the head. */
  lemma SwitchedIndex(a: seq<Hash>, b: seq<Hash>, c: nat, gap: nat)
    requires Forked(a, b, c) && 1 < |b|
    requires RunEnds(CanonWritten(IndexOf(a), b, c, LastRewritten(|b| - 1, c)), MidTop(a, b, c) + 1, gap)
    ensures var mid := Without(CanonWritten(IndexOf(a), b, c, LastRewritten(|b| - 1, c)), MidTop(a, b, c) + 1, gap);
            && (mid[|b| - 1 := b[|b| - 1]] == IndexOf(b) <==> !Stale(a, b))
            && (!Stale(a, b) ==> |b| - 1 !in mid || mid[|b| - 1] != b[|b| - 1] || (|a| == |b| && c == |b| - 1))
  {
    var m := LastRewritten(|b| - 1, c);
    BranchRows(IndexOf(a), b, c, m);
    if c + 1 < |b| - 1 {
      RowsAfterRewrite(a, b, c, CanonWritten(IndexOf(a), b, c, m), gap);
    } else {
      RowsAfterNothing(a, b, c, gap);
    }
  }

  /** A switch from one path to another leaves the rows of the new head, if and only if the new head does not cut the
      old chain short. */
  lemma SwitchedDerived(bodies: map<Hash, seq<Tx>>, a: seq<Hash>, b: seq<Hash>, c: nat, before: Rows, mid: Rows,
                        gap: nat)
    requires Forked(a, b, c) && 1 < |b| && Once(bodies, a) && Once(bodies, b)
    requires Derived(bodies, a, before) && Reorganised(bodies, a, b, c, before, mid, gap)
    ensures Derived(bodies, b, HeadRows(mid, b[|b| - 1], |b| - 1, RowOf(bodies, b[|b| - 1]))) <==> !Stale(a, b)
  {
    SwitchedIndex(a, b, c, gap);
    SwitchedLookup(bodies, a, b, c, before.lookup);
    if |a| == |b| && c == |b| - 1 { assert a[c] == b[c]; }
  }

  /** The index holds `k` at `n`. */
  predicate Holds(canon: map<nat, Hash>, n: nat, k: Hash)
  {
    n in canon && canon[n] == k
  }

  /** After a reorg to a block that is not a child of the old head, the index holds the new head only if it did before
      and no block below it was rewritten; then the fast and the header head are where they were. */
  lemma ReorganisedHolds(bodies: map<Hash, seq<Tx>>, a: seq<Hash>, b: seq<Hash>, c: nat, before: Rows, mid: Rows,
                         gap: nat)
    requires Forked(a, b, c) && 1 < |b| && Reorganised(bodies, a, b, c, before, mid, gap)
    requires c == |a| - 1 ==> c + 1 != |b| - 1
    ensures var top, k := |b| - 1, b[|b| - 1];
            && (Holds(mid.canon, top, k) <==> top <= c + 1 && Holds(before.canon, top, k))
            && (top <= c + 1 ==> mid.headFast == before.headFast && mid.headHeader == before.headHeader)
  {
  }
}
