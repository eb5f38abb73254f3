/** core/blockchain.go: block import, fork choice and chain reorganisation.

The database keeps headers, bodies and receipts by hash; the canonical index, the
transaction lookup and the three head markers are rows derived from the head block.
The regime is full import: every stored header has its body and receipts.
*/
module BlockChains {
  import opened HeaderTree
  import opened ChainRows
  import opened Options

  datatype Block = Block(header: Header, txs: seq<Tx>, logs: seq<Log>)

  datatype Database = Database(headers: map<Hash, Header>, td: map<Hash, nat>, bodies: map<Hash, seq<Tx>>,
                               receipts: map<Hash, seq<Log>>, rows: Rows)

  ghost function TreeOf(g: Header, db: Database): (t: Tree)
  {
    Tree(g, db.headers)
  }

  /** No transaction occurs at two numbers of one path. */
  ghost predicate NoReplay(t: Tree, bodies: map<Hash, seq<Tx>>)
    requires t.Rooted()
  {
    forall k {:trigger Once(bodies, t.Path(k))} :: k in t.headers ==> Once(bodies, t.Path(k))
  }

  /** The stored data: rooted headers with exact difficulties, and a body and receipts for each. */
  ghost predicate Full(g: Header, db: Database)
  {
    var t := TreeOf(g, db);
    && t.Rooted()
    && t.TdTable(db.td)
    && db.bodies.Keys == db.headers.Keys
    && db.receipts.Keys == db.headers.Keys
    && db.rows.headBlock in db.headers
    && NoReplay(t, db.bodies)
  }

  /** The path to the head block. */
  ghost function HeadPath(g: Header, db: Database): (path: seq<Hash>)
    requires Full(g, db)
  {
    TreeOf(g, db).Path(db.rows.headBlock)
  }

  /** The rows are those of the head block. */
  ghost predicate Exact(g: Header, db: Database)
    requires Full(g, db)
  {
    Derived(db.bodies, HeadPath(g, db), db.rows)
  }

  // ---------------------------------------------------------------- collecting the two branches

  /** `chain` holds the path to `k` from the top down to, but without, `at`. */
  ghost predicate Walked(t: Tree, k: Hash, at: Hash, chain: seq<Hash>)
    requires t.Rooted() && k in t.headers
  {
    && at in t.headers && t.headers[at].number <= t.headers[k].number
    && t.Path(k)[t.headers[at].number] == at
    && |chain| == t.headers[k].number - t.headers[at].number
    && forall i {:trigger chain[i]} :: 0 <= i < |chain| ==> chain[i] == t.Path(k)[t.headers[k].number - i]
  }

  lemma WalkedDown(t: Tree, k: Hash, at: Hash, chain: seq<Hash>)
    requires t.Rooted() && k in t.headers && Walked(t, k, at, chain) && 0 < t.headers[at].number
    ensures t.headers[at].parentHash in t.headers
    ensures t.headers[t.headers[at].parentHash].number == t.headers[at].number - 1
    ensures Walked(t, k, t.headers[at].parentHash, chain + [at])
  {
    assert t.Anchored(at);
    t.PathLink(k, t.headers[at].number);
  }

  lemma WalkedMirrors(t: Tree, k: Hash, at: Hash, chain: seq<Hash>)
    requires t.Rooted() && k in t.headers && Walked(t, k, at, chain)
    ensures Mirrors(chain, Dropped(t.Path(k), t.headers[at].number))
  {
    var path, c := t.Path(k), t.headers[at].number;
    PartAt(path, c + 1, |path|);
    forall i | 0 <= i < |chain|
      ensures chain[i] == Dropped(path, c)[|chain| - 1 - i]
    {
    }
  }

  /** Walks that meet without having met before meet where the paths fork. */
  lemma WalksFork(t: Tree, a: Hash, b: Hash, at: Hash, aChain: seq<Hash>, bChain: seq<Hash>)
    requires t.Rooted() && a in t.headers && b in t.headers
    requires Walked(t, a, at, aChain) && Walked(t, b, at, bChain)
    requires aChain != [] && bChain != [] ==> aChain[|aChain| - 1] != bChain[|bChain| - 1]
    ensures Forked(t.Path(a), t.Path(b), t.headers[at].number)
  {
    var c := t.headers[at].number;
    forall n | 0 <= n < |t.Path(a)| && n < |t.Path(b)|
      ensures t.Path(a)[n] == t.Path(b)[n] <==> n <= c
    {
      if n <= c { t.PathsAgree(a, b, c, n); } else { t.PathsAgree(a, b, n, c + 1); }
    }
  }

  /** What a walk has gathered about the old branch. */
  ghost predicate Gathered(db: Database, chain: seq<Hash>, txs: seq<Tx>, logs: seq<seq<Log>>)
  {
    txs == Along(db.bodies, chain) && logs == LogLists(db.receipts, chain)
  }

  lemma GatheredNext(db: Database, chain: seq<Hash>, txs: seq<Tx>, logs: seq<seq<Log>>, k: Hash)
    requires Gathered(db, chain, txs, logs) && k in db.bodies && k in db.receipts
    ensures Gathered(db, chain + [k], txs + db.bodies[k], Listed(logs, db.receipts[k]))
  {
    Grow(db.bodies, chain, k);
    GrowLists(db.receipts, chain, k);
  }

  /** Walks the old branch down to a number. */
  method DescendOld(ghost g: Header, db: Database, oldHead: Hash, number: nat)
      returns (oldAt: Hash, oldChain: seq<Hash>, deletedTxs: seq<Tx>, deletedLogs: seq<seq<Log>>)
    requires TreeOf(g, db).Rooted() && oldHead in db.headers && number <= db.headers[oldHead].number
    requires db.bodies.Keys == db.headers.Keys && db.receipts.Keys == db.headers.Keys
    ensures Walked(TreeOf(g, db), oldHead, oldAt, oldChain) && Gathered(db, oldChain, deletedTxs, deletedLogs)
    ensures db.headers[oldAt].number == number
  {
    ghost var t := TreeOf(g, db);
    oldAt, oldChain, deletedTxs, deletedLogs := oldHead, [], [], [];
    while db.headers[oldAt].number != number
      invariant Walked(t, oldHead, oldAt, oldChain) && Gathered(db, oldChain, deletedTxs, deletedLogs)
      invariant number <= db.headers[oldAt].number
      decreases db.headers[oldAt].number
    {
      WalkedDown(t, oldHead, oldAt, oldChain);
      GatheredNext(db, oldChain, deletedTxs, deletedLogs, oldAt);
      oldChain := oldChain + [oldAt];
      deletedTxs := deletedTxs + db.bodies[oldAt];
      deletedLogs := Listed(deletedLogs, db.receipts[oldAt]);
      oldAt := db.headers[oldAt].parentHash;
    }
  }

  /** Walks the new branch down to a number. */
  method DescendNew(ghost g: Header, headers: map<Hash, Header>, newHead: Hash, number: nat)
      returns (newAt: Hash, newChain: seq<Hash>)
    requires Tree(g, headers).Rooted() && newHead in headers && number <= headers[newHead].number
    ensures Walked(Tree(g, headers), newHead, newAt, newChain) && headers[newAt].number == number
  {
    newAt, newChain := newHead, [];
    while headers[newAt].number != number
      invariant Walked(Tree(g, headers), newHead, newAt, newChain)
      invariant number <= headers[newAt].number
      decreases headers[newAt].number
    {
      WalkedDown(Tree(g, headers), newHead, newAt, newChain);
      newChain := newChain + [newAt];
      newAt := headers[newAt].parentHash;
    }
  }

  /** The two walks, each where it stands. */
  ghost predicate Walking(t: Tree, db: Database, oldHead: Hash, newHead: Hash, w: Walk)
    requires t.Rooted() && oldHead in t.headers && newHead in t.headers
  {
    && Walked(t, oldHead, w.oldAt, w.oldChain) && Gathered(db, w.oldChain, w.deletedTxs, w.deletedLogs)
    && Walked(t, newHead, w.newAt, w.newChain)
  }

  /** The local variables of the walk. */
  datatype Walk = Walk(oldAt: Hash, oldChain: seq<Hash>, deletedTxs: seq<Tx>, deletedLogs: seq<seq<Log>>,
                       newAt: Hash, newChain: seq<Hash>)

  /** Two blocks at one number are not genesis. */
  lemma Above(t: Tree, a: Hash, b: Hash)
    requires t.Rooted() && a in t.headers && b in t.headers && a != b && t.headers[a].number == t.headers[b].number
    ensures 0 < t.headers[a].number
  {
    assert t.Anchored(a) && t.Anchored(b);
  }

  lemma OldStep(g: Header, db: Database, oldHead: Hash, at: Hash, chain: seq<Hash>, txs: seq<Tx>, logs: seq<seq<Log>>)
    requires TreeOf(g, db).Rooted() && oldHead in db.headers && Walked(TreeOf(g, db), oldHead, at, chain)
    requires Gathered(db, chain, txs, logs) && 0 < db.headers[at].number && at in db.bodies && at in db.receipts
    ensures db.headers[at].parentHash in db.headers
    ensures db.headers[db.headers[at].parentHash].number == db.headers[at].number - 1
    ensures Walked(TreeOf(g, db), oldHead, db.headers[at].parentHash, chain + [at])
    ensures Gathered(db, chain + [at], txs + db.bodies[at], Listed(logs, db.receipts[at]))
  {
    WalkedDown(TreeOf(g, db), oldHead, at, chain);
    GatheredNext(db, chain, txs, logs, at);
  }

  /** Both walks take a step. */
  method StepBoth(ghost g: Header, db: Database, ghost oldHead: Hash, ghost newHead: Hash, w: Walk) returns (v: Walk)
    requires TreeOf(g, db).Rooted() && oldHead in db.headers && newHead in db.headers
    requires db.bodies.Keys == db.headers.Keys && db.receipts.Keys == db.headers.Keys
    requires Walking(TreeOf(g, db), db, oldHead, newHead, w) && w.oldAt != w.newAt
    requires db.headers[w.oldAt].number == db.headers[w.newAt].number
    ensures Walking(TreeOf(g, db), db, oldHead, newHead, v)
    ensures db.headers[v.oldAt].number == db.headers[v.newAt].number < db.headers[w.oldAt].number
    ensures v.oldChain != [] && v.newChain != [] && v.oldChain[|v.oldChain| - 1] != v.newChain[|v.newChain| - 1]
  {
    Above(TreeOf(g, db), w.oldAt, w.newAt);
    OldStep(g, db, oldHead, w.oldAt, w.oldChain, w.deletedTxs, w.deletedLogs);
    WalkedDown(TreeOf(g, db), newHead, w.newAt, w.newChain);
    v := Walk(db.headers[w.oldAt].parentHash, w.oldChain + [w.oldAt], w.deletedTxs + db.bodies[w.oldAt],
              Listed(w.deletedLogs, db.receipts[w.oldAt]), db.headers[w.newAt].parentHash, w.newChain + [w.newAt]);
  }

  /** Walks both branches down to their common ancestor: the longer one first, then both. */
  method CollectFork(ghost g: Header, db: Database, oldHead: Hash, newHead: Hash) returns (w: Walk)
    requires TreeOf(g, db).Rooted() && oldHead in db.headers && newHead in db.headers
    requires db.bodies.Keys == db.headers.Keys && db.receipts.Keys == db.headers.Keys
    ensures Walking(TreeOf(g, db), db, oldHead, newHead, w) && w.oldAt == w.newAt
    ensures w.oldChain != [] && w.newChain != [] ==> w.oldChain[|w.oldChain| - 1] != w.newChain[|w.newChain| - 1]
  {
    ghost var t := TreeOf(g, db);
    if db.headers[newHead].number < db.headers[oldHead].number {
      var oldAt, oldChain, deletedTxs, deletedLogs := DescendOld(g, db, oldHead, db.headers[newHead].number);
      w := Walk(oldAt, oldChain, deletedTxs, deletedLogs, newHead, []);
    } else {
      var newAt, newChain := DescendNew(g, db.headers, newHead, db.headers[oldHead].number);
      w := Walk(oldHead, [], [], [], newAt, newChain);
    }
    while w.oldAt != w.newAt
      invariant Walking(t, db, oldHead, newHead, w)
      invariant db.headers[w.oldAt].number == db.headers[w.newAt].number
      invariant w.oldAt == w.newAt && w.oldChain != [] && w.newChain != [] ==>
                  w.oldChain[|w.oldChain| - 1] != w.newChain[|w.newChain| - 1]
      decreases db.headers[w.oldAt].number
    {
      w := StepBoth(g, db, oldHead, newHead, w);
    }
  }

  // ---------------------------------------------------------------- reorg

  /** Every block of the path is stored, at its place. */
  ghost predicate StoredPath(db: Database, path: seq<Hash>)
  {
    forall n {:trigger path[n]} :: 0 <= n < |path| ==>
      path[n] in db.headers && path[n] in db.bodies && path[n] in db.receipts && db.headers[path[n]].number == n
  }

  lemma PathStored(g: Header, db: Database, k: Hash)
    requires TreeOf(g, db).Rooted() && k in db.headers
    requires db.bodies.Keys == db.headers.Keys && db.receipts.Keys == db.headers.Keys
    ensures StoredPath(db, TreeOf(g, db).Path(k))
  {
    var path := TreeOf(g, db).Path(k);
    forall n | 0 <= n < |path|
      ensures path[n] in db.headers && path[n] in db.bodies && path[n] in db.receipts && db.headers[path[n]].number == n
    {
      TreeOf(g, db).PathAt(k, n);
    }
  }

  /** The rows once blocks `c + 1` to `m` of the path are written as head. */
  ghost predicate Rewritten(db: Database, path: seq<Hash>, c: nat, m: nat, rows: Rows)
    requires m < |path|
  {
    && rows.canon == CanonWritten(db.rows.canon, path, c, m)
    && rows.lookup == LookupOf(db.bodies, db.rows.lookup, path, c, m)
    && rows.headBlock == (if c < m then path[m] else db.rows.headBlock)
    && (m <= c ==> rows.headFast == db.rows.headFast && rows.headHeader == db.rows.headHeader)
  }

  lemma RewrittenNext(db: Database, path: seq<Hash>, c: nat, m: nat, rows: Rows)
    requires m + 1 < |path| && c <= m && StoredPath(db, path) && Rewritten(db, path, c, m, rows)
    ensures path[m + 1] in db.headers && path[m + 1] in db.bodies
    ensures var k := path[m + 1];
            Rewritten(db, path, c, m + 1, HeadRows(rows, k, db.headers[k].number, db.bodies[k]))
  {
    assert RowOf(db.bodies, path[m + 1]) == db.bodies[path[m + 1]];
  }

  lemma GatheredBlock(db: Database, path: seq<Hash>, c: nat, m: nat, txs: seq<Tx>, logs: seq<seq<Log>>)
    requires m + 1 < |path| && c <= m && StoredPath(db, path) && Gathered(db, Part(path, c + 1, m + 1), txs, logs)
    ensures path[m + 1] in db.receipts && path[m + 1] in db.bodies
    ensures var k := path[m + 1];
            Gathered(db, Part(path, c + 1, m + 2), txs + db.bodies[k], Listed(logs, db.receipts[k]))
  {
    GatheredNext(db, Part(path, c + 1, m + 1), txs, logs, path[m + 1]);
  }

  /** The rows after the batch that writes block `m` of the path as head. */
  ghost predicate Batch(canon: map<nat, Hash>, path: seq<Hash>, c: nat, m: nat, rows: Rows)
  {
    m < |path| && rows.headBlock == path[m] && rows.canon == CanonWritten(canon, path, c, m)
  }

  /** The rows after each batch of the loop. */
  ghost predicate Batches(canon: map<nat, Hash>, path: seq<Hash>, c: nat, trace: seq<Rows>)
  {
    forall i {:trigger trace[i]} :: 0 <= i < |trace| ==> Batch(canon, path, c, c + 1 + i, trace[i])
  }

  lemma BatchesNext(db: Database, path: seq<Hash>, c: nat, m: nat, trace: seq<Rows>, rows: Rows)
    requires c <= m && m + 1 < |path| && |trace| == m - c && Batches(db.rows.canon, path, c, trace)
    requires Rewritten(db, path, c, m + 1, rows)
    ensures Batches(db.rows.canon, path, c, trace + [rows])
  {
    var longer := trace + [rows];
    forall i | 0 <= i < |longer|
      ensures Batch(db.rows.canon, path, c, c + 1 + i, longer[i])
    {
      if i < |trace| { assert longer[i] == trace[i]; }
    }
  }

  /** The loop that makes the blocks of the new branch canonical, except the head, oldest first. */
  method WriteBranch(db: Database, newChain: seq<Hash>, ghost path: seq<Hash>, ghost c: nat)
      returns (rows: Rows, addedTxs: seq<Tx>, rebirthLogs: seq<seq<Log>>, ghost trace: seq<Rows>)
    requires StoredPath(db, path) && c < |path| && |newChain| == |path| - 1 - c
    requires forall i {:trigger newChain[i]} :: 0 <= i < |newChain| ==> newChain[i] == path[|path| - 1 - i]
    ensures Rewritten(db, path, c, LastRewritten(|path| - 1, c), rows)
    ensures Gathered(db, Revived(path, c), addedTxs, rebirthLogs)
    ensures |trace| == LastRewritten(|path| - 1, c) - c && Batches(db.rows.canon, path, c, trace)
  {
    rows, addedTxs, rebirthLogs, trace := db.rows, [], [], [];
    var i := |newChain| - 1;
    ghost var m := c;
    while 1 <= i
      invariant newChain == [] ==> i == -1 && m == c
      invariant newChain != [] ==> 0 <= i && m == |path| - 2 - i
      invariant c <= m < |path|
      invariant Rewritten(db, path, c, m, rows)
      invariant Gathered(db, Part(path, c + 1, m + 1), addedTxs, rebirthLogs)
      invariant |trace| == m - c && Batches(db.rows.canon, path, c, trace)
    {
      var k := newChain[i];
      assert k == path[m + 1];
      RewrittenNext(db, path, c, m, rows);
      GatheredBlock(db, path, c, m, addedTxs, rebirthLogs);
      rows := HeadRows(rows, k, db.headers[k].number, db.bodies[k]);
      BatchesNext(db, path, c, m, trace, rows);
      trace := trace + [rows];
      rebirthLogs := Listed(rebirthLogs, db.receipts[k]);
      addedTxs := addedTxs + db.bodies[k];
      m := m + 1;
      i := i - 1;
    }
  }

  /** The deletions of a reorg: lookup entries of transactions that are only on the old branch,
      and index rows above the head block. */
  method DeleteUseless(headers: map<Hash, Header>, mid: Rows, deletedTxs: seq<Tx>, addedTxs: seq<Tx>)
      returns (rows: Rows, gap: nat)
    requires mid.headBlock in headers
    ensures RunEnds(mid.canon, headers[mid.headBlock].number + 1, gap)
    ensures rows == mid.(canon := Without(mid.canon, headers[mid.headBlock].number + 1, gap),
                         lookup := mid.lookup - TxDifference(deletedTxs, addedTxs))
  {
    var canon;
    canon, gap := DropRun(mid.canon, headers[mid.headBlock].number + 1);
    rows := mid.(canon := canon, lookup := mid.lookup - TxDifference(deletedTxs, addedTxs));
  }

  lemma SameGone(bodies: map<Hash, seq<Tx>>, chain: seq<Hash>, path: seq<Hash>, added: seq<Tx>)
    requires Mirrors(chain, path)
    ensures TxDifference(Along(bodies, chain), added) == TxDifference(Along(bodies, path), added)
  {
    forall x
      ensures x in Along(bodies, chain) <==> x in Along(bodies, path)
    {
      MirroredMembers(bodies, chain, path, x);
    }
  }

  lemma MidHead(db: Database, a: seq<Hash>, b: seq<Hash>, c: nat, mid: Rows)
    requires StoredPath(db, a) && StoredPath(db, b) && c < |a| && c < |b| && db.rows.headBlock == a[|a| - 1]
    requires Rewritten(db, b, c, LastRewritten(|b| - 1, c), mid)
    ensures mid.headBlock in db.headers && db.headers[mid.headBlock].number == MidTop(a, b, c)
  {
  }

  /** The database part of a reorg, once the two branches are known. */
  method SwitchRows(db: Database, oldChain: seq<Hash>, newChain: seq<Hash>, deletedTxs: seq<Tx>,
                    ghost a: seq<Hash>, ghost b: seq<Hash>, ghost c: nat)
      returns (rows: Rows, rebirthLogs: seq<seq<Log>>, gap: nat, ghost trace: seq<Rows>)
    requires StoredPath(db, a) && StoredPath(db, b) && Forked(a, b, c) && db.rows.headBlock == a[|a| - 1]
    requires Mirrors(oldChain, Dropped(a, c)) && deletedTxs == Along(db.bodies, oldChain)
    requires |newChain| == |b| - 1 - c
    requires forall i {:trigger newChain[i]} :: 0 <= i < |newChain| ==> newChain[i] == b[|b| - 1 - i]
    ensures Reorganised(db.bodies, a, b, c, db.rows, rows, gap)
    ensures rebirthLogs == LogLists(db.receipts, Revived(b, c))
    ensures |trace| == LastRewritten(|b| - 1, c) - c && Batches(db.rows.canon, b, c, trace)
  {
    var mid, addedTxs;
    mid, addedTxs, rebirthLogs, trace := WriteBranch(db, newChain, b, c);
    MidHead(db, a, b, c, mid);
    SameGone(db.bodies, oldChain, Dropped(a, c), addedTxs);
    rows, gap := DeleteUseless(db.headers, mid, deletedTxs, addedTxs);
  }

  /** reorg: moves the canonical chain from the head block to the branch of `newHead`; the rows of
      `newHead` itself are left to the caller. */
  method Reorg(ghost g: Header, db: Database, newHead: Hash)
      returns (rows: Rows, events: seq<Event>, c: nat, gap: nat, ghost trace: seq<Rows>)
    requires Full(g, db) && newHead in db.headers
    ensures Forked(HeadPath(g, db), TreeOf(g, db).Path(newHead), c)
    ensures Reorganised(db.bodies, HeadPath(g, db), TreeOf(g, db).Path(newHead), c, db.rows, rows, gap)
    ensures events == Announced(db.receipts, Dropped(HeadPath(g, db), c), Revived(TreeOf(g, db).Path(newHead), c))
    ensures |trace| == LastRewritten(db.headers[newHead].number, c) - c
    ensures Batches(db.rows.canon, TreeOf(g, db).Path(newHead), c, trace)
  {
    ghost var t := TreeOf(g, db);
    ghost var a, b := t.Path(db.rows.headBlock), t.Path(newHead);
    var w := CollectFork(g, db, db.rows.headBlock, newHead);
    c := db.headers[w.oldAt].number;
    WalksFork(t, db.rows.headBlock, newHead, w.oldAt, w.oldChain, w.newChain);
    WalkedMirrors(t, db.rows.headBlock, w.oldAt, w.oldChain);
    PathStored(g, db, newHead);
    PathStored(g, db, db.rows.headBlock);
    var rebirthLogs;
    rows, rebirthLogs, gap, trace := SwitchRows(db, w.oldChain, w.newChain, w.deletedTxs, a, b, c);
    events := Announce(db.receipts, w.oldChain, w.deletedLogs, rebirthLogs, Dropped(a, c), Revived(b, c));
  }

  // ---------------------------------------------------------------- adopting a head

  lemma ChildPath(t: Tree, k: Hash)
    requires t.Rooted() && k in t.headers && 0 < t.headers[k].number
    ensures t.headers[k].parentHash in t.headers && t.headers[t.headers[k].parentHash].number == t.headers[k].number - 1
    ensures t.Path(k) == t.Path(t.headers[k].parentHash) + [k]
  {
    assert t.Anchored(k);
  }

  lemma ChildForks(path: seq<Hash>, k: Hash)
    requires path != []
    ensures Forked(path, path + [k], |path| - 1)
    ensures Dropped(path, |path| - 1) == [] && Revived(path + [k], |path| - 1) == []
  {
  }

  lemma AfterReorg(g: Header, db: Database, k: Hash, mid: Rows, c: nat, gap: nat)
    requires Full(g, db) && k in db.headers && 0 < db.headers[k].number
    requires Forked(HeadPath(g, db), TreeOf(g, db).Path(k), c)
    requires Reorganised(db.bodies, HeadPath(g, db), TreeOf(g, db).Path(k), c, db.rows, mid, gap)
    ensures Exact(g, db) ==>
              (Derived(db.bodies, TreeOf(g, db).Path(k), HeadRows(mid, k, db.headers[k].number, db.bodies[k]))
               <==> !Stale(HeadPath(g, db), TreeOf(g, db).Path(k)))
  {
    var a, b := HeadPath(g, db), TreeOf(g, db).Path(k);
    assert Once(db.bodies, a) && Once(db.bodies, b);
    assert RowOf(db.bodies, k) == db.bodies[k];
    if Exact(g, db) { SwitchedDerived(db.bodies, a, b, c, db.rows, mid, gap); }
  }

  lemma AfterExtending(g: Header, db: Database, k: Hash)
    requires Full(g, db) && k in db.headers && 0 < db.headers[k].number && db.headers[k].parentHash == db.rows.headBlock
    ensures var a, b, c := HeadPath(g, db), TreeOf(g, db).Path(k), db.headers[db.rows.headBlock].number;
            && Forked(a, b, c) && Dropped(a, c) == [] && Revived(b, c) == [] && !Stale(a, b)
            && (Exact(g, db) ==> Derived(db.bodies, b, HeadRows(db.rows, k, db.headers[k].number, db.bodies[k])))
  {
    var a := HeadPath(g, db);
    ChildPath(TreeOf(g, db), k);
    ChildForks(a, k);
    assert Once(db.bodies, TreeOf(g, db).Path(k));
    assert RowOf(db.bodies, k) == db.bodies[k];
    if Exact(g, db) { ExtendedDerived(db.bodies, a, db.rows, k); }
  }

  /** The index rows up to the head block are its path. */
  ghost predicate Whole(g: Header, db: Database, rows: Rows)
    requires TreeOf(g, db).Rooted()
  {
    && rows.headBlock in db.headers
    && WholeUpTo(TreeOf(g, db).Path(rows.headBlock), rows.canon, db.headers[rows.headBlock].number)
  }

  ghost predicate AllWhole(g: Header, db: Database, trace: seq<Rows>)
    requires TreeOf(g, db).Rooted()
  {
    forall i {:trigger trace[i]} :: 0 <= i < |trace| ==> Whole(g, db, trace[i])
  }

  lemma WholeBelow(g: Header, db: Database, k: Hash, m: nat, rows: Rows)
    requires TreeOf(g, db).Rooted() && k in db.headers && m <= db.headers[k].number
    requires rows.headBlock == TreeOf(g, db).Path(k)[m] && WholeUpTo(TreeOf(g, db).Path(k), rows.canon, m)
    ensures Whole(g, db, rows)
  {
    var t := TreeOf(g, db);
    t.PathAt(k, m);
    assert forall n :: 0 <= n <= m ==> t.Path(k)[..m + 1][n] == t.Path(k)[n];
  }

  lemma BatchIsWhole(g: Header, db: Database, k: Hash, a: seq<Hash>, b: seq<Hash>, c: nat, m: nat, rows: Rows)
    requires TreeOf(g, db).Rooted() && k in db.headers && b == TreeOf(g, db).Path(k)
    requires Forked(a, b, c) && c < m < |b| && db.rows.canon == IndexOf(a) && Batch(db.rows.canon, b, c, m, rows)
    ensures Whole(g, db, rows)
  {
    BatchWhole(db.rows.canon, a, b, c, m);
    WholeBelow(g, db, k, m, rows);
  }

  /** Every batch that a reorg writes leaves the index whole up to the head block. */
  lemma BatchesWhole(g: Header, db: Database, k: Hash, a: seq<Hash>, b: seq<Hash>, c: nat, trace: seq<Rows>)
    requires TreeOf(g, db).Rooted() && k in db.headers && b == TreeOf(g, db).Path(k)
    requires Forked(a, b, c) && db.rows.canon == IndexOf(a) && Batches(db.rows.canon, b, c, trace)
    ensures AllWhole(g, db, trace)
  {
    forall i | 0 <= i < |trace|
      ensures Whole(g, db, trace[i])
    {
      BatchIsWhole(g, db, k, a, b, c, c + 1 + i, trace[i]);
    }
  }

  /** So do the deletions, and the rows of the new head. */
  lemma ReorganisedWhole(g: Header, db: Database, k: Hash, a: seq<Hash>, b: seq<Hash>, c: nat, rows: Rows, gap: nat)
    requires TreeOf(g, db).Rooted() && k in db.headers && b == TreeOf(g, db).Path(k)
    requires db.rows.headBlock in db.headers && a == TreeOf(g, db).Path(db.rows.headBlock)
    requires db.rows.canon == IndexOf(a) && Forked(a, b, c) && Reorganised(db.bodies, a, b, c, db.rows, rows, gap)
    ensures Whole(g, db, rows)
    ensures WholeUpTo(b, rows.canon[|b| - 1 := k], |b| - 1)
  {
    ReorganisedRows(db.bodies, a, b, c, db.rows, rows, gap);
    if c + 1 < |b| - 1 {
      WholeBelow(g, db, k, |b| - 2, rows);
    } else {
      WholeBelow(g, db, db.rows.headBlock, |a| - 1, rows);
    }
  }

  lemma ExtendedWhole(g: Header, db: Database, k: Hash)
    requires Full(g, db) && k in db.headers && 0 < db.headers[k].number && db.rows.canon == IndexOf(HeadPath(g, db))
    requires db.headers[k].parentHash == db.rows.headBlock
    ensures Whole(g, db, HeadRows(db.rows, k, db.headers[k].number, db.bodies[k]))
  {
    ChildPath(TreeOf(g, db), k);
  }

  lemma NewHeadWhole(g: Header, db: Database, k: Hash, b: seq<Hash>, mid: Rows, n: nat, txs: seq<Tx>)
    requires TreeOf(g, db).Rooted() && k in db.headers && b == TreeOf(g, db).Path(k) && n == |b| - 1
    requires WholeUpTo(b, mid.canon[|b| - 1 := k], |b| - 1)
    ensures Whole(g, db, HeadRows(mid, k, n, txs))
  {
  }

  lemma AllWholeMore(g: Header, db: Database, trace: seq<Rows>, mid: Rows, last: Rows)
    requires TreeOf(g, db).Rooted() && AllWhole(g, db, trace) && Whole(g, db, mid) && Whole(g, db, last)
    ensures AllWhole(g, db, trace + [mid, last])
  {
    var all := trace + [mid, last];
    forall i | 0 <= i < |all|
      ensures Whole(g, db, all[i])
    {
      if i < |trace| { assert all[i] == trace[i]; }
    }
  }

  lemma LastTwoWhole(g: Header, db: Database, k: Hash, a: seq<Hash>, b: seq<Hash>, c: nat, mid: Rows, gap: nat, n: nat,
                     txs: seq<Tx>)
    requires TreeOf(g, db).Rooted() && k in db.headers && b == TreeOf(g, db).Path(k) && n == |b| - 1
    requires db.rows.headBlock in db.headers && a == TreeOf(g, db).Path(db.rows.headBlock)
    requires db.rows.canon == IndexOf(a) && Forked(a, b, c) && Reorganised(db.bodies, a, b, c, db.rows, mid, gap)
    ensures Whole(g, db, mid) && Whole(g, db, HeadRows(mid, k, n, txs))
  {
    ReorganisedWhole(g, db, k, a, b, c, mid, gap);
    NewHeadWhole(g, db, k, b, mid, n, txs);
  }

  lemma TraceWhole(g: Header, db: Database, k: Hash, a: seq<Hash>, b: seq<Hash>, c: nat, trace: seq<Rows>, mid: Rows,
                   gap: nat, n: nat, txs: seq<Tx>)
    requires TreeOf(g, db).Rooted() && k in db.headers && b == TreeOf(g, db).Path(k) && n == |b| - 1
    requires db.rows.headBlock in db.headers && a == TreeOf(g, db).Path(db.rows.headBlock)
    requires db.rows.canon == IndexOf(a) && Forked(a, b, c)
    requires Batches(db.rows.canon, b, c, trace) && Reorganised(db.bodies, a, b, c, db.rows, mid, gap)
    ensures AllWhole(g, db, trace + [mid, HeadRows(mid, k, n, txs)])
  {
    BatchesWhole(g, db, k, a, b, c, trace);
    LastTwoWhole(g, db, k, a, b, c, mid, gap, n, txs);
    AllWholeMore(g, db, trace, mid, HeadRows(mid, k, n, txs));
  }

  lemma BranchTrace(g: Header, db: Database, k: Hash, c: nat, trace: seq<Rows>, mid: Rows, gap: nat)
    requires Full(g, db) && Exact(g, db) && k in db.headers
    requires Forked(HeadPath(g, db), TreeOf(g, db).Path(k), c)
    requires Batches(db.rows.canon, TreeOf(g, db).Path(k), c, trace)
    requires Reorganised(db.bodies, HeadPath(g, db), TreeOf(g, db).Path(k), c, db.rows, mid, gap)
    ensures AllWhole(g, db, trace + [mid, HeadRows(mid, k, db.headers[k].number, db.bodies[k])])
  {
    TraceWhole(g, db, k, HeadPath(g, db), TreeOf(g, db).Path(k), c, trace, mid, gap, db.headers[k].number,
               db.bodies[k]);
  }

  /** The block was canonical in the old index, and so is its parent on the old head's path: adopting it as head leaves
      the fast and the header head where they are.  Otherwise both become the block. */
  ghost predicate HeadsFollow(path: seq<Hash>, before: Rows, h: Header, after: Rows)
    requires 0 < h.number
  {
    if Holds(before.canon, h.number, h.hash) && h.number <= |path| && path[h.number - 1] == h.parentHash
    then after.headFast == before.headFast && after.headHeader == before.headHeader
    else after.headFast == h.hash && after.headHeader == h.hash
  }

  lemma ChildHeads(g: Header, db: Database, k: Hash)
    requires Full(g, db) && k in db.headers && 0 < db.headers[k].number && db.headers[k].parentHash == db.rows.headBlock
    ensures HeadsFollow(HeadPath(g, db), db.rows, db.headers[k],
                        HeadRows(db.rows, k, db.headers[k].number, db.bodies[k]))
  {
    assert TreeOf(g, db).Anchored(k);
  }

  lemma BranchHeads(g: Header, db: Database, k: Hash, c: nat, mid: Rows, gap: nat)
    requires Full(g, db) && k in db.headers && 0 < db.headers[k].number && db.headers[k].parentHash != db.rows.headBlock
    requires Forked(HeadPath(g, db), TreeOf(g, db).Path(k), c)
    requires Reorganised(db.bodies, HeadPath(g, db), TreeOf(g, db).Path(k), c, db.rows, mid, gap)
    ensures HeadsFollow(HeadPath(g, db), db.rows, db.headers[k], HeadRows(mid, k, db.headers[k].number, db.bodies[k]))
  {
    var a, b := HeadPath(g, db), TreeOf(g, db).Path(k);
    assert TreeOf(g, db).Anchored(k);
    ChildPath(TreeOf(g, db), k);
    assert b[|b| - 2] == db.headers[k].parentHash;
    assert c + 1 == |b| - 1 ==> a[c] == db.headers[k].parentHash;
    ReorganisedHolds(db.bodies, a, b, c, db.rows, mid, gap);
    assert |b| - 1 <= |a| ==> (a[|b| - 2] == b[|b| - 2] <==> |b| - 2 <= c);
  }

  method AdoptBranch(ghost g: Header, db: Database, k: Hash)
      returns (rows: Rows, events: seq<Event>, c: nat, ghost trace: seq<Rows>)
    requires Full(g, db) && k in db.headers && 0 < db.headers[k].number && db.headers[k].parentHash != db.rows.headBlock
    ensures rows.headBlock == k && HeadsFollow(HeadPath(g, db), db.rows, db.headers[k], rows)
    ensures Exact(g, db) ==>
              (Derived(db.bodies, TreeOf(g, db).Path(k), rows) <==> !Stale(HeadPath(g, db), TreeOf(g, db).Path(k)))
    ensures Forked(HeadPath(g, db), TreeOf(g, db).Path(k), c)
    ensures events == Announced(db.receipts, Dropped(HeadPath(g, db), c), Revived(TreeOf(g, db).Path(k), c))
    ensures |trace| == LastRewritten(db.headers[k].number, c) - c + 2
    ensures trace != [] && trace[|trace| - 1] == rows && (Exact(g, db) ==> AllWhole(g, db, trace))
  {
    var gap;
    rows, events, c, gap, trace := Reorg(g, db, k);
    AfterReorg(g, db, k, rows, c, gap);
    BranchHeads(g, db, k, c, rows, gap);
    if Exact(g, db) { BranchTrace(g, db, k, c, trace, rows, gap); }
    trace := trace + [rows, HeadRows(rows, k, db.headers[k].number, db.bodies[k])];
    rows := HeadRows(rows, k, db.headers[k].number, db.bodies[k]);
  }

  /** The tail of writeBlockWithState and of writeKnownBlock: reorganise unless `k` extends the
      head block, then write `k` as head.  `trace` lists the rows at every point where the program may be cut off. */
  method AdoptHead(ghost g: Header, db: Database, k: Hash)
      returns (rows: Rows, events: seq<Event>, c: nat, ghost trace: seq<Rows>)
    requires Full(g, db) && k in db.headers && 0 < db.headers[k].number
    ensures rows.headBlock == k && HeadsFollow(HeadPath(g, db), db.rows, db.headers[k], rows)
    ensures Exact(g, db) ==>
              (Derived(db.bodies, TreeOf(g, db).Path(k), rows) <==> !Stale(HeadPath(g, db), TreeOf(g, db).Path(k)))
    ensures Forked(HeadPath(g, db), TreeOf(g, db).Path(k), c)
    ensures events == Announced(db.receipts, Dropped(HeadPath(g, db), c), Revived(TreeOf(g, db).Path(k), c))
    ensures db.headers[k].parentHash != db.rows.headBlock ==> |trace| == LastRewritten(db.headers[k].number, c) - c + 2
    ensures trace != [] && trace[|trace| - 1] == rows && (Exact(g, db) ==> AllWhole(g, db, trace))
  {
    if db.headers[k].parentHash != db.rows.headBlock {
      rows, events, c, trace := AdoptBranch(g, db, k);
    } else {
      AfterExtending(g, db, k);
      ChildHeads(g, db, k);
      if Exact(g, db) { ExtendedWhole(g, db, k); }
      rows := HeadRows(db.rows, k, db.headers[k].number, db.bodies[k]);
      events, c := [], db.headers[db.rows.headBlock].number;
      trace := [rows];
    }
  }

  // ---------------------------------------------------------------- fork choice

  /** What fork choice looks at: the justified number, the total difficulty, the number. */
  datatype Rank = Rank(justified: nat, td: nat, number: nat)

  /** Justified higher, then heavier, then lower. */
  ghost predicate Outranks(posa: bool, a: Rank, b: Rank)
  {
    if posa && a.justified != b.justified then b.justified < a.justified
    else if a.td != b.td then b.td < a.td
    else a.number < b.number
  }

  /** reorgNeeded.  `coin` is its random tie-break. */
  method ReorgNeeded(posa: bool, local: Rank, extern: Rank, localPreserve: bool, externPreserve: bool, coin: bool)
      returns (reorg: bool)
    ensures Outranks(posa, extern, local) ==> reorg
    ensures Outranks(posa, local, extern) ==> !reorg
    ensures !Outranks(posa, extern, local) && !Outranks(posa, local, extern) ==>
              (reorg <==> !localPreserve && (externPreserve || coin))
  {
    if posa {
      if local.justified < extern.justified {
        return true;
      } else if extern.justified < local.justified {
        return false;
      }
    }
    reorg := local.td < extern.td;
    if !reorg && extern.td == local.td {
      if extern.number < local.number {
        reorg := true;
      } else if extern.number == local.number {
        reorg := !localPreserve && (externPreserve || coin);
      }
    }
  }

  /** The blocks that fork choice would not prefer to a head form a down-set, so that replacing a
      head by one it does not outrank keeps every stored block from outranking the head. */
  lemma OutranksTransfer(posa: bool, k: Rank, head: Rank, next: Rank)
    requires !Outranks(posa, k, head) && !Outranks(posa, head, next)
    ensures !Outranks(posa, k, next)
  {
  }

  // ---------------------------------------------------------------- storing a block

  function BlockStored(db: Database, block: Block, td: nat): (r: Database)
  {
    var h := block.header.hash;
    db.(headers := db.headers[h := block.header], td := db.td[h := td],
        bodies := db.bodies[h := block.txs], receipts := db.receipts[h := block.logs])
  }

  /** A known hash belongs to the same block. */
  ghost predicate SameBlock(db: Database, block: Block)
  {
    var h := block.header.hash;
    h in db.headers && h in db.bodies && h in db.receipts ==>
      db.headers[h] == block.header && db.bodies[h] == block.txs && db.receipts[h] == block.logs
  }

  /** What block validation and header verification have established: the block is numbered after its
      parent, a known hash means the same block, and it repeats no transaction of its ancestors. */
  ghost predicate Acceptable(g: Header, db: Database, block: Block)
    requires Full(g, db)
  {
    var h := block.header;
    && h.hash != NO_HASH && 0 < h.difficulty && 0 < h.number
    && SameBlock(db, block)
    && (h.parentHash in db.headers ==>
          && db.headers[h.parentHash].number == h.number - 1
          && forall x, n :: x in block.txs ==> !At(db.bodies, TreeOf(g, db).Path(h.parentHash), x, n))
  }

  lemma StoredRooted(g: Header, db: Database, block: Block)
    requires Full(g, db) && Acceptable(g, db, block) && block.header.parentHash in db.headers
    ensures Tree(g, db.headers[block.header.hash := block.header]).Rooted()
  {
    var t, r := TreeOf(g, db), Tree(g, db.headers[block.header.hash := block.header]);
    forall k | k in r.headers
      ensures r.Anchored(k)
    {
      assert k in t.headers ==> t.Anchored(k);
    }
    assert r.Anchored(g.hash) by { assert t.Anchored(g.hash); }
  }

  lemma SameHeaders(db: Database, block: Block)
    requires db.bodies.Keys == db.headers.Keys && db.receipts.Keys == db.headers.Keys && SameBlock(db, block)
    ensures var more := db.headers[block.header.hash := block.header];
            forall k :: k in db.headers ==> more[k] == db.headers[k]
  {
  }

  /** Storing a block leaves the paths, the difficulties and the rows of the stored blocks as they were. */
  lemma StoredStable(g: Header, db: Database, block: Block, k: Hash)
    requires Full(g, db) && Acceptable(g, db, block) && block.header.parentHash in db.headers && k in db.headers
    ensures var r := Tree(g, db.headers[block.header.hash := block.header]);
            r.Rooted() && r.Path(k) == TreeOf(g, db).Path(k) && r.Td(k) == TreeOf(g, db).Td(k)
  {
    StoredRooted(g, db, block);
    SameHeaders(db, block);
    TreeOf(g, db).Stable(Tree(g, db.headers[block.header.hash := block.header]), k);
  }

  /** What is at a number of a path does not change when the data of the path does not. */
  lemma SameOnce(bodies: map<Hash, seq<Tx>>, more: map<Hash, seq<Tx>>, path: seq<Hash>)
    requires forall n :: 0 <= n < |path| ==> RowOf(more, path[n]) == RowOf(bodies, path[n])
    ensures Once(bodies, path) ==> Once(more, path)
    ensures forall lookup {:trigger LookupExact(bodies, lookup, path)} ::
              LookupExact(bodies, lookup, path) <==> LookupExact(more, lookup, path)
  {
    assert forall x, n :: At(more, path, x, n) <==> At(bodies, path, x, n);
  }

  lemma StoredSameRows(g: Header, db: Database, block: Block, k: Hash)
    requires Full(g, db) && Acceptable(g, db, block) && block.header.parentHash in db.headers && k in db.headers
    ensures var path := TreeOf(g, db).Path(k);
            forall n :: 0 <= n < |path| ==>
              RowOf(db.bodies[block.header.hash := block.txs], path[n]) == RowOf(db.bodies, path[n])
  {
    PathStored(g, db, k);
  }

  lemma ExtendedOnce(bodies: map<Hash, seq<Tx>>, path: seq<Hash>, k: Hash)
    requires Once(bodies, path) && forall x, n :: x in RowOf(bodies, k) ==> !At(bodies, path, x, n)
    ensures Once(bodies, path + [k])
  {
    var longer := path + [k];
    forall x, a: nat, b: nat | At(bodies, longer, x, a) && At(bodies, longer, x, b)
      ensures a == b
    {
      assert a < |path| ==> At(bodies, path, x, a);
      assert b < |path| ==> At(bodies, path, x, b);
    }
  }

  lemma StoredOnce(g: Header, db: Database, block: Block, k: Hash)
    requires Full(g, db) && Acceptable(g, db, block) && block.header.parentHash in db.headers
    requires k in db.headers || k == block.header.hash
    ensures var r := Tree(g, db.headers[block.header.hash := block.header]);
            r.Rooted() && Once(db.bodies[block.header.hash := block.txs], r.Path(k))
  {
    var t, r := TreeOf(g, db), Tree(g, db.headers[block.header.hash := block.header]);
    var bodies := db.bodies[block.header.hash := block.txs];
    StoredRooted(g, db, block);
    if k in db.headers {
      StoredStable(g, db, block, k);
      StoredSameRows(g, db, block, k);
      assert Once(db.bodies, t.Path(k));
      SameOnce(db.bodies, bodies, t.Path(k));
    } else {
      var p := block.header.parentHash;
      StoredStable(g, db, block, p);
      StoredSameRows(g, db, block, p);
      assert Once(db.bodies, t.Path(p));
      SameOnce(db.bodies, bodies, t.Path(p));
      assert forall x, n :: At(bodies, t.Path(p), x, n) <==> At(db.bodies, t.Path(p), x, n);
      ExtendedOnce(bodies, t.Path(p), k);
      ChildPath(r, k);
    }
  }

  lemma StoredTd(g: Header, db: Database, block: Block)
    requires Full(g, db) && Acceptable(g, db, block) && block.header.parentHash in db.headers
    ensures var r := Tree(g, db.headers[block.header.hash := block.header]);
            && r.Rooted()
            && r.TdTable(db.td[block.header.hash := db.td[block.header.parentHash] + block.header.difficulty])
  {
    StoredRooted(g, db, block);
    var r := Tree(g, db.headers[block.header.hash := block.header]);
    forall k | k in db.headers
      ensures r.Td(k) == db.td[k]
    {
      StoredStable(g, db, block, k);
    }
    assert r.Anchored(block.header.hash);
    assert r.Td(block.header.hash) == r.Td(block.header.parentHash) + block.header.difficulty;
  }

  lemma StoredFull(g: Header, db: Database, block: Block)
    requires Full(g, db) && Acceptable(g, db, block) && block.header.parentHash in db.headers
    ensures Full(g, BlockStored(db, block, db.td[block.header.parentHash] + block.header.difficulty))
  {
    StoredTd(g, db, block);
    var r := Tree(g, db.headers[block.header.hash := block.header]);
    forall k | k in r.headers
      ensures Once(db.bodies[block.header.hash := block.txs], r.Path(k))
    {
      StoredOnce(g, db, block, k);
    }
  }

  lemma StoredExact(g: Header, db: Database, block: Block, td: nat)
    requires Full(g, db) && Acceptable(g, db, block) && block.header.parentHash in db.headers
    requires Full(g, BlockStored(db, block, td))
    ensures HeadPath(g, BlockStored(db, block, td)) == HeadPath(g, db)
    ensures Exact(g, db) <==> Exact(g, BlockStored(db, block, td))
  {
    StoredStable(g, db, block, db.rows.headBlock);
    StoredSameRows(g, db, block, db.rows.headBlock);
    SameOnce(db.bodies, db.bodies[block.header.hash := block.txs], HeadPath(g, db));
    assert LookupExact(db.bodies, db.rows.lookup, HeadPath(g, db)) <==>
           LookupExact(db.bodies[block.header.hash := block.txs], db.rows.lookup, HeadPath(g, db));
  }

  // ---------------------------------------------------------------- writeBlockWithState

  datatype WriteStatus = UnknownAncestor | Canon | Side

  /** Consensus facts: whether the engine has fast finality, the justified number that a block
      carries, and the local miner's own blocks. */
  datatype Rules = Rules(posa: bool, justified: Hash -> nat, preserve: Hash -> bool)

  /** One import: the block and the random choice between equals, then the database after it, what it announced, how
      it ended and where it forked. */
  datatype Step = Step(block: Block, coin: bool, db: Database, events: seq<Event>, status: WriteStatus, fork: nat)

  ghost function RankOf(rules: Rules, db: Database, k: Hash): (r: Rank)
    requires k in db.headers && k in db.td
  {
    Rank(rules.justified(k), db.td[k], db.headers[k].number)
  }

  /** The stored block leaves what was stored as it was. */
  ghost predicate Keeps(g: Header, before: Database, db: Database, block: Block)
    requires Full(g, before)
  {
    && Full(g, db)
    && block.header.hash in db.headers && db.headers[block.header.hash] == block.header
    && RowOf(db.bodies, block.header.hash) == block.txs && RowOf(db.receipts, block.header.hash) == block.logs
    && (forall k :: k in db.headers <==> k in before.headers || k == block.header.hash)
    && (forall k {:trigger Kept(g, before, db, k)} :: k in before.headers ==> Kept(g, before, db, k))
  }

  ghost predicate Kept(g: Header, before: Database, db: Database, k: Hash)
    requires Full(g, before) && Full(g, db) && k in before.headers
  {
    && k in db.headers && db.headers[k] == before.headers[k] && db.td[k] == before.td[k]
    && RowOf(db.bodies, k) == RowOf(before.bodies, k) && RowOf(db.receipts, k) == RowOf(before.receipts, k)
    && TreeOf(g, db).Path(k) == TreeOf(g, before).Path(k)
  }

  lemma StoredKept(g: Header, db: Database, block: Block, td: nat, k: Hash)
    requires Full(g, db) && Acceptable(g, db, block) && block.header.parentHash in db.headers && k in db.headers
    requires td == db.td[block.header.parentHash] + block.header.difficulty && Full(g, BlockStored(db, block, td))
    ensures Kept(g, db, BlockStored(db, block, td), k)
  {
    SameHeaders(db, block);
    StoredStable(g, db, block, k);
    var r := BlockStored(db, block, td);
    assert r.td[k] == TreeOf(g, r).Td(k) && db.td[k] == TreeOf(g, db).Td(k);
  }

  lemma StoredKeeps(g: Header, db: Database, block: Block, td: nat)
    requires Full(g, db) && Acceptable(g, db, block) && block.header.parentHash in db.headers
    requires td == db.td[block.header.parentHash] + block.header.difficulty
    ensures Keeps(g, db, BlockStored(db, block, td), block)
  {
    StoredFull(g, db, block);
    forall k | k in db.headers
      ensures Kept(g, db, BlockStored(db, block, td), k)
    {
      StoredKept(g, db, block, td, k);
    }
  }

  /** Between equals the miner's own block stays or wins; otherwise the coin decides. */
  ghost predicate TieBreak(rules: Rules, head: Hash, k: Hash, coin: bool)
  {
    !rules.preserve(head) && (rules.preserve(k) || coin)
  }

  /** The rank that a block will have, its parent being stored. */
  ghost function RankAhead(rules: Rules, before: Database, h: Header): (r: Rank)
    requires h.parentHash in before.td
  {
    Rank(rules.justified(h.hash), before.td[h.parentHash] + h.difficulty, h.number)
  }

  /** A block becomes the head if it has the better rank, or the same rank and the tie-break. */
  ghost predicate Wins(rules: Rules, before: Database, h: Header, coin: bool)
    requires before.rows.headBlock in before.headers && before.rows.headBlock in before.td
  {
    && h.parentHash in before.td
    && var local, extern := RankOf(rules, before, before.rows.headBlock), RankAhead(rules, before, h);
    || Outranks(rules.posa, extern, local)
    || (!Outranks(rules.posa, local, extern) && TieBreak(rules, before.rows.headBlock, h.hash, coin))
  }

  /** The block is built on the canonical chain, below its head block. */
  ghost predicate CutShort(path: seq<Hash>, h: Header)
  {
    0 < h.number && h.number + 1 < |path| && path[h.number - 1] == h.parentHash
  }

  lemma CutShortIsStale(t: Tree, a: seq<Hash>, h: Header)
    requires t.Rooted() && h.hash in t.headers && t.headers[h.hash] == h && 0 < h.number
    ensures Stale(a, t.Path(h.hash)) <==> CutShort(a, h)
  {
    ChildPath(t, h.hash);
    assert t.Path(h.hash)[h.number - 1] == h.parentHash;
  }

  /** The import makes a block the head that cuts the canonical chain short. */
  ghost predicate StaleStep(g: Header, rules: Rules, before: Database, s: Step)
    requires Full(g, before)
  {
    Wins(rules, before, s.block.header, s.coin) && CutShort(HeadPath(g, before), s.block.header)
  }

  /** `b` is on the path, so that it is the head or one of its ancestors. */
  ghost predicate OnBranch(path: seq<Hash>, b: Hash, n: nat)
  {
    n < |path| && path[n] == b
  }

  /** The import makes a block the head that is canonical already, and that has logs. */
  ghost predicate Repeats(g: Header, rules: Rules, before: Database, s: Step)
    requires Full(g, before)
  {
    && Wins(rules, before, s.block.header, s.coin) && s.block.logs != []
    && OnBranch(HeadPath(g, before), s.block.header.hash, s.block.header.number)
  }

  /** What one import of an acceptable block does. */
  ghost predicate Takes(g: Header, rules: Rules, before: Database, s: Step)
    requires Full(g, before)
  {
    match s.status
    case UnknownAncestor =>
      s.block.header.parentHash !in before.headers && s.db == before && s.events == []
    case Side =>
      && Keeps(g, before, s.db, s.block) && !Wins(rules, before, s.block.header, s.coin)
      && !Outranks(rules.posa, RankOf(rules, s.db, s.block.header.hash), RankOf(rules, s.db, before.rows.headBlock))
      && s.db.rows.headBlock == before.rows.headBlock
      && s.events == [SideBlock(s.block.header.hash)]
    case Canon =>
      && Keeps(g, before, s.db, s.block) && Wins(rules, before, s.block.header, s.coin)
      && !Outranks(rules.posa, RankOf(rules, s.db, before.rows.headBlock), RankOf(rules, s.db, s.block.header.hash))
      && s.db.rows.headBlock == s.block.header.hash
      && Switches(HeadPath(g, before), HeadPath(g, s.db), s)
  }

  /** The switch from the old path to the new one is announced. */
  ghost predicate Switches(a: seq<Hash>, b: seq<Hash>, s: Step)
  {
    && Forked(a, b, s.fork)
    && s.events == Announced(s.db.receipts, Dropped(a, s.fork), Revived(b, s.fork)) + Added(s.block.logs)
  }

  /** The derived rows stay exact exactly when the import does not cut the old chain short.  A side block changes no
      row. */
  ghost predicate Indexes(g: Header, rules: Rules, before: Database, s: Step)
    requires Full(g, before)
  {
    && Full(g, s.db) && (Exact(g, before) ==> (Exact(g, s.db) <==> !StaleStep(g, rules, before, s)))
    && (s.status.Side? ==> s.db.rows == before.rows)
    && (s.status.Canon? ==>
          0 < s.block.header.number && HeadsFollow(HeadPath(g, before), before.rows, s.block.header, s.db.rows))
  }

  /** Stores the block and decides whether it becomes the head. */
  method StoreAndChoose(ghost g: Header, before: Database, block: Block, rules: Rules, coin: bool)
      returns (db: Database, reorg: bool)
    requires Full(g, before) && Acceptable(g, before, block) && block.header.parentHash in before.headers
    ensures Keeps(g, before, db, block)
    ensures db.rows == before.rows && (Exact(g, before) <==> Exact(g, db))
    ensures RankOf(rules, db, block.header.hash) == RankAhead(rules, before, block.header)
    ensures RankOf(rules, db, before.rows.headBlock) == RankOf(rules, before, before.rows.headBlock)
    ensures reorg <==> Wins(rules, before, block.header, coin)
  {
    var h, head := block.header.hash, before.rows.headBlock;
    var externTd := block.header.difficulty + before.td[block.header.parentHash];
    StoredKeeps(g, before, block, externTd);
    StoredExact(g, before, block, externTd);
    db := BlockStored(before, block, externTd);
    assert Kept(g, before, db, head);
    var local := Rank(rules.justified(head), before.td[head], before.headers[head].number);
    var extern := Rank(rules.justified(h), externTd, block.header.number);
    reorg := ReorgNeeded(rules.posa, local, extern, rules.preserve(head), rules.preserve(h), coin);
  }

  /** Moving the head changes no stored data. */
  lemma HeadMoved(g: Header, before: Database, db: Database, block: Block, rows: Rows)
    requires Full(g, before) && Keeps(g, before, db, block) && rows.headBlock in db.headers
    ensures Keeps(g, before, db.(rows := rows), block)
  {
    var next := db.(rows := rows);
    assert TreeOf(g, next) == TreeOf(g, db);
    forall k | k in before.headers
      ensures Kept(g, before, next, k)
    {
      assert Kept(g, before, db, k);
    }
  }

  /** writeBlockWithState, on the database. */
  method ImportBlock(ghost g: Header, before: Database, block: Block, rules: Rules, coin: bool) returns (s: Step)
    requires Full(g, before) && Acceptable(g, before, block)
    ensures s.block == block && s.coin == coin && Takes(g, rules, before, s) && Indexes(g, rules, before, s)
  {
    if block.header.parentHash !in before.td {
      return Step(block, coin, before, [], UnknownAncestor, 0);
    }
    var h := block.header.hash;
    var db, reorg := StoreAndChoose(g, before, block, rules, coin);
    assert Kept(g, before, db, before.rows.headBlock);
    if reorg {
      var rows, events, fork, _ := AdoptHead(g, db, h);
      HeadMoved(g, before, db, block, rows);
      CutShortIsStale(TreeOf(g, db), HeadPath(g, before), block.header);
      s := Step(block, coin, db.(rows := rows), events + Added(block.logs), Canon, fork);
    } else {
      s := Step(block, coin, db, [SideBlock(h)], Side, 0);
    }
  }

  // ---------------------------------------------------------------- what every import keeps

  /** No stored block outranks the head block. */
  ghost predicate Best(rules: Rules, db: Database)
    requires db.rows.headBlock in db.headers && db.td.Keys == db.headers.Keys
  {
    forall k {:trigger RankOf(rules, db, k)} :: k in db.headers ==>
      !Outranks(rules.posa, RankOf(rules, db, k), RankOf(rules, db, db.rows.headBlock))
  }

  lemma StepBest(g: Header, rules: Rules, before: Database, s: Step)
    requires Full(g, before) && Takes(g, rules, before, s) && Best(rules, before)
    ensures Full(g, s.db) && Best(rules, s.db)
  {
    if !s.status.UnknownAncestor? {
      var head := before.rows.headBlock;
      assert Kept(g, before, s.db, head);
      forall k | k in s.db.headers
        ensures !Outranks(rules.posa, RankOf(rules, s.db, k), RankOf(rules, s.db, s.db.rows.headBlock))
      {
        if k in before.headers {
          assert Kept(g, before, s.db, k);
          assert RankOf(rules, s.db, k) == RankOf(rules, before, k);
          assert RankOf(rules, s.db, head) == RankOf(rules, before, head);
          OutranksTransfer(rules.posa, RankOf(rules, s.db, k), RankOf(rules, s.db, head),
                           RankOf(rules, s.db, s.db.rows.headBlock));
        }
      }
    }
  }

  /** The canonical logs. */
  ghost function HeadLogs(g: Header, db: Database): (logs: seq<Log>)
    requires Full(g, db)
  {
    Along(db.receipts, HeadPath(g, db))
  }

  /** An import leaves the logs of the old path as they were. */
  lemma OldLogs(g: Header, before: Database, db: Database, block: Block)
    requires Full(g, before) && Keeps(g, before, db, block)
    ensures Along(db.receipts, HeadPath(g, before)) == HeadLogs(g, before)
  {
    var path := HeadPath(g, before);
    PathStored(g, before, before.rows.headBlock);
    forall i | 0 <= i < |path|
      ensures RowOf(db.receipts, path[i]) == RowOf(before.receipts, path[i])
    {
      assert Kept(g, before, db, path[i]);
    }
    AlongSame(before.receipts, db.receipts, path);
  }

  lemma CanonClient(receipts: map<Hash, seq<Log>>, a: seq<Hash>, b: seq<Hash>, s: Step)
    requires Switches(a, b, s) && receipts == s.db.receipts
    requires |b| == s.block.header.number + 1 && b[|b| - 1] == s.block.header.hash
    requires RowOf(receipts, s.block.header.hash) == s.block.logs
    ensures Follow(Some(Along(receipts, a)), s.events) == Some(Along(receipts, b)) <==>
            !(s.block.logs != [] && OnBranch(a, s.block.header.hash, s.block.header.number))
  {
    FollowSwitch(receipts, a, b, s.fork);
    assert OnBranch(a, b[|b| - 1], |b| - 1) <==> s.fork == |b| - 1;
  }

  /** A client that follows the feeds holds the logs of the canonical path after the import, unless the
      import re-announces a block that was canonical already. */
  lemma StepClient(g: Header, rules: Rules, before: Database, s: Step)
    requires Full(g, before) && Takes(g, rules, before, s)
    ensures Full(g, s.db)
    ensures Follow(Some(HeadLogs(g, before)), s.events) == Some(HeadLogs(g, s.db)) <==> !Repeats(g, rules, before, s)
  {
    if s.status.Side? {
      OldLogs(g, before, s.db, s.block);
      assert Kept(g, before, s.db, before.rows.headBlock);
      assert s.events[1..] == [];
    } else if s.status.Canon? {
      OldLogs(g, before, s.db, s.block);
      CanonClient(s.db.receipts, HeadPath(g, before), HeadPath(g, s.db), s);
    }
  }

  // ---------------------------------------------------------------- runs

  /** A run of imports from `db`. */
  ghost predicate IsRun(g: Header, rules: Rules, db: Database, steps: seq<Step>)
    requires Full(g, db)
    decreases |steps|
  {
    steps == [] ||
    (Takes(g, rules, db, steps[0]) && Indexes(g, rules, db, steps[0]) && IsRun(g, rules, steps[0].db, steps[1..]))
  }

  function Final(db: Database, steps: seq<Step>): (r: Database)
    decreases |steps|
  {
    if steps == [] then db else Final(steps[0].db, steps[1..])
  }

  function Emitted(steps: seq<Step>): (events: seq<Event>)
  {
    if steps == [] then [] else steps[0].events + Emitted(steps[1..])
  }

  /** Over every run the head block stays a best stored block. */
  lemma {:induction false} RunBest(g: Header, rules: Rules, db: Database, steps: seq<Step>)
    requires Full(g, db) && IsRun(g, rules, db, steps) && Best(rules, db)
    ensures Full(g, Final(db, steps)) && Best(rules, Final(db, steps))
    decreases |steps|
  {
    if steps != [] {
      StepBest(g, rules, db, steps[0]);
      RunBest(g, rules, steps[0].db, steps[1..]);
    }
  }

  lemma OutranksChain(posa: bool, next: Rank, head: Rank, k: Rank)
    requires Outranks(posa, head, k) && !Outranks(posa, head, next)
    ensures Outranks(posa, next, k)
  {
  }

  lemma StepBeats(g: Header, rules: Rules, before: Database, s: Step, k: Hash)
    requires Full(g, before) && Takes(g, rules, before, s) && k in before.headers
    requires Outranks(rules.posa, RankOf(rules, before, before.rows.headBlock), RankOf(rules, before, k))
    ensures Full(g, s.db) && k in s.db.headers
    ensures Outranks(rules.posa, RankOf(rules, s.db, s.db.rows.headBlock), RankOf(rules, s.db, k))
  {
    if !s.status.UnknownAncestor? {
      assert Kept(g, before, s.db, k) && Kept(g, before, s.db, before.rows.headBlock);
      OutranksChain(rules.posa, RankOf(rules, s.db, s.db.rows.headBlock), RankOf(rules, s.db, before.rows.headBlock),
                    RankOf(rules, s.db, k));
    }
  }

  ghost predicate NeverHead(steps: seq<Step>, k: Hash)
  {
    steps == [] || (steps[0].db.rows.headBlock != k && NeverHead(steps[1..], k))
  }

  /** A block that the head outranks, such as a former head that it replaced, never becomes head again. */
  lemma {:induction false} RunNeverReturns(g: Header, rules: Rules, db: Database, steps: seq<Step>, k: Hash)
    requires Full(g, db) && IsRun(g, rules, db, steps) && k in db.headers
    requires Outranks(rules.posa, RankOf(rules, db, db.rows.headBlock), RankOf(rules, db, k))
    ensures NeverHead(steps, k)
    decreases |steps|
  {
    if steps != [] {
      StepBeats(g, rules, db, steps[0], k);
      RunNeverReturns(g, rules, steps[0].db, steps[1..], k);
    }
  }

  ghost predicate NoneStale(g: Header, rules: Rules, db: Database, steps: seq<Step>)
    requires Full(g, db) && IsRun(g, rules, db, steps)
    decreases |steps|
  {
    steps == [] || (!StaleStep(g, rules, db, steps[0]) && NoneStale(g, rules, steps[0].db, steps[1..]))
  }

  /** Over every run in which no new head cuts the old chain short, the index, the lookup and the three
      heads are those of the head block. */
  lemma {:induction false} RunExact(g: Header, rules: Rules, db: Database, steps: seq<Step>)
    requires Full(g, db) && IsRun(g, rules, db, steps) && NoneStale(g, rules, db, steps) && Exact(g, db)
    ensures Full(g, Final(db, steps)) && Exact(g, Final(db, steps))
    decreases |steps|
  {
    if steps != [] { RunExact(g, rules, steps[0].db, steps[1..]); }
  }

  /** No import of the run re-announces a block that was canonical already. */
  ghost predicate NoRepeats(g: Header, rules: Rules, db: Database, steps: seq<Step>)
    requires Full(g, db) && IsRun(g, rules, db, steps)
    decreases |steps|
  {
    steps == [] || (!Repeats(g, rules, db, steps[0]) && NoRepeats(g, rules, steps[0].db, steps[1..]))
  }

  /** Over every such run a client that follows the feeds ends with the logs of the canonical path. */
  lemma {:induction false} RunClient(g: Header, rules: Rules, db: Database, steps: seq<Step>)
    requires Full(g, db) && IsRun(g, rules, db, steps) && NoRepeats(g, rules, db, steps)
    ensures Full(g, Final(db, steps))
    ensures Follow(Some(HeadLogs(g, db)), Emitted(steps)) == Some(HeadLogs(g, Final(db, steps)))
    decreases |steps|
  {
    if steps != [] {
      StepClient(g, rules, db, steps[0]);
      RunClient(g, rules, steps[0].db, steps[1..]);
      FollowConcat(Some(HeadLogs(g, db)), steps[0].events, Emitted(steps[1..]));
    }
  }

  /** Each block is acceptable when its turn comes, whatever the imports before it did. */
  ghost predicate Admissible(g: Header, rules: Rules, db: Database, blocks: seq<Block>)
    requires Full(g, db)
    decreases |blocks|
  {
    blocks == [] ||
    (&& Acceptable(g, db, blocks[0])
     && forall s: Step {:trigger Takes(g, rules, db, s)} ::
          s.block == blocks[0] && Takes(g, rules, db, s) && Full(g, s.db) ==> Admissible(g, rules, s.db, blocks[1..]))
  }

  /** Imports one after the other are a run. */
  method ImportBlocks(ghost g: Header, before: Database, blocks: seq<Block>, rules: Rules, coins: seq<bool>)
      returns (steps: seq<Step>)
    requires Full(g, before) && |coins| == |blocks| && Admissible(g, rules, before, blocks)
    ensures IsRun(g, rules, before, steps) && |steps| == |blocks|
    ensures forall i :: 0 <= i < |steps| ==> steps[i].block == blocks[i]
    decreases |blocks|
  {
    steps := [];
    if blocks != [] {
      var step := ImportBlock(g, before, blocks[0], rules, coins[0]);
      var rest := ImportBlocks(g, step.db, blocks[1..], rules, coins[1..]);
      steps := [step] + rest;
      assert steps[1..] == rest;
    }
  }

  lemma {:induction false} RunFull(g: Header, rules: Rules, db: Database, steps: seq<Step>)
    requires Full(g, db) && IsRun(g, rules, db, steps)
    ensures Full(g, Final(db, steps))
    decreases |steps|
  {
    if steps != [] { RunFull(g, rules, steps[0].db, steps[1..]); }
  }

  class BlockChain {
    const genesis: Header
    const rules: Rules
    var db: Database
    var events: seq<Event>

    ghost predicate Valid()
      reads this
    {
      Full(genesis, db)
    }

    constructor (g: Header, rules: Rules)
      requires g.number == 0 && g.hash != NO_HASH && 0 < g.difficulty
      ensures genesis == g && this.rules == rules && events == []
      ensures db == Database(map[g.hash := g], map[g.hash := g.difficulty], map[g.hash := []], map[g.hash := []],
                             Rows(map[0 := g.hash], map[], g.hash, g.hash, g.hash))
      ensures Valid() && Exact(g, db) && Best(rules, db)
    {
      genesis, this.rules, events := g, rules, [];
      db := Database(map[g.hash := g], map[g.hash := g.difficulty], map[g.hash := []], map[g.hash := []],
                     Rows(map[0 := g.hash], map[], g.hash, g.hash, g.hash));
      new;
      assert TreeOf(g, db).Anchored(g.hash);
    }

    /** A node that comes up with a database from before. */
    constructor Open(g: Header, rules: Rules, db: Database)
      requires Full(g, db)
      ensures Valid() && genesis == g && this.rules == rules && this.db == db && events == []
    {
      genesis, this.rules, this.db, events := g, rules, db, [];
    }

    /** writeBlockWithState: `step` is what happened. */
    method WriteBlockWithState(block: Block, coin: bool) returns (step: Step)
      requires Valid() && Acceptable(genesis, db, block)
      modifies this
      ensures Valid() && Takes(genesis, rules, old(db), step) && step.block == block && step.coin == coin
      ensures Indexes(genesis, rules, old(db), step)
      ensures db == step.db && events == old(events) + step.events
    {
      step := ImportBlock(genesis, db, block, rules, coin);
      db, events := step.db, events + step.events;
    }

    /** Imports one after the other are a run, and so have what every run has. */
    method WriteBlocks(blocks: seq<Block>, coins: seq<bool>) returns (steps: seq<Step>)
      requires Valid() && |coins| == |blocks| && Admissible(genesis, rules, db, blocks)
      modifies this
      ensures Valid() && |steps| == |blocks| && IsRun(genesis, rules, old(db), steps)
      ensures db == Final(old(db), steps) && events == old(events) + Emitted(steps)
    {
      steps := ImportBlocks(genesis, db, blocks, rules, coins);
      RunFull(genesis, rules, db, steps);
      db, events := Final(db, steps), events + Emitted(steps);
    }

    /** writeKnownBlock: makes a stored block the head without asking fork choice. */
    method WriteKnownBlock(hash: Hash) returns (ghost fork: nat)
      requires Valid() && hash in db.headers && 0 < db.headers[hash].number
      modifies this
      ensures Valid() && db == old(db).(rows := db.rows) && db.rows.headBlock == hash
      ensures HeadsFollow(HeadPath(genesis, old(db)), old(db).rows, db.headers[hash], db.rows)
      ensures Exact(genesis, old(db)) ==>
                (Exact(genesis, db) <==> !Stale(HeadPath(genesis, old(db)), HeadPath(genesis, db)))
      ensures Forked(HeadPath(genesis, old(db)), HeadPath(genesis, db), fork)
      ensures events == old(events) + Announced(db.receipts, Dropped(HeadPath(genesis, old(db)), fork),
                                                Revived(HeadPath(genesis, db), fork))
    {
      var rows, announced, c, _ := AdoptHead(genesis, db, hash);
      fork := c;
      db, events := db.(rows := rows), events + announced;
    }
  }

  // ---------------------------------------------------------------- the stale case is reachable

  const G := Header(1, 0, 0, 1, 0)
  const A1 := Block(Header(2, 1, 1, 1, 0), [], [])
  const A2 := Block(Header(3, 2, 2, 1, 0), [], [])
  const B1 := Block(Header(4, 1, 1, 9, 0), [], [])

  const EASY := Rules(false, k => 0, k => false)

  /** The light blocks up to hash `n` are stored, and the last of them is the head. */
  ghost predicate Light(db: Database, n: Hash)
  {
    && (forall k :: k in db.headers <==> 1 <= k <= n)
    && (1 in db.headers ==> db.headers[1] == G)
    && (2 in db.headers ==> db.headers[2] == A1.header) && (3 in db.headers ==> db.headers[3] == A2.header)
    && Full(G, db) && Exact(G, db) && db.rows.headBlock == n
  }

  /** A child of the head becomes the head, and cuts nothing short. */
  lemma ChildWins(before: Database, h: Header, coin: bool)
    requires Full(G, before) && h.parentHash == before.rows.headBlock && 0 < h.difficulty
    requires h.number == before.headers[before.rows.headBlock].number + 1
    ensures Wins(EASY, before, h, coin) && !CutShort(HeadPath(G, before), h)
  {
  }

  /** Importing the next light block, a child of the head. */
  lemma LightNext(before: Database, s: Step, n: Hash)
    requires 1 <= n <= 2 && Light(before, n) && s.block == (if n == 1 then A1 else A2)
    requires Takes(G, EASY, before, s) && Indexes(G, EASY, before, s)
    ensures Light(s.db, n + 1)
  {
    ChildWins(before, s.block.header, s.coin);
    assert Kept(G, before, s.db, 1);
    if n == 2 { assert Kept(G, before, s.db, 2); }
  }

  method GrowLight(chain: BlockChain, block: Block, ghost n: Hash)
    requires chain.genesis == G && chain.rules == EASY && 1 <= n <= 2 && Light(chain.db, n)
    requires block == (if n == 1 then A1 else A2)
    modifies chain
    ensures Light(chain.db, n + 1)
  {
    ghost var before := chain.db;
    var s := chain.WriteBlockWithState(block, false);
    LightNext(before, s, n);
  }

  method TwoLightBlocks() returns (chain: BlockChain)
    ensures fresh(chain) && chain.genesis == G && chain.rules == EASY && Light(chain.db, 3)
  {
    chain := new BlockChain(G, EASY);
    GrowLight(chain, A1, 1);
    GrowLight(chain, A2, 2);
  }

  lemma LightPath(t: Tree)
    requires t.Rooted() && 1 in t.headers && 2 in t.headers && 3 in t.headers
    requires t.headers[1] == G && t.headers[2] == A1.header && t.headers[3] == A2.header
    ensures t.Path(3) == [1, 2, 3] && t.Td(1) == 1 && t.Td(3) == 3
  {
    assert t.Path(1) == [1] && t.Td(1) == 1;
    assert t.Path(2) == [1, 2] && t.Td(2) == 2;
  }

  /** Two light blocks, then a heavy first block: the row of the second light block survives. */
  method HeavyBlockLeavesAStaleRow() returns (chain: BlockChain)
    ensures chain.Valid() && !Exact(chain.genesis, chain.db)
  {
    chain := TwoLightBlocks();
    LightPath(TreeOf(G, chain.db));
    ghost var before := chain.db;
    var s := chain.WriteBlockWithState(B1, false);
    assert Wins(EASY, before, B1.header, false) && CutShort(HeadPath(G, before), B1.header);
  }

  const C1 := Block(Header(2, 1, 1, 1, 0), [], [7])

  /** The block with a log is the head, and the client is right. */
  ghost predicate Logged(db: Database, heard: seq<Event>)
  {
    && Full(G, db) && (forall k :: k in db.headers <==> k == 1 || k == 2)
    && db.rows.headBlock == 2 && db.headers[1] == G && db.headers[2] == C1.header && SameBlock(db, C1)
    && Follow(Some([]), heard) == Some(HeadLogs(G, db))
  }

  lemma NoLogs(before: Database)
    requires Full(G, before) && before.headers == map[1 := G] && before.receipts == map[1 := []]
    requires before.rows.headBlock == 1
    ensures HeadPath(G, before) == [1] && HeadLogs(G, before) == []
  {
    assert Along(before.receipts, [1]) == [] by { assert [1][..0] == []; }
  }

  lemma LoggedBlock(before: Database, s: Step)
    requires Full(G, before) && s.block == C1 && Takes(G, EASY, before, s)
    requires before.headers == map[1 := G] && before.receipts == map[1 := []] && before.rows.headBlock == 1
    ensures Logged(s.db, s.events)
  {
    ChildWins(before, C1.header, s.coin);
    assert Kept(G, before, s.db, 1);
    NoLogs(before);
    StepClient(G, EASY, before, s);
  }

  method OneLoggedBlock() returns (chain: BlockChain)
    ensures fresh(chain) && chain.genesis == G && chain.rules == EASY && Logged(chain.db, chain.events)
  {
    chain := new BlockChain(G, EASY);
    ghost var before := chain.db;
    var s := chain.WriteBlockWithState(C1, false);
    LoggedBlock(before, s);
    assert [] + s.events == s.events;
  }

  /** The head has the rank of the block, being the block. */
  lemma LoggedRepeats(before: Database, s: Step)
    requires Full(G, before) && s.block == C1 && s.coin && before.rows.headBlock == 2
    requires 1 in before.headers && 2 in before.headers && before.headers[1] == G && before.headers[2] == C1.header
    ensures Repeats(G, EASY, before, s)
  {
    var t := TreeOf(G, before);
    assert t.Td(2) == t.Td(1) + 1;
    assert t.Path(2) == t.Path(1) + [2];
  }

  /** A block with a log, written twice: the second time its log is announced again, and the client is wrong. */
  method HeadWrittenTwiceRepeatsItsLogs() returns (chain: BlockChain)
    ensures chain.Valid() && Follow(Some([]), chain.events) != Some(HeadLogs(chain.genesis, chain.db))
  {
    chain := OneLoggedBlock();
    ghost var before, heard := chain.db, chain.events;
    var s := chain.WriteBlockWithState(C1, true);
    LoggedRepeats(before, s);
    StepClient(G, EASY, before, s);
    FollowConcat(Some([]), heard, s.events);
  }
}
