/** The garbage collection of state tries, core/blockchain.go and trie/triedb/hashdb/database.go.

Every block written to a full node references its state root in the trie database and enters the root in a
priority queue by block number.  Roots that fall too far behind are dereferenced again, and a root without references
is forgotten.  Tries are looked at by their roots only; that a trie is written to disk before its turn may happen at any
write and to any root.
*/
module TrieGC {
  import opened HeaderTree

  datatype Entry = Entry(root: Hash, number: nat)

  // ---------------------------------------------------------------- the trie database, by roots

  /** Roots in memory with their reference counts, and roots on disk. */
  datatype Store = Store(dirties: map<Hash, nat>, disk: set<Hash>) {

    predicate Has(root: Hash)
    {
      root in dirties || root in disk
    }

    /** Update: a new root enters memory unless it is there. */
    function Inserted(root: Hash): (s: Store)
    {
      if root in dirties then this else this.(dirties := dirties[root := 0])
    }

    /** A root that is only on disk is not counted. */
    function Referenced(root: Hash): (s: Store)
    {
      if root in dirties then this.(dirties := dirties[root := dirties[root] + 1]) else this
    }

    /** The last reference takes the root out of memory. */
    function Dereferenced(root: Hash): (s: Store)
    {
      if root !in dirties then this
      else if dirties[root] <= 1 then this.(dirties := dirties - {root})
      else this.(dirties := dirties[root := dirties[root] - 1])
    }

    /** Commit and Cap move roots from memory to disk. */
    function Flushed(roots: set<Hash>): (s: Store)
    {
      Store(dirties - roots, disk + roots * dirties.Keys)
    }

    /** The references to a root. */
    function Refs(root: Hash): (n: nat)
    {
      if root in dirties then dirties[root] else 0
    }
  }

  // ---------------------------------------------------------------- the queue

  /** How many entries of the queue are for a root, at the number `from` or above. */
  function CountFrom(queue: seq<Entry>, root: Hash, from: nat): (n: nat)
    ensures n <= |queue|
  {
    if queue == [] then 0
    else CountFrom(queue[..|queue| - 1], root, from) + One(queue[|queue| - 1], root, from)
  }

  function One(e: Entry, root: Hash, from: nat): (n: nat)
  {
    if e.root == root && from <= e.number then 1 else 0
  }

  function Count(queue: seq<Entry>, root: Hash): (n: nat)
  {
    CountFrom(queue, root, 0)
  }

  lemma {:induction false} CountMember(queue: seq<Entry>, root: Hash, from: nat)
    ensures 0 < CountFrom(queue, root, from) <==> exists e :: e in queue && e.root == root && from <= e.number
  {
    if queue != [] {
      var n := |queue| - 1;
      CountMember(queue[..n], root, from);
      assert queue == queue[..n] + [queue[n]];
    }
  }

  lemma {:induction false} CountAll(queue: seq<Entry>, root: Hash, from: nat)
    requires forall e | e in queue :: from <= e.number
    ensures CountFrom(queue, root, from) == Count(queue, root)
  {
    if queue != [] {
      var n := |queue| - 1;
      assert queue[n] in queue;
      assert forall e | e in queue[..n] :: e in queue;
      CountAll(queue[..n], root, from);
    }
  }

  function Removed(queue: seq<Entry>, i: nat): (r: seq<Entry>)
    requires i < |queue|
    ensures multiset(r) == multiset(queue) - multiset{queue[i]}
  {
    assert queue == queue[..i] + [queue[i]] + queue[i + 1..];
    queue[..i] + queue[i + 1..]
  }

  lemma {:induction false} CountConcat(p: seq<Entry>, q: seq<Entry>, root: Hash, from: nat)
    ensures CountFrom(p + q, root, from) == CountFrom(p, root, from) + CountFrom(q, root, from)
  {
    if q == [] {
      assert p + q == p;
    } else {
      var n := |q| - 1;
      CountConcat(p, q[..n], root, from);
      assert (p + q)[..|p| + n] == p + q[..n];
    }
  }

  lemma CountPushed(queue: seq<Entry>, e: Entry, root: Hash, from: nat)
    ensures CountFrom(queue + [e], root, from) == CountFrom(queue, root, from) + One(e, root, from)
  {
    assert (queue + [e])[..|queue|] == queue;
  }

  lemma CountRemoved(queue: seq<Entry>, i: nat, root: Hash, from: nat)
    requires i < |queue|
    ensures CountFrom(Removed(queue, i), root, from) == CountFrom(queue, root, from) - One(queue[i], root, from)
  {
    var low, high := queue[..i], queue[i + 1..];
    CountConcat(low, high, root, from);
    CountPushed(low, queue[i], root, from);
    CountConcat(low + [queue[i]], high, root, from);
    assert queue == low + [queue[i]] + high;
  }

  /** The rest of the queue once `e` is taken out of it. */
  ghost predicate Popped(queue: seq<Entry>, e: Entry, rest: seq<Entry>)
  {
    && e in queue && multiset(rest) == multiset(queue) - multiset{e} && |rest| == |queue| - 1
    && forall root, from {:trigger CountFrom(rest, root, from)} ::
         CountFrom(rest, root, from) == CountFrom(queue, root, from) - One(e, root, from)
  }

  /** Pop takes out an entry with the least number: the priority is the negated number. */
  method Pop(queue: seq<Entry>) returns (e: Entry, rest: seq<Entry>)
    requires queue != []
    ensures Popped(queue, e, rest) && forall f | f in queue :: e.number <= f.number
  {
    var least := 0;
    for i := 1 to |queue|
      invariant least < |queue|
      invariant forall j :: 0 <= j < i ==> queue[least].number <= queue[j].number
    {
      if queue[i].number < queue[least].number { least := i; }
    }
    e, rest := queue[least], Removed(queue, least);
    forall root, from: nat
      ensures CountFrom(rest, root, from) == CountFrom(queue, root, from) - One(e, root, from)
    {
      CountRemoved(queue, least, root, from);
    }
  }

  // ---------------------------------------------------------------- references

  /** What the references to one root are worth: a root in memory has at least one and no more than its entries, and
      a root that is entered but not on disk is in memory with exactly one reference per entry. */
  predicate Held(s: Store, queue: seq<Entry>, root: Hash)
  {
    && (root in s.dirties ==> 1 <= s.dirties[root] <= Count(queue, root))
    && (root !in s.disk && 0 < Count(queue, root) ==> root in s.dirties && s.dirties[root] == Count(queue, root))
  }

  ghost predicate Balanced(s: Store, queue: seq<Entry>)
  {
    forall root {:trigger Held(s, queue, root)} :: Held(s, queue, root)
  }

  /** The root has one reference per entry. */
  predicate Equal(s: Store, queue: seq<Entry>, root: Hash)
  {
    s.Refs(root) == Count(queue, root)
  }

  /** The store with a new state opened from `parent`: inserted if it is a different one, and referenced. */
  function Opened(s: Store, parent: Hash, root: Hash): (r: Store)
  {
    (if root != parent then s.Inserted(root) else s).Referenced(root)
  }

  lemma PushBalanced(s: Store, queue: seq<Entry>, parent: Hash, e: Entry)
    requires Balanced(s, queue) && s.Has(parent)
    ensures Balanced(Opened(s, parent, e.root), queue + [e])
  {
    forall root
      ensures Held(Opened(s, parent, e.root), queue + [e], root)
    {
      assert Held(s, queue, root);
      CountPushed(queue, e, root, 0);
    }
  }

  /** Entering a root keeps references equal to entries unless the state is unchanged and its root is only on disk. */
  lemma PushEqual(s: Store, queue: seq<Entry>, parent: Hash, e: Entry, root: Hash)
    requires Equal(s, queue, root)
    ensures Equal(Opened(s, parent, e.root), queue + [e], root) <==>
            !(root == e.root && e.root == parent && e.root !in s.dirties)
  {
    CountPushed(queue, e, root, 0);
  }

  lemma PopBalanced(s: Store, queue: seq<Entry>, e: Entry, rest: seq<Entry>)
    requires Balanced(s, queue) && Popped(queue, e, rest)
    ensures Balanced(s.Dereferenced(e.root), rest)
  {
    forall root
      ensures Held(s.Dereferenced(e.root), rest, root)
    {
      assert Held(s, queue, root);
      assert CountFrom(rest, root, 0) == CountFrom(queue, root, 0) - One(e, root, 0);
    }
  }

  lemma FlushBalanced(s: Store, queue: seq<Entry>, roots: set<Hash>)
    requires Balanced(s, queue)
    ensures Balanced(s.Flushed(roots), queue)
  {
    forall root
      ensures Held(s.Flushed(roots), queue, root)
    {
      assert Held(s, queue, root);
    }
  }

  /** Writing roots to disk keeps references equal to entries except for those that have entries. */
  lemma FlushEqual(s: Store, queue: seq<Entry>, roots: set<Hash>, root: Hash)
    requires Equal(s, queue, root)
    ensures Equal(s.Flushed(roots), queue, root) <==> root !in roots || Count(queue, root) == 0
  {
  }

  /** Whatever is entered in the queue can be read. */
  lemma EnteredIsReadable(s: Store, queue: seq<Entry>, e: Entry)
    requires Balanced(s, queue) && e in queue
    ensures s.Has(e.root)
  {
    assert Held(s, queue, e.root);
    CountMember(queue, e.root, 0);
  }

  /** With the queue empty, nothing is left in memory. */
  lemma NothingDangles(s: Store)
    requires Balanced(s, [])
    ensures s.dirties == map[]
  {
    forall root
      ensures root !in s.dirties
    {
      assert Held(s, [], root);
    }
  }

  // ---------------------------------------------------------------- collection

  function Times(queue: seq<Entry>, e: Entry): (n: nat)
  {
    multiset(queue)[e]
  }

  lemma TimesPushed(queue: seq<Entry>, e: Entry, f: Entry)
    ensures Times(queue + [e], f) == Times(queue, f) + (if e == f then 1 else 0)
  {
  }

  /** Only entries up to `chosen` are gone from the queue. */
  ghost predicate CutAt(left: seq<Entry>, queue: seq<Entry>, chosen: nat)
  {
    && (forall e: Entry :: Times(left, e) <= Times(queue, e))
    && (forall e: Entry :: chosen < e.number ==> Times(left, e) == Times(queue, e))
  }

  function Less(a: nat, b: nat): (n: nat)
  {
    if b <= a then a - b else 0
  }

  /** Every entry of a root that is gone has taken one reference with it, as long as there were any. */
  predicate Released(s: Store, queue: seq<Entry>, t: Store, left: seq<Entry>, root: Hash)
  {
    && Count(left, root) <= Count(queue, root)
    && t.Refs(root) == Less(s.Refs(root), Count(queue, root) - Count(left, root))
  }

  /** What the collection leaves of the store and the queue. */
  ghost predicate Collected(s: Store, queue: seq<Entry>, chosen: nat, t: Store, left: seq<Entry>)
  {
    && t.disk == s.disk && CutAt(left, queue, chosen) && (forall e | e in left :: chosen < e.number)
    && (forall root {:trigger Released(s, queue, t, left, root)} ::
          Released(s, queue, t, left, root) && Count(left, root) == CountFrom(queue, root, chosen + 1))
    && (forall root, from {:trigger CountFrom(left, root, from)} ::
          chosen < from ==> CountFrom(left, root, from) == CountFrom(queue, root, from))
  }

  lemma ReleasedNext(s: Store, queue: seq<Entry>, t: Store, left: seq<Entry>, e: Entry, rest: seq<Entry>, root: Hash)
    requires Released(s, queue, t, left, root) && Popped(left, e, rest)
    ensures Released(s, queue, t.Dereferenced(e.root), rest, root)
  {
    assert CountFrom(rest, root, 0) == CountFrom(left, root, 0) - One(e, root, 0);
  }

  /** The collection loop: it dereferences exactly the entries up to `chosen`. */
  method Collect(s: Store, queue: seq<Entry>, chosen: nat) returns (t: Store, left: seq<Entry>)
    requires Balanced(s, queue)
    ensures Balanced(t, left) && Collected(s, queue, chosen, t, left)
  {
    t, left := s, queue;
    while left != []
      invariant Balanced(t, left) && t.disk == s.disk
      invariant CutAt(left, queue, chosen)
      invariant forall root {:trigger Released(s, queue, t, left, root)} :: Released(s, queue, t, left, root)
      invariant forall root, from {:trigger CountFrom(left, root, from)} ::
                  chosen < from ==> CountFrom(left, root, from) == CountFrom(queue, root, from)
      decreases |left|
    {
      var e, rest := Pop(left);
      if chosen < e.number {
        // pushed back
        break;
      }
      PopBalanced(t, left, e, rest);
      forall root
        ensures Released(s, queue, t.Dereferenced(e.root), rest, root)
      {
        ReleasedNext(s, queue, t, left, e, rest, root);
      }
      assert forall root, from :: chosen < from ==> CountFrom(rest, root, from) == CountFrom(left, root, from);
      t, left := t.Dereferenced(e.root), rest;
    }
    forall root
      ensures Count(left, root) == CountFrom(queue, root, chosen + 1)
    {
      CountAll(left, root, chosen + 1);
    }
  }

  /** The release loop of Stop. */
  method Release(s: Store, queue: seq<Entry>) returns (t: Store)
    requires Balanced(s, queue)
    ensures t.dirties == map[] && t.disk == s.disk
  {
    t := s;
    var left := queue;
    while left != []
      invariant Balanced(t, left) && t.disk == s.disk
      decreases |left|
    {
      var e, rest := Pop(left);
      PopBalanced(t, left, e, rest);
      t, left := t.Dereferenced(e.root), rest;
    }
    NothingDangles(t);
  }

  // ---------------------------------------------------------------- one block

  /** The store and the queue between two blocks. */
  datatype Gc = Gc(store: Store, queue: seq<Entry>)

  /** A block written to the chain: its state was opened from `parent` and has `root`, and `flush` holds the roots that
      Cap and Commit happen to write to disk. */
  datatype Block = Block(number: nat, parent: Hash, root: Hash, flush: set<Hash>) {

    function Queued(): (e: Entry)
    {
      Entry(root, number)
    }
  }

  /** What a write makes of store and queue. */
  ghost predicate Writes(window: nat, g: Gc, b: Block, h: Gc)
  {
    var s, q := Opened(g.store, b.parent, b.root), g.queue + [b.Queued()];
    if b.number <= window then h.store == s && h.queue == q
    else Collected(s.Flushed(b.flush), q, b.number - window, h.store, h.queue)
  }

  /** The part of writeBlockWithState about tries. */
  method WriteState(window: nat, g: Gc, b: Block) returns (h: Gc)
    requires Balanced(g.store, g.queue) && g.store.Has(b.parent)
    ensures Writes(window, g, b, h) && Balanced(h.store, h.queue)
  {
    PushBalanced(g.store, g.queue, b.parent, b.Queued());
    var s, q := Opened(g.store, b.parent, b.root), g.queue + [b.Queued()];
    if window < b.number {
      FlushBalanced(s, q, b.flush);
      s, q := Collect(s.Flushed(b.flush), q, b.number - window);
    }
    h := Gc(s, q);
  }

  /** The write enters the root without a reference, or takes the references of an entered root away. */
  predicate Misses(window: nat, g: Gc, b: Block, root: Hash)
  {
    || (root == b.root && b.root == b.parent && root !in g.store.dirties)
    || (window < b.number && root in b.flush && 0 < Count(g.queue + [b.Queued()], root))
  }

  /** An entry of the root is within the window of the written block. */
  predicate Stays(window: nat, g: Gc, b: Block, root: Hash)
  {
    0 < CountFrom(g.queue + [b.Queued()], root, if b.number <= window then 0 else b.number - window + 1)
  }

  /** A write keeps the references of a root equal to its entries, if and only if it does not miss the root or leaves no
      entry of it. */
  lemma WriteEqual(window: nat, g: Gc, b: Block, h: Gc, root: Hash)
    requires Writes(window, g, b, h) && Equal(g.store, g.queue, root)
    ensures Equal(h.store, h.queue, root) <==> !Misses(window, g, b, root) || !Stays(window, g, b, root)
  {
    var s, q := Opened(g.store, b.parent, b.root), g.queue + [b.Queued()];
    PushEqual(g.store, g.queue, b.parent, b.Queued(), root);
    CountPushed(g.queue, b.Queued(), root, 0);
    if window < b.number {
      assert Released(s.Flushed(b.flush), q, h.store, h.queue, root);
    }
  }

  // ---------------------------------------------------------------- runs

  /** A run of writes; a block whose parent state is missing is not written. */
  ghost predicate IsRun(window: nat, gs: seq<Gc>, bs: seq<Block>)
  {
    && |gs| == |bs| + 1
    && forall i: nat {:trigger StepsAt(window, gs, bs, i)} :: i < |bs| ==> StepsAt(window, gs, bs, i)
  }

  ghost predicate StepsAt(window: nat, gs: seq<Gc>, bs: seq<Block>, i: nat)
    requires i < |bs| && i + 1 < |gs|
  {
    Steps(window, gs[i], bs[i], gs[i + 1])
  }

  ghost predicate Steps(window: nat, g: Gc, b: Block, h: Gc)
  {
    if g.store.Has(b.parent) then Writes(window, g, b, h) else h.store == g.store && h.queue == g.queue
  }

  /** The write parts the references of the root from its entries. */
  predicate Parts(window: nat, g: Gc, b: Block, root: Hash)
  {
    g.store.Has(b.parent) && Misses(window, g, b, root) && Stays(window, g, b, root)
  }

  lemma StepEqual(window: nat, g: Gc, b: Block, h: Gc, root: Hash)
    requires Steps(window, g, b, h) && Equal(g.store, g.queue, root)
    ensures Equal(h.store, h.queue, root) <==> !Parts(window, g, b, root)
  {
    if g.store.Has(b.parent) { WriteEqual(window, g, b, h, root); }
  }

  ghost predicate EqualUpTo(gs: seq<Gc>, n: nat, root: Hash)
    requires n <= |gs|
  {
    forall i {:trigger gs[i]} :: 0 <= i < n ==> Equal(gs[i].store, gs[i].queue, root)
  }

  ghost predicate NeverParts(window: nat, gs: seq<Gc>, bs: seq<Block>, n: nat, root: Hash)
    requires n <= |bs| && n <= |gs|
  {
    forall i {:trigger bs[i]} :: 0 <= i < n ==> !Parts(window, gs[i], bs[i], root)
  }

  lemma RunNext(window: nat, gs: seq<Gc>, bs: seq<Block>, n: nat, root: Hash)
    requires IsRun(window, gs, bs) && n < |bs| && EqualUpTo(gs, n + 1, root)
    ensures Equal(gs[n + 1].store, gs[n + 1].queue, root) <==> !Parts(window, gs[n], bs[n], root)
  {
    assert StepsAt(window, gs, bs, n);
    StepEqual(window, gs[n], bs[n], gs[n + 1], root);
  }

  /** References of a root equal its entries all along a run, if and only if no write of the run parts them. */
  lemma {:induction false} RunEqual(window: nat, gs: seq<Gc>, bs: seq<Block>, n: nat, root: Hash)
    requires IsRun(window, gs, bs) && Equal(gs[0].store, gs[0].queue, root) && n <= |bs|
    ensures EqualUpTo(gs, n + 1, root) <==> NeverParts(window, gs, bs, n, root)
  {
    if n != 0 {
      RunEqual(window, gs, bs, n - 1, root);
      if EqualUpTo(gs, n, root) {
        RunNext(window, gs, bs, n - 1, root);
      }
    }
  }

  // ---------------------------------------------------------------- the chain

  /** The entry is recent enough, the highest block written being `top`. */
  predicate Recent(e: Entry, triesInMemory: nat, top: nat)
  {
    top < e.number + triesInMemory || top <= triesInMemory
  }

  /** The queue holds written entries only, and every recent one as often as it was written. */
  ghost predicate Keeps(queue: seq<Entry>, written: seq<Entry>, triesInMemory: nat, top: nat)
  {
    && (forall e: Entry :: Times(queue, e) <= Times(written, e))
    && (forall e: Entry :: Recent(e, triesInMemory, top) ==> Times(queue, e) == Times(written, e))
    && (forall e | e in written :: e.number <= top)
  }

  function Max(a: nat, b: nat): (m: nat)
  {
    if a < b then b else a
  }

  lemma KeepsNext(queue: seq<Entry>, written: seq<Entry>, triesInMemory: nat, top: nat, e: Entry, left: seq<Entry>)
    requires Keeps(queue, written, triesInMemory, top)
    requires if triesInMemory < e.number then CutAt(left, queue + [e], e.number - triesInMemory)
             else left == queue + [e]
    ensures Keeps(left, written + [e], triesInMemory, Max(top, e.number))
  {
    forall f: Entry
      ensures Times(left, f) <= Times(written + [e], f)
      ensures Recent(f, triesInMemory, Max(top, e.number)) ==> Times(left, f) == Times(written + [e], f)
    {
      TimesPushed(queue, e, f);
      TimesPushed(written, e, f);
      assert Times(queue, f) <= Times(written, f);
      assert Recent(f, triesInMemory, Max(top, e.number)) ==> Recent(f, triesInMemory, top);
    }
  }

  class Chain {
    const triesInMemory: nat
    var triegc: seq<Entry>
    var triedb: Store
    var stopped: bool
    ghost var written: seq<Entry>
    ghost var top: nat

    /** References and entries balance, and of every block recent enough the queue holds exactly its writes. */
    ghost predicate Valid()
      reads this
    {
      Balanced(triedb, triegc) && Keeps(triegc, written, triesInMemory, top)
    }

    function State(): (g: Gc)
      reads this
    {
      Gc(triedb, triegc)
    }

    constructor (triesInMemory: nat, disk: set<Hash>)
      ensures Valid() && !stopped && triedb == Store(map[], disk) && triegc == [] && written == []
      ensures this.triesInMemory == triesInMemory
    {
      this.triesInMemory, triegc, triedb, stopped := triesInMemory, [], Store(map[], disk), false;
      written, top := [], 0;
    }

    /** The part of writeBlockWithState about tries. */
    method WriteTrie(b: Block)
      requires Valid() && !stopped && triedb.Has(b.parent)
      modifies this
      ensures Valid() && !stopped && Writes(triesInMemory, old(State()), b, State())
      ensures written == old(written) + [b.Queued()] && top == Max(old(top), b.number)
    {
      var h := WriteState(triesInMemory, State(), b);
      KeepsNext(triegc, written, triesInMemory, top, b.Queued(), h.queue);
      triedb, triegc := h.store, h.queue;
      written, top := written + [b.Queued()], Max(top, b.number);
    }

    /** The state of every recent block can be read, however the blocks were ordered and whatever was flushed. */
    lemma RecentIsReadable(e: Entry)
      requires Valid() && e in written && Recent(e, triesInMemory, top)
      ensures triedb.Has(e.root)
    {
      assert Times(triegc, e) == Times(written, e);
      EnteredIsReadable(triedb, triegc, e);
    }

    /** Blocks one after the other are a run. */
    method WriteAll(bs: seq<Block>) returns (ghost gs: seq<Gc>)
      requires Valid() && !stopped
      modifies this
      ensures Valid() && !stopped
      ensures IsRun(triesInMemory, gs, bs) && gs[0] == old(State()) && gs[|bs|] == State()
    {
      gs := [State()];
      for i := 0 to |bs|
        invariant Valid() && !stopped
        invariant |gs| == i + 1 && gs[0] == old(State()) && gs[i] == State()
        invariant forall j: nat {:trigger StepsAt(triesInMemory, gs, bs, j)} ::
                    j < i ==> StepsAt(triesInMemory, gs, bs, j)
      {
        if triedb.Has(bs[i].parent) {
          WriteTrie(bs[i]);
        }
        ghost var next := gs + [State()];
        assert forall j: nat :: j < i && StepsAt(triesInMemory, gs, bs, j) ==> StepsAt(triesInMemory, next, bs, j);
        gs := next;
      }
    }

    /** The end of Stop: some recent roots are committed, and all references are released. */
    method Stop(recent: set<Hash>)
      requires Valid() && !stopped
      modifies this
      ensures stopped && triegc == [] && triedb.dirties == map[]
      ensures triedb.disk == old(triedb).Flushed(recent).disk
    {
      FlushBalanced(triedb, triegc, recent);
      triedb := Release(triedb.Flushed(recent), triegc);
      triegc, stopped := [], true;
    }
  }

  /** The references of a root and its entries part: with a window of three, the root of block 3 is written to disk by
      block 4 and comes back with block 5.  It has two entries and one reference then. */
  method FlushedRootIsUndercounted() returns (c: Chain)
    ensures c.Valid() && Count(c.triegc, 2) == 2 && c.triedb.Refs(2) == 1
  {
    c := new Chain(3, {1});
    c.WriteTrie(Block(3, 1, 2, {}));
    ghost var first := c.State();
    CountPushed([], Entry(2, 3), 2, 0);
    c.WriteTrie(Block(4, 2, 3, {2}));
    ghost var second := c.State();
    Second(first, second);
    c.WriteTrie(Block(5, 3, 2, {}));
    Third(second, c.State());
  }

  lemma Second(g: Gc, h: Gc)
    requires g.store.dirties == map[2 := 1] && g.store.disk == {1} && g.queue == [Entry(2, 3)]
    requires Writes(3, g, Block(4, 2, 3, {2}), h)
    ensures Count(h.queue, 2) == CountFrom(h.queue, 2, 3) == 1 && h.store.Refs(2) == 0 && h.store.Has(3)
  {
    var b := Block(4, 2, 3, {2});
    var s, q := Opened(g.store, b.parent, b.root).Flushed(b.flush), g.queue + [b.Queued()];
    forall root, from: nat
      ensures CountFrom(q, root, from) == One(Entry(2, 3), root, from) + One(Entry(3, 4), root, from)
    {
      CountPushed(g.queue, b.Queued(), root, from);
      CountPushed([], Entry(2, 3), root, from);
      assert [] + [Entry(2, 3)] == g.queue;
    }
    assert Released(s, q, h.store, h.queue, 2);
    assert Released(s, q, h.store, h.queue, 3);
  }

  lemma Third(g: Gc, h: Gc)
    requires Count(g.queue, 2) == CountFrom(g.queue, 2, 3) == 1 && g.store.Refs(2) == 0
    requires Writes(3, g, Block(5, 3, 2, {}), h)
    ensures Count(h.queue, 2) == 2 && h.store.Refs(2) == 1
  {
    var b := Block(5, 3, 2, {});
    var s, q := Opened(g.store, b.parent, b.root).Flushed(b.flush), g.queue + [b.Queued()];
    CountPushed(g.queue, b.Queued(), 2, 0);
    CountPushed(g.queue, b.Queued(), 2, 3);
    assert Released(s, q, h.store, h.queue, 2);
  }
}
