/** core/headerchain.go: the header store with its derived canonical index.

A `View` is what the store means: a header tree and the hash of the head.  Every
other row of the database (total difficulties, number -> hash, head marker) is a
function of the view, and `HeaderChain.Valid` says that the rows hold exactly
that function.  The methods update the rows incrementally, as the source does.
*/
module HeaderChains {
  import opened HeaderTree

  /** `batch` written over `hs`, in order. */
  function AddAll(hs: map<Hash, Header>, batch: seq<Header>): (r: map<Hash, Header>)
  {
    if batch == [] then hs
    else
      var last := batch[|batch| - 1];
      AddAll(hs, batch[..|batch| - 1])[last.hash := last]
  }

  ghost predicate Follows(parent: Header, child: Header)
  {
    child.parentHash == parent.hash && child.number == parent.number + 1
  }

  ghost predicate Clash(a: Header, b: Header)
  {
    a.hash == b.hash
  }

  /** A chain of headers as header validation leaves it: linked, numbered, with distinct hashes.
      Its triggers ask for the instance that is wanted, so that links are not followed blindly. */
  ghost predicate Contiguous(batch: seq<Header>)
  {
    && (forall i :: 0 <= i < |batch| ==> batch[i].hash != NO_HASH && 0 < batch[i].difficulty)
    && (forall i, j {:trigger Clash(batch[i], batch[j])} :: 0 <= i < j < |batch| ==> !Clash(batch[i], batch[j]))
    && (forall i {:trigger Follows(batch[i - 1], batch[i])} :: 0 < i < |batch| ==> Follows(batch[i - 1], batch[i]))
  }

  lemma ContiguousPrefix(batch: seq<Header>, n: nat)
    requires Contiguous(batch) && n <= |batch|
    ensures Contiguous(batch[..n])
  {
    var front := batch[..n];
    forall i | 0 < i < |front|
      ensures Follows(front[i - 1], front[i])
    {
      assert Follows(batch[i - 1], batch[i]);
    }
    forall i, j | 0 <= i < j < |front|
      ensures !Clash(front[i], front[j])
    {
      assert !Clash(batch[i], batch[j]);
    }
  }

  /** A known hash belongs to the header it was computed from. */
  ghost predicate NoCollision(hs: map<Hash, Header>, batch: seq<Header>)
  {
    forall i :: 0 <= i < |batch| && batch[i].hash in hs ==> hs[batch[i].hash] == batch[i]
  }

  ghost predicate Importable(t: Tree, batch: seq<Header>)
  {
    && Contiguous(batch)
    && NoCollision(t.headers, batch)
    && (batch != [] && batch[0].parentHash in t.headers ==>
          batch[0].number == t.headers[batch[0].parentHash].number + 1)
  }

  ghost predicate ParentKnown(t: Tree, batch: seq<Header>)
  {
    batch != [] && batch[0].parentHash in t.headers
  }

  ghost predicate AllKnown(t: Tree, batch: seq<Header>)
  {
    forall i :: 0 <= i < |batch| ==> batch[i].hash in t.headers
  }

  /** Fork choice between headers: heavier, then lower, then a coin. */
  ghost predicate Preferred(t: Tree, extern: Hash, local: Hash, coin: bool)
    requires t.Rooted() && extern in t.headers && local in t.headers
  {
    || t.Td(local) < t.Td(extern)
    || (t.Td(local) == t.Td(extern) && t.headers[extern].number < t.headers[local].number)
    || (t.Td(local) == t.Td(extern) && t.headers[extern].number == t.headers[local].number && coin)
  }

  ghost function Extended(t: Tree, batch: seq<Header>): (r: Tree)
  {
    t.(headers := AddAll(t.headers, batch))
  }

  lemma AddOne(t: Tree, h: Header)
    requires t.Rooted()
    requires h.hash != NO_HASH && 0 < h.difficulty && 0 < h.number
    requires h.parentHash in t.headers && t.headers[h.parentHash].number == h.number - 1
    requires h.hash in t.headers ==> t.headers[h.hash] == h
    ensures t.(headers := t.headers[h.hash := h]).Rooted()
  {
    var r := t.(headers := t.headers[h.hash := h]);
    forall k | k in r.headers
      ensures r.Anchored(k)
    {
      assert k in t.headers ==> t.Anchored(k);
    }
  }

  /** Importing keeps what is stored and stores every header of the batch, and nothing else. */
  lemma {:induction false} AddAllMembers(hs: map<Hash, Header>, batch: seq<Header>)
    requires Contiguous(batch) && NoCollision(hs, batch)
    ensures forall k :: k in hs ==> k in AddAll(hs, batch) && AddAll(hs, batch)[k] == hs[k]
    ensures forall i :: 0 <= i < |batch| ==>
              batch[i].hash in AddAll(hs, batch) && AddAll(hs, batch)[batch[i].hash] == batch[i]
    ensures forall k :: k in AddAll(hs, batch) && k !in hs ==> exists i :: 0 <= i < |batch| && batch[i].hash == k
    decreases |batch|
  {
    if batch != [] {
      var n := |batch| - 1;
      var front := batch[..n];
      assert forall i :: 0 <= i < n ==> front[i] == batch[i];
      ContiguousPrefix(batch, n);
      AddAllMembers(hs, front);
      forall i | 0 <= i < n
        ensures batch[i].hash != batch[n].hash
      {
        assert !Clash(batch[i], batch[n]);
      }
      forall k | k in AddAll(hs, batch) && k !in hs
        ensures exists i :: 0 <= i < |batch| && batch[i].hash == k
      {
        if k == batch[n].hash {
        } else {
          var i :| 0 <= i < |front| && front[i].hash == k;
          assert batch[i].hash == k;
        }
      }
    }
  }

  lemma {:induction false} AddAllRooted(t: Tree, batch: seq<Header>)
    requires t.Rooted() && Importable(t, batch)
    requires batch != [] ==> ParentKnown(t, batch)
    ensures Extended(t, batch).Rooted()
    decreases |batch|
  {
    if batch == [] {
      assert Extended(t, batch) == t;
    } else {
      var n := |batch| - 1;
      var front, last := batch[..n], batch[n];
      ContiguousPrefix(batch, n);
      AddAllRooted(t, front);
      AddAllMembers(t.headers, front);
      AddAllMembers(t.headers, batch);
      var f := Extended(t, front);
      ParentStored(t, batch);
      assert last.hash in f.headers ==> f.headers[last.hash] == last;
      AddOne(f, last);
    }
  }

  /** The parent of the last header is stored once the headers before it are. */
  lemma ParentStored(t: Tree, batch: seq<Header>)
    requires Importable(t, batch) && ParentKnown(t, batch)
    ensures var last, front := batch[|batch| - 1], AddAll(t.headers, batch[..|batch| - 1]);
            0 < last.number && last.parentHash in front && front[last.parentHash].number == last.number - 1
  {
    var n := |batch| - 1;
    var front := batch[..n];
    ContiguousPrefix(batch, n);
    AddAllMembers(t.headers, front);
    if 0 < n {
      assert front[n - 1] == batch[n - 1] && Follows(batch[n - 1], batch[n]);
    }
  }

  /** With its parent unknown a header of the batch is unknown too, so the known ones come first. */
  lemma {:induction false} KnownPrefix(t: Tree, batch: seq<Header>, i: nat, j: nat)
    requires t.Rooted() && Importable(t, batch) && i <= j < |batch|
    requires ParentKnown(t, batch)
    requires batch[j].hash in t.headers
    ensures batch[i].hash in t.headers
    decreases j - i
  {
    if i < j {
      assert t.Anchored(batch[j].hash) && Follows(batch[j - 1], batch[j]);
      KnownPrefix(t, batch, i, j - 1);
    }
  }

  lemma {:induction false} NumberOf(t: Tree, batch: seq<Header>, i: nat)
    requires Contiguous(batch) && i < |batch|
    ensures batch[i].number == batch[0].number + i
    decreases i
  {
    if 0 < i {
      assert Follows(batch[i - 1], batch[i]);
      NumberOf(t, batch, i - 1);
    }
  }

  /** What an import does to the view. */
  ghost function Imported(v: View, batch: seq<Header>, coin: bool): (r: View)
    requires v.Placed() && Importable(v.tree, batch)
  {
    if !ParentKnown(v.tree, batch) then v
    else
      AddAllRooted(v.tree, batch);
      AddAllMembers(v.tree.headers, batch);
      var t := Extended(v.tree, batch);
      var last := batch[|batch| - 1].hash;
      View(t, if Preferred(t, last, v.head, coin) then last else v.head)
  }

  /** The one kind of import after which the index is wrong: it moves the head to a
      header that was already known, so that no index row is written for the batch. */
  ghost predicate AllKnownWin(v: View, batch: seq<Header>, coin: bool)
    requires v.Placed() && Importable(v.tree, batch)
  {
    && ParentKnown(v.tree, batch)
    && AllKnown(v.tree, batch)
    && batch[|batch| - 1].hash != v.head
    && Preferred(v.tree, batch[|batch| - 1].hash, v.head, coin)
  }

  /** What a rewind to number `n` does to the view. */
  ghost function Rewound(v: View, n: nat): (r: View)
    requires v.Placed()
  {
    if v.tree.headers[v.head].number <= n then v
    else View(UpTo(v.tree, n), v.tree.Path(v.head)[n])
  }

  ghost function UpTo(t: Tree, n: nat): (r: Tree)
  {
    t.(headers := map k | k in t.headers && t.headers[k].number <= n :: t.headers[k])
  }

  lemma UpToRooted(t: Tree, n: nat)
    requires t.Rooted()
    ensures UpTo(t, n).Rooted()
  {
    var r := UpTo(t, n);
    forall k | k in r.headers
      ensures r.Anchored(k)
    {
      assert t.Anchored(k);
    }
  }

  lemma PrefixImportable(t: Tree, batch: seq<Header>, i: nat)
    requires Importable(t, batch) && ParentKnown(t, batch) && 0 < i <= |batch|
    ensures Importable(t, batch[..i]) && ParentKnown(t, batch[..i])
  {
    ContiguousPrefix(batch, i);
  }

  lemma PrefixRooted(t: Tree, batch: seq<Header>, i: nat)
    requires t.Rooted() && Importable(t, batch) && ParentKnown(t, batch) && i <= |batch|
    ensures Extended(t, batch[..i]).Rooted()
  {
    if i == 0 {
      assert Extended(t, batch[..i]) == t;
    } else {
      PrefixImportable(t, batch, i);
      AddAllRooted(t, batch[..i]);
    }
  }

  /** One round of the import loop: the next header goes on top of the ones before it. */
  lemma NextStored(t: Tree, batch: seq<Header>, i: nat)
    requires t.Rooted() && Importable(t, batch) && ParentKnown(t, batch) && i < |batch|
    ensures AddAll(t.headers, batch[..i + 1]) == AddAll(t.headers, batch[..i])[batch[i].hash := batch[i]]
    ensures batch[i].parentHash == if i == 0 then batch[0].parentHash else batch[i - 1].hash
    ensures 0 < batch[i].number && batch[i].parentHash in AddAll(t.headers, batch[..i])
    ensures AddAll(t.headers, batch[..i])[batch[i].parentHash].number == batch[i].number - 1
  {
    var more := batch[..i + 1];
    PrefixImportable(t, batch, i + 1);
    assert more[..i] == batch[..i];
    ParentStored(t, more);
    assert 0 < i ==> Follows(batch[i - 1], batch[i]);
  }

  lemma NextKnown(t: Tree, batch: seq<Header>, i: nat)
    requires Importable(t, batch) && i < |batch|
    ensures batch[i].hash in t.headers ==>
              batch[i].hash in AddAll(t.headers, batch[..i]) && AddAll(t.headers, batch[..i])[batch[i].hash] == batch[i]
    ensures batch[i].hash !in t.headers ==> batch[i].hash !in AddAll(t.headers, batch[..i])
  {
    var front := batch[..i];
    ContiguousPrefix(batch, i);
    AddAllMembers(t.headers, front);
    forall j | 0 <= j < i
      ensures front[j].hash != batch[i].hash
    {
      assert !Clash(batch[j], batch[i]);
    }
  }

  /** The difficulty table extended with one header is the table of the larger tree. */
  lemma TdTableAdd(f: Tree, g: Tree, td: map<Hash, nat>, h: Header)
    requires f.Rooted() && g.Rooted() && f.genesis == g.genesis && g.headers == f.headers[h.hash := h]
    requires h.hash in f.headers ==> f.headers[h.hash] == h
    requires 0 < h.number && h.parentHash in f.headers && f.headers[h.parentHash].number == h.number - 1
    requires f.TdTable(td)
    ensures g.TdTable(td[h.hash := f.Td(h.parentHash) + h.difficulty])
    ensures h.hash in f.headers ==> td[h.hash] == f.Td(h.parentHash) + h.difficulty
  {
    forall k | k in f.headers
      ensures g.Td(k) == f.Td(k)
    {
      f.Stable(g, k);
    }
  }

  /** The tables after the first `i` headers of the batch. */
  ghost predicate Filled(t: Tree, batch: seq<Header>, i: nat, hs: map<Hash, Header>, tds: map<Hash, nat>)
  {
    && i <= |batch|
    && hs == AddAll(t.headers, batch[..i])
    && Extended(t, batch[..i]).Rooted()
    && Extended(t, batch[..i]).TdTable(tds)
  }

  lemma FilledNext(t: Tree, batch: seq<Header>, i: nat, hs: map<Hash, Header>, tds: map<Hash, nat>)
    requires t.Rooted() && Importable(t, batch) && ParentKnown(t, batch)
    requires Filled(t, batch, i, hs, tds) && i < |batch|
    ensures batch[i].parentHash == if i == 0 then batch[0].parentHash else batch[i - 1].hash
    ensures batch[i].parentHash in tds
    ensures var td := tds[batch[i].parentHash] + batch[i].difficulty;
            && Filled(t, batch, i + 1, hs[batch[i].hash := batch[i]], tds[batch[i].hash := td])
            && (batch[i].hash in t.headers ==>
                  && Filled(t, batch, i + 1, hs, tds)
                  && batch[i].hash in tds && tds[batch[i].hash] == td)
  {
    NextStored(t, batch, i);
    NextKnown(t, batch, i);
    PrefixRooted(t, batch, i + 1);
    TdTableAdd(Extended(t, batch[..i]), Extended(t, batch[..i + 1]), tds, batch[i]);
    if batch[i].hash in t.headers {
      assert hs[batch[i].hash := batch[i]] == hs;
      assert tds[batch[i].hash := tds[batch[i].parentHash] + batch[i].difficulty] == tds;
    }
  }

  /** `inserted` is the part of the first `i` headers from the first unknown one on. */
  ghost predicate Split(hs: map<Hash, Header>, batch: seq<Header>, i: nat, inserted: seq<Header>, first: int)
  {
    && i <= |batch|
    && (inserted == [] ==> first == -1 && forall j :: 0 <= j < i ==> batch[j].hash in hs)
    && (inserted != [] ==>
          && 0 <= first < i && inserted == batch[first..i]
          && forall j :: 0 <= j < i ==> (batch[j].hash in hs <==> j < first))
  }

  lemma SplitNext(t: Tree, batch: seq<Header>, i: nat, inserted: seq<Header>, first: int)
    requires t.Rooted() && Importable(t, batch) && ParentKnown(t, batch)
    requires i < |batch| && Split(t.headers, batch, i, inserted, first)
    ensures batch[i].hash in t.headers ==> (i == 0 || batch[i - 1].hash in t.headers)
    ensures batch[i].hash in t.headers ==> Split(t.headers, batch, i + 1, inserted, first)
    ensures batch[i].hash !in t.headers ==>
              Split(t.headers, batch, i + 1, inserted + [batch[i]], if first < 0 then i else first)
  {
    if batch[i].hash in t.headers {
      if 0 < i { KnownPrefix(t, batch, i - 1, i); }
      if inserted != [] { KnownPrefix(t, batch, first, i); }
    } else if inserted == [] {
      assert inserted + [batch[i]] == batch[i..i + 1];
    } else {
      assert batch[first..i] + [batch[i]] == batch[first..i + 1];
    }
  }

  /** The tables after the whole batch: the larger tree, with the old paths unchanged. */
  lemma AfterStore(v: View, batch: seq<Header>)
    requires v.Placed() && Importable(v.tree, batch) && ParentKnown(v.tree, batch)
    ensures var t := Extended(v.tree, batch);
            && t.Rooted() && StoredIn(t, batch) && ParentKnown(t, batch) && 0 < batch[0].number
            && (forall k :: k in v.tree.headers ==> k in t.headers && t.headers[k] == v.tree.headers[k])
            && t.Path(v.head) == v.tree.Path(v.head)
            && t.Td(v.head) == v.tree.Td(v.head)
  {
    AddAllRooted(v.tree, batch);
    AddAllMembers(v.tree.headers, batch);
    v.tree.Stable(Extended(v.tree, batch), v.head);
  }

  /** A batch on top of a childless head starts with a new header. */
  lemma OnHeadIsNew(v: View, batch: seq<Header>)
    requires v.Sound() && Importable(v.tree, batch) && batch != [] && batch[0].parentHash == v.head
    ensures batch[0].hash !in v.tree.headers
  {
    assert !v.tree.HasChild(v.head);
    assert v.tree.Anchored(v.head);
  }

  /** A known header on the path of the head never wins over it. */
  lemma CanonicalNeverWins(t: Tree, head: Hash, k: Hash, coin: bool)
    requires t.Rooted() && head in t.headers && k in t.headers && k != head
    requires t.headers[k].number <= t.headers[head].number
    requires t.Path(head)[t.headers[k].number] == k
    ensures !Preferred(t, k, head, coin)
  {
    t.TdGrows(head, t.headers[k].number);
  }

  function HashesOf(batch: seq<Header>): (hashes: seq<Hash>)
  {
    seq(|batch|, i requires 0 <= i < |batch| => batch[i].hash)
  }

  ghost predicate StoredIn(t: Tree, batch: seq<Header>)
  {
    forall i :: 0 <= i < |batch| ==> batch[i].hash in t.headers && t.headers[batch[i].hash] == batch[i]
  }

  /** A stored batch continues the path of its parent. */
  lemma {:induction false} BatchPath(t: Tree, batch: seq<Header>)
    requires t.Rooted() && Contiguous(batch) && ParentKnown(t, batch)
    requires StoredIn(t, batch) && 0 < batch[0].number
    ensures t.Path(batch[|batch| - 1].hash) == t.Path(batch[0].parentHash) + HashesOf(batch)
    decreases |batch|
  {
    var n := |batch| - 1;
    var last := batch[n];
    NumberOf(t, batch, n);
    ContiguousPrefix(batch, n);
    assert t.Anchored(last.hash);
    assert t.Path(last.hash) == t.Path(last.parentHash) + [last.hash];
    if 0 < n {
      assert Follows(batch[n - 1], batch[n]);
      BatchPath(t, batch[..n]);
      assert HashesOf(batch) == HashesOf(batch[..n]) + [last.hash];
    } else {
      assert HashesOf(batch) == [last.hash];
    }
  }

  /** An import keeps the head childless unless it moves the head to a known header. */
  lemma ImportSound(v: View, batch: seq<Header>, coin: bool)
    requires v.Sound() && Importable(v.tree, batch)
    requires !AllKnownWin(v, batch, coin)
    ensures Imported(v, batch, coin).Sound()
  {
    if ParentKnown(v.tree, batch) {
      AfterStore(v, batch);
      var t, r := Extended(v.tree, batch), Imported(v, batch, coin);
      forall c | c in t.headers && 0 < t.headers[c].number
        ensures t.headers[c].parentHash != r.head
      {
        if c in v.tree.headers {
          NoKnownChild(v, batch, coin, c);
        } else {
          NoNewChild(v, batch, coin, c);
        }
      }
    }
  }

  lemma NoKnownChild(v: View, batch: seq<Header>, coin: bool, c: Hash)
    requires v.Sound() && Importable(v.tree, batch) && ParentKnown(v.tree, batch)
    requires !AllKnownWin(v, batch, coin)
    requires c in v.tree.headers && 0 < v.tree.headers[c].number
    ensures v.tree.headers[c].parentHash != Imported(v, batch, coin).head
  {
    var r := Imported(v, batch, coin);
    assert v.tree.Anchored(c) && !v.tree.HasChild(v.head);
    if r.head in v.tree.headers && r.head != v.head {
      LastKnown(v, batch);
      AfterStore(v, batch);
      v.tree.Stable(r.tree, r.head);
    }
  }

  lemma LastKnown(v: View, batch: seq<Header>)
    requires v.Placed() && Importable(v.tree, batch) && ParentKnown(v.tree, batch)
    requires batch[|batch| - 1].hash in v.tree.headers
    ensures AllKnown(v.tree, batch)
  {
    forall i | 0 <= i < |batch|
      ensures batch[i].hash in v.tree.headers
    {
      KnownPrefix(v.tree, batch, i, |batch| - 1);
    }
  }

  lemma NoNewChild(v: View, batch: seq<Header>, coin: bool, c: Hash)
    requires v.Sound() && Importable(v.tree, batch) && ParentKnown(v.tree, batch)
    requires c in Imported(v, batch, coin).tree.headers && c !in v.tree.headers
    ensures Imported(v, batch, coin).tree.headers[c].parentHash != Imported(v, batch, coin).head
  {
    AfterStore(v, batch);
    AddAllMembers(v.tree.headers, batch);
    var t, r := Extended(v.tree, batch), Imported(v, batch, coin);
    var i :| 0 <= i < |batch| && batch[i].hash == c;
    NumberOf(t, batch, i);
    NumberOf(t, batch, |batch| - 1);
    assert t.Anchored(c);
    if r.head == v.head && batch[i].parentHash == v.head {
      AboveHeadWins(t, batch, i, v.head);
    }
  }

  /** The last header of a stored batch outweighs whatever a header of the batch is built on. */
  lemma AboveHeadWins(t: Tree, batch: seq<Header>, i: nat, head: Hash)
    requires t.Rooted() && Contiguous(batch) && ParentKnown(t, batch) && StoredIn(t, batch) && 0 < batch[0].number
    requires i < |batch| && batch[i].parentHash == head && head in t.headers
    ensures t.Td(head) < t.Td(batch[|batch| - 1].hash)
  {
    var last := batch[|batch| - 1];
    BatchPath(t, batch);
    NumberOf(t, batch, i);
    NumberOf(t, batch, |batch| - 1);
    assert t.Anchored(batch[0].hash) && t.Anchored(batch[i].hash);
    var n := batch[i].number;
    assert t.Path(last.hash)[n] == HashesOf(batch)[i];
    t.PathLink(last.hash, n);
    t.TdGrows(last.hash, n - 1);
  }

  /** Rows `lo` to `hi` of the index hold the path. */
  ghost predicate Rows(canon: map<nat, Hash>, path: seq<Hash>, lo: nat, hi: nat)
  {
    hi <= |path| && forall n :: lo <= n < hi ==> n in canon && canon[n] == path[n]
  }

  datatype WriteStatus = NonStat | Canon | Side

  datatype WriteResult =
    | Nothing
    | UnknownAncestor
    | Written(status: WriteStatus, ignored: nat, imported: nat, last: Header)

  /** The import loop: works out the rows of the headers that are not known yet. */
  method FillTables(ghost t: Tree, known: map<Hash, Header>, tds: map<Hash, nat>, batch: seq<Header>)
      returns (headers: map<Hash, Header>, td: map<Hash, nat>, newTd: nat, inserted: seq<Header>, firstInserted: int)
    requires t.Rooted() && known == t.headers && t.TdTable(tds)
    requires Importable(t, batch) && ParentKnown(t, batch)
    ensures Filled(t, batch, |batch|, headers, td)
    ensures batch[|batch| - 1].hash in td && newTd == td[batch[|batch| - 1].hash]
    ensures Split(known, batch, |batch|, inserted, firstInserted)
  {
    newTd := tds[batch[0].parentHash];
    inserted, firstInserted := [], -1;
    headers, td := known, tds;
    var parentKnown := true;
    assert Extended(t, batch[..0]) == t;
    for i := 0 to |batch|
      invariant Filled(t, batch, i, headers, td)
      invariant i == 0 ==> td == tds && newTd == tds[batch[0].parentHash]
      invariant 0 < i ==> batch[i - 1].hash in td && newTd == td[batch[i - 1].hash]
      invariant parentKnown <==> (i == 0 || batch[i - 1].hash in known)
      invariant Split(known, batch, i, inserted, firstInserted)
    {
      var header := batch[i];
      FilledNext(t, batch, i, headers, td);
      SplitNext(t, batch, i, inserted, firstInserted);
      newTd := newTd + header.difficulty;
      var alreadyKnown := parentKnown && header.hash in known;
      if !alreadyKnown {
        td, headers := td[header.hash := newTd], headers[header.hash := header];
        inserted := inserted + [header];
        if firstInserted < 0 {
          firstInserted := i;
        }
      }
      parentKnown := alreadyKnown;
    }
  }

  /** Overwrites index rows from `parent` downwards until the index already holds the walked header. */
  method OverwriteStale(ghost t: Tree, headers: map<Hash, Header>, canon: map<nat, Hash>, ghost head: Hash,
                        kept: map<nat, Hash>, parent: Header) returns (markers: map<nat, Hash>)
    requires t.Rooted() && headers == t.headers && head in headers && canon == IndexOf(t.Path(head))
    requires parent.hash in headers && headers[parent.hash] == parent
    requires forall n :: n <= parent.number && n in canon ==> n in kept && kept[n] == canon[n]
    ensures Rows(markers, t.Path(parent.hash), 0, parent.number + 1)
    ensures forall n :: parent.number < n ==> (n in markers <==> n in kept) && (n in kept ==> markers[n] == kept[n])
  {
    markers := kept;
    var header := parent;
    ghost var path := t.Path(parent.hash);
    t.PathStart(parent.hash);
    t.PathStart(head);
    while !(header.number in canon && canon[header.number] == header.hash)
      invariant header.hash in headers && headers[header.hash] == header
      invariant header.number <= parent.number && path[header.number] == header.hash
      invariant Rows(markers, path, header.number + 1, parent.number + 1)
      invariant forall n :: !(header.number < n <= parent.number) ==>
                  (n in markers <==> n in kept) && (n in kept ==> markers[n] == kept[n])
      decreases header.number
    {
      assert t.Anchored(header.hash);
      assert canon[0] == t.Path(head)[0];
      t.PathLink(parent.hash, header.number);
      markers := markers[header.number := header.hash];
      assert t.Anchored(header.parentHash);
      header := headers[header.parentHash];
    }
    t.PathsMeet(head, parent.hash, header.number);
    forall n | 0 <= n <= header.number
      ensures n in markers && markers[n] == path[n]
    {
      assert t.Path(head)[..header.number + 1][n] == path[..header.number + 1][n];
      assert n in canon;
    }
  }

  /** Writes one index row per header. */
  method WriteRows(kept: map<nat, Hash>, hs: seq<Header>) returns (markers: map<nat, Hash>)
    requires forall i :: 0 <= i < |hs| ==> hs[i].number == hs[0].number + i
    ensures forall i :: 0 <= i < |hs| ==> hs[i].number in markers && markers[hs[i].number] == hs[i].hash
    ensures forall n :: !(hs != [] && hs[0].number <= n < hs[0].number + |hs|) ==>
              (n in markers <==> n in kept) && (n in kept ==> markers[n] == kept[n])
  {
    markers := kept;
    for k := 0 to |hs|
      invariant forall i :: 0 <= i < k ==> hs[i].number in markers && markers[hs[i].number] == hs[i].hash
      invariant forall n :: !(hs != [] && hs[0].number <= n < hs[0].number + k) ==>
                  (n in markers <==> n in kept) && (n in kept ==> markers[n] == kept[n])
    {
      markers := markers[hs[k].number := hs[k].hash];
    }
  }

  /** An index that holds the parent's path, the batch above it and nothing more is the path to the last header. */
  lemma RowsAreIndex(t: Tree, batch: seq<Header>, markers: map<nat, Hash>)
    requires t.Rooted() && Contiguous(batch) && ParentKnown(t, batch) && StoredIn(t, batch) && 0 < batch[0].number
    requires Rows(markers, t.Path(batch[0].parentHash), 0, batch[0].number)
    requires forall i :: 0 <= i < |batch| ==> batch[i].number in markers && markers[batch[i].number] == batch[i].hash
    requires forall n :: n in markers ==> n <= batch[|batch| - 1].number
    ensures markers == IndexOf(t.Path(batch[|batch| - 1].hash))
  {
    var last := batch[|batch| - 1];
    var low := t.Path(batch[0].parentHash);
    assert t.Anchored(batch[0].hash);
    BatchPath(t, batch);
    NumberOf(t, batch, |batch| - 1);
    var path := t.Path(last.hash);
    forall n | 0 <= n <= last.number
      ensures n in markers && markers[n] == path[n]
    {
      if n < batch[0].number {
        assert path[n] == low[n];
      } else {
        var i := n - batch[0].number;
        NumberOf(t, batch, i);
        assert path[n] == HashesOf(batch)[i];
      }
    }
  }

  /** What a winning import writes when it inserts nothing: the rows below the batch, and none for it. */
  ghost predicate OnlyParents(t: Tree, batch: seq<Header>, canon: map<nat, Hash>, markers: map<nat, Hash>)
    requires t.Rooted() && ParentKnown(t, batch)
  {
    && Rows(markers, t.Path(batch[0].parentHash), 0, batch[0].number)
    && forall n :: batch[0].number <= n ==>
         && (n in markers <==> n in canon && n <= batch[|batch| - 1].number)
         && (n in markers ==> markers[n] == canon[n])
  }

  /** A batch that ends in the head has its rows already. */
  lemma EndsInHead(t: Tree, batch: seq<Header>, canon: map<nat, Hash>, markers: map<nat, Hash>)
    requires t.Rooted() && Contiguous(batch) && ParentKnown(t, batch) && StoredIn(t, batch) && 0 < batch[0].number
    requires canon == IndexOf(t.Path(batch[|batch| - 1].hash))
    requires OnlyParents(t, batch, canon, markers)
    ensures markers == canon
  {
    var last := batch[|batch| - 1];
    var path := t.Path(last.hash);
    NumberOf(t, batch, |batch| - 1);
    BatchPath(t, batch);
    assert t.Anchored(batch[0].hash);
    forall n | 0 <= n <= last.number
      ensures n in markers && markers[n] == path[n]
    {
      if n < batch[0].number {
        assert path[n] == t.Path(batch[0].parentHash)[n];
      }
    }
  }

  /** A batch that ends elsewhere leaves the row of its last header wrong. */
  lemma EndsElsewhere(t: Tree, head: Hash, batch: seq<Header>, coin: bool, canon: map<nat, Hash>, markers: map<nat,
                      Hash>)
    requires t.Rooted() && head in t.headers && canon == IndexOf(t.Path(head))
    requires Contiguous(batch) && ParentKnown(t, batch) && StoredIn(t, batch)
    requires batch[|batch| - 1].hash != head && Preferred(t, batch[|batch| - 1].hash, head, coin)
    requires OnlyParents(t, batch, canon, markers)
    ensures markers != IndexOf(t.Path(batch[|batch| - 1].hash))
  {
    var last := batch[|batch| - 1];
    NumberOf(t, batch, |batch| - 1);
    if last.number in markers && markers[last.number] == last.hash {
      CanonicalNeverWins(t, head, last.hash, coin);
    } else {
      assert last.number in IndexOf(t.Path(last.hash));
    }
  }

  /** What is written before the inserted headers: the parent's path, the known headers of the batch when there are
      inserted ones above them, and above those only old rows up to the last number of the batch. */
  ghost predicate Prepared(t: Tree, batch: seq<Header>, canon: map<nat, Hash>, markers: map<nat, Hash>, first: nat)
    requires t.Rooted() && ParentKnown(t, batch) && first <= |batch|
  {
    && Rows(markers, t.Path(batch[0].parentHash), 0, batch[0].number)
    && (forall i :: 0 <= i < first ==> batch[i].number in markers && markers[batch[i].number] == batch[i].hash)
    && (forall n :: batch[0].number + first <= n ==>
          && (n in markers <==> n in canon && n <= batch[|batch| - 1].number)
          && (n in markers ==> markers[n] == canon[n]))
  }

  ghost predicate Numbered(batch: seq<Header>)
  {
    forall i :: 0 <= i < |batch| ==> batch[i].number == batch[0].number + i
  }

  lemma BatchNumbered(t: Tree, batch: seq<Header>)
    requires t.Rooted() && Contiguous(batch) && ParentKnown(t, batch) && StoredIn(t, batch)
    ensures Numbered(batch)
  {
    forall i | 0 <= i < |batch|
      ensures batch[i].number == batch[0].number + i
    {
      NumberOf(t, batch, i);
    }
  }

  /** Clears the rows above the batch, overwrites stale rows below it, and writes its known headers. */
  method PrepareRows(ghost t: Tree, headers: map<Hash, Header>, canon: map<nat, Hash>, ghost head: Hash,
                     headMarker: Hash, batch: seq<Header>, firstInserted: int)
      returns (markers: map<nat, Hash>, marker: Hash)
    requires t.Rooted() && headers == t.headers && head in headers && canon == IndexOf(t.Path(head))
    requires Numbered(batch) && ParentKnown(t, batch) && StoredIn(t, batch) && 0 < batch[0].number
    requires -1 <= firstInserted < |batch|
    ensures Prepared(t, batch, canon, markers, if 0 < firstInserted then firstInserted else 0)
    ensures marker == if 0 < firstInserted then batch[firstInserted - 1].hash else headMarker
  {
    marker := headMarker;
    var parent := headers[batch[0].parentHash];
    assert t.Anchored(batch[0].parentHash) && t.Anchored(batch[0].hash);
    var gap;
    markers, gap := DropRun(canon, batch[|batch| - 1].number + 1);
    assert forall n :: n in markers <==> n in canon && n <= batch[|batch| - 1].number;
    markers := OverwriteStale(t, headers, canon, head, markers, parent);
    if 0 < firstInserted {
      var known := batch[..firstInserted];
      assert forall i :: 0 <= i < |known| ==> known[i] == batch[i];
      markers := WriteRows(markers, known);
      marker := batch[firstInserted - 1].hash;
    }
  }

  /** The inserted headers complete the path. */
  lemma InsertedCompletes(t: Tree, batch: seq<Header>, canon: map<nat, Hash>, below: map<nat, Hash>, first: nat,
                          inserted: seq<Header>, markers: map<nat, Hash>)
    requires t.Rooted() && Contiguous(batch) && ParentKnown(t, batch) && StoredIn(t, batch) && 0 < batch[0].number
    requires Numbered(batch) && first < |batch| && inserted == batch[first..] && Prepared(t, batch, canon, below, first)
    requires forall i :: 0 <= i < |inserted| ==>
               inserted[i].number in markers && markers[inserted[i].number] == inserted[i].hash
    requires forall n :: !(inserted[0].number <= n < inserted[0].number + |inserted|) ==>
               (n in markers <==> n in below) && (n in below ==> markers[n] == below[n])
    ensures markers == IndexOf(t.Path(batch[|batch| - 1].hash))
  {
    forall i | 0 <= i < |batch|
      ensures batch[i].number in markers && markers[batch[i].number] == batch[i].hash
    {
      if first <= i { assert inserted[i - first] == batch[i]; }
    }
    RowsAreIndex(t, batch, markers);
  }

  /** The marker batch of a winning import.  Rows are read from `canon` and written to the result. */
  method MarkCanonical(ghost t: Tree, headers: map<Hash, Header>, canon: map<nat, Hash>, head: Hash, headMarker: Hash,
                       batch: seq<Header>, inserted: seq<Header>, firstInserted: int)
      returns (markers: map<nat, Hash>, marker: Hash)
    requires t.Rooted() && headers == t.headers && head in headers && canon == IndexOf(t.Path(head))
    requires Contiguous(batch) && ParentKnown(t, batch) && StoredIn(t, batch) && 0 < batch[0].number
    requires inserted == [] ==> firstInserted == -1 && batch[0].parentHash != head
    requires inserted != [] ==> 0 <= firstInserted < |batch| && inserted == batch[firstInserted..]
    requires batch[0].parentHash == head ==> firstInserted == 0
    ensures inserted != [] ==> markers == IndexOf(t.Path(batch[|batch| - 1].hash)) && marker == batch[|batch| - 1].hash
    ensures inserted == [] ==> marker == headMarker && OnlyParents(t, batch, canon, markers)
  {
    markers, marker := canon, headMarker;
    BatchNumbered(t, batch);
    if batch[0].parentHash != head {
      markers, marker := PrepareRows(t, headers, canon, head, headMarker, batch, firstInserted);
    } else {
      assert t.Anchored(batch[0].hash);
    }
    ghost var below := markers;
    markers := WriteRows(markers, inserted);
    if inserted != [] {
      marker := inserted[|inserted| - 1].hash;
      InsertedCompletes(t, batch, canon, below, firstInserted, inserted, markers);
    }
  }

  /** The database is the function of the view that it should be. */
  ghost predicate Exact(v: View, td: map<Hash, nat>, canon: map<nat, Hash>, marker: Hash)
  {
    && v.Sound()
    && v.tree.TdTable(td)
    && canon == IndexOf(v.tree.Path(v.head))
    && marker == v.head
  }

  /** A losing import leaves the index exact. */
  lemma LosingOutcome(v: View, batch: seq<Header>, coin: bool, tds: map<Hash, nat>, td: map<Hash, nat>,
                      canon: map<nat, Hash>, marker: Hash)
    requires Exact(v, tds, canon, marker) && Importable(v.tree, batch) && ParentKnown(v.tree, batch)
    requires Extended(v.tree, batch).Rooted() && Extended(v.tree, batch).TdTable(td)
    requires Imported(v, batch, coin).head == v.head
    ensures Exact(Imported(v, batch, coin), td, canon, marker) && !AllKnownWin(v, batch, coin)
  {
    AfterStore(v, batch);
    var last := batch[|batch| - 1].hash;
    if last in v.tree.headers { v.tree.Stable(Extended(v.tree, batch), last); }
    ImportSound(v, batch, coin);
  }

  /** A winning import leaves the index exact unless every header of it was known. */
  lemma WinningOutcome(v: View, batch: seq<Header>, coin: bool, tds: map<Hash, nat>, td: map<Hash, nat>,
                       canon: map<nat, Hash>,
                       marker: Hash, inserted: seq<Header>, first: int, markers: map<nat, Hash>, marked: Hash)
    requires Exact(v, tds, canon, marker) && Importable(v.tree, batch) && ParentKnown(v.tree, batch)
    requires Extended(v.tree, batch).Rooted() && Extended(v.tree, batch).TdTable(td)
    requires Split(v.tree.headers, batch, |batch|, inserted, first)
    requires Imported(v, batch, coin).head == batch[|batch| - 1].hash
    requires inserted != [] ==>
               && markers == IndexOf(Imported(v, batch, coin).tree.Path(batch[|batch| - 1].hash))
               && marked == batch[|batch| - 1].hash
    requires inserted == [] ==>
               && marked == marker && ParentKnown(Extended(v.tree, batch), batch)
               && OnlyParents(Extended(v.tree, batch), batch, canon, markers)
    ensures Exact(Imported(v, batch, coin), td, markers, marked) <==> !AllKnownWin(v, batch, coin)
    ensures markers == IndexOf(Imported(v, batch, coin).tree.Path(Imported(v, batch, coin).head)) <==>
            !AllKnownWin(v, batch, coin)
  {
    AfterStore(v, batch);
    var t, last := Extended(v.tree, batch), batch[|batch| - 1].hash;
    if inserted != [] {
      assert !AllKnown(v.tree, batch);
      ImportSound(v, batch, coin);
    } else if last == v.head {
      EndsInHead(t, batch, canon, markers);
      ImportSound(v, batch, coin);
    } else {
      v.tree.Stable(t, last);
      EndsElsewhere(t, v.head, batch, coin, canon, markers);
    }
  }

  /** What an import reports. */
  ghost predicate Reported(known: map<Hash, Header>, head: Hash, batch: seq<Header>, r: WriteResult)
    requires batch != []
  {
    && r.Written? && r.last == batch[|batch| - 1] && r.ignored + r.imported == |batch|
    && (forall i :: 0 <= i < |batch| ==> (batch[i].hash in known <==> i < r.ignored))
    && r.status == if r.imported == 0 then NonStat else if head == r.last.hash then Canon else Side
  }

  /** writeHeaders past its two early returns, on the rows it reads and writes. */
  method ImportRows(ghost v: View, headers: map<Hash, Header>, tds: map<Hash, nat>, canon: map<nat, Hash>,
                    marker: Hash, current: Header,
                    batch: seq<Header>, coin: bool)
      returns (newHeaders: map<Hash, Header>, newTds: map<Hash, nat>, newCanon: map<nat, Hash>, newMarker: Hash,
               newCurrent: Header, r: WriteResult)
    requires Exact(v, tds, canon, marker) && headers == v.tree.headers && headers[v.head] == current
    requires current.hash == v.head
    requires Importable(v.tree, batch) && ParentKnown(v.tree, batch)
    ensures newHeaders == Imported(v, batch, coin).tree.headers
    ensures Imported(v, batch, coin).Placed() && Imported(v, batch, coin).tree.TdTable(newTds)
    ensures newHeaders[Imported(v, batch, coin).head] == newCurrent && newCurrent.hash == Imported(v, batch, coin).head
    ensures Exact(Imported(v, batch, coin), newTds, newCanon, newMarker) <==> !AllKnownWin(v, batch, coin)
    ensures newCanon == IndexOf(Imported(v, batch, coin).tree.Path(Imported(v, batch, coin).head)) <==>
            !AllKnownWin(v, batch, coin)
    ensures Reported(headers, newCurrent.hash, batch, r)
  {
    var newTd, inserted, firstInserted;
    newHeaders, newTds, newTd, inserted, firstInserted := FillTables(v.tree, headers, tds, batch);
    AfterStore(v, batch);
    assert batch[..|batch|] == batch;
    ghost var t := Extended(v.tree, batch);
    var last := batch[|batch| - 1];
    var localTd := newTds[current.hash];
    var reorg := localTd < newTd;
    if !reorg && newTd == localTd {
      if last.number < current.number {
        reorg := true;
      } else if last.number == current.number {
        reorg := coin;
      }
    }
    assert reorg <==> Preferred(t, last.hash, v.head, coin);
    newCanon, newMarker, newCurrent := canon, marker, current;
    if reorg {
      if batch[0].parentHash == v.head { OnHeadIsNew(v, batch); }
      newCanon, newMarker := MarkCanonical(t, newHeaders, canon, current.hash, marker, batch, inserted, firstInserted);
      newCurrent := last;
      WinningOutcome(v, batch, coin, tds, newTds, canon, marker, inserted, firstInserted, newCanon, newMarker);
    } else {
      LosingOutcome(v, batch, coin, tds, newTds, canon, marker);
    }
    var imported := |inserted|;
    r := Written(if imported == 0 then NonStat else if reorg then Canon else Side, |batch| - imported, imported, last);
  }

  /** All hashes stored at a number, on whichever branch. */
  function Level(headers: map<Hash, Header>, n: nat): (hashes: set<Hash>)
  {
    set k | k in headers && headers[k].number == n
  }

  function Above(headers: map<Hash, Header>, n: nat): (hashes: set<Hash>)
  {
    set k | k in headers && n < headers[k].number
  }

  /** The levels above `num` up to the first empty one, highest first. */
  method LeftoverLevels(ghost t: Tree, headers: map<Hash, Header>, num: nat) returns (nums: seq<nat>)
    requires t.Rooted() && headers == t.headers
    ensures forall n :: n in nums ==> num < n && Level(headers, n) != {}
    ensures forall k :: k in headers && num < headers[k].number ==> headers[k].number in nums
  {
    nums := [];
    var n := num + 1;
    while Level(headers, n) != {}
      invariant num < n
      invariant forall m :: m in nums <==> num < m < n
      invariant forall m :: m in nums ==> Level(headers, m) != {}
      decreases Above(headers, n - 1)
    {
      var k :| k in Level(headers, n);
      assert k in Above(headers, n - 1) && k !in Above(headers, n);
      assert Above(headers, n) <= Above(headers, n - 1);
      nums := [n] + nums;
      n := n + 1;
    }
    forall k | k in headers
      ensures headers[k].number != n
    {
      assert k !in Level(headers, n);
    }
    t.NoGap(n);
  }

  /** Marks every header of the given levels, on all branches, for deletion. */
  method GatherLevels(headers: map<Hash, Header>, hdr: Header, nums: seq<nat>) returns (dead: set<Hash>, rows: set<nat>)
    requires hdr.hash in headers && headers[hdr.hash] == hdr && hdr.number in nums
    requires forall n :: n in nums ==> Level(headers, n) != {}
    ensures dead == set k | k in headers && headers[k].number in nums
    ensures rows == set n | n in nums
  {
    dead, rows := {}, {};
    for i := 0 to |nums|
      invariant dead == set k | k in headers && headers[k].number in nums[..i]
      invariant rows == set n | n in nums[..i]
    {
      var hashes := Level(headers, nums[i]);
      if hashes == {} {
        hashes := {hdr.hash};
      }
      dead, rows := dead + hashes, rows + {nums[i]};
      assert forall n :: n in nums[..i + 1] <==> n in nums[..i] || n == nums[i];
    }
    assert nums[..|nums|] == nums;
  }

  /** One round of the rewind loop, with everything above the new head marked for deletion. */
  ghost predicate Rewinding(v: View, at: Header, dead: set<Hash>, rows: set<nat>)
    requires v.Placed()
  {
    && at.hash in v.tree.headers && v.tree.headers[at.hash] == at
    && at.number <= v.tree.headers[v.head].number
    && v.tree.Path(v.head)[at.number] == at.hash
    && dead == Above(v.tree.headers, at.number)
    && (forall n :: n <= at.number ==> n !in rows)
    && (forall n :: at.number < n <= v.tree.headers[v.head].number ==> n in rows)
  }

  lemma ParentOnPath(v: View, at: Hash)
    requires v.Placed() && at in v.tree.headers && 0 < v.tree.headers[at].number <= v.tree.headers[v.head].number
    requires v.tree.Path(v.head)[v.tree.headers[at].number] == at
    ensures var p := v.tree.headers[at].parentHash;
            && p in v.tree.headers && v.tree.headers[p].hash == p
            && v.tree.headers[p].number == v.tree.headers[at].number - 1
            && v.tree.Path(v.head)[v.tree.headers[at].number - 1] == p
  {
    assert v.tree.Anchored(at);
    assert v.tree.Anchored(v.tree.headers[at].parentHash);
    v.tree.PathLink(v.head, v.tree.headers[at].number);
  }

  /** The rows that survive are exactly those of the rewound view. */
  lemma RewoundExact(v: View, n: nat, at: Header, dead: set<Hash>, rows: set<nat>,
                     td: map<Hash, nat>, canon: map<nat, Hash>, marker: Hash)
    requires Exact(v, td, canon, marker) && n < v.tree.headers[v.head].number
    requires Rewinding(v, at, dead, rows) && at.number == n
    ensures Rewound(v, n) == View(v.tree.(headers := v.tree.headers - dead), at.hash)
    ensures Exact(Rewound(v, n), td - dead, canon - rows, at.hash)
  {
    var w := Rewound(v, n);
    UpToRooted(v.tree, n);
    assert w.tree.headers == v.tree.headers - dead;
    forall k | k in w.tree.headers
      ensures w.tree.Td(k) == v.tree.Td(k)
    {
      v.tree.Stable(w.tree, k);
    }
    v.tree.Stable(w.tree, w.head);
    v.tree.PathAt(v.head, n);
    assert w.tree.Path(w.head) == v.tree.Path(v.head)[..n + 1];
    forall c | c in w.tree.headers && 0 < w.tree.headers[c].number
      ensures w.tree.headers[c].parentHash != w.head
    {
      assert w.tree.Anchored(c);
    }
  }

  /** SetHead without hooks, on the rows it reads and writes. */
  method RewindRows(ghost v: View, genesis: Header, headers: map<Hash, Header>, tds: map<Hash, nat>, canon: map<nat,
                    Hash>, marker: Hash,
                    current: Header, head: nat)
      returns (newHeaders: map<Hash, Header>, newTds: map<Hash, nat>, newCanon: map<nat, Hash>, newMarker: Hash,
               newCurrent: Header)
    requires Exact(v, tds, canon, marker) && headers == v.tree.headers && headers[v.head] == current
    requires current.hash == v.head
    requires genesis == v.tree.genesis
    ensures newHeaders == Rewound(v, head).tree.headers && newCurrent.hash == Rewound(v, head).head
    ensures Exact(Rewound(v, head), newTds, newCanon, newMarker) && newHeaders[newCurrent.hash] == newCurrent
  {
    newMarker, newCurrent := marker, current;
    var dead: set<Hash>, rows: set<nat>, origin := {}, {}, true;
    while head < newCurrent.number
      invariant origin ==> newCurrent == current && newMarker == marker && dead == {} && rows == {}
      invariant !origin ==> Rewinding(v, newCurrent, dead, rows) && newMarker == newCurrent.hash
      invariant !origin ==> head <= newCurrent.number < current.number
      decreases newCurrent.number
    {
      var hdr := newCurrent;
      ParentOnPath(v, hdr.hash);
      var parent := if hdr.parentHash in headers then headers[hdr.parentHash] else genesis;
      newMarker, newCurrent := parent.hash, parent;
      var nums: seq<nat> := [];
      if origin {
        nums := LeftoverLevels(v.tree, headers, hdr.number);
        origin := false;
      }
      nums := nums + [hdr.number];
      assert hdr.hash in Level(headers, hdr.number);
      var levels, numbers := GatherLevels(headers, hdr, nums);
      dead, rows := dead + levels, rows + numbers;
    }
    if !origin {
      RewoundExact(v, head, newCurrent, dead, rows, tds, canon, marker);
    } else {
      assert headers - dead == headers && tds - dead == tds && canon - rows == canon;
    }
    newHeaders, newTds, newCanon := headers - dead, tds - dead, canon - rows;
  }

  // ---------------------------------------------------------------- runs

  datatype Op = Import(batch: seq<Header>, coin: bool) | Rewind(number: nat)

  /** A rewind is always allowed; an import must be a validated batch outside the known-header case. */
  ghost predicate Legal(v: View, op: Op)
    requires v.Placed()
  {
    match op
    case Import(batch, coin) => Importable(v.tree, batch) && !AllKnownWin(v, batch, coin)
    case Rewind(_) => true
  }

  ghost function Next(v: View, op: Op): (r: View)
    requires v.Placed() && Legal(v, op)
  {
    match op
    case Import(batch, coin) => Imported(v, batch, coin)
    case Rewind(n) => Rewound(v, n)
  }

  /** Any step keeps the store rooted and the head stored and childless. */
  lemma NextSound(v: View, op: Op)
    requires v.Sound() && Legal(v, op)
    ensures Next(v, op).Sound()
  {
    match op
    case Import(batch, coin) => ImportSound(v, batch, coin);
    case Rewind(n) =>
      if n < v.tree.headers[v.head].number {
        UpToRooted(v.tree, n);
        v.tree.PathAt(v.head, n);
        var w := Rewound(v, n);
        forall c | c in w.tree.headers && 0 < w.tree.headers[c].number
          ensures w.tree.headers[c].parentHash != w.head
        {
          assert w.tree.Anchored(c);
        }
      }
  }

  ghost predicate LegalRun(v: View, ops: seq<Op>)
    requires v.Sound()
    decreases |ops|
  {
    ops == [] || (Legal(v, ops[0]) && (NextSound(v, ops[0]); LegalRun(Next(v, ops[0]), ops[1..])))
  }

  /** Over every run of imports and rewinds the store stays rooted and the head stays stored and childless. */
  ghost function RunFrom(v: View, ops: seq<Op>): (r: View)
    requires v.Sound() && LegalRun(v, ops)
    ensures r.Sound()
    decreases |ops|
  {
    if ops == [] then v
    else
      NextSound(v, ops[0]);
      RunFrom(Next(v, ops[0]), ops[1..])
  }

  /** Within a stored batch, total difficulty grows up to the last header. */
  lemma BatchTd(t: Tree, batch: seq<Header>, i: nat)
    requires t.Rooted() && Contiguous(batch) && ParentKnown(t, batch) && StoredIn(t, batch) && 0 < batch[0].number
    requires i < |batch| - 1
    ensures t.Td(batch[i].hash) < t.Td(batch[|batch| - 1].hash)
  {
    var j := i + 1;
    assert Follows(batch[j - 1], batch[j]);
    AboveHeadWins(t, batch, i + 1, batch[i].hash);
  }

  /** Fork choice is safe under imports alone: the head stays the heaviest header, the lowest of those. */
  lemma ImportHeaviest(v: View, batch: seq<Header>, coin: bool)
    requires v.Placed() && v.Heaviest() && Importable(v.tree, batch)
    ensures Imported(v, batch, coin).Placed() && Imported(v, batch, coin).Heaviest()
  {
    if ParentKnown(v.tree, batch) {
      AfterStore(v, batch);
      AddAllMembers(v.tree.headers, batch);
      var t, r := Extended(v.tree, batch), Imported(v, batch, coin);
      forall k | k in t.headers
        ensures t.Td(k) <= t.Td(r.head)
        ensures t.Td(k) == t.Td(r.head) ==> t.headers[r.head].number <= t.headers[k].number
      {
        if k in v.tree.headers {
          v.tree.Stable(t, k);
        } else {
          var i :| 0 <= i < |batch| && batch[i].hash == k;
          if i < |batch| - 1 { BatchTd(t, batch, i); }
        }
      }
    }
  }

  // ---------------------------------------------------------------- ancestor lookup

  ghost predicate Canonical(v: View, k: Hash)
    requires v.Placed() && k in v.tree.headers
  {
    v.tree.headers[k].number <= v.tree.headers[v.head].number && v.tree.Path(v.head)[v.tree.headers[k].number] == k
  }

  /** How many parent links lead from `k` to the canonical chain. */
  ghost function Detour(v: View, k: Hash): (d: nat)
    requires v.Placed() && k in v.tree.headers
    ensures d <= v.tree.headers[k].number
    decreases v.tree.headers[k].number
  {
    assert v.tree.Anchored(k);
    if Canonical(v, k) then 0
    else
      v.tree.PathStart(v.head);
      1 + Detour(v, v.tree.headers[k].parentHash)
  }

  /** Following `n` parent links, the plain way. */
  ghost function NthParent(t: Tree, k: Hash, n: nat): (r: Hash)
    requires t.Rooted() && k in t.headers && n <= t.headers[k].number
    decreases n
  {
    if n == 0 then k
    else
      assert t.Anchored(k);
      NthParent(t, t.headers[k].parentHash, n - 1)
  }

  lemma {:induction false} NthParentOnPath(t: Tree, k: Hash, n: nat)
    requires t.Rooted() && k in t.headers && n <= t.headers[k].number
    ensures NthParent(t, k, n) == t.Path(k)[t.headers[k].number - n]
    decreases n
  {
    if 0 < n {
      assert t.Anchored(k);
      NthParentOnPath(t, t.headers[k].parentHash, n - 1);
    }
  }

  /** From a canonical header the index answers any ancestor in one read. */
  lemma CanonicalAncestor(v: View, k: Hash, n: nat)
    requires v.Placed() && k in v.tree.headers && n <= v.tree.headers[k].number && Canonical(v, k)
    ensures v.tree.Path(v.head)[v.tree.headers[k].number - n] == NthParent(v.tree, k, n)
  {
    NthParentOnPath(v.tree, k, n);
    v.tree.PathsMeet(v.head, k, v.tree.headers[k].number);
    var at := v.tree.headers[k].number;
    assert v.tree.Path(v.head)[..at + 1][at - n] == v.tree.Path(k)[at - n];
  }

  /** The budget of non-canonical headers that a lookup spends. */
  ghost function Spent(v: View, hash: Hash, ancestor: nat): (d: nat)
    requires v.Placed() && hash in v.tree.headers
  {
    if ancestor <= 1 then 0 else Least(ancestor, Detour(v, hash))
  }

  /** What a lookup answers: the header that `ancestor` parent links lead to when the budget
      covers the non-canonical part of the way, and nothing otherwise. */
  ghost predicate AncestorFound(v: View, hash: Hash, number: nat, ancestor: nat, budget: nat, h: Hash, n: nat,
                                left: nat)
    requires v.Placed() && (hash in v.tree.headers ==> v.tree.headers[hash].number == number)
  {
    if ancestor == 0 then
      (h, n, left) == (hash, number, budget)
    else if ancestor <= number && hash in v.tree.headers && Spent(v, hash, ancestor) <= budget then
      (h, n, left) == (NthParent(v.tree, hash, ancestor), number - ancestor, budget - Spent(v, hash, ancestor))
    else
      (h, n) == (NO_HASH, 0)
  }

  ghost function Least(a: nat, b: nat): (m: nat)
  {
    if a < b then a else b
  }

  method FindAncestor(ghost v: View, headers: map<Hash, Header>, canon: map<nat, Hash>,
                      hash: Hash, number: nat, ancestor: nat, budget: nat) returns (h: Hash, n: nat, left: nat)
    requires v.Placed() && headers == v.tree.headers && canon == IndexOf(v.tree.Path(v.head))
    requires hash in headers ==> headers[hash].number == number
    requires hash != NO_HASH
    ensures AncestorFound(v, hash, number, ancestor, budget, h, n, left)
  {
    h, n, left := hash, number, budget;
    if number < ancestor {
      return NO_HASH, 0, left;
    }
    assert hash in headers ==> v.tree.Anchored(hash);
    if ancestor == 1 {
      if hash in headers {
        assert NthParent(v.tree, headers[hash].parentHash, 0) == headers[hash].parentHash;
        return headers[hash].parentHash, number - 1, left;
      }
      return NO_HASH, 0, left;
    }
    var above: nat := ancestor;
    while above != 0
      invariant above <= ancestor && n == number - (ancestor - above)
      invariant above == ancestor ==> h == hash && left == budget
      invariant hash !in headers ==> above == ancestor
      invariant hash in headers ==>
                  && h in headers && headers[h].number == n
                  && NthParent(v.tree, h, above) == NthParent(v.tree, hash, ancestor)
                  && left - Least(above, Detour(v, h)) == budget - Spent(v, hash, ancestor)
    {
      if n in canon && canon[n] == h {
        v.tree.PathAt(v.head, n);
        CanonicalAncestor(v, h, above);
        return canon[n - above], n - above, left;
      }
      assert hash in headers ==> v.tree.Anchored(h) && 0 < Detour(v, h);
      if left == 0 {
        return NO_HASH, 0, left;
      }
      left := left - 1;
      above := above - 1;
      if h !in headers {
        return NO_HASH, 0, left;
      }
      h, n := headers[h].parentHash, n - 1;
    }
  }

  /** A run of imports alone never leaves the heaviest chain. */
  lemma {:induction false} RunHeaviest(v: View, ops: seq<Op>)
    requires v.Sound() && v.Heaviest() && LegalRun(v, ops)
    requires forall i :: 0 <= i < |ops| ==> ops[i].Import?
    ensures RunFrom(v, ops).Heaviest()
    decreases |ops|
  {
    if ops != [] {
      NextSound(v, ops[0]);
      ImportHeaviest(v, ops[0].batch, ops[0].coin);
      RunHeaviest(Next(v, ops[0]), ops[1..]);
    }
  }

  class HeaderChain {
    const genesis: Header
    var headers: map<Hash, Header>
    var td: map<Hash, nat>
    var canon: map<nat, Hash>
    var headMarker: Hash
    var current: Header

    ghost function Contents(): (t: Tree)
      reads this
    {
      Tree(genesis, headers)
    }

    ghost function State(): (v: View)
      reads this
    {
      View(Contents(), current.hash)
    }

    /** Stored headers are rooted, the difficulty table is exact, the head is stored. */
    ghost predicate Stored()
      reads this
    {
      && State().Placed()
      && headers[current.hash] == current
      && Contents().TdTable(td)
    }

    ghost predicate Valid()
      reads this
    {
      && Exact(State(), td, canon, headMarker)
      && headers[current.hash] == current
    }

    constructor (g: Header)
      requires g.number == 0 && g.hash != NO_HASH && 0 < g.difficulty
      ensures Valid() && genesis == g && State() == View(Tree(g, map[g.hash := g]), g.hash)
    {
      genesis := g;
      headers := map[g.hash := g];
      td := map[g.hash := g.difficulty];
      canon := map[0 := g.hash];
      headMarker := g.hash;
      current := g;
    }

    /** A node that comes up with a database from before. */
    constructor Open(g: Header, headers: map<Hash, Header>, td: map<Hash, nat>, canon: map<nat, Hash>, marker: Hash)
      requires Exact(View(Tree(g, headers), marker), td, canon, marker)
      ensures Valid() && genesis == g && State() == View(Tree(g, headers), marker)
    {
      genesis, this.headers, this.td, this.canon, headMarker := g, headers, td, canon, marker;
      assert View(Tree(g, headers), marker).tree.Anchored(marker);
      current := headers[marker];
    }

    /** writeHeaders.  `coin` is the random choice between equally good heads. */
    method WriteHeaders(batch: seq<Header>, coin: bool) returns (r: WriteResult)
      requires Valid() && Importable(Contents(), batch)
      modifies this
      ensures Stored()
      ensures State() == Imported(old(State()), batch, coin)
      ensures Valid() <==> !AllKnownWin(old(State()), batch, coin)
      ensures canon == IndexOf(Contents().Path(current.hash)) <==> !AllKnownWin(old(State()), batch, coin)
      ensures r.Nothing? <==> batch == []
      ensures r.UnknownAncestor? <==> batch != [] && !ParentKnown(old(Contents()), batch)
      ensures batch != [] && ParentKnown(old(Contents()), batch) ==> Reported(old(headers), current.hash, batch, r)
    {
      if |batch| == 0 {
        return Nothing;
      }
      if batch[0].parentHash !in td {
        return UnknownAncestor;
      }
      headers, td, canon, headMarker, current, r :=
        ImportRows(State(), headers, td, canon, headMarker, current, batch, coin);
      assert State() == Imported(old(State()), batch, coin);
    }

    /** SetHead with no hooks, as a pure header chain calls it. */
    method SetHead(head: nat)
      requires Valid()
      modifies this
      ensures Valid()
      ensures State() == Rewound(old(State()), head)
    {
      headers, td, canon, headMarker, current :=
        RewindRows(State(), genesis, headers, td, canon, headMarker, current, head);
      assert State() == Rewound(old(State()), head);
    }

    /** GetAncestor: finds what following `ancestor` parent links finds, or nothing. */
    method GetAncestor(hash: Hash, number: nat, ancestor: nat, maxNonCanonical: nat)
        returns (h: Hash, n: nat, left: nat)
      requires Valid() && hash != NO_HASH
      requires hash in headers ==> headers[hash].number == number
      ensures AncestorFound(State(), hash, number, ancestor, maxNonCanonical, h, n, left)
    {
      h, n, left := FindAncestor(State(), headers, canon, hash, number, ancestor, maxNonCanonical);
    }

    /** Any script of imports and rewinds, executed row by row, leaves every row what the view says. */
    method Run(ops: seq<Op>)
      requires Valid() && LegalRun(State(), ops)
      modifies this
      ensures Valid() && State() == RunFrom(old(State()), ops)
    {
      assert ops[0..] == ops;
      for i := 0 to |ops|
        invariant Valid() && LegalRun(State(), ops[i..])
        invariant RunFrom(State(), ops[i..]) == RunFrom(old(State()), ops)
      {
        assert ops[i..][0] == ops[i] && ops[i..][1..] == ops[i + 1..];
        match ops[i]
        case Import(batch, coin) =>
          var _ := WriteHeaders(batch, coin);
        case Rewind(n) =>
          SetHead(n);
      }
      assert ops[|ops|..] == [];
    }
  }

  // ---------------------------------------------------------------- the known-header case is reachable

  const G := Header(1, 0, 0, 1, 0)
  const A1 := Header(2, 1, 1, 1, 0)
  const A2 := Header(3, 2, 2, 10, 0)
  const B1 := Header(4, 1, 1, 3, 0)

  ghost function Start(): (v: View)
  {
    View(Tree(G, map[G.hash := G]), G.hash)
  }

  /** After a light block with a heavy child. */
  ghost function Grown(): (v: View)
  {
    View(Tree(G, map[G.hash := G, A1.hash := A1, A2.hash := A2]), A2.hash)
  }

  /** After a rival of the light block, heavier than it. */
  ghost function Rivalled(): (v: View)
  {
    View(Tree(G, map[G.hash := G, A1.hash := A1, A2.hash := A2, B1.hash := B1]), A2.hash)
  }

  /** After the rewind of the child. */
  ghost function Cut(): (v: View)
  {
    View(Tree(G, map[G.hash := G, A1.hash := A1, B1.hash := B1]), A1.hash)
  }

  lemma TdOfG(t: Tree)
    requires t.Rooted() && G.hash in t.headers && t.headers[G.hash] == G
    ensures t.Td(G.hash) == 1
  {
  }

  lemma TdOfA1(t: Tree)
    requires t.Rooted() && G.hash in t.headers && t.headers[G.hash] == G && A1.hash in t.headers
    requires t.headers[A1.hash] == A1
    ensures t.Td(A1.hash) == 2
  {
    TdOfG(t);
  }

  lemma TdOfB1(t: Tree)
    requires t.Rooted() && G.hash in t.headers && t.headers[G.hash] == G && B1.hash in t.headers
    requires t.headers[B1.hash] == B1
    ensures t.Td(B1.hash) == 4
  {
    TdOfG(t);
  }

  lemma TdOfA2(t: Tree)
    requires t.Rooted() && G.hash in t.headers && t.headers[G.hash] == G && A1.hash in t.headers
    requires t.headers[A1.hash] == A1
    requires A2.hash in t.headers && t.headers[A2.hash] == A2
    ensures t.Td(A2.hash) == 12
  {
    TdOfA1(t);
  }

  lemma FirstImport()
    requires Start().Placed()
    ensures Importable(Start().tree, [A1, A2]) && !AllKnownWin(Start(), [A1, A2], false)
    ensures Imported(Start(), [A1, A2], false) == Grown()
  {
    var v, batch := Start(), [A1, A2];
    assert AddAll(v.tree.headers, batch[..0]) == v.tree.headers;
    assert batch[..1] == [A1] && [A1][..0] == [];
    assert AddAll(v.tree.headers, [A1]) == map[G.hash := G, A1.hash := A1];
    assert Importable(v.tree, batch);
    AfterStore(v, batch);
    var t := Extended(v.tree, batch);
    assert t.headers == Grown().tree.headers;
    TdOfG(t);
    TdOfA2(t);
  }

  lemma SecondImport()
    requires Grown().Placed()
    ensures Importable(Grown().tree, [B1]) && !AllKnownWin(Grown(), [B1], false)
    ensures Imported(Grown(), [B1], false) == Rivalled()
  {
    var v, batch := Grown(), [B1];
    assert AddAll(v.tree.headers, batch[..0]) == v.tree.headers;
    assert Importable(v.tree, batch);
    AfterStore(v, batch);
    var t := Extended(v.tree, batch);
    assert t.headers == Rivalled().tree.headers;
    TdOfB1(t);
    TdOfA2(t);
  }

  lemma CutBack()
    requires Rivalled().Placed()
    ensures Rewound(Rivalled(), 1) == Cut()
  {
    var t := Rivalled().tree;
    assert t.Path(A2.hash) == t.Path(A1.hash) + [A2.hash];
    assert UpTo(t, 1).headers == Cut().tree.headers;
  }

  lemma RivalWins()
    requires Cut().Placed()
    ensures Importable(Cut().tree, [B1]) && AllKnownWin(Cut(), [B1], false)
  {
    TdOfA1(Cut().tree);
    TdOfB1(Cut().tree);
  }

  /** The index does go wrong: a light block gets a heavy child, then a rival heavier than itself, and then the child is
      rewound.  The rival outweighs the head now, and importing it again moves the head without writing its row. */
  method KnownBranchLosesItsRow() returns (chain: HeaderChain)
    ensures chain.Stored() && chain.canon != IndexOf(chain.Contents().Path(chain.current.hash))
  {
    chain := new HeaderChain(G);
    assert chain.State() == Start();
    FirstImport();
    var _ := chain.WriteHeaders([A1, A2], false);
    SecondImport();
    var _ := chain.WriteHeaders([B1], false);
    CutBack();
    chain.SetHead(1);
    RivalWins();
    var _ := chain.WriteHeaders([B1], false);
  }
}
