/** event/feed.go: one-to-many delivery with subscriptions that come and go during a send.

`sendCases` is one array.  Its first case is the removal channel; the others are subscribers.
While a send is in progress a prefix of the array, `cases` in the source, holds the subscribers
that have not been served yet; it shrinks from the end by swaps in place, and removals shift the
array under it.
*/
module EventFeeds {

  type Channel = nat

  /** The case at index 0, through which removals interrupt a send. */
  const REMOVE_SUB: Channel := 0

  // ---------------------------------------------------------------- caseList

  /** The first case with the channel is at `i`. */
  predicate First(cs: seq<Channel>, ch: Channel, i: nat)
  {
    i < |cs| && cs[i] == ch && forall j :: 0 <= j < i ==> cs[j] != ch
  }

  function Find(cs: seq<Channel>, ch: Channel): (i: int)
    ensures -1 <= i < |cs|
    ensures i == -1 <==> ch !in cs
    ensures 0 <= i ==> First(cs, ch, i)
  {
    FindFrom(cs, ch, 0)
  }

  function FindFrom(cs: seq<Channel>, ch: Channel, from: nat): (i: int)
    requires from <= |cs|
    ensures i == -1 || from <= i < |cs|
    ensures i == -1 ==> forall j :: from <= j < |cs| ==> cs[j] != ch
    ensures 0 <= i ==> cs[i] == ch && forall j :: from <= j < i ==> cs[j] != ch
    decreases |cs| - from
  {
    if from == |cs| then -1
    else if cs[from] == ch then from
    else FindFrom(cs, ch, from + 1)
  }

  function Deleted(cs: seq<Channel>, i: nat): (r: seq<Channel>)
    requires i < |cs|
  {
    cs[..i] + cs[i + 1..]
  }

  function Swapped(cs: seq<Channel>, i: nat, j: nat): (r: seq<Channel>)
    requires i < |cs| && j < |cs|
  {
    seq(|cs|, k requires 0 <= k < |cs| => if k == i then cs[j] else if k == j then cs[i] else cs[k])
  }

  lemma FirstIsFound(cs: seq<Channel>, ch: Channel, i: nat)
    requires First(cs, ch, i)
    ensures Find(cs, ch) == i
  {
  }

  lemma NotDeletedIn(cs: seq<Channel>, i: nat, x: Channel)
    requires i < |cs| && x !in cs
    ensures x !in Deleted(cs, i)
  {
  }

  lemma DeletedContents(cs: seq<Channel>, i: nat)
    requires i < |cs|
    ensures multiset(cs) == multiset(Deleted(cs, i)) + multiset{cs[i]}
  {
    assert cs == cs[..i] + [cs[i]] + cs[i + 1..];
  }

  /** The cases from `i` on move down by one. */
  lemma DeletedCases(cs: seq<Channel>, i: nat)
    requires 1 <= i < |cs|
    ensures |Deleted(cs, i)| == |cs| - 1
    ensures forall m :: 0 <= m < |cs| - 1 ==> Deleted(cs, i)[m] == if m < i then cs[m] else cs[m + 1]
    ensures forall x :: x !in cs[1..] ==> x !in Deleted(cs, i)[1..]
  {
    assert Deleted(cs, i)[1..] == cs[1..i] + cs[i + 1..];
    assert cs[1..] == cs[1..i] + [cs[i]] + cs[i + 1..];
  }

  /** A swap with the last case of a prefix moves the case out of the prefix. */
  lemma SwapOut(cs: seq<Channel>, i: nat)
    requires i < |cs|
    ensures multiset(cs) == multiset(Swapped(cs, i, |cs| - 1)[..|cs| - 1]) + multiset{cs[i]}
  {
    var last := |cs| - 1;
    DeletedContents(cs, i);
    if i < last {
      var rest := Swapped(cs, i, last)[..last];
      assert Deleted(cs, i) == cs[..i] + cs[i + 1..last] + [cs[last]];
      assert rest == cs[..i] + [cs[last]] + cs[i + 1..last];
    } else {
      assert Swapped(cs, i, last)[..last] == Deleted(cs, i);
    }
  }

  /** The two parts of the array after a swap that shrinks the prefix. */
  lemma SwapParts(cs: seq<Channel>, active: nat, i: nat)
    requires 1 <= i < active <= |cs|
    ensures Bag(cs, 1, active) == Bag(Swapped(cs, i, active - 1), 1, active - 1) + multiset{cs[i]}
    ensures Bag(Swapped(cs, i, active - 1), active - 1, |cs|) == Bag(cs, active, |cs|) + multiset{cs[i]}
  {
    var r, prefix := Swapped(cs, i, active - 1), cs[1..active];
    SwapOut(prefix, i - 1);
    assert r[1..active - 1] == Swapped(prefix, i - 1, |prefix| - 1)[..|prefix| - 1];
    assert r[active - 1..|cs|] == [cs[i]] + cs[active..|cs|];
  }

  /** The part of the array that the deleted case was in, above it, and below it. */
  lemma DeletedPart(cs: seq<Channel>, lo: nat, hi: nat, i: nat)
    requires lo <= i < hi <= |cs|
    ensures Deleted(cs, i)[lo..hi - 1] == Deleted(cs[lo..hi], i - lo)
  {
    var part := cs[lo..hi];
    var r, rest := Deleted(cs, i)[lo..hi - 1], Deleted(part, i - lo);
    assert |r| == |rest|;
    forall m | 0 <= m < |r|
      ensures r[m] == rest[m]
    {
      assert r[m] == Deleted(cs, i)[lo + m];
      if lo + m < i { assert rest[m] == part[m]; } else { assert rest[m] == part[m + 1]; }
    }
  }

  lemma DeletedAbove(cs: seq<Channel>, lo: nat, i: nat)
    requires i < lo <= |cs|
    ensures Deleted(cs, i)[lo - 1..|cs| - 1] == cs[lo..|cs|]
  {
  }

  lemma DeletedBelow(cs: seq<Channel>, hi: nat, i: nat)
    requires 1 <= hi <= i < |cs|
    ensures Deleted(cs, i)[1..hi] == cs[1..hi]
  {
  }

  lemma DeletePrefix(cs: seq<Channel>, active: nat, i: nat)
    requires 1 <= i < active <= |cs|
    ensures Bag(cs, 1, active) == Bag(Deleted(cs, i), 1, active - 1) + multiset{cs[i]}
    ensures Bag(Deleted(cs, i), active - 1, |cs| - 1) == Bag(cs, active, |cs|)
  {
    DeletedContents(cs[1..active], i - 1);
    DeletedPart(cs, 1, active, i);
    DeletedAbove(cs, active, i);
  }

  lemma DeleteSuffix(cs: seq<Channel>, active: nat, i: nat)
    requires 1 <= active <= i < |cs|
    ensures Bag(Deleted(cs, i), 1, active) == Bag(cs, 1, active)
    ensures Bag(cs, active, |cs|) == Bag(Deleted(cs, i), active, |cs| - 1) + multiset{cs[i]}
  {
    DeletedBelow(cs, active, i);
    DeletedContents(cs[active..|cs|], i - active);
    DeletedPart(cs, active, |cs|, i);
  }

  // ---------------------------------------------------------------- the books of one send

  /** Who was served and who left during a send, by when they left. */
  datatype Books = Books(delivered: multiset<Channel>, leftUnserved: multiset<Channel>, leftServed: multiset<Channel>)

  ghost function Served(books: Books, ch: Channel): (r: Books)
  {
    books.(delivered := books.delivered + multiset{ch})
  }

  ghost function Left(books: Books, ch: Channel, unserved: bool): (r: Books)
  {
    if unserved then books.(leftUnserved := books.leftUnserved + multiset{ch})
    else books.(leftServed := books.leftServed + multiset{ch})
  }

  const NO_ONE := Books(multiset{}, multiset{}, multiset{})

  /** A send in progress: the cases, how many of them are the unserved prefix, and the books. */
  datatype Progress = Progress(cs: seq<Channel>, active: nat, books: Books)

  /** The first `active` cases are the subscribers not served yet, the others those served and still here. */
  ghost predicate Balanced(p: Progress, start: multiset<Channel>)
  {
    && 1 <= p.active <= |p.cs|
    && Bag(p.cs, 1, p.active) + p.books.delivered + p.books.leftUnserved == start
    && Bag(p.cs, p.active, |p.cs|) + p.books.leftServed == p.books.delivered
  }

  /** The subscribers at positions `lo` to `hi`. */
  ghost function Bag(cs: seq<Channel>, lo: nat, hi: nat): (b: multiset<Channel>)
    requires lo <= hi <= |cs|
  {
    multiset(cs[lo..hi])
  }

  /** What can happen during a send: a delivery to a case of the prefix, or a removal of any case. */
  datatype Act = Deliver(i: nat) | Drop(i: nat)

  predicate Allowed(p: Progress, act: Act)
  {
    match act
    case Deliver(i) => 1 <= i < p.active <= |p.cs|
    case Drop(i) => 1 <= i < |p.cs| && 1 <= p.active <= |p.cs|
  }

  /** A delivery swaps the case with the last of the prefix, which shrinks; a removal closes the array
      up, and the prefix with it if the case was in it. */
  ghost function Applied(p: Progress, act: Act): (r: Progress)
    requires Allowed(p, act)
  {
    match act
    case Deliver(i) => Progress(Swapped(p.cs, i, p.active - 1), p.active - 1, Served(p.books, p.cs[i]))
    case Drop(i) =>
      Progress(Deleted(p.cs, i), if i < p.active then p.active - 1 else p.active, Left(p.books, p.cs[i], i < p.active))
  }

  ghost function Begun(cs: seq<Channel>): (p: Progress)
  {
    Progress(cs, |cs|, NO_ONE)
  }

  lemma BegunBalanced(cs: seq<Channel>)
    requires 1 <= |cs|
    ensures Balanced(Begun(cs), multiset(cs[1..]))
  {
    assert cs[1..|cs|] == cs[1..] && cs[|cs|..|cs|] == [];
  }

  /** If the two parts change by one subscriber each way, so do the books. */
  lemma Rebalanced(p: Progress, r: Progress, start: multiset<Channel>, ch: Channel)
    requires Balanced(p, start) && 1 <= r.active <= |r.cs|
    requires Bag(p.cs, 1, p.active) == Bag(r.cs, 1, r.active) + multiset{ch}
    requires Bag(r.cs, r.active, |r.cs|) == Bag(p.cs, p.active, |p.cs|) + multiset{ch}
    requires r.books == Served(p.books, ch)
    ensures Balanced(r, start)
  {
  }

  lemma DeliverBalanced(p: Progress, i: nat, start: multiset<Channel>)
    requires Allowed(p, Deliver(i)) && Balanced(p, start)
    ensures Balanced(Applied(p, Deliver(i)), start)
  {
    SwapParts(p.cs, p.active, i);
    Rebalanced(p, Applied(p, Deliver(i)), start, p.cs[i]);
  }

  lemma UnservedLeaves(p: Progress, r: Progress, start: multiset<Channel>, ch: Channel)
    requires Balanced(p, start) && 1 <= r.active <= |r.cs|
    requires Bag(p.cs, 1, p.active) == Bag(r.cs, 1, r.active) + multiset{ch}
    requires Bag(r.cs, r.active, |r.cs|) == Bag(p.cs, p.active, |p.cs|)
    requires r.books == Left(p.books, ch, true)
    ensures Balanced(r, start)
  {
  }

  lemma ServedLeaves(p: Progress, r: Progress, start: multiset<Channel>, ch: Channel)
    requires Balanced(p, start) && 1 <= r.active <= |r.cs|
    requires Bag(r.cs, 1, r.active) == Bag(p.cs, 1, p.active)
    requires Bag(p.cs, p.active, |p.cs|) == Bag(r.cs, r.active, |r.cs|) + multiset{ch}
    requires r.books == Left(p.books, ch, false)
    ensures Balanced(r, start)
  {
  }

  lemma DropUnserved(p: Progress, i: nat, start: multiset<Channel>)
    requires 1 <= i < p.active <= |p.cs| && Balanced(p, start)
    ensures Balanced(Progress(Deleted(p.cs, i), p.active - 1, Left(p.books, p.cs[i], true)), start)
  {
    DeletePrefix(p.cs, p.active, i);
    UnservedLeaves(p, Progress(Deleted(p.cs, i), p.active - 1, Left(p.books, p.cs[i], true)), start, p.cs[i]);
  }

  lemma DropServed(p: Progress, i: nat, start: multiset<Channel>)
    requires 1 <= p.active <= i < |p.cs| && Balanced(p, start)
    ensures Balanced(Progress(Deleted(p.cs, i), p.active, Left(p.books, p.cs[i], false)), start)
  {
    DeleteSuffix(p.cs, p.active, i);
    ServedLeaves(p, Progress(Deleted(p.cs, i), p.active, Left(p.books, p.cs[i], false)), start, p.cs[i]);
  }

  lemma DropBalanced(p: Progress, i: nat, start: multiset<Channel>)
    requires Allowed(p, Drop(i)) && Balanced(p, start)
    ensures Balanced(Applied(p, Drop(i)), start)
  {
    if i < p.active {
      DropUnserved(p, i, start);
      assert Applied(p, Drop(i)) == Progress(Deleted(p.cs, i), p.active - 1, Left(p.books, p.cs[i], true));
    } else {
      DropServed(p, i, start);
      assert Applied(p, Drop(i)) == Progress(Deleted(p.cs, i), p.active, Left(p.books, p.cs[i], false));
    }
  }

  /** Every act keeps the books balanced. */
  lemma AppliedBalanced(p: Progress, act: Act, start: multiset<Channel>)
    requires Allowed(p, act) && Balanced(p, start)
    ensures Balanced(Applied(p, act), start)
    ensures |Applied(p, act).books.delivered| == |p.books.delivered| + (if act.Deliver? then 1 else 0)
  {
    match act
    case Deliver(i) => DeliverBalanced(p, i, start);
    case Drop(i) => DropBalanced(p, i, start);
  }

  /** Once the prefix is down to the removal case, everyone who did not leave unserved was served
      exactly once per subscription, and those still here are the served who did not leave. */
  lemma BalancedEnd(p: Progress, start: multiset<Channel>)
    requires Balanced(p, start) && p.active == 1
    ensures p.books.leftUnserved <= start && p.books.delivered == start - p.books.leftUnserved
    ensures multiset(p.cs[1..]) == start - p.books.leftUnserved - p.books.leftServed
  {
    assert p.cs[1..1] == [] && p.cs[1..|p.cs|] == p.cs[1..];
  }

  ghost predicate Lawful(p: Progress, acts: seq<Act>)
    decreases |acts|, 0
  {
    acts == [] || (Lawful(p, acts[..|acts| - 1]) && Allowed(Replay(p, acts[..|acts| - 1]), acts[|acts| - 1]))
  }

  ghost function Replay(p: Progress, acts: seq<Act>): (r: Progress)
    requires Lawful(p, acts)
    decreases |acts|, 1
  {
    if acts == [] then p else Applied(Replay(p, acts[..|acts| - 1]), acts[|acts| - 1])
  }

  function Deliveries(acts: seq<Act>): (n: nat)
  {
    if acts == [] then 0 else Deliveries(acts[..|acts| - 1]) + (if acts[|acts| - 1].Deliver? then 1 else 0)
  }

  lemma {:induction false} ReplayBalanced(p: Progress, acts: seq<Act>, start: multiset<Channel>)
    requires Lawful(p, acts) && Balanced(p, start)
    ensures Balanced(Replay(p, acts), start)
    ensures |Replay(p, acts).books.delivered| == |p.books.delivered| + Deliveries(acts)
    decreases |acts|
  {
    if acts != [] {
      var front := acts[..|acts| - 1];
      ReplayBalanced(p, front, start);
      AppliedBalanced(Replay(p, front), acts[|acts| - 1], start);
    }
  }

  lemma ActNext(p: Progress, acts: seq<Act>, act: Act)
    requires Lawful(p, acts) && Allowed(Replay(p, acts), act)
    ensures Lawful(p, acts + [act]) && Replay(p, acts + [act]) == Applied(Replay(p, acts), act)
    ensures Deliveries(acts + [act]) == Deliveries(acts) + (if act.Deliver? then 1 else 0)
  {
    assert (acts + [act])[..|acts|] == acts;
  }

  /** A removal is for the first case with its channel, and comes while there are subscribers to wait for. */
  predicate Proper(p: Progress, act: Act)
  {
    act.Drop? ==> 1 < p.active && act.i < |p.cs| && First(p.cs, p.cs[act.i], act.i)
  }

  ghost predicate Orderly(p: Progress, acts: seq<Act>)
    requires Lawful(p, acts)
    decreases |acts|
  {
    acts == [] ||
    (Orderly(p, acts[..|acts| - 1]) && Proper(Replay(p, acts[..|acts| - 1]), acts[|acts| - 1]))
  }

  /** The array and the prefix length are what the acts make of the cases that the send began with. */
  ghost predicate Tracks(began: seq<Channel>, acts: seq<Act>, cs: seq<Channel>, active: nat, nsent: nat)
  {
    && Lawful(Begun(began), acts) && Orderly(Begun(began), acts)
    && Replay(Begun(began), acts).cs == cs
    && Replay(Begun(began), acts).active == active
    && nsent == Deliveries(acts)
    && 1 <= active <= |cs|
  }

  lemma TracksNext(began: seq<Channel>, acts: seq<Act>, cs: seq<Channel>, active: nat, nsent: nat, act: Act)
    requires Tracks(began, acts, cs, active, nsent)
    requires Allowed(Progress(cs, active, NO_ONE), act) && Proper(Progress(cs, active, NO_ONE), act)
    ensures var next := Applied(Progress(cs, active, NO_ONE), act);
            Tracks(began, acts + [act], next.cs, next.active, nsent + (if act.Deliver? then 1 else 0))
  {
    ActNext(Begun(began), acts, act);
    assert (acts + [act])[..|acts|] == acts;
  }

  // ---------------------------------------------------------------- the feed

  class Feed {
    var buf: array<Channel>
    var len: nat
    var inbox: seq<Channel>

    ghost var cases: seq<Channel>

    ghost predicate Valid()
      reads this, buf
    {
      && 1 <= len <= buf.Length && cases == buf[..len]
      && cases[0] == REMOVE_SUB && REMOVE_SUB !in cases[1..] && REMOVE_SUB !in inbox
    }

    constructor ()
      ensures Valid() && fresh(buf) && cases == [REMOVE_SUB] && inbox == []
    {
      buf := new Channel[1](_ => REMOVE_SUB);
      len, inbox, cases := 1, [], [REMOVE_SUB];
    }

    /** Subscribe: the channel waits in the inbox for the next send. */
    method Subscribe(ch: Channel)
      requires Valid() && ch != REMOVE_SUB
      modifies this`inbox
      ensures Valid() && inbox == old(inbox) + [ch] && cases == old(cases)
    {
      inbox := inbox + [ch];
    }

    /** caseList.find */
    method FindCase(ch: Channel) returns (i: int)
      requires Valid()
      ensures i == -1 || 0 <= i
      ensures if i == -1 then ch !in cases else First(cases, ch, i)
    {
      i := 0;
      while i < len
        invariant 0 <= i <= len && forall j :: 0 <= j < i ==> cases[j] != ch
      {
        if buf[i] == ch {
          return;
        }
        i := i + 1;
      }
      i := -1;
    }

    /** caseList.delete: the cases after `index` move down by one, in place. */
    method DeleteCase(index: nat)
      requires Valid() && 1 <= index < len
      modifies this`len, this`cases, buf
      ensures Valid() && cases == Deleted(old(cases), index)
    {
      ghost var cs := cases;
      var k := index;
      while k + 1 < len
        modifies buf
        invariant index <= k < len
        invariant forall m :: 0 <= m < index || k <= m < len ==> buf[m] == cs[m]
        invariant forall m {:trigger buf[m]} :: index <= m < k ==> buf[m] == cs[m + 1]
      {
        buf[k] := buf[k + 1];
        k := k + 1;
      }
      len, cases := len - 1, Deleted(cs, index);
      DeletedCases(cs, index);
      assert forall m :: 0 <= m < len ==> buf[m] == cases[m];
    }

    /** caseList.deactivate: the case changes places with the last of the prefix, which shrinks. */
    method Deactivate(active: nat, index: nat) returns (rest: nat)
      requires Valid() && 1 <= index < active <= len
      modifies buf, this`cases
      ensures Valid() && rest == active - 1 && cases == Swapped(old(cases), index, active - 1)
    {
      ghost var cs := cases;
      rest := active - 1;
      buf[index], buf[rest] := buf[rest], buf[index];
      cases := Swapped(cs, index, rest);
      assert buf[..len] == cases;
      assert forall m :: 1 <= m < len ==> cases[m] in cs[1..];
    }

    /** Moves the inbox behind the cases, into a larger array if there is no room. */
    method MergeInbox()
      requires Valid()
      modifies this, buf
      ensures Valid() && inbox == [] && cases == old(cases) + old(inbox)
      ensures buf == old(buf) || fresh(buf)
    {
      var total := len + |inbox|;
      if buf.Length < total {
        var room := new Channel[total];
        forall m | 0 <= m < len {
          room[m] := buf[m];
        }
        buf := room;
      }
      forall m | 0 <= m < |inbox| {
        buf[len + m] := inbox[m];
      }
      cases := cases + inbox;
      assert buf[..total] == cases;
      assert cases[1..] == old(cases)[1..] + inbox;
      len, inbox := total, [];
    }

    /** remove, when no send is in progress: from the inbox if it is there, else from the cases. */
    method Remove(ch: Channel)
      requires Valid() && ch != REMOVE_SUB && (ch in inbox || ch in cases)
      modifies this, buf
      ensures Valid() && buf == old(buf)
      ensures ch in old(inbox) ==> inbox == Deleted(old(inbox), Find(old(inbox), ch)) && cases == old(cases)
      ensures ch !in old(inbox) ==> inbox == old(inbox) && cases == Deleted(old(cases), Find(old(cases), ch))
    {
      var index := Find(inbox, ch);
      if index != -1 {
        NotDeletedIn(inbox, index, REMOVE_SUB);
        inbox := Deleted(inbox, index);
      } else {
        index := FindCase(ch);
        FirstIsFound(cases, ch, index);
        DeleteCase(index);
      }
    }

    /** Send.  Whether a subscriber accepts at once, which one unblocks next, and which removals arrive
        is up to the environment; `acts` records it. */
    method Send() returns (nsent: nat, ghost acts: seq<Act>)
      requires Valid()
      modifies this, buf
      ensures Valid() && inbox == [] && (buf == old(buf) || fresh(buf))
      ensures Tracks(old(cases + inbox), acts, cases, 1, nsent)
    {
      MergeInbox();
      ghost var began := cases;
      nsent, acts := 0, [];
      var active := len;
      while true
        invariant Valid() && inbox == [] && Tracks(began, acts, cases, active, nsent)
        modifies this`len, this`cases, buf
        decreases len, active
      {
        active, nsent, acts := TryAll(began, acts, active, nsent);
        if active == 1 {
          break;
        }
        active, nsent, acts := SelectOne(began, acts, active, nsent);
      }
    }

    /** A delivery to the case at `i`. */
    method Serve(ghost began: seq<Channel>, ghost acts: seq<Act>, active: nat, nsent: nat, i: nat)
        returns (rest: nat, n: nat, ghost after: seq<Act>)
      requires Valid() && 1 <= i < active && Tracks(began, acts, cases, active, nsent)
      modifies buf, this`cases
      ensures Valid() && rest == active - 1 && Tracks(began, after, cases, rest, n)
    {
      TracksNext(began, acts, cases, active, nsent, Deliver(i));
      rest := Deactivate(active, i);
      n, after := nsent + 1, acts + [Deliver(i)];
    }

    /** The pass that serves, without blocking, every subscriber that accepts at once. */
    method TryAll(ghost began: seq<Channel>, ghost acts: seq<Act>, active: nat, nsent: nat)
        returns (rest: nat, n: nat, ghost after: seq<Act>)
      requires Valid() && Tracks(began, acts, cases, active, nsent)
      modifies buf, this`cases
      ensures Valid() && rest <= active && Tracks(began, after, cases, rest, n)
    {
      rest, n, after := active, nsent, acts;
      var i := 1;
      while i < rest
        invariant Valid() && 1 <= i && rest <= active && Tracks(began, after, cases, rest, n)
        decreases rest - i
      {
        var accepted: bool := *;
        if accepted {
          rest, n, after := Serve(began, after, rest, n, i);
        } else {
          i := i + 1;
        }
      }
    }

    /** Waits for one event: a subscriber unblocks, or a removal request comes in for a channel that is here. */
    method SelectOne(ghost began: seq<Channel>, ghost acts: seq<Act>, active: nat, nsent: nat)
        returns (rest: nat, n: nat, ghost after: seq<Act>)
      requires Valid() && 1 < active && Tracks(began, acts, cases, active, nsent)
      modifies this`len, this`cases, buf
      ensures Valid() && Tracks(began, after, cases, rest, n)
      ensures len < old(len) || (len == old(len) && rest < active)
    {
      var chosen: nat :| chosen < active;
      if chosen == 0 {
        var place: nat :| 1 <= place < len by { assert 1 <= 1 < len; }
        assert cases[place] in cases[1..];
        rest, after := RemoveChannel(began, acts, active, nsent, buf[place]);
        n := nsent;
      } else {
        rest, n, after := Serve(began, acts, active, nsent, chosen);
      }
    }

    /** The removal of a channel while the send waits. */
    method RemoveChannel(ghost began: seq<Channel>, ghost acts: seq<Act>, active: nat, nsent: nat, ch: Channel)
        returns (rest: nat, ghost after: seq<Act>)
      requires Valid() && 1 < active && Tracks(began, acts, cases, active, nsent)
      requires ch != REMOVE_SUB && ch in cases
      modifies this`len, this`cases, buf
      ensures Valid() && Tracks(began, after, cases, rest, nsent) && len < old(len)
    {
      var index := FindCase(ch);
      TracksNext(began, acts, cases, active, nsent, Drop(index));
      DeleteCase(index);
      rest := active;
      if 0 <= index < active {
        rest := active - 1;
      }
      after := acts + [Drop(index)];
    }
  }

  /** What a finished send has done, whatever the environment did: every subscription present after the inbox
      was merged and not removed before its turn was served exactly once, the count is the number of deliveries,
      and the cases left are the served ones that did not leave. */
  lemma SendDelivers(began: seq<Channel>, acts: seq<Act>, cs: seq<Channel>, nsent: nat)
    requires 1 <= |began| && Tracks(began, acts, cs, 1, nsent)
    ensures var start, books := multiset(began[1..]), Replay(Begun(began), acts).books;
            && books.leftUnserved <= start
            && books.delivered == start - books.leftUnserved
            && nsent == |books.delivered|
            && multiset(cs[1..]) == start - books.leftUnserved - books.leftServed
  {
    BegunBalanced(began);
    ReplayBalanced(Begun(began), acts, multiset(began[1..]));
    BalancedEnd(Replay(Begun(began), acts), multiset(began[1..]));
  }

  // ---------------------------------------------------------------- every interleaving

  /** The feed between two atomic steps.  `live` holds the subscriptions whose Unsubscribe has not begun,
      `pending` the removers that have found the inbox without their channel. */
  datatype State = State(inbox: seq<Channel>, send: Progress, sending: bool, start: multiset<Channel>,
                         live: multiset<Channel>, pending: multiset<Channel>)

  datatype Outcome = Running(state: State) | Panicked

  datatype Event =
    | Subscribe(ch: Channel)
    | Unsubscribe(ch: Channel)   // remove up to the end of its critical section under mu
    | RemoveIdle(ch: Channel)    // a pending remover that got the send lock
    | BeginSend
    | Accept(i: nat)             // TrySend or Select succeeds on a case of the prefix
    | RemoveBusy(ch: Channel)    // a pending remover that Select received from
    | EndSend

  predicate Enabled(s: State, e: Event)
  {
    match e
    case Subscribe(ch) => ch != REMOVE_SUB
    case Unsubscribe(ch) => ch in s.live
    case RemoveIdle(ch) => !s.sending && ch in s.pending
    case BeginSend => !s.sending
    case Accept(i) => s.sending && Allowed(s.send, Deliver(i))
    case RemoveBusy(ch) => s.sending && 1 < s.send.active <= |s.send.cs| && ch in s.pending
    case EndSend => s.sending && s.send.active == 1
  }

  ghost function Next(s: State, e: Event): (r: Outcome)
    requires Enabled(s, e)
  {
    match e
    case Subscribe(ch) => Running(s.(inbox := s.inbox + [ch], live := s.live + multiset{ch}))
    case Unsubscribe(ch) =>
      var index := Find(s.inbox, ch);
      var gone := s.(live := s.live - multiset{ch});
      if index != -1 then Running(gone.(inbox := Deleted(s.inbox, index)))
      else Running(gone.(pending := s.pending + multiset{ch}))
    case RemoveIdle(ch) =>
      var index := Find(s.send.cs, ch);
      if index == -1 then Panicked
      else Running(s.(send := s.send.(cs := Deleted(s.send.cs, index)), pending := s.pending - multiset{ch}))
    case BeginSend =>
      var cs := s.send.cs + s.inbox;
      Running(s.(inbox := [], send := Begun(cs), sending := true,
                 start := if |cs| == 0 then multiset{} else multiset(cs[1..])))
    case Accept(i) => Running(s.(send := Applied(s.send, Deliver(i))))
    case RemoveBusy(ch) =>
      var index := Find(s.send.cs, ch);
      if index <= 0 then Panicked
      else Running(s.(send := Applied(s.send, Drop(index)), pending := s.pending - multiset{ch}))
    case EndSend => Running(s.(sending := false))
  }

  ghost function Entries(cs: seq<Channel>): (b: multiset<Channel>)
    requires 1 <= |cs|
  {
    multiset(cs[1..])
  }

  ghost predicate Accounted(s: State, ch: Channel)
    requires 1 <= |s.send.cs|
  {
    && multiset(s.inbox)[ch] + Entries(s.send.cs)[ch] == s.live[ch] + s.pending[ch]
    && s.pending[ch] <= Entries(s.send.cs)[ch]
  }

  /** Inbox and cases hold the live subscriptions and those being removed, and every pending remover
      has a case of its own to remove. */
  ghost predicate Safe(s: State)
  {
    && 1 <= |s.send.cs| && s.send.cs[0] == REMOVE_SUB
    && REMOVE_SUB !in s.live && REMOVE_SUB !in s.pending
    && (forall ch :: Accounted(s, ch))
    && (s.sending ==> Balanced(s.send, s.start))
  }

  lemma EntriesDeleted(cs: seq<Channel>, i: nat)
    requires 1 <= i < |cs|
    ensures Entries(cs) == Entries(Deleted(cs, i)) + multiset{cs[i]}
    ensures Deleted(cs, i)[0] == cs[0]
  {
    DeletedContents(cs[1..], i - 1);
    assert Deleted(cs, i)[1..] == Deleted(cs[1..], i - 1);
  }

  lemma EntriesSwapped(cs: seq<Channel>, active: nat, i: nat)
    requires 1 <= i < active <= |cs|
    ensures Entries(Swapped(cs, i, active - 1)) == Entries(cs)
    ensures Swapped(cs, i, active - 1)[0] == cs[0]
  {
    var r := Swapped(cs, i, active - 1);
    SwapParts(cs, active, i);
    assert cs[1..] == cs[1..active] + cs[active..|cs|];
    assert r[1..] == r[1..active - 1] + r[active - 1..|cs|];
  }

  /** A pending remover always finds its case, behind the removal case. */
  lemma RemoverFinds(s: State, ch: Channel)
    requires Safe(s) && ch in s.pending
    ensures 1 <= Find(s.send.cs, ch) < |s.send.cs|
  {
    assert Accounted(s, ch);
    assert ch in s.send.cs[1..];
  }

  lemma SubscribeSafe(s: State, ch: Channel)
    requires Safe(s) && ch != REMOVE_SUB
    ensures Safe(Next(s, Subscribe(ch)).state)
  {
    forall c
      ensures Accounted(Next(s, Subscribe(ch)).state, c)
    {
      assert Accounted(s, c);
    }
  }

  lemma UnsubscribeSafe(s: State, ch: Channel)
    requires Safe(s) && ch in s.live
    ensures Next(s, Unsubscribe(ch)).Running? && Safe(Next(s, Unsubscribe(ch)).state)
  {
    var index := Find(s.inbox, ch);
    if index != -1 { DeletedContents(s.inbox, index); }
    forall c
      ensures Accounted(Next(s, Unsubscribe(ch)).state, c)
    {
      assert Accounted(s, c);
    }
  }

  /** A removal takes one entry and one remover away. */
  lemma RemovalSafe(s: State, ch: Channel, r: State)
    requires Safe(s) && ch in s.pending
    requires 1 <= |r.send.cs| && r.send.cs[0] == REMOVE_SUB
    requires r.inbox == s.inbox && r.live == s.live && r.pending == s.pending - multiset{ch} && r.sending == s.sending
    requires Entries(s.send.cs) == Entries(r.send.cs) + multiset{ch}
    requires r.sending ==> Balanced(r.send, r.start)
    ensures Safe(r)
  {
    forall c
      ensures Accounted(r, c)
    {
      assert Accounted(s, c);
    }
  }

  lemma RemoveIdleSafe(s: State, ch: Channel)
    requires Safe(s) && Enabled(s, RemoveIdle(ch))
    ensures Next(s, RemoveIdle(ch)).Running? && Safe(Next(s, RemoveIdle(ch)).state)
  {
    RemoverFinds(s, ch);
    EntriesDeleted(s.send.cs, Find(s.send.cs, ch));
    RemovalSafe(s, ch, Next(s, RemoveIdle(ch)).state);
  }

  lemma RemoveBusySafe(s: State, ch: Channel)
    requires Safe(s) && Enabled(s, RemoveBusy(ch))
    ensures Next(s, RemoveBusy(ch)).Running? && Safe(Next(s, RemoveBusy(ch)).state)
  {
    RemoverFinds(s, ch);
    var index := Find(s.send.cs, ch);
    EntriesDeleted(s.send.cs, index);
    DropBalanced(s.send, index, s.start);
    RemovalSafe(s, ch, Next(s, RemoveBusy(ch)).state);
  }

  lemma BeginSendSafe(s: State)
    requires Safe(s) && !s.sending
    ensures Safe(Next(s, BeginSend).state)
  {
    var cs := s.send.cs + s.inbox;
    BegunBalanced(cs);
    assert cs[1..] == s.send.cs[1..] + s.inbox;
    forall c
      ensures Accounted(Next(s, BeginSend).state, c)
    {
      assert Accounted(s, c);
    }
  }

  lemma SameEntries(s: State, r: State)
    requires Safe(s) && 1 <= |r.send.cs| && r.send.cs[0] == REMOVE_SUB && Entries(r.send.cs) == Entries(s.send.cs)
    requires r.inbox == s.inbox && r.live == s.live && r.pending == s.pending
    requires r.sending ==> Balanced(r.send, r.start)
    ensures Safe(r)
  {
    forall c
      ensures Accounted(r, c)
    {
      assert Accounted(s, c);
    }
  }

  lemma AcceptSafe(s: State, i: nat)
    requires Safe(s) && Enabled(s, Accept(i))
    ensures Safe(Next(s, Accept(i)).state)
  {
    EntriesSwapped(s.send.cs, s.send.active, i);
    DeliverBalanced(s.send, i, s.start);
    var r := Next(s, Accept(i)).state;
    assert r.send.cs == Swapped(s.send.cs, i, s.send.active - 1);
    SameEntries(s, r);
  }

  /** No atomic step panics, and each keeps the feed safe. */
  lemma NextSafe(s: State, e: Event)
    requires Safe(s) && Enabled(s, e)
    ensures Next(s, e).Running? && Safe(Next(s, e).state)
  {
    match e
    case Subscribe(ch) => SubscribeSafe(s, ch);
    case Unsubscribe(ch) => UnsubscribeSafe(s, ch);
    case RemoveIdle(ch) => RemoveIdleSafe(s, ch);
    case BeginSend => BeginSendSafe(s);
    case Accept(i) => AcceptSafe(s, i);
    case RemoveBusy(ch) => RemoveBusySafe(s, ch);
    case EndSend =>
      forall c
        ensures Accounted(Next(s, e).state, c)
      {
        assert Accounted(s, c);
      }
  }

  /** Events one after the other, as long as each is possible where it comes. */
  ghost function After(s: State, events: seq<Event>): (r: Outcome)
    decreases |events|
  {
    if events == [] || !Enabled(s, events[0]) then Running(s)
    else
      match Next(s, events[0])
      case Panicked => Panicked
      case Running(t) => After(t, events[1..])
  }

  const QUIET := State([], Progress([REMOVE_SUB], 1, NO_ONE), false, multiset{}, multiset{}, multiset{})

  lemma {:induction false} AfterSafe(s: State, events: seq<Event>)
    requires Safe(s)
    ensures After(s, events).Running? && Safe(After(s, events).state)
    decreases |events|
  {
    if events != [] && Enabled(s, events[0]) {
      NextSafe(s, events[0]);
      AfterSafe(Next(s, events[0]).state, events[1..]);
    }
  }

  /** In every interleaving of subscribing, unsubscribing and sending from a new feed, no removal fails to find its
      case. */
  lemma EveryInterleavingSafe(events: seq<Event>)
    ensures After(QUIET, events).Running? && Safe(After(QUIET, events).state)
  {
    assert [REMOVE_SUB][1..] == [];
    AfterSafe(QUIET, events);
  }

  /** When a send ends, whatever came in between, it has served exactly the subscriptions that it began with and
      that did not leave before their turn, and its cases are the served ones that are still subscribed. */
  lemma SendEnds(s: State)
    requires Safe(s) && Enabled(s, EndSend)
    ensures s.send.books.delivered == s.start - s.send.books.leftUnserved && s.send.books.leftUnserved <= s.start
    ensures Entries(s.send.cs) == s.start - s.send.books.leftUnserved - s.send.books.leftServed
  {
    BalancedEnd(s.send, s.start);
  }

  // ---------------------------------------------------------------- Send as one of the interleavings

  /** The events are all possible, one after the other. */
  ghost predicate Possible(s: State, events: seq<Event>)
    decreases |events|
  {
    events == [] ||
    (Enabled(s, events[0]) && Next(s, events[0]).Running? && Possible(Next(s, events[0]).state, events[1..]))
  }

  lemma {:induction false} AfterMore(s: State, events: seq<Event>, e: Event)
    requires Safe(s) && Possible(s, events)
    ensures After(s, events).Running? && Safe(After(s, events).state)
    ensures var t := After(s, events).state;
            Enabled(t, e) ==>
              && Possible(s, events + [e])
              && After(s, events + [e]) == Next(t, e) && Next(t, e).Running? && Safe(Next(t, e).state)
    decreases |events|
  {
    AfterSafe(s, events);
    if events == [] {
      assert (events + [e])[1..] == [];
      if Enabled(s, e) { NextSafe(s, e); }
    } else {
      NextSafe(s, events[0]);
      AfterMore(Next(s, events[0]).state, events[1..], e);
      assert (events + [e])[1..] == events[1..] + [e];
    }
  }

  /** Some events lead from `s` to `t`. */
  ghost predicate Reaches(s: State, t: State)
  {
    exists events :: Possible(s, events) && After(s, events) == Running(t)
  }

  lemma ReachesNext(s: State, t: State, e: Event)
    requires Safe(s) && Reaches(s, t) && Enabled(t, e)
    ensures Safe(t) && Next(t, e).Running? && Reaches(s, Next(t, e).state)
  {
    var events :| Possible(s, events) && After(s, events) == Running(t);
    AfterMore(s, events, e);
    assert Possible(s, events + [e]);
  }

  /** A subscriber that is not in the inbox unsubscribes, and waits for its removal. */
  lemma Unsubscribes(t: State, ch: Channel)
    requires t.inbox == [] && ch in t.live
    ensures Enabled(t, Unsubscribe(ch)) && Next(t, Unsubscribe(ch)).Running?
    ensures var u := Next(t, Unsubscribe(ch)).state;
            u.send == t.send && u.sending == t.sending && u.inbox == [] && ch in u.pending
  {
  }

  lemma IsRemoved(t: State, ch: Channel, i: nat)
    requires t.sending && 1 < t.send.active && ch in t.pending && Allowed(t.send, Drop(i)) && First(t.send.cs, ch, i)
    ensures Enabled(t, RemoveBusy(ch)) && Next(t, RemoveBusy(ch)).Running?
    ensures var u := Next(t, RemoveBusy(ch)).state;
            u.send == Applied(t.send, Drop(i)) && u.sending && u.inbox == t.inbox
  {
    FirstIsFound(t.send.cs, ch, i);
  }

  lemma LiveOrPending(t: State, i: nat)
    requires Safe(t) && 1 <= i < |t.send.cs|
    ensures t.send.cs[i] in t.live || t.send.cs[i] in t.pending
  {
    var ch := t.send.cs[i];
    assert ch == t.send.cs[1..][i - 1];
    assert Accounted(t, ch);
  }

  /** During a send, with an empty inbox, a subscriber with a case can be removed: it is being removed already, or
      unsubscribes now. */
  lemma RemovalRefines(s: State, t: State, i: nat) returns (u: State)
    requires Safe(s) && Safe(t) && Reaches(s, t) && t.sending && t.inbox == [] && 1 < t.send.active
    requires Allowed(t.send, Drop(i)) && First(t.send.cs, t.send.cs[i], i)
    ensures Reaches(s, u) && u.sending && u.inbox == [] && u.send == Applied(t.send, Drop(i))
  {
    var ch := t.send.cs[i];
    u := t;
    if ch !in t.pending {
      LiveOrPending(t, i);
      Unsubscribes(t, ch);
      ReachesNext(s, t, Unsubscribe(ch));
      u := Next(t, Unsubscribe(ch)).state;
    }
    IsRemoved(u, ch, i);
    ReachesNext(s, u, RemoveBusy(ch));
    u := Next(u, RemoveBusy(ch)).state;
  }

  lemma ReachesSafe(s: State, t: State)
    requires Safe(s) && Reaches(s, t)
    ensures Safe(t)
  {
    var events :| Possible(s, events) && After(s, events) == Running(t);
    AfterSafe(s, events);
  }

  /** Whatever `Feed.Send` records is one of the interleavings: the machine can begin a send and come to the same cases
      and the same books. */
  lemma {:induction false} SendRefines(s: State, acts: seq<Act>) returns (t: State)
    requires Safe(s) && !s.sending
    requires Lawful(Begun(s.send.cs + s.inbox), acts) && Orderly(Begun(s.send.cs + s.inbox), acts)
    ensures Reaches(s, t) && t.sending && t.inbox == [] && t.send == Replay(Begun(s.send.cs + s.inbox), acts)
    decreases |acts|
  {
    if acts == [] {
      assert Possible(s, []) && After(s, []) == Running(s);
      ReachesNext(s, s, BeginSend);
      t := Next(s, BeginSend).state;
    } else {
      t := SendRefines(s, acts[..|acts| - 1]);
      ReachesSafe(s, t);
      t := ActRefines(s, t, acts[|acts| - 1]);
    }
  }

  lemma ActRefines(s: State, t: State, act: Act) returns (u: State)
    requires Safe(s) && Safe(t) && Reaches(s, t) && t.sending && t.inbox == []
    requires Allowed(t.send, act) && Proper(t.send, act)
    ensures Reaches(s, u) && u.sending && u.inbox == [] && u.send == Applied(t.send, act)
  {
    match act
    case Deliver(i) =>
      ReachesNext(s, t, Accept(i));
      u := Next(t, Accept(i)).state;
    case Drop(i) =>
      u := RemovalRefines(s, t, i);
  }
}
