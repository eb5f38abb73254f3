/** core/chain_indexer.go: sections of the canonical chain, indexed in the background.

The indexer reads the chain without holding its lock, so the chain may be reorganised between any
two reads.  Each read sees some `Snapshot`; all that snapshots have in common is that a hash
determines its parent, which `parentOf` stands for.
*/
module ChainIndexers {
  import opened HeaderTree

  /** What the chain database answers at one moment. */
  datatype Snapshot = Snapshot(canon: map<nat, Hash>, headers: map<Hash, Header>) {

    function CanonicalHash(n: nat): (h: Hash)
    {
      if n in canon then canon[n] else NO_HASH
    }

    /** Headers are stored under their own hash, which determines the parent. */
    ghost predicate Faithful(parentOf: Hash -> Hash)
    {
      forall h :: h in headers ==> headers[h].hash == h && headers[h].parentHash == parentOf(h)
    }

    /** The canonical hashes are one chain of parents from genesis. */
    ghost predicate Linked(parentOf: Hash -> Hash)
    {
      && (forall n :: n in canon ==> canon[n] != NO_HASH)
      && (forall n {:trigger parentOf(canon[n])} :: n in canon ==>
            if n == 0 then parentOf(canon[n]) == NO_HASH else n - 1 in canon && parentOf(canon[n]) == canon[n - 1])
    }
  }

  /** The hash that `n` parent links lead to. */
  ghost function Ancestor(parentOf: Hash -> Hash, h: Hash, n: nat): (r: Hash)
    decreases n
  {
    if n == 0 then h else Ancestor(parentOf, parentOf(h), n - 1)
  }

  /** Within one linked snapshot ancestors are found by number. */
  lemma {:induction false} CanonicalAncestor(parentOf: Hash -> Hash, view: Snapshot, n: nat, k: nat)
    requires view.Linked(parentOf) && n in view.canon && k <= n
    ensures n - k in view.canon && Ancestor(parentOf, view.canon[n], k) == view.canon[n - k]
    decreases k
  {
    if 0 < k {
      assert n - 1 in view.canon && parentOf(view.canon[n]) == view.canon[n - 1] by {
        var p := parentOf(view.canon[n]);
      }
      CanonicalAncestor(parentOf, view, n - 1, k - 1);
    }
  }

  datatype Result = Processed(head: Hash) | Failed

  /** The hash read at number `n`. */
  function HashRead(sees: nat -> Snapshot, n: nat): (h: Hash)
  {
    sees(2 * n).CanonicalHash(n)
  }

  /** The header at `n` is there, on top of the one before it, and the backend accepts it. */
  predicate Continues(sees: nat -> Snapshot, accepts: nat -> bool, first: nat, oldHead: Hash, n: nat)
    requires first <= n
  {
    var hash, headers := HashRead(sees, n), sees(2 * n + 1).headers;
    && hash != NO_HASH && hash in headers
    && headers[hash].parentHash == (if n == first then oldHead else HashRead(sees, n - 1))
    && accepts(n)
  }

  ghost predicate Continued(sees: nat -> Snapshot, accepts: nat -> bool, first: nat, oldHead: Hash, end: nat)
  {
    forall n: nat {:trigger Continues(sees, accepts, first, oldHead, n)} ::
      first <= n < end ==> Continues(sees, accepts, first, oldHead, n)
  }

  /** processSection past the reset.  The reads at number `n` see `sees(2 * n)` and `sees(2 * n + 1)`; the
      backend accepts or refuses each header. */
  method ProcessSection(ghost parentOf: Hash -> Hash, size: nat, section: nat, oldHead: Hash,
                        sees: nat -> Snapshot, accepts: nat -> bool, commits: bool) returns (r: Result)
    requires 0 < size && forall i :: sees(i).Faithful(parentOf)
    ensures r.Processed? <==> commits && Continued(sees, accepts, section * size, oldHead, section * size + size)
    ensures r.Processed? ==> && r.head == HashRead(sees, section * size + size - 1) != NO_HASH
                             && Ancestor(parentOf, r.head, size) == oldHead
  {
    var lastHead := oldHead;
    var first := section * size;
    var number := first;
    while number < first + size
      invariant first <= number <= first + size
      invariant Ancestor(parentOf, lastHead, number - first) == oldHead
      invariant lastHead == if number == first then oldHead else HashRead(sees, number - 1)
      invariant Continued(sees, accepts, first, oldHead, number)
    {
      ghost var _ := Continues(sees, accepts, first, oldHead, number);
      var hash := HashRead(sees, number);
      if hash == NO_HASH {
        return Failed;
      }
      var view := sees(2 * number + 1);
      assert view.Faithful(parentOf);
      if hash !in view.headers {
        return Failed;
      }
      var header := view.headers[hash];
      if header.parentHash != lastHead {
        return Failed;
      }
      if !accepts(number) {
        return Failed;
      }
      lastHead := header.hash;
      number := number + 1;
    }
    if !commits {
      return Failed;
    }
    assert Continues(sees, accepts, first, oldHead, number - 1);
    r := Processed(lastHead);
  }

  // ---------------------------------------------------------------- the stored sections

  function HeadAt(heads: map<nat, Hash>, i: int): (h: Hash)
  {
    if 0 <= i && i in heads then heads[i] else NO_HASH
  }

  /** Section `i` has a head, the section's length above the head of the section before it. */
  ghost predicate OnPrevious(parentOf: Hash -> Hash, size: nat, heads: map<nat, Hash>, i: nat)
  {
    i in heads && heads[i] != NO_HASH && Ancestor(parentOf, heads[i], size) == HeadAt(heads, i - 1)
  }

  ghost predicate Chained(parentOf: Hash -> Hash, size: nat, heads: map<nat, Hash>, base: nat, stored: nat)
  {
    forall i {:trigger OnPrevious(parentOf, size, heads, i)} ::
      base <= i < stored ==> OnPrevious(parentOf, size, heads, i)
  }

  /** The number of the last block of a section. */
  function SectionEnd(section: nat, size: nat): (n: nat)
    requires 0 < size
  {
    if section == 0 then size - 1 else SectionEnd(section - 1, size) + size
  }

  lemma {:induction false} SectionEndIs(section: nat, size: nat)
    requires 0 < size
    ensures SectionEnd(section, size) == (section + 1) * size - 1
  {
    if section != 0 { SectionEndIs(section - 1, size); }
  }

  /** If the last stored head is canonical, so is every head below it down to `base`. */
  lemma {:induction false} LastVouchesForAll(parentOf: Hash -> Hash, size: nat, heads: map<nat, Hash>, base: nat,
                                             stored: nat, view: Snapshot, i: nat)
    requires 0 < size && Chained(parentOf, size, heads, base, stored) && view.Linked(parentOf)
    requires base <= i < stored && HeadAt(heads, stored - 1) == view.CanonicalHash(SectionEnd(stored - 1, size))
    ensures HeadAt(heads, i) == view.CanonicalHash(SectionEnd(i, size)) && SectionEnd(i, size) in view.canon
    decreases stored - i
  {
    assert OnPrevious(parentOf, size, heads, i);
    if i + 1 < stored {
      LastVouchesForAll(parentOf, size, heads, base, stored, view, i + 1);
      CanonicalAncestor(parentOf, view, SectionEnd(i + 1, size), size);
      assert OnPrevious(parentOf, size, heads, i + 1);
    }
  }

  /** Leaves out the heads of sections `from` to `to`. */
  function Dropped(heads: map<nat, Hash>, from: nat, to: nat): (r: map<nat, Hash>)
  {
    map i | i in heads && !(from <= i < to) :: heads[i]
  }

  lemma DroppedNone(heads: map<nat, Hash>, from: nat, to: nat)
    requires to <= from
    ensures Dropped(heads, from, to) == heads
  {
  }

  lemma DroppedChained(parentOf: Hash -> Hash, size: nat, heads: map<nat, Hash>, base: nat, stored: nat, from: nat)
    requires Chained(parentOf, size, heads, base, stored)
    ensures Chained(parentOf, size, Dropped(heads, from, stored), base, if from < stored then from else stored)
  {
    var r := Dropped(heads, from, stored);
    forall i | base <= i < stored && i < from
      ensures OnPrevious(parentOf, size, r, i)
    {
      assert OnPrevious(parentOf, size, heads, i);
    }
  }

  /** A section on top of a chain of sections, whatever was above it dropped. */
  lemma ChainedNext(parentOf: Hash -> Hash, size: nat, heads: map<nat, Hash>, base: nat, section: nat, head: Hash,
                    stored: nat)
    requires Chained(parentOf, size, heads, base, section) && base <= section && head != NO_HASH
    requires Ancestor(parentOf, head, size) == HeadAt(heads, section - 1)
    ensures Chained(parentOf, size, Dropped(heads[section := head], section + 1, stored), base, section + 1)
  {
    var r := Dropped(heads[section := head], section + 1, stored);
    forall i | base <= i < section + 1
      ensures OnPrevious(parentOf, size, r, i)
    {
      assert i < section ==> OnPrevious(parentOf, size, heads, i);
    }
  }

  /** The head of the section is canonical, when it is compared as the last one. */
  predicate Stands(heads: map<nat, Hash>, size: nat, sees: nat -> Snapshot, section: nat)
    requires 0 < size
  {
    HeadAt(heads, section) == sees(section + 1).CanonicalHash(SectionEnd(section, size))
  }

  /** `n` sections stay: down to the last one whose head is canonical, but not below the checkpoint. */
  ghost predicate Verified(heads: map<nat, Hash>, stored: nat, checkpoint: nat, size: nat, sees: nat -> Snapshot,
                           n: nat)
    requires 0 < size
  {
    && n <= stored && (n == stored || checkpoint <= n)
    && (checkpoint < n ==> Stands(heads, size, sees, n - 1))
    && forall i: nat {:trigger Stands(heads, size, sees, i)} :: n <= i < stored ==> !Stands(heads, size, sees, i)
  }

  /** The loop of verifyLastHead: goes down while the last head is not canonical.  The chain may change between two
      rounds; the head of the last of `n` sections is compared with what `sees(n)` says. */
  method VerifyRows(heads: map<nat, Hash>, stored: nat, checkpoint: nat, size: nat, sees: nat -> Snapshot)
      returns (n: nat)
    requires 0 < size
    ensures Verified(heads, stored, checkpoint, size, sees, n)
  {
    n := stored;
    while 0 < n && checkpoint < n
      invariant n <= stored && (n == stored || checkpoint <= n)
      invariant forall i: nat {:trigger Stands(heads, size, sees, i)} ::
                  n <= i < stored ==> !Stands(heads, size, sees, i)
    {
      if HeadAt(heads, n - 1) == sees(n).CanonicalHash(SectionEnd(n - 1, size)) {
        assert Stands(heads, size, sees, n - 1);
        return;
      }
      n := n - 1;
    }
  }

  function Least(a: nat, b: nat): (n: nat)
  {
    if a < b then a else b
  }

  /** The first `n` sections have enough confirmations when the chain is at `head`. */
  predicate Confirmed(n: nat, size: nat, confirms: nat, head: nat)
  {
    n * size + confirms <= head + 1
  }

  lemma ConfirmedMost(n: nat, size: nat, confirms: nat, head: nat)
    requires 0 < size && confirms <= head
    ensures Confirmed(n, size, confirms, head) <==> n <= (head + 1 - confirms) / size
  {
    var blocks := head + 1 - confirms;
    var most := blocks / size;
    assert most * size <= blocks < (most + 1) * size;
    if n <= most { Scales(n, most, size); }
    if most < n { Scales(most + 1, n, size); }
  }

  lemma Scales(a: nat, b: nat, size: nat)
    requires a <= b
    ensures a * size <= b * size
  {
  }

  lemma ConfirmedUpTo(size: nat, confirms: nat, head: nat)
    requires 0 < size && confirms <= head
    ensures forall n: nat {:trigger Confirmed(n, size, confirms, head)} ::
              Confirmed(n, size, confirms, head) <==> n <= (head + 1 - confirms) / size
  {
    forall n: nat
      ensures Confirmed(n, size, confirms, head) <==> n <= (head + 1 - confirms) / size
    {
      ConfirmedMost(n, size, confirms, head);
    }
  }

  lemma ConfirmedNone(n: nat, size: nat, confirms: nat, head: nat)
    requires 0 < size && head < confirms && Confirmed(n, size, confirms, head)
    ensures n == 0
  {
    if 0 < n { Scales(1, n, size); }
  }

  /** What updateLoop remembers while it processes a section without the lock; or the backend has refused to start. */
  datatype Ticket = Idle | Processing(section: nat, oldHead: Hash) | Refused

  class ChainIndexer {
    const sectionSize: nat
    const confirmsReq: nat
    ghost const parentOf: Hash -> Hash
    var storedSections: nat
    var knownSections: nat
    var checkpointSections: nat
    var checkpointHead: Hash
    var heads: map<nat, Hash>
    var ticket: Ticket
    ghost var base: nat   // where the present chain of sections starts

    ghost predicate Valid()
      reads this
    {
      && 0 < sectionSize
      && (forall i :: i in heads ==> i < storedSections)
      && base <= storedSections && base <= checkpointSections
      && Chained(parentOf, sectionSize, heads, base, storedSections)
      && (ticket.Processing? ==> Awaited(ticket.section, ticket.oldHead))
    }

    /** No section beyond the one in work was stored meanwhile, except for a checkpoint; and a section that is worked
        on without the head below it is not above the checkpoint. */
    ghost predicate Awaited(section: nat, oldHead: Hash)
      reads this
    {
      && (storedSections <= section || base == storedSections == checkpointSections)
      && (oldHead == NO_HASH ==> section <= storedSections && section <= checkpointSections)
      && (section == 0 ==> oldHead == NO_HASH)
    }

    constructor (size: nat, confirms: nat, ghost parentOf: Hash -> Hash)
      requires 0 < size
      ensures Valid() && sectionSize == size && confirmsReq == confirms && this.parentOf == parentOf
      ensures storedSections == knownSections == checkpointSections == 0 && ticket == Idle
    {
      sectionSize, confirmsReq, this.parentOf := size, confirms, parentOf;
      storedSections, knownSections, checkpointSections, checkpointHead := 0, 0, 0, NO_HASH;
      heads, ticket, base := map[], Idle, 0;
    }

    /** An indexer that comes up with the sections of an earlier run, which had no checkpoint. */
    constructor Load(size: nat, confirms: nat, ghost parentOf: Hash -> Hash, stored: nat, heads: map<nat, Hash>)
      requires 0 < size && Chained(parentOf, size, heads, 0, stored) && forall i :: i in heads ==> i < stored
      ensures Valid() && sectionSize == size && confirmsReq == confirms && this.parentOf == parentOf
      ensures storedSections == stored && this.heads == heads
      ensures knownSections == checkpointSections == 0 && ticket == Idle
    {
      sectionSize, confirmsReq, this.parentOf := size, confirms, parentOf;
      storedSections, knownSections, checkpointSections, checkpointHead := stored, 0, 0, NO_HASH;
      this.heads, ticket, base := heads, Idle, 0;
    }

    /** setValidSections */
    method SetValidSections(sections: nat)
      modifies this`storedSections, this`heads
      ensures storedSections == sections && heads == Dropped(old(heads), sections, old(storedSections))
    {
      DroppedNone(heads, storedSections, storedSections);
      while sections < storedSections
        invariant storedSections <= old(storedSections)
        invariant sections < old(storedSections) ==> sections <= storedSections
        invariant old(storedSections) <= sections ==> storedSections == old(storedSections)
        invariant heads == Dropped(old(heads), storedSections, old(storedSections))
      {
        storedSections := storedSections - 1;
        heads := heads - {storedSections};
      }
      if old(storedSections) <= sections { DroppedNone(old(heads), sections, old(storedSections)); }
      storedSections := sections;
    }

    /** Rolls back to `sections`, which is not below the base. */
    method RollBack(sections: nat)
      requires Valid() && base <= sections <= storedSections && Least(checkpointSections, storedSections) <= sections
      modifies this`storedSections, this`heads
      ensures Valid() && storedSections == sections && heads == Dropped(old(heads), sections, old(storedSections))
    {
      DroppedChained(parentOf, sectionSize, heads, base, storedSections, sections);
      SetValidSections(sections);
    }

    /** AddCheckpoint, also while a section is processed. */
    method AddCheckpoint(section: nat, shead: Hash)
      requires Valid()
      modifies this
      ensures Valid() && ticket == old(ticket) && knownSections == old(knownSections)
      ensures checkpointSections == if old(checkpointSections) >= section + 1 || section < old(storedSections)
                                    then old(checkpointSections) else section + 1
      ensures checkpointSections != old(checkpointSections) ==>
                storedSections == checkpointSections && heads == old(heads)[section := shead] && checkpointHead == shead
      ensures checkpointSections == old(checkpointSections) ==> unchanged(this)
    {
      if section + 1 <= checkpointSections || section < storedSections {
        return;
      }
      checkpointSections, checkpointHead := section + 1, shead;
      heads := heads[section := shead];
      DroppedNone(heads, section + 1, storedSections);
      SetValidSections(section + 1);
      base := section + 1;
    }

    /** newHead after a reorg to `head`: forgets exactly the sections that do not end at or below it, except that the
        checkpoint stays stored; and if the checkpoint itself does not end there, no section is known. */
    method ReorgedTo(head: nat)
      requires Valid()
      modifies this`storedSections, this`knownSections, this`heads
      ensures Valid()
      ensures storedSections <= old(storedSections) && heads == Dropped(old(heads), storedSections, old(storedSections))
      ensures checkpointSections < storedSections ==> Confirmed(storedSections, sectionSize, 0, head)
      ensures forall n: nat ::
                n <= old(storedSections) && (n <= checkpointSections || Confirmed(n, sectionSize, 0, head)) ==>
                  n <= storedSections
      ensures knownSections <= old(knownSections)
      ensures 0 < knownSections ==>
                Confirmed(knownSections, sectionSize, 0, head) && Confirmed(checkpointSections, sectionSize, 0, head)
      ensures Confirmed(checkpointSections, sectionSize, 0, head) ==>
                forall n: nat :: n <= old(knownSections) && Confirmed(n, sectionSize, 0, head) ==> n <= knownSections
    {
      ConfirmedUpTo(sectionSize, 0, head);
      var known := (head + 1) / sectionSize;
      var stored := known;
      if known < checkpointSections {
        known := 0;
      }
      if stored < checkpointSections {
        stored := checkpointSections;
      }
      if known < knownSections {
        knownSections := known;
      }
      DroppedNone(heads, storedSections, storedSections);
      if stored < storedSections {
        RollBack(stored);
      }
    }

    /** The synced chain has the checkpoint. */
    ghost predicate Matches(view: Snapshot)
      requires Valid()
      reads this
    {
      0 < checkpointSections ==> view.CanonicalHash(SectionEnd(checkpointSections - 1, sectionSize)) == checkpointHead
    }

    /** newHead without a reorg: known sections never get fewer.  New ones have enough confirmations, and the first of
        them only come with the checkpoint on the synced chain; then all that have enough confirmations are known. */
    method ExtendedTo(head: nat, view: Snapshot)
      requires Valid()
      modifies this`knownSections
      ensures Valid()
      ensures old(knownSections) <= knownSections
      ensures old(knownSections) < knownSections ==>
                && Confirmed(knownSections, sectionSize, confirmsReq, head) && checkpointSections <= knownSections
                && (old(knownSections) < checkpointSections ==> Matches(view))
      ensures checkpointSections <= old(knownSections) || Matches(view) ==>
                forall n: nat :: checkpointSections <= n && Confirmed(n, sectionSize, confirmsReq, head) ==>
                  n <= knownSections
    {
      assert forall n: nat :: confirmsReq <= head && Confirmed(n, sectionSize, confirmsReq, head) ==>
          n <= (head + 1 - confirmsReq) / sectionSize by {
        forall n: nat | confirmsReq <= head && Confirmed(n, sectionSize, confirmsReq, head)
          ensures n <= (head + 1 - confirmsReq) / sectionSize
        {
          ConfirmedMost(n, sectionSize, confirmsReq, head);
        }
      }
      forall n: nat | head < confirmsReq && Confirmed(n, sectionSize, confirmsReq, head)
        ensures n == 0
      {
        ConfirmedNone(n, sectionSize, confirmsReq, head);
      }
      if confirmsReq <= head {
        var sections := (head + 1 - confirmsReq) / sectionSize;
        if sections < checkpointSections {
          sections := 0;
        }
        if knownSections < sections {
          if knownSections < checkpointSections {
            if view.CanonicalHash(SectionEnd(checkpointSections - 1, sectionSize)) != checkpointHead {
              return;
            }
          }
          knownSections := sections;
          ConfirmedMost(sections, sectionSize, confirmsReq, head);
        }
      }
    }

    /** verifyLastHead: rolls back sections until the last stored head is canonical. */
    method VerifyLastHead(sees: nat -> Snapshot)
      requires Valid()
      modifies this`storedSections, this`heads
      ensures Valid()
      ensures Verified(old(heads), old(storedSections), checkpointSections, sectionSize, sees, storedSections)
      ensures heads == Dropped(old(heads), storedSections, old(storedSections))
    {
      var n := VerifyRows(heads, storedSections, checkpointSections, sectionSize, sees);
      DroppedNone(heads, storedSections, storedSections);
      if n < storedSections {
        RollBack(n);
      }
    }

    /** However the chain changed while sections were processed or are verified: every stored section from the
        checkpoint up is canonical on the chain that the last head was compared with. */
    method Sections(sees: nat -> Snapshot) returns (sections: nat, head: Hash)
      requires Valid()
      modifies this`storedSections, this`heads
      ensures Valid() && sections == storedSections
      ensures head == HeadAt(heads, sections - 1)
      ensures Verified(old(heads), old(storedSections), checkpointSections, sectionSize, sees, storedSections)
      ensures var view := sees(sections);
              view.Linked(parentOf) ==> forall i :: checkpointSections <= i < sections ==>
                SectionEnd(i, sectionSize) in view.canon && HeadAt(heads, i) == view.canon[SectionEnd(i, sectionSize)]
    {
      VerifyLastHead(sees);
      sections, head := storedSections, HeadAt(heads, storedSections - 1);
      ghost var view := sees(sections);
      if view.Linked(parentOf) {
        forall i | checkpointSections <= i < sections
          ensures SectionEnd(i, sectionSize) in view.canon && HeadAt(heads, i) == view.canon[SectionEnd(i, sectionSize)]
        {
          LastVouchesForAll(parentOf, sectionSize, heads, base, storedSections, view, i);
        }
      }
    }

    /** The first critical section of updateLoop: picks the section to process and remembers the head below it. */
    method BeginUpdate(sees: nat -> Snapshot)
      requires Valid() && ticket == Idle
      modifies this`storedSections, this`heads, this`ticket
      ensures Valid()
      ensures ticket.Processing? <==> old(storedSections) < knownSections
      ensures ticket.Idle? ==> storedSections == old(storedSections) && heads == old(heads)
      ensures ticket.Processing? ==>
                && Verified(old(heads), old(storedSections), checkpointSections, sectionSize, sees, storedSections)
                && heads == Dropped(old(heads), storedSections, old(storedSections))
                && ticket == Processing(storedSections, HeadAt(heads, storedSections - 1))
    {
      if storedSections < knownSections {
        VerifyLastHead(sees);
        var section, oldHead := storedSections, NO_HASH;
        assert base < section ==> OnPrevious(parentOf, sectionSize, heads, section - 1);
        if 0 < section {
          oldHead := HeadAt(heads, section - 1);
        }
        ticket := Processing(section, oldHead);
      }
    }

    /** The backend refuses to reset: all sections are dropped, without the lock. */
    method ResetFails()
      requires Valid() && ticket.Processing?
      modifies this`storedSections, this`heads, this`base, this`ticket
      ensures Valid() && storedSections == 0 && heads == map[] && ticket == Refused
    {
      SetValidSections(0);
      base, ticket := 0, Refused;
    }

    /** Stores a section on top of the one below it; a checkpoint that was added above it meanwhile is dropped. */
    method Commit(section: nat, head: Hash)
      requires Valid() && ticket.Processing? && section == ticket.section <= storedSections && head != NO_HASH
      requires Ancestor(parentOf, head, sectionSize) == HeadAt(heads, section - 1)
      modifies this`storedSections, this`heads, this`ticket, this`base
      ensures Valid() && ticket == Idle && storedSections == section + 1
      ensures heads == Dropped(old(heads)[section := head], section + 1, old(storedSections))
    {
      if section < storedSections {
        base := section;
      }
      ChainedNext(parentOf, sectionSize, heads, base, section, head, storedSections);
      heads := heads[section := head];
      SetValidSections(section + 1);
      ticket := Idle;
    }

    /** The head below the section is still the one that was processed on. */
    predicate InPlace(section: nat, oldHead: Hash)
      reads this
    {
      section == 0 || HeadAt(heads, section - 1) == oldHead
    }

    /** The second critical section: commits the section if the head below it is still the one that was processed on.
        A committed section never leaves a gap below it. */
    method FinishUpdate(r: Result, sees: nat -> Snapshot)
      requires Valid() && !ticket.Idle?
      requires r.Processed? ==>
                 ticket.Processing? && r.head != NO_HASH && Ancestor(parentOf, r.head, sectionSize) == ticket.oldHead
      modifies this`storedSections, this`knownSections, this`heads, this`ticket, this`base
      ensures Valid() && ticket == Idle
      ensures if r.Processed? && old(InPlace(ticket.section, ticket.oldHead))
              then && old(ticket).section <= old(storedSections) && storedSections == old(ticket).section + 1
                   && heads == Dropped(old(heads)[old(ticket).section := r.head], storedSections, old(storedSections))
              else && Verified(old(heads), old(storedSections), checkpointSections, sectionSize, sees, storedSections)
                   && heads == Dropped(old(heads), storedSections, old(storedSections))
                   && knownSections == storedSections
    {
      if r.Processed? && (ticket.section == 0 || ticket.oldHead == HeadAt(heads, ticket.section - 1)) {
        Commit(ticket.section, r.head);
      } else {
        VerifyLastHead(sees);
        knownSections := storedSections;
      }
      ticket := Idle;
    }

    /** Any interleaving of the critical sections with each other and with a changing chain keeps the stored
        heads from the checkpoint up one chain. */
    method Run(ops: seq<Op>)
      requires Valid()
      requires forall k, i :: 0 <= k < |ops| && ops[k].Finish? ==> ops[k].sees(i).Faithful(parentOf)
      modifies this
      ensures Valid()
    {
      for k := 0 to |ops|
        invariant Valid()
      {
        match ops[k]
        case Head(head, true, _) => ReorgedTo(head);
        case Head(head, false, view) => ExtendedTo(head, view);
        case Query(sees) => var _, _ := Sections(sees);
        case Begin(sees) => if ticket == Idle { BeginUpdate(sees); }
        case Checkpoint(section, shead) => AddCheckpoint(section, shead);
        case Refuse => if ticket.Processing? { ResetFails(); }
        case Finish(sees, accepts, commits, later) =>
          if ticket != Idle {
            var r := Failed;
            if ticket.Processing? {
              r := ProcessSection(parentOf, sectionSize, ticket.section, ticket.oldHead, sees, accepts, commits);
            }
            FinishUpdate(r, later);
          }
      }
    }
  }

  /** What can happen to the indexer.  The reads of a section are those of `Finish`, which other operations may
      precede. */
  datatype Op =
    | Head(head: nat, reorg: bool, view: Snapshot)
    | Query(sees: nat -> Snapshot)
    | Begin(sees: nat -> Snapshot)
    | Checkpoint(section: nat, shead: Hash)
    | Refuse
    | Finish(sees: nat -> Snapshot, accepts: nat -> bool, commits: bool, later: nat -> Snapshot)

  // ---------------------------------------------------------------- checkpoints during processing

  /** The zero hash above genesis, and otherwise the next smaller one. */
  function Below(h: Hash): (p: Hash)
  {
    if h == 0 then 0 else h - 1
  }

  function Single(n: nat): (view: Snapshot)
  {
    Snapshot(map[0 := 1], map[1 := Header(1, 0, 0, 1, 0)])
  }

  /** Section 0 of a chain that is one block long, in sections of one block. */
  method ProcessGenesis() returns (r: Result)
    ensures r == Processed(1) && Ancestor(Below, 1, 1) == NO_HASH
  {
    r := ProcessSection(Below, 1, 0, NO_HASH, Single, n => true, true);
    assert Continues(Single, n => true, 0, NO_HASH, 0);
    assert Continued(Single, n => true, 0, NO_HASH, 1);
  }

  /** A checkpoint does not stay: added while section 0 is processed, it goes when that section is committed. */
  method CheckpointIsUndone() returns (c: ChainIndexer)
    ensures c.Valid() && c.checkpointSections == 4 && c.storedSections == 1 && 3 !in c.heads
  {
    var r := ProcessGenesis();
    c := new ChainIndexer(1, 0, Below);
    c.ExtendedTo(0, Single(0));
    assert Confirmed(1, 1, 0, 0);
    c.BeginUpdate(Single);
    c.AddCheckpoint(3, 9);
    c.FinishUpdate(r, Single);
  }
}
