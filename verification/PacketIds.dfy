/** The 16-bit packet identifier pool: a sorted list of identifiers in use and
    the identifier handed out last. */
module PacketIds {

  const ID_SPACE := 0x1_0000
  const MAX_ID := 0xFFFF

  /** `capacity` is the largest number of entries the list can hold. */
  datatype Pool = Pool(ids: seq<nat>, last: nat, capacity: nat)

  ghost predicate Sorted(ids: seq<nat>) {
    forall i, j :: 0 <= i < j < |ids| ==> ids[i] < ids[j]
  }

  ghost predicate ValidPool(p: Pool) {
    && Sorted(p.ids)
    && (forall i :: 0 <= i < |p.ids| ==> p.ids[i] <= MAX_ID)
    && p.last <= MAX_ID
  }

  /** Where `x` belongs in a sorted list. */
  function LowerBound(ids: seq<nat>, x: nat): (k: nat)
    ensures k <= |ids|
    ensures forall i :: 0 <= i < k ==> ids[i] < x
    ensures Sorted(ids) ==> forall i :: k <= i < |ids| ==> x <= ids[i]
  {
    if ids == [] || x <= ids[0] then 0 else 1 + LowerBound(ids[1..], x)
  }

  function Insert(ids: seq<nat>, x: nat): seq<nat> {
    var k := LowerBound(ids, x);
    ids[..k] + [x] + ids[k..]
  }

  function Delete(ids: seq<nat>, x: nat): seq<nat> {
    var k := LowerBound(ids, x);
    if k < |ids| && ids[k] == x then ids[..k] + ids[k + 1..] else ids
  }

  /** The `k`-th identifier tried when the search starts at `start`. */
  function Candidate(start: nat, k: nat): nat {
    (start + k) % ID_SPACE
  }

  function SearchStart(last: nat): (start: nat)
    ensures 0 < start <= MAX_ID
    ensures last < MAX_ID ==> start == last + 1
    ensures last == MAX_ID ==> start == 1
  {
    var next := (last + 1) % ID_SPACE;
    if next == 0 then 1 else next
  }

  predicate Exhausted(p: Pool) {
    p.capacity <= |p.ids| || MAX_ID <= |p.ids|
  }

  /** Number of taken identifiers met from the `k`-th candidate on before the
      first free one; a list of n identifiers blocks at most n candidates. */
  function Misses(ids: seq<nat>, start: nat, k: nat): (r: nat)
    requires k <= |ids|
    ensures k <= r <= |ids|
    ensures r < |ids| ==> Candidate(start, r) !in ids
    ensures forall j :: k <= j < r ==> Candidate(start, j) in ids
    decreases |ids| - k
  {
    if k == |ids| || Candidate(start, k) !in ids then k else Misses(ids, start, k + 1)
  }

  /** The search as the library runs it: step to the successor while taken. */
  function Probe(ids: seq<nat>, next: nat, k: nat): nat
    requires k <= |ids|
    decreases |ids| - k
  {
    if k == |ids| || next !in ids then next else Probe(ids, Successor(next), k + 1)
  }

  function Successor(id: nat): nat {
    (id + 1) % ID_SPACE
  }

  /** Allocation: the pool afterwards and the identifier (0 on exhaustion). */
  function Alloc(p: Pool): (Pool, nat) {
    if Exhausted(p) then (p, 0) else
      var start := SearchStart(p.last);
      var id := Probe(p.ids, start, 0);
      (p.(ids := Insert(p.ids, id), last := id), id)
  }

  function Release(p: Pool, id: nat): Pool {
    if id == 0 then p else p.(ids := Delete(p.ids, id))
  }

  /** The first `m` candidates are `m` different identifiers. */
  ghost function Tried(start: nat, m: nat): (r: set<nat>)
    requires m <= ID_SPACE
    ensures |r| == m
    ensures forall x :: x in r <==> exists j :: 0 <= j < m && x == Candidate(start, j)
  {
    if m == 0 then {} else
      assert forall j :: 0 <= j < m - 1 ==> Candidate(start, j) != Candidate(start, m - 1);
      Tried(start, m - 1) + {Candidate(start, m - 1)}
  }

  ghost function Members(ids: seq<nat>): (r: set<nat>)
    ensures |r| <= |ids|
    ensures forall x: nat :: x in r <==> x in ids
  {
    if ids == [] then {} else Members(ids[1..]) + {ids[0]}
  }

  lemma NextCandidate(start: nat, k: nat)
    ensures Successor(Candidate(start, k)) == Candidate(start, k + 1)
  {
  }

  lemma {:induction false} ProbeFollowsCandidates(ids: seq<nat>, start: nat, k: nat)
    requires k <= |ids|
    ensures Probe(ids, Candidate(start, k), k) == Candidate(start, Misses(ids, start, k))
    decreases |ids| - k
  {
    if k < |ids| {
      NextCandidate(start, k);
      ProbeFollowsCandidates(ids, start, k + 1);
    }
  }

  /** Pigeonhole: the search meets a free identifier. */
  lemma SearchSucceeds(ids: seq<nat>, start: nat)
    requires |ids| < ID_SPACE
    requires start <= MAX_ID
    ensures Probe(ids, start, 0) == Candidate(start, Misses(ids, start, 0))
    ensures Probe(ids, start, 0) !in ids
  {
    ProbeFollowsCandidates(ids, start, 0);
    assert Candidate(start, 0) == start;
    MissesEnd(ids, start);
  }

  lemma MissesEnd(ids: seq<nat>, start: nat)
    requires |ids| < ID_SPACE
    ensures Candidate(start, Misses(ids, start, 0)) !in ids
  {
    var r := Misses(ids, start, 0);
    if Candidate(start, r) in ids {
      assert r == |ids|;
      AllTried(ids, start);
      assert false;
    }
  }

  lemma AllTried(ids: seq<nat>, start: nat)
    requires |ids| < ID_SPACE
    ensures exists j :: 0 <= j <= |ids| && Candidate(start, j) !in ids
  {
    var tried := Tried(start, |ids| + 1);
    if tried <= Members(ids) {
      SubsetSize(tried, Members(ids));
      assert false;
    } else {
      var x :| x in tried && x !in Members(ids);
    }
  }

  lemma {:induction false} SubsetSize(a: set<nat>, b: set<nat>)
    requires a <= b
    ensures |a| <= |b|
  {
    if a != {} {
      var x :| x in a;
      SubsetSize(a - {x}, b - {x});
    }
  }

  lemma InsertAt(ids: seq<nat>, x: nat)
    requires Sorted(ids) && x !in ids
    ensures var k := LowerBound(ids, x); var r := Insert(ids, x);
            && |r| == |ids| + 1
            && (forall i :: 0 <= i < k ==> r[i] == ids[i] < x)
            && r[k] == x
            && (forall i :: k < i < |r| ==> r[i] == ids[i - 1] && x < r[i])
  {
    var k := LowerBound(ids, x);
    forall i | k <= i < |ids| ensures x < ids[i] {
      assert ids[i] in ids;
    }
  }

  lemma InsertSorted(ids: seq<nat>, x: nat)
    requires Sorted(ids) && x !in ids
    ensures Sorted(Insert(ids, x))
    ensures forall y :: y in Insert(ids, x) <==> y in ids || y == x
  { }

  lemma InsertedBound(ids: seq<nat>, x: nat)
    requires Sorted(ids) && x !in ids
    ensures LowerBound(Insert(ids, x), x) == LowerBound(ids, x)
  {
    InsertAt(ids, x);
    InsertSorted(ids, x);
    LowerBoundIs(Insert(ids, x), x, LowerBound(ids, x));
  }

  lemma DeleteInserted(ids: seq<nat>, x: nat)
    requires Sorted(ids) && x !in ids
    ensures Delete(Insert(ids, x), x) == ids
  {
    var k := LowerBound(ids, x);
    InsertedBound(ids, x);
    CutInserted(ids, k, x);
  }

  lemma CutInserted(ids: seq<nat>, k: nat, x: nat)
    requires k <= |ids|
    ensures var r := ids[..k] + [x] + ids[k..]; r[k] == x && r[..k] + r[k + 1..] == ids
  {
    var r := ids[..k] + [x] + ids[k..];
    assert r[..k] == ids[..k];
    assert r[k + 1..] == ids[k..];
  }

  lemma LowerBoundIs(ids: seq<nat>, x: nat, k: nat)
    requires Sorted(ids) && k <= |ids|
    requires forall i :: 0 <= i < k ==> ids[i] < x
    requires k < |ids| ==> x <= ids[k]
    ensures LowerBound(ids, x) == k
  {
    if k > 0 {
      LowerBoundIs(ids[1..], x, k - 1);
    }
  }

  lemma LookupFinds(ids: seq<nat>, x: nat)
    requires Sorted(ids)
    ensures var k := LowerBound(ids, x); k < |ids| && ids[k] == x <==> x in ids
  {
  }

  lemma AppendIsInsert(ids: seq<nat>, x: nat)
    requires Sorted(ids)
    requires ids == [] || ids[|ids| - 1] < x
    ensures x !in ids && Insert(ids, x) == ids + [x]
  {
    LowerBoundIs(ids, x, |ids|);
  }

  lemma DeleteSorted(ids: seq<nat>, x: nat)
    requires Sorted(ids)
    ensures Sorted(Delete(ids, x))
    ensures forall y :: y in Delete(ids, x) <==> y in ids && y != x
  {
    var k := LowerBound(ids, x);
    var r := Delete(ids, x);
    if k < |ids| && ids[k] == x {
      assert forall i :: 0 <= i < |r| ==> r[i] == if i < k then ids[i] else ids[i + 1];
      forall y ensures y in r <==> y in ids && y != x {
        if y in ids && y != x {
          var i :| 0 <= i < |ids| && ids[i] == y;
          assert r[if i < k then i else i - 1] == y;
        }
      }
    } else {
      assert x !in ids;
    }
  }

  /** Allocation takes the first identifier, in cyclic order from the one after
      the last, that nobody holds; nothing else changes. */
  lemma AllocTakesFirstFree(p: Pool)
    requires ValidPool(p) && |p.ids| < p.capacity && |p.ids| < 65535
    ensures var (q, id) := Alloc(p); var start := SearchStart(p.last);
            && ValidPool(q)
            && id !in p.ids && id <= MAX_ID && q.last == id
            && (forall y :: y in q.ids <==> y in p.ids || y == id)
            && (exists k :: 0 <= k <= |p.ids| && id == Candidate(start, k)
                            && forall j :: 0 <= j < k ==> Candidate(start, j) in p.ids)
  {
    var start := SearchStart(p.last);
    var k := Misses(p.ids, start, 0);
    SearchSucceeds(p.ids, start);
    var id := Candidate(start, k);
    InsertSorted(p.ids, id);
    var (q, got) := Alloc(p);
    assert got == id;
    forall i | 0 <= i < |q.ids| ensures q.ids[i] <= MAX_ID {
      assert q.ids[i] in q.ids;
    }
  }

  /** 0 is not listed and every identifier from the start point up to 65535 is. */
  ghost predicate WrapsToZero(p: Pool) {
    0 !in p.ids && forall x :: SearchStart(p.last) <= x <= MAX_ID ==> x in p.ids
  }

  /** Exactly when the caller gets 0: the pool is full, or every identifier from
      the start point up to 65535 is taken and 0 itself is not listed. */
  lemma AllocGivesZeroIff(p: Pool)
    requires ValidPool(p)
    ensures Alloc(p).1 == 0 <==>
            |p.ids| >= p.capacity || |p.ids| >= 65535 || WrapsToZero(p)
  {
    if !Exhausted(p) {
      var start := SearchStart(p.last);
      SearchSucceeds(p.ids, start);
      MissesReachZero(p.ids, start);
    }
  }

  lemma MissesReachZero(ids: seq<nat>, start: nat)
    requires 0 < start <= MAX_ID
    requires |ids| < ID_SPACE
    ensures Candidate(start, Misses(ids, start, 0)) == 0 <==>
            0 !in ids && forall x :: start <= x <= MAX_ID ==> x in ids
  {
    var k := Misses(ids, start, 0);
    SearchSucceeds(ids, start);
    var wrap := ID_SPACE - start;
    assert Candidate(start, wrap) == 0;
    if k < wrap {
      assert Candidate(start, k) == start + k;
    } else {
      forall x | start <= x <= MAX_ID ensures x in ids {
        assert Candidate(start, x - start) == x;
      }
    }
  }

  /** With fewer than 65535 listed, room in the list and a free identifier from the
      start point on, the caller gets one that nobody holds. */
  lemma AllocSucceeds(p: Pool, x: nat)
    requires ValidPool(p) && |p.ids| < p.capacity && |p.ids| < 65535
    requires SearchStart(p.last) <= x <= 65535 && x !in p.ids
    ensures Alloc(p).1 != 0 && Alloc(p).1 !in p.ids && Alloc(p).1 in Alloc(p).0.ids
  {
    AllocGivesZeroIff(p);
    AllocTakesFirstFree(p);
  }

  /** Releasing what was just allocated restores the list, unless the search of a
      pool that is not full wraps to 0. */
  lemma ReleaseUndoesAlloc(p: Pool)
    requires ValidPool(p)
    ensures var (q, id) := Alloc(p);
            Release(q, id).ids == p.ids <==> |p.ids| >= p.capacity || |p.ids| >= 65535 || !WrapsToZero(p)
  {
    AllocGivesZeroIff(p);
    if !Exhausted(p) {
      AllocTakesFirstFree(p);
      DeleteInserted(p.ids, Alloc(p).1);
    }
  }

  /** One identifier is allocated and given back. */
  function Round(p: Pool): Pool {
    var (q, id) := Alloc(p);
    Release(q, id)
  }

  function Iterate(f: Pool -> Pool, p: Pool, k: nat): Pool {
    if k == 0 then p else f(Iterate(f, p, k - 1))
  }

  lemma RoundIs(p: Pool, next: nat)
    requires ValidPool(p) && !Exhausted(p) && next == SearchStart(p.last) && next !in p.ids
    ensures Round(p) == p.(last := next)
  {
    assert Probe(p.ids, next, 0) == next;
    DeleteInserted(p.ids, next);
  }

  /** Nothing is taken, or the highest identifier alone. */
  predicate Idle(p: Pool) {
    (p.ids == [] || p.ids == [MAX_ID]) && p.capacity >= 2 && p.last <= MAX_ID
  }

  lemma IdleRound(p: Pool)
    requires Idle(p) && p.last < MAX_ID - 1
    ensures Round(p) == p.(last := p.last + 1)
  {
    RoundIs(p, p.last + 1);
  }

  /** `f` moves an idle pool on to the next identifier. */
  ghost predicate Advances(f: Pool -> Pool) {
    forall q {:trigger f(q)} :: Idle(q) && q.last < MAX_ID - 1 ==> f(q) == q.(last := q.last + 1)
  }

  lemma {:induction false} IdleRounds(f: Pool -> Pool, p: Pool, k: nat)
    requires Advances(f) && Idle(p) && p.last + k < MAX_ID
    ensures Iterate(f, p, k) == p.(last := p.last + k)
  {
    if k > 0 {
      IdleRounds(f, p, k - 1);
    }
  }

  lemma RoundAdvances()
    ensures Advances(Round)
  {
    forall q | Idle(q) && q.last < MAX_ID - 1 ensures Round(q) == q.(last := q.last + 1) {
      IdleRound(q);
    }
  }

  /** From start-up, with room for two identifiers: 65534 rounds, keep the next
      identifier, 65534 more rounds. The next allocation hands out 0, and
      releasing that 0 leaves it listed for good. */
  lemma ZeroIsLeaked(capacity: nat, n: nat)
    requires capacity >= 2 && n == MAX_ID - 1
    ensures var kept := Alloc(Iterate(Round, Pool([], 0, capacity), n));
            var (q, id) := Alloc(Iterate(Round, kept.0, n));
            kept.1 == MAX_ID && id == 0 && Release(q, id).ids == [0, MAX_ID]
  {
    FirstTurn(capacity, n);
    SecondTurn(capacity, n);
    HighestTaken(capacity);
    WrapAround(capacity);
  }

  lemma FirstTurn(capacity: nat, n: nat)
    requires capacity >= 2 && n == MAX_ID - 1
    ensures Iterate(Round, Pool([], 0, capacity), n) == Pool([], n, capacity)
  {
    RoundAdvances();
    IdleRounds(Round, Pool([], 0, capacity), n);
  }

  lemma SecondTurn(capacity: nat, n: nat)
    requires capacity >= 2 && n == MAX_ID - 1
    ensures Iterate(Round, Pool([MAX_ID], MAX_ID, capacity), n) == Pool([MAX_ID], n, capacity)
  {
    var kept := Pool([MAX_ID], MAX_ID, capacity);
    RoundAdvances();
    RoundIs(kept, 1);
    IdleRounds(Round, kept.(last := 1), n - 1);
    IterateTail(Round, kept, n - 1);
  }

  lemma HighestTaken(capacity: nat)
    requires capacity >= 2
    ensures Alloc(Pool([], MAX_ID - 1, capacity)) == (Pool([MAX_ID], MAX_ID, capacity), MAX_ID)
  {
    assert Insert([], MAX_ID) == [MAX_ID];
  }

  lemma {:induction false} IterateTail(f: Pool -> Pool, p: Pool, k: nat)
    ensures Iterate(f, p, k + 1) == Iterate(f, f(p), k)
  {
    if k > 0 {
      IterateTail(f, p, k - 1);
    }
  }

  lemma WrapAround(capacity: nat)
    requires capacity >= 2
    ensures Alloc(Pool([MAX_ID], MAX_ID - 1, capacity)) == (Pool([0, MAX_ID], 0, capacity), 0)
  {
    assert Probe([MAX_ID], MAX_ID, 0) == Probe([MAX_ID], 0, 1) == 0;
    assert Insert([MAX_ID], 0) == [0, MAX_ID];
  }

  class PacketIdPool {
    var ids: seq<nat>
    var last: nat
    const capacity: nat

    ghost function View(): Pool
      reads this
    {
      Pool(ids, last, capacity)
    }

    constructor (capacity: nat)
      ensures View() == Pool([], 0, capacity)
    {
      this.capacity := capacity;
      ids, last := [], 0;
    }

    method InsertIfFree(next: nat) returns (done: bool)
      requires Sorted(ids)
      modifies this`ids
      ensures done <==> next !in old(ids)
      ensures ids == if done then Insert(old(ids), next) else old(ids)
    {
      if ids == [] || ids[|ids| - 1] < next {
        AppendIsInsert(ids, next);
        ids := ids + [next];
        return true;
      }
      LookupFinds(ids, next);
      var iter := LowerBound(ids, next);
      if iter == |ids| || ids[iter] != next {
        ids := ids[..iter] + [next] + ids[iter..];
        return true;
      }
      return false;
    }

    /** The search loop: insert the first identifier from `start` on that is free. */
    method InsertFirstFree(start: nat) returns (next: nat)
      requires Sorted(ids) && Probe(ids, start, 0) !in ids
      modifies this`ids
      ensures next == Probe(old(ids), start, 0)
      ensures ids == Insert(old(ids), next)
    {
      next := start;
      ghost var k := 0;
      var done := InsertIfFree(next);
      while !done
        invariant k <= |old(ids)| && Probe(old(ids), next, k) == Probe(old(ids), start, 0)
        invariant done <==> next !in old(ids)
        invariant ids == if done then Insert(old(ids), next) else old(ids)
        decreases |old(ids)| - k, !done
      {
        next := (next + 1) % ID_SPACE;
        k := k + 1;
        done := InsertIfFree(next);
      }
    }

    method AllocPacketId() returns (id: nat)
      requires ValidPool(View())
      modifies this
      ensures (View(), id) == Alloc(old(View()))
    {
      if capacity <= |ids| || MAX_ID <= |ids| {
        return 0;
      }
      var start: nat := (last + 1) % ID_SPACE;
      if start == 0 {
        start := 1;
      }
      SearchSucceeds(ids, start);
      last := InsertFirstFree(start);
      id := last;
    }

    method ReleasePacketId(id: nat)
      modifies this
      ensures View() == Release(old(View()), id)
    {
      if id == 0 {
        return;
      }
      var iter := LowerBound(ids, id);
      if iter == |ids| || ids[iter] != id {
        return;
      }
      ids := ids[..iter] + ids[iter + 1..];
    }
  }

  /** Releasing keeps the list sorted and takes out that identifier alone. */
  lemma ReleaseValid(p: Pool, id: nat)
    requires ValidPool(p)
    ensures ValidPool(Release(p, id))
    ensures id > 0 ==> forall x :: x in Release(p, id).ids <==> x in p.ids && x != id
  {
    DeleteSorted(p.ids, id);
    var r := Release(p, id);
    forall k | 0 <= k < |r.ids| ensures r.ids[k] <= MAX_ID {
      assert r.ids[k] in r.ids;
      assert r.ids[k] in p.ids;
    }
  }
}
