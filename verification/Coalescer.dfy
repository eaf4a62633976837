/** The interval coalescer: a completed frontier plus a heap of islands beyond
    it.  TRACK_COMPLETED_BATCH, safe_hole_punch, ring_fallow_main and
    ring_fallow_phys_main all run this step on every reported interval. */
module Coalescer {
  import opened MinHeap

  datatype Interval = Interval(s: nat, e: nat)

  predicate Within(i: Interval, b: nat) {
    i.s <= b < i.e
  }

  /** Some reported interval, or the frontier the run started from, has `b`. */
  ghost predicate Reported(from: nat, reported: seq<Interval>, b: nat) {
    b < from || exists k :: 0 <= k < |reported| && Within(reported[k], b)
  }

  ghost predicate Heaped(islands: multiset<Node<nat>>, b: nat) {
    exists n :: n in islands && n.key <= b < n.value
  }

  /** Frontier and islands together are exactly what was reported. */
  ghost predicate Exact(from: nat, reported: seq<Interval>, limit: nat, islands: multiset<Node<nat>>) {
    forall b: nat :: Reported(from, reported, b) <==> (b < limit || Heaped(islands, b))
  }

  ghost predicate Above(limit: nat, islands: multiset<Node<nat>>) {
    forall n :: n in islands ==> limit < n.key <= n.value
  }

  lemma StartExact(from: nat)
    ensures Exact(from, [], from, multiset{})
  {
  }

  lemma AboveForward(limit: nat, islands: multiset<Node<nat>>)
    requires Above(limit, islands)
    ensures forall n :: n in islands ==> n.key <= n.value
  {
  }

  lemma AboveAdd(limit: nat, islands: multiset<Node<nat>>, n: Node<nat>)
    requires Above(limit, islands) && limit < n.key <= n.value
    ensures Above(limit, islands + multiset{n})
  {
  }

  lemma ReportedAppend(from: nat, reported: seq<Interval>, i: Interval, b: nat)
    ensures Reported(from, reported + [i], b) <==> Reported(from, reported, b) || Within(i, b)
  {
    var q := reported + [i];
    if Reported(from, reported, b) && b >= from {
      var k :| 0 <= k < |reported| && Within(reported[k], b);
      assert q[k] == reported[k];
    }
    assert q[|reported|] == i;
  }

  /** An interval that touches the frontier moves it. */
  lemma ExtendExact(from: nat, reported: seq<Interval>, limit: nat, islands: multiset<Node<nat>>, i: Interval)
    requires Exact(from, reported, limit, islands) && i.s <= limit
    ensures Exact(from, reported + [i], if i.e > limit then i.e else limit, islands)
  {
    hide Heaped, Reported;
    forall b: nat { ReportedAppend(from, reported, i, b); }
  }

  /** An interval beyond the frontier becomes an island. */
  lemma IslandExact(from: nat, reported: seq<Interval>, limit: nat, islands: multiset<Node<nat>>, i: Interval)
    requires Exact(from, reported, limit, islands)
    ensures Exact(from, reported + [i], limit, islands + multiset{Node(i.s, i.e)})
  {
    hide Reported;
    forall b: nat
      ensures Reported(from, reported + [i], b) <==> (b < limit || Heaped(islands + multiset{Node(i.s, i.e)}, b))
    {
      ReportedAppend(from, reported, i, b);
      HeapedAdd(islands, Node(i.s, i.e), b);
    }
  }

  lemma HeapedAdd(islands: multiset<Node<nat>>, n: Node<nat>, b: nat)
    ensures Heaped(islands + multiset{n}, b) <==> Heaped(islands, b) || n.key <= b < n.value
  {
    var more := islands + multiset{n};
    assert n in more;
    if Heaped(islands, b) {
      var m :| m in islands && m.key <= b < m.value;
      assert m in more;
    }
  }

  /** An island the frontier reached is absorbed. */
  lemma AbsorbExact(from: nat, reported: seq<Interval>, limit: nat, islands: multiset<Node<nat>>, top: Node<nat>)
    requires Exact(from, reported, limit, islands) && top in islands && top.key <= limit
    ensures Exact(from, reported, if top.value > limit then top.value else limit, islands - multiset{top})
  {
    hide Reported;
    forall b: nat { HeapedAdd(islands - multiset{top}, top, b); }
    assert islands - multiset{top} + multiset{top} == islands;
  }

  /** The frontier is the largest p with everything below p reported. */
  lemma FrontierMaximal(from: nat, reported: seq<Interval>, limit: nat, islands: multiset<Node<nat>>, p: nat)
    requires Exact(from, reported, limit, islands) && Above(limit, islands)
    ensures (forall b: nat :: b < p ==> Reported(from, reported, b)) <==> p <= limit
  {
    if p > limit { assert !Heaped(islands, limit); }
  }

  /** The frontier, its heap, and (history) every interval accepted so far. */
  class Tracker {
    var limit: nat
    const islands: Heap<nat>
    ghost const from: nat
    ghost var reported: seq<Interval>

    ghost predicate Valid()
      reads this, islands, islands.nodes
    {
      && islands.Valid()
      && Exact(from, reported, limit, islands.Contents())
      && Above(limit, islands.Contents())
    }

    constructor (from: nat, capacity: nat, ceiling: nat)
      ensures Valid() && fresh(islands) && fresh(islands.nodes)
      ensures limit == this.from == from && reported == [] && islands.Contents() == multiset{}
    {
      limit := from;
      this.from := from;
      islands := new Heap(capacity, ceiling);
      reported := [];
      new;
      StartExact(from);
      assert islands.Contents() == multiset{};
    }

    /** Absorb one completed interval; `ok` is false, and the alarm was pulled,
        exactly when it starts beyond the frontier and the heap is full for good. */
    method Report(s: nat, e: nat) returns (ok: bool)
      requires Valid() && s <= e
      modifies this, islands, islands.nodes
      ensures Valid() && (islands.nodes == old(islands.nodes) || fresh(islands.nodes))
      ensures reported == old(reported) + if ok then [Interval(s, e)] else []
      ensures ok <==> s <= old(limit) || old(islands.HasRoom())
      ensures limit >= old(limit) && (s > old(limit) ==> limit == old(limit))
    {
      hide Exact, Above, HeapOrdered;
      if s <= limit {
        ExtendExact(from, reported, limit, islands.Contents(), Interval(s, e));
        reported := reported + [Interval(s, e)];
        AboveForward(limit, islands.Contents());
        if e > limit { limit := e; }
        Absorb();
        ok := true;
      } else {
        ok := Defer(s, e);
      }
    }

    /** Keep an interval that starts beyond the frontier as an island. */
    method Defer(s: nat, e: nat) returns (ok: bool)
      requires Valid() && limit < s <= e
      modifies this`reported, islands, islands.nodes
      ensures Valid() && (islands.nodes == old(islands.nodes) || fresh(islands.nodes))
      ensures reported == old(reported) + if ok then [Interval(s, e)] else []
      ensures ok == old(islands.HasRoom()) && islands.size == old(islands.size) + if ok then 1 else 0
    {
      hide Exact, Above, HeapOrdered, Heap.HasRoom, Heap.Contents;
      ghost var before := islands.Contents();
      ok := islands.Push(s, e);
      if ok {
        IslandExact(from, reported, limit, before, Interval(s, e));
        AboveAdd(limit, before, Node(s, e));
        reported := reported + [Interval(s, e)];
      } else {
        assert islands.Contents() == before;
      }
    }

    /** Bootstrap from a checkpoint: its islands lie beyond its horizon. */
    method Restore(prior: seq<Interval>) returns (ok: bool)
      requires Valid() && forall k :: 0 <= k < |prior| ==> limit < prior[k].s <= prior[k].e
      modifies this`reported, islands, islands.nodes
      ensures Valid() && (islands.nodes == old(islands.nodes) || fresh(islands.nodes))
      ensures ok ==> reported == old(reported) + prior
      ensures islands.CanHold(old(islands.size) + |prior|) ==> ok
    {
      hide Exact, Above, HeapOrdered;
      ok := true;
      for i := 0 to |prior|
        invariant Valid() && (islands.nodes == old(islands.nodes) || fresh(islands.nodes))
        invariant ok ==> reported == old(reported) + prior[..i]
        invariant islands.size <= old(islands.size) + i
        invariant islands.CanHold(old(islands.size) + |prior|) ==> ok
      {
        if islands.CanHold(old(islands.size) + |prior|) {
          islands.RoomBelow(old(islands.size) + |prior|);
        }
        var kept := Defer(prior[i].s, prior[i].e);
        ok := ok && kept;
        assert prior[..i + 1] == prior[..i] + [prior[i]];
      }
      assert prior[..|prior|] == prior;
    }

    /** Pop every island the frontier has reached. */
    method Absorb()
      requires islands.Valid() && Exact(from, reported, limit, islands.Contents())
      requires forall n :: n in islands.Contents() ==> n.key <= n.value
      modifies this`limit, islands, islands.nodes
      ensures Valid() && islands.nodes == old(islands.nodes)
      ensures limit >= old(limit)
    {
      hide Exact, HeapOrdered;
      while islands.size > 0 && islands.nodes[0].key <= limit
        invariant islands.Valid() && Exact(from, reported, limit, islands.Contents())
        invariant islands.nodes == old(islands.nodes) && limit >= old(limit)
        invariant forall n :: n in islands.Contents() ==> n.key <= n.value
        decreases islands.size
      {
        ghost var before := islands.Contents();
        ghost var was := limit;
        var top := islands.Pop();
        AbsorbExact(from, reported, was, before, top);
        if top.value > limit { limit := top.value; }
      }
      if islands.size > 0 { islands.Least(); }
    }
  }

  const PAGE: nat := 4096

  /** Release the whole pages from `last` to below `limit`; when the punch fails
      they are left for the next round. */
  function PunchTo(last: nat, limit: nat, works: bool): (p: nat)
    requires last % PAGE == 0
    ensures p % PAGE == 0 && last <= p && (last <= limit ==> p <= limit)
    ensures if works then limit < p + PAGE else p == last
  {
    var aligned := limit / PAGE * PAGE;
    if aligned > last && works then aligned else last
  }

  /** The hole punchers over bytes: packets move the frontier, and the pages
      wholly below it are released. */
  class Puncher {
    const tracker: Tracker
    var lastPunched: nat

    /** Only bytes of reported intervals have been released. */
    ghost predicate Valid()
      reads this, tracker, tracker.islands, tracker.islands.nodes
    {
      tracker.Valid() && tracker.from == 0 && lastPunched <= tracker.limit && lastPunched % PAGE == 0
    }

    constructor (capacity: nat, ceiling: nat)
      ensures Valid() && lastPunched == 0 && tracker.reported == []
      ensures fresh(tracker) && fresh(tracker.islands) && fresh(tracker.islands.nodes)
    {
      tracker := new Tracker(0, capacity, ceiling);
      lastPunched := 0;
    }

    /** One packet.  `works` is the outcome of the punch if one is attempted; a
        failed punch leaves its range for the next round. */
    method Ack(off: nat, len: nat, works: bool)
      requires Valid()
      modifies this, tracker, tracker.islands, tracker.islands.nodes
      ensures Valid() && (tracker.islands.nodes == old(tracker.islands.nodes) || fresh(tracker.islands.nodes))
      ensures tracker.reported == old(tracker.reported) +
        if off <= old(tracker.limit) || old(tracker.islands.HasRoom()) then [Interval(off, off + len)] else []
      ensures old(lastPunched) <= lastPunched
      ensures if off <= old(tracker.limit) && works then tracker.limit < lastPunched + PAGE
              else lastPunched == old(lastPunched)
    {
      hide Exact, HeapOrdered, Heap.HasRoom, PunchTo;
      var touches := off <= tracker.limit;
      var accepted := tracker.Report(off, off + len);
      if touches {
        lastPunched := PunchTo(lastPunched, tracker.limit, works);
      }
    }

    /** Every released byte was acknowledged. */
    lemma PunchedReported(b: nat)
      requires Valid() && b < lastPunched
      ensures exists k :: 0 <= k < |tracker.reported| && Within(tracker.reported[k], b)
    {
      assert Reported(0, tracker.reported, b);
    }
  }

  /** Input byte range of batch `k`: batches tile the stream from byte 0. */
  function BatchStart(ends: seq<nat>, k: nat): nat
    requires k <= |ends|
  {
    if k == 0 then 0 else ends[k - 1]
  }

  ghost predicate Ascending(ends: seq<nat>) {
    forall j, k :: 0 <= j <= k < |ends| ==> ends[j] <= ends[k]
  }

  /** The ring still holds the ends of its last |ring| batches. */
  ghost predicate RingHolds(ring: seq<nat>, ends: seq<nat>) {
    |ring| > 0 && forall k :: |ends| - |ring| <= k < |ends| && 0 <= k ==> ring[k % |ring|] == ends[k]
  }

  /** The hole puncher over batch indices: the frontier is a batch count, turned
      into bytes through the scanner's ring. */
  class IndexPuncher {
    const tracker: Tracker
    var lastPunched: nat

    /** A released byte lies in the batches below the frontier. */
    ghost predicate Valid(ends: seq<nat>)
      reads this, tracker, tracker.islands, tracker.islands.nodes
    {
      && tracker.Valid() && tracker.from == 0 && Ascending(ends)
      && (forall k :: 0 <= k < |tracker.reported| ==> tracker.reported[k].e <= |ends|)
      && tracker.limit <= |ends| && lastPunched <= BatchStart(ends, tracker.limit) && lastPunched % PAGE == 0
    }

    constructor (capacity: nat, ceiling: nat)
      ensures Valid([]) && lastPunched == 0 && tracker.reported == []
      ensures fresh(tracker) && fresh(tracker.islands) && fresh(tracker.islands.nodes)
    {
      tracker := new Tracker(0, capacity, ceiling);
      lastPunched := 0;
    }

    /** One packet acknowledging `cnt` batches from `idx` on.  Acknowledged
        batches have been published, and the scanner is less than one ring ahead
        of the frontier. */
    method Ack(idx: nat, cnt: nat, ring: seq<nat>, ghost ends: seq<nat>, works: bool)
      requires Valid(ends) && RingHolds(ring, ends)
      requires idx + cnt <= |ends| < tracker.limit + |ring|
      modifies this, tracker, tracker.islands, tracker.islands.nodes
      ensures Valid(ends) && (tracker.islands.nodes == old(tracker.islands.nodes) || fresh(tracker.islands.nodes))
      ensures tracker.reported == old(tracker.reported) +
        if idx <= old(tracker.limit) || old(tracker.islands.HasRoom()) then [Interval(idx, idx + cnt)] else []
      ensures old(lastPunched) <= lastPunched
      ensures if idx <= old(tracker.limit) && works then BatchStart(ends, tracker.limit) < lastPunched + PAGE
              else lastPunched == old(lastPunched)
    {
      hide Exact, HeapOrdered, Heap.HasRoom, PunchTo;
      var touches := idx <= tracker.limit;
      var accepted := tracker.Report(idx, idx + cnt);
      LimitWithin(tracker.reported, tracker.limit, tracker.islands.Contents(), |ends|);
      if touches && tracker.limit > 0 {
        lastPunched := PunchTo(lastPunched, ring[(tracker.limit - 1) % |ring|], works);
      }
    }

    /** A batch with a released byte was acknowledged. */
    lemma PunchedAcked(ends: seq<nat>, k: nat, b: nat)
      requires Valid(ends) && k < |ends| && BatchStart(ends, k) <= b < ends[k] && b < lastPunched
      ensures exists j :: 0 <= j < |tracker.reported| && Within(tracker.reported[j], k)
    {
      assert Reported(0, tracker.reported, k);
    }
  }

  /** A frontier never passes what has been reported. */
  lemma LimitWithin(reported: seq<Interval>, limit: nat, islands: multiset<Node<nat>>, top: nat)
    requires Exact(0, reported, limit, islands) && forall k :: 0 <= k < |reported| ==> reported[k].e <= top
    ensures limit <= top
  {
    assert !Reported(0, reported, top);
  }
}
