/** The ordered output engine: completion packets in any order go through a
    min-heap and leave as the contiguous run of expected keys.  Each one that
    leaves is absorbed by the completion ledger. */
module Orderer {
  import opened MinHeap
  import opened Coalescer

  /** An order packet; `last` is the end-of-major flag carried in its minor word. */
  datatype Packet = Packet(major: nat, minor: nat, last: bool, cnt: nat, inOff: nat, inLen: nat, len: nat)

  /** The next (major, minor) the orderer waits for. */
  datatype Cursor = Cursor(major: nat, minor: nat)

  /** 42 bits of major over 22 bits of minor. */
  function PackKey(major: nat, minor: nat): nat {
    major % 0x400_0000_0000 * 0x40_0000 + minor % 0x40_0000
  }

  /** On fields that fit, packed keys compare as (major, minor) pairs. */
  lemma PackKeyOrder(a: Cursor, b: Cursor)
    requires a.major < 0x400_0000_0000 && b.major < 0x400_0000_0000 && a.minor < 0x40_0000 && b.minor < 0x40_0000
    ensures PackKey(a.major, a.minor) < PackKey(b.major, b.minor)
         <==> a.major < b.major || (a.major == b.major && a.minor < b.minor)
    ensures PackKey(a.major, a.minor) == PackKey(b.major, b.minor) <==> a == b
  {
  }

  /** A word of more than 22 bits collides: minor 2^22 of one major has the key
      of its minor 0. */
  lemma PackKeyCollides(major: nat)
    ensures PackKey(major, 0x40_0000) == PackKey(major, 0)
  {
  }

  function KeyOf(numa: bool, p: Packet): nat {
    if numa then PackKey(p.major, p.minor) else p.major
  }

  function KeyAt(numa: bool, c: Cursor): nat {
    if numa then PackKey(c.major, c.minor) else c.major
  }

  /** Where the cursor stands after one packet (64-bit major, 32-bit minor). */
  function Advance(numa: bool, c: Cursor, p: Packet): Cursor {
    if !numa then Cursor((c.major + p.cnt) % 0x1_0000_0000_0000_0000, c.minor)
    else if p.last then Cursor((c.major + 1) % 0x1_0000_0000_0000_0000, 0)
    else Cursor(c.major, (c.minor + p.cnt) % 0x1_0000_0000)
  }

  function CursorAfter(numa: bool, c: Cursor, ps: seq<Packet>): Cursor {
    if ps == [] then c else Advance(numa, CursorAfter(numa, c, ps[..|ps| - 1]), ps[|ps| - 1])
  }

  /** Every packet carries the key expected after the ones before it. */
  ghost predicate Chained(numa: bool, c: Cursor, ps: seq<Packet>) {
    forall k :: 0 <= k < |ps| ==> KeyOf(numa, ps[k]) == KeyAt(numa, CursorAfter(numa, c, ps[..k]))
  }

  lemma ChainedAppend(numa: bool, c: Cursor, ps: seq<Packet>, p: Packet)
    requires Chained(numa, c, ps) && KeyOf(numa, p) == KeyAt(numa, CursorAfter(numa, c, ps))
    ensures Chained(numa, c, ps + [p])
    ensures CursorAfter(numa, c, ps + [p]) == Advance(numa, CursorAfter(numa, c, ps), p)
  {
    var q := ps + [p];
    assert q[..|ps|] == ps;
    forall k | 0 <= k < |q| ensures KeyOf(numa, q[k]) == KeyAt(numa, CursorAfter(numa, c, q[..k])) {
      if k < |ps| { assert q[..k] == ps[..k]; }
    }
  }

  function Nodes(numa: bool, ps: seq<Packet>): multiset<Node<Packet>> {
    if ps == [] then multiset{}
    else Nodes(numa, ps[..|ps| - 1]) + multiset{Node(KeyOf(numa, ps[|ps| - 1]), ps[|ps| - 1])}
  }

  lemma NodesAppend(numa: bool, ps: seq<Packet>, p: Packet)
    ensures Nodes(numa, ps + [p]) == Nodes(numa, ps) + multiset{Node(KeyOf(numa, p), p)}
  {
    assert (ps + [p])[..|ps|] == ps;
  }

  /** Multiplicity in the heap-node view is multiplicity among the packets. */
  lemma {:induction false} NodesCount(numa: bool, ps: seq<Packet>, p: Packet)
    ensures Nodes(numa, ps)[Node(KeyOf(numa, p), p)] == multiset(ps)[p]
    ensures forall n :: n in Nodes(numa, ps) ==> n == Node(KeyOf(numa, n.value), n.value)
  {
    if ps != [] {
      NodesCount(numa, ps[..|ps| - 1], p);
      assert ps == ps[..|ps| - 1] + [ps[|ps| - 1]];
    }
  }

  function Ranges(ps: seq<Packet>): seq<Interval> {
    seq(|ps|, k requires 0 <= k < |ps| => Interval(ps[k].inOff, ps[k].inOff + ps[k].inLen))
  }

  function Bytes(ps: seq<Packet>): nat {
    if ps == [] then 0 else Bytes(ps[..|ps| - 1]) + ps[|ps| - 1].len
  }

  /** What has left for stdout, and the ledger of the input it accounts for. */
  class Ledger {
    const tracker: Tracker
    var bytes: nat
    ghost var emitted: seq<Packet>
    ghost var dropped: bool   // the island heap refused an interval and pulled the alarm

    ghost predicate Valid()
      reads this, tracker, tracker.islands, tracker.islands.nodes
    {
      tracker.Valid() && bytes == Bytes(emitted) && (!dropped ==> tracker.reported == Ranges(emitted))
    }

    constructor (horizon: nat, capacity: nat, ceiling: nat)
      ensures Valid() && emitted == [] && !dropped && tracker.limit == tracker.from == horizon
      ensures fresh(tracker) && fresh(tracker.islands) && fresh(tracker.islands.nodes)
    {
      tracker := new Tracker(horizon, capacity, ceiling);
      bytes := 0;
      emitted := [];
      dropped := false;
    }

    /** Write one packet's output and absorb its input range. */
    method Emit(p: Packet)
      requires Valid()
      modifies this, tracker, tracker.islands, tracker.islands.nodes
      ensures Valid() && emitted == old(emitted) + [p]
      ensures tracker.islands.nodes == old(tracker.islands.nodes) || fresh(tracker.islands.nodes)
      ensures dropped <==> old(dropped) || (p.inOff > old(tracker.limit) && !old(tracker.islands.HasRoom()))
    {
      hide Tracker.Valid, Ranges, Bytes;
      var ok := tracker.Report(p.inOff, p.inOff + p.inLen);
      RangesAppend(emitted, p);
      bytes := bytes + p.len;
      emitted := emitted + [p];
      dropped := dropped || !ok;
    }
  }

  lemma RangesAppend(ps: seq<Packet>, p: Packet)
    ensures Ranges(ps + [p]) == Ranges(ps) + [Interval(p.inOff, p.inOff + p.inLen)]
    ensures Bytes(ps + [p]) == Bytes(ps) + p.len
  {
    assert (ps + [p])[..|ps|] == ps;
  }

  /** Received packets are either out or pending, as multisets. */
  ghost predicate Conserved(numa: bool, received: seq<Packet>, emitted: seq<Packet>, pending: multiset<Node<Packet>>) {
    pending + Nodes(numa, emitted) == Nodes(numa, received)
  }

  lemma ConservedPush(numa: bool, received: seq<Packet>, emitted: seq<Packet>, pending: multiset<Node<Packet>>,
                      p: Packet)
    requires Conserved(numa, received, emitted, pending)
    ensures Conserved(numa, received + [p], emitted, pending + multiset{Node(KeyOf(numa, p), p)})
  {
    hide Nodes;
    NodesAppend(numa, received, p);
  }

  lemma ConservedPop(numa: bool, received: seq<Packet>, emitted: seq<Packet>, pending: multiset<Node<Packet>>,
                     n: Node<Packet>)
    requires Conserved(numa, received, emitted, pending) && n in pending
    ensures n.key == KeyOf(numa, n.value)
    ensures Conserved(numa, received, emitted + [n.value], pending - multiset{n})
  {
    NodesCount(numa, received, n.value);
    hide Nodes;
    assert n in Nodes(numa, received);
    NodesAppend(numa, emitted, n.value);
    assert pending - multiset{n} + multiset{n} == pending;
  }

  /** No pending packet can leave: the least key is not the expected one. */
  ghost predicate Stuck(numa: bool, pending: multiset<Node<Packet>>, c: Cursor) {
    forall n :: n in pending && n.key == KeyAt(numa, c) ==> exists m :: m in pending && m.key < n.key
  }

  /** The orderer proper. */
  class Engine {
    const numa: bool
    ghost const origin: Cursor
    const pending: Heap<Packet>
    const ledger: Ledger
    var expected: Cursor
    ghost var received: seq<Packet>

    ghost predicate Valid()
      reads this, pending, pending.nodes, ledger, ledger.tracker, ledger.tracker.islands, ledger.tracker.islands.nodes
    {
      && pending.Valid() && ledger.Valid()
      && Conserved(numa, received, ledger.emitted, pending.Contents())
      && Chained(numa, origin, ledger.emitted)
      && expected == CursorAfter(numa, origin, ledger.emitted)
    }

    constructor (numa: bool, capacity: nat, ceiling: nat)
      ensures Valid() && received == [] && ledger.emitted == [] && this.numa == numa && origin == Cursor(0, 0)
      ensures fresh(pending) && fresh(pending.nodes) && fresh(ledger) && fresh(ledger.tracker)
      ensures fresh(ledger.tracker.islands) && fresh(ledger.tracker.islands.nodes)
    {
      this.numa := numa;
      origin := Cursor(0, 0);
      pending := new Heap(capacity, ceiling);
      ledger := new Ledger(0, capacity, ceiling);
      expected := Cursor(0, 0);
      received := [];
    }

    /** One packet off the pipe: queue it, then release every packet whose turn
        it is.  `ok` is false exactly when the heap is full and cannot grow. */
    method Receive(p: Packet) returns (ok: bool)
      requires Valid()
      modifies this`expected, this`received, pending, pending.nodes
      modifies ledger, ledger.tracker, ledger.tracker.islands, ledger.tracker.islands.nodes
      ensures Valid() && Stuck(numa, pending.Contents(), expected)
      ensures received == old(received) + if ok then [p] else []
      ensures ok == old(pending.HasRoom()) && pending.size <= old(pending.size) + 1
      ensures old(ledger.emitted) <= ledger.emitted
      ensures pending.nodes == old(pending.nodes) || fresh(pending.nodes)
      ensures ledger.tracker.islands.nodes == old(ledger.tracker.islands.nodes) || fresh(ledger.tracker.islands.nodes)
    {
      hide Conserved, Chained, CursorAfter, HeapOrdered, Ledger.Valid, Advance, KeyOf, KeyAt, Stuck;
      ghost var before := pending.Contents();
      ok := pending.Push(KeyOf(numa, p), p);
      if ok {
        ConservedPush(numa, received, ledger.emitted, before, p);
        received := received + [p];
      } else {
        assert pending.Contents() == before;
      }
      Drain();
    }

    /** All packets of a read, one after the other.  While the heap can grow it has
        them all; and what has left is then a plan up to the first packet of it
        that was not sent. */
    method Serve(sent: seq<Packet>)
      requires Valid() && Stuck(numa, pending.Contents(), expected)
      modifies this`expected, this`received, pending, pending.nodes
      modifies ledger, ledger.tracker, ledger.tracker.islands, ledger.tracker.islands.nodes
      ensures Valid() && Stuck(numa, pending.Contents(), expected) && old(ledger.emitted) <= ledger.emitted
      ensures pending.nodes == old(pending.nodes) || fresh(pending.nodes)
      ensures ledger.tracker.islands.nodes == old(ledger.tracker.islands.nodes) || fresh(ledger.tracker.islands.nodes)
      ensures pending.CanHold(old(pending.size) + |sent|) ==> received == old(received) + sent
      decreases |sent|
    {
      hide Valid, Stuck, KeyAt, Heap.Contents, Heap.HasRoom;
      if sent == [] { return; }
      if pending.CanHold(pending.size + |sent|) { Room(pending.size + |sent|); }
      var ok := Receive(sent[0]);
      assert sent == [sent[0]] + sent[1..];
      Serve(sent[1..]);
    }

    lemma Room(n: nat)
      requires Valid() && pending.CanHold(n)
      ensures pending.size < n ==> pending.HasRoom()
    {
      hide Conserved, Chained, CursorAfter, HeapOrdered, Ledger.Valid;
      if pending.size < n { pending.RoomBelow(n); }
    }

    /** From the first packet on, with a heap that can hold what is sent: for any
        plan the packets belong to, exactly its stretch up to the first packet not
        sent has left, whatever order they came in. */
    lemma SentPrefix(sent: seq<Packet>, plan: seq<Packet>)
      requires Valid() && Stuck(numa, pending.Contents(), expected) && received == sent
      requires IsPlan(numa, origin, plan) && multiset(sent) <= multiset(plan)
      ensures ledger.emitted <= plan
      ensures |ledger.emitted| < |plan| ==> plan[|ledger.emitted|] !in sent
      ensures multiset(sent) == multiset(plan) ==> ledger.emitted == plan && pending.Contents() == multiset{}
    {
      hide Conserved, Chained, CursorAfter, HeapOrdered, Ledger.Valid, Stuck, IsPlan;
      MaximalPrefix(numa, origin, plan, sent, ledger.emitted, pending.Contents());
    }

    /** Release packets while the top of the heap is the expected one. */
    method Drain()
      requires Valid()
      modifies this`expected, pending, pending.nodes
      modifies ledger, ledger.tracker, ledger.tracker.islands, ledger.tracker.islands.nodes
      ensures Valid() && Stuck(numa, pending.Contents(), expected)
      ensures old(ledger.emitted) <= ledger.emitted && pending.nodes == old(pending.nodes)
      ensures pending.size <= old(pending.size)
      ensures ledger.tracker.islands.nodes == old(ledger.tracker.islands.nodes) || fresh(ledger.tracker.islands.nodes)
    {
      hide Conserved, Chained, CursorAfter, HeapOrdered, Ledger.Valid, Advance, KeyOf, KeyAt, Stuck;
      while pending.size > 0 && pending.nodes[0].key == KeyAt(numa, expected)
        invariant Valid() && pending.nodes == old(pending.nodes) && pending.size <= old(pending.size)
        invariant old(ledger.emitted) <= ledger.emitted
        invariant ledger.tracker.islands.nodes == old(ledger.tracker.islands.nodes)
               || fresh(ledger.tracker.islands.nodes)
        decreases pending.size
      {
        Release();
      }
      if pending.size > 0 { pending.Least(); }
      StuckIf(numa, pending.Contents(), expected, pending.size, pending.nodes[..pending.size]);
    }

    /** Pop the expected packet, emit it and move the cursor. */
    method Release()
      requires Valid() && pending.size > 0 && pending.nodes[0].key == KeyAt(numa, expected)
      modifies this`expected, pending, pending.nodes
      modifies ledger, ledger.tracker, ledger.tracker.islands, ledger.tracker.islands.nodes
      ensures Valid() && pending.nodes == old(pending.nodes) && pending.size == old(pending.size) - 1
      ensures ledger.emitted == old(ledger.emitted) + [old(pending.nodes[0].value)]
      ensures ledger.tracker.islands.nodes == old(ledger.tracker.islands.nodes) || fresh(ledger.tracker.islands.nodes)
    {
      hide Conserved, Chained, CursorAfter, HeapOrdered, Ledger.Valid, Heap.Contents, Advance, KeyOf, KeyAt;
      ghost var before := pending.Contents();
      var top := pending.Pop();
      ConservedPop(numa, received, ledger.emitted, before, top);
      ChainedAppend(numa, origin, ledger.emitted, top.value);
      ledger.Emit(top.value);
      expected := Advance(numa, expected, top.value);
    }
  }

  lemma StuckIf(numa: bool, pending: multiset<Node<Packet>>, c: Cursor, size: nat, q: seq<Node<Packet>>)
    requires size == |q| && pending == multiset(q)
    requires size > 0 ==> q[0].key != KeyAt(numa, c) && forall n :: n in pending ==> q[0].key <= n.key
    ensures Stuck(numa, pending, c)
  {
    if size > 0 { assert q[0] in pending; }
  }

  /** The packets of a run in output order: each carries the key expected after
      the ones before it, and keys only grow. */
  ghost predicate IsPlan(numa: bool, origin: Cursor, plan: seq<Packet>) {
    && Chained(numa, origin, plan)
    && forall j, k :: 0 <= j < k < |plan| ==> KeyOf(numa, plan[j]) < KeyOf(numa, plan[k])
  }

  lemma PlanDistinct(numa: bool, origin: Cursor, plan: seq<Packet>, p: Packet)
    requires IsPlan(numa, origin, plan)
    ensures multiset(plan)[p] <= 1
  {
    if p in plan {
      var k :| 0 <= k < |plan| && plan[k] == p;
      hide KeyOf, Chained;
      Once(plan, k);
    }
  }

  lemma Once<T>(s: seq<T>, k: nat)
    requires k < |s| && forall j :: 0 <= j < |s| && j != k ==> s[j] != s[k]
    ensures multiset(s)[s[k]] == 1
  {
    var front, back := s[..k], s[k + 1..];
    assert s == front + [s[k]] + back;
    assert s[k] !in front && s[k] !in back;
  }

  /** Whatever arrived of a plan, in any order and once each, has left exactly
      up to the first packet still missing; when all has arrived nothing is
      left pending. */
  lemma MaximalPrefix(numa: bool, origin: Cursor, plan: seq<Packet>, received: seq<Packet>, emitted: seq<Packet>,
                      pending: multiset<Node<Packet>>)
    requires IsPlan(numa, origin, plan) && multiset(received) <= multiset(plan)
    requires Conserved(numa, received, emitted, pending) && Chained(numa, origin, emitted)
    requires Stuck(numa, pending, CursorAfter(numa, origin, emitted))
    ensures emitted <= plan
    ensures |emitted| < |plan| ==> plan[|emitted|] !in received
    ensures multiset(received) == multiset(plan) ==> emitted == plan && pending == multiset{}
  {
    hide *;
    EmittedPrefix(numa, origin, plan, received, emitted, pending);
    if |emitted| < |plan| { NextMissing(numa, origin, plan, received, emitted, pending); }
    if multiset(received) == multiset(plan) {
      AllOut(plan, received, emitted);
      NothingLeft(numa, received, emitted, pending);
    }
  }

  lemma AllOut(plan: seq<Packet>, received: seq<Packet>, emitted: seq<Packet>)
    requires multiset(received) == multiset(plan) && emitted <= plan
    requires |emitted| < |plan| ==> plan[|emitted|] !in received
    ensures emitted == plan
  {
    forall k | 0 <= k < |plan| ensures plan[k] in received { assert plan[k] in multiset(plan); }
  }

  lemma NothingLeft(numa: bool, received: seq<Packet>, emitted: seq<Packet>, pending: multiset<Node<Packet>>)
    requires Conserved(numa, received, emitted, pending) && multiset(received) == multiset(emitted)
    ensures pending == multiset{}
  {
    forall n ensures pending[n] == 0 {
      NodesCount(numa, received, n.value);
      NodesCount(numa, emitted, n.value);
    }
  }

  /** An emitted or pending packet was received. */
  lemma CountSplit(numa: bool, received: seq<Packet>, emitted: seq<Packet>, pending: multiset<Node<Packet>>, p: Packet)
    requires Conserved(numa, received, emitted, pending)
    ensures multiset(received)[p] == multiset(emitted)[p] + pending[Node(KeyOf(numa, p), p)]
  {
    NodesCount(numa, received, p);
    NodesCount(numa, emitted, p);
  }

  lemma EmittedPrefix(numa: bool, origin: Cursor, plan: seq<Packet>, received: seq<Packet>, emitted: seq<Packet>,
                      pending: multiset<Node<Packet>>)
    requires IsPlan(numa, origin, plan) && multiset(received) <= multiset(plan)
    requires Conserved(numa, received, emitted, pending) && Chained(numa, origin, emitted)
    ensures emitted <= plan
  {
    assert multiset(emitted) <= multiset(plan) by {
      forall p ensures multiset(emitted)[p] <= multiset(plan)[p] { CountSplit(numa, received, emitted, pending, p); }
    }
    SubsetShorter(emitted, plan);
    PrefixUpTo(numa, origin, plan, emitted, |emitted|);
    assert emitted[..|emitted|] == emitted;
  }

  lemma SubsetShorter(a: seq<Packet>, b: seq<Packet>)
    requires multiset(a) <= multiset(b)
    ensures |a| <= |b|
  {
    assert multiset(b) == multiset(a) + (multiset(b) - multiset(a));
    assert |multiset(a)| == |a| && |multiset(b)| == |b|;
  }

  lemma {:induction false} PrefixUpTo(numa: bool, origin: Cursor, plan: seq<Packet>, emitted: seq<Packet>, m: nat)
    requires IsPlan(numa, origin, plan) && Chained(numa, origin, emitted)
    requires multiset(emitted) <= multiset(plan) && m <= |emitted| <= |plan|
    ensures emitted[..m] == plan[..m]
  {
    hide KeyOf, KeyAt, CursorAfter;
    if m > 0 {
      PrefixUpTo(numa, origin, plan, emitted, m - 1);
      assert emitted[m - 1] in multiset(plan);
      var j :| 0 <= j < |plan| && plan[j] == emitted[m - 1];
      assert KeyOf(numa, plan[j]) == KeyOf(numa, plan[m - 1]);
      assert emitted[..m] == emitted[..m - 1] + [emitted[m - 1]];
    }
  }

  /** When the engine is stuck, the next packet of the plan has not arrived. */
  lemma NextMissing(numa: bool, origin: Cursor, plan: seq<Packet>, received: seq<Packet>, emitted: seq<Packet>,
                    pending: multiset<Node<Packet>>)
    requires IsPlan(numa, origin, plan) && multiset(received) <= multiset(plan)
    requires Conserved(numa, received, emitted, pending)
    requires Stuck(numa, pending, CursorAfter(numa, origin, emitted))
    requires emitted <= plan && |emitted| < |plan|
    ensures plan[|emitted|] !in received
  {
    var p := plan[|emitted|];
    var n := Node(KeyOf(numa, p), p);
    assert plan[..|emitted|] == emitted;
    if n in pending {
      var low :| low in pending && low.key < n.key;
      LaterOnly(numa, origin, plan, received, emitted, pending, low);
    }
    hide KeyOf, Stuck, Conserved, Chained;
    NotAmong(numa, plan, emitted, |emitted|);
    CountSplit(numa, received, emitted, pending, p);
    assert multiset(received)[p] == 0;
  }

  lemma NotAmong(numa: bool, plan: seq<Packet>, emitted: seq<Packet>, m: nat)
    requires m < |plan| && emitted == plan[..m]
    requires forall j, k :: 0 <= j < k < |plan| ==> KeyOf(numa, plan[j]) < KeyOf(numa, plan[k])
    ensures multiset(emitted)[plan[m]] == 0
  {
    assert plan[m] !in emitted;
  }

  lemma LaterOnly(numa: bool, origin: Cursor, plan: seq<Packet>, received: seq<Packet>, emitted: seq<Packet>,
                  pending: multiset<Node<Packet>>, low: Node<Packet>)
    requires IsPlan(numa, origin, plan) && multiset(received) <= multiset(plan)
    requires Conserved(numa, received, emitted, pending) && emitted <= plan && |emitted| < |plan|
    requires low in pending
    ensures low.key >= KeyOf(numa, plan[|emitted|])
  {
    var q := low.value;
    NodesCount(numa, received, q);
    assert low in Nodes(numa, received);
    CountSplit(numa, received, emitted, pending, q);
    PlanDistinct(numa, origin, plan, q);
    assert multiset(emitted)[q] == 0;
    assert q in multiset(plan);
    forall i | 0 <= i < |emitted| ensures plan[i] != q {
      assert emitted[i] in multiset(emitted);
    }
    var j :| 0 <= j < |plan| && plan[j] == q;
  }
}
