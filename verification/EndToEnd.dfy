/** From scanners to stdout: whatever order batches complete in, the orderer
    emits them in input order. */
module EndToEnd {
  import opened Stream
  import opened Orderer
  import opened MinHeap
  import LineScan
  import LineChain
  import LineRun
  import HandoffChain
  import HandoffRun
  import ByteScan

  /** Order packets of chunk m's batches; `size` is how much output each made. */
  function ChunkPackets(m: nat, fs: seq<Flush>, size: (nat, nat) -> nat): (ps: seq<Packet>)
    ensures |ps| == |fs| && forall i :: 0 <= i < |fs| ==> ps[i] == PacketOf(m, fs[i], size(m, i))
  {
    seq(|fs|, i requires 0 <= i < |fs| => PacketOf(m, fs[i], size(m, i)))
  }

  function PacketOf(m: nat, f: Flush, len: nat): Packet {
    Packet(m, f.minor, f.last, 1, f.start, if f.end >= f.start then f.end - f.start else 0, len)
  }

  /** The packets of the first n chunks in output order. */
  function Packets(outs: seq<seq<Flush>>, n: nat, size: (nat, nat) -> nat): seq<Packet>
    requires n <= |outs|
  {
    if n == 0 then [] else Packets(outs, n - 1, size) + ChunkPackets(n - 1, outs[n - 1], size)
  }

  /** Every chunk numbered its batches, in 22 bits, and majors fit 42. */
  ghost predicate Fits(outs: seq<seq<Flush>>) {
    && |outs| <= 0x400_0000_0000
    && forall m :: 0 <= m < |outs| ==> Numbered(outs[m]) && |outs[m]| <= 0x40_0000
  }

  lemma {:induction false} CursorJoin(numa: bool, c: Cursor, a: seq<Packet>, b: seq<Packet>)
    ensures CursorAfter(numa, c, a + b) == CursorAfter(numa, CursorAfter(numa, c, a), b)
  {
    if b == [] {
      assert a + b == a;
    } else {
      var n := |b| - 1;
      assert (a + b)[..|a| + n] == a + b[..n];
      CursorJoin(numa, c, a, b[..n]);
    }
  }

  lemma ChainedJoin(numa: bool, c: Cursor, a: seq<Packet>, b: seq<Packet>)
    requires Chained(numa, c, a) && Chained(numa, CursorAfter(numa, c, a), b)
    ensures Chained(numa, c, a + b)
  {
    var q := a + b;
    forall k | 0 <= k < |q| ensures KeyOf(numa, q[k]) == KeyAt(numa, CursorAfter(numa, c, q[..k])) {
      ChainedAt(numa, c, a, b, k);
    }
  }

  lemma ChainedAt(numa: bool, c: Cursor, a: seq<Packet>, b: seq<Packet>, k: nat)
    requires Chained(numa, c, a) && Chained(numa, CursorAfter(numa, c, a), b) && k < |a + b|
    ensures KeyOf(numa, (a + b)[k]) == KeyAt(numa, CursorAfter(numa, c, (a + b)[..k]))
  {
    hide KeyOf, KeyAt, CursorAfter, Advance;
    if k < |a| {
      assert (a + b)[..k] == a[..k];
    } else {
      assert (a + b)[..k] == a + b[..k - |a|];
      CursorJoin(numa, c, a, b[..k - |a|]);
    }
  }

  /** Within a chunk the cursor counts minors; its flagged last batch moves on. */
  lemma {:induction false} ChunkCursor(m: nat, fs: seq<Flush>, size: (nat, nat) -> nat, j: nat)
    requires m < 0x400_0000_0000 && Numbered(fs) && |fs| <= 0x40_0000 && j <= |fs|
    ensures CursorAfter(true, Cursor(m, 0), ChunkPackets(m, fs, size)[..j])
         == if j < |fs| then Cursor(m, j) else Cursor(m + 1, 0)
  {
    if j > 0 {
      var ps := ChunkPackets(m, fs, size);
      ChunkCursor(m, fs, size, j - 1);
      assert ps[..j][..j - 1] == ps[..j - 1];
    }
  }

  lemma ChunkChained(m: nat, fs: seq<Flush>, size: (nat, nat) -> nat)
    requires m < 0x400_0000_0000 && Numbered(fs) && |fs| <= 0x40_0000
    ensures Chained(true, Cursor(m, 0), ChunkPackets(m, fs, size))
    ensures CursorAfter(true, Cursor(m, 0), ChunkPackets(m, fs, size)) == Cursor(m + 1, 0)
  {
    var ps := ChunkPackets(m, fs, size);
    forall k | 0 <= k < |ps| ensures KeyOf(true, ps[k]) == KeyAt(true, CursorAfter(true, Cursor(m, 0), ps[..k])) {
      ChunkCursor(m, fs, size, k);
    }
    ChunkCursor(m, fs, size, |fs|);
    assert ps[..|fs|] == ps;
  }

  lemma NothingChained()
    ensures Chained(true, Cursor(0, 0), []) && CursorAfter(true, Cursor(0, 0), []) == Cursor(0, 0)
  {
  }

  lemma {:induction false} PacketsChained(outs: seq<seq<Flush>>, n: nat, size: (nat, nat) -> nat)
    requires Fits(outs) && n <= |outs|
    ensures Chained(true, Cursor(0, 0), Packets(outs, n, size))
    ensures CursorAfter(true, Cursor(0, 0), Packets(outs, n, size)) == Cursor(n, 0)
  {
    hide Chained, CursorAfter, KeyOf, KeyAt;
    if n == 0 {
      NothingChained();
    } else {
      PacketsChained(outs, n - 1, size);
      ChunkChained(n - 1, outs[n - 1], size);
      ChainedJoin(true, Cursor(0, 0), Packets(outs, n - 1, size), ChunkPackets(n - 1, outs[n - 1], size));
      CursorJoin(true, Cursor(0, 0), Packets(outs, n - 1, size), ChunkPackets(n - 1, outs[n - 1], size));
    }
  }

  ghost predicate Before(p: Packet, q: Packet) {
    p.major < q.major || (p.major == q.major && p.minor < q.minor)
  }

  ghost predicate Sorted(n: nat, ps: seq<Packet>) {
    && (forall k :: 0 <= k < |ps| ==> ps[k].major < n && ps[k].minor < 0x40_0000)
    && (forall j, k :: 0 <= j < k < |ps| ==> Before(ps[j], ps[k]))
  }

  lemma {:induction false} PacketsSorted(outs: seq<seq<Flush>>, n: nat, size: (nat, nat) -> nat)
    requires Fits(outs) && n <= |outs|
    ensures Sorted(n, Packets(outs, n, size))
  {
    if n > 0 {
      PacketsSorted(outs, n - 1, size);
      SortedJoin(n - 1, Packets(outs, n - 1, size), outs[n - 1], size);
    }
  }

  lemma SortedJoin(m: nat, ps: seq<Packet>, fs: seq<Flush>, size: (nat, nat) -> nat)
    requires Sorted(m, ps) && Numbered(fs) && |fs| <= 0x40_0000
    ensures Sorted(m + 1, ps + ChunkPackets(m, fs, size))
  {
    var cs := ChunkPackets(m, fs, size);
    assert forall i :: 0 <= i < |cs| ==> cs[i].major == m && cs[i].minor == i;
    var q := ps + cs;
    forall j, k | 0 <= j < k < |q| ensures Before(q[j], q[k]) {}
  }

  /** The flushed batches are a plan of the orderer. */
  lemma PacketsArePlan(outs: seq<seq<Flush>>, size: (nat, nat) -> nat)
    requires Fits(outs)
    ensures IsPlan(true, Cursor(0, 0), Packets(outs, |outs|, size))
  {
    PacketsChained(outs, |outs|, size);
    PacketsSorted(outs, |outs|, size);
    var ps := Packets(outs, |outs|, size);
    hide Packets, Chained, PackKey;
    forall j, k | 0 <= j < k < |ps| ensures KeyOf(true, ps[j]) < KeyOf(true, ps[k]) {
      assert Before(ps[j], ps[k]);
      PackKeyOrder(Cursor(ps[j].major, ps[j].minor), Cursor(ps[k].major, ps[k].minor));
    }
  }

  /** The non-empty input ranges of the packets are consecutive. */
  ghost predicate Consecutive(ps: seq<Packet>, from: nat, upTo: nat) {
    if ps == [] then from == upTo
    else
      var p := ps[|ps| - 1];
      if p.inLen > 0 then p.inOff + p.inLen == upTo && Consecutive(ps[..|ps| - 1], from, p.inOff)
      else Consecutive(ps[..|ps| - 1], from, upTo)
  }

  /** Any prefix of a consecutive emission is consecutive. */
  lemma {:induction false} ConsecutivePrefix(ps: seq<Packet>, from: nat, upTo: nat, k: nat) returns (mid: nat)
    requires Consecutive(ps, from, upTo) && k <= |ps|
    ensures Consecutive(ps[..k], from, mid) && mid <= upTo
  {
    if k == |ps| {
      assert ps[..k] == ps;
      mid := upTo;
    } else {
      var p := ps[|ps| - 1];
      var rest := ps[..|ps| - 1];
      mid := ConsecutivePrefix(rest, from, if p.inLen > 0 then p.inOff else upTo, k);
      assert rest[..k] == ps[..k];
    }
  }

  lemma {:induction false} ConsecutiveJoin(ps: seq<Packet>, qs: seq<Packet>, a: nat, b: nat, c: nat)
    requires Consecutive(ps, a, b) && Consecutive(qs, b, c)
    ensures Consecutive(ps + qs, a, c)
  {
    if qs == [] {
      assert ps + qs == ps;
    } else {
      var n := |qs| - 1;
      assert (ps + qs)[..|ps| + n] == ps + qs[..n];
      ConsecutiveJoin(ps, qs[..n], a, b, if qs[n].inLen > 0 then qs[n].inOff else c);
    }
  }

  /** Tiling splits where the sequence does. */
  lemma {:induction false} TilesSplit(fs: seq<Flush>, gs: seq<Flush>, a: nat, c: nat) returns (b: nat)
    requires Tiles(fs + gs, a, c)
    ensures Tiles(fs, a, b) && Tiles(gs, b, c)
  {
    if gs == [] {
      assert fs + gs == fs;
      b := c;
    } else {
      var n := |gs| - 1;
      assert (fs + gs)[..|fs| + n] == fs + gs[..n];
      b := TilesSplit(fs, gs[..n], a, if gs[n].start < gs[n].end then gs[n].start else c);
    }
  }

  lemma {:induction false} ChunkConsecutive(m: nat, fs: seq<Flush>, size: (nat, nat) -> nat, j: nat, a: nat, b: nat)
    requires j <= |fs| && Tiles(fs[..j], a, b)
    ensures Consecutive(ChunkPackets(m, fs, size)[..j], a, b)
  {
    if j > 0 {
      var cs := ChunkPackets(m, fs, size);
      assert fs[..j][..j - 1] == fs[..j - 1] && cs[..j][..j - 1] == cs[..j - 1];
      ChunkConsecutive(m, fs, size, j - 1, a, if fs[j - 1].start < fs[j - 1].end then fs[j - 1].start else b);
    }
  }

  lemma WholeChunkConsecutive(m: nat, fs: seq<Flush>, size: (nat, nat) -> nat, a: nat, b: nat)
    requires Tiles(fs, a, b)
    ensures Consecutive(ChunkPackets(m, fs, size), a, b)
  {
    assert fs[..|fs|] == fs && ChunkPackets(m, fs, size)[..|fs|] == ChunkPackets(m, fs, size);
    ChunkConsecutive(m, fs, size, |fs|, a, b);
  }

  lemma {:induction false} PacketsConsecutive(outs: seq<seq<Flush>>, n: nat, size: (nat, nat) -> nat, upTo: nat)
    requires n <= |outs| && Tiles(Flat(outs, n), 0, upTo)
    ensures Consecutive(Packets(outs, n, size), 0, upTo)
  {
    if n > 0 {
      var fs := outs[n - 1];
      var mid := TilesSplit(Flat(outs, n - 1), fs, 0, upTo);
      PacketsConsecutive(outs, n - 1, size, mid);
      WholeChunkConsecutive(n - 1, fs, size, mid, upTo);
      hide Consecutive, Tiles;
      ConsecutiveJoin(Packets(outs, n - 1, size), ChunkPackets(n - 1, fs, size), 0, mid, upTo);
    }
  }

  /** A chunk has nothing out yet, or batches numbered within 22 bits; majors fit
      42 bits. */
  ghost predicate PartlyFits(outs: seq<seq<Flush>>) {
    && |outs| <= 0x400_0000_0000
    && forall m :: 0 <= m < |outs| ==> outs[m] == [] || (Numbered(outs[m]) && |outs[m]| <= 0x40_0000)
  }

  /** The chunks with nothing out are given one marker each. */
  ghost function Fill(outs: seq<seq<Flush>>): (r: seq<seq<Flush>>)
    ensures |r| == |outs| && forall m :: 0 <= m < |outs| && outs[m] != [] ==> r[m] == outs[m]
  {
    seq(|outs|, m requires 0 <= m < |outs| => if outs[m] == [] then [Flush(0, 0, 0, 0, true)] else outs[m])
  }

  lemma FillFits(outs: seq<seq<Flush>>)
    requires PartlyFits(outs)
    ensures Fits(Fill(outs))
  {
  }

  lemma {:induction false} FillKeeps(outs: seq<seq<Flush>>, n: nat, size: (nat, nat) -> nat)
    requires n <= |outs| && forall k :: 0 <= k < n ==> outs[k] != []
    ensures Packets(Fill(outs), n, size) == Packets(outs, n, size)
  {
    if n > 0 { FillKeeps(outs, n - 1, size); }
  }

  lemma {:induction false} FillAdds(outs: seq<seq<Flush>>, n: nat, size: (nat, nat) -> nat)
    requires n <= |outs|
    ensures multiset(Packets(outs, n, size)) <= multiset(Packets(Fill(outs), n, size))
  {
    if n > 0 {
      FillAdds(outs, n - 1, size);
      hide Fill;
      assert outs[n - 1] != [] ==> Fill(outs)[n - 1] == outs[n - 1];
    }
  }

  lemma {:induction false} PacketsGrow(outs: seq<seq<Flush>>, n: nat, m: nat, size: (nat, nat) -> nat)
    requires n <= m <= |outs|
    ensures Packets(outs, n, size) <= Packets(outs, m, size)
  {
    if n < m { PacketsGrow(outs, n, m - 1, size); }
  }

  /** A packet's major is a chunk that has batches out. */
  lemma {:induction false} MajorIsOut(outs: seq<seq<Flush>>, n: nat, size: (nat, nat) -> nat, p: Packet)
    requires n <= |outs| && p in Packets(outs, n, size)
    ensures p.major < n && outs[p.major] != []
  {
    if p in ChunkPackets(n - 1, outs[n - 1], size) {
    } else {
      MajorIsOut(outs, n - 1, size, p);
    }
  }

  /** The packet that would follow those of the first n chunks. */
  lemma NextInPlan(outs: seq<seq<Flush>>, n: nat, size: (nat, nat) -> nat) returns (p: Packet)
    requires n < |outs| && outs[n] == []
    ensures p.major == n
    ensures Packets(Fill(outs), n, size) + [p] <= Packets(Fill(outs), |outs|, size)
  {
    p := PacketOf(n, Flush(0, 0, 0, 0, true), size(n, 0));
    assert ChunkPackets(n, Fill(outs)[n], size) == [p];
    PacketsGrow(Fill(outs), n + 1, |outs|, size);
  }

  /** The first n chunks have their batches out, the next one does not. */
  ghost predicate Leading(outs: seq<seq<Flush>>, n: nat) {
    && n <= |outs| && (forall k :: 0 <= k < n ==> outs[k] != [])
    && (n < |outs| ==> outs[n] == [])
  }

  lemma {:induction false} FindLeading(outs: seq<seq<Flush>>, from: nat) returns (n: nat)
    requires from <= |outs| && forall k :: 0 <= k < from ==> outs[k] != []
    ensures Leading(outs, n)
    decreases |outs| - from
  {
    if from == |outs| || outs[from] == [] { n := from; } else { n := FindLeading(outs, from + 1); }
  }

  /** Batches whose packets complete in any order: what has been emitted is a
      prefix of the leading chunks' packets, and all of them once they arrived. */
  lemma EmittedOf(outs: seq<seq<Flush>>, n: nat, size: (nat, nat) -> nat, received: seq<Packet>, emitted: seq<Packet>,
                  pending: multiset<Node<Packet>>)
    requires PartlyFits(outs) && Leading(outs, n)
    requires Conserved(true, received, emitted, pending) && Chained(true, Cursor(0, 0), emitted)
    requires Stuck(true, pending, CursorAfter(true, Cursor(0, 0), emitted))
    requires multiset(received) <= multiset(Packets(outs, |outs|, size))
    ensures emitted <= Packets(outs, n, size)
    ensures multiset(Packets(outs, n, size)) <= multiset(received) ==> emitted == Packets(outs, n, size)
  {
    assert n <= |outs|;
    hide *;
    var plan := Packets(Fill(outs), |Fill(outs)|, size);
    var due := Packets(outs, n, size);
    FillFits(outs);
    PacketsArePlan(Fill(outs), size);
    LeadingPlan(outs, n, size);
    FillAdds(outs, |outs|, size);
    MaximalPrefix(true, Cursor(0, 0), plan, received, emitted, pending);
    if |emitted| > |due| {
      NotBeyond(outs, n, size, received, emitted, pending);
    }
    UpToDue(plan, due, received, emitted);
  }

  lemma LeadingPlan(outs: seq<seq<Flush>>, n: nat, size: (nat, nat) -> nat)
    requires Leading(outs, n)
    ensures Packets(outs, n, size) <= Packets(Fill(outs), |Fill(outs)|, size)
  {
    FillKeeps(outs, n, size);
    PacketsGrow(Fill(outs), n, |outs|, size);
  }

  lemma UpToDue(plan: seq<Packet>, due: seq<Packet>, received: seq<Packet>, emitted: seq<Packet>)
    requires due <= plan && emitted <= plan && |emitted| <= |due|
    requires |emitted| < |plan| ==> plan[|emitted|] !in received
    ensures emitted <= due
    ensures multiset(due) <= multiset(received) ==> emitted == due
  {
    if |emitted| < |due| {
      assert multiset(due)[due[|emitted|]] > 0;
      assert multiset(received)[due[|emitted|]] == 0;
    }
  }

  /** A packet of a chunk with nothing out was never received, so it was not emitted. */
  lemma NotBeyond(outs: seq<seq<Flush>>, n: nat, size: (nat, nat) -> nat, received: seq<Packet>, emitted: seq<Packet>,
                  pending: multiset<Node<Packet>>)
    requires Leading(outs, n) && Conserved(true, received, emitted, pending)
    requires emitted <= Packets(Fill(outs), |Fill(outs)|, size)
    requires multiset(received) <= multiset(Packets(outs, |outs|, size))
    ensures |emitted| <= |Packets(outs, n, size)|
  {
    hide Conserved, Packets;
    FillKeeps(outs, n, size);
    var due, plan := Packets(outs, n, size), Packets(Fill(outs), |Fill(outs)|, size);
    if n < |outs| {
      var p := NextInPlan(outs, n, size);
      CountSplit(true, received, emitted, pending, p);
      NotArrived(outs, size, received, p);
      assert p !in emitted;
      NotReached(plan, emitted, due, p);
    }
  }

  lemma NotArrived(outs: seq<seq<Flush>>, size: (nat, nat) -> nat, received: seq<Packet>, p: Packet)
    requires multiset(received) <= multiset(Packets(outs, |outs|, size))
    requires p.major < |outs| && outs[p.major] == []
    ensures multiset(received)[p] == 0
  {
    if p in multiset(Packets(outs, |outs|, size)) { MajorIsOut(outs, |outs|, size, p); }
  }

  lemma NotReached(plan: seq<Packet>, emitted: seq<Packet>, due: seq<Packet>, p: Packet)
    requires emitted <= plan && due + [p] <= plan && p !in emitted
    ensures |emitted| <= |due|
  {
    assert (due + [p])[|due|] == p;
  }

  /** On one node packets carry the batch index as major: batches 0, 1, 2, ... of
      one are a plan too. */
  lemma FlatPlan(ps: seq<Packet>)
    requires |ps| < 0x1_0000_0000_0000_0000
    requires forall k :: 0 <= k < |ps| ==> ps[k].major == k && ps[k].cnt == 1
    ensures IsPlan(false, Cursor(0, 0), ps)
  {
    forall k | 0 <= k < |ps| ensures KeyOf(false, ps[k]) == KeyAt(false, CursorAfter(false, Cursor(0, 0), ps[..k])) {
      FlatCursor(ps, k);
    }
  }

  lemma {:induction false} FlatCursor(ps: seq<Packet>, k: nat)
    requires k <= |ps| < 0x1_0000_0000_0000_0000
    requires forall j :: 0 <= j < |ps| ==> ps[j].major == j && ps[j].cnt == 1
    ensures CursorAfter(false, Cursor(0, 0), ps[..k]) == Cursor(k, 0)
  {
    if k > 0 {
      FlatCursor(ps, k - 1);
      assert ps[..k][..k - 1] == ps[..k - 1];
    }
  }

  /** Raw chunks of line-mode ingest are at most 2 MiB, and there are fewer than
      2^42 of them. */
  ghost predicate Ingested(bounds: seq<nat>) {
    && 0 < |bounds| <= 0x400_0000_0000
    && forall m :: 0 <= m < |bounds| ==> RawEnd(bounds, m) - RawStart(bounds, m) <= 0x20_0000
  }

  /** An orderer that has been given some of these batches' packets, each once, in
      any order. */
  ghost predicate Serves(engine: Engine, outs: seq<seq<Flush>>, size: (nat, nat) -> nat)
    reads engine, engine.pending, engine.pending.nodes, engine.ledger, engine.ledger.tracker
    reads engine.ledger.tracker.islands, engine.ledger.tracker.islands.nodes
  {
    && engine.Valid() && engine.numa && engine.origin == Cursor(0, 0)
    && Stuck(engine.numa, engine.pending.Contents(), engine.expected)
    && multiset(engine.received) <= multiset(Packets(outs, |outs|, size))
  }

  lemma Complete(received: seq<Packet>, plan: seq<Packet>)
    requires multiset(received) <= multiset(plan) && |received| == |plan|
    ensures multiset(received) == multiset(plan)
  {
    var rest := multiset(plan) - multiset(received);
    assert multiset(plan) == multiset(received) + rest;
    assert |multiset(received)| == |received| && |multiset(plan)| == |plan|;
  }

  /** With the batches of the first n chunks out, up to byte x: the emission is an
      unbroken stretch from byte 0 that never goes past x, and it is those chunks'
      packets, all of them, once they are in. */
  ghost predicate InOrder(engine: Engine, outs: seq<seq<Flush>>, size: (nat, nat) -> nat, n: nat, x: nat, upTo: nat)
    requires n <= |outs|
    reads engine, engine.ledger
  {
    && engine.ledger.emitted <= Packets(outs, n, size)
    && Consecutive(engine.ledger.emitted, 0, upTo) && upTo <= x
    && (multiset(Packets(outs, n, size)) <= multiset(engine.received) ==>
          engine.ledger.emitted == Packets(outs, n, size) && Consecutive(engine.ledger.emitted, 0, x))
  }

  lemma ServedInOrder(outs: seq<seq<Flush>>, n: nat, size: (nat, nat) -> nat, x: nat, engine: Engine)
    returns (upTo: nat)
    requires PartlyFits(outs) && Leading(outs, n) && Tiles(Flat(outs, n), 0, x) && Serves(engine, outs, size)
    ensures InOrder(engine, outs, size, n, x, upTo)
  {
    Served(outs, n, size, engine);
    hide Tiles, Flat, Packets, Stuck, Engine.Valid, Serves, Consecutive;
    PacketsConsecutive(outs, n, size, x);
    var due := Packets(outs, n, size);
    var out := engine.ledger.emitted;
    upTo := ConsecutivePrefix(due, 0, x, |out|);
    assert due[..|out|] == out;
  }

  lemma Served(outs: seq<seq<Flush>>, n: nat, size: (nat, nat) -> nat, engine: Engine)
    requires PartlyFits(outs) && Leading(outs, n) && Serves(engine, outs, size)
    ensures engine.ledger.emitted <= Packets(outs, n, size)
    ensures multiset(Packets(outs, n, size)) <= multiset(engine.received)
        ==> engine.ledger.emitted == Packets(outs, n, size)
  {
    hide Packets, Stuck, Conserved, Chained, CursorAfter, PartlyFits, Leading;
    EmittedOf(outs, n, size, engine.received, engine.ledger.emitted, engine.pending.Contents());
  }

  /** NUMA line mode end to end, in every reachable state and for any completion
      order: what is emitted is in input order from byte 0, the lines of the chunks
      whose batches are out; once the limit is among them, the first `limit` lines
      and nothing after them. */
  lemma LinePathInOrder(c: LineRun.Config, states: seq<LineRun.Chain>, i: nat, size: (nat, nat) -> nat, engine: Engine)
    returns (n: nat, x: nat, upTo: nat)
    requires LineRun.Run(c, states) && i < |states| && Ingested(c.bounds)
    requires Serves(engine, states[i].outs, size)
    ensures Leading(states[i].outs, n) && InOrder(engine, states[i].outs, size, n, x, upTo)
    ensures n <= |c.bounds| && LineRun.StandsAt(c, n, x) && x <= |c.input.bytes|
    ensures Reached(c.limit, c.LinesBefore(n)) ==> Tiles(Flat(states[i].outs, |states[i].outs|), 0, x)
  {
    hide Serves, InOrder, LineRun.Run, LineRun.StandsAt, Flat, Tiles;
    n := FindLeading(states[i].outs, 0);
    x := LineRun.DeliversFirstLines(c, states, i, n);
    LineFits(c, states, i);
    upTo := ServedInOrder(states[i].outs, n, size, x, engine);
  }

  lemma LineFits(c: LineRun.Config, states: seq<LineRun.Chain>, i: nat)
    requires LineRun.Run(c, states) && i < |states| && Ingested(c.bounds)
    ensures PartlyFits(states[i].outs)
  {
    LineRun.RunInv(c, states, i);
    hide Numbered, LineRun.Run;
    var outs := states[i].outs;
    forall m | 0 <= m < |outs| && outs[m] != [] ensures Numbered(outs[m]) && |outs[m]| <= 0x40_0000 {
      LineRun.MinorsFit(c, states, i, m);
    }
  }

  /** Exact-L mode end to end, in every reachable state: the batches of the
      sequential split, in input order. */
  lemma HandoffPathInOrder(c: HandoffRun.Config, states: seq<HandoffRun.Chain>, i: nat, size: (nat, nat) -> nat,
                           engine: Engine)
    returns (n: nat, x: nat, upTo: nat)
    requires HandoffRun.Run(c, states) && i < |states| && Ingested(c.bounds)
    requires Serves(engine, states[i].outs, size)
    ensures Leading(states[i].outs, n) && InOrder(engine, states[i].outs, size, n, x, upTo)
    ensures n <= |c.bounds| == |states[i].outs|
    ensures if HandoffRun.Closed(c, n)
            then HandoffRun.SequentialSplit(c.input, c.L, c.limit, Flat(states[i].outs, |c.bounds|), x)
            else HandoffRun.Prefix(c, states[i], n, x)
  {
    hide Serves, InOrder, HandoffRun.Run, HandoffRun.SequentialSplit, HandoffRun.Prefix, HandoffRun.Closed, Flat, Tiles;
    n := FindLeading(states[i].outs, 0);
    x := HandoffRun.HandoffRefinesSequentialSplit(c, states, i, n);
    HandoffFits(c, states, i);
    upTo := ServedInOrder(states[i].outs, n, size, x, engine);
  }

  lemma HandoffFits(c: HandoffRun.Config, states: seq<HandoffRun.Chain>, i: nat)
    requires HandoffRun.Run(c, states) && i < |states| && Ingested(c.bounds)
    ensures PartlyFits(states[i].outs)
  {
    HandoffRun.RunInv(c, states, i);
    hide Numbered, HandoffRun.Run;
    var outs := states[i].outs;
    forall m | 0 <= m < |outs| && outs[m] != [] ensures Numbered(outs[m]) && |outs[m]| <= 0x40_0000 {
      HandoffRun.MinorsFit(c, states, i, m);
    }
  }

  /** Raw chunks of byte-mode ingest are at most the minor range times L. */
  ghost predicate IngestedBytes(bounds: seq<nat>, L: nat) {
    && 0 < |bounds| <= 0x400_0000_0000
    && forall m :: 0 <= m < |bounds| ==> RawEnd(bounds, m) <= RawStart(bounds, m) + 0x3F_FFFF * L
  }

  lemma ByteFits(bounds: seq<nat>, L: nat, limit: nat, outs: seq<seq<Flush>>)
    requires L > 0 && IngestedBytes(bounds, L) && ByteScan.ChunksScanned(bounds, L, limit, outs)
    ensures PartlyFits(outs)
  {
    forall m | 0 <= m < |outs| && outs[m] != [] ensures Numbered(outs[m]) && |outs[m]| <= 0x40_0000 {
      ByteScan.BlocksFit(RawStart(bounds, m), RawEnd(bounds, m), L, limit, outs[m], 0x3F_FFFF);
    }
  }

  /** Byte mode end to end: the bytes of the chunks whose batches are out, up to
      the limit, in input order. */
  lemma BytePathInOrder(bounds: seq<nat>, total: nat, L: nat, limit: nat, outs: seq<seq<Flush>>,
                        size: (nat, nat) -> nat, engine: Engine)
    returns (n: nat, upTo: nat)
    requires Layout(bounds, total) && ByteScan.ChunksScanned(bounds, L, limit, outs)
    requires L > 0 && IngestedBytes(bounds, L)
    requires Serves(engine, outs, size)
    ensures Leading(outs, n)
    ensures InOrder(engine, outs, size, n, ByteScan.Clamp(limit, ByteScan.RawUpTo(bounds, n)), upTo)
    ensures 0 < limit <= ByteScan.RawUpTo(bounds, n) ==> Tiles(Flat(outs, |outs|), 0, limit)
  {
    hide Serves, InOrder;
    n := FindLeading(outs, 0);
    ByteScan.DeliversFirstBytes(bounds, total, L, limit, outs, n);
    hide Flat, Tiles;
    ByteFits(bounds, L, limit, outs);
    upTo := ServedInOrder(outs, n, size, ByteScan.Clamp(limit, ByteScan.RawUpTo(bounds, n)), engine);
  }
}
