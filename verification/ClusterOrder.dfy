/** Crashing workers on several nodes and the orderer together: whatever dies where,
    outputs leave in input order. */
module ClusterOrder {
  import opened MinHeap
  import opened Stream
  import C = ClaimProtocol
  import T = ClaimTheorems
  import N = Cluster
  import O = Orderer
  import E = EndToEnd
  import F = CrashOrder
  import LineRun
  import HandoffRun
  import ByteScan

  /** Every ring's batches are flushes of the chunks, each flushed to one ring once. */
  ghost predicate Scanned(outs: seq<seq<Flush>>, s: N.State) {
    && (forall j: nat, i: nat :: j < |s| && i < |s[j].pub| ==> IsFlush(outs, s[j].pub[i]))
    && (forall j: nat, k: nat, i: nat, l: nat ::
          j < |s| && k < |s| && i < |s[j].pub| && l < |s[k].pub| && SameNumber(s[j].pub[i], s[k].pub[l]) ==>
            j == k && i == l)
  }

  predicate IsFlush(outs: seq<seq<Flush>>, b: C.Batch) {
    && b.major < |outs| && b.minor < |outs[b.major]|
    && b.offset == outs[b.major][b.minor].start && b.end == outs[b.major][b.minor].end
  }

  predicate SameNumber(a: C.Batch, b: C.Batch) {
    a.major == b.major && a.minor == b.minor
  }

  /** Packet t of node j's order pipe is that of the batch with this number. */
  predicate Sent(s: N.State, j: nat, t: nat, major: nat, minor: nat) {
    && j < |s| && t < |s[j].order| && s[j].order[t].idx < |s[j].pub|
    && s[j].pub[s[j].order[t].idx].major == major && s[j].pub[s[j].order[t].idx].minor == minor
  }

  /** How much output the batch with this number committed, 0 if it has not. */
  ghost function Size(s: N.State): (nat, nat) -> nat {
    (major, minor) => SizeOf(s, major, minor)
  }

  ghost function SizeOf(s: N.State, major: nat, minor: nat): nat {
    if exists j: nat, t: nat :: Sent(s, j, t, major, minor) then
      var j: nat, t: nat :| Sent(s, j, t, major, minor);
      s[j].order[t].len
    else 0
  }

  /** An order packet as the orderer reads it: its batch's number, flag and range. */
  function Received(outs: seq<seq<Flush>>, pub: seq<C.Batch>, p: C.OrderPacket): O.Packet {
    var b := if p.idx < |pub| then pub[p.idx] else C.Batch(0, 0, 0, 0);
    var flag := b.major < |outs| && b.minor < |outs[b.major]| && outs[b.major][b.minor].last;
    O.Packet(b.major, b.minor, flag, 1, b.offset, if b.end >= b.offset then b.end - b.offset else 0, p.len)
  }

  ghost function NodeArrivals(outs: seq<seq<Flush>>, r: C.State): (ps: seq<O.Packet>)
    ensures |ps| == |r.order| && forall t :: 0 <= t < |ps| ==> ps[t] == Received(outs, r.pub, r.order[t])
  {
    seq(|r.order|, t requires 0 <= t < |r.order| => Received(outs, r.pub, r.order[t]))
  }

  /** What the first n nodes have sent down the order pipe. */
  ghost function Arrivals(outs: seq<seq<Flush>>, s: N.State, n: nat): seq<O.Packet>
    requires n <= |s|
  {
    if n == 0 then [] else Arrivals(outs, s, n - 1) + NodeArrivals(outs, s[n - 1])
  }

  /** An orderer that has read some of it. */
  ghost predicate Reads(engine: O.Engine, outs: seq<seq<Flush>>, s: N.State)
    reads engine, engine.pending, engine.pending.nodes, engine.ledger, engine.ledger.tracker
    reads engine.ledger.tracker.islands, engine.ledger.tracker.islands.nodes
  {
    && engine.Valid() && engine.numa && engine.origin == O.Cursor(0, 0)
    && O.Stuck(engine.numa, engine.pending.Contents(), engine.expected)
    && multiset(engine.received) <= multiset(Arrivals(outs, s, |s|))
  }

  ghost predicate Sound(s: N.State) {
    forall j: nat :: j < |s| ==> F.Sound(s[j])
  }

  lemma RunSound(c: N.Config, states: seq<N.State>, actions: seq<N.Action>, n: nat)
    requires N.Run(c, states, actions) && n < |states|
    ensures Sound(states[n])
  {
    N.RunSized(c, states, actions, n);
    forall j: nat | j < |states[n]| ensures F.Sound(states[n][j]) {
      var rs, ras := N.RingRun(c, states, actions, n, n, j);
      NodeSound(N.Ring(c, states[n], j), rs, ras);
    }
  }

  lemma NodeSound(c: C.Config, rs: seq<C.State>, ras: seq<C.Action>)
    requires C.Run(c, rs, ras)
    ensures F.Sound(rs[|ras|])
  {
    N.RunLength(c, rs, ras);
    hide C.Run, F.Sound;
    F.RunSound(c, rs, ras, |ras|);
  }

  /** Two packets of one number are one packet. */
  lemma SentOnce(outs: seq<seq<Flush>>, s: N.State, j: nat, t: nat, k: nat, u: nat, major: nat, minor: nat)
    requires Sound(s) && Scanned(outs, s) && Sent(s, j, t, major, minor) && Sent(s, k, u, major, minor)
    ensures j == k && t == u
  {
    assert F.Sound(s[j]);
    assert SameNumber(s[j].pub[s[j].order[t].idx], s[k].pub[s[k].order[u].idx]);
  }

  lemma SizeIs(outs: seq<seq<Flush>>, s: N.State, j: nat, t: nat, major: nat, minor: nat)
    requires Sound(s) && Scanned(outs, s) && Sent(s, j, t, major, minor)
    ensures SizeOf(s, major, minor) == s[j].order[t].len
  {
    var k: nat, u: nat :| Sent(s, k, u, major, minor) && SizeOf(s, major, minor) == s[k].order[u].len;
    SentOnce(outs, s, j, t, k, u, major, minor);
  }

  lemma {:induction false} FromNode(outs: seq<seq<Flush>>, s: N.State, n: nat, a: nat) returns (j: nat, t: nat)
    requires n <= |s| && a < |Arrivals(outs, s, n)|
    ensures j < n && t < |s[j].order| && Arrivals(outs, s, n)[a] == Received(outs, s[j].pub, s[j].order[t])
    ensures n > 0 && a >= |Arrivals(outs, s, n - 1)| ==> j == n - 1 && t == a - |Arrivals(outs, s, n - 1)|
    ensures n > 0 && a < |Arrivals(outs, s, n - 1)| ==> j < n - 1
  {
    var before := Arrivals(outs, s, n - 1);
    if a < |before| {
      j, t := FromNode(outs, s, n - 1, a);
    } else {
      j, t := n - 1, a - |before|;
    }
  }

  /** A packet carries the number of its batch. */
  lemma ReceivedNumber(outs: seq<seq<Flush>>, s: N.State, j: nat, t: nat)
    requires Sound(s) && Scanned(outs, s) && j < |s| && t < |s[j].order|
    ensures var p := Received(outs, s[j].pub, s[j].order[t]);
      && Sent(s, j, t, p.major, p.minor) && p.major < |outs| && p.minor < |outs[p.major]|
  {
    assert F.Sound(s[j]);
    assert IsFlush(outs, s[j].pub[s[j].order[t].idx]);
  }

  lemma {:induction false} ArrivalsDiffer(outs: seq<seq<Flush>>, s: N.State, n: nat, a: nat, b: nat)
    requires Sound(s) && Scanned(outs, s) && n <= |s| && a < b < |Arrivals(outs, s, n)|
    ensures Arrivals(outs, s, n)[a] != Arrivals(outs, s, n)[b]
  {
    var before := Arrivals(outs, s, n - 1);
    if b < |before| {
      ArrivalsDiffer(outs, s, n - 1, a, b);
    } else {
      var j, t := FromNode(outs, s, n, a);
      var k, u := FromNode(outs, s, n, b);
      hide Arrivals, Scanned, Sound, Received, Sent;
      ReceivedNumber(outs, s, j, t);
      ReceivedNumber(outs, s, k, u);
      var p, q := Received(outs, s[j].pub, s[j].order[t]), Received(outs, s[k].pub, s[k].order[u]);
      if p == q { SentOnce(outs, s, j, t, k, u, p.major, p.minor); }
    }
  }

  lemma {:induction false} InPackets(outs: seq<seq<Flush>>, n: nat, size: (nat, nat) -> nat, m: nat, k: nat)
    requires m < n <= |outs| && k < |outs[m]|
    ensures E.PacketOf(m, outs[m][k], size(m, k)) in E.Packets(outs, n, size)
  {
    if m < n - 1 {
      InPackets(outs, n - 1, size, m, k);
    } else {
      assert E.ChunkPackets(m, outs[m], size)[k] == E.PacketOf(m, outs[m][k], size(m, k));
    }
  }

  /** A packet is the one planned for its batch. */
  lemma ReceivedPlanned(outs: seq<seq<Flush>>, s: N.State, j: nat, t: nat)
    requires E.PartlyFits(outs) && Sound(s) && Scanned(outs, s) && j < |s| && t < |s[j].order|
    ensures Received(outs, s[j].pub, s[j].order[t]) in E.Packets(outs, |outs|, Size(s))
  {
    var p := Received(outs, s[j].pub, s[j].order[t]);
    ReceivedNumber(outs, s, j, t);
    SizeIs(outs, s, j, t, p.major, p.minor);
    ReceivedIs(outs, s, j, t);
    hide Sound, Scanned, Received, Sent, SizeOf, E.PartlyFits;
    InPackets(outs, |outs|, Size(s), p.major, p.minor);
  }

  lemma ReceivedIs(outs: seq<seq<Flush>>, s: N.State, j: nat, t: nat)
    requires E.PartlyFits(outs) && Sound(s) && Scanned(outs, s) && j < |s| && t < |s[j].order|
    ensures var p := Received(outs, s[j].pub, s[j].order[t]);
      && p.major < |outs| && p.minor < |outs[p.major]|
      && p == E.PacketOf(p.major, outs[p.major][p.minor], s[j].order[t].len)
  {
    assert F.Sound(s[j]);
    assert IsFlush(outs, s[j].pub[s[j].order[t].idx]);
  }

  lemma ArrivalsPlanned(outs: seq<seq<Flush>>, s: N.State)
    requires E.PartlyFits(outs) && Sound(s) && Scanned(outs, s)
    ensures multiset(Arrivals(outs, s, |s|)) <= multiset(E.Packets(outs, |outs|, Size(s)))
  {
    hide Sound, Scanned, Received, E.PartlyFits, E.Packets, Size;
    var arrivals, plan := Arrivals(outs, s, |s|), E.Packets(outs, |outs|, Size(s));
    forall p | p in multiset(arrivals) ensures multiset(arrivals)[p] <= multiset(plan)[p] {
      var a :| 0 <= a < |arrivals| && arrivals[a] == p;
      forall b | 0 <= b < |arrivals| && b != a ensures arrivals[b] != p {
        if a < b { ArrivalsDiffer(outs, s, |s|, a, b); } else { ArrivalsDiffer(outs, s, |s|, b, a); }
      }
      O.Once(arrivals, a);
      var j, t := FromNode(outs, s, |s|, a);
      ReceivedPlanned(outs, s, j, t);
      assert p in multiset(plan);
    }
  }

  /** In every state of every run of all nodes, with deaths anywhere, the orderer is
      given packets of the chunks' batches, each once. */
  lemma NodesServe(c: N.Config, states: seq<N.State>, actions: seq<N.Action>, n: nat, outs: seq<seq<Flush>>,
                   engine: O.Engine)
    requires N.Run(c, states, actions) && n < |states| && E.PartlyFits(outs)
    requires Scanned(outs, states[n]) && Reads(engine, outs, states[n])
    ensures E.Serves(engine, outs, Size(states[n]))
  {
    RunSound(c, states, actions, n);
    hide N.Run, Scanned, Sound, E.PartlyFits, O.Stuck, Size;
    ArrivalsPlanned(outs, states[n]);
  }

  /** NUMA line mode with workers dying on any node: in input order from byte 0, the
      lines of the chunks whose batches are out. */
  lemma LinesInOrder(c: N.Config, states: seq<N.State>, actions: seq<N.Action>, at: nat,
                     lines: LineRun.Config, chains: seq<LineRun.Chain>, i: nat, engine: O.Engine)
    returns (n: nat, x: nat, upTo: nat)
    requires N.Run(c, states, actions) && at < |states|
    requires LineRun.Run(lines, chains) && i < |chains| && E.Ingested(lines.bounds)
    requires Scanned(chains[i].outs, states[at]) && Reads(engine, chains[i].outs, states[at])
    ensures E.Leading(chains[i].outs, n) && E.InOrder(engine, chains[i].outs, Size(states[at]), n, x, upTo)
    ensures n <= |lines.bounds| && LineRun.StandsAt(lines, n, x) && x <= |lines.input.bytes|
    ensures Reached(lines.limit, lines.LinesBefore(n)) ==> Tiles(Flat(chains[i].outs, |chains[i].outs|), 0, x)
  {
    hide *;
    E.LineFits(lines, chains, i);
    NodesServe(c, states, actions, at, chains[i].outs, engine);
    n, x, upTo := E.LinePathInOrder(lines, chains, i, Size(states[at]), engine);
  }

  /** The same in exact-L mode. */
  lemma BatchesInOrder(c: N.Config, states: seq<N.State>, actions: seq<N.Action>, at: nat,
                       exact: HandoffRun.Config, chains: seq<HandoffRun.Chain>, i: nat, engine: O.Engine)
    returns (n: nat, x: nat, upTo: nat)
    requires N.Run(c, states, actions) && at < |states|
    requires HandoffRun.Run(exact, chains) && i < |chains| && E.Ingested(exact.bounds)
    requires Scanned(chains[i].outs, states[at]) && Reads(engine, chains[i].outs, states[at])
    ensures E.Leading(chains[i].outs, n) && E.InOrder(engine, chains[i].outs, Size(states[at]), n, x, upTo)
    ensures n <= |exact.bounds| == |chains[i].outs|
    ensures if HandoffRun.Closed(exact, n)
            then HandoffRun.SequentialSplit(exact.input, exact.L, exact.limit, Flat(chains[i].outs, |exact.bounds|), x)
            else HandoffRun.Prefix(exact, chains[i], n, x)
  {
    hide *;
    E.HandoffFits(exact, chains, i);
    NodesServe(c, states, actions, at, chains[i].outs, engine);
    n, x, upTo := E.HandoffPathInOrder(exact, chains, i, Size(states[at]), engine);
  }

  /** And in byte mode. */
  lemma BytesInOrder(c: N.Config, states: seq<N.State>, actions: seq<N.Action>, at: nat,
                     bounds: seq<nat>, total: nat, L: nat, limit: nat, outs: seq<seq<Flush>>, engine: O.Engine)
    returns (n: nat, upTo: nat)
    requires N.Run(c, states, actions) && at < |states|
    requires Layout(bounds, total) && ByteScan.ChunksScanned(bounds, L, limit, outs)
    requires L > 0 && E.IngestedBytes(bounds, L)
    requires Scanned(outs, states[at]) && Reads(engine, outs, states[at])
    ensures E.Leading(outs, n)
    ensures E.InOrder(engine, outs, Size(states[at]), n, ByteScan.Clamp(limit, ByteScan.RawUpTo(bounds, n)), upTo)
    ensures 0 < limit <= ByteScan.RawUpTo(bounds, n) ==> Tiles(Flat(outs, |outs|), 0, limit)
  {
    hide *;
    E.ByteFits(bounds, L, limit, outs);
    NodesServe(c, states, actions, at, outs, engine);
    n, upTo := E.BytePathInOrder(bounds, total, L, limit, outs, Size(states[at]), engine);
  }

  // ---- The end of the input ----

  /** On node j a worker is about to leave at the end of the input, and it is the
      last to hold anything; no batch of the node was lost. */
  ghost predicate Done(c: N.Config, s: N.State, j: nat, wid: nat)
    requires j < |s| == |c.rings|
  {
    && wid < c.rings[j].workers == |s[j].workers| && s[j].workers[wid].pc == C.FinPoll && s[j].escrow == []
    && (forall v :: 0 <= v < |s[j].workers| && v != wid ==> C.InHand(s[j].workers[v].pc) == [])
    && (forall i :: 0 <= i < |s[j].pub| ==> !T.LostBatch(s[j], i))
  }

  ghost predicate NodeDone(c: N.Config, s: N.State, j: nat)
    requires j < |s| == |c.rings|
  {
    exists wid: nat :: Done(c, s, j, wid)
  }

  ghost predicate AllDone(c: N.Config, s: N.State) {
    |s| == |c.rings| && forall j: nat :: j < |s| ==> NodeDone(c, s, j)
  }

  /** Every batch of every chunk is in some ring. */
  ghost predicate AllPublished(outs: seq<seq<Flush>>, s: N.State) {
    forall m: nat, k: nat :: m < |outs| && k < |outs[m]| ==> Published(s, m, k)
  }

  ghost predicate Published(s: N.State, m: nat, k: nat) {
    exists j: nat, i: nat :: j < |s| && i < |s[j].pub| && s[j].pub[i].major == m && s[j].pub[i].minor == k
  }

  lemma NodeCommitted(c: N.Config, states: seq<N.State>, actions: seq<N.Action>, n: nat, j: nat)
    requires N.Run(c, states, actions) && n < |states| && AllDone(c, states[n]) && j < |states[n]|
    ensures forall i :: 0 <= i < |states[n][j].pub| ==> F.Committed(states[n][j], i)
  {
    var rs, ras := N.RingRun(c, states, actions, n, n, j);
    assert NodeDone(c, states[n], j);
    var wid: nat :| Done(c, states[n], j, wid);
    N.RunLength(N.Ring(c, states[n], j), rs, ras);
    hide N.Run, C.Run, T.LostBatch, N.Foreign;
    F.AllCommitted(N.Ring(c, states[n], j), rs, ras, |ras|, wid);
  }

  lemma {:induction false} InArrivals(outs: seq<seq<Flush>>, s: N.State, n: nat, j: nat, t: nat)
    requires j < n <= |s| && t < |s[j].order|
    ensures Received(outs, s[j].pub, s[j].order[t]) in Arrivals(outs, s, n)
  {
    if j < n - 1 {
      InArrivals(outs, s, n - 1, j, t);
    } else {
      assert NodeArrivals(outs, s[j])[t] == Received(outs, s[j].pub, s[j].order[t]);
    }
  }

  lemma {:induction false} PacketsFrom(outs: seq<seq<Flush>>, n: nat, size: (nat, nat) -> nat, p: O.Packet)
    returns (k: nat)
    requires n <= |outs| && p in E.Packets(outs, n, size)
    ensures p.major < n && k < |outs[p.major]| && p == E.PacketOf(p.major, outs[p.major][k], size(p.major, k))
  {
    var cs := E.ChunkPackets(n - 1, outs[n - 1], size);
    if p in cs {
      k :| 0 <= k < |cs| && cs[k] == p;
    } else {
      k := PacketsFrom(outs, n - 1, size, p);
    }
  }

  /** The planned packet of a batch that is in a ring and committed has arrived. */
  lemma PlannedArrived(outs: seq<seq<Flush>>, s: N.State, m: nat, k: nat)
    requires E.PartlyFits(outs) && Sound(s) && Scanned(outs, s) && Published(s, m, k) && m < |outs| && k < |outs[m]|
    requires forall j: nat, i: nat :: j < |s| && i < |s[j].pub| ==> F.Committed(s[j], i)
    ensures E.PacketOf(m, outs[m][k], SizeOf(s, m, k)) in Arrivals(outs, s, |s|)
  {
    var j: nat, i: nat :| j < |s| && i < |s[j].pub| && s[j].pub[i].major == m && s[j].pub[i].minor == k;
    assert F.Committed(s[j], i);
    var t: nat :| t < |s[j].order| && s[j].order[t].idx == i;
    ReceivedIs(outs, s, j, t);
    SizeIs(outs, s, j, t, m, k);
    InArrivals(outs, s, |s|, j, t);
  }

  lemma AllArrived(outs: seq<seq<Flush>>, s: N.State)
    requires E.Fits(outs) && E.PartlyFits(outs) && Sound(s) && Scanned(outs, s) && AllPublished(outs, s)
    requires forall j: nat, i: nat :: j < |s| && i < |s[j].pub| ==> F.Committed(s[j], i)
    ensures multiset(E.Packets(outs, |outs|, Size(s))) <= multiset(Arrivals(outs, s, |s|))
  {
    var arrivals, plan := Arrivals(outs, s, |s|), E.Packets(outs, |outs|, Size(s));
    E.PacketsArePlan(outs, Size(s));
    hide E.Packets, Arrivals, E.Fits, E.PartlyFits, Scanned, Sound, O.Chained, O.KeyOf, SizeOf, F.Committed;
    forall p | p in multiset(plan) ensures multiset(plan)[p] <= multiset(arrivals)[p] {
      O.PlanDistinct(true, O.Cursor(0, 0), plan, p);
      var k := PacketsFrom(outs, |outs|, Size(s), p);
      assert Published(s, p.major, k);
      PlannedArrived(outs, s, p.major, k);
      assert p in multiset(arrivals);
    }
  }

  /** At the end of the input, with no batch lost on any node and the whole order
      pipe read, every batch of every chunk has left, in input order. */
  lemma EverythingLeaves(c: N.Config, states: seq<N.State>, actions: seq<N.Action>, n: nat,
                         outs: seq<seq<Flush>>, engine: O.Engine)
    requires N.Run(c, states, actions) && n < |states| && E.Fits(outs) && AllDone(c, states[n])
    requires Scanned(outs, states[n]) && AllPublished(outs, states[n]) && Reads(engine, outs, states[n])
    requires |engine.received| == |Arrivals(outs, states[n], |states[n]|)|
    ensures engine.ledger.emitted == E.Packets(outs, |outs|, Size(states[n]))
  {
    RunSound(c, states, actions, n);
    forall j: nat | j < |states[n]| ensures forall i :: 0 <= i < |states[n][j].pub| ==> F.Committed(states[n][j], i) {
      NodeCommitted(c, states, actions, n, j);
    }
    FitsAll(outs);
    hide N.Run, Scanned, Sound, E.Fits, E.PartlyFits, E.Packets, Arrivals, AllPublished, O.Stuck, O.Engine.Valid, Size,
      F.Committed;
    AllArrived(outs, states[n]);
    E.Complete(engine.received, Arrivals(outs, states[n], |states[n]|));
    NodesServe(c, states, actions, n, outs, engine);
    E.Served(outs, |outs|, Size(states[n]), engine);
  }

  lemma FitsAll(outs: seq<seq<Flush>>)
    requires E.Fits(outs)
    ensures E.PartlyFits(outs) && E.Leading(outs, |outs|)
  {
  }
}
