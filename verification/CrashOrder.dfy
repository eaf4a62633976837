/** The claim protocol and the orderer together, on one node: whatever workers
    die when, outputs leave in ticket order, once each. */
module CrashOrder {
  import opened MinHeap
  import C = ClaimProtocol
  import T = ClaimTheorems
  import I = ClaimInvariant
  import O = Orderer
  import E = EndToEnd

  /** The output length ticket i committed, 0 if it has not. */
  ghost function LengthOf(order: seq<C.OrderPacket>, i: nat): nat {
    if order == [] then 0
    else if order[|order| - 1].idx == i then order[|order| - 1].len
    else LengthOf(order[..|order| - 1], i)
  }

  /** Without NUMA a packet's major is its ticket; its input range is its slot's. */
  function Received(pub: seq<C.Batch>, p: C.OrderPacket): O.Packet {
    var b := if p.idx < |pub| then pub[p.idx] else C.Batch(0, 0, 0, 0);
    O.Packet(p.idx, 0, false, 1, b.offset, if b.end >= b.offset then b.end - b.offset else 0, p.len)
  }

  /** Packets name published batches, no two the same. */
  ghost predicate Sound(s: C.State) {
    && (forall k :: 0 <= k < |s.order| ==> s.order[k].idx < |s.pub|)
    && (forall j, k :: 0 <= j < k < |s.order| ==> s.order[j].idx != s.order[k].idx)
  }

  /** The order pipe's content as the orderer reads it. */
  ghost function Arrivals(s: C.State): (ps: seq<O.Packet>)
    ensures |ps| == |s.order| && forall k :: 0 <= k < |ps| ==> ps[k] == Received(s.pub, s.order[k])
  {
    seq(|s.order|, k requires 0 <= k < |s.order| => Received(s.pub, s.order[k]))
  }

  /** All batches published so far, in ticket order. */
  ghost function Plan(s: C.State): (ps: seq<O.Packet>)
    ensures |ps| == |s.pub|
    ensures forall i :: 0 <= i < |ps| ==> ps[i] == Received(s.pub, C.OrderPacket(0, i, 0, LengthOf(s.order, i), [], 0))
  {
    seq(|s.pub|, i requires 0 <= i < |s.pub| => Received(s.pub, C.OrderPacket(0, i, 0, LengthOf(s.order, i), [], 0)))
  }

  /** In every run they do. */
  lemma RunSound(c: C.Config, states: seq<C.State>, actions: seq<C.Action>, n: nat)
    requires C.Run(c, states, actions) && n < |states|
    ensures Sound(states[n])
  {
    T.CommitsAtMostOnce(c, states, actions, n);
    I.RunInv(c, states, actions, n);
  }

  lemma {:induction false} LengthOfOrder(order: seq<C.OrderPacket>, k: nat)
    requires k < |order| && forall i, j :: 0 <= i < j < |order| ==> order[i].idx != order[j].idx
    ensures LengthOf(order, order[k].idx) == order[k].len
  {
    var n := |order| - 1;
    if k < n { LengthOfOrder(order[..n], k); }
  }

  /** Committed packets are batches of the plan, each at most once. */
  lemma ArrivalsPlanned(s: C.State)
    requires Sound(s)
    ensures multiset(Arrivals(s)) <= multiset(Plan(s))
  {
    var arrivals, plan := Arrivals(s), Plan(s);
    forall p | p in multiset(arrivals) ensures multiset(arrivals)[p] <= multiset(plan)[p] {
      var k :| 0 <= k < |arrivals| && arrivals[k] == p;
      O.Once(arrivals, k);
      LengthOfOrder(s.order, k);
      assert plan[s.order[k].idx] == p;
      assert p in multiset(plan);
    }
  }

  lemma PlanIsPlan(s: C.State)
    requires |s.pub| < 0x1_0000_0000_0000_0000
    ensures O.IsPlan(false, O.Cursor(0, 0), Plan(s))
  {
    E.FlatPlan(Plan(s));
  }

  /** An orderer that has read some of the order pipe. */
  ghost predicate Reads(engine: O.Engine, s: C.State)
    reads engine, engine.pending, engine.pending.nodes, engine.ledger, engine.ledger.tracker
    reads engine.ledger.tracker.islands, engine.ledger.tracker.islands.nodes
  {
    && engine.Valid() && !engine.numa && engine.origin == O.Cursor(0, 0)
    && O.Stuck(engine.numa, engine.pending.Contents(), engine.expected)
    && multiset(engine.received) <= multiset(Arrivals(s))
  }

  /** In every state of every run the orderer has emitted tickets 0, 1, 2, ... up
      to the first whose packet it has not read: none out of turn, none twice. */
  lemma EmitsInTicketOrder(c: C.Config, states: seq<C.State>, actions: seq<C.Action>, n: nat, engine: O.Engine)
    requires C.Run(c, states, actions) && n < |states| && |states[n].pub| < 0x1_0000_0000_0000_0000
    requires Reads(engine, states[n])
    ensures var emitted, plan := engine.ledger.emitted, Plan(states[n]);
      emitted <= plan && (|emitted| < |plan| ==> plan[|emitted|] !in engine.received)
    ensures forall k :: 0 <= k < |engine.ledger.emitted| ==> engine.ledger.emitted[k].major == k
  {
    hide C.Run, Sound, Reads;
    RunSound(c, states, actions, n);
    InTurn(states[n], engine);
  }

  lemma InTurn(s: C.State, engine: O.Engine)
    requires Sound(s) && Reads(engine, s) && |s.pub| < 0x1_0000_0000_0000_0000
    ensures var emitted, plan := engine.ledger.emitted, Plan(s);
      emitted <= plan && (|emitted| < |plan| ==> plan[|emitted|] !in engine.received)
    ensures forall k :: 0 <= k < |engine.ledger.emitted| ==> engine.ledger.emitted[k].major == k
    ensures multiset(engine.received) == multiset(Plan(s)) ==>
      engine.ledger.emitted == Plan(s) && engine.pending.Contents() == multiset{}
  {
    hide Sound, O.IsPlan, O.Conserved, O.Chained, O.Stuck, O.CursorAfter, O.Ledger.Valid, HeapOrdered;
    ArrivalsPlanned(s);
    PlanIsPlan(s);
    Prefix(s, engine.received, engine.ledger.emitted, engine.pending.Contents());
  }

  lemma Prefix(s: C.State, received: seq<O.Packet>, emitted: seq<O.Packet>, pending: multiset<Node<O.Packet>>)
    requires O.IsPlan(false, O.Cursor(0, 0), Plan(s)) && multiset(received) <= multiset(Plan(s))
    requires O.Conserved(false, received, emitted, pending) && O.Chained(false, O.Cursor(0, 0), emitted)
    requires O.Stuck(false, pending, O.CursorAfter(false, O.Cursor(0, 0), emitted))
    ensures emitted <= Plan(s) && (|emitted| < |s.pub| ==> Plan(s)[|emitted|] !in received)
    ensures multiset(received) == multiset(Plan(s)) ==> emitted == Plan(s) && pending == multiset{}
  {
    hide O.IsPlan, O.Conserved, O.Chained, O.Stuck, O.CursorAfter;
    O.MaximalPrefix(false, O.Cursor(0, 0), Plan(s), received, emitted, pending);
  }

  /** At the end of the input, with no batch lost and the whole pipe read, every
      batch has left, in order, whatever died on the way. */
  lemma EverythingLeaves(c: C.Config, states: seq<C.State>, actions: seq<C.Action>, n: nat, wid: nat, engine: O.Engine)
    requires C.Run(c, states, actions) && n < |states| && |states[n].pub| < 0x1_0000_0000_0000_0000
    requires Reads(engine, states[n]) && |engine.received| == |states[n].order|
    requires wid < c.workers && |states[n].workers| == c.workers
    requires states[n].workers[wid].pc == C.FinPoll && states[n].escrow == []
    requires forall v :: 0 <= v < c.workers && v != wid ==> C.InHand(states[n].workers[v].pc) == []
    requires forall i :: 0 <= i < |states[n].pub| ==> !T.LostBatch(states[n], i)
    ensures engine.ledger.emitted == Plan(states[n]) && engine.pending.Contents() == multiset{}
  {
    hide C.Run, Sound, Reads;
    var s := states[n];
    RunSound(c, states, actions, n);
    AllCommitted(c, states, actions, n, wid);
    AllRead(s, engine);
    InTurn(s, engine);
  }

  ghost predicate Committed(s: C.State, i: nat) {
    exists k :: 0 <= k < |s.order| && s.order[k].idx == i
  }

  lemma AllCommitted(c: C.Config, states: seq<C.State>, actions: seq<C.Action>, n: nat, wid: nat)
    requires C.Run(c, states, actions) && n < |states|
    requires wid < c.workers && |states[n].workers| == c.workers
    requires states[n].workers[wid].pc == C.FinPoll && states[n].escrow == []
    requires forall v :: 0 <= v < c.workers && v != wid ==> C.InHand(states[n].workers[v].pc) == []
    requires forall i :: 0 <= i < |states[n].pub| ==> !T.LostBatch(states[n], i)
    ensures forall i :: 0 <= i < |states[n].pub| ==> Committed(states[n], i)
  {
    hide C.Run, T.LostBatch;
    T.CompleteAtEof(c, states, actions, n, wid);
    var s := states[n];
    forall i | 0 <= i < |s.pub| ensures Committed(s, i) {
      assert !T.LostBatch(s, i);
    }
  }

  /** With every ticket committed and read, the orderer has the whole plan. */
  lemma AllRead(s: C.State, engine: O.Engine)
    requires Sound(s) && Reads(engine, s) && |engine.received| == |s.order|
    requires forall i :: 0 <= i < |s.pub| ==> Committed(s, i)
    ensures multiset(engine.received) == multiset(Plan(s))
  {
    hide Sound, Committed, O.Stuck;
    E.Complete(engine.received, Arrivals(s));
    ArrivalsPlanned(s);
    forall p ensures multiset(Plan(s))[p] <= multiset(Arrivals(s))[p] { PlannedArrived(s, p); }
  }

  lemma PlannedArrived(s: C.State, p: O.Packet)
    requires Sound(s) && forall i :: 0 <= i < |s.pub| ==> Committed(s, i)
    ensures multiset(Plan(s))[p] <= multiset(Arrivals(s))[p]
  {
    var arrivals, plan := Arrivals(s), Plan(s);
    if p in plan {
      var i :| 0 <= i < |plan| && plan[i] == p;
      O.Once(plan, i);
      assert Committed(s, i);
      var k :| 0 <= k < |s.order| && s.order[k].idx == i;
      LengthOfOrder(s.order, k);
      assert arrivals[k] == p;
      assert p in multiset(arrivals);
    }
  }
}
