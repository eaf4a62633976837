/** Conservation of tickets: every ticket taken from the ring is always in
    exactly one place. */
module ClaimConservation {
  import opened ClaimProtocol

  /** 1 exactly when ticket `i` is the one in hand. */
  ghost function HandCount(pc: Pc, i: nat): nat {
    if InHand(pc) != [] && InHand(pc)[0].idx == i then 1 else 0
  }

  ghost function HeldCount(ws: seq<Worker>, i: nat): nat {
    if ws == [] then 0 else HeldCount(ws[..|ws| - 1], i) + HandCount(ws[|ws| - 1].pc, i)
  }

  ghost function EscrowCount(q: seq<EscrowPacket>, i: nat): nat {
    if q == [] then 0 else EscrowCount(q[..|q| - 1], i) + if q[|q| - 1].idx == i then 1 else 0
  }

  ghost function AckCount(q: seq<OrderPacket>, i: nat): nat {
    if q == [] then 0 else AckCount(q[..|q| - 1], i) + if q[|q| - 1].idx == i then 1 else 0
  }

  ghost function Count(q: seq<nat>, i: nat): nat {
    if q == [] then 0 else Count(q[..|q| - 1], i) + if q[|q| - 1] == i then 1 else 0
  }

  /** In how many places ticket `i` is. */
  ghost function Places(s: State, i: nat): nat {
    HeldCount(s.workers, i) + EscrowCount(s.escrow, i) + AckCount(s.order, i)
    + Count(s.rejected, i) + Count(s.abandoned, i) + Count(s.stoodDown, i)
  }

  ghost predicate ConservedAt(s: State, i: nat) {
    Places(s, i) == if i < s.r then 1 else 0
  }

  ghost predicate Conserved(s: State) {
    forall i: nat :: ConservedAt(s, i)
  }

  // ------------------------------------------------------- counting lemmas

  lemma EscrowAppend(q: seq<EscrowPacket>, p: EscrowPacket, i: nat)
    ensures EscrowCount(q + [p], i) == EscrowCount(q, i) + if p.idx == i then 1 else 0
  {
    assert (q + [p])[..|q|] == q;
  }

  lemma {:induction false} EscrowFront(q: seq<EscrowPacket>, i: nat)
    requires q != []
    ensures EscrowCount(q, i) == EscrowCount(q[1..], i) + if q[0].idx == i then 1 else 0
  {
    if |q| > 1 {
      EscrowFront(q[..|q| - 1], i);
      assert q[..|q| - 1][1..] == q[1..][..|q| - 2];
    }
  }

  lemma AckAppend(q: seq<OrderPacket>, p: OrderPacket, i: nat)
    ensures AckCount(q + [p], i) == AckCount(q, i) + if p.idx == i then 1 else 0
  {
    assert (q + [p])[..|q|] == q;
  }

  lemma CountAppend(q: seq<nat>, x: nat, i: nat)
    ensures Count(q + [x], i) == Count(q, i) + if x == i then 1 else 0
  {
    assert (q + [x])[..|q|] == q;
  }

  lemma {:induction false} HeldUpdate(ws: seq<Worker>, v: nat, x: Worker, i: nat)
    requires v < |ws|
    ensures HeldCount(ws[v := x], i) + HandCount(ws[v].pc, i) == HeldCount(ws, i) + HandCount(x.pc, i)
  {
    var n := |ws| - 1;
    if v < n {
      HeldUpdate(ws[..n], v, x, i);
      assert ws[v := x][..n] == ws[..n][v := x];
    } else {
      assert ws[v := x][..n] == ws[..n];
    }
  }

  lemma {:induction false} HeldHas(ws: seq<Worker>, v: nat, i: nat)
    requires v < |ws|
    ensures HeldCount(ws, i) >= HandCount(ws[v].pc, i)
  {
    if v < |ws| - 1 { HeldHas(ws[..|ws| - 1], v, i); }
  }

  lemma {:induction false} HeldTwice(ws: seq<Worker>, u: nat, v: nat, i: nat)
    requires u < v < |ws|
    ensures HeldCount(ws, i) >= HandCount(ws[u].pc, i) + HandCount(ws[v].pc, i)
  {
    var n := |ws| - 1;
    if v < n { HeldTwice(ws[..n], u, v, i); } else { HeldHas(ws[..n], u, i); }
  }

  lemma {:induction false} EscrowHas(q: seq<EscrowPacket>, k: nat)
    requires k < |q|
    ensures EscrowCount(q, q[k].idx) >= 1
  {
    if k < |q| - 1 { EscrowHas(q[..|q| - 1], k); }
  }

  lemma {:induction false} AckHas(q: seq<OrderPacket>, k: nat)
    requires k < |q|
    ensures AckCount(q, q[k].idx) >= 1
  {
    if k < |q| - 1 { AckHas(q[..|q| - 1], k); }
  }

  lemma {:induction false} AckTwice(q: seq<OrderPacket>, j: nat, k: nat)
    requires j < k < |q| && q[j].idx == q[k].idx
    ensures AckCount(q, q[k].idx) >= 2
  {
    var n := |q| - 1;
    if k < n { AckTwice(q[..n], j, k); } else { AckHas(q[..n], j); }
  }

  // ------------------------------------------------------------- preservation

  /** Updating one worker moves exactly the ticket it has in hand. */
  lemma Moved(s: State, s': State, wid: nat, i: nat)
    requires wid < |s.workers| == |s'.workers|
    requires s'.workers == s.workers[wid := s'.workers[wid]]
    ensures HeldCount(s'.workers, i) + HandCount(s.workers[wid].pc, i)
         == HeldCount(s.workers, i) + HandCount(s'.workers[wid].pc, i)
  {
    HeldUpdate(s.workers, wid, s'.workers[wid], i);
  }

  lemma SetPcConserves(s: State, wid: nat, pc: Pc, i: nat)
    requires wid < |s.workers| && ConservedAt(s, i)
    requires HandCount(pc, i) == HandCount(s.workers[wid].pc, i)
    ensures ConservedAt(SetPc(s, wid, pc), i)
  {
    hide HeldCount, EscrowCount, AckCount, Count;
    var s' := SetPc(s, wid, pc);
    Moved(s, s', wid, i);
  }

  lemma TakePacketConserves(s: State, wid: nat, pc: Pc, i: nat)
    requires wid < |s.workers| && s.escrow != [] && ConservedAt(s, i)
    requires InHand(s.workers[wid].pc) == [] && InHand(pc) == [s.escrow[0]]
    ensures ConservedAt(TakePacket(s, wid, pc), i)
  {
    hide HeldCount, EscrowCount, AckCount, Count;
    var s' := TakePacket(s, wid, pc);
    Moved(s, s', wid, i);
    EscrowFront(s.escrow, i);
  }

  lemma RejectPacketConserves(s: State, wid: nat, i: nat)
    requires wid < |s.workers| && s.escrow != [] && ConservedAt(s, i)
    requires InHand(s.workers[wid].pc) == []
    ensures ConservedAt(RejectPacket(s, wid), i)
  {
    hide HeldCount, EscrowCount, AckCount, Count;
    var s' := RejectPacket(s, wid);
    Moved(s, s', wid, i);
    EscrowFront(s.escrow, i);
    CountAppend(s.rejected, s.escrow[0].idx, i);
  }

  lemma RejectHeldConserves(s: State, wid: nat, p: EscrowPacket, i: nat)
    requires wid < |s.workers| && ConservedAt(s, i)
    requires InHand(s.workers[wid].pc) == [p]
    ensures ConservedAt(RejectHeld(s, wid, p.idx), i)
  {
    hide HeldCount, EscrowCount, AckCount, Count;
    var s' := RejectHeld(s, wid, p.idx);
    Moved(s, s', wid, i);
    CountAppend(s.rejected, p.idx, i);
  }

  lemma AbandonConserves(s: State, wid: nat, p: EscrowPacket, i: nat)
    requires wid < |s.workers| && ConservedAt(s, i)
    requires InHand(s.workers[wid].pc) == [p]
    ensures ConservedAt(Abandon(s, wid, p.idx), i)
  {
    hide HeldCount, EscrowCount, AckCount, Count;
    var s' := Abandon(s, wid, p.idx);
    Moved(s, s', wid, i);
    CountAppend(s.abandoned, p.idx, i);
  }

  lemma TakeTicketConserves(s: State, wid: nat, i: nat)
    requires wid < |s.workers| && ConservedAt(s, i)
    requires InHand(s.workers[wid].pc) == []
    ensures ConservedAt(TakeTicket(s, wid), i)
  {
    hide HeldCount, EscrowCount, AckCount, Count;
    var s' := TakeTicket(s, wid);
    Moved(s, s', wid, i);
  }

  lemma SendPacketConserves(s: State, wid: nat, p: EscrowPacket, i: nat)
    requires wid < |s.workers| == |s.files| == |s.stray| && ConservedAt(s, i)
    requires InHand(s.workers[wid].pc) == [p]
    ensures ConservedAt(SendPacket(s, wid, p), i)
  {
    hide HeldCount, EscrowCount, AckCount, Count;
    var s' := SendPacket(s, wid, p);
    Moved(s, s', wid, i);
    AckAppend(s.order, s'.order[|s.order|], i);
  }

  /** Steps that keep the hand and touch no other place. */
  lemma FrameConserves(s: State, s': State, wid: nat, i: nat)
    requires wid < |s.workers| == |s'.workers| && ConservedAt(s, i)
    requires s'.workers == s.workers[wid := s'.workers[wid]]
    requires InHand(s'.workers[wid].pc) == InHand(s.workers[wid].pc)
    requires s'.escrow == s.escrow && s'.order == s.order && s'.r == s.r
    requires s'.rejected == s.rejected && s'.abandoned == s.abandoned && s'.stoodDown == s.stoodDown
    ensures ConservedAt(s', i)
  {
    hide HeldCount, EscrowCount, AckCount, Count;
    Moved(s, s', wid, i);
  }

  lemma BeginClaimConserves(s: State, wid: nat, i: nat)
    requires wid < |s.workers| == |s.txn| && InHand(s.workers[wid].pc) == [] && ConservedAt(s, i)
    ensures ConservedAt(BeginClaim(s, wid), i)
  {
    hide HeldCount, EscrowCount, AckCount, Count;
    FrameConserves(s, BeginClaim(s, wid), wid, i);
  }

  lemma RearmConserves(s: State, wid: nat, i: nat)
    requires wid < |s.workers| && InHand(s.workers[wid].pc) == [] && ConservedAt(s, i)
    ensures ConservedAt(Rearm(s, wid), i)
  {
    hide HeldCount, EscrowCount, AckCount, Count;
    FrameConserves(s, Rearm(s, wid), wid, i);
  }

  lemma StopDrainConserves(s: State, wid: nat, i: nat)
    requires wid < |s.workers| && InHand(s.workers[wid].pc) == [] && ConservedAt(s, i)
    ensures ConservedAt(StopDrain(s, wid), i)
  {
    hide HeldCount, EscrowCount, AckCount, Count;
    FrameConserves(s, StopDrain(s, wid), wid, i);
  }

  lemma LeaveConserves(s: State, wid: nat, i: nat)
    requires wid < |s.workers| == |s.txn| && InHand(s.workers[wid].pc) == [] && ConservedAt(s, i)
    ensures ConservedAt(LeaveAtEof(s, wid), i)
  {
    hide HeldCount, EscrowCount, AckCount, Count;
    FrameConserves(s, LeaveAtEof(s, wid), wid, i);
  }

  lemma PublishConserves(s: State, wid: nat, p: EscrowPacket, i: nat)
    requires wid < |s.workers| == |s.txn| && InHand(s.workers[wid].pc) == [p] && ConservedAt(s, i)
    ensures ConservedAt(Publish(s, wid, p), i)
  {
    hide HeldCount, EscrowCount, AckCount, Count;
    FrameConserves(s, Publish(s, wid, p), wid, i);
  }

  lemma CountPoisonConserves(c: Config, s: State, wid: nat, p: EscrowPacket, i: nat)
    requires wid < |s.workers| && InHand(s.workers[wid].pc) == [p] && ConservedAt(s, i)
    ensures ConservedAt(CountPoison(c, s, wid, p), i)
  {
    hide HeldCount, EscrowCount, AckCount, Count;
    FrameConserves(s, CountPoison(c, s, wid, p), wid, i);
  }

  lemma EmitConserves(s: State, wid: nat, data: Bytes, i: nat)
    requires wid < |s.workers| == |s.files| && ConservedAt(s, i)
    ensures ConservedAt(EmitBytes(s, wid, data), i)
  {
    hide HeldCount, EscrowCount, AckCount, Count;
    FrameConserves(s, EmitBytes(s, wid, data), wid, i);
  }

  lemma BeginCommitConserves(s: State, wid: nat, p: EscrowPacket, i: nat)
    requires wid < |s.workers| == |s.txn| && InHand(s.workers[wid].pc) == [p] && ConservedAt(s, i)
    ensures ConservedAt(BeginCommit(s, wid, p), i)
  {
    hide HeldCount, EscrowCount, AckCount, Count;
    FrameConserves(s, BeginCommit(s, wid, p), wid, i);
  }

  lemma ClearConserves(s: State, wid: nat, i: nat)
    requires wid < |s.workers| == |s.txn| && InHand(s.workers[wid].pc) == [] && ConservedAt(s, i)
    ensures ConservedAt(ClearTxn(s, wid), i)
  {
    hide HeldCount, EscrowCount, AckCount, Count;
    FrameConserves(s, ClearTxn(s, wid), wid, i);
  }

  lemma StatusConserves(s: State, wid: nat, status: Status, i: nat)
    requires wid < |s.workers| && ConservedAt(s, i)
    ensures ConservedAt(SetStatus(s, wid, status), i)
  {
    hide HeldCount, EscrowCount, AckCount, Count;
    FrameConserves(s, SetStatus(s, wid, status), wid, i);
  }

  /** Recovery hands the ticket of the record to escrow; the record must name the
      ticket its worker holds, which the transaction invariant provides. */
  lemma DepositConserves(s: State, wid: nat, i: nat)
    requires wid < |s.workers| == |s.txn| == |s.files| && ConservedAt(s, i)
    requires InHand(s.workers[wid].pc) == [EscrowPacket(s.txn[wid].idx, s.txn[wid].kills)]
    ensures ConservedAt(Deposit(s, wid), i)
  {
    hide HeldCount, EscrowCount, AckCount, Count;
    Moved(s, Deposit(s, wid), wid, i);
    EscrowAppend(s.escrow, EscrowPacket(s.txn[wid].idx, s.txn[wid].kills + 1), i);
  }

  lemma StandDownConserves(s: State, wid: nat, rc: nat, i: nat)
    requires wid < |s.workers| == |s.txn| == |s.stray| && ConservedAt(s, i)
    requires InHand(s.workers[wid].pc) != []
    ensures ConservedAt(StandDown(s, wid, rc), i)
  {
    hide HeldCount, EscrowCount, AckCount, Count;
    Moved(s, StandDown(s, wid, rc), wid, i);
    CountAppend(s.stoodDown, InHand(s.workers[wid].pc)[0].idx, i);
  }

  lemma SpawnConserves(s: State, wid: nat, i: nat)
    requires wid < |s.workers| == |s.files| == |s.incarn| && ConservedAt(s, i)
    requires InHand(s.workers[wid].pc) == []
    ensures ConservedAt(Spawn(s, wid), i)
  {
    hide HeldCount, EscrowCount, AckCount, Count;
    Moved(s, Spawn(s, wid), wid, i);
  }
}
