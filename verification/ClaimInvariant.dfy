/** The inductive invariant of the claim protocol. */
module ClaimInvariant {
  import opened ClaimProtocol
  import opened ClaimConservation

  // ------------------------------------------------------------------ bounds

  ghost predicate PcBound(w: nat, r: nat, finished: bool, pc: Pc) {
    match pc
    case DrainW(p) => p.idx < w
    case DrainR(p, wSnap) => p.idx < wSnap <= w
    case LoadR(wSnap) => wSnap <= w
    case EscrowRead(wSnap, _) => wSnap <= w
    case FinLoadR => finished
    case FinLoadW(rSnap) => finished && rSnap <= r
    case FinPoll => finished && w <= r
    case EvalW(p) => p.kills > 0 ==> p.idx < w
    case EvalFinished(p) => p.kills == 0
    case WaitW(p) => p.kills == 0
    case WaitFinished(p) => p.kills == 0
    case WaitLastW(p) => p.kills == 0 && finished
    case Ready(p) => p.idx < w
    case Counting(p) => p.idx < w
    case Running(p) => p.idx < w
    case Committing(p) => p.idx < w
    case _ => true
  }

  ghost predicate Bounds(s: State) {
    && s.w <= |s.pub|
    && (s.finished ==> s.w == |s.pub|)
    && (forall k :: 0 <= k < |s.escrow| ==> s.escrow[k].idx < s.w && s.escrow[k].kills > 0)
    && (forall k :: 0 <= k < |s.order| ==> s.order[k].idx < s.w)
    && (forall v :: 0 <= v < |s.workers| ==> PcBound(s.w, s.r, s.finished, s.workers[v].pc))
    && WithinWindow(s, |s.pub|)
    && (s.abandoned != [] ==> s.finished)
    && (forall k :: 0 <= k < |s.rejected| ==> s.rejected[k] < s.w)
    && (forall k :: 0 <= k < |s.stoodDown| ==> s.stoodDown[k] < s.w)
  }

  // ----------------------------------------------------------------- records

  ghost function RecordState(pc: Pc): TxnState {
    match pc
    case Between => IDLE
    case AtEof => IDLE
    case Counting(_) => CLAIMED
    case Running(_) => CLAIMED
    case Committing(_) => COMMITTING
    case Sent => COMMITTING
    case _ => CLAIMING
  }

  /** Recovery has handed the batch of slot `v` over but not cleared the record. */
  ghost predicate HandingOver(sup: Supervisor, v: nat) {
    (sup.Deposited? || sup.Flagged?) && sup.wid == v
  }

  ghost predicate Names(pub: seq<Batch>, t: Txn, p: EscrowPacket) {
    && t.idx == p.idx && t.kills == p.kills
    && p.idx < |pub| && t.major == pub[p.idx].major && t.minor == pub[p.idx].minor
  }

  /** The record is published and the batch not yet acknowledged. */
  ghost predicate InClaim(pc: Pc) {
    pc.Counting? || pc.Running?
  }

  ghost predicate RecordOk(pub: seq<Batch>, wk: Worker, t: Txn, incarnation: nat, handing: bool) {
    && wk.incarnation == incarnation
    && (if handing then wk.pc.Between? && t.state == CLAIMED else t.state == RecordState(wk.pc))
    && (InClaim(wk.pc) ==> Names(pub, t, wk.pc.pkt))
    && (InClaim(wk.pc) || wk.pc.Committing? || wk.pc.Sent? ==> t.incarnation == incarnation)
    && (wk.status.Freed? ==> wk.pc.Between? || wk.pc.AtEof?)
  }

  ghost predicate SupervisorOk(workers: seq<Worker>, sup: Supervisor) {
    match sup
    case Waiting => true
    case Aborted => true
    case Recovering(v, code) => v < |workers| && workers[v].status == Dead(code)
    case Deposited(v) => v < |workers| && workers[v].status.Dead?
    case Flagged(v) => v < |workers| && workers[v].status.Dead?
    case Classified(v, _) =>
      v < |workers| && workers[v].status.Dead? && (workers[v].pc.Between? || workers[v].pc.AtEof?)
    case Respawning(v, _) =>
      v < |workers| && workers[v].status.Dead? && (workers[v].pc.Between? || workers[v].pc.AtEof?)
  }

  ghost predicate Records(pub: seq<Batch>, workers: seq<Worker>, txn: seq<Txn>, incarn: seq<nat>, sup: Supervisor)
    requires |workers| == |txn| == |incarn|
  {
    && SupervisorOk(workers, sup)
    && forall v :: 0 <= v < |workers| ==>
         RecordOk(pub, workers[v], txn[v], incarn[v], HandingOver(sup, v))
  }

  // ----------------------------------------------------------------- outputs

  /** Everything worker slot `v` has committed, over all its generations. */
  ghost function CommittedOf(order: seq<OrderPacket>, v: nat): Bytes {
    if order == [] then []
    else
      var last := order[|order| - 1];
      CommittedOf(order[..|order| - 1], v) + if last.wid == v then last.data else []
  }

  lemma CommittedAppend(order: seq<OrderPacket>, p: OrderPacket, v: nat)
    ensures CommittedOf(order + [p], v) == CommittedOf(order, v) + if p.wid == v then p.data else []
  {
    assert (order + [p])[..|order|] == order;
  }

  /** The file without what the batch in flight has emitted. */
  ghost function Kept(file: Bytes, emitted: Bytes): Bytes {
    if |emitted| <= |file| then file[..|file| - |emitted|] else []
  }

  /** The file ends in what the batch in flight emitted; before that are the bytes
      committed and those of stood-down executions, and without any of these
      exactly the bytes committed, in order. */
  ghost predicate OutputOk(order: seq<OrderPacket>, wk: Worker, t: Txn, file: Bytes, stray: nat, v: nat) {
    && |file| == |CommittedOf(order, v)| + stray + |wk.emitted|
    && file == Kept(file, wk.emitted) + wk.emitted
    && (stray == 0 ==> Kept(file, wk.emitted) == CommittedOf(order, v))
    && (wk.emitted != [] ==> wk.pc.Running? || wk.pc.Committing?)
    && (InClaim(wk.pc) ==> t.outputStart == |file| - |wk.emitted|)
    && (wk.status == Alive ==> wk.lastAck == wk.outputEnd == |file| - |wk.emitted|)
  }

  /** Packet `k` starts after everything the same slot had committed and stood
      down, and is as long as what its execution emitted. */
  ghost predicate PacketOk(order: seq<OrderPacket>, k: nat)
    requires k < |order|
  {
    && order[k].off == |CommittedOf(order[..k], order[k].wid)| + order[k].stray
    && order[k].len == |order[k].data|
  }

  /** The packet's range holds the bytes its execution emitted. */
  ghost predicate PacketIn(p: OrderPacket, kept: Bytes) {
    p.off + p.len <= |kept| && kept[p.off..p.off + p.len] == p.data
  }

  ghost predicate PacketPlaced(p: OrderPacket, workers: seq<Worker>, files: seq<Bytes>, stray: seq<nat>)
    requires |workers| == |files| == |stray|
  {
    p.wid < |files| && p.stray <= stray[p.wid] && PacketIn(p, Kept(files[p.wid], workers[p.wid].emitted))
  }

  ghost predicate Outputs(order: seq<OrderPacket>, workers: seq<Worker>, txn: seq<Txn>, files: seq<Bytes>,
                          stray: seq<nat>)
    requires |workers| == |txn| == |files| == |stray|
  {
    forall v :: 0 <= v < |workers| ==> OutputOk(order, workers[v], txn[v], files[v], stray[v], v)
  }

  /** All packets are where they say, and no stray byte is uncounted. */
  ghost predicate Packets(order: seq<OrderPacket>, workers: seq<Worker>, files: seq<Bytes>, stray: seq<nat>)
    requires |workers| == |files| == |stray|
  {
    && (forall k :: 0 <= k < |order| ==> PacketPlaced(order[k], workers, files, stray))
    && (forall j, k :: 0 <= j < k < |order| && order[j].wid == order[k].wid ==> order[j].stray <= order[k].stray)
  }

  ghost predicate SignalOk(order: seq<OrderPacket>, signal: (nat, nat), stray: seq<nat>) {
    signal.0 < |stray| && signal.1 <= |CommittedOf(order, signal.0)| + stray[signal.0]
  }

  /** Every packet is in place and no signalled frontier exceeds what its slot
      has committed and left behind. */
  ghost predicate Delivered(order: seq<OrderPacket>, signals: seq<(nat, nat)>, stray: seq<nat>) {
    && (forall k :: 0 <= k < |order| ==> PacketOk(order, k))
    && (forall j :: 0 <= j < |signals| ==> SignalOk(order, signals[j], stray))
  }

  // ------------------------------------------------------------------ ledger

  ghost predicate Ledger(c: Config, pub: seq<Batch>, order: seq<OrderPacket>, horizon: nat) {
    && (forall i, j :: 0 <= i < j < |pub| ==> !Overlaps(pub[i], pub[j]))
    && (forall i :: 0 <= i < |pub| ==> c.resumeFrom <= pub[i].offset <= pub[i].end && Apart(c.foreign, pub[i]))
    && (forall b: nat :: c.resumeFrom <= b < horizon ==> b in c.foreign || Covered(pub, order, b))
  }

  // ----------------------------------------------------------------- retries

  /** How often ticket `i` was claimed. */
  ghost function Attempts(claims: seq<Claim>, i: nat): nat {
    if claims == [] then 0
    else Attempts(claims[..|claims| - 1], i) + if claims[|claims| - 1].idx == i then 1 else 0
  }

  ghost function PoisonCount(limit: int, claims: seq<Claim>): nat {
    if claims == [] then 0
    else PoisonCount(limit, claims[..|claims| - 1])
         + if CountsPoison(limit, claims[|claims| - 1].kills) then 1 else 0
  }

  lemma AttemptsAppend(claims: seq<Claim>, x: Claim, i: nat)
    ensures Attempts(claims + [x], i) == Attempts(claims, i) + if x.idx == i then 1 else 0
  {
    assert (claims + [x])[..|claims|] == claims;
  }

  lemma PoisonAppend(limit: int, claims: seq<Claim>, x: Claim)
    ensures PoisonCount(limit, claims + [x])
      == PoisonCount(limit, claims) + if CountsPoison(limit, x.kills) then 1 else 0
  {
    assert (claims + [x])[..|claims|] == claims;
  }

  /** A claim's kill count is the number of earlier claims of its ticket. */
  ghost predicate ClaimCounted(claims: seq<Claim>, j: nat)
    requires j < |claims|
  {
    claims[j].kills == Attempts(claims[..j], claims[j].idx)
  }

  ghost predicate ClaimsCounted(claims: seq<Claim>) {
    forall j :: 0 <= j < |claims| ==> ClaimCounted(claims, j)
  }

  ghost predicate HandCounted(claims: seq<Claim>, pc: Pc) {
    InHand(pc) != [] ==>
      Attempts(claims, InHand(pc)[0].idx) == InHand(pc)[0].kills + if InClaim(pc) || pc.Committing? then 1 else 0
  }

  /** The claim history agrees with itself, the tickets taken and the counter. */
  ghost predicate History(limit: int, r: nat, claims: seq<Claim>, runs: seq<Claim>, poisoned: nat) {
    && ClaimsCounted(claims)
    && (forall j :: 0 <= j < |claims| ==> claims[j].idx < r)
    && poisoned == PoisonCount(limit, runs)
  }

  ghost predicate Retries(escrow: seq<EscrowPacket>, workers: seq<Worker>, claims: seq<Claim>) {
    && (forall k :: 0 <= k < |escrow| ==> Attempts(claims, escrow[k].idx) == escrow[k].kills)
    && (forall v :: 0 <= v < |workers| ==> HandCounted(claims, workers[v].pc))
  }

  // ---------------------------------------------------------------- launcher

  ghost function Sum(q: seq<nat>): nat {
    if q == [] then 0 else Sum(q[..|q| - 1]) + q[|q| - 1]
  }

  lemma {:induction false} SumUpdate(q: seq<nat>, v: nat, x: nat)
    requires v < |q|
    ensures Sum(q[v := x]) + q[v] == Sum(q) + x
  {
    var n := |q| - 1;
    if v < n {
      SumUpdate(q[..n], v, x);
      assert q[v := x][..n] == q[..n][v := x];
    } else {
      assert q[v := x][..n] == q[..n];
    }
  }

  lemma {:induction false} SumBound(q: seq<nat>, bound: nat)
    requires forall v :: 0 <= v < |q| ==> q[v] <= bound
    ensures Sum(q) <= |q| * bound
  {
    if q != [] {
      SumBound(q[..|q| - 1], bound);
      assert |q| * bound == (|q| - 1) * bound + bound;
    }
  }

  ghost predicate Launches(c: Config, incarn: seq<nat>, forks: nat) {
    && forks == c.workers + Sum(incarn)
    && (c.respawnCap >= 0 ==> forall v :: 0 <= v < |incarn| ==> incarn[v] <= c.respawnCap)
  }

  ghost predicate Inv(c: Config, s: State) {
    && Shaped(c, s)
    && Conserved(s)
    && Bounds(s)
    && Records(s.pub, s.workers, s.txn, s.incarn, s.sup)
    && Outputs(s.order, s.workers, s.txn, s.files, s.stray) && Packets(s.order, s.workers, s.files, s.stray)
    && Delivered(s.order, s.signals, s.stray)
    && Ledger(c, s.pub, s.order, s.horizon)
    && History(c.retryLimit, s.r, s.claims, s.runs, s.poisoned)
    && Retries(s.escrow, s.workers, s.claims)
    && Launches(c, s.incarn, s.forks)
  }

  // ----------------------------------------------------- one lemma per action

  /** A worker step that touches only its own record and cursors, the escrow
      pipe and the ticket counter keeps the invariant if its new place is in
      order.  Eleven of the sixteen worker steps are of this kind. */
  lemma WorkerStepInv(c: Config, s: State, s': State, wid: nat)
    requires Inv(c, s) && wid < c.workers && s.workers[wid].status == Alive
    requires s' == s.(workers := s'.workers, txn := s'.txn, pending := s'.pending, escrow := s'.escrow, r := s'.r,
                      rejected := s'.rejected, abandoned := s'.abandoned)
    requires |s'.workers| == |s'.txn| == c.workers
    requires s'.workers == s.workers[wid := s'.workers[wid]] && s'.txn == s.txn[wid := s'.txn[wid]]
    requires s'.escrow == s.escrow || (s.escrow != [] && s'.escrow == s.escrow[1..])
    requires s.r <= s'.r
    requires Conserved(s')
    requires s'.abandoned == s.abandoned || s.finished
    requires forall k :: 0 <= k < |s'.rejected| ==> s'.rejected[k] < s.w
    requires s'.workers[wid].status == Alive
    requires PcBound(s'.w, s'.r, s'.finished, s'.workers[wid].pc)
    requires InHand(s'.workers[wid].pc) != [] ==> |s.pub| <= InHand(s'.workers[wid].pc)[0].idx + RING_SIZE
    requires RecordOk(s.pub, s'.workers[wid], s'.txn[wid], s.incarn[wid], false)
    requires s'.workers[wid].emitted == s.workers[wid].emitted
    requires OutputOk(s.order, s.workers[wid], s.txn[wid], s.files[wid], s.stray[wid], wid) ==>
               OutputOk(s.order, s'.workers[wid], s'.txn[wid], s.files[wid], s.stray[wid], wid)
    requires HandCounted(s.claims, s'.workers[wid].pc)
    ensures Inv(c, s')
  {
    hide Ledger, Launches, Delivered, PacketIn, Kept, Places, CommittedOf, Attempts, ConservedAt, RecordOk, OutputOk;
    hide HandCounted, PoisonCount, ClaimsCounted;
  }

  lemma SetPcInv(c: Config, s: State, wid: nat, pc: Pc)
    requires Inv(c, s) && wid < c.workers && s.workers[wid].status == Alive
    requires InHand(pc) == InHand(s.workers[wid].pc)
    requires PcBound(s.w, s.r, s.finished, pc)
    requires RecordState(pc) == RecordState(s.workers[wid].pc) == CLAIMING
    ensures Inv(c, SetPc(s, wid, pc))
  {
    hide Ledger, Launches, History, Delivered, Packets, Kept, Places, CommittedOf, Attempts, ConservedAt;
    var s' := SetPc(s, wid, pc);
    forall i: nat ensures ConservedAt(s', i) { SetPcConserves(s, wid, pc, i); }
    WorkerStepInv(c, s, s', wid);
  }

  lemma BeginClaimInv(c: Config, s: State, wid: nat)
    requires Inv(c, s) && wid < c.workers && s.workers[wid].status == Alive
    requires s.workers[wid].pc.Between?
    ensures Inv(c, BeginClaim(s, wid))
  {
    hide Ledger, Launches, History, Delivered, Packets, Kept, Places, CommittedOf, Attempts, ConservedAt;
    var s' := BeginClaim(s, wid);
    forall i: nat ensures ConservedAt(s', i) { BeginClaimConserves(s, wid, i); }
    WorkerStepInv(c, s, s', wid);
  }

  lemma RearmInv(c: Config, s: State, wid: nat)
    requires Inv(c, s) && wid < c.workers && s.workers[wid].status == Alive
    requires s.workers[wid].pc.Restart?
    ensures Inv(c, Rearm(s, wid))
  {
    hide Ledger, Launches, History, Delivered, Packets, Kept, Places, CommittedOf, Attempts, ConservedAt;
    var s' := Rearm(s, wid);
    forall i: nat ensures ConservedAt(s', i) { RearmConserves(s, wid, i); }
    WorkerStepInv(c, s, s', wid);
  }

  lemma StopDrainInv(c: Config, s: State, wid: nat)
    requires Inv(c, s) && wid < c.workers && s.workers[wid].status == Alive
    requires s.workers[wid].pc.DrainRead?
    ensures Inv(c, StopDrain(s, wid))
  {
    hide Ledger, Launches, History, Delivered, Packets, Kept, Places, CommittedOf, Attempts, ConservedAt;
    var s' := StopDrain(s, wid);
    forall i: nat ensures ConservedAt(s', i) { StopDrainConserves(s, wid, i); }
    WorkerStepInv(c, s, s', wid);
  }

  lemma TakePacketInv(c: Config, s: State, wid: nat, pc: Pc)
    requires Inv(c, s) && wid < c.workers && s.workers[wid].status == Alive
    requires s.escrow != [] && (s.workers[wid].pc.DrainRead? || s.workers[wid].pc.EscrowRead?)
    requires pc == DrainW(s.escrow[0]) || pc == EvalW(s.escrow[0])
    ensures Inv(c, TakePacket(s, wid, pc))
  {
    hide Ledger, Launches, History, Delivered, Packets, Kept, Places, CommittedOf, Attempts, ConservedAt;
    var s' := TakePacket(s, wid, pc);
    forall i: nat ensures ConservedAt(s', i) { TakePacketConserves(s, wid, pc, i); }
    WorkerStepInv(c, s, s', wid);
  }

  lemma RejectPacketInv(c: Config, s: State, wid: nat)
    requires Inv(c, s) && wid < c.workers && s.workers[wid].status == Alive
    requires s.escrow != [] && s.workers[wid].pc.EscrowRead?
    ensures Inv(c, RejectPacket(s, wid))
  {
    hide Ledger, Launches, History, Delivered, Packets, Kept, Places, CommittedOf, Attempts, ConservedAt;
    var s' := RejectPacket(s, wid);
    forall i: nat ensures ConservedAt(s', i) { RejectPacketConserves(s, wid, i); }
    WorkerStepInv(c, s, s', wid);
  }

  lemma RejectHeldInv(c: Config, s: State, wid: nat, p: EscrowPacket)
    requires Inv(c, s) && wid < c.workers && s.workers[wid].status == Alive
    requires s.workers[wid].pc.DrainR? && s.workers[wid].pc.pkt == p
    ensures Inv(c, RejectHeld(s, wid, p.idx))
  {
    hide Ledger, Launches, History, Delivered, Packets, Kept, Places, CommittedOf, Attempts, ConservedAt;
    var s' := RejectHeld(s, wid, p.idx);
    forall i: nat ensures ConservedAt(s', i) { RejectHeldConserves(s, wid, p, i); }
    WorkerStepInv(c, s, s', wid);
  }

  lemma AbandonInv(c: Config, s: State, wid: nat, p: EscrowPacket)
    requires Inv(c, s) && wid < c.workers && s.workers[wid].status == Alive
    requires s.workers[wid].pc == EvalFinished(p) || s.workers[wid].pc == WaitLastW(p)
    requires s.finished
    ensures Inv(c, Abandon(s, wid, p.idx))
  {
    hide Ledger, Launches, History, Delivered, Packets, Kept, Places, CommittedOf, Attempts, ConservedAt;
    var s' := Abandon(s, wid, p.idx);
    forall i: nat ensures ConservedAt(s', i) { AbandonConserves(s, wid, p, i); }
    WorkerStepInv(c, s, s', wid);
  }

  lemma LeaveAtEofInv(c: Config, s: State, wid: nat)
    requires Inv(c, s) && wid < c.workers && s.workers[wid].status == Alive
    requires s.workers[wid].pc.FinPoll?
    ensures Inv(c, LeaveAtEof(s, wid))
  {
    hide Ledger, Launches, History, Delivered, Packets, Kept, Places, CommittedOf, Attempts, ConservedAt;
    var s' := LeaveAtEof(s, wid);
    forall i: nat ensures ConservedAt(s', i) { LeaveConserves(s, wid, i); }
    WorkerStepInv(c, s, s', wid);
  }

  lemma BeginCommitInv(c: Config, s: State, wid: nat, p: EscrowPacket)
    requires Inv(c, s) && wid < c.workers && s.workers[wid].status == Alive
    requires s.workers[wid].pc == Running(p)
    ensures Inv(c, BeginCommit(s, wid, p))
  {
    hide Ledger, Launches, History, Delivered, Packets, Kept, Places, CommittedOf, Attempts, ConservedAt;
    var s' := BeginCommit(s, wid, p);
    forall i: nat ensures ConservedAt(s', i) { BeginCommitConserves(s, wid, p, i); }
    WorkerStepInv(c, s, s', wid);
  }

  lemma ClearTxnInv(c: Config, s: State, wid: nat)
    requires Inv(c, s) && wid < c.workers && s.workers[wid].status == Alive
    requires s.workers[wid].pc.Sent?
    ensures Inv(c, ClearTxn(s, wid))
  {
    hide Ledger, Launches, History, Delivered, Packets, Kept, Places, CommittedOf, Attempts, ConservedAt;
    var s' := ClearTxn(s, wid);
    forall i: nat ensures ConservedAt(s', i) { ClearConserves(s, wid, i); }
    WorkerStepInv(c, s, s', wid);
  }

  /** A fresh ticket was never claimed before. */
  lemma {:induction false} NeverClaimed(claims: seq<Claim>, i: nat)
    requires forall j :: 0 <= j < |claims| ==> claims[j].idx != i
    ensures Attempts(claims, i) == 0
  {
    if claims != [] { NeverClaimed(claims[..|claims| - 1], i); }
  }

  lemma TakeTicketInv(c: Config, s: State, wid: nat)
    requires Inv(c, s) && wid < c.workers && s.workers[wid].status == Alive
    requires s.workers[wid].pc.FetchAdd?
    ensures Inv(c, TakeTicket(s, wid))
  {
    hide Ledger, Launches, Delivered, Packets, Kept, Places, CommittedOf, Attempts, ConservedAt;
    var s' := TakeTicket(s, wid);
    NeverClaimed(s.claims, s.r);
    forall i: nat ensures ConservedAt(s', i) { TakeTicketConserves(s, wid, i); }
    WorkerStepInv(c, s, s', wid);
  }


  /** A ticket in hand is in no other place. */
  lemma OnlyPlace(s: State, v: nat)
    requires Conserved(s) && v < |s.workers| && InHand(s.workers[v].pc) != []
    ensures var i := InHand(s.workers[v].pc)[0].idx;
      && i < s.r
      && (forall u :: 0 <= u < |s.workers| && u != v && InHand(s.workers[u].pc) != [] ==>
          InHand(s.workers[u].pc)[0].idx != i)
      && (forall k :: 0 <= k < |s.escrow| ==> s.escrow[k].idx != i)
      && (forall k :: 0 <= k < |s.order| ==> s.order[k].idx != i)
  {
    hide HeldCount, EscrowCount, AckCount, Count;
    var i := InHand(s.workers[v].pc)[0].idx;
    assert ConservedAt(s, i);
    HeldHas(s.workers, v, i);
    forall u | 0 <= u < |s.workers| && u != v && InHand(s.workers[u].pc) != []
      ensures InHand(s.workers[u].pc)[0].idx != i
    {
      if u < v { HeldTwice(s.workers, u, v, i); } else { HeldTwice(s.workers, v, u, i); }
    }
    forall k | 0 <= k < |s.escrow| ensures s.escrow[k].idx != i {
      if s.escrow[k].idx == i { EscrowHas(s.escrow, k); }
    }
    forall k | 0 <= k < |s.order| ensures s.order[k].idx != i {
      if s.order[k].idx == i { AckHas(s.order, k); }
    }
  }

  lemma SlotExact(pub: seq<Batch>, idx: nat)
    requires idx < |pub| <= idx + RING_SIZE
    ensures Slot(pub, idx) == pub[idx]
  {
  }

  lemma HistoryAppend(limit: int, r: nat, claims: seq<Claim>, runs: seq<Claim>, poisoned: nat, x: Claim)
    requires History(limit, r, claims, runs, poisoned) && x.idx < r && x.kills == Attempts(claims, x.idx)
    ensures History(limit, r, claims + [x], runs, poisoned)
  {
    hide Attempts, PoisonCount, CountsPoison;
    var q := claims + [x];
    assert ClaimsCounted(q) by {
      forall j | 0 <= j < |q| ensures ClaimCounted(q, j) {
        assert j < |claims| ==> ClaimCounted(claims, j);
        assert q[..j] == claims[..j];
        assert claims[..|claims|] == claims;
      }
    }
  }

  lemma RetriesAppend(s: State, wid: nat, p: EscrowPacket)
    requires Conserved(s) && wid < |s.workers| && s.workers[wid].pc == Ready(p)
    requires Retries(s.escrow, s.workers, s.claims)
    ensures Retries(s.escrow, s.workers[wid := s.workers[wid].(pc := Counting(p))], s.claims + [Claim(p.idx, p.kills)])
  {
    hide Attempts, Conserved;
    OnlyPlace(s, wid);
    var x := Claim(p.idx, p.kills);
    forall k | 0 <= k < |s.escrow| ensures Attempts(s.claims + [x], s.escrow[k].idx) == s.escrow[k].kills {
      AttemptsAppend(s.claims, x, s.escrow[k].idx);
    }
    var claims, ws := s.claims + [x], s.workers[wid := s.workers[wid].(pc := Counting(p))];
    forall v | 0 <= v < |ws| ensures HandCounted(claims, ws[v].pc) {
      assert HandCounted(s.claims, s.workers[v].pc);
      if InHand(s.workers[v].pc) != [] { AttemptsAppend(s.claims, x, InHand(s.workers[v].pc)[0].idx); }
    }
  }

  lemma PublishRecords(s: State, wid: nat, p: EscrowPacket)
    requires |s.workers| == |s.txn| == |s.incarn| == |s.files| == |s.stray| && wid < |s.workers|
    requires s.workers[wid].status == Alive && s.workers[wid].pc == Ready(p)
    requires p.idx < |s.pub| <= p.idx + RING_SIZE
    requires Records(s.pub, s.workers, s.txn, s.incarn, s.sup)
    ensures var s' := Publish(s, wid, p);
      && Records(s'.pub, s'.workers, s'.txn, s'.incarn, s'.sup)
      && (Outputs(s.order, s.workers, s.txn, s.files, s.stray) ==>
          Outputs(s'.order, s'.workers, s'.txn, s'.files, s'.stray))
      && (Packets(s.order, s.workers, s.files, s.stray) ==> Packets(s'.order, s'.workers, s'.files, s'.stray))
  {
    hide CommittedOf, Slot, Kept, PacketIn;
    SlotExact(s.pub, p.idx);
  }

  lemma PublishInv(c: Config, s: State, wid: nat, p: EscrowPacket)
    requires Inv(c, s) && wid < c.workers && s.workers[wid].status == Alive && s.workers[wid].pc == Ready(p)
    ensures Inv(c, Publish(s, wid, p))
  {
    hide Ledger, Launches, History, Retries, Records, Outputs, Packets, Delivered, Places, Attempts, ConservedAt, Slot;
    var s' := Publish(s, wid, p);
    forall i: nat ensures ConservedAt(s', i) { PublishConserves(s, wid, p, i); }
    OnlyPlace(s, wid);
    HandOf(s, wid);
    HistoryAppend(c.retryLimit, s.r, s.claims, s.runs, s.poisoned, Claim(p.idx, p.kills));
    RetriesAppend(s, wid, p);
    PublishRecords(s, wid, p);
  }

  lemma CountPoisonRecords(c: Config, s: State, wid: nat, p: EscrowPacket)
    requires |s.workers| == |s.txn| == |s.incarn| == |s.files| == |s.stray| && wid < |s.workers|
    requires s.workers[wid].status == Alive && s.workers[wid].pc == Counting(p)
    requires Records(s.pub, s.workers, s.txn, s.incarn, s.sup)
    requires Outputs(s.order, s.workers, s.txn, s.files, s.stray) && Packets(s.order, s.workers, s.files, s.stray)
    ensures var s' := CountPoison(c, s, wid, p);
      && Records(s'.pub, s'.workers, s'.txn, s'.incarn, s'.sup)
      && Outputs(s'.order, s'.workers, s'.txn, s'.files, s'.stray) && Packets(s'.order, s'.workers, s'.files, s'.stray)
  {
    hide CommittedOf, Kept, PacketIn, CoredumpArmed, CountsPoison;
  }

  lemma CountPoisonInv(c: Config, s: State, wid: nat, p: EscrowPacket)
    requires Inv(c, s) && wid < c.workers && s.workers[wid].status == Alive && s.workers[wid].pc == Counting(p)
    ensures Inv(c, CountPoison(c, s, wid, p))
  {
    hide Ledger, Launches, Delivered, Records, Outputs, Packets, Places, Attempts, ConservedAt;
    hide PoisonCount, ClaimsCounted, CountsPoison, CoredumpArmed;
    var s' := CountPoison(c, s, wid, p);
    forall i: nat ensures ConservedAt(s', i) { CountPoisonConserves(c, s, wid, p, i); }
    PoisonAppend(c.retryLimit, s.runs, Claim(p.idx, p.kills));
    HandOf(s, wid);
    CountPoisonRecords(c, s, wid, p);
  }

  lemma HandOf(s: State, wid: nat)
    requires Retries(s.escrow, s.workers, s.claims) && wid < |s.workers|
    ensures HandCounted(s.claims, s.workers[wid].pc)
  {
  }

  /** One slot's worker, record, file and stray bytes change together. */
  lemma OutputsUpdate(s: State, s': State, wid: nat)
    requires wid < |s.workers| == |s.txn| == |s.files| == |s.stray| && s'.order == s.order
    requires |s'.workers| == |s'.txn| == |s'.files| == |s'.stray| == |s.workers|
    requires s'.workers == s.workers[wid := s'.workers[wid]]
    requires s'.txn == s.txn[wid := s'.txn[wid]] && s'.files == s.files[wid := s'.files[wid]]
    requires s'.stray == s.stray[wid := s'.stray[wid]]
    requires Outputs(s.order, s.workers, s.txn, s.files, s.stray)
    requires OutputOk(s.order, s'.workers[wid], s'.txn[wid], s'.files[wid], s'.stray[wid], wid)
    ensures Outputs(s'.order, s'.workers, s'.txn, s'.files, s'.stray)
  {
    hide OutputOk;
  }

  lemma PacketsUpdate(s: State, s': State, wid: nat)
    requires wid < |s.workers| == |s.files| == |s.stray| && s'.order == s.order
    requires |s'.workers| == |s'.files| == |s'.stray| == |s.workers| && s'.workers == s.workers[wid := s'.workers[wid]]
    requires s'.files == s.files[wid := s'.files[wid]] && s'.stray == s.stray[wid := s'.stray[wid]]
    requires Packets(s.order, s.workers, s.files, s.stray) && s.stray[wid] <= s'.stray[wid]
    requires Kept(s.files[wid], s.workers[wid].emitted) <= Kept(s'.files[wid], s'.workers[wid].emitted)
    ensures Packets(s'.order, s'.workers, s'.files, s'.stray)
  {
    hide Kept, PacketIn;
    forall k | 0 <= k < |s'.order| ensures PacketPlaced(s'.order[k], s'.workers, s'.files, s'.stray) {
      assert PacketPlaced(s.order[k], s.workers, s.files, s.stray);
      if s.order[k].wid == wid {
        PacketStays(s.order[k], Kept(s.files[wid], s.workers[wid].emitted),
                    Kept(s'.files[wid], s'.workers[wid].emitted));
      }
    }
  }

  /** Packets stay where they are while the file before the batch in flight only
      grows. */
  lemma PacketStays(p: OrderPacket, kept: Bytes, kept': Bytes)
    requires PacketIn(p, kept) && kept <= kept'
    ensures PacketIn(p, kept')
  {
  }

  lemma KeptAll(file: Bytes)
    ensures Kept(file, []) == file
  {
  }

  lemma EmitOutput(order: seq<OrderPacket>, wk: Worker, t: Txn, file: Bytes, stray: nat, v: nat, data: Bytes)
    requires OutputOk(order, wk, t, file, stray, v) && wk.pc.Running?
    ensures OutputOk(order, wk.(emitted := wk.emitted + data), t, file + data, stray, v)
    ensures Kept(file + data, wk.emitted + data) == Kept(file, wk.emitted)
  {
    hide CommittedOf;
    assert Kept(file + data, wk.emitted + data) == Kept(file, wk.emitted);
    assert file + data == Kept(file, wk.emitted) + (wk.emitted + data);
  }

  lemma EmitOutputs(s: State, wid: nat, data: Bytes)
    requires |s.workers| == |s.txn| == |s.files| == |s.stray| && wid < |s.workers| && s.workers[wid].pc.Running?
    requires Outputs(s.order, s.workers, s.txn, s.files, s.stray) && Packets(s.order, s.workers, s.files, s.stray)
    ensures var s' := EmitBytes(s, wid, data);
      Outputs(s'.order, s'.workers, s'.txn, s'.files, s'.stray) && Packets(s'.order, s'.workers, s'.files, s'.stray)
  {
    EmitOutput(s.order, s.workers[wid], s.txn[wid], s.files[wid], s.stray[wid], wid, data);
    hide OutputOk, Kept, PacketIn, Outputs, Packets;
    OutputsUpdate(s, EmitBytes(s, wid, data), wid);
    PacketsUpdate(s, EmitBytes(s, wid, data), wid);
  }

  lemma EmitInv(c: Config, s: State, wid: nat, data: Bytes)
    requires Inv(c, s) && wid < c.workers && s.workers[wid].status == Alive && s.workers[wid].pc.Running?
    ensures Inv(c, EmitBytes(s, wid, data))
  {
    hide Ledger, Launches, History, Delivered, Places, Outputs, Packets, Attempts, ConservedAt;
    var s' := EmitBytes(s, wid, data);
    forall i: nat ensures ConservedAt(s', i) { EmitConserves(s, wid, data, i); }
    EmitOutputs(s, wid, data);
  }

  lemma DeliveredAppend(order: seq<OrderPacket>, signals: seq<(nat, nat)>, stray: seq<nat>, p: OrderPacket)
    requires Delivered(order, signals, stray)
    requires p.off == |CommittedOf(order, p.wid)| + p.stray && p.len == |p.data|
    ensures Delivered(order + [p], signals, stray)
  {
    hide CommittedOf;
    forall k | 0 <= k < |order + [p]| ensures PacketOk(order + [p], k) {
      if k < |order| {
        assert PacketOk(order, k);
        assert (order + [p])[..k] == order[..k];
      } else {
        assert (order + [p])[..k] == order;
      }
    }
    forall j | 0 <= j < |signals| ensures SignalOk(order + [p], signals[j], stray) {
      assert SignalOk(order, signals[j], stray);
      CommittedAppend(order, p, signals[j].0);
    }
  }

  lemma LedgerAppend(c: Config, pub: seq<Batch>, order: seq<OrderPacket>, horizon: nat, p: OrderPacket)
    requires Ledger(c, pub, order, horizon)
    ensures Ledger(c, pub, order + [p], horizon)
  {
    hide Apart;
    forall b: nat | c.resumeFrom <= b < horizon && b !in c.foreign ensures Covered(pub, order + [p], b) {
      assert Covered(pub, order, b);
      var k :| 0 <= k < |order| && order[k].idx < |pub| && pub[order[k].idx].offset <= b < pub[order[k].idx].end;
      assert (order + [p])[k] == order[k];
    }
  }

  lemma SendOutputs(s: State, wid: nat, p: EscrowPacket)
    requires wid < |s.workers| == |s.txn| == |s.files| == |s.stray|
    requires s.workers[wid].pc == Committing(p) && s.workers[wid].status == Alive
    requires Outputs(s.order, s.workers, s.txn, s.files, s.stray) && Delivered(s.order, s.signals, s.stray)
    ensures var s' := SendPacket(s, wid, p);
      Outputs(s'.order, s'.workers, s'.txn, s'.files, s'.stray) && Delivered(s'.order, s'.signals, s'.stray)
  {
    hide CommittedOf, Delivered, Kept;
    var s' := SendPacket(s, wid, p);
    var packet := s'.order[|s.order|];
    assert OutputOk(s.order, s.workers[wid], s.txn[wid], s.files[wid], s.stray[wid], wid);
    DeliveredAppend(s.order, s.signals, s.stray, packet);
    KeptAll(s.files[wid]);
    forall v | 0 <= v < |s'.workers| ensures OutputOk(s'.order, s'.workers[v], s'.txn[v], s'.files[v], s'.stray[v], v) {
      assert OutputOk(s.order, s.workers[v], s.txn[v], s.files[v], s.stray[v], v);
      CommittedAppend(s.order, packet, v);
    }
  }

  lemma SendPackets(s: State, wid: nat, p: EscrowPacket)
    requires wid < |s.workers| == |s.txn| == |s.files| == |s.stray|
    requires s.workers[wid].pc == Committing(p) && s.workers[wid].status == Alive
    requires Outputs(s.order, s.workers, s.txn, s.files, s.stray) && Packets(s.order, s.workers, s.files, s.stray)
    ensures var s' := SendPacket(s, wid, p); Packets(s'.order, s'.workers, s'.files, s'.stray)
  {
    var s', wk, file := SendPacket(s, wid, p), s.workers[wid], s.files[wid];
    assert OutputOk(s.order, wk, s.txn[wid], file, s.stray[wid], wid);
    KeptAll(file);
    assert Kept(file, wk.emitted) <= file && file[wk.lastAck..] == wk.emitted;
    assert PacketIn(s'.order[|s.order|], file) by { assert file[wk.lastAck..|file|] == file[wk.lastAck..]; }
    hide CommittedOf, Kept, PacketIn;
    forall k | 0 <= k < |s'.order| ensures PacketPlaced(s'.order[k], s'.workers, s'.files, s'.stray) {
      if k < |s.order| { assert PacketPlaced(s.order[k], s.workers, s.files, s.stray); }
      if k < |s.order| && s.order[k].wid == wid { PacketStays(s.order[k], Kept(file, wk.emitted), file); }
    }
  }

  lemma SendPacketInv(c: Config, s: State, wid: nat, p: EscrowPacket)
    requires Inv(c, s) && wid < c.workers && s.workers[wid].status == Alive && s.workers[wid].pc == Committing(p)
    ensures Inv(c, SendPacket(s, wid, p))
  {
    hide Ledger, Launches, History, Delivered, Outputs, Packets, Places, Attempts, ConservedAt;
    var s' := SendPacket(s, wid, p);
    forall i: nat ensures ConservedAt(s', i) { SendPacketConserves(s, wid, p, i); }
    LedgerAppend(c, s.pub, s.order, s.horizon, s'.order[|s.order|]);
    SendOutputs(s, wid, p);
    SendPackets(s, wid, p);
  }

  lemma StatusOutputs(s: State, wid: nat, status: Status)
    requires wid < |s.workers| == |s.txn| == |s.files| == |s.stray| && !status.Alive?
    requires Outputs(s.order, s.workers, s.txn, s.files, s.stray) && Packets(s.order, s.workers, s.files, s.stray)
    ensures var ws := SetStatus(s, wid, status).workers;
      Outputs(s.order, ws, s.txn, s.files, s.stray) && Packets(s.order, ws, s.files, s.stray)
  {
    assert OutputOk(s.order, s.workers[wid], s.txn[wid], s.files[wid], s.stray[wid], wid);
    assert OutputOk(s.order, s.workers[wid].(status := status), s.txn[wid], s.files[wid], s.stray[wid], wid);
    hide OutputOk, Kept, PacketIn, Outputs, Packets;
    OutputsUpdate(s, SetStatus(s, wid, status), wid);
    PacketsUpdate(s, SetStatus(s, wid, status), wid);
  }

  /** Dying and exiting. */
  lemma StatusInv(c: Config, s: State, wid: nat, status: Status)
    requires Inv(c, s) && wid < c.workers && s.workers[wid].status == Alive && status.Dead?
    ensures Inv(c, SetStatus(s, wid, status))
  {
    hide Ledger, Launches, History, Delivered, Outputs, Packets, Places, Attempts, ConservedAt;
    var s' := SetStatus(s, wid, status);
    forall i: nat ensures ConservedAt(s', i) { StatusConserves(s, wid, status, i); }
    StatusOutputs(s, wid, status);
  }

  // ------------------------------------------------- recovery and respawning

  lemma DepositOutput(order: seq<OrderPacket>, wk: Worker, t: Txn, file: Bytes, stray: nat, v: nat)
    requires OutputOk(order, wk, t, file, stray, v) && InClaim(wk.pc) && wk.status.Dead?
    ensures t.outputStart <= |file| && file[..t.outputStart] == Kept(file, wk.emitted)
    ensures OutputOk(order, wk.(pc := Between, emitted := [], armed := false), t, file[..t.outputStart], stray, v)
    ensures Kept(file[..t.outputStart], []) == Kept(file, wk.emitted)
  {
    hide CommittedOf;
  }

  lemma DepositOutputs(s: State, wid: nat)
    requires wid < |s.workers| == |s.txn| == |s.files| == |s.stray| && InClaim(s.workers[wid].pc)
    requires Outputs(s.order, s.workers, s.txn, s.files, s.stray) && Packets(s.order, s.workers, s.files, s.stray)
    requires s.workers[wid].status.Dead?
    ensures var s' := Deposit(s, wid);
      Outputs(s'.order, s'.workers, s'.txn, s'.files, s'.stray) && Packets(s'.order, s'.workers, s'.files, s'.stray)
  {
    DepositOutput(s.order, s.workers[wid], s.txn[wid], s.files[wid], s.stray[wid], wid);
    hide OutputOk, Kept, PacketIn, Outputs, Packets;
    OutputsUpdate(s, Deposit(s, wid), wid);
    PacketsUpdate(s, Deposit(s, wid), wid);
  }

  lemma DepositInv(c: Config, s: State, wid: nat)
    requires Inv(c, s) && s.sup.Recovering? && s.sup.wid == wid && s.txn[wid].state == CLAIMED
    ensures Inv(c, Deposit(s, wid))
  {
    hide Ledger, Launches, History, Delivered, Places, Outputs, Packets, Attempts, ConservedAt;
    var s' := Deposit(s, wid);
    assert RecordOk(s.pub, s.workers[wid], s.txn[wid], s.incarn[wid], false);
    assert InHand(s.workers[wid].pc) == [EscrowPacket(s.txn[wid].idx, s.txn[wid].kills)];
    forall i: nat ensures ConservedAt(s', i) { DepositConserves(s, wid, i); }
    HandOf(s, wid);
    DepositOutputs(s, wid);
  }

  /** What the stood-down execution emitted is kept from now on. */
  lemma StandDownOutput(order: seq<OrderPacket>, wk: Worker, t: Txn, file: Bytes, stray: nat, v: nat)
    requires OutputOk(order, wk, t, file, stray, v) && wk.status.Dead?
    ensures OutputOk(order, wk.(pc := Between, emitted := [], armed := false), t.(state := IDLE), file,
                     stray + |wk.emitted|, v)
    ensures Kept(file, wk.emitted) <= file == Kept(file, [])
  {
    hide CommittedOf;
  }

  lemma StandDownOutputs(s: State, wid: nat, rc: nat)
    requires wid < |s.workers| == |s.txn| == |s.files| == |s.stray| && s.workers[wid].status.Dead?
    requires Outputs(s.order, s.workers, s.txn, s.files, s.stray) && Packets(s.order, s.workers, s.files, s.stray)
    ensures var s' := StandDown(s, wid, rc);
      Outputs(s'.order, s'.workers, s'.txn, s'.files, s'.stray) && Packets(s'.order, s'.workers, s'.files, s'.stray)
  {
    StandDownOutput(s.order, s.workers[wid], s.txn[wid], s.files[wid], s.stray[wid], wid);
    hide OutputOk, Kept, PacketIn, Outputs, Packets;
    OutputsUpdate(s, StandDown(s, wid, rc), wid);
    PacketsUpdate(s, StandDown(s, wid, rc), wid);
  }

  lemma StandDownDelivered(s: State, wid: nat, rc: nat)
    requires wid < |s.workers| == |s.txn| == |s.files| == |s.stray| && Delivered(s.order, s.signals, s.stray)
    ensures Delivered(s.order, s.signals, StandDown(s, wid, rc).stray)
  {
    hide CommittedOf, PacketOk;
    forall j | 0 <= j < |s.signals| ensures SignalOk(s.order, s.signals[j], StandDown(s, wid, rc).stray) {
      assert SignalOk(s.order, s.signals[j], s.stray);
    }
  }

  lemma StandDownInv(c: Config, s: State, wid: nat, rc: nat)
    requires Inv(c, s) && s.sup.Recovering? && s.sup.wid == wid && s.txn[wid].state == CLAIMED
    ensures Inv(c, StandDown(s, wid, rc))
  {
    hide Ledger, Launches, History, Delivered, Outputs, Packets, Places, Attempts, ConservedAt;
    var s' := StandDown(s, wid, rc);
    assert RecordOk(s.pub, s.workers[wid], s.txn[wid], s.incarn[wid], false);
    forall i: nat ensures ConservedAt(s', i) { StandDownConserves(s, wid, rc, i); }
    StandDownOutputs(s, wid, rc);
    StandDownDelivered(s, wid, rc);
  }

  /** Supervisor steps that only move its own place. */
  lemma SupervisorMoveInv(c: Config, s: State, sup: Supervisor, pending: bool)
    requires Inv(c, s) && SupervisorOk(s.workers, sup)
    requires forall v :: 0 <= v < c.workers ==> HandingOver(sup, v) == HandingOver(s.sup, v)
    ensures Inv(c, s.(sup := sup, pending := pending))
  {
    hide Ledger, Launches, History, Retries, Outputs, Packets, Delivered;
    hide HeldCount, ConservedAt, RecordOk, PcBound, SupervisorOk, HandingOver;
    var s' := s.(sup := sup, pending := pending);
    forall i: nat ensures ConservedAt(s', i) { SameConserves(s, s', i); }
  }

  lemma SameConserves(s: State, s': State, i: nat)
    requires ConservedAt(s, i)
    requires s' == s.(sup := s'.sup, pending := s'.pending, txn := s'.txn, signals := s'.signals, pub := s'.pub,
                      w := s'.w, finished := s'.finished, horizon := s'.horizon)
    ensures ConservedAt(s', i)
  {
    hide HeldCount, EscrowCount, AckCount, Count;
  }

  lemma ClearRecordInv(c: Config, s: State, wid: nat)
    requires Inv(c, s) && s.sup == Flagged(wid)
    ensures Inv(c, SetTxnState(s, wid, IDLE).(sup := Classified(wid, 0)))
  {
    hide Ledger, Launches, History, Retries, Delivered, HeldCount, CommittedOf, ConservedAt, PcBound;
    var s' := SetTxnState(s, wid, IDLE).(sup := Classified(wid, 0));
    assert RecordOk(s.pub, s.workers[wid], s.txn[wid], s.incarn[wid], true);
    forall i: nat ensures ConservedAt(s', i) { SameConserves(s, s', i); }
  }

  lemma DeliveredSignal(order: seq<OrderPacket>, signals: seq<(nat, nat)>, stray: seq<nat>, wid: nat, frontier: nat)
    requires Delivered(order, signals, stray) && wid < |stray| && frontier <= |CommittedOf(order, wid)| + stray[wid]
    ensures Delivered(order, signals + [(wid, frontier)], stray)
  {
    hide CommittedOf, PacketOk;
    var q := signals + [(wid, frontier)];
    forall j | 0 <= j < |q| ensures SignalOk(order, q[j], stray) {
      if j < |signals| { assert SignalOk(order, signals[j], stray); }
    }
  }

  lemma WakeInv(c: Config, s: State, wid: nat, rc: nat)
    requires Inv(c, s) && s.sup == Classified(wid, rc)
    ensures Inv(c, Wake(s, wid, rc))
  {
    hide Ledger, Launches, History, Retries, Delivered, Packets, HeldCount, CommittedOf, ConservedAt, PcBound, RecordOk;
    var s' := Wake(s, wid, rc);
    forall i: nat ensures ConservedAt(s', i) { SameConserves(s, s', i); }
    assert s.signals + [] == s.signals;
    if rc <= 2 {
      assert OutputOk(s.order, s.workers[wid], s.txn[wid], s.files[wid], s.stray[wid], wid);
      DeliveredSignal(s.order, s.signals, s.stray, wid, |s.files[wid]|);
    }
  }

  lemma FreeInv(c: Config, s: State, wid: nat, rc: nat)
    requires Inv(c, s) && s.sup == Respawning(wid, rc)
    ensures Inv(c, SetStatus(s, wid, Freed).(sup := Waiting))
  {
    hide Ledger, Launches, History, Delivered, Outputs, Packets, Places, Attempts, ConservedAt;
    var s' := SetStatus(s, wid, Freed).(sup := Waiting);
    StatusOutputs(s, wid, Freed);
    forall i: nat ensures ConservedAt(s', i) {
      StatusConserves(s, wid, Freed, i);
      SameConserves(SetStatus(s, wid, Freed), s', i);
    }
  }

  lemma LaunchAgain(c: Config, incarn: seq<nat>, forks: nat, wid: nat)
    requires Launches(c, incarn, forks) && wid < |incarn|
    requires c.respawnCap >= 0 ==> incarn[wid] < c.respawnCap
    ensures Launches(c, incarn[wid := incarn[wid] + 1], forks + 1)
  {
    SumUpdate(incarn, wid, incarn[wid] + 1);
  }

  lemma SpawnOutputs(s: State, wid: nat)
    requires wid < |s.workers| == |s.txn| == |s.files| == |s.stray| == |s.incarn|
    requires s.workers[wid].pc.Between? || s.workers[wid].pc.AtEof?
    requires Outputs(s.order, s.workers, s.txn, s.files, s.stray) && Packets(s.order, s.workers, s.files, s.stray)
    ensures var s' := Spawn(s, wid);
      Outputs(s'.order, s'.workers, s'.txn, s'.files, s'.stray) && Packets(s'.order, s'.workers, s'.files, s'.stray)
  {
    assert OutputOk(s.order, s.workers[wid], s.txn[wid], s.files[wid], s.stray[wid], wid);
    assert OutputOk(s.order, Spawn(s, wid).workers[wid], s.txn[wid], s.files[wid], s.stray[wid], wid);
    hide OutputOk, Kept, PacketIn, Outputs, Packets;
    OutputsUpdate(s, Spawn(s, wid), wid);
    PacketsUpdate(s, Spawn(s, wid), wid);
  }

  lemma SpawnInv(c: Config, s: State, wid: nat, rc: nat)
    requires Inv(c, s) && s.sup == Respawning(wid, rc)
    requires c.respawnCap >= 0 ==> s.incarn[wid] < c.respawnCap
    ensures Inv(c, Spawn(s, wid))
  {
    hide Ledger, Launches, History, Delivered, Places, Outputs, Packets, Attempts, ConservedAt;
    var s' := Spawn(s, wid);
    forall i: nat ensures ConservedAt(s', i) { SpawnConserves(s, wid, i); }
    assert RecordOk(s.pub, s.workers[wid], s.txn[wid], s.incarn[wid], false);
    LaunchAgain(c, s.incarn, s.forks, wid);
    SpawnOutputs(s, wid);
  }

  // ------------------------------------------- scanner, orderer and the steps

  lemma FlushInv(c: Config, s: State, b: Batch)
    requires Inv(c, s) && Enabled(c, s, Flush(b))
    ensures Inv(c, s.(pub := s.pub + [b]))
  {
    hide Launches, History, Retries, Delivered, HeldCount, CommittedOf, ConservedAt, PcBound, Attempts;
    var s' := s.(pub := s.pub + [b]);
    forall i: nat ensures ConservedAt(s', i) { SameConserves(s, s', i); }
    LedgerFlush(c, s.pub, s.order, s.horizon, b);
  }

  lemma LedgerFlush(c: Config, pub: seq<Batch>, order: seq<OrderPacket>, horizon: nat, b: Batch)
    requires Ledger(c, pub, order, horizon)
    requires c.resumeFrom <= b.offset <= b.end && Apart(c.foreign, b)
    requires forall i :: 0 <= i < |pub| ==> !Overlaps(pub[i], b)
    ensures Ledger(c, pub + [b], order, horizon)
  {
    hide Apart;
    forall x: nat | c.resumeFrom <= x < horizon && x !in c.foreign ensures Covered(pub + [b], order, x) {
      assert Covered(pub, order, x);
      var k :| 0 <= k < |order| && order[k].idx < |pub| && pub[order[k].idx].offset <= x < pub[order[k].idx].end;
      assert (pub + [b])[order[k].idx] == pub[order[k].idx];
    }
  }

  lemma BoundLater(w: nat, w': nat, r: nat, f: bool, f': bool, pc: Pc)
    requires PcBound(w, r, f, pc) && w <= w' && (f ==> f' && w' == w)
    ensures PcBound(w', r, f', pc)
  {
  }

  lemma ScannerInv(c: Config, s: State, w: nat, finished: bool)
    requires Inv(c, s) && s.w <= w <= |s.pub| && (s.finished ==> finished && w == s.w) && (finished ==> w == |s.pub|)
    ensures Inv(c, s.(w := w, finished := finished))
  {
    hide Ledger, Launches, History, Retries, Records, Outputs, Packets, Delivered, HeldCount, ConservedAt, PcBound;
    var s' := s.(w := w, finished := finished);
    forall i: nat ensures ConservedAt(s', i) { SameConserves(s, s', i); }
    forall v | 0 <= v < |s.workers| ensures PcBound(w, s.r, finished, s.workers[v].pc) {
      BoundLater(s.w, w, s.r, s.finished, finished, s.workers[v].pc);
    }
  }

  lemma HorizonInv(c: Config, s: State, h: nat)
    requires Inv(c, s) && Enabled(c, s, AdvanceHorizon(h))
    ensures Inv(c, s.(horizon := h))
  {
    hide Launches, History, Retries, Records, Outputs, Packets, Delivered, HeldCount, ConservedAt, PcBound, Covered,
      Apart;
    var s' := s.(horizon := h);
    forall i: nat ensures ConservedAt(s', i) { SameConserves(s, s', i); }
  }

  lemma WorkInv(c: Config, s: State, wid: nat, choice: Choice)
    requires Inv(c, s) && CanWork(c, s, wid, choice)
    ensures Inv(c, DoWork(c, s, wid, choice))
  {
    hide Inv, SetPc, BeginClaim, Rearm, StopDrain, TakePacket, RejectHeld, RejectPacket, TakeTicket, LeaveAtEof,
      Abandon, Publish, CountPoison, EmitBytes, BeginCommit, SendPacket, ClearTxn, SetStatus;
    var wk := s.workers[wid];
    BoundOf(c, s, wid);
    match wk.pc
    case Between => BeginClaimInv(c, s, wid);
    case Restart => RearmInv(c, s, wid);
    case DrainRead =>
      if wk.drain && s.escrow == [] { StopDrainInv(c, s, wid); }
      else if wk.drain { TakePacketInv(c, s, wid, DrainW(s.escrow[0])); }
      else { SetPcInv(c, s, wid, NextPc(s, wk.pc)); }
    case DrainR(p, wSnap) =>
      if EscrowIdxLive(p.idx, wSnap, s.r) { SetPcInv(c, s, wid, NextPc(s, wk.pc)); }
      else { RejectHeldInv(c, s, wid, p); }
    case FetchAdd => TakeTicketInv(c, s, wid);
    case EscrowRead(wSnap, rSnap) =>
      if s.escrow == [] { SetPcInv(c, s, wid, NextPc(s, wk.pc)); }
      else if EscrowIdxLive(s.escrow[0].idx, wSnap, rSnap) { TakePacketInv(c, s, wid, EvalW(s.escrow[0])); }
      else { RejectPacketInv(c, s, wid); }
    case FinPoll => if s.escrow == [] { LeaveAtEofInv(c, s, wid); } else { SetPcInv(c, s, wid, NextPc(s, wk.pc)); }
    case EvalFinished(p) => if s.finished { AbandonInv(c, s, wid, p); } else { SetPcInv(c, s, wid, NextPc(s, wk.pc)); }
    case WaitLastW(p) => if p.idx < s.w { SetPcInv(c, s, wid, NextPc(s, wk.pc)); } else { AbandonInv(c, s, wid, p); }
    case Ready(p) => PublishInv(c, s, wid, p);
    case Counting(p) => CountPoisonInv(c, s, wid, p);
    case Running(p) => if choice.Emit? { EmitInv(c, s, wid, choice.data); } else { BeginCommitInv(c, s, wid, p); }
    case Committing(p) => SendPacketInv(c, s, wid, p);
    case Sent => ClearTxnInv(c, s, wid);
    case AtEof => StatusInv(c, s, wid, Dead(0));
    case _ => SetPcInv(c, s, wid, NextPc(s, wk.pc));
  }

  lemma BoundOf(c: Config, s: State, wid: nat)
    requires Inv(c, s) && wid < c.workers
    ensures PcBound(s.w, s.r, s.finished, s.workers[wid].pc)
  {
    hide Ledger, Launches, History, Retries, Records, Outputs, Packets, Delivered, Conserved, PcBound;
  }

  lemma SuperviseInv(c: Config, s: State)
    requires Inv(c, s) && CanSupervise(c, s)
    ensures Inv(c, DoSupervise(c, s))
  {
    hide Conserved, Ledger, Launches, History, Retries, Outputs, Packets, Delivered, Bounds, Deposit, StandDown, Wake,
      Spawn, SetStatus, SetTxnState;
    match s.sup
    case Recovering(wid, code) =>
      assert RecordOk(s.pub, s.workers[wid], s.txn[wid], s.incarn[wid], false);
      var verdict := Classify(s, s.txn[wid], s.incarn[wid], code);
      if verdict.Orphan? { DepositInv(c, s, wid); }
      else if verdict.rc == 4 || verdict.rc == 5 { SupervisorMoveInv(c, s, Aborted, s.pending); }
      else if verdict.clears { StandDownInv(c, s, wid, verdict.rc); }
      else { SupervisorMoveInv(c, s, Classified(wid, verdict.rc), s.pending); }
    case Deposited(wid) => SupervisorMoveInv(c, s, Flagged(wid), true);
    case Flagged(wid) => ClearRecordInv(c, s, wid);
    case Classified(wid, rc) => WakeInv(c, s, wid, rc);
    case Respawning(wid, rc) =>
      if rc == 2 { FreeInv(c, s, wid, rc); }
      else if c.respawnCap >= 0 && s.incarn[wid] >= c.respawnCap { SupervisorMoveInv(c, s, Aborted, s.pending); }
      else { SpawnInv(c, s, wid, rc); }
    case _ =>
  }

  lemma StepInv(c: Config, s: State, a: Action)
    requires Inv(c, s) && Enabled(c, s, a)
    ensures Inv(c, Do(c, s, a))
  {
    hide Conserved, Ledger, Launches, History, Retries, Records, Outputs, Packets, Delivered;
    hide WithinWindow, DoWork, DoSupervise, SetStatus;
    match a
    case Flush(b) => FlushInv(c, s, b);
    case StoreWriteIdx(target) => ScannerInv(c, s, target, s.finished);
    case Finish => ScannerInv(c, s, s.w, true);
    case AdvanceHorizon(h) => HorizonInv(c, s, h);
    case Work(wid, choice) => WorkInv(c, s, wid, choice);
    case Die(wid, code) => StatusInv(c, s, wid, Dead(code));
    case Reap(wid) => ReapInv(c, s, wid);
    case Supervise => SuperviseInv(c, s);
  }

  lemma ReapInv(c: Config, s: State, wid: nat)
    requires Inv(c, s) && wid < c.workers && s.workers[wid].status.Dead? && s.sup == Waiting
    ensures Inv(c, s.(sup := Recovering(wid, s.workers[wid].status.code)))
  {
    hide Conserved, Ledger, Launches, History, Retries, Outputs, Packets, Delivered, Bounds;
    SupervisorMoveInv(c, s, Recovering(wid, s.workers[wid].status.code), s.pending);
  }

  lemma {:induction false} InitConserved(ws: seq<Worker>, i: nat)
    requires forall v :: 0 <= v < |ws| ==> InHand(ws[v].pc) == []
    ensures HeldCount(ws, i) == 0
  {
    if ws != [] { InitConserved(ws[..|ws| - 1], i); }
  }

  lemma {:induction false} InitSum(q: seq<nat>)
    requires forall v :: 0 <= v < |q| ==> q[v] == 0
    ensures Sum(q) == 0
  {
    if q != [] { InitSum(q[..|q| - 1]); }
  }

  lemma InitInv(c: Config, s: State)
    requires Init(c, s)
    ensures Inv(c, s)
  {
    hide HeldCount;
    forall i: nat ensures ConservedAt(s, i) { InitConserved(s.workers, i); }
    InitSum(s.incarn);
  }

  lemma {:induction false} RunInv(c: Config, states: seq<State>, actions: seq<Action>, i: nat)
    requires Run(c, states, actions) && i < |states|
    ensures Inv(c, states[i])
  {
    hide Inv, Init, Enabled, Do;
    if i == 0 { InitInv(c, states[0]); } else {
      RunInv(c, states, actions, i - 1);
      StepInv(c, states[i - 1], actions[i - 1]);
    }
  }
}
