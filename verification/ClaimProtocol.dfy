/** The claim / transaction / recovery protocol of one ring, as a state machine
    over its sequentially consistent steps, with a death enabled at every step.

    The three actors are the scanner (publishes slots), the workers (claim,
    execute, acknowledge) and the launcher's supervision loop (reap, recover,
    wake the drain, respawn).  Every load, store, fetch-add and pipe operation
    that another actor can observe is a step of its own. */
module ClaimProtocol {

  const RING_SIZE: nat := 0x10_0000

  type Bytes = seq<bv8>

  /** One published ring slot: the input range and its coordinates. */
  datatype Batch = Batch(offset: nat, end: nat, major: nat, minor: nat)

  datatype EscrowPacket = EscrowPacket(idx: nat, kills: nat)

  datatype TxnState = IDLE | CLAIMING | CLAIMED | COMMITTING

  datatype Txn = Txn(state: TxnState, idx: nat, kills: nat, incarnation: nat,
                     outputStart: nat, major: nat, minor: nat)

  /** An order packet: worker slot `wid` (its output file), ticket, output range.
      `data` and `stray` are history: the bytes that execution emitted, and how
      many bytes of stood-down executions were in the file by then. */
  datatype OrderPacket = OrderPacket(wid: nat, idx: nat, off: nat, len: nat, data: Bytes, stray: nat)

  /** History: ticket `idx` with kill count `kills`, published CLAIMED or run. */
  datatype Claim = Claim(idx: nat, kills: nat)

  /** Where a worker is.  The names follow the loads of do_lockfree_claim. */
  datatype Pc =
    | Between
    | Restart
    | DrainRead
    | DrainW(pkt: EscrowPacket)
    | DrainR(pkt: EscrowPacket, wSnap: nat)
    | LoadW
    | LoadR(wSnap: nat)
    | FetchAdd
    | EscrowRead(wSnap: nat, rSnap: nat)
    | CheckFinished
    | FinLoadR
    | FinLoadW(rSnap: nat)
    | FinPoll
    | EvalW(pkt: EscrowPacket)
    | EvalFinished(pkt: EscrowPacket)
    | WaitW(pkt: EscrowPacket)
    | WaitFinished(pkt: EscrowPacket)
    | WaitLastW(pkt: EscrowPacket)
    | Ready(pkt: EscrowPacket)
    | Counting(pkt: EscrowPacket)
    | Running(pkt: EscrowPacket)
    | Committing(pkt: EscrowPacket)
    | Sent
    | AtEof

  datatype Status = Alive | Dead(code: int) | Freed

  /** `outputEnd` and `lastAck` are the thread-local cursors; `emitted` is a
      history variable holding the bytes written since the claim; `armed` says
      whether a crash would leave a core file. */
  datatype Worker = Worker(status: Status, pc: Pc, drain: bool, outputEnd: nat, lastAck: nat,
                           incarnation: nat, emitted: Bytes, armed: bool)

  datatype Supervisor =
    | Waiting
    | Recovering(wid: nat, code: int)
    | Deposited(wid: nat)
    | Flagged(wid: nat)
    | Classified(wid: nat, rc: nat)
    | Respawning(wid: nat, rc: nat)
    | Aborted

  /** workers, respawn_cap, retry_limit, the resume horizon the run starts from, and
      the input bytes that go to other nodes' rings. */
  datatype Config = Config(workers: nat, respawnCap: int, retryLimit: int, resumeFrom: nat, foreign: iset<nat>)

  /** History: tickets dropped in the three ways, records published, claims that
      went on to run, output bytes that stood-down executions left behind, and
      frontiers signalled to the drain. */
  datatype State = State(
    pub: seq<Batch>, w: nat, r: nat, finished: bool,
    escrow: seq<EscrowPacket>, pending: bool,
    workers: seq<Worker>, txn: seq<Txn>, files: seq<Bytes>,
    order: seq<OrderPacket>, horizon: nat,
    rejected: seq<nat>, abandoned: seq<nat>, stoodDown: seq<nat>,
    claims: seq<Claim>, runs: seq<Claim>, poisoned: nat, stray: seq<nat>,
    signals: seq<(nat, nat)>, incarn: seq<nat>, forks: nat, sup: Supervisor)

  datatype Choice = Go | Emit(data: Bytes)

  datatype Action =
    | Flush(batch: Batch)
    | StoreWriteIdx(target: nat)
    | Finish
    | AdvanceHorizon(h: nat)
    | Work(wid: nat, choice: Choice)
    | Die(wid: nat, code: int)
    | Reap(wid: nat)
    | Supervise

  // ---------------------------------------------------------------- workers

  /** The ticket a worker has taken and not yet acknowledged. */
  function InHand(pc: Pc): seq<EscrowPacket> {
    match pc
    case DrainW(p) => [p]
    case DrainR(p, _) => [p]
    case EvalW(p) => [p]
    case EvalFinished(p) => [p]
    case WaitW(p) => [p]
    case WaitFinished(p) => [p]
    case WaitLastW(p) => [p]
    case Ready(p) => [p]
    case Counting(p) => [p]
    case Running(p) => [p]
    case Committing(p) => [p]
    case _ => []
  }

  /** escrow_idx_live: published, and its slot not recycled. */
  predicate EscrowIdxLive(idx: nat, wSnap: nat, rCurr: nat) {
    idx < wSnap && idx + RING_SIZE > rCurr
  }

  /** The last ticket written to ring slot `idx & RING_MASK` after `scan` slots
      were written; negative when that slot is still zero-filled. */
  function SlotOwner(idx: nat, scan: nat): int {
    scan - 1 - (scan - 1 - idx) % RING_SIZE
  }

  /** What ring slot `idx & RING_MASK` holds. */
  function Slot(pub: seq<Batch>, idx: nat): Batch {
    var owner := SlotOwner(idx, |pub|);
    if 0 <= owner < |pub| then pub[owner] else Batch(0, 0, 0, 0)
  }

  function PoisonThreshold(limit: int): nat {
    if limit > 0 then limit else 1
  }

  /** ring_claim_main: an escrowed batch at its limit is skipped, not executed. */
  predicate Poisoned(limit: int, kills: nat) {
    kills > 0 && limit >= 0 && kills >= limit
  }

  predicate CountsPoison(limit: int, kills: nat) {
    Poisoned(limit, kills) && kills == PoisonThreshold(limit)
  }

  /** worker_coredump_arm_if_final. */
  predicate CoredumpArmed(limit: int, kills: nat) {
    !Poisoned(limit, kills) && kills != 0 && limit >= 0 && kills + 1 >= PoisonThreshold(limit)
  }

  function SetPc(s: State, wid: nat, pc: Pc): State
    requires wid < |s.workers|
  {
    s.(workers := s.workers[wid := s.workers[wid].(pc := pc)])
  }

  function SetTxnState(s: State, wid: nat, t: TxnState): State
    requires wid < |s.txn|
  {
    s.(txn := s.txn[wid := s.txn[wid].(state := t)])
  }

  /** worker_txn_begin_claim. */
  function BeginClaim(s: State, wid: nat): State
    requires wid < |s.workers| == |s.txn|
  {
    SetTxnState(SetPc(s, wid, Restart), wid, CLAIMING)
  }

  /** dlc_restart_loop: test and exchange escrow_pending, arming the drain. */
  function Rearm(s: State, wid: nat): State
    requires wid < |s.workers|
  {
    var wk := s.workers[wid];
    s.(pending := false,
       workers := s.workers[wid := wk.(pc := DrainRead, drain := wk.drain || s.pending)])
  }

  /** The escrow pipe ran dry: back to the ring. */
  function StopDrain(s: State, wid: nat): State
    requires wid < |s.workers|
  {
    s.(workers := s.workers[wid := s.workers[wid].(pc := LoadW, drain := false)])
  }

  /** Read the oldest escrow packet and go to `pc` with it in hand. */
  function TakePacket(s: State, wid: nat, pc: Pc): State
    requires wid < |s.workers| && s.escrow != []
  {
    SetPc(s, wid, pc).(escrow := s.escrow[1..])
  }

  /** A packet refused after it was read: warned about, never executed. */
  function RejectHeld(s: State, wid: nat, idx: nat): State
    requires wid < |s.workers|
  {
    SetPc(s, wid, LoadW).(rejected := s.rejected + [idx])
  }

  /** A packet refused in the step that reads it. */
  function RejectPacket(s: State, wid: nat): State
    requires wid < |s.workers| && s.escrow != []
  {
    SetPc(s, wid, LoadW).(escrow := s.escrow[1..], rejected := s.rejected + [s.escrow[0].idx])
  }

  /** The one fetch-add of the fast path. */
  function TakeTicket(s: State, wid: nat): State
    requires wid < |s.workers|
  {
    SetPc(s, wid, EvalW(EscrowPacket(s.r, 0))).(r := s.r + 1)
  }

  /** End of input: worker_txn_abort_claim, then exit. */
  function LeaveAtEof(s: State, wid: nat): State
    requires wid < |s.workers| == |s.txn|
  {
    SetTxnState(SetPc(s, wid, AtEof), wid, IDLE)
  }

  /** An overshot ticket is dropped and the claim restarts. */
  function Abandon(s: State, wid: nat, idx: nat): State
    requires wid < |s.workers|
  {
    SetPc(s, wid, Restart).(abandoned := s.abandoned + [idx])
  }

  /** worker_txn_publish. */
  function Publish(s: State, wid: nat, pkt: EscrowPacket): State
    requires wid < |s.workers| == |s.txn|
  {
    var b := Slot(s.pub, pkt.idx);
    SetPc(s, wid, Counting(pkt)).(
      txn := s.txn[wid := Txn(CLAIMED, pkt.idx, pkt.kills, s.workers[wid].incarnation,
                              s.workers[wid].outputEnd, b.major, b.minor)],
      claims := s.claims + [Claim(pkt.idx, pkt.kills)])
  }

  /** The poison bookkeeping of ring_claim_main after the record is published, and
      the arming of a final attempt. */
  function CountPoison(c: Config, s: State, wid: nat, pkt: EscrowPacket): State
    requires wid < |s.workers|
  {
    s.(workers := s.workers[wid := s.workers[wid].(pc := Running(pkt),
                                                   armed := CoredumpArmed(c.retryLimit, pkt.kills))],
       runs := s.runs + [Claim(pkt.idx, pkt.kills)],
       poisoned := s.poisoned + if CountsPoison(c.retryLimit, pkt.kills) then 1 else 0)
  }

  /** The running batch appends to its worker's output file. */
  function EmitBytes(s: State, wid: nat, data: Bytes): State
    requires wid < |s.workers| == |s.files|
  {
    var wk := s.workers[wid];
    s.(files := s.files[wid := s.files[wid] + data],
       workers := s.workers[wid := wk.(emitted := wk.emitted + data)])
  }

  /** worker_coredump_disarm and worker_txn_begin_commit. */
  function BeginCommit(s: State, wid: nat, pkt: EscrowPacket): State
    requires wid < |s.workers| == |s.txn|
  {
    s.(workers := s.workers[wid := s.workers[wid].(pc := Committing(pkt), armed := false)],
       txn := s.txn[wid := s.txn[wid].(state := COMMITTING)])
  }

  /** The order packet of ring_ack_main: everything since the last ack. */
  function SendPacket(s: State, wid: nat, pkt: EscrowPacket): State
    requires wid < |s.workers| == |s.files| == |s.stray|
  {
    var wk := s.workers[wid];
    var curr := |s.files[wid]|;
    var len := if curr < wk.lastAck then 0 else curr - wk.lastAck;
    s.(order := s.order + [OrderPacket(wid, pkt.idx, wk.lastAck, len, wk.emitted, s.stray[wid])],
       workers := s.workers[wid := wk.(pc := Sent, lastAck := curr, outputEnd := curr, emitted := [])])
  }

  /** worker_txn_clear. */
  function ClearTxn(s: State, wid: nat): State
    requires wid < |s.workers| == |s.txn|
  {
    SetTxnState(SetPc(s, wid, Between), wid, IDLE)
  }

  function SetStatus(s: State, wid: nat, status: Status): State
    requires wid < |s.workers|
  {
    s.(workers := s.workers[wid := s.workers[wid].(status := status)])
  }

  /** Where a step that changes nothing but the worker's own pc leads. */
  function NextPc(s: State, pc: Pc): Pc {
    match pc
    case DrainRead => LoadW
    case DrainW(p) => DrainR(p, s.w)
    case DrainR(p, _) => EvalW(p)
    case LoadW => LoadR(s.w)
    case LoadR(wSnap) => if s.r < wSnap then FetchAdd else EscrowRead(wSnap, s.r)
    case EscrowRead(_, _) => CheckFinished
    case CheckFinished => if s.finished then FinLoadR else LoadW
    case FinLoadR => FinLoadW(s.r)
    case FinLoadW(rSnap) => if rSnap < s.w then LoadW else FinPoll
    case FinPoll => LoadW
    case EvalW(p) => if p.idx < s.w then Ready(p) else EvalFinished(p)
    case EvalFinished(p) => WaitW(p)
    case WaitW(p) => if p.idx < s.w then Ready(p) else WaitFinished(p)
    case WaitFinished(p) => if s.finished then WaitLastW(p) else WaitW(p)
    case WaitLastW(p) => Ready(p)
    case _ => pc
  }

  predicate Shaped(c: Config, s: State) {
    && |s.workers| == |s.txn| == |s.files| == |s.incarn| == |s.stray| == c.workers
  }

  /** A worker can always move, except that emitting needs a running batch and
      an execution the poison rule skips emits nothing. */
  predicate CanWork(c: Config, s: State, wid: nat, choice: Choice) {
    && Shaped(c, s)
    && wid < c.workers
    && s.workers[wid].status == Alive
    && (choice.Emit? ==> s.workers[wid].pc.Running? && !Poisoned(c.retryLimit, s.workers[wid].pc.pkt.kills))
  }

  /** One step of worker `wid`, following do_lockfree_claim (drain escrow, then
      ring, then escrow, then the three end-of-input conditions in order),
      dlc_evaluate_claim, ring_claim_main and ring_ack_main. */
  function DoWork(c: Config, s: State, wid: nat, choice: Choice): State
    requires CanWork(c, s, wid, choice)
  {
    var wk := s.workers[wid];
    match wk.pc
    case Between => BeginClaim(s, wid)
    case Restart => Rearm(s, wid)
    case DrainRead =>
      if wk.drain && s.escrow == [] then StopDrain(s, wid)
      else if wk.drain then TakePacket(s, wid, DrainW(s.escrow[0]))
      else SetPc(s, wid, NextPc(s, wk.pc))
    case DrainR(p, wSnap) =>
      if EscrowIdxLive(p.idx, wSnap, s.r) then SetPc(s, wid, NextPc(s, wk.pc)) else RejectHeld(s, wid, p.idx)
    case FetchAdd => TakeTicket(s, wid)
    case EscrowRead(wSnap, rSnap) =>
      if s.escrow == [] then SetPc(s, wid, NextPc(s, wk.pc))
      else if EscrowIdxLive(s.escrow[0].idx, wSnap, rSnap) then TakePacket(s, wid, EvalW(s.escrow[0]))
      else RejectPacket(s, wid)
    case FinPoll => if s.escrow == [] then LeaveAtEof(s, wid) else SetPc(s, wid, NextPc(s, wk.pc))
    case EvalFinished(p) => if s.finished then Abandon(s, wid, p.idx) else SetPc(s, wid, NextPc(s, wk.pc))
    case WaitLastW(p) => if p.idx < s.w then SetPc(s, wid, NextPc(s, wk.pc)) else Abandon(s, wid, p.idx)
    case Ready(p) => Publish(s, wid, p)
    case Counting(p) => CountPoison(c, s, wid, p)
    case Running(p) => if choice.Emit? then EmitBytes(s, wid, choice.data) else BeginCommit(s, wid, p)
    case Committing(p) => SendPacket(s, wid, p)
    case Sent => ClearTxn(s, wid)
    case AtEof => SetStatus(s, wid, Dead(0))
    case _ => SetPc(s, wid, NextPc(s, wk.pc))
  }

  // ------------------------------------------------------------- supervisor

  datatype Verdict = Orphan | Verdict(rc: nat, clears: bool)

  /** ring_recover_worker_core: the classification, before any side effect. */
  function Classify(s: State, t: Txn, incarnation: nat, code: int): Verdict {
    if t.state == IDLE then
      if code == 0 then Verdict(2, false)
      else if s.finished && s.r >= s.w && !s.pending then Verdict(2, false)
      else Verdict(1, false)
    else if t.state == CLAIMING || t.state == COMMITTING then Verdict(4, false)
    else if t.incarnation != incarnation then Verdict(if code == 0 then 2 else 1, true)
    else
      var b := Slot(s.pub, t.idx);
      if b.major != t.major || b.minor != t.minor then Verdict(3, true)
      else if 0 < b.end <= s.horizon then Verdict(3, true)
      else if code == 0 then Verdict(5, false)
      else Orphan
  }

  predicate CanSupervise(c: Config, s: State) {
    && Shaped(c, s)
    && (s.sup.Recovering? || s.sup.Deposited? || s.sup.Flagged? || s.sup.Classified? || s.sup.Respawning?)
    && s.sup.wid < c.workers
  }

  /** Clear the record without re-executing the batch it names; what that
      execution emitted stays in the file. */
  function StandDown(s: State, wid: nat, rc: nat): State
    requires wid < |s.workers| == |s.txn| == |s.stray|
  {
    var held := InHand(s.workers[wid].pc);
    s.(workers := s.workers[wid := s.workers[wid].(pc := Between, emitted := [], armed := false)],
       txn := s.txn[wid := s.txn[wid].(state := IDLE)],
       stoodDown := s.stoodDown + (if held == [] then [] else [held[0].idx]),
       stray := s.stray[wid := s.stray[wid] + |s.workers[wid].emitted|],
       sup := Classified(wid, rc))
  }

  /** Roll the dead worker's file back and hand its batch to escrow. */
  function Deposit(s: State, wid: nat): State
    requires wid < |s.workers| && |s.txn| == |s.files| == |s.workers|
  {
    var t := s.txn[wid];
    s.(
      workers := s.workers[wid := s.workers[wid].(pc := Between, emitted := [], armed := false)],
      files := s.files[wid := if |s.files[wid]| >= t.outputStart then s.files[wid][..t.outputStart] else s.files[wid]],
      escrow := s.escrow + [EscrowPacket(t.idx, t.kills + 1)],
      sup := Deposited(wid))
  }

  function Spawn(s: State, wid: nat): State
    requires wid < |s.workers| && |s.incarn| == |s.files| == |s.workers|
  {
    var size := |s.files[wid]|;
    var g := s.incarn[wid] + 1;
    s.(incarn := s.incarn[wid := g],
       forks := s.forks + 1,
       workers := s.workers[wid := Worker(Alive, Between, false, size, size, g, [], false)],
       sup := Waiting)
  }

  /** The step that acts on the classification. */
  function Recover(s: State, wid: nat, code: int): State
    requires wid < |s.workers| == |s.txn| == |s.files| == |s.incarn| == |s.stray|
  {
    match Classify(s, s.txn[wid], s.incarn[wid], code)
    case Orphan => Deposit(s, wid)
    case Verdict(rc, clears) =>
      if rc == 4 || rc == 5 then s.(sup := Aborted)
      else if clears then StandDown(s, wid, rc)
      else s.(sup := Classified(wid, rc))
  }

  /** fr_wake_drain_committed, for the outcomes that leave only committed bytes. */
  function Wake(s: State, wid: nat, rc: nat): State
    requires wid < |s.files|
  {
    s.(sup := Respawning(wid, rc),
       signals := s.signals + if rc <= 2 then [(wid, |s.files[wid]|)] else [])
  }

  /** One step of the supervision loop after a reap. */
  function DoSupervise(c: Config, s: State): State
    requires CanSupervise(c, s)
  {
    match s.sup
    case Recovering(wid, code) => Recover(s, wid, code)
    case Deposited(wid) => s.(pending := true, sup := Flagged(wid))
    case Flagged(wid) => SetTxnState(s, wid, IDLE).(sup := Classified(wid, 0))
    case Classified(wid, rc) => Wake(s, wid, rc)
    case Respawning(wid, rc) =>
      if rc == 2 then SetStatus(s, wid, Freed).(sup := Waiting)
      else if c.respawnCap >= 0 && s.incarn[wid] >= c.respawnCap then s.(sup := Aborted)
      else Spawn(s, wid)
    case _ => s
  }

  // -------------------------------------------------------------- the system

  predicate Overlaps(a: Batch, b: Batch) {
    a.offset < b.end && b.offset < a.end
  }

  /** No byte of the batch is foreign. */
  ghost predicate Apart(foreign: iset<nat>, b: Batch) {
    forall x: nat :: b.offset <= x < b.end ==> x !in foreign
  }

  /** The acknowledged batches cover input byte `b`. */
  ghost predicate Covered(pub: seq<Batch>, order: seq<OrderPacket>, b: nat) {
    exists k :: 0 <= k < |order| && order[k].idx < |pub| && pub[order[k].idx].offset <= b < pub[order[k].idx].end
  }

  /** `scan` slots do not yet reuse the slot of a ticket that is untaken, in
      hand or in escrow. */
  ghost predicate WithinWindow(s: State, scan: nat) {
    && scan <= s.r + RING_SIZE
    && (forall k :: 0 <= k < |s.escrow| ==> scan <= s.escrow[k].idx + RING_SIZE)
    && (forall v :: 0 <= v < |s.workers| && InHand(s.workers[v].pc) != [] ==>
          scan <= InHand(s.workers[v].pc)[0].idx + RING_SIZE)
  }

  /** What each actor may do.  The scanner publishes disjoint ranges above the
      resume horizon and never reuses the slot of an unacknowledged ticket; the
      orderer's horizon, one for all nodes, never passes a byte of this ring that was
      not acknowledged. */
  ghost predicate Enabled(c: Config, s: State, a: Action) {
    && Shaped(c, s)
    && match a
       case Flush(b) =>
         && !s.finished
         && b.offset <= b.end
         && c.resumeFrom <= b.offset && Apart(c.foreign, b)
         && (forall i :: 0 <= i < |s.pub| ==> !Overlaps(s.pub[i], b))
         && WithinWindow(s, |s.pub| + 1)
       case StoreWriteIdx(target) => s.w <= target <= |s.pub|
       case Finish => s.w == |s.pub|
       case AdvanceHorizon(h) =>
         s.horizon <= h && forall b: nat :: s.horizon <= b < h ==> b in c.foreign || Covered(s.pub, s.order, b)
       case Work(wid, choice) => CanWork(c, s, wid, choice)
       case Die(wid, code) => wid < c.workers && s.workers[wid].status == Alive
       case Reap(wid) => wid < c.workers && s.workers[wid].status.Dead? && s.sup == Waiting
       case Supervise => CanSupervise(c, s)
  }

  ghost function Do(c: Config, s: State, a: Action): State
    requires Enabled(c, s, a)
  {
    match a
    case Flush(b) => s.(pub := s.pub + [b])
    case StoreWriteIdx(target) => s.(w := target)
    case Finish => s.(finished := true)
    case AdvanceHorizon(h) => s.(horizon := h)
    case Work(wid, choice) => DoWork(c, s, wid, choice)
    case Die(wid, code) => SetStatus(s, wid, Dead(code))
    case Reap(wid) => s.(sup := Recovering(wid, s.workers[wid].status.code))
    case Supervise => DoSupervise(c, s)
  }

  ghost predicate Init(c: Config, s: State) {
    && Shaped(c, s)
    && s.pub == [] && s.w == 0 && s.r == 0 && !s.finished
    && s.escrow == [] && !s.pending && s.order == [] && s.horizon == c.resumeFrom
    && s.rejected == [] && s.abandoned == [] && s.stoodDown == []
    && s.claims == [] && s.runs == [] && s.poisoned == 0 && s.signals == []
    && s.forks == c.workers && s.sup == Waiting
    && forall v :: 0 <= v < c.workers ==>
         && s.files[v] == [] && s.incarn[v] == 0 && s.stray[v] == 0
         && s.workers[v] == Worker(Alive, Between, false, 0, 0, 0, [], false)
         && s.txn[v].state == IDLE
  }

  /** A run: states linked by enabled steps. */
  ghost predicate Run(c: Config, states: seq<State>, actions: seq<Action>) {
    && |states| == |actions| + 1
    && Init(c, states[0])
    && forall i :: 0 <= i < |actions| ==>
         Enabled(c, states[i], actions[i]) && states[i + 1] == Do(c, states[i], actions[i])
  }
}
