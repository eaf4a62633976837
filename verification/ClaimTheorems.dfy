/** What the claim protocol guarantees over whole runs, with deaths anywhere. */
module ClaimTheorems {
  import opened ClaimProtocol
  import opened ClaimConservation
  import opened ClaimInvariant

  // ------------------------------------------------------------ exactly once

  ghost function One(b: bool): nat { if b then 1 else 0 }

  /** Rejected as stale, abandoned as overshot, or stood down by recovery. */
  ghost predicate Dropped(s: State, i: nat) {
    i in s.rejected || i in s.abandoned || i in s.stoodDown
  }

  ghost predicate LostBatch(s: State, i: nat) {
    i < |s.pub| && Dropped(s, i)
  }

  ghost predicate Holds(s: State, v: nat, i: nat) {
    v < |s.workers| && InHand(s.workers[v].pc) != [] && InHand(s.workers[v].pc)[0].idx == i
  }

  lemma {:induction false} CountIn(q: seq<nat>, i: nat)
    ensures Count(q, i) > 0 <==> i in q
  {
    if q != [] {
      CountIn(q[..|q| - 1], i);
      assert q == q[..|q| - 1] + [q[|q| - 1]];
    }
  }

  lemma {:induction false} HeldNobody(ws: seq<Worker>, i: nat)
    requires forall v :: 0 <= v < |ws| ==> HandCount(ws[v].pc, i) == 0
    ensures HeldCount(ws, i) == 0
  {
    if ws != [] { HeldNobody(ws[..|ws| - 1], i); }
  }

  lemma {:induction false} EscrowNowhere(q: seq<EscrowPacket>, i: nat)
    requires forall k :: 0 <= k < |q| ==> q[k].idx != i
    ensures EscrowCount(q, i) == 0
  {
    if q != [] { EscrowNowhere(q[..|q| - 1], i); }
  }

  lemma {:induction false} AckNowhere(q: seq<OrderPacket>, i: nat)
    requires forall k :: 0 <= k < |q| ==> q[k].idx != i
    ensures AckCount(q, i) == 0
  {
    if q != [] { AckNowhere(q[..|q| - 1], i); }
  }

  /** The five homes of a ticket, each seen through the state itself. */
  lemma HomesMeaning(s: State, i: nat)
    requires ConservedAt(s, i)
    ensures HeldCount(s.workers, i) == One(exists v :: Holds(s, v, i))
    ensures EscrowCount(s.escrow, i) == One(exists k :: 0 <= k < |s.escrow| && s.escrow[k].idx == i)
    ensures AckCount(s.order, i) == One(exists k :: 0 <= k < |s.order| && s.order[k].idx == i)
    ensures Count(s.rejected, i) + Count(s.abandoned, i) + Count(s.stoodDown, i) == One(Dropped(s, i))
  {
    hide HeldCount, EscrowCount, AckCount, Count;
    CountIn(s.rejected, i);
    CountIn(s.abandoned, i);
    CountIn(s.stoodDown, i);
    if v :| Holds(s, v, i) { HeldHas(s.workers, v, i); } else {
      forall v | 0 <= v < |s.workers| ensures HandCount(s.workers[v].pc, i) == 0 { assert !Holds(s, v, i); }
      HeldNobody(s.workers, i);
    }
    if k :| 0 <= k < |s.escrow| && s.escrow[k].idx == i { EscrowHas(s.escrow, k); } else { EscrowNowhere(s.escrow, i); }
    if k :| 0 <= k < |s.order| && s.order[k].idx == i { AckHas(s.order, k); } else { AckNowhere(s.order, i); }
  }

  /** In every reachable state every ticket is in exactly one of: not yet taken,
      in one worker's hand, in escrow, committed, dropped. */
  lemma ExactlyOnce(c: Config, states: seq<State>, actions: seq<Action>, n: nat, i: nat)
    requires Run(c, states, actions) && n < |states|
    ensures var s := states[n];
      One(s.r <= i)
      + One(exists v :: Holds(s, v, i))
      + One(exists k :: 0 <= k < |s.escrow| && s.escrow[k].idx == i)
      + One(exists k :: 0 <= k < |s.order| && s.order[k].idx == i)
      + One(Dropped(s, i)) == 1
  {
    hide Run;
    RunInv(c, states, actions, n);
    assert ConservedAt(states[n], i);
    HomesMeaning(states[n], i);
  }

  /** No two workers hold one ticket, and no ticket commits twice. */
  lemma CommitsAtMostOnce(c: Config, states: seq<State>, actions: seq<Action>, n: nat)
    requires Run(c, states, actions) && n < |states|
    ensures var s := states[n];
      && (forall u, v, i :: Holds(s, u, i) && Holds(s, v, i) ==> u == v)
      && (forall j, k :: 0 <= j < k < |s.order| ==> s.order[j].idx != s.order[k].idx)
  {
    hide Run, HeldCount, EscrowCount, AckCount, Count;
    RunInv(c, states, actions, n);
    var s := states[n];
    forall u, v, i | Holds(s, u, i) && Holds(s, v, i) ensures u == v { OnlyPlace(s, u); }
    forall j, k | 0 <= j < k < |s.order| ensures s.order[j].idx != s.order[k].idx {
      assert ConservedAt(s, s.order[k].idx);
      if s.order[j].idx == s.order[k].idx { AckTwice(s.order, j, k); }
    }
  }

  // --------------------------------------------------------------- the losses

  /** The steps that lose a published batch: the ring-side escrow read whose
      write-index snapshot is older than the packet; either escrow read once a
      whole ring of tickets has been taken since the packet's, when its slot counts
      as recycled although nothing has been written there; the overshoot test whose
      two loads straddle the last publish; and the recovery of an empty batch below
      the committed horizon. */
  ghost predicate LossStep(c: Config, s: State, a: Action)
    requires Enabled(c, s, a)
  {
    match a
    case Work(wid, _) =>
      (match s.workers[wid].pc
       case EscrowRead(wSnap, rSnap) =>
         s.escrow != [] && (s.escrow[0].idx >= wSnap || s.escrow[0].idx + RING_SIZE <= rSnap)
       case DrainR(p, _) => p.idx + RING_SIZE <= s.r
       case EvalFinished(p) => s.finished && p.idx < s.w
       case _ => false)
    case Supervise =>
      && s.sup.Recovering?
      && var t := s.txn[s.sup.wid];
         t.state == CLAIMED && t.idx < |s.pub|
         && s.pub[t.idx].offset == s.pub[t.idx].end && 0 < s.pub[t.idx].end <= s.horizon
    case _ => false
  }

  lemma NotDropped(s: State, i: nat)
    requires Conserved(s)
    requires (exists v :: Holds(s, v, i)) || (exists k :: 0 <= k < |s.escrow| && s.escrow[k].idx == i)
    ensures !Dropped(s, i)
  {
    hide HeldCount, EscrowCount, AckCount, Count;
    assert ConservedAt(s, i);
    HomesMeaning(s, i);
  }

  /** Under the invariant a record recovery looks at is never stale, its slot is
      never recycled, and it is "already done" exactly when its batch is empty
      and below the horizon. */
  lemma ClassifyExact(c: Config, s: State, wid: nat, code: int)
    requires Inv(c, s) && s.sup == Recovering(wid, code) && s.txn[wid].state == CLAIMED
    ensures s.txn[wid].incarnation == s.incarn[wid]
    ensures InClaim(s.workers[wid].pc) && s.txn[wid].idx < |s.pub|
    ensures s.workers[wid].pc.pkt == EscrowPacket(s.txn[wid].idx, s.txn[wid].kills)
    ensures var b := s.pub[s.txn[wid].idx];
      Classify(s, s.txn[wid], s.incarn[wid], code)
      == if b.offset == b.end && 0 < b.end <= s.horizon then Verdict(3, true)
         else if code == 0 then Verdict(5, false)
         else Orphan
  {
    hide Conserved, Launches, History, Retries, Outputs, Packets, Delivered, Ledger, Slot;
    assert RecordOk(s.pub, s.workers[wid], s.txn[wid], s.incarn[wid], false);
    var i := s.txn[wid].idx;
    assert WithinWindow(s, |s.pub|);
    SlotExact(s.pub, i);
    OnlyPlace(s, wid);
    if s.pub[i].offset < s.pub[i].end <= s.horizon { BelowHorizonAcked(c, s, i); }
    assert s.pub[i].offset <= s.pub[i].end by { OrderedBatch(c, s, i); }
  }

  lemma OrderedBatch(c: Config, s: State, i: nat)
    requires Ledger(c, s.pub, s.order, s.horizon) && i < |s.pub|
    ensures s.pub[i].offset <= s.pub[i].end
  {
  }

  lemma SameBatch(pub: seq<Batch>, i: nat, j: nat, b: nat)
    requires i < |pub| && j < |pub|
    requires forall x, y :: 0 <= x < y < |pub| ==> !Overlaps(pub[x], pub[y])
    requires pub[i].offset <= b < pub[i].end && pub[j].offset <= b < pub[j].end
    ensures i == j
  {
  }

  /** A non-empty batch that ends at or below the horizon is acknowledged. */
  lemma BelowHorizonAcked(c: Config, s: State, i: nat)
    requires Ledger(c, s.pub, s.order, s.horizon) && i < |s.pub|
    requires s.pub[i].offset < s.pub[i].end <= s.horizon
    ensures exists k :: 0 <= k < |s.order| && s.order[k].idx == i
  {
    var b := s.pub[i].end - 1;
    assert Apart(c.foreign, s.pub[i]);
    assert Covered(s.pub, s.order, b);
    var k :| 0 <= k < |s.order| && s.order[k].idx < |s.pub|
             && s.pub[s.order[k].idx].offset <= b < s.pub[s.order[k].idx].end;
    SameBatch(s.pub, i, s.order[k].idx, b);
  }

  // ------------------------------------------------------ losses, step by step

  /** The ticket a worker step rejects, and the one it abandons. */
  ghost function RejectedBy(s: State, pc: Pc): seq<nat> {
    match pc
    case EscrowRead(wSnap, rSnap) =>
      if s.escrow != [] && !EscrowIdxLive(s.escrow[0].idx, wSnap, rSnap) then [s.escrow[0].idx] else []
    case DrainR(p, wSnap) => if EscrowIdxLive(p.idx, wSnap, s.r) then [] else [p.idx]
    case _ => []
  }

  ghost function AbandonedBy(s: State, pc: Pc): seq<nat> {
    match pc
    case EvalFinished(p) => if s.finished then [p.idx] else []
    case WaitLastW(p) => if p.idx < s.w then [] else [p.idx]
    case _ => []
  }

  predicate Executing(pc: Pc) {
    pc.Ready? || pc.Counting? || pc.Running? || pc.Committing? || pc.Sent? || pc.AtEof?
  }

  lemma ExecutionKeeps(c: Config, s: State, wid: nat, choice: Choice)
    requires CanWork(c, s, wid, choice) && Executing(s.workers[wid].pc)
    ensures var s' := DoWork(c, s, wid, choice);
      s'.pub == s.pub && s'.stoodDown == s.stoodDown && s'.w == s.w && s'.r == s.r
  {
    hide EscrowIdxLive, NextPc, CountsPoison, CoredumpArmed, Slot;
    match s.workers[wid].pc {
      case Ready(_) =>
      case Counting(_) =>
      case Running(_) =>
      case Committing(_) =>
      case Sent =>
      case AtEof =>
    }
  }

  /** A worker step publishes nothing, stands nothing down, and takes a ticket in
      its fetch-add only. */
  lemma WorkKeeps(c: Config, s: State, wid: nat, choice: Choice)
    requires CanWork(c, s, wid, choice)
    ensures var s' := DoWork(c, s, wid, choice);
      && s'.pub == s.pub && s'.stoodDown == s.stoodDown && s'.w == s.w
      && s'.r == s.r + One(s.workers[wid].pc.FetchAdd?)
  {
    hide EscrowIdxLive, NextPc, CountsPoison, CoredumpArmed, Slot;
    if Executing(s.workers[wid].pc) {
      ExecutionKeeps(c, s, wid, choice);
    } else {
      match s.workers[wid].pc {
        case Between =>
        case Restart =>
        case DrainRead =>
        case DrainR(_, _) =>
        case FetchAdd =>
        case EscrowRead(_, _) =>
        case FinPoll =>
        case _ =>
      }
    }
  }

  lemma WorkRejects(c: Config, s: State, wid: nat, choice: Choice)
    requires CanWork(c, s, wid, choice)
    ensures DoWork(c, s, wid, choice).rejected == s.rejected + RejectedBy(s, s.workers[wid].pc)
  {
    hide EscrowIdxLive, NextPc, CountsPoison, CoredumpArmed, Slot;
    assert s.rejected + [] == s.rejected;
  }

  lemma WorkAbandons(c: Config, s: State, wid: nat, choice: Choice)
    requires CanWork(c, s, wid, choice)
    ensures DoWork(c, s, wid, choice).abandoned == s.abandoned + AbandonedBy(s, s.workers[wid].pc)
  {
    hide EscrowIdxLive, NextPc, CountsPoison, CoredumpArmed, Slot;
    assert s.abandoned + [] == s.abandoned;
  }

  lemma WorkDrops(c: Config, s: State, wid: nat, choice: Choice)
    requires CanWork(c, s, wid, choice)
    ensures var s' := DoWork(c, s, wid, choice);
      && s'.pub == s.pub && s'.stoodDown == s.stoodDown && s'.w == s.w
      && s'.rejected == s.rejected + RejectedBy(s, s.workers[wid].pc)
      && s'.abandoned == s.abandoned + AbandonedBy(s, s.workers[wid].pc)
  {
    hide DoWork, RejectedBy, AbandonedBy;
    WorkKeeps(c, s, wid, choice);
    WorkRejects(c, s, wid, choice);
    WorkAbandons(c, s, wid, choice);
  }

  lemma WorkLoses(c: Config, s: State, wid: nat, choice: Choice, i: nat)
    requires Inv(c, s) && CanWork(c, s, wid, choice)
    ensures LostBatch(DoWork(c, s, wid, choice), i) && !LostBatch(s, i) ==> LossStep(c, s, Work(wid, choice))
  {
    hide Conserved, Launches, History, Retries, Outputs, Packets, Delivered, Ledger, Records, DoWork;
    BoundOf(c, s, wid);
    WorkDrops(c, s, wid, choice);
  }

  /** The ticket a loss step loses. */
  ghost function LossTicket(c: Config, s: State, a: Action): nat
    requires Enabled(c, s, a) && LossStep(c, s, a)
  {
    if a.Supervise? then s.txn[s.sup.wid].idx
    else if s.workers[a.wid].pc.EscrowRead? then s.escrow[0].idx
    else s.workers[a.wid].pc.pkt.idx
  }

  lemma WorkLosesOne(c: Config, s: State, wid: nat, choice: Choice)
    requires Inv(c, s) && CanWork(c, s, wid, choice) && LossStep(c, s, Work(wid, choice))
    ensures var i := LossTicket(c, s, Work(wid, choice));
      LostBatch(DoWork(c, s, wid, choice), i) && !LostBatch(s, i)
  {
    hide Conserved, Launches, History, Retries, Outputs, Packets, Delivered, Ledger, Records, DoWork;
    BoundOf(c, s, wid);
    WorkDrops(c, s, wid, choice);
    var i := LossTicket(c, s, Work(wid, choice));
    assert s.workers[wid].pc.EscrowRead? ==> s.escrow[0].idx == i;
    assert !s.workers[wid].pc.EscrowRead? ==> Holds(s, wid, i);
    NotDropped(s, i);
  }

  lemma SuperviseLoses(c: Config, s: State, i: nat)
    requires Inv(c, s) && CanSupervise(c, s) && Enabled(c, s, Supervise)
    ensures LostBatch(DoSupervise(c, s), i) && !LostBatch(s, i) ==> LossStep(c, s, Supervise)
    ensures LossStep(c, s, Supervise) ==>
      LostBatch(DoSupervise(c, s), LossTicket(c, s, Supervise)) && !LostBatch(s, LossTicket(c, s, Supervise))
  {
    hide Conserved, Launches, History, Retries, Outputs, Packets, Delivered, Ledger, Slot, Classify;
    if s.sup.Recovering? {
      var wid := s.sup.wid;
      assert RecordOk(s.pub, s.workers[wid], s.txn[wid], s.incarn[wid], false);
      if s.txn[wid].state == CLAIMED {
        ClassifyExact(c, s, wid, s.sup.code);
        assert Holds(s, wid, s.txn[wid].idx);
        NotDropped(s, s.txn[wid].idx);
      } else {
        NotClears(s, s.txn[wid], s.incarn[wid], s.sup.code);
      }
    }
  }

  lemma NotClears(s: State, t: Txn, incarnation: nat, code: int)
    requires t.state != CLAIMED
    ensures Classify(s, t, incarnation, code).Verdict? && !Classify(s, t, incarnation, code).clears
  {
  }

  /** A step loses a batch exactly when it is one of the loss steps. */
  lemma LossExactly(c: Config, s: State, a: Action)
    requires Inv(c, s) && Enabled(c, s, a)
    ensures (exists i :: LostBatch(Do(c, s, a), i) && !LostBatch(s, i)) <==> LossStep(c, s, a)
  {
    hide Inv, DoWork, DoSupervise, LossStep, WithinWindow;
    var s' := Do(c, s, a);
    forall i | LostBatch(s', i) && !LostBatch(s, i) ensures LossStep(c, s, a) {
      match a
      case Work(wid, choice) => WorkLoses(c, s, wid, choice, i);
      case Supervise => SuperviseLoses(c, s, i);
      case _ => QuietLoses(c, s, a, i);
    }
    if LossStep(c, s, a) {
      match a
      case Work(wid, choice) => WorkLosesOne(c, s, wid, choice);
      case Supervise => SuperviseLoses(c, s, 0);
      case _ => QuietLoses(c, s, a, 0);
    }
  }

  /** The scanner, the orderer, a death and a reap lose nothing. */
  lemma QuietLoses(c: Config, s: State, a: Action, i: nat)
    requires Inv(c, s) && Enabled(c, s, a) && !a.Work? && !a.Supervise?
    ensures LostBatch(Do(c, s, a), i) ==> LostBatch(s, i)
    ensures !LossStep(c, s, a)
  {
    hide Conserved, Launches, History, Retries, Outputs, Packets, Delivered, Ledger, Records, PcBound, Overlaps;
    assert Bounds(s);
  }

  /** A run without loss steps loses no batch. */
  lemma {:induction false} NoLossRun(c: Config, states: seq<State>, actions: seq<Action>, n: nat, i: nat)
    requires Run(c, states, actions) && n < |states|
    requires forall k :: 0 <= k < |actions| ==> Enabled(c, states[k], actions[k]) && !LossStep(c, states[k], actions[k])
    ensures !LostBatch(states[n], i)
  {
    hide Inv, Enabled, Do, LossStep;
    if n > 0 {
      NoLossRun(c, states, actions, n - 1, i);
      RunInv(c, states, actions, n - 1);
      LossExactly(c, states[n - 1], actions[n - 1]);
    }
  }

  // ------------------------------------------------------------- end of input

  /** When a worker is about to return end-of-input and no other worker holds a
      ticket, every published batch is committed or was lost by a loss step. */
  lemma CompleteAtEof(c: Config, states: seq<State>, actions: seq<Action>, n: nat, wid: nat)
    requires Run(c, states, actions) && n < |states|
    requires wid < c.workers && |states[n].workers| == c.workers
    requires states[n].workers[wid].pc == FinPoll && states[n].escrow == []
    requires forall v :: 0 <= v < c.workers && v != wid ==> InHand(states[n].workers[v].pc) == []
    ensures states[n].finished && states[n].w <= states[n].r
    ensures forall i :: 0 <= i < |states[n].pub| && !LostBatch(states[n], i) ==>
              exists k :: 0 <= k < |states[n].order| && states[n].order[k].idx == i
  {
    hide Run;
    RunInv(c, states, actions, n);
    var s := states[n];
    BoundOf(c, s, wid);
    forall i | 0 <= i < |s.pub| && !LostBatch(s, i)
      ensures exists k :: 0 <= k < |s.order| && s.order[k].idx == i
    {
      EveryoneElse(c, s, i);
    }
  }

  lemma EveryoneElse(c: Config, s: State, i: nat)
    requires Inv(c, s) && i < s.r && !Dropped(s, i)
    requires s.escrow == [] && forall v :: 0 <= v < |s.workers| ==> InHand(s.workers[v].pc) == []
    ensures exists k :: 0 <= k < |s.order| && s.order[k].idx == i
  {
    hide Bounds, Launches, History, Retries, Outputs, Packets, Delivered, Ledger, Records, HeldCount, EscrowCount,
      AckCount, Count;
    assert ConservedAt(s, i);
    HomesMeaning(s, i);
  }

  lemma FreedHoldNothing(c: Config, s: State)
    requires Inv(c, s) && AllFreed(s)
    ensures forall v :: 0 <= v < |s.workers| ==> InHand(s.workers[v].pc) == []
  {
    hide Conserved, Launches, History, Retries, Outputs, Packets, Delivered, Ledger;
    forall v | 0 <= v < |s.workers| ensures InHand(s.workers[v].pc) == [] {
      assert RecordOk(s.pub, s.workers[v], s.txn[v], s.incarn[v], HandingOver(s.sup, v));
    }
  }

  /** When the supervision loop has freed every slot, what is missing is exactly
      what is still untaken, still in the escrow pipe, or lost. */
  lemma MissingWhenAllFreed(c: Config, states: seq<State>, actions: seq<Action>, n: nat, i: nat)
    requires Run(c, states, actions) && n < |states| && i < |states[n].pub|
    requires forall v :: 0 <= v < |states[n].workers| ==> states[n].workers[v].status == Freed
    ensures (exists k :: 0 <= k < |states[n].order| && states[n].order[k].idx == i) <==>
              && i < states[n].r
              && !(exists k :: 0 <= k < |states[n].escrow| && states[n].escrow[k].idx == i)
              && !LostBatch(states[n], i)
  {
    hide Run, HeldCount, EscrowCount, AckCount, Count;
    RunInv(c, states, actions, n);
    var s := states[n];
    assert ConservedAt(s, i);
    HomesMeaning(s, i);
    FreedHoldNothing(c, s);
    hide Inv;
  }

  // ------------------------------------------------------- stranded packets

  ghost predicate OthersFreed(s: State, wid: nat) {
    wid < |s.workers| && forall v :: 0 <= v < |s.workers| && v != wid ==> s.workers[v].status == Freed
  }

  ghost predicate AllFreed(s: State) {
    forall v :: 0 <= v < |s.workers| ==> s.workers[v].status == Freed
  }

  /** Supervision is about to take the last slot's death for a normal exit: its
      worker was between batches, and it exited with 0, or at the end of the input
      with the pending flag clear. */
  ghost predicate LastLeaves(s: State) {
    && s.sup.Recovering? && OthersFreed(s, s.sup.wid) && s.sup.wid < |s.txn| && s.txn[s.sup.wid].state == IDLE
    && (s.sup.code == 0 || (s.finished && s.r >= s.w && !s.pending))
  }

  /** That, while the escrow pipe still holds a packet. */
  ghost predicate Strands(s: State) {
    LastLeaves(s) && s.escrow != []
  }

  /** Every slot is freed, or the last is about to be. */
  ghost predicate Over(s: State) {
    AllFreed(s) || ((s.sup.Classified? || s.sup.Respawning?) && s.sup.rc == 2 && OthersFreed(s, s.sup.wid))
  }

  lemma OverStays(c: Config, s: State, a: Action)
    requires Inv(c, s) && Over(s) && Enabled(c, s, a)
    ensures Over(Do(c, s, a)) && Do(c, s, a).escrow == s.escrow
  {
    SupervisorFits(c, s);
    hide Inv;
    NobodyLives(s);
    if a.Supervise? { OverSupervised(c, s); } else { OverQuiet(c, s, a); }
  }

  lemma SupervisorFits(c: Config, s: State)
    requires Inv(c, s)
    ensures SupervisorOk(s.workers, s.sup)
  {
    hide Conserved, Bounds, Ledger, Launches, History, Retries, Outputs, Packets, Delivered, RecordOk, SupervisorOk;
  }

  lemma NobodyLives(s: State)
    requires Over(s) && SupervisorOk(s.workers, s.sup)
    ensures forall v :: 0 <= v < |s.workers| ==> !s.workers[v].status.Alive?
  {
  }

  lemma OverQuiet(c: Config, s: State, a: Action)
    requires Over(s) && Enabled(c, s, a) && !a.Supervise? && SupervisorOk(s.workers, s.sup)
    requires forall v :: 0 <= v < |s.workers| ==> !s.workers[v].status.Alive?
    ensures Over(Do(c, s, a)) && Do(c, s, a).escrow == s.escrow
  {
    hide WithinWindow, Covered, DoWork;
  }

  lemma OverSupervised(c: Config, s: State)
    requires Over(s) && CanSupervise(c, s) && SupervisorOk(s.workers, s.sup)
    ensures Over(DoSupervise(c, s)) && DoSupervise(c, s).escrow == s.escrow
  {
    hide Recover, Spawn;
  }

  lemma LastLeavesEnds(c: Config, s: State)
    requires Inv(c, s) && CanSupervise(c, s) && LastLeaves(s)
    ensures Over(DoSupervise(c, s)) && DoSupervise(c, s).escrow == s.escrow
  {
    hide Conserved, Bounds, Ledger, Launches, History, Retries, Outputs, Packets, Delivered, RecordOk, Slot;
  }

  lemma RecoverIs(s: State, wid: nat, code: int)
    requires wid < |s.workers| == |s.txn| == |s.files| == |s.incarn| == |s.stray|
    ensures var t, v := Recover(s, wid, code), Classify(s, s.txn[wid], s.incarn[wid], code);
      && |t.workers| == |s.workers| && (forall u :: 0 <= u < |s.workers| ==> t.workers[u].status == s.workers[u].status)
      && !t.sup.Respawning? && (t.sup.Classified? ==> v.Verdict? && t.sup == Classified(wid, v.rc))
  {
    hide Classify;
  }

  lemma RecoveringEnds(c: Config, s: State, wid: nat, code: int)
    requires Inv(c, s) && CanSupervise(c, s) && s.sup == Recovering(wid, code) && Over(DoSupervise(c, s))
    ensures LastLeaves(s)
  {
    hide Conserved, Bounds, Ledger, Launches, History, Retries, Outputs, Packets, Delivered, Slot, RecordOk, Recover;
    assert SupervisorOk(s.workers, s.sup);
    RecoverIs(s, wid, code);
    if s.txn[wid].state == CLAIMED { ClassifyExact(c, s, wid, code); }
  }

  lemma SuperviseEnds(c: Config, s: State)
    requires Inv(c, s) && CanSupervise(c, s) && !Over(s) && Over(DoSupervise(c, s))
    ensures LastLeaves(s)
  {
    if s.sup.Recovering? {
      RecoveringEnds(c, s, s.sup.wid, s.sup.code);
    } else if s.sup.Respawning? {
      LastFreed(c, s);
    } else {
      hide *;
      StillOver(c, s);
    }
  }

  lemma LastFreed(c: Config, s: State)
    requires CanSupervise(c, s) && s.sup.Respawning? && Over(DoSupervise(c, s))
    ensures Over(s)
  {
    SpawnAlive(s, s.sup.wid);
    hide Spawn;
    var t, wid := DoSupervise(c, s), s.sup.wid;
    if s.sup.rc == 2 {
      forall v | 0 <= v < |s.workers| && v != wid ensures s.workers[v].status == Freed {
        assert t.workers[v] == s.workers[v];
      }
    }
  }

  lemma SpawnAlive(s: State, wid: nat)
    requires wid < |s.workers| && |s.incarn| == |s.files| == |s.workers|
    ensures var t := Spawn(s, wid); wid < |t.workers| && t.workers[wid].status == Alive && t.sup == Waiting
  {
  }

  lemma StillOver(c: Config, s: State)
    requires CanSupervise(c, s) && !s.sup.Recovering? && !s.sup.Respawning? && Over(DoSupervise(c, s))
    ensures Over(s)
  {
  }

  /** There is no other way to the end. */
  lemma EndsByLeaving(c: Config, s: State, a: Action)
    requires Inv(c, s) && Enabled(c, s, a) && !Over(s) && Over(Do(c, s, a))
    ensures a.Supervise? && LastLeaves(s)
  {
    hide Conserved, Bounds, Ledger, Launches, History, Retries, Outputs, Packets, Delivered, RecordOk, DoSupervise,
      DoWork;
    assert SupervisorOk(s.workers, s.sup);
    match a
    case Work(wid, choice) =>
      WorkLives(c, s, wid, choice);
      WorkAlone(c, s, wid, choice);
    case Supervise => SuperviseEnds(c, s);
    case _ => QuietEnds(c, s, a);
  }

  lemma DiesNotFreed(s: State, wid: nat, code: int)
    requires wid < |s.workers|
    ensures var t := SetStatus(s, wid, Dead(code)); |t.workers| == |s.workers| && t.workers[wid].status == Dead(code)
  {
  }

  lemma QuietEnds(c: Config, s: State, a: Action)
    requires Enabled(c, s, a) && !a.Work? && !a.Supervise? && SupervisorOk(s.workers, s.sup) && Over(Do(c, s, a))
    ensures Over(s)
  {
    hide WithinWindow, Covered;
    if a.Die? { DiesNotFreed(s, a.wid, a.code); } else { assert Do(c, s, a).workers == s.workers; }
  }

  /** The worker's slot is still there and not freed. */
  ghost predicate Lives(t: State, wid: nat) {
    wid < |t.workers| && t.workers[wid].status != Freed
  }

  lemma AliveLives(s: State, wid: nat)
    requires wid < |s.workers| && s.workers[wid].status == Alive
    ensures Lives(s, wid)
  {
  }

  lemma ClaimingLives(s: State, wid: nat)
    requires wid < |s.workers| == |s.txn| && Lives(s, wid)
    ensures Lives(BeginClaim(s, wid), wid) && Lives(Rearm(s, wid), wid) && Lives(StopDrain(s, wid), wid)
    ensures Lives(LeaveAtEof(s, wid), wid) && Lives(ClearTxn(s, wid), wid) && Lives(TakeTicket(s, wid), wid)
  {
  }

  lemma PacketLives(s: State, wid: nat, pc: Pc, i: nat)
    requires wid < |s.workers| && Lives(s, wid)
    ensures Lives(SetPc(s, wid, pc), wid) && Lives(RejectHeld(s, wid, i), wid) && Lives(Abandon(s, wid, i), wid)
    ensures s.escrow != [] ==> Lives(TakePacket(s, wid, pc), wid) && Lives(RejectPacket(s, wid), wid)
  {
  }

  lemma RunningLives(c: Config, s: State, wid: nat, p: EscrowPacket, data: Bytes)
    requires wid < |s.workers| == |s.txn| == |s.files| == |s.stray| && Lives(s, wid)
    ensures Lives(Publish(s, wid, p), wid)
    ensures Lives(CountPoison(c, s, wid, p), wid) && Lives(EmitBytes(s, wid, data), wid)
    ensures Lives(BeginCommit(s, wid, p), wid)
    ensures Lives(SendPacket(s, wid, p), wid) && Lives(SetStatus(s, wid, Dead(0)), wid)
  {
    hide Slot, CountsPoison, CoredumpArmed;
  }

  /** A worker's step frees no slot. */
  lemma WorkLives(c: Config, s: State, wid: nat, choice: Choice)
    requires CanWork(c, s, wid, choice)
    ensures Lives(DoWork(c, s, wid, choice), wid)
  {
    hide BeginClaim, Rearm, StopDrain, LeaveAtEof, ClearTxn, TakeTicket, SetPc, RejectHeld, Abandon, TakePacket,
      RejectPacket, Publish, CountPoison, EmitBytes, BeginCommit, SendPacket, SetStatus, Lives, NextPc, EscrowIdxLive;
    var wk := s.workers[wid];
    AliveLives(s, wid);
    match wk.pc
    case Between => ClaimingLives(s, wid);
    case Restart => ClaimingLives(s, wid);
    case DrainRead =>
      ClaimingLives(s, wid);
      if wk.drain && s.escrow != [] { PacketLives(s, wid, DrainW(s.escrow[0]), 0); }
      if !wk.drain { PacketLives(s, wid, NextPc(s, wk.pc), 0); }
    case DrainR(p, _) => PacketLives(s, wid, NextPc(s, wk.pc), p.idx);
    case FetchAdd => ClaimingLives(s, wid);
    case EscrowRead(_, _) =>
      if s.escrow != [] { PacketLives(s, wid, EvalW(s.escrow[0]), 0); }
      else { PacketLives(s, wid, NextPc(s, wk.pc), 0); }
    case FinPoll =>
      ClaimingLives(s, wid);
      PacketLives(s, wid, NextPc(s, wk.pc), 0);
    case EvalFinished(p) => PacketLives(s, wid, NextPc(s, wk.pc), p.idx);
    case WaitLastW(p) => PacketLives(s, wid, NextPc(s, wk.pc), p.idx);
    case Ready(p) => RunningLives(c, s, wid, p, []);
    case Counting(p) => RunningLives(c, s, wid, p, []);
    case Running(p) => RunningLives(c, s, wid, p, if choice.Emit? then choice.data else []);
    case Committing(p) => RunningLives(c, s, wid, p, []);
    case Sent => ClaimingLives(s, wid);
    case AtEof => RunningLives(c, s, wid, EscrowPacket(0, 0), []);
    case _ => PacketLives(s, wid, NextPc(s, wk.pc), 0);
  }

  lemma WorkAlone(c: Config, s: State, wid: nat, choice: Choice)
    requires CanWork(c, s, wid, choice)
    ensures DoWork(c, s, wid, choice).sup == s.sup
  {
    hide EscrowIdxLive, NextPc, CountsPoison, CoredumpArmed, Slot;
  }

  lemma {:induction false} OverFrom(c: Config, states: seq<State>, actions: seq<Action>, k: nat, n: nat)
    requires Run(c, states, actions) && k <= n < |states| && Over(states[k])
    ensures Over(states[n]) && states[n].escrow == states[k].escrow
  {
    hide Inv, Over, Enabled, Do, Init;
    if k < n {
      OverFrom(c, states, actions, k, n - 1);
      RunInv(c, states, actions, n - 1);
      OverStays(c, states[n - 1], actions[n - 1]);
    }
  }

  lemma {:induction false} FindLeaving(c: Config, states: seq<State>, actions: seq<Action>, n: nat) returns (k: nat)
    requires Run(c, states, actions) && n < |states| && Over(states[n]) && states[n].escrow != []
    ensures k < n && actions[k] == Supervise && Strands(states[k]) && states[k].escrow == states[n].escrow
  {
    hide Inv, Over, Enabled, Do, LastLeaves;
    RunInv(c, states, actions, n - 1);
    if Over(states[n - 1]) {
      OverStays(c, states[n - 1], actions[n - 1]);
      k := FindLeaving(c, states, actions, n - 1);
    } else {
      EndsByLeaving(c, states[n - 1], actions[n - 1]);
      CanLeave(c, states[n - 1]);
      k := n - 1;
    }
  }

  lemma CanLeave(c: Config, s: State)
    requires Enabled(c, s, Supervise) && Inv(c, s) && LastLeaves(s)
    ensures Do(c, s, Supervise).escrow == s.escrow
  {
    hide Inv;
    LastLeavesEnds(c, s);
  }

  /** When every slot has been freed, the escrow pipe still holds packets exactly
      when the last slot was freed on a death between batches, with exit code 0 or
      with the pending flag clear at the end of the input, while packets were in the
      pipe; those are the ones left. */
  lemma StrandedIff(c: Config, states: seq<State>, actions: seq<Action>, n: nat)
    requires Run(c, states, actions) && n < |states| && AllFreed(states[n])
    ensures states[n].escrow != [] <==> exists k :: 0 <= k < n && actions[k] == Supervise && Strands(states[k])
    ensures forall k :: 0 <= k < n && actions[k] == Supervise && Strands(states[k]) ==>
      states[n].escrow == states[k].escrow
  {
    hide Inv, Enabled, Do, Init, LastLeaves, Over;
    assert Over(states[n]) by { AllIsOver(states[n]); }
    if states[n].escrow != [] { var k := FindLeaving(c, states, actions, n); }
    forall k | 0 <= k < n && actions[k] == Supervise && Strands(states[k])
      ensures states[n].escrow == states[k].escrow && states[n].escrow != []
    {
      RunInv(c, states, actions, k);
      LeavesToOver(c, states[k]);
      OverFrom(c, states, actions, k + 1, n);
    }
  }

  lemma AllIsOver(s: State)
    requires AllFreed(s)
    ensures Over(s)
  {
  }

  lemma LeavesToOver(c: Config, s: State)
    requires Enabled(c, s, Supervise) && Inv(c, s) && LastLeaves(s)
    ensures Over(Do(c, s, Supervise)) && Do(c, s, Supervise).escrow == s.escrow
  {
    hide Inv;
    LastLeavesEnds(c, s);
  }

  // ------------------------------------------------------------------ tickets

  /** How many fetch-adds a run prefix performed. */
  ghost function FetchAdds(c: Config, states: seq<State>, actions: seq<Action>, n: nat): nat
    requires Run(c, states, actions) && n <= |actions|
  {
    if n == 0 then 0
    else
      FetchAdds(c, states, actions, n - 1)
      + One(actions[n - 1].Work? && states[n - 1].workers[actions[n - 1].wid].pc.FetchAdd?)
  }

  lemma OtherStepsKeepR(c: Config, s: State, a: Action)
    requires Enabled(c, s, a) && !a.Work?
    ensures Do(c, s, a).r == s.r
  {
    hide WithinWindow, Covered, Overlaps, Classify;
  }

  /** Tickets are dense: the k-th fetch-add of a run yields ticket k. */
  lemma {:induction false} TicketsDense(c: Config, states: seq<State>, actions: seq<Action>, n: nat)
    requires Run(c, states, actions) && n <= |actions|
    ensures states[n].r == FetchAdds(c, states, actions, n)
    ensures n < |actions| && actions[n].Work? && states[n].workers[actions[n].wid].pc.FetchAdd? ==>
      states[n + 1].workers[actions[n].wid].pc == EvalW(EscrowPacket(FetchAdds(c, states, actions, n), 0))
  {
    hide WithinWindow, Covered, Overlaps, DoSupervise;
    if n > 0 {
      TicketsDense(c, states, actions, n - 1);
      var a := actions[n - 1];
      if a.Work? { WorkKeeps(c, states[n - 1], a.wid, a.choice); } else { OtherStepsKeepR(c, states[n - 1], a); }
    }
  }

  /** A worker only runs a published slot, the one its ticket names. */
  lemma HandedPublished(c: Config, states: seq<State>, actions: seq<Action>, n: nat, v: nat)
    requires Run(c, states, actions) && n < |states| && v < |states[n].workers|
    requires states[n].workers[v].pc.Ready? || InClaim(states[n].workers[v].pc)
    ensures var p := states[n].workers[v].pc.pkt;
      p.idx < states[n].w <= |states[n].pub| && Slot(states[n].pub, p.idx) == states[n].pub[p.idx]
  {
    hide Run, Slot;
    RunInv(c, states, actions, n);
    HeldPublished(c, states[n], v);
  }

  lemma HeldPublished(c: Config, s: State, v: nat)
    requires Inv(c, s) && v < |s.workers| && (s.workers[v].pc.Ready? || InClaim(s.workers[v].pc))
    ensures var p := s.workers[v].pc.pkt;
      p.idx < s.w <= |s.pub| && Slot(s.pub, p.idx) == s.pub[p.idx]
  {
    hide Conserved, Launches, History, Retries, Outputs, Packets, Delivered, Ledger, Records, Slot;
    BoundOf(c, s, v);
    assert WithinWindow(s, |s.pub|);
    SlotExact(s.pub, s.workers[v].pc.pkt.idx);
  }
}
