/** Reachable states in which each loss step is enabled: the conditions under
    which the protocol keeps every batch cannot be dropped. */
module ClaimCounterexamples {
  import opened ClaimProtocol
  import opened ClaimInvariant
  import opened ClaimTheorems

  ghost predicate Reachable(c: Config, s: State) {
    exists states: seq<State>, actions: seq<Action> :: Run(c, states, actions) && states[|actions|] == s
  }

  lemma Extend(c: Config, s: State, a: Action)
    requires Reachable(c, s) && Enabled(c, s, a)
    ensures Reachable(c, Do(c, s, a))
  {
    hide Enabled, Do, Init;
    var states: seq<State>, actions: seq<Action> :| Run(c, states, actions) && states[|actions|] == s;
    var states', actions' := states + [Do(c, s, a)], actions + [a];
    assert Run(c, states', actions');
    assert states'[|actions'|] == Do(c, s, a);
  }

  lemma Go(c: Config, s: State, wid: nat)
    requires Reachable(c, s) && CanWork(c, s, wid, Choice.Go)
    ensures Reachable(c, DoWork(c, s, wid, Choice.Go))
  {
    hide DoWork, Reachable;
    Extend(c, s, Work(wid, Choice.Go));
  }

  const FRESH := Worker(Alive, Between, false, 0, 0, 0, [], false)
  const NO_TXN := Txn(IDLE, 0, 0, 0, 0, 0, 0)

  /** The initial state with two workers. */
  function Start(): State {
    State([], 0, 0, false, [], false, [FRESH, FRESH], [NO_TXN, NO_TXN], [[], []], [], 0,
          [], [], [], [], [], 0, [0, 0], [], [0, 0], 2, Waiting)
  }

  const TWO := Config(2, 3, 3, 0, iset{})

  lemma StartReachable()
    ensures Reachable(TWO, Start())
  {
    assert Run(TWO, [Start()], []);
  }

  /** The first four steps of a claim with nothing to drain. */
  lemma ReachLoadR(c: Config, s: State, wid: nat)
    requires Reachable(c, s) && CanWork(c, s, wid, Choice.Go) && !s.pending
    requires s.workers[wid].pc == Between && !s.workers[wid].drain
    ensures Reachable(c, s.(workers := s.workers[wid := s.workers[wid].(pc := LoadR(s.w))],
                            txn := s.txn[wid := s.txn[wid].(state := CLAIMING)]))
  {
    hide Reachable;
    var s1 := DoWork(c, s, wid, Choice.Go);
    Go(c, s, wid);
    Go(c, s1, wid);
    var s2 := DoWork(c, s1, wid, Choice.Go);
    Go(c, s2, wid);
    var s3 := DoWork(c, s2, wid, Choice.Go);
    Go(c, s3, wid);
    assert DoWork(c, s3, wid, Choice.Go) ==
      s.(workers := s.workers[wid := s.workers[wid].(pc := LoadR(s.w))],
         txn := s.txn[wid := s.txn[wid].(state := CLAIMING)]);
  }

  /** A worker's claim of the next ticket, from its first load until it runs, when
      that slot is already published. */
  function Claimed(s: State, wid: nat): State
    requires wid < |s.workers| == |s.txn|
  {
    var b := Slot(s.pub, s.r);
    s.(r := s.r + 1,
       workers := s.workers[wid := s.workers[wid].(pc := Running(EscrowPacket(s.r, 0)))],
       txn := s.txn[wid := Txn(CLAIMED, s.r, 0, s.workers[wid].incarnation, s.workers[wid].outputEnd, b.major,
                               b.minor)],
       claims := s.claims + [Claim(s.r, 0)],
       runs := s.runs + [Claim(s.r, 0)])
  }

  lemma ReachFetched(c: Config, s: State, wid: nat)
    requires Reachable(c, s) && CanWork(c, s, wid, Choice.Go) && !s.pending && s.r < s.w
    requires s.workers[wid].pc == Between && !s.workers[wid].drain
    ensures Reachable(c, s.(r := s.r + 1,
                            workers := s.workers[wid := s.workers[wid].(pc := EvalW(EscrowPacket(s.r, 0)))],
                            txn := s.txn[wid := s.txn[wid].(state := CLAIMING)]))
  {
    hide Reachable;
    ReachLoadR(c, s, wid);
    var s1 := s.(workers := s.workers[wid := s.workers[wid].(pc := LoadR(s.w))],
                 txn := s.txn[wid := s.txn[wid].(state := CLAIMING)]);
    Go(c, s1, wid);
    var s2 := DoWork(c, s1, wid, Choice.Go);
    Go(c, s2, wid);
    assert DoWork(c, s2, wid, Choice.Go) ==
      s.(r := s.r + 1, workers := s.workers[wid := s.workers[wid].(pc := EvalW(EscrowPacket(s.r, 0)))],
         txn := s.txn[wid := s.txn[wid].(state := CLAIMING)]);
  }

  lemma ReachClaimed(c: Config, s: State, wid: nat)
    requires Reachable(c, s) && CanWork(c, s, wid, Choice.Go) && !s.pending && s.r < s.w
    requires s.workers[wid].pc == Between && !s.workers[wid].drain
    requires !s.workers[wid].armed
    ensures Reachable(c, Claimed(s, wid))
  {
    hide Reachable, Slot;
    ReachFetched(c, s, wid);
    var s1 := s.(r := s.r + 1, workers := s.workers[wid := s.workers[wid].(pc := EvalW(EscrowPacket(s.r, 0)))],
                 txn := s.txn[wid := s.txn[wid].(state := CLAIMING)]);
    Go(c, s1, wid);
    var s2 := DoWork(c, s1, wid, Choice.Go);
    Go(c, s2, wid);
    var s3 := DoWork(c, s2, wid, Choice.Go);
    Go(c, s3, wid);
    assert DoWork(c, s3, wid, Choice.Go) == Claimed(s, wid);
  }

  /** Worker `wid` dies abnormally with an ordinary batch claimed; recovery has
      put the batch in escrow, cleared the record and is about to respawn. */
  function Orphaned(s: State, wid: nat): State
    requires wid < |s.workers| == |s.txn| == |s.files|
    requires InClaim(s.workers[wid].pc)
  {
    var p := s.workers[wid].pc.pkt;
    s.(workers := s.workers[wid := s.workers[wid].(status := Dead(9), pc := Between, emitted := [], armed := false)],
       txn := s.txn[wid := s.txn[wid].(state := IDLE)],
       escrow := s.escrow + [EscrowPacket(p.idx, p.kills + 1)],
       pending := true,
       signals := s.signals + [(wid, |s.files[wid]|)],
       sup := Respawning(wid, 0))
  }

  /** Worker `wid` died of signal 9 and its batch went back to escrow. */
  function Killed(s: State, wid: nat, p: EscrowPacket): State
    requires wid < |s.workers|
  {
    var wk := s.workers[wid].(status := Dead(9), pc := Between, emitted := [], armed := false);
    s.(workers := s.workers[wid := wk], escrow := s.escrow + [EscrowPacket(p.idx, p.kills + 1)],
       sup := Deposited(wid))
  }

  lemma ReachDeposited(c: Config, s: State, wid: nat)
    requires Reachable(c, s) && Shaped(c, s) && wid < c.workers && s.sup == Waiting
    requires s.workers[wid].status == Alive && InClaim(s.workers[wid].pc)
    requires Classify(s, s.txn[wid], s.incarn[wid], 9) == Orphan
    requires s.txn[wid].idx == s.workers[wid].pc.pkt.idx && s.txn[wid].kills == s.workers[wid].pc.pkt.kills
    requires s.txn[wid].outputStart == |s.files[wid]|
    ensures var p := s.workers[wid].pc.pkt;
      Reachable(c, Killed(s, wid, p))
  {
    hide Reachable, Slot;
    var p := s.workers[wid].pc.pkt;
    Extend(c, s, Die(wid, 9));
    var s1 := SetStatus(s, wid, Dead(9));
    Extend(c, s1, Reap(wid));
    var s2 := s1.(sup := Recovering(wid, 9));
    Extend(c, s2, Supervise);
    assert s.files[wid][..|s.files[wid]|] == s.files[wid];
    assert Do(c, s2, Supervise) == Killed(s, wid, p);
  }

  lemma ReachOrphaned(c: Config, s: State, wid: nat)
    requires Reachable(c, s) && Shaped(c, s) && wid < c.workers && s.sup == Waiting
    requires s.workers[wid].status == Alive && InClaim(s.workers[wid].pc)
    requires Classify(s, s.txn[wid], s.incarn[wid], 9) == Orphan
    requires s.txn[wid].idx == s.workers[wid].pc.pkt.idx && s.txn[wid].kills == s.workers[wid].pc.pkt.kills
    requires s.txn[wid].outputStart == |s.files[wid]|
    ensures Reachable(c, Orphaned(s, wid))
  {
    hide Reachable, Classify;
    var p := s.workers[wid].pc.pkt;
    ReachDeposited(c, s, wid);
    var s1 := Killed(s, wid, p);
    Extend(c, s1, Supervise);
    var s2 := Do(c, s1, Supervise);
    Extend(c, s2, Supervise);
    var s3 := Do(c, s2, Supervise);
    Extend(c, s3, Supervise);
    assert Do(c, s3, Supervise) == Orphaned(s, wid);
  }

  /** Slots are published by the scanner. */
  lemma ReachPublished(c: Config, s: State, b: Batch)
    requires Reachable(c, s) && Enabled(c, s, Flush(b)) && s.w == |s.pub|
    ensures Reachable(c, s.(pub := s.pub + [b], w := |s.pub| + 1))
  {
    hide Reachable, WithinWindow;
    Extend(c, s, Flush(b));
    Extend(c, s.(pub := s.pub + [b]), StoreWriteIdx(|s.pub| + 1));
  }

  const FIRST := Batch(0, 1, 0, 0)

  /** Worker 0 loads write_idx and read_idx while the ring is empty; then batch 0
      is published, claimed and orphaned by worker 1.  Worker 0 reads it from
      escrow against its stale snapshot and drops it. */
  lemma StaleSnapshotLoses() returns (s: State)
    ensures Reachable(TWO, s) && Enabled(TWO, s, Work(0, Choice.Go))
    ensures s.workers[0].pc == EscrowRead(0, 0) && s.pub == [FIRST] && s.escrow == [EscrowPacket(0, 1)]
    ensures LossStep(TWO, s, Work(0, Choice.Go))
  {
    hide Reachable;
    StartReachable();
    ReachLoadR(TWO, Start(), 0);
    var s1 := Start().(workers := [FRESH.(pc := LoadR(0)), FRESH], txn := [NO_TXN.(state := CLAIMING), NO_TXN]);
    assert s1 == Start().(workers := Start().workers[0 := FRESH.(pc := LoadR(0))],
                          txn := Start().txn[0 := NO_TXN.(state := CLAIMING)]);
    Go(TWO, s1, 0);
    var s2 := s1.(workers := [FRESH.(pc := EscrowRead(0, 0)), FRESH]);
    assert DoWork(TWO, s1, 0, Choice.Go) == s2;
    ReachPublished(TWO, s2, FIRST);
    var s3 := s2.(pub := [FIRST], w := 1);
    assert s3 == s2.(pub := s2.pub + [FIRST], w := |s2.pub| + 1);
    ReachClaimed(TWO, s3, 1);
    var s4 := Claimed(s3, 1);
    assert Slot(s4.pub, 0) == FIRST;
    ReachOrphaned(TWO, s4, 1);
    s := Orphaned(s4, 1);
  }

  const SECOND := Batch(1, 2, 0, 1)

  /** Two workers race for one slot; the loser's write_idx load precedes the
      publication of its slot and its scanner_finished load follows the end. */
  lemma SplitLoadLoses() returns (s: State)
    ensures Reachable(TWO, s) && Enabled(TWO, s, Work(1, Choice.Go))
    ensures s.workers[1].pc == EvalFinished(EscrowPacket(1, 0)) && s.finished && s.pub == [FIRST, SECOND]
    ensures LossStep(TWO, s, Work(1, Choice.Go))
  {
    hide Reachable;
    StartReachable();
    ReachPublished(TWO, Start(), FIRST);
    var s0 := Start().(pub := [FIRST], w := 1);
    assert s0 == Start().(pub := Start().pub + [FIRST], w := |Start().pub| + 1);
    ReachLoadR(TWO, s0, 0);
    var claiming := NO_TXN.(state := CLAIMING);
    var s1 := s0.(workers := [FRESH.(pc := LoadR(1)), FRESH], txn := [claiming, NO_TXN]);
    assert s1 == s0.(workers := s0.workers[0 := FRESH.(pc := LoadR(1))], txn := s0.txn[0 := claiming]);
    ReachLoadR(TWO, s1, 1);
    var s2 := s1.(workers := [FRESH.(pc := LoadR(1)), FRESH.(pc := LoadR(1))], txn := [claiming, claiming]);
    assert s2 == s1.(workers := s1.workers[1 := FRESH.(pc := LoadR(1))], txn := s1.txn[1 := claiming]);
    Go(TWO, s2, 0);
    var s3 := s2.(workers := [FRESH.(pc := FetchAdd), FRESH.(pc := LoadR(1))]);
    assert DoWork(TWO, s2, 0, Choice.Go) == s3;
    Go(TWO, s3, 1);
    var s4 := s2.(workers := [FRESH.(pc := FetchAdd), FRESH.(pc := FetchAdd)]);
    assert DoWork(TWO, s3, 1, Choice.Go) == s4;
    s := SplitLoadTail(s4);
  }

  lemma SplitLoadTail(s4: State) returns (s: State)
    requires Reachable(TWO, s4)
    requires s4 == Start().(pub := [FIRST], w := 1, workers := [FRESH.(pc := FetchAdd), FRESH.(pc := FetchAdd)],
                            txn := [NO_TXN.(state := CLAIMING), NO_TXN.(state := CLAIMING)])
    ensures Reachable(TWO, s) && Enabled(TWO, s, Work(1, Choice.Go))
    ensures s.workers[1].pc == EvalFinished(EscrowPacket(1, 0)) && s.finished && s.pub == [FIRST, SECOND]
    ensures LossStep(TWO, s, Work(1, Choice.Go))
  {
    hide Reachable;
    var s7 := SplitLoadRace(s4);
    ReachPublished(TWO, s7, SECOND);
    var s8 := s7.(pub := [FIRST, SECOND], w := 2);
    assert s8 == s7.(pub := s7.pub + [SECOND], w := |s7.pub| + 1);
    Extend(TWO, s8, Finish);
    s := s8.(finished := true);
  }

  /** Both workers take a ticket; the later one finds its slot unpublished. */
  lemma SplitLoadRace(s4: State) returns (s7: State)
    requires Reachable(TWO, s4)
    requires s4 == Start().(pub := [FIRST], w := 1, workers := [FRESH.(pc := FetchAdd), FRESH.(pc := FetchAdd)],
                            txn := [NO_TXN.(state := CLAIMING), NO_TXN.(state := CLAIMING)])
    ensures Reachable(TWO, s7)
    ensures s7 == s4.(r := 2,
                      workers := [FRESH.(pc := EvalW(EscrowPacket(0, 0))),
                                  FRESH.(pc := EvalFinished(EscrowPacket(1, 0)))])
  {
    hide Reachable;
    Go(TWO, s4, 0);
    var s5 := s4.(r := 1, workers := [FRESH.(pc := EvalW(EscrowPacket(0, 0))), FRESH.(pc := FetchAdd)]);
    assert DoWork(TWO, s4, 0, Choice.Go) == s5;
    Go(TWO, s5, 1);
    var s6 := s5.(r := 2,
                  workers := [FRESH.(pc := EvalW(EscrowPacket(0, 0))), FRESH.(pc := EvalW(EscrowPacket(1, 0)))]);
    assert DoWork(TWO, s5, 1, Choice.Go) == s6;
    Go(TWO, s6, 1);
    s7 := s6.(workers := [FRESH.(pc := EvalW(EscrowPacket(0, 0))), FRESH.(pc := EvalFinished(EscrowPacket(1, 0)))]);
    assert DoWork(TWO, s6, 1, Choice.Go) == s7;
  }

  const EMPTY := Batch(1, 1, 0, 1)

  /** An empty batch at the committed horizon: its worker dies while running it,
      having emitted `data`, and recovery takes the batch for one that was
      acknowledged. */
  lemma EmptyBatchLoses(data: Bytes) returns (s: State)
    ensures Reachable(TWO, s) && Enabled(TWO, s, Supervise)
    ensures s.pub == [FIRST, EMPTY] && s.sup == Recovering(1, 9) && s.workers[1].pc == Running(EscrowPacket(1, 0))
    ensures LossStep(TWO, s, Supervise)
    ensures s.workers[1].emitted == data && s.files == [[], data] && s.stray == [0, 0]
    ensures forall k :: 0 <= k < |s.order| ==> s.order[k].wid == 0
  {
    hide Reachable;
    var s1 := EmptyPublished();
    var s4 := FirstAcked(s1);
    s := EmptyBatchTail(s4, data);
  }

  /** With output in it: what that execution emitted stays in the file although
      its batch was never committed. */
  lemma StrayOutput() returns (s: State)
    ensures Reachable(TWO, s) && |s.files| == |s.workers| == |s.stray| == 2 && s.stray[1] == 1
    ensures s.workers[1].emitted == [] && s.files[1] == [7] && CommittedOf(s.order, 1) == []
  {
    hide Reachable;
    var s0 := EmptyBatchLoses([7]);
    Extend(TWO, s0, Supervise);
    ReachableInv(TWO, s0);
    Stood(s0);
    s := StandDown(s0, 1, 3);
    CommittedNothing(s.order, 1);
  }

  lemma ReachableInv(c: Config, s: State)
    requires Reachable(c, s)
    ensures Inv(c, s)
  {
    var states: seq<State>, actions: seq<Action> :| Run(c, states, actions) && states[|actions|] == s;
    hide Inv;
    RunInv(c, states, actions, |actions|);
  }

  lemma Stood(s: State)
    requires Inv(TWO, s) && Enabled(TWO, s, Supervise) && LossStep(TWO, s, Supervise) && s.sup == Recovering(1, 9)
    ensures Do(TWO, s, Supervise) == StandDown(s, 1, 3)
  {
    ClassifyExact(TWO, s, 1, 9);
    hide Inv, Classify;
  }

  lemma {:induction false} CommittedNothing(order: seq<OrderPacket>, v: nat)
    requires forall k :: 0 <= k < |order| ==> order[k].wid != v
    ensures CommittedOf(order, v) == []
  {
    if order != [] { CommittedNothing(order[..|order| - 1], v); }
  }

  lemma EmptyPublished() returns (s1: State)
    ensures Reachable(TWO, s1) && Shaped(TWO, s1) && s1 == Start().(pub := [FIRST, EMPTY], w := 2)
  {
    hide Reachable;
    StartReachable();
    ReachPublished(TWO, Start(), FIRST);
    var s0 := Start().(pub := [FIRST], w := 1);
    assert s0 == Start().(pub := Start().pub + [FIRST], w := |Start().pub| + 1);
    ReachPublished(TWO, s0, EMPTY);
    s1 := s0.(pub := [FIRST, EMPTY], w := 2);
    assert s1 == s0.(pub := s0.pub + [EMPTY], w := |s0.pub| + 1);
  }

  /** Worker 0 claims and commits the first batch. */
  lemma FirstAcked(s1: State) returns (s4: State)
    requires Reachable(TWO, s1) && Shaped(TWO, s1) && s1 == Start().(pub := [FIRST, EMPTY], w := 2)
    ensures Reachable(TWO, s4) && Shaped(TWO, s4)
    ensures s4.pub == [FIRST, EMPTY] && s4.w == 2 && s4.r == 1 && s4.horizon == 0
    ensures s4.order == [OrderPacket(0, 0, 0, 0, [], 0)] && !s4.pending && s4.sup == Waiting && s4.workers[1] == FRESH
    ensures s4.files == [[], []] && s4.stray == [0, 0]
  {
    hide Reachable;
    ReachClaimed(TWO, s1, 0);
    var s2 := Claimed(s1, 0);
    Go(TWO, s2, 0);
    var s3 := DoWork(TWO, s2, 0, Choice.Go);
    Go(TWO, s3, 0);
    s4 := DoWork(TWO, s3, 0, Choice.Go);
  }

  lemma EmptyBatchTail(s4: State, data: Bytes) returns (s: State)
    requires Reachable(TWO, s4) && Shaped(TWO, s4)
    requires s4.pub == [FIRST, EMPTY] && s4.w == 2 && s4.r == 1 && s4.horizon == 0
    requires s4.order == [OrderPacket(0, 0, 0, 0, [], 0)] && !s4.pending && s4.sup == Waiting && s4.workers[1] == FRESH
    requires s4.files == [[], []] && s4.stray == [0, 0]
    ensures Reachable(TWO, s) && Enabled(TWO, s, Supervise)
    ensures s.pub == [FIRST, EMPTY] && s.sup == Recovering(1, 9) && s.workers[1].pc == Running(EscrowPacket(1, 0))
    ensures s.txn[1].state == CLAIMED && s.txn[1].idx == 1 && s.horizon == 1
    ensures LossStep(TWO, s, Supervise)
    ensures s.workers[1].emitted == data && s.files == [[], data] && s.stray == [0, 0] && s.order == s4.order
  {
    hide Reachable;
    assert forall b: nat :: 0 <= b < 1 ==> Covered(s4.pub, s4.order, b) by { assert s4.pub[s4.order[0].idx] == FIRST; }
    Extend(TWO, s4, AdvanceHorizon(1));
    var s5 := s4.(horizon := 1);
    ReachClaimed(TWO, s5, 1);
    s := EmptyDies(Claimed(s5, 1), data);
  }

  /** Worker 1 emits `data`, dies and is reaped. */
  lemma EmptyDies(s6: State, data: Bytes) returns (s: State)
    requires Reachable(TWO, s6) && CanWork(TWO, s6, 1, Emit(data)) && s6.sup == Waiting
    requires s6.workers[1].emitted == [] && s6.files == [[], []]
    ensures Reachable(TWO, s)
    ensures s == s6.(sup := Recovering(1, 9), files := [[], data],
                     workers := s6.workers[1 := s6.workers[1].(status := Dead(9), emitted := data)])
  {
    hide Reachable;
    Extend(TWO, s6, Work(1, Emit(data)));
    var s7 := EmitBytes(s6, 1, data);
    Extend(TWO, s7, Die(1, 9));
    var s8 := SetStatus(s7, 1, Dead(9));
    Extend(TWO, s8, Reap(1));
    s := s8.(sup := Recovering(1, 9));
    assert [] + data == data;
  }

  /** Worker `wid` is between batches, dies abnormally after the end of input with
      the pending flag already consumed, and its slot is freed. */
  function FreedSlot(s: State, wid: nat): State
    requires wid < |s.workers| && wid < |s.files|
  {
    s.(workers := s.workers[wid := s.workers[wid].(status := Freed)], signals := s.signals + [(wid, |s.files[wid]|)])
  }

  lemma ReachFreed(c: Config, s: State, wid: nat)
    requires Reachable(c, s) && Shaped(c, s) && wid < c.workers && s.sup == Waiting && s.workers[wid].status == Alive
    requires s.txn[wid].state == IDLE && s.finished && s.r >= s.w && !s.pending
    ensures Reachable(c, FreedSlot(s, wid))
  {
    hide Reachable;
    Extend(c, s, Die(wid, 9));
    var s1 := SetStatus(s, wid, Dead(9));
    Extend(c, s1, Reap(wid));
    var s2 := s1.(sup := Recovering(wid, 9));
    Extend(c, s2, Supervise);
    var s3 := s1.(sup := Classified(wid, 2));
    assert DoSupervise(c, s2) == s3;
    Extend(c, s3, Supervise);
    var s4 := Wake(s3, wid, 2);
    Extend(c, s4, Supervise);
    assert DoSupervise(c, s4) == FreedSlot(s, wid);
  }

  /** Respawn after an orphan. */
  lemma ReachRespawned(c: Config, s: State, wid: nat)
    requires Reachable(c, s) && Shaped(c, s) && wid < c.workers && s.sup == Respawning(wid, 0)
    requires c.respawnCap < 0 || s.incarn[wid] < c.respawnCap
    ensures Reachable(c, Spawn(s, wid))
  {
    hide Reachable;
    Extend(c, s, Supervise);
  }

  /** Both batches are orphaned into escrow and both workers respawned; the first
      respawn consumes the pending flag, commits batch 0 and dies between
      batches, then the second dies: both slots are freed as normal exits and
      batch 1 stays in the pipe. */
  lemma ErrorExitStrandsEscrow() returns (s: State)
    ensures Reachable(TWO, s) && s.sup == Waiting && |s.workers| == 2
    ensures s.workers[0].status == Freed && s.workers[1].status == Freed
    ensures s.pub == [FIRST, SECOND] && s.escrow == [EscrowPacket(1, 1)] && !LostBatch(s, 1)
    ensures forall k :: 0 <= k < |s.order| ==> s.order[k].idx != 1
  {
    hide Reachable;
    StartReachable();
    ReachPublished(TWO, Start(), FIRST);
    var s0 := Start().(pub := [FIRST], w := 1);
    assert s0 == Start().(pub := Start().pub + [FIRST], w := |Start().pub| + 1);
    ReachPublished(TWO, s0, SECOND);
    var s1 := s0.(pub := [FIRST, SECOND], w := 2);
    assert s1 == s0.(pub := s0.pub + [SECOND], w := |s0.pub| + 1);
    Extend(TWO, s1, Finish);
    var s2 := s1.(finished := true);
    ReachClaimed(TWO, s2, 0);
    var s3 := Claimed(s2, 0);
    ReachClaimed(TWO, s3, 1);
    s := StrandTail(Claimed(s3, 1));
  }

  lemma StrandTail(s4: State) returns (s: State)
    requires Reachable(TWO, s4)
    requires s4 == Claimed(Claimed(Start().(pub := [FIRST, SECOND], w := 2, finished := true), 0), 1)
    ensures Reachable(TWO, s) && s.sup == Waiting && |s.workers| == 2
    ensures s.workers[0].status == Freed && s.workers[1].status == Freed
    ensures s.pub == [FIRST, SECOND] && s.escrow == [EscrowPacket(1, 1)] && !LostBatch(s, 1)
    ensures forall k :: 0 <= k < |s.order| ==> s.order[k].idx != 1
  {
    hide Reachable;
    ReachOrphaned(TWO, s4, 0);
    var s5 := Orphaned(s4, 0);
    ReachRespawned(TWO, s5, 0);
    var s6 := Spawn(s5, 0);
    ReachOrphaned(TWO, s6, 1);
    var s7 := Orphaned(s6, 1);
    ReachRespawned(TWO, s7, 1);
    var s8 := Spawn(s7, 1);
    assert s8.escrow == [EscrowPacket(0, 1), EscrowPacket(1, 1)];
    s := StrandEnd(s8);
  }

  lemma StrandEnd(s8: State) returns (s: State)
    requires Reachable(TWO, s8) && Shaped(TWO, s8)
    requires s8.pub == [FIRST, SECOND] && s8.w == 2 && s8.r == 2 && s8.finished && s8.pending && s8.sup == Waiting
    requires s8.workers == [FRESH.(incarnation := 1), FRESH.(incarnation := 1)]
    requires s8.txn[0].state == IDLE && s8.txn[1].state == IDLE && s8.files == [[], []] && s8.stray == [0, 0]
    requires s8.escrow == [EscrowPacket(0, 1), EscrowPacket(1, 1)] && s8.order == []
    requires s8.rejected == [] && s8.abandoned == [] && s8.stoodDown == []
    ensures Reachable(TWO, s) && s.sup == Waiting && |s.workers| == 2
    ensures s.workers[0].status == Freed && s.workers[1].status == Freed
    ensures s.pub == [FIRST, SECOND] && s.escrow == [EscrowPacket(1, 1)] && !LostBatch(s, 1)
    ensures forall k :: 0 <= k < |s.order| ==> s.order[k].idx != 1
  {
    hide Reachable;
    var s9 := DrainedAndCommitted(s8);
    ReachFreed(TWO, s9, 0);
    var s10 := FreedSlot(s9, 0);
    ReachFreed(TWO, s10, 1);
    s := FreedSlot(s10, 1);
  }

  lemma DrainedAndCommitted(s8: State) returns (s: State)
    requires Reachable(TWO, s8) && Shaped(TWO, s8)
    requires s8.pub == [FIRST, SECOND] && s8.w == 2 && s8.r == 2 && s8.finished && s8.pending && s8.sup == Waiting
    requires s8.workers == [FRESH.(incarnation := 1), FRESH.(incarnation := 1)]
    requires s8.txn[0].state == IDLE && s8.files == [[], []] && s8.stray == [0, 0]
    requires s8.escrow == [EscrowPacket(0, 1), EscrowPacket(1, 1)]
    ensures Reachable(TWO, s) && Shaped(TWO, s)
    ensures s == s8.(pending := false, escrow := [EscrowPacket(1, 1)], workers := s.workers, txn := s.txn,
                     claims := s.claims, runs := s.runs, poisoned := s.poisoned,
                     order := s8.order + [OrderPacket(0, 0, 0, 0, [], 0)])
    ensures s.workers[0].status == Alive && s.workers[1] == s8.workers[1]
    ensures s.txn[0].state == IDLE && s.txn[1] == s8.txn[1]
  {
    hide Reachable, Slot;
    Go(TWO, s8, 0);
    var a1 := DoWork(TWO, s8, 0, Choice.Go);
    Go(TWO, a1, 0);
    var a2 := DoWork(TWO, a1, 0, Choice.Go);
    Go(TWO, a2, 0);
    var a3 := DoWork(TWO, a2, 0, Choice.Go);
    assert a3 == s8.(pending := false, escrow := [EscrowPacket(1, 1)], workers := a3.workers, txn := a3.txn);
    assert a3.workers == [FRESH.(incarnation := 1, drain := true, pc := DrainW(EscrowPacket(0, 1))), s8.workers[1]];
    s := CommitTail(a3);
  }

  lemma CommitTail(a3: State) returns (s: State)
    requires Reachable(TWO, a3) && Shaped(TWO, a3) && a3.w == 2
    requires a3.r == 2 && a3.files == [[], []] && a3.stray == [0, 0]
    requires a3.workers[0] == FRESH.(incarnation := 1, drain := true, pc := DrainW(EscrowPacket(0, 1)))
    ensures Reachable(TWO, s) && Shaped(TWO, s)
    ensures s == a3.(workers := s.workers, txn := s.txn, claims := s.claims, runs := s.runs, poisoned := s.poisoned,
                     order := a3.order + [OrderPacket(0, 0, 0, 0, [], 0)])
    ensures s.workers[0].status == Alive && s.workers[1] == a3.workers[1]
    ensures s.txn[0].state == IDLE && s.txn[1] == a3.txn[1]
  {
    hide Reachable, Slot, CountsPoison, CoredumpArmed;
    var p := EscrowPacket(0, 1);
    ReachPublishedRecord(TWO, a3, 0, p);
    var a7 := Publish(SetPc(a3, 0, Ready(p)), 0, p);
    Go(TWO, a7, 0);
    var b7 := CountPoison(TWO, a7, 0, p);
    ReachCommitted(TWO, b7, 0, p);
    s := Committed(b7, 0, p);
  }

  /** A packet read from escrow, up to the published record. */
  lemma ReachPublishedRecord(c: Config, s: State, wid: nat, p: EscrowPacket)
    requires Reachable(c, s) && CanWork(c, s, wid, Choice.Go) && s.workers[wid].pc == DrainW(p)
    requires EscrowIdxLive(p.idx, s.w, s.r) && p.idx < s.w
    ensures Reachable(c, Publish(SetPc(s, wid, Ready(p)), wid, p))
  {
    hide Reachable, Slot;
    Go(c, s, wid);
    var s1 := SetPc(s, wid, DrainR(p, s.w));
    Go(c, s1, wid);
    var s2 := SetPc(s, wid, EvalW(p));
    assert DoWork(c, s1, wid, Choice.Go) == s2;
    Go(c, s2, wid);
    var s3 := SetPc(s, wid, Ready(p));
    assert DoWork(c, s2, wid, Choice.Go) == s3;
    Go(c, s3, wid);
  }

  /** A running batch committed and its record cleared. */
  function Committed(s: State, wid: nat, p: EscrowPacket): State
    requires wid < |s.workers| == |s.txn| == |s.files| == |s.stray|
  {
    ClearTxn(SendPacket(BeginCommit(s, wid, p), wid, p), wid)
  }

  lemma ReachCommitted(c: Config, s: State, wid: nat, p: EscrowPacket)
    requires Reachable(c, s) && CanWork(c, s, wid, Choice.Go) && s.workers[wid].pc == Running(p)
    ensures Reachable(c, Committed(s, wid, p))
  {
    hide Reachable;
    Go(c, s, wid);
    var s1 := BeginCommit(s, wid, p);
    Go(c, s1, wid);
    var s2 := SendPacket(s1, wid, p);
    Go(c, s2, wid);
  }

  // -------------------------------------------------- a poisoned batch missed

  const ONCE := Config(2, 3, 1, 0, iset{})

  /** A respawned worker re-arms the drain and reads the one packet there is. */
  lemma ReachDrained(c: Config, s: State, wid: nat, p: EscrowPacket)
    requires Reachable(c, s) && CanWork(c, s, wid, Choice.Go) && s.pending && s.escrow == [p]
    requires s.workers[wid].pc == Between
    ensures Reachable(c, Drained(s, wid, p))
  {
    hide Reachable;
    Go(c, s, wid);
    var s1 := BeginClaim(s, wid);
    Go(c, s1, wid);
    var s2 := Rearm(s1, wid);
    Go(c, s2, wid);
    assert DoWork(c, s2, wid, Choice.Go) == Drained(s, wid, p);
  }

  function Drained(s: State, wid: nat, p: EscrowPacket): State
    requires wid < |s.workers| == |s.txn|
  {
    s.(pending := false, escrow := [],
       workers := s.workers[wid := s.workers[wid].(pc := DrainW(p), drain := true)],
       txn := s.txn[wid := s.txn[wid].(state := CLAIMING)])
  }

  /** Attempt `kills` of batch 0, published by worker 1 after a respawn. */
  function Retried(s: State, kills: nat): State
    requires 1 < |s.workers| == |s.txn|
  {
    var p := EscrowPacket(0, kills);
    Publish(SetPc(Drained(s, 1, p), 1, Ready(p)), 1, p)
  }

  lemma ReachRetried(c: Config, s: State, kills: nat)
    requires Reachable(c, s) && CanWork(c, s, 1, Choice.Go) && s.pending && s.escrow == [EscrowPacket(0, kills)]
    requires s.workers[1].pc == Between && s.w == 1 && s.r == 1
    ensures Reachable(c, Retried(s, kills))
  {
    hide Reachable;
    ReachDrained(c, s, 1, EscrowPacket(0, kills));
    ReachPublishedRecord(c, Drained(s, 1, EscrowPacket(0, kills)), 1, EscrowPacket(0, kills));
  }

  /** Worker 1 dies with batch 0 claimed and is respawned, the batch in escrow. */
  lemma ReachAgain(c: Config, s: State) returns (t: State)
    requires Reachable(c, s) && Shaped(c, s) && 1 < c.workers && s.sup == Waiting && s.escrow == []
    requires s.workers[1].status == Alive && InClaim(s.workers[1].pc) && s.workers[1].pc.pkt.idx == 0
    requires Classify(s, s.txn[1], s.incarn[1], 9) == Orphan
    requires s.txn[1].idx == 0 && s.txn[1].kills == s.workers[1].pc.pkt.kills && s.txn[1].outputStart == |s.files[1]|
    requires s.incarn[1] < c.respawnCap
    ensures Reachable(c, t) && t == Spawn(Orphaned(s, 1), 1)
  {
    hide Reachable, Classify;
    ReachOrphaned(c, s, 1);
    ReachRespawned(c, Orphaned(s, 1), 1);
    t := Spawn(Orphaned(s, 1), 1);
  }

  /** With a retry limit of 1, a batch tried three times and never counted: the
      worker of the second attempt died between publishing its record and counting,
      and the third carries another kill count. */
  lemma PoisonMissed() returns (s: State)
    ensures Reachable(ONCE, s) && |s.workers| == 2
    ensures s.claims == [Claim(0, 0), Claim(0, 1), Claim(0, 2)] && s.runs == [Claim(0, 0), Claim(0, 2)]
    ensures s.workers[1].pc == Running(EscrowPacket(0, 2)) && Poisoned(1, 2) && s.poisoned == 0
  {
    hide Reachable;
    StartOnce();
    ReachPublished(ONCE, Start(), FIRST);
    var s0 := Start().(pub := [FIRST], w := 1);
    assert s0 == Start().(pub := Start().pub + [FIRST], w := |Start().pub| + 1);
    ReachClaimed(ONCE, s0, 1);
    var s1 := SecondAttempt(Claimed(s0, 1));
    s := MissedTail(s1);
  }

  lemma SecondAttempt(s1: State) returns (s: State)
    requires Reachable(ONCE, s1) && s1 == Claimed(Start().(pub := [FIRST], w := 1), 1)
    ensures Reachable(ONCE, s) && Shaped(ONCE, s) && s.sup == Waiting && s.escrow == [] && s.pub == [FIRST]
    ensures s.w == s.r == 1 && s.horizon == 0 && s.poisoned == 0 && s.incarn == [0, 1] && s.files == [[], []]
    ensures s.workers[1] == Worker(Alive, Counting(EscrowPacket(0, 1)), true, 0, 0, 1, [], false)
    ensures s.txn[1] == Txn(CLAIMED, 0, 1, 1, 0, 0, 0)
    ensures s.claims == [Claim(0, 0), Claim(0, 1)] && s.runs == [Claim(0, 0)]
  {
    hide Reachable;
    assert Slot([FIRST], 0) == FIRST by { SlotExact([FIRST], 0); }
    hide Slot;
    var s2 := ReachAgain(ONCE, s1);
    ReachRetried(ONCE, s2, 1);
    s := Retried(s2, 1);
  }

  lemma StartOnce()
    ensures Reachable(ONCE, Start())
  {
    assert Run(ONCE, [Start()], []);
  }

  lemma MissedTail(s3: State) returns (s: State)
    requires Reachable(ONCE, s3) && Shaped(ONCE, s3) && s3.sup == Waiting && s3.escrow == [] && s3.pub == [FIRST]
    requires s3.w == s3.r == 1 && s3.horizon == 0 && s3.poisoned == 0 && s3.incarn == [0, 1] && s3.files == [[], []]
    requires s3.workers[1] == Worker(Alive, Counting(EscrowPacket(0, 1)), true, 0, 0, 1, [], false)
    requires s3.txn[1] == Txn(CLAIMED, 0, 1, 1, 0, 0, 0)
    requires s3.claims == [Claim(0, 0), Claim(0, 1)] && s3.runs == [Claim(0, 0)]
    ensures Reachable(ONCE, s) && |s.workers| == 2
    ensures s.claims == [Claim(0, 0), Claim(0, 1), Claim(0, 2)] && s.runs == [Claim(0, 0), Claim(0, 2)]
    ensures s.workers[1].pc == Running(EscrowPacket(0, 2)) && Poisoned(1, 2) && s.poisoned == 0
  {
    hide Reachable;
    var s4 := ReachAgain(ONCE, s3);
    ReachRetried(ONCE, s4, 2);
    var s5 := Retried(s4, 2);
    Go(ONCE, s5, 1);
    s := CountPoison(ONCE, s5, 1, EscrowPacket(0, 2));
  }

  // ---------------------------------------------------- the edge of the window

  /** Worker 1 has held ticket 0 all along while worker 0 committed the others up
      to ticket k - 1. */
  ghost predicate Cruise(s: State, k: nat) {
    && Shaped(TWO, s) && |s.pub| == s.w == s.r == k >= 1
    && (forall i :: 0 <= i < k ==> s.pub[i] == Batch(i, i + 1, 0, i))
    && !s.finished && !s.pending && s.escrow == [] && s.horizon == 0 && s.sup == Waiting && s.incarn == [0, 0]
    && s.workers[0].status == Alive && s.workers[0].pc == Between && !s.workers[0].drain && !s.workers[0].armed
    && s.workers[1] == FRESH.(pc := Running(EscrowPacket(0, 0))) && s.txn[1] == Txn(CLAIMED, 0, 0, 0, 0, 0, 0)
    && s.files[1] == []
  }

  lemma {:induction false} ReachCruise(k: nat) returns (s: State)
    requires 1 <= k <= RING_SIZE
    ensures Reachable(TWO, s) && Cruise(s, k)
  {
    hide Reachable, Slot;
    if k == 1 {
      StartReachable();
      ReachPublished(TWO, Start(), FIRST);
      var s0 := Start().(pub := [FIRST], w := 1);
      assert s0 == Start().(pub := Start().pub + [FIRST], w := |Start().pub| + 1);
      ReachClaimed(TWO, s0, 1);
      s := Claimed(s0, 1);
      assert Slot(s0.pub, 0) == FIRST by { SlotExact([FIRST], 0); }
    } else {
      s := ReachCruise(k - 1);
      s := CruiseOn(s, k - 1);
    }
  }

  lemma CruiseOn(s: State, k: nat) returns (t: State)
    requires Reachable(TWO, s) && Cruise(s, k) && k < RING_SIZE
    ensures Reachable(TWO, t) && Cruise(t, k + 1)
  {
    hide Reachable, Slot;
    var b := Batch(k, k + 1, 0, k);
    ReachPublished(TWO, s, b);
    var s1 := s.(pub := s.pub + [b], w := k + 1);
    assert s1 == s.(pub := s.pub + [b], w := |s.pub| + 1);
    ReachClaimed(TWO, s1, 0);
    var s2 := Claimed(s1, 0);
    hide DoWork, Claimed, Committed;
    CruiseClaimed(s, k);
    ReachCommitted(TWO, s2, 0, EscrowPacket(k, 0));
    t := Committed(s2, 0, EscrowPacket(k, 0));
  }

  lemma CruiseClaimed(s: State, k: nat)
    requires Cruise(s, k) && k < RING_SIZE
    ensures var s2 := Claimed(s.(pub := s.pub + [Batch(k, k + 1, 0, k)], w := k + 1), 0);
      && CanWork(TWO, s2, 0, Choice.Go) && s2.workers[0].pc == Running(EscrowPacket(k, 0))
      && Cruise(Committed(s2, 0, EscrowPacket(k, 0)), k + 1)
  {
    hide Slot;
  }

  /** When a whole ring of tickets has been taken, ticket 0 comes back through
      escrow.  Its slot has not been written again, yet both escrow reads take it
      for recycled and drop it. */
  lemma WindowEdgeLoses() returns (s: State, t: State)
    ensures Reachable(TWO, s) && Enabled(TWO, s, Work(0, Choice.Go)) && LossStep(TWO, s, Work(0, Choice.Go))
    ensures s.workers[0].pc == EscrowRead(RING_SIZE, RING_SIZE)
    ensures s.escrow == [EscrowPacket(0, 1)] && |s.pub| == RING_SIZE
    ensures Reachable(TWO, t) && Enabled(TWO, t, Work(1, Choice.Go)) && LossStep(TWO, t, Work(1, Choice.Go))
    ensures t.workers[1].pc == DrainR(EscrowPacket(0, 1), RING_SIZE) && t.r == |t.pub| == RING_SIZE
  {
    hide Reachable;
    var u := ReachCruise(RING_SIZE);
    s := EdgeRingSide(u);
    t := EdgeDrainSide(u);
  }

  lemma CruiseOrphan(u: State, v: State)
    requires Cruise(u, RING_SIZE) && v == u.(workers := v.workers, txn := v.txn) && |v.workers| == |v.txn| == 2
    requires v.workers[1] == u.workers[1] && v.txn[1] == u.txn[1]
    ensures Classify(v, v.txn[1], v.incarn[1], 9) == Orphan
  {
    SlotExact(v.pub, 0);
    hide Slot;
  }

  lemma EdgeRingSide(u: State) returns (s: State)
    requires Reachable(TWO, u) && Cruise(u, RING_SIZE)
    ensures Reachable(TWO, s) && Enabled(TWO, s, Work(0, Choice.Go)) && LossStep(TWO, s, Work(0, Choice.Go))
    ensures s.workers[0].pc == EscrowRead(RING_SIZE, RING_SIZE)
    ensures s.escrow == [EscrowPacket(0, 1)] && |s.pub| == RING_SIZE
  {
    hide Reachable, Slot, Classify;
    ReachLoadR(TWO, u, 0);
    var u1 := u.(workers := u.workers[0 := u.workers[0].(pc := LoadR(u.w))],
                 txn := u.txn[0 := u.txn[0].(state := CLAIMING)]);
    Go(TWO, u1, 0);
    var u2 := SetPc(u1, 0, EscrowRead(RING_SIZE, RING_SIZE));
    CruiseOrphan(u, u2);
    ReachDeposited(TWO, u2, 1);
    s := Killed(u2, 1, EscrowPacket(0, 0));
  }

  lemma EdgeDrainSide(u: State) returns (t: State)
    requires Reachable(TWO, u) && Cruise(u, RING_SIZE)
    ensures Reachable(TWO, t) && Enabled(TWO, t, Work(1, Choice.Go)) && LossStep(TWO, t, Work(1, Choice.Go))
    ensures t.workers[1].pc == DrainR(EscrowPacket(0, 1), RING_SIZE) && t.r == |t.pub| == RING_SIZE
  {
    hide Reachable, Slot, Classify;
    CruiseOrphan(u, u);
    var u1 := ReachAgain(TWO, u);
    var p := EscrowPacket(0, 1);
    ReachDrained(TWO, u1, 1, p);
    var u2 := Drained(u1, 1, p);
    Go(TWO, u2, 1);
    t := SetPc(u2, 1, DrainR(p, RING_SIZE));
  }
}
