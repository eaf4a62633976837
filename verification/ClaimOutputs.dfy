/** Output files, retries and launches over whole runs of the claim protocol. */
module ClaimOutputs {
  import opened ClaimProtocol
  import opened ClaimConservation
  import opened ClaimInvariant
  import opened ClaimTheorems

  // ------------------------------------------------------------------ outputs

  /** Recovery stands down only in loss steps, so without them it never does. */
  lemma NeverStoodDown(c: Config, states: seq<State>, actions: seq<Action>, n: nat)
    requires Run(c, states, actions) && n < |states|
    requires forall k :: 0 <= k < |actions| ==> Enabled(c, states[k], actions[k]) && !LossStep(c, states[k], actions[k])
    ensures states[n].stoodDown == []
  {
    hide Run, Enabled, LossStep;
    RunInv(c, states, actions, n);
    if states[n].stoodDown != [] { NoLossRun(c, states, actions, n, states[n].stoodDown[0]); }
  }

  lemma {:induction false} CommittedPrefix(order: seq<OrderPacket>, k: nat, v: nat)
    requires k <= |order|
    ensures CommittedOf(order[..k], v) <= CommittedOf(order, v)
  {
    if k == |order| {
      assert order[..k] == order;
    } else {
      var front := order[..|order| - 1];
      CommittedPrefix(front, k, v);
      assert front[..k] == order[..k];
    }
  }

  /** Committing packet `k` puts its bytes right after the slot's earlier ones. */
  lemma CommittedThrough(order: seq<OrderPacket>, k: nat)
    requires k < |order|
    ensures var v := order[k].wid;
      && CommittedOf(order[..k], v) + order[k].data == CommittedOf(order[..k + 1], v)
      && CommittedOf(order[..k + 1], v) <= CommittedOf(order, v)
  {
    hide CommittedOf;
    CommittedPrefix(order, k + 1, order[k].wid);
    CommittedNext(order, k);
  }

  lemma CommittedNext(order: seq<OrderPacket>, k: nat)
    requires k < |order|
    ensures CommittedOf(order[..k], order[k].wid) + order[k].data == CommittedOf(order[..k + 1], order[k].wid)
  {
    assert order[..k] + [order[k]] == order[..k + 1];
    hide CommittedOf;
    CommittedAppend(order[..k], order[k], order[k].wid);
  }

  /** A worker slot's file is the concatenation of its committed outputs over all
      generations, followed by what the batch in flight has emitted, if and only if
      no stood-down execution of the slot had emitted anything; between batches and
      after every recovery there is no such tail. */
  lemma OutputIsCommitted(c: Config, states: seq<State>, actions: seq<Action>, n: nat, v: nat)
    requires Run(c, states, actions) && n < |states|
    requires |states[n].workers| == |states[n].files| == |states[n].txn| == |states[n].stray| && v < |states[n].files|
    ensures var s := states[n]; var wk := s.workers[v];
      && (s.files[v] == CommittedOf(s.order, v) + wk.emitted <==> s.stray[v] == 0)
      && |s.files[v]| == |CommittedOf(s.order, v)| + s.stray[v] + |wk.emitted|
      && (!wk.pc.Running? && !wk.pc.Committing? ==> wk.emitted == [])
      && (InClaim(wk.pc) ==> s.txn[v].outputStart == |s.files[v]| - |wk.emitted|)
  {
    hide Run, CommittedOf;
    RunInv(c, states, actions, n);
    var s := states[n];
    assert OutputOk(s.order, s.workers[v], s.txn[v], s.files[v], s.stray[v], v);
  }

  /** Bytes go astray in one kind of step only: recovery stands down an execution
      that had emitted them. */
  lemma StrayExactly(c: Config, states: seq<State>, actions: seq<Action>, n: nat)
    requires Run(c, states, actions) && n < |actions|
    ensures Enabled(c, states[n], actions[n])
    ensures states[n + 1].stray != states[n].stray <==>
      actions[n] == Supervise && LossStep(c, states[n], Supervise) && states[n].workers[states[n].sup.wid].emitted != []
  {
    RunInv(c, states, actions, n);
    hide Run, LossStep, Do;
    var s, a := states[n], actions[n];
    match a
    case Work(wid, choice) => WorkKeepsStray(c, s, wid, choice);
    case Supervise => SuperviseStray(c, s);
    case _ => QuietStray(c, s, a);
  }

  lemma WorkKeepsStray(c: Config, s: State, wid: nat, choice: Choice)
    requires Enabled(c, s, Work(wid, choice))
    ensures Do(c, s, Work(wid, choice)).stray == s.stray
  {
    hide EscrowIdxLive, NextPc, CountsPoison, CoredumpArmed, Slot;
  }

  lemma QuietStray(c: Config, s: State, a: Action)
    requires Enabled(c, s, a) && !a.Work? && !a.Supervise?
    ensures Do(c, s, a).stray == s.stray
  {
    hide WithinWindow, Covered;
  }

  lemma SuperviseStray(c: Config, s: State)
    requires Inv(c, s) && Enabled(c, s, Supervise)
    ensures Do(c, s, Supervise).stray != s.stray <==>
      LossStep(c, s, Supervise) && s.workers[s.sup.wid].emitted != []
  {
    hide Conserved, Launches, History, Retries, Outputs, Packets, Delivered, Ledger, Slot, Classify;
    if s.sup.Recovering? {
      var wid := s.sup.wid;
      assert RecordOk(s.pub, s.workers[wid], s.txn[wid], s.incarn[wid], false);
      if s.txn[wid].state == CLAIMED {
        ClassifyExact(c, s, wid, s.sup.code);
      } else {
        NotClears(s, s.txn[wid], s.incarn[wid], s.sup.code);
      }
    }
  }

  /** Every order packet names, in its slot's file, exactly the bytes that
      execution emitted, whatever was stood down; two packets of one slot name
      disjoint ranges in order. */
  lemma PacketsNameOutput(c: Config, states: seq<State>, actions: seq<Action>, n: nat, k: nat)
    requires Run(c, states, actions) && n < |states| && k < |states[n].order|
    ensures var s := states[n]; var p := s.order[k];
      && p.wid < |s.files| && p.off + p.len <= |s.files[p.wid]|
      && s.files[p.wid][p.off..p.off + p.len] == p.data
    ensures forall j :: 0 <= j < k && states[n].order[j].wid == states[n].order[k].wid ==>
      states[n].order[j].off + states[n].order[j].len <= states[n].order[k].off
  {
    hide Run, CommittedOf;
    RunInv(c, states, actions, n);
    var s := states[n];
    var p := s.order[k];
    assert PacketPlaced(p, s.workers, s.files, s.stray);
    assert Kept(s.files[p.wid], s.workers[p.wid].emitted) <= s.files[p.wid];
    assert PacketOk(s.order, k);
    CommittedThrough(s.order, k);
    forall j | 0 <= j < k && s.order[j].wid == p.wid ensures s.order[j].off + s.order[j].len <= p.off {
      assert PacketOk(s.order, j);
      var before := s.order[..k];
      CommittedThrough(before, j);
      assert before[..j] == s.order[..j] && before[j] == s.order[j];
    }
  }

  /** With no packet of the slot in between, the next range starts where the
      previous one ended, if and only if no bytes went astray in between; otherwise
      it starts that much later. */
  lemma PacketsConsecutive(c: Config, states: seq<State>, actions: seq<Action>, n: nat, j: nat, k: nat)
    requires Run(c, states, actions) && n < |states|
    requires j < k < |states[n].order| && states[n].order[j].wid == states[n].order[k].wid
    requires forall m :: j < m < k ==> states[n].order[m].wid != states[n].order[k].wid
    ensures states[n].order[j].stray <= states[n].order[k].stray
    ensures states[n].order[k].off
         == states[n].order[j].off + states[n].order[j].len + (states[n].order[k].stray - states[n].order[j].stray)
  {
    hide Run, CommittedOf;
    RunInv(c, states, actions, n);
    var order := states[n].order;
    assert PacketOk(order, j) && PacketOk(order, k);
    CommittedThrough(order, j);
    CommittedGap(order, j + 1, k, order[k].wid);
  }

  lemma {:induction false} CommittedGap(order: seq<OrderPacket>, j: nat, k: nat, v: nat)
    requires j <= k <= |order|
    requires forall m :: j <= m < k ==> order[m].wid != v
    ensures CommittedOf(order[..j], v) == CommittedOf(order[..k], v)
  {
    if j < k {
      CommittedGap(order, j, k - 1, v);
      CommittedAppend(order[..k - 1], order[k - 1], v);
      assert order[..k - 1] + [order[k - 1]] == order[..k];
    }
  }

  /** No frontier signalled to the drain exceeds the slot's committed length by
      more than the bytes that went astray: by none if there are none. */
  lemma SignalsBelowCommitted(c: Config, states: seq<State>, actions: seq<Action>, n: nat, j: nat)
    requires Run(c, states, actions) && n < |states| && j < |states[n].signals|
    ensures var s, v := states[n], states[n].signals[j].0;
      v < |s.stray| && s.signals[j].1 <= |CommittedOf(s.order, v)| + s.stray[v]
  {
    hide Run, CommittedOf;
    RunInv(c, states, actions, n);
    assert SignalOk(states[n].order, states[n].signals[j], states[n].stray);
  }

  lemma RunStep(c: Config, states: seq<State>, actions: seq<Action>, n: nat)
    requires Run(c, states, actions) && n < |actions|
    ensures |actions| < |states| && Enabled(c, states[n], actions[n]) && states[n + 1] == Do(c, states[n], actions[n])
  {
    hide Enabled, Do, Init;
  }

  /** When a frontier is signalled it exceeds what the slot has committed exactly by
      the bytes that went astray. */
  lemma SignalExact(c: Config, states: seq<State>, actions: seq<Action>, n: nat, v: nat, rc: nat)
    requires Run(c, states, actions) && n < |actions| && actions[n] == Supervise
    requires states[n].sup == Classified(v, rc) && rc <= 2
    ensures v < |states[n].stray|
    ensures states[n + 1].signals
         == states[n].signals + [(v, |CommittedOf(states[n].order, v)| + states[n].stray[v])]
  {
    hide *;
    RunStep(c, states, actions, n);
    RunInv(c, states, actions, n);
    WakeSignals(c, states[n], v, rc);
  }

  lemma WakeSignals(c: Config, s: State, v: nat, rc: nat)
    requires Inv(c, s) && Enabled(c, s, Supervise) && s.sup == Classified(v, rc) && rc <= 2
    ensures v < |s.stray| && Do(c, s, Supervise).signals == s.signals + [(v, |CommittedOf(s.order, v)| + s.stray[v])]
  {
    hide CommittedOf, Conserved, Launches, History, Retries, Packets, Delivered, Ledger, Bounds, RecordOk;
    assert SupervisorOk(s.workers, s.sup);
    assert OutputOk(s.order, s.workers[v], s.txn[v], s.files[v], s.stray[v], v);
  }

  // ------------------------------------------------------------------ retries

  /** How often ticket `i` was executed rather than poison-skipped. */
  ghost function Executions(limit: int, claims: seq<Claim>, i: nat): nat {
    if claims == [] then 0
    else
      var last := claims[|claims| - 1];
      Executions(limit, claims[..|claims| - 1], i) + One(last.idx == i && !Poisoned(limit, last.kills))
  }

  ghost function PoisonTimes(limit: int, claims: seq<Claim>, i: nat): nat {
    if claims == [] then 0
    else
      var last := claims[|claims| - 1];
      PoisonTimes(limit, claims[..|claims| - 1], i) + One(last.idx == i && CountsPoison(limit, last.kills))
  }

  ghost function Min(a: nat, b: nat): nat { if a < b then a else b }

  lemma CountedPrefix(claims: seq<Claim>)
    requires claims != [] && ClaimsCounted(claims)
    ensures ClaimsCounted(claims[..|claims| - 1])
    ensures claims[|claims| - 1].kills == Attempts(claims[..|claims| - 1], claims[|claims| - 1].idx)
  {
    hide Attempts;
    var front := claims[..|claims| - 1];
    forall j | 0 <= j < |front| ensures ClaimCounted(front, j) {
      assert ClaimCounted(claims, j);
      assert front[..j] == claims[..j];
    }
    assert ClaimCounted(claims, |claims| - 1);
  }

  lemma {:induction false} ExecutionsExact(limit: int, claims: seq<Claim>, i: nat)
    requires ClaimsCounted(claims)
    ensures limit < 0 ==> Executions(limit, claims, i) == Attempts(claims, i) && PoisonTimes(limit, claims, i) == 0
    ensures limit >= 0 ==>
      && Executions(limit, claims, i) == Min(Attempts(claims, i), PoisonThreshold(limit))
      && PoisonTimes(limit, claims, i) == One(Attempts(claims, i) > PoisonThreshold(limit))
  {
    if claims != [] {
      CountedPrefix(claims);
      ExecutionsExact(limit, claims[..|claims| - 1], i);
    }
  }

  /** How often attempt `k` of ticket `i` went on to run. */
  ghost function Ran(runs: seq<Claim>, i: nat, k: nat): nat {
    if runs == [] then 0 else Ran(runs[..|runs| - 1], i, k) + One(runs[|runs| - 1] == Claim(i, k))
  }

  lemma RanAppend(runs: seq<Claim>, x: Claim, i: nat, k: nat)
    ensures Ran(runs + [x], i, k) == Ran(runs, i, k) + One(x == Claim(i, k))
  {
    assert (runs + [x])[..|runs|] == runs;
  }

  ghost predicate CountingAt(s: State, v: nat, i: nat, k: nat) {
    v < |s.workers| && s.workers[v].status == Alive && s.workers[v].pc == Counting(EscrowPacket(i, k))
  }

  /** Some live worker has published that attempt and not yet counted it. */
  ghost predicate CountingNow(s: State, i: nat, k: nat) {
    exists v: nat :: CountingAt(s, v, i, k)
  }

  ghost predicate DiesCounting(s: State, a: Action, i: nat, k: nat) {
    a.Die? && CountingAt(s, a.wid, i, k)
  }

  /** A worker died between publishing that attempt and counting it. */
  ghost predicate DiedCounting(states: seq<State>, actions: seq<Action>, n: nat, i: nat, k: nat)
    requires |actions| < |states|
  {
    exists m :: 0 <= m < n && m < |actions| && DiesCounting(states[m], actions[m], i, k)
  }

  /** What a worker's step adds to the claim and run histories. */
  lemma WorkClaims(c: Config, s: State, wid: nat, choice: Choice)
    requires CanWork(c, s, wid, choice)
    ensures var pc := s.workers[wid].pc;
      DoWork(c, s, wid, choice).claims == if pc.Ready? then s.claims + [Claim(pc.pkt.idx, pc.pkt.kills)] else s.claims
  {
    hide EscrowIdxLive, NextPc, CountsPoison, CoredumpArmed, Slot;
  }

  lemma WorkRuns(c: Config, s: State, wid: nat, choice: Choice)
    requires CanWork(c, s, wid, choice)
    ensures var pc := s.workers[wid].pc;
      DoWork(c, s, wid, choice).runs == if pc.Counting? then s.runs + [Claim(pc.pkt.idx, pc.pkt.kills)] else s.runs
  {
    hide EscrowIdxLive, NextPc, CountsPoison, CoredumpArmed, Slot;
  }

  /** A step of worker `wid` makes it count exactly if it publishes. */
  ghost predicate CountsNext(s: State, t: State, wid: nat) {
    && wid < |s.workers| == |t.workers| && t.workers == s.workers[wid := t.workers[wid]]
    && (s.workers[wid].pc.Ready? ==>
        t.workers[wid].pc == Counting(s.workers[wid].pc.pkt) && t.workers[wid].status == Alive)
    && (!s.workers[wid].pc.Ready? ==> !t.workers[wid].pc.Counting?)
  }

  lemma ClaimingCounts(s: State, wid: nat)
    requires wid < |s.workers| == |s.txn| && !s.workers[wid].pc.Ready?
    ensures CountsNext(s, BeginClaim(s, wid), wid)
    ensures CountsNext(s, Rearm(s, wid), wid) && CountsNext(s, StopDrain(s, wid), wid)
    ensures CountsNext(s, LeaveAtEof(s, wid), wid)
    ensures CountsNext(s, ClearTxn(s, wid), wid) && CountsNext(s, TakeTicket(s, wid), wid)
  {
  }

  lemma PacketCounts(s: State, wid: nat, pc: Pc, i: nat)
    requires wid < |s.workers| && !s.workers[wid].pc.Ready? && !pc.Counting?
    ensures CountsNext(s, SetPc(s, wid, pc), wid)
    ensures CountsNext(s, RejectHeld(s, wid, i), wid) && CountsNext(s, Abandon(s, wid, i), wid)
    ensures s.escrow != [] ==> CountsNext(s, TakePacket(s, wid, pc), wid) && CountsNext(s, RejectPacket(s, wid), wid)
  {
  }

  lemma RunningCounts(c: Config, s: State, wid: nat, p: EscrowPacket, data: Bytes)
    requires wid < |s.workers| == |s.txn| == |s.files| == |s.stray| && s.workers[wid].status == Alive
    ensures s.workers[wid].pc == Ready(p) ==> CountsNext(s, Publish(s, wid, p), wid)
    ensures !s.workers[wid].pc.Ready? ==> CountsNext(s, CountPoison(c, s, wid, p), wid)
    ensures s.workers[wid].pc.Running? ==>
      CountsNext(s, EmitBytes(s, wid, data), wid) && CountsNext(s, BeginCommit(s, wid, p), wid)
    ensures s.workers[wid].pc.Committing? ==> CountsNext(s, SendPacket(s, wid, p), wid)
    ensures s.workers[wid].pc.AtEof? ==> CountsNext(s, SetStatus(s, wid, Dead(0)), wid)
  {
    hide Slot, CountsPoison, CoredumpArmed;
  }

  lemma NextNotCounting(s: State, pc: Pc)
    requires !pc.Counting?
    ensures !NextPc(s, pc).Counting?
  {
  }

  lemma WorkCounts(c: Config, s: State, wid: nat, choice: Choice)
    requires CanWork(c, s, wid, choice)
    ensures CountsNext(s, DoWork(c, s, wid, choice), wid)
  {
    hide BeginClaim, Rearm, StopDrain, LeaveAtEof, ClearTxn, TakeTicket, SetPc, RejectHeld, Abandon, TakePacket,
      RejectPacket, Publish, CountPoison, EmitBytes, BeginCommit, SendPacket, SetStatus, CountsNext, NextPc,
      EscrowIdxLive;
    var wk := s.workers[wid];
    if !wk.pc.Counting? { NextNotCounting(s, wk.pc); }
    match wk.pc
    case Between => ClaimingCounts(s, wid);
    case Restart => ClaimingCounts(s, wid);
    case DrainRead =>
      ClaimingCounts(s, wid);
      if wk.drain && s.escrow != [] { PacketCounts(s, wid, DrainW(s.escrow[0]), 0); }
      if !wk.drain { PacketCounts(s, wid, NextPc(s, wk.pc), 0); }
    case DrainR(p, _) => PacketCounts(s, wid, NextPc(s, wk.pc), p.idx);
    case FetchAdd => ClaimingCounts(s, wid);
    case EscrowRead(_, _) =>
      if s.escrow != [] { PacketCounts(s, wid, EvalW(s.escrow[0]), 0); }
      else { PacketCounts(s, wid, NextPc(s, wk.pc), 0); }
    case FinPoll =>
      ClaimingCounts(s, wid);
      PacketCounts(s, wid, NextPc(s, wk.pc), 0);
    case EvalFinished(p) => PacketCounts(s, wid, NextPc(s, wk.pc), p.idx);
    case WaitLastW(p) => PacketCounts(s, wid, NextPc(s, wk.pc), p.idx);
    case Ready(p) => RunningCounts(c, s, wid, p, []);
    case Counting(p) => RunningCounts(c, s, wid, p, []);
    case Running(p) =>
      if choice.Emit? { RunningCounts(c, s, wid, p, choice.data); } else { RunningCounts(c, s, wid, p, []); }
    case Committing(p) => RunningCounts(c, s, wid, p, []);
    case Sent => ClaimingCounts(s, wid);
    case AtEof => RunningCounts(c, s, wid, EscrowPacket(0, 0), []);
    case _ => PacketCounts(s, wid, NextPc(s, wk.pc), 0);
  }

  /** One more than how often the attempt ran, if it is being counted. */
  ghost function Tally(s: State, i: nat, k: nat): nat {
    Ran(s.runs, i, k) + One(CountingNow(s, i, k))
  }

  lemma NowUpdate(s: State, t: State, wid: nat, i: nat, k: nat)
    requires wid < |s.workers| == |t.workers| && t.workers == s.workers[wid := t.workers[wid]]
    ensures CountingNow(t, i, k) && !CountingAt(t, wid, i, k) ==> CountingNow(s, i, k)
    ensures CountingNow(s, i, k) && !CountingAt(s, wid, i, k) ==> CountingNow(t, i, k)
    ensures CountingAt(t, wid, i, k) ==> CountingNow(t, i, k)
  {
    if v: nat :| CountingAt(t, v, i, k) { if v != wid { assert CountingAt(s, v, i, k); } }
    if v: nat :| CountingAt(s, v, i, k) { if v != wid { assert CountingAt(t, v, i, k); } }
  }

  /** No two workers count one ticket. */
  lemma CountingAlone(c: Config, s: State, wid: nat, i: nat, k: nat, t: State)
    requires Inv(c, s) && CountingAt(s, wid, i, k) && !CountingAt(t, wid, i, k)
    requires |s.workers| == |t.workers| && t.workers == s.workers[wid := t.workers[wid]]
    ensures !CountingNow(t, i, k)
  {
    hide Launches, History, Retries, Outputs, Packets, Delivered, Ledger, Records, Bounds;
    OnlyPlace(s, wid);
    forall v: nat ensures !CountingAt(t, v, i, k) {
      if v < |s.workers| && v != wid { assert InHand(s.workers[wid].pc)[0].idx == i; }
    }
  }

  lemma WorkTally(c: Config, s: State, wid: nat, choice: Choice, i: nat, k: nat)
    requires Inv(c, s) && CanWork(c, s, wid, choice)
    requires Tally(s, i, k) <= One(Attempts(s.claims, i) > k)
    ensures var t := DoWork(c, s, wid, choice);
      Tally(t, i, k) + One(Attempts(s.claims, i) > k) == Tally(s, i, k) + One(Attempts(t.claims, i) > k)
  {
    WorkClaims(c, s, wid, choice);
    WorkRuns(c, s, wid, choice);
    WorkCounts(c, s, wid, choice);
    HandOf(s, wid);
    CountedHand(c, s, wid);
    hide Inv, DoWork;
    HistoryTally(c, s, DoWork(c, s, wid, choice), wid, i, k);
  }

  lemma CountedHand(c: Config, s: State, wid: nat)
    requires Inv(c, s) && wid < c.workers
    ensures |s.workers| == c.workers && HandCounted(s.claims, s.workers[wid].pc)
  {
    hide Conserved, History, Outputs, Packets, Delivered, Ledger, Bounds, Records, Launches;
  }

  lemma HistoryTally(c: Config, s: State, t: State, wid: nat, i: nat, k: nat)
    requires Inv(c, s) && CountsNext(s, t, wid) && HandCounted(s.claims, s.workers[wid].pc)
    requires s.workers[wid].status == Alive
    requires var pc := s.workers[wid].pc;
      && t.claims == (if pc.Ready? then s.claims + [Claim(pc.pkt.idx, pc.pkt.kills)] else s.claims)
      && t.runs == if pc.Counting? then s.runs + [Claim(pc.pkt.idx, pc.pkt.kills)] else s.runs
    requires Tally(s, i, k) <= One(Attempts(s.claims, i) > k)
    ensures Tally(t, i, k) + One(Attempts(s.claims, i) > k) == Tally(s, i, k) + One(Attempts(t.claims, i) > k)
  {
    hide Inv, Ran, Attempts, CountingNow;
    var pc := s.workers[wid].pc;
    NowUpdate(s, t, wid, i, k);
    if pc.Ready? { AttemptsAppend(s.claims, Claim(pc.pkt.idx, pc.pkt.kills), i); }
    if pc.Counting? {
      RanAppend(s.runs, Claim(pc.pkt.idx, pc.pkt.kills), i, k);
      if pc.pkt == EscrowPacket(i, k) {
        CountingThere(s, wid, i, k);
        CountingAlone(c, s, wid, i, k, t);
      }
    }
  }

  lemma SuperviseTally(c: Config, s: State, i: nat, k: nat)
    requires Inv(c, s) && CanSupervise(c, s)
    ensures var t := DoSupervise(c, s); Tally(t, i, k) == Tally(s, i, k) && t.claims == s.claims
  {
    hide Conserved, Launches, History, Retries, Outputs, Packets, Delivered, Ledger, Bounds, Ran, Classify, RecordOk,
      CountingNow;
    assert SupervisorOk(s.workers, s.sup);
    SuperviseHistory(c, s);
    NowUpdate(s, DoSupervise(c, s), s.sup.wid, i, k);
  }

  ghost predicate NotClaiming(s: State, t: State, wid: nat) {
    && wid < |s.workers| == |t.workers| && t.claims == s.claims && t.runs == s.runs
    && t.workers == s.workers[wid := t.workers[wid]]
    && (t.workers[wid].status.Alive? ==> t.workers[wid].pc == Between || t.workers[wid] == s.workers[wid])
  }

  lemma RecoverHistory(s: State, wid: nat, code: int)
    requires wid < |s.workers| == |s.txn| == |s.files| == |s.incarn| == |s.stray|
    ensures NotClaiming(s, Recover(s, wid, code), wid)
  {
    hide Classify;
  }

  lemma SpawnHistory(s: State, wid: nat)
    requires wid < |s.workers| && |s.incarn| == |s.files| == |s.workers|
    ensures NotClaiming(s, Spawn(s, wid), wid) && NotClaiming(s, SetStatus(s, wid, Freed).(sup := Waiting), wid)
  {
  }

  lemma SuperviseHistory(c: Config, s: State)
    requires CanSupervise(c, s)
    ensures NotClaiming(s, DoSupervise(c, s), s.sup.wid)
  {
    if s.sup.Recovering? {
      RecoverHistory(s, s.sup.wid, s.sup.code);
      hide Recover, NotClaiming;
    } else if s.sup.Respawning? {
      SpawnHistory(s, s.sup.wid);
      hide Spawn, SetStatus;
    }
  }

  lemma QuietTally(c: Config, s: State, a: Action, i: nat, k: nat)
    requires Inv(c, s) && Enabled(c, s, a) && !a.Work? && !a.Supervise?
    ensures var t := Do(c, s, a);
      Tally(t, i, k) + One(DiesCounting(s, a, i, k)) == Tally(s, i, k) && t.claims == s.claims
  {
    hide WithinWindow, Covered, Ran, Inv, CountingNow;
    var t := Do(c, s, a);
    if a.Die? {
      NowUpdate(s, t, a.wid, i, k);
      if CountingAt(s, a.wid, i, k) {
        CountingAlone(c, s, a.wid, i, k, t);
        CountingThere(s, a.wid, i, k);
      }
    } else {
      SameCounting(s, t, i, k);
    }
  }

  lemma CountingThere(s: State, v: nat, i: nat, k: nat)
    requires CountingAt(s, v, i, k)
    ensures CountingNow(s, i, k)
  {
  }

  lemma SameCounting(s: State, t: State, i: nat, k: nat)
    requires s.workers == t.workers
    ensures CountingNow(s, i, k) <==> CountingNow(t, i, k)
  {
    if v: nat :| CountingAt(s, v, i, k) { assert CountingAt(t, v, i, k); }
    if v: nat :| CountingAt(t, v, i, k) { assert CountingAt(s, v, i, k); }
  }

  /** Attempt k of ticket i goes on to run exactly once after it is published,
      unless its worker dies in between, or is still there. */
  lemma {:induction false} RunsExact(c: Config, states: seq<State>, actions: seq<Action>, n: nat, i: nat, k: nat)
    requires Run(c, states, actions) && n < |states|
    ensures Ran(states[n].runs, i, k) + One(CountingNow(states[n], i, k)) + One(DiedCounting(states, actions, n, i, k))
         == One(Attempts(states[n].claims, i) > k)
  {
    hide *;
    RunLength(c, states, actions);
    if n == 0 {
      NothingRan(c, states, actions, i, k);
    } else {
      RunsExact(c, states, actions, n - 1, i, k);
      RunInv(c, states, actions, n - 1);
      RunStep(c, states, actions, n - 1);
      DiedNext(states, actions, n - 1, i, k);
      NextTally(c, states[n - 1], actions[n - 1], i, k, DiedCounting(states, actions, n - 1, i, k),
                DiedCounting(states, actions, n, i, k));
    }
  }

  lemma RunLength(c: Config, states: seq<State>, actions: seq<Action>)
    requires Run(c, states, actions)
    ensures |states| == |actions| + 1
  {
    hide Enabled, Do, Init;
  }

  lemma NothingRan(c: Config, states: seq<State>, actions: seq<Action>, i: nat, k: nat)
    requires Run(c, states, actions)
    ensures Ran(states[0].runs, i, k) + One(CountingNow(states[0], i, k)) + One(DiedCounting(states, actions, 0, i, k))
         == One(Attempts(states[0].claims, i) > k)
  {
    hide Enabled, Do;
    assert Init(c, states[0]);
  }

  lemma NextTally(c: Config, s: State, a: Action, i: nat, k: nat, died: bool, died': bool)
    requires Inv(c, s) && Enabled(c, s, a) && (died' <==> died || DiesCounting(s, a, i, k))
    requires Ran(s.runs, i, k) + One(CountingNow(s, i, k)) + One(died) == One(Attempts(s.claims, i) > k)
    ensures var t := Do(c, s, a);
      Ran(t.runs, i, k) + One(CountingNow(t, i, k)) + One(died') == One(Attempts(t.claims, i) > k)
  {
    hide Inv, Do, Enabled, Ran, Attempts, CountingNow, DiesCounting;
    StepTally(c, s, a, i, k);
  }

  lemma DiedNext(states: seq<State>, actions: seq<Action>, n: nat, i: nat, k: nat)
    requires n < |actions| < |states|
    ensures DiedCounting(states, actions, n + 1, i, k)
       <==> DiedCounting(states, actions, n, i, k) || DiesCounting(states[n], actions[n], i, k)
  {
  }

  lemma StepTally(c: Config, s: State, a: Action, i: nat, k: nat)
    requires Inv(c, s) && Enabled(c, s, a) && Tally(s, i, k) <= One(Attempts(s.claims, i) > k)
    ensures var t := Do(c, s, a);
      Tally(t, i, k) + One(DiesCounting(s, a, i, k)) + One(Attempts(s.claims, i) > k)
      == Tally(s, i, k) + One(Attempts(t.claims, i) > k)
    ensures DiesCounting(s, a, i, k) ==> CountingNow(s, i, k)
  {
    hide Inv, DoWork, DoSupervise, Tally, Attempts, WithinWindow, Covered, CountingNow;
    match a
    case Work(wid, choice) => WorkTally(c, s, wid, choice, i, k);
    case Supervise => SuperviseTally(c, s, i, k);
    case Die(wid, _) =>
      QuietTally(c, s, a, i, k);
      if CountingAt(s, wid, i, k) { CountingThere(s, wid, i, k); }
    case _ => QuietTally(c, s, a, i, k);
  }

  /** Attempts below m that ran. */
  ghost function RanBelow(runs: seq<Claim>, i: nat, m: nat): nat {
    if m == 0 then 0 else RanBelow(runs, i, m - 1) + Ran(runs, i, m - 1)
  }

  lemma {:induction false} RanBelowAppend(runs: seq<Claim>, x: Claim, i: nat, m: nat)
    ensures RanBelow(runs + [x], i, m) == RanBelow(runs, i, m) + One(x.idx == i && x.kills < m)
  {
    if m > 0 {
      RanBelowAppend(runs, x, i, m - 1);
      RanAppend(runs, x, i, m - 1);
    }
  }

  lemma {:induction false} RanNone(i: nat, m: nat)
    ensures RanBelow([], i, m) == 0
  {
    if m > 0 { RanNone(i, m - 1); }
  }

  lemma {:induction false} ExecutionsBelow(limit: int, runs: seq<Claim>, i: nat)
    requires limit >= 0
    ensures Executions(limit, runs, i) == RanBelow(runs, i, PoisonThreshold(limit))
    ensures PoisonTimes(limit, runs, i) == Ran(runs, i, PoisonThreshold(limit))
  {
    if runs == [] {
      RanNone(i, PoisonThreshold(limit));
    } else {
      var front, last := runs[..|runs| - 1], runs[|runs| - 1];
      ExecutionsBelow(limit, front, i);
      RanBelowAppend(front, last, i, PoisonThreshold(limit));
      assert front + [last] == runs;
    }
  }

  lemma {:induction false} RanBounded(c: Config, states: seq<State>, actions: seq<Action>, n: nat, i: nat, m: nat)
    requires Run(c, states, actions) && n < |states|
    ensures RanBelow(states[n].runs, i, m) <= m
  {
    hide Run;
    if m > 0 {
      RanBounded(c, states, actions, n, i, m - 1);
      RunsExact(c, states, actions, n, i, m - 1);
    }
  }

  /** With a limit, every batch of every run is executed at most max(1, limit)
      times.  It is counted as poisoned at most once: exactly if it has been tried
      more often than that, except when a worker died between publishing the
      attempt that would have counted it and counting, or is there now. */
  lemma RetryBudget(c: Config, states: seq<State>, actions: seq<Action>, n: nat, i: nat)
    requires Run(c, states, actions) && n < |states| && c.retryLimit >= 0
    ensures Executions(c.retryLimit, states[n].runs, i) <= PoisonThreshold(c.retryLimit)
    ensures PoisonTimes(c.retryLimit, states[n].runs, i)
         == One(Attempts(states[n].claims, i) > PoisonThreshold(c.retryLimit)
                && !DiedCounting(states, actions, n, i, PoisonThreshold(c.retryLimit))
                && !CountingNow(states[n], i, PoisonThreshold(c.retryLimit)))
    ensures states[n].poisoned == PoisonCount(c.retryLimit, states[n].runs)
  {
    hide Run;
    RunInv(c, states, actions, n);
    ExecutionsBelow(c.retryLimit, states[n].runs, i);
    RanBounded(c, states, actions, n, i, PoisonThreshold(c.retryLimit));
    RunsExact(c, states, actions, n, i, PoisonThreshold(c.retryLimit));
  }

  lemma {:induction false} AttemptsMonotone(claims: seq<Claim>, j: nat, i: nat)
    requires j < |claims|
    ensures Attempts(claims[..j], i) + One(claims[j].idx == i) <= Attempts(claims, i)
  {
    if j < |claims| - 1 {
      AttemptsMonotone(claims[..|claims| - 1], j, i);
      assert claims[..|claims| - 1][..j] == claims[..j];
    }
  }

  /** The kill counts of one ticket strictly increase from claim to claim. */
  lemma KillsIncrease(c: Config, states: seq<State>, actions: seq<Action>, n: nat, j: nat, k: nat)
    requires Run(c, states, actions) && n < |states| && j < k < |states[n].claims|
    requires states[n].claims[j].idx == states[n].claims[k].idx
    ensures states[n].claims[j].kills < states[n].claims[k].kills
  {
    hide Run, Attempts;
    RunInv(c, states, actions, n);
    var claims := states[n].claims;
    assert ClaimCounted(claims, j) && ClaimCounted(claims, k);
    AttemptsMonotone(claims[..k], j, claims[k].idx);
    assert claims[..k][..j] == claims[..j];
  }

  // ----------------------------------------------------------------- arming

  ghost predicate ArmedOk(c: Config, wk: Worker) {
    wk.armed <==> wk.pc.Running? && CoredumpArmed(c.retryLimit, wk.pc.pkt.kills)
  }

  ghost predicate AllArmedOk(c: Config, s: State) {
    forall v :: 0 <= v < |s.workers| ==> ArmedOk(c, s.workers[v])
  }

  ghost predicate ArmedNext(c: Config, s: State, t: State, wid: nat) {
    && wid < |s.workers| == |t.workers| && t.workers == s.workers[wid := t.workers[wid]]
    && (ArmedOk(c, s.workers[wid]) ==> ArmedOk(c, t.workers[wid]))
  }

  lemma ClaimingArms(c: Config, s: State, wid: nat)
    requires wid < |s.workers| == |s.txn| && !s.workers[wid].pc.Running?
    ensures ArmedNext(c, s, BeginClaim(s, wid), wid) && ArmedNext(c, s, Rearm(s, wid), wid)
    ensures ArmedNext(c, s, StopDrain(s, wid), wid) && ArmedNext(c, s, LeaveAtEof(s, wid), wid)
    ensures ArmedNext(c, s, ClearTxn(s, wid), wid) && ArmedNext(c, s, TakeTicket(s, wid), wid)
  {
    hide CoredumpArmed;
  }

  lemma PacketArms(c: Config, s: State, wid: nat, pc: Pc, i: nat)
    requires wid < |s.workers| && !s.workers[wid].pc.Running? && !pc.Running?
    ensures ArmedNext(c, s, SetPc(s, wid, pc), wid) && ArmedNext(c, s, RejectHeld(s, wid, i), wid)
    ensures ArmedNext(c, s, Abandon(s, wid, i), wid)
    ensures s.escrow != [] ==>
      ArmedNext(c, s, TakePacket(s, wid, pc), wid) && ArmedNext(c, s, RejectPacket(s, wid), wid)
  {
    hide CoredumpArmed;
  }

  lemma RunningArms(c: Config, s: State, wid: nat, p: EscrowPacket, data: Bytes, status: Status)
    requires wid < |s.workers| == |s.txn| == |s.files| == |s.stray|
    ensures !s.workers[wid].pc.Running? ==> ArmedNext(c, s, Publish(s, wid, p), wid)
    ensures ArmedNext(c, s, CountPoison(c, s, wid, p), wid) && ArmedNext(c, s, BeginCommit(s, wid, p), wid)
    ensures s.workers[wid].pc.Running? ==> ArmedNext(c, s, EmitBytes(s, wid, data), wid)
    ensures s.workers[wid].pc.Committing? ==> ArmedNext(c, s, SendPacket(s, wid, p), wid)
    ensures ArmedNext(c, s, SetStatus(s, wid, status), wid)
  {
    hide Slot, CountsPoison, CoredumpArmed;
  }

  lemma NextNotRunning(s: State, pc: Pc)
    requires !pc.Running?
    ensures !NextPc(s, pc).Running?
  {
  }

  lemma WorkArms(c: Config, s: State, wid: nat, choice: Choice)
    requires CanWork(c, s, wid, choice)
    ensures ArmedNext(c, s, DoWork(c, s, wid, choice), wid)
  {
    hide BeginClaim, Rearm, StopDrain, LeaveAtEof, ClearTxn, TakeTicket, SetPc, RejectHeld, Abandon, TakePacket,
      RejectPacket, Publish, CountPoison, EmitBytes, BeginCommit, SendPacket, SetStatus, ArmedNext, NextPc,
      EscrowIdxLive;
    var wk := s.workers[wid];
    if !wk.pc.Running? { NextNotRunning(s, wk.pc); }
    match wk.pc
    case Between => ClaimingArms(c, s, wid);
    case Restart => ClaimingArms(c, s, wid);
    case DrainRead =>
      ClaimingArms(c, s, wid);
      if wk.drain && s.escrow != [] { PacketArms(c, s, wid, DrainW(s.escrow[0]), 0); }
      if !wk.drain { PacketArms(c, s, wid, NextPc(s, wk.pc), 0); }
    case DrainR(p, _) => PacketArms(c, s, wid, NextPc(s, wk.pc), p.idx);
    case FetchAdd => ClaimingArms(c, s, wid);
    case EscrowRead(_, _) =>
      if s.escrow != [] { PacketArms(c, s, wid, EvalW(s.escrow[0]), 0); }
      else { PacketArms(c, s, wid, NextPc(s, wk.pc), 0); }
    case FinPoll =>
      ClaimingArms(c, s, wid);
      PacketArms(c, s, wid, NextPc(s, wk.pc), 0);
    case EvalFinished(p) => PacketArms(c, s, wid, NextPc(s, wk.pc), p.idx);
    case WaitLastW(p) => PacketArms(c, s, wid, NextPc(s, wk.pc), p.idx);
    case Ready(p) => RunningArms(c, s, wid, p, [], Alive);
    case Counting(p) => RunningArms(c, s, wid, p, [], Alive);
    case Running(p) =>
      if choice.Emit? { RunningArms(c, s, wid, p, choice.data, Alive); } else { RunningArms(c, s, wid, p, [], Alive); }
    case Committing(p) => RunningArms(c, s, wid, p, [], Alive);
    case Sent => ClaimingArms(c, s, wid);
    case AtEof => RunningArms(c, s, wid, EscrowPacket(0, 0), [], Dead(0));
    case _ => PacketArms(c, s, wid, NextPc(s, wk.pc), 0);
  }

  lemma RecoverArms(c: Config, s: State, wid: nat, code: int)
    requires wid < |s.workers| == |s.txn| == |s.files| == |s.incarn| == |s.stray|
    ensures ArmedNext(c, s, Recover(s, wid, code), wid) && ArmedNext(c, s, Spawn(s, wid), wid)
  {
    hide Classify, CoredumpArmed;
  }

  lemma SuperviseArms(c: Config, s: State)
    requires CanSupervise(c, s)
    ensures ArmedNext(c, s, DoSupervise(c, s), s.sup.wid)
  {
    RecoverArms(c, s, s.sup.wid, if s.sup.Recovering? then s.sup.code else 0);
    hide Recover, Spawn, CoredumpArmed;
  }

  lemma ArmedStep(c: Config, s: State, a: Action)
    requires Enabled(c, s, a) && AllArmedOk(c, s)
    ensures AllArmedOk(c, Do(c, s, a))
  {
    hide DoWork, DoSupervise, ArmedOk, WithinWindow, Covered, SetStatus;
    match a
    case Work(wid, choice) => WorkArms(c, s, wid, choice);
    case Supervise => SuperviseArms(c, s);
    case Die(wid, code) => RunningArms(c, s, wid, EscrowPacket(0, 0), [], Dead(code));
    case _ =>
  }

  lemma {:induction false} ArmedRun(c: Config, states: seq<State>, actions: seq<Action>, n: nat)
    requires Run(c, states, actions) && n < |states|
    ensures AllArmedOk(c, states[n])
  {
    if n == 0 {
      assert Init(c, states[0]);
    } else {
      ArmedRun(c, states, actions, n - 1);
      hide Enabled, Do, Init, AllArmedOk;
      ArmedStep(c, states[n - 1], actions[n - 1]);
    }
  }

  /** In every state of every run a worker leaves a core file if it crashes exactly
      while it runs a retry that is its batch's last: one that runs, and whose
      failure is poisoned. */
  lemma ArmedExactly(c: Config, states: seq<State>, actions: seq<Action>, n: nat, v: nat)
    requires Run(c, states, actions) && n < |states| && v < |states[n].workers|
    ensures var wk := states[n].workers[v];
      wk.armed <==> wk.pc.Running? && wk.pc.pkt.kills > 0
                    && !Poisoned(c.retryLimit, wk.pc.pkt.kills) && Poisoned(c.retryLimit, wk.pc.pkt.kills + 1)
  {
    hide Run;
    ArmedRun(c, states, actions, n);
    assert ArmedOk(c, states[n].workers[v]);
  }

  // ---------------------------------------------------------------- launcher

  /** Every claimed or committing record carries the generation the supervisor
      holds for its slot. */
  lemma RecordsCurrent(c: Config, states: seq<State>, actions: seq<Action>, n: nat, v: nat)
    requires Run(c, states, actions) && n < |states|
    requires |states[n].workers| == |states[n].txn| == |states[n].incarn| && v < |states[n].txn|
    requires states[n].txn[v].state == CLAIMED || states[n].txn[v].state == COMMITTING
    requires !HandingOver(states[n].sup, v)
    ensures states[n].txn[v].incarnation == states[n].incarn[v]
  {
    hide Run;
    RunInv(c, states, actions, n);
    var s := states[n];
    assert RecordOk(s.pub, s.workers[v], s.txn[v], s.incarn[v], HandingOver(s.sup, v));
  }

  /** A nonnegative respawn cap bounds the forks of every run. */
  lemma ForksBounded(c: Config, states: seq<State>, actions: seq<Action>, n: nat)
    requires Run(c, states, actions) && n < |states| && c.respawnCap >= 0
    ensures states[n].forks <= c.workers * (c.respawnCap + 1)
  {
    RunInv(c, states, actions, n);
    LaunchesOf(c, states[n]);
    hide *;
    ForksBound(c, states[n].incarn, states[n].forks);
  }

  lemma LaunchesOf(c: Config, s: State)
    requires Inv(c, s)
    ensures Launches(c, s.incarn, s.forks) && |s.incarn| == c.workers
  {
    hide Conserved, History, Retries, Outputs, Packets, Delivered, Ledger, Bounds, Records, Launches;
  }

  lemma ForksBound(c: Config, incarn: seq<nat>, forks: nat)
    requires Launches(c, incarn, forks) && |incarn| == c.workers && c.respawnCap >= 0
    ensures forks <= c.workers * (c.respawnCap + 1)
  {
    SumBound(incarn, c.respawnCap);
    assert c.workers * (c.respawnCap + 1) == c.workers * c.respawnCap + c.workers;
  }
}
