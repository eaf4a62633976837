/** Where the protocol gets to when one actor goes on alone: every way out of the
    claim loop is taken, a claimed batch is committed, and supervision brings a dead
    worker's batch back. */
module ClaimProgress {
  import opened ClaimProtocol
  import opened ClaimInvariant

  /** Worker `wid` gets from s to t in n steps with nobody else moving. */
  ghost predicate Alone(c: Config, s: State, wid: nat, n: nat, t: State)
    decreases n
  {
    if n == 0 then t == s
    else CanWork(c, s, wid, Choice.Go) && Alone(c, DoWork(c, s, wid, Choice.Go), wid, n - 1, t)
  }

  lemma AloneStep(c: Config, s: State, wid: nat, n: nat, t: State)
    requires CanWork(c, s, wid, Choice.Go) && Alone(c, DoWork(c, s, wid, Choice.Go), wid, n, t)
    ensures Alone(c, s, wid, n + 1, t)
  {
    hide DoWork, CanWork;
  }

  lemma {:induction false} AloneJoin(c: Config, s: State, wid: nat, m: nat, t: State, n: nat, u: State)
    requires Alone(c, s, wid, m, t) && Alone(c, t, wid, n, u)
    ensures Alone(c, s, wid, m + n, u)
    decreases m
  {
    hide DoWork, CanWork;
    if m > 0 {
      AloneJoin(c, DoWork(c, s, wid, Choice.Go), wid, m - 1, t, n, u);
      AloneStep(c, s, wid, m - 1 + n, u);
    }
  }

  /** Worker `wid` lives. */
  ghost predicate Lives(c: Config, s: State, wid: nat) {
    Shaped(c, s) && wid < c.workers && s.workers[wid].status == Alive
  }

  /** What a claim leaves alone: the ring, the other workers, outputs and packets. */
  ghost predicate OnlyClaims(s: State, t: State, wid: nat) {
    && t == s.(workers := t.workers, txn := t.txn, pending := t.pending, escrow := t.escrow, r := t.r,
               abandoned := t.abandoned)
    && wid < |s.workers| == |t.workers| == |s.txn| == |t.txn|
    && t.workers == s.workers[wid := t.workers[wid]] && t.txn == s.txn[wid := t.txn[wid]]
    && t.workers[wid] == s.workers[wid].(pc := t.workers[wid].pc, drain := t.workers[wid].drain)
  }

  lemma ClaimsJoin(s: State, t: State, u: State, wid: nat)
    requires OnlyClaims(s, t, wid) && OnlyClaims(t, u, wid)
    ensures OnlyClaims(s, u, wid)
  {
  }

  // ---- The end of the input ----

  /** In the claim loop, with no ticket in hand or one that nothing was published for. */
  predicate Empty(w: nat, pc: Pc) {
    match pc
    case Between => true
    case Restart => true
    case DrainRead => true
    case LoadW => true
    case LoadR(_) => true
    case FetchAdd => true
    case EscrowRead(_, _) => true
    case CheckFinished => true
    case FinLoadR => true
    case FinLoadW(_) => true
    case FinPoll => true
    case EvalW(p) => w <= p.idx
    case EvalFinished(p) => w <= p.idx
    case WaitW(p) => w <= p.idx
    case WaitFinished(p) => w <= p.idx
    case WaitLastW(p) => w <= p.idx
    case _ => false
  }

  /** How many steps it is from the end of the input at most. */
  function ToEof(w: nat, r: nat, pc: Pc): nat {
    match pc
    case FinPoll => 1
    case FinLoadW(rSnap) => if rSnap < w then 8 else 2
    case FinLoadR => 3
    case CheckFinished => 4
    case EscrowRead(_, _) => 5
    case LoadR(wSnap) => if r < wSnap then 13 else 6
    case LoadW => 7
    case DrainRead => 8
    case Restart => 9
    case FetchAdd => 12
    case EvalW(_) => 11
    case WaitW(_) => 12
    case WaitFinished(_) => 11
    case _ => 10
  }

  /** All three conditions for the end of the input hold. */
  ghost predicate Over(c: Config, s: State, wid: nat) {
    Lives(c, s, wid) && s.finished && s.w <= s.r && s.escrow == [] && Empty(s.w, s.workers[wid].pc)
  }

  ghost predicate Nearer(c: Config, s: State, t: State, wid: nat)
    requires wid < |s.workers|
  {
    && OnlyClaims(s, t, wid) && t.escrow == []
    && if s.workers[wid].pc.FinPoll? then t.workers[wid].pc == AtEof && t.txn[wid].state == IDLE
       else Over(c, t, wid) && ToEof(t.w, t.r, t.workers[wid].pc) < ToEof(s.w, s.r, s.workers[wid].pc)
  }

  predicate Overshot(pc: Pc) {
    pc.EvalW? || pc.EvalFinished? || pc.WaitW? || pc.WaitFinished? || pc.WaitLastW?
  }

  lemma OvershotStep(c: Config, s: State, wid: nat)
    requires Over(c, s, wid) && Overshot(s.workers[wid].pc)
    ensures CanWork(c, s, wid, Choice.Go) && Nearer(c, s, DoWork(c, s, wid, Choice.Go), wid)
  {
    match s.workers[wid].pc {
      case EvalW(_) =>
      case EvalFinished(_) =>
      case WaitW(_) =>
      case WaitFinished(_) =>
      case WaitLastW(_) =>
    }
  }

  predicate Checking(pc: Pc) {
    pc.CheckFinished? || pc.FinLoadR? || pc.FinLoadW? || pc.FinPoll? || pc.EscrowRead?
  }

  lemma CheckingStep(c: Config, s: State, wid: nat)
    requires Over(c, s, wid) && Checking(s.workers[wid].pc)
    ensures CanWork(c, s, wid, Choice.Go) && Nearer(c, s, DoWork(c, s, wid, Choice.Go), wid)
  {
    match s.workers[wid].pc {
      case EscrowRead(_, _) =>
      case CheckFinished =>
      case FinLoadR =>
      case FinLoadW(_) =>
      case FinPoll =>
    }
  }

  lemma LoopStep(c: Config, s: State, wid: nat)
    requires Over(c, s, wid) && !Checking(s.workers[wid].pc) && !Overshot(s.workers[wid].pc)
    ensures CanWork(c, s, wid, Choice.Go) && Nearer(c, s, DoWork(c, s, wid, Choice.Go), wid)
  {
    match s.workers[wid].pc {
      case Between =>
      case Restart =>
      case DrainRead =>
      case LoadW =>
      case LoadR(_) =>
      case FetchAdd =>
    }
  }

  lemma OverStep(c: Config, s: State, wid: nat)
    requires Over(c, s, wid)
    ensures CanWork(c, s, wid, Choice.Go) && Nearer(c, s, DoWork(c, s, wid, Choice.Go), wid)
  {
    assert wid < |s.workers|;
    hide *;
    if Checking(s.workers[wid].pc) { CheckingStep(c, s, wid); }
    else if Overshot(s.workers[wid].pc) { OvershotStep(c, s, wid); }
    else { LoopStep(c, s, wid); }
  }

  /** With the scanner finished, every ticket taken and the escrow pipe empty, a
      worker anywhere in the claim loop returns the end of the input within 13 steps
      of its own. */
  lemma {:induction false} EofReturned(c: Config, s: State, wid: nat) returns (n: nat, t: State)
    requires Over(c, s, wid)
    ensures n <= ToEof(s.w, s.r, s.workers[wid].pc) <= 13 && Alone(c, s, wid, n, t) && OnlyClaims(s, t, wid)
    ensures t.workers[wid].pc == AtEof && t.txn[wid].state == IDLE && t.escrow == []
    decreases ToEof(s.w, s.r, s.workers[wid].pc)
  {
    OverStep(c, s, wid);
    hide DoWork, CanWork, OnlyClaims, Lives, Empty;
    var u := DoWork(c, s, wid, Choice.Go);
    if s.workers[wid].pc.FinPoll? {
      n, t := 1, u;
      assert Alone(c, u, wid, 0, u);
    } else {
      n, t := EofReturned(c, u, wid);
      ClaimsJoin(s, u, t, wid);
      AloneStep(c, s, wid, n, t);
      n := n + 1;
    }
  }

  // ---- The next ticket ----

  /** A published ticket waits, and the worker is in the claim loop with nothing in
      hand: past the escrow pipe, or that is empty. */
  ghost predicate Due(c: Config, s: State, wid: nat) {
    && Lives(c, s, wid) && s.r < s.w
    && match s.workers[wid].pc
       case LoadW => true
       case FetchAdd => true
       case LoadR(wSnap) => s.escrow == [] || s.r < wSnap
       case Between => s.escrow == []
       case Restart => s.escrow == []
       case DrainRead => s.escrow == []
       case EscrowRead(_, _) => s.escrow == []
       case CheckFinished => s.escrow == []
       case FinLoadR => s.escrow == []
       case FinLoadW(_) => s.escrow == []
       case _ => false
  }

  function ToTicket(r: nat, pc: Pc): nat {
    match pc
    case FetchAdd => 0
    case LoadR(wSnap) => if r < wSnap then 1 else 8
    case LoadW => 2
    case FinLoadW(_) => 3
    case FinLoadR => 4
    case CheckFinished => 5
    case EscrowRead(_, _) => 6
    case DrainRead => 3
    case Restart => 4
    case _ => 5
  }

  lemma DueStep(c: Config, s: State, wid: nat)
    requires Due(c, s, wid) && PcBound(s.w, s.r, s.finished, s.workers[wid].pc) && !s.workers[wid].pc.FetchAdd?
    ensures CanWork(c, s, wid, Choice.Go)
    ensures var t := DoWork(c, s, wid, Choice.Go);
      && OnlyClaims(s, t, wid) && t.escrow == s.escrow && t.r == s.r
      && Due(c, t, wid) && PcBound(t.w, t.r, t.finished, t.workers[wid].pc)
      && ToTicket(t.r, t.workers[wid].pc) < ToTicket(s.r, s.workers[wid].pc)
  {
  }

  /** The fetch-add and the check of the write index. */
  lemma TakesDue(c: Config, s: State, wid: nat) returns (t: State)
    requires Due(c, s, wid) && s.workers[wid].pc.FetchAdd?
    ensures Alone(c, s, wid, 2, t) && OnlyClaims(s, t, wid) && t.escrow == s.escrow
    ensures t.workers[wid].pc == Ready(EscrowPacket(s.r, 0)) && t.r == s.r + 1
  {
    var u := TakeTicket(s, wid);
    assert DoWork(c, s, wid, Choice.Go) == u;
    t := SetPc(u, wid, Ready(EscrowPacket(s.r, 0)));
    assert DoWork(c, u, wid, Choice.Go) == t;
    hide DoWork;
    assert Alone(c, t, wid, 0, t);
    AloneStep(c, u, wid, 0, t);
    AloneStep(c, s, wid, 1, t);
  }

  /** With a published ticket waiting it comes out with that ticket, within 10 steps
      of its own. */
  lemma {:induction false} TicketTaken(c: Config, s: State, wid: nat) returns (n: nat, t: State)
    requires Due(c, s, wid) && PcBound(s.w, s.r, s.finished, s.workers[wid].pc)
    ensures n <= ToTicket(s.r, s.workers[wid].pc) + 2 <= 10 && Alone(c, s, wid, n, t) && OnlyClaims(s, t, wid)
    ensures t.workers[wid].pc == Ready(EscrowPacket(s.r, 0)) && t.r == s.r + 1 && t.escrow == s.escrow
    decreases ToTicket(s.r, s.workers[wid].pc)
  {
    if s.workers[wid].pc.FetchAdd? {
      t := TakesDue(c, s, wid);
      n := 2;
    } else {
      DueStep(c, s, wid);
      hide DoWork, CanWork, OnlyClaims, Due, PcBound;
      var u := DoWork(c, s, wid, Choice.Go);
      n, t := TicketTaken(c, u, wid);
      ClaimsJoin(s, u, t, wid);
      AloneStep(c, s, wid, n, t);
      n := n + 1;
    }
  }

  // ---- The oldest packet ----

  /** The pipe's oldest packet is live, and the worker is in the claim loop with
      nothing in hand and will look into the pipe before the ring: it was told to,
      or the ring has nothing.  Snapshots it already holds must be good enough. */
  ghost predicate Offered(c: Config, s: State, wid: nat) {
    && Lives(c, s, wid) && s.escrow != [] && EscrowIdxLive(s.escrow[0].idx, s.w, s.r)
    && match s.workers[wid].pc
       case Between => s.workers[wid].drain || s.pending || s.w <= s.r
       case Restart => s.workers[wid].drain || s.pending || s.w <= s.r
       case DrainRead => s.workers[wid].drain || s.w <= s.r
       case LoadW => s.w <= s.r
       case LoadR(wSnap) => wSnap <= s.r && EscrowIdxLive(s.escrow[0].idx, wSnap, s.r)
       case EscrowRead(wSnap, rSnap) => EscrowIdxLive(s.escrow[0].idx, wSnap, rSnap)
       case CheckFinished => s.w <= s.r
       case FinLoadR => s.w <= s.r
       case FinLoadW(_) => s.w <= s.r
       case FinPoll => s.w <= s.r
       case _ => false
  }

  function ToPacket(pc: Pc): nat {
    match pc
    case EscrowRead(_, _) => 1
    case LoadR(_) => 2
    case LoadW => 3
    case DrainRead => 4
    case FinPoll => 4
    case FinLoadW(_) => 5
    case FinLoadR => 6
    case CheckFinished => 7
    case Restart => 5
    case _ => 6
  }

  /** It reads the pipe in this step. */
  predicate Reads(wk: Worker) {
    wk.pc.EscrowRead? || (wk.pc.DrainRead? && wk.drain)
  }

  lemma OfferedStep(c: Config, s: State, wid: nat)
    requires Offered(c, s, wid) && !Reads(s.workers[wid])
    ensures CanWork(c, s, wid, Choice.Go)
    ensures var t := DoWork(c, s, wid, Choice.Go);
      && OnlyClaims(s, t, wid) && t.escrow == s.escrow && t.r == s.r
      && Offered(c, t, wid) && ToPacket(t.workers[wid].pc) < ToPacket(s.workers[wid].pc)
  {
    match s.workers[wid].pc {
      case Between =>
      case Restart =>
      case DrainRead =>
      case FinLoadW(_) =>
      case FinPoll =>
      case _ =>
    }
  }

  lemma ReadsPastRing(c: Config, s: State, wid: nat) returns (t: State)
    requires Offered(c, s, wid) && s.workers[wid].pc.EscrowRead?
    ensures Alone(c, s, wid, 2, t) && OnlyClaims(s, t, wid) && t.r == s.r
    ensures t.workers[wid].pc == Ready(s.escrow[0]) && t.escrow == s.escrow[1..]
  {
    var p := s.escrow[0];
    var u := TakePacket(s, wid, EvalW(p));
    assert DoWork(c, s, wid, Choice.Go) == u;
    t := EvaluatesTo(c, u, wid, p);
    hide DoWork;
    AloneStep(c, s, wid, 1, t);
  }

  lemma ReadsDraining(c: Config, s: State, wid: nat) returns (t: State)
    requires Offered(c, s, wid) && s.workers[wid].pc.DrainRead? && s.workers[wid].drain
    ensures Alone(c, s, wid, 4, t) && OnlyClaims(s, t, wid) && t.r == s.r
    ensures t.workers[wid].pc == Ready(s.escrow[0]) && t.escrow == s.escrow[1..]
  {
    var p := s.escrow[0];
    var u := TakePacket(s, wid, DrainW(p));
    assert DoWork(c, s, wid, Choice.Go) == u;
    var x := Passes(c, u, wid, p);
    t := EvaluatesTo(c, x, wid, p);
    hide DoWork;
    AloneJoin(c, u, wid, 2, x, 1, t);
    AloneStep(c, s, wid, 3, t);
  }

  /** A live packet passes the window test of the drain. */
  lemma Passes(c: Config, s: State, wid: nat, p: EscrowPacket) returns (t: State)
    requires Lives(c, s, wid) && s.workers[wid].pc == DrainW(p) && EscrowIdxLive(p.idx, s.w, s.r)
    ensures t == SetPc(s, wid, EvalW(p)) && Alone(c, s, wid, 2, t)
  {
    var v := SetPc(s, wid, DrainR(p, s.w));
    assert DoWork(c, s, wid, Choice.Go) == v;
    t := SetPc(v, wid, EvalW(p));
    assert DoWork(c, v, wid, Choice.Go) == t;
    hide DoWork;
    assert Alone(c, t, wid, 0, t);
    AloneStep(c, v, wid, 0, t);
    AloneStep(c, s, wid, 1, t);
  }

  lemma EvaluatesTo(c: Config, s: State, wid: nat, p: EscrowPacket) returns (t: State)
    requires Lives(c, s, wid) && s.workers[wid].pc == EvalW(p) && p.idx < s.w
    ensures t == SetPc(s, wid, Ready(p)) && Alone(c, s, wid, 1, t)
  {
    t := SetPc(s, wid, Ready(p));
    assert DoWork(c, s, wid, Choice.Go) == t;
    hide DoWork;
    assert Alone(c, t, wid, 0, t);
  }

  /** With a live packet at the front of the pipe it comes out with that packet,
      kill count and all, within 10 steps of its own. */
  lemma {:induction false} PacketTaken(c: Config, s: State, wid: nat) returns (n: nat, t: State)
    requires Offered(c, s, wid)
    ensures n <= ToPacket(s.workers[wid].pc) + 4 <= 11 && Alone(c, s, wid, n, t) && OnlyClaims(s, t, wid)
    ensures t.workers[wid].pc == Ready(s.escrow[0]) && t.escrow == s.escrow[1..] && t.r == s.r
    decreases ToPacket(s.workers[wid].pc)
  {
    if s.workers[wid].pc.EscrowRead? {
      t := ReadsPastRing(c, s, wid);
      n := 2;
    } else if Reads(s.workers[wid]) {
      t := ReadsDraining(c, s, wid);
      n := 4;
    } else {
      OfferedStep(c, s, wid);
      hide DoWork, CanWork, OnlyClaims, Offered, Reads;
      var u := DoWork(c, s, wid, Choice.Go);
      n, t := PacketTaken(c, u, wid);
      ClaimsJoin(s, u, t, wid);
      AloneStep(c, s, wid, n, t);
      n := n + 1;
    }
  }

  // ---- A ticket in hand ----

  /** The ticket in hand is published, and the worker has not seen the scanner finish
      before it was. */
  ghost predicate Held(c: Config, s: State, wid: nat, p: EscrowPacket) {
    && Lives(c, s, wid) && p.idx < s.w
    && match s.workers[wid].pc
       case EvalW(q) => q == p
       case EvalFinished(q) => q == p && !s.finished
       case WaitW(q) => q == p
       case WaitFinished(q) => q == p
       case WaitLastW(q) => q == p
       case _ => false
  }

  function ToReady(pc: Pc): nat {
    match pc
    case WaitFinished(_) => 3
    case EvalFinished(_) => 3
    case _ => 1
  }

  lemma HeldStep(c: Config, s: State, wid: nat, p: EscrowPacket)
    requires Held(c, s, wid, p)
    ensures CanWork(c, s, wid, Choice.Go)
    ensures var t := DoWork(c, s, wid, Choice.Go);
      && t == SetPc(s, wid, t.workers[wid].pc)
      && (t.workers[wid].pc == Ready(p)
          || (Held(c, t, wid, p) && ToReady(t.workers[wid].pc) < ToReady(s.workers[wid].pc)))
  {
    match s.workers[wid].pc {
      case EvalW(_) =>
      case EvalFinished(_) =>
      case WaitW(_) =>
      case WaitFinished(_) =>
      case WaitLastW(_) =>
    }
  }

  /** A worker that waits for the ticket it holds to be published comes out with it
      within 3 steps of its own once it is. */
  lemma {:induction false} HeldTaken(c: Config, s: State, wid: nat, p: EscrowPacket) returns (n: nat, t: State)
    requires Held(c, s, wid, p)
    ensures n <= ToReady(s.workers[wid].pc) <= 3 && Alone(c, s, wid, n, t) && t == SetPc(s, wid, Ready(p))
    decreases ToReady(s.workers[wid].pc)
  {
    HeldStep(c, s, wid, p);
    hide DoWork, CanWork, Held;
    var u := DoWork(c, s, wid, Choice.Go);
    if u.workers[wid].pc == Ready(p) {
      n, t := 1, u;
      assert Alone(c, u, wid, 0, u);
    } else {
      n, t := HeldTaken(c, u, wid, p);
      AloneStep(c, s, wid, n, t);
      n := n + 1;
    }
  }

  // ---- From the claim to the acknowledgement ----

  /** The worker has ticket p.idx; alone it publishes its record and runs it. */
  lemma Starts(c: Config, s: State, wid: nat, p: EscrowPacket) returns (t: State)
    requires Lives(c, s, wid) && s.workers[wid].pc == Ready(p)
    ensures Alone(c, s, wid, 2, t) && t == CountPoison(c, Publish(s, wid, p), wid, p)
  {
    hide Slot;
    var u := Publish(s, wid, p);
    assert DoWork(c, s, wid, Choice.Go) == u;
    t := CountPoison(c, u, wid, p);
    assert DoWork(c, u, wid, Choice.Go) == t;
    hide DoWork;
    assert Alone(c, t, wid, 0, t);
    AloneStep(c, u, wid, 0, t);
    AloneStep(c, s, wid, 1, t);
  }

  /** A running batch is committed within three steps of its worker's own: one packet
      with its ticket and everything it has emitted, and the record is clear. */
  lemma Commits(c: Config, s: State, wid: nat, p: EscrowPacket) returns (t: State)
    requires Lives(c, s, wid) && s.workers[wid].pc == Running(p)
    ensures Alone(c, s, wid, 3, t) && Committed(s, t, wid, p.idx, s.workers[wid].emitted)
  {
    var u := BeginCommit(s, wid, p);
    assert DoWork(c, s, wid, Choice.Go) == u;
    var v := SendPacket(u, wid, p);
    assert DoWork(c, u, wid, Choice.Go) == v;
    t := ClearTxn(v, wid);
    assert DoWork(c, v, wid, Choice.Go) == t;
    hide DoWork;
    assert Alone(c, t, wid, 0, t);
    AloneStep(c, v, wid, 0, t);
    AloneStep(c, u, wid, 1, t);
    AloneStep(c, s, wid, 2, t);
  }

  /** Worker `wid` is between batches again, and one more packet is in the order
      pipe: its slot, ticket i, these bytes. */
  ghost predicate Committed(s: State, t: State, wid: nat, i: nat, data: Bytes) {
    && |t.order| == |s.order| + 1 && t.order[..|s.order|] == s.order
    && t.order[|s.order|].wid == wid && t.order[|s.order|].idx == i && t.order[|s.order|].data == data
    && wid < |t.workers| == |t.txn| && t.workers[wid].pc == Between && t.txn[wid].state == IDLE
    && t.workers[wid].status == Alive && !t.workers[wid].armed && t.files == s.files
  }

  lemma ServesReady(c: Config, s: State, wid: nat, p: EscrowPacket) returns (t: State)
    requires Lives(c, s, wid) && s.workers[wid].pc == Ready(p)
    ensures Alone(c, s, wid, 5, t) && Committed(s, t, wid, p.idx, s.workers[wid].emitted)
  {
    var u := Starts(c, s, wid, p);
    hide Slot, Alone;
    t := Commits(c, u, wid, p);
    AloneJoin(c, s, wid, 2, u, 3, t);
  }

  /** A claim changes none of what the commit speaks of. */
  lemma ServesAfter(c: Config, s: State, n: nat, u: State, wid: nat, p: EscrowPacket) returns (t: State)
    requires Lives(c, s, wid) && Alone(c, s, wid, n, u) && OnlyClaims(s, u, wid) && u.workers[wid].pc == Ready(p)
    ensures Alone(c, s, wid, n + 5, t) && Committed(s, t, wid, p.idx, s.workers[wid].emitted)
  {
    assert Lives(c, u, wid) && u.order == s.order && u.files == s.files;
    assert u.workers[wid].emitted == s.workers[wid].emitted;
    hide *;
    t := ServesReady(c, u, wid, p);
    AloneJoin(c, s, wid, n, u, 5, t);
    CommittedSince(s, u, t, wid, p.idx, s.workers[wid].emitted);
  }

  lemma CommittedSince(s: State, u: State, t: State, wid: nat, i: nat, data: Bytes)
    requires u.order == s.order && u.files == s.files && Committed(u, t, wid, i, data)
    ensures Committed(s, t, wid, i, data)
  {
  }

  /** With a published ticket waiting, a live worker in the claim loop commits that
      ticket within 15 steps of its own. */
  lemma TicketServed(c: Config, s: State, wid: nat) returns (n: nat, t: State)
    requires Inv(c, s) && Due(c, s, wid)
    ensures n <= 15 && Alone(c, s, wid, n, t) && Committed(s, t, wid, s.r, s.workers[wid].emitted)
  {
    assert PcBound(s.w, s.r, s.finished, s.workers[wid].pc) by { hide Ledger, Records, Outputs, Packets; }
    hide Inv, PcBound;
    var u;
    n, u := TicketTaken(c, s, wid);
    hide Alone, DoWork, OnlyClaims, Committed;
    t := ServesAfter(c, s, n, u, wid, EscrowPacket(s.r, 0));
    n := n + 5;
  }

  /** With a live packet at the front of the pipe it commits that packet's ticket,
      within 16. */
  lemma PacketServed(c: Config, s: State, wid: nat) returns (n: nat, t: State)
    requires Offered(c, s, wid)
    ensures n <= 16 && Alone(c, s, wid, n, t) && Committed(s, t, wid, s.escrow[0].idx, s.workers[wid].emitted)
  {
    var u;
    n, u := PacketTaken(c, s, wid);
    hide Alone, DoWork, OnlyClaims, Committed;
    t := ServesAfter(c, s, n, u, wid, s.escrow[0]);
    n := n + 5;
  }

  // ---- Supervision ----

  /** The supervision loop gets from s to t in n steps with nobody else moving. */
  ghost predicate Supervised(c: Config, s: State, n: nat, t: State)
    decreases n
  {
    if n == 0 then t == s else CanSupervise(c, s) && Supervised(c, DoSupervise(c, s), n - 1, t)
  }

  lemma SupervisedStep(c: Config, s: State, n: nat, t: State)
    requires CanSupervise(c, s) && Supervised(c, DoSupervise(c, s), n, t)
    ensures Supervised(c, s, n + 1, t)
  {
    hide DoSupervise, CanSupervise;
  }

  /** A replacement would be one too many. */
  predicate Capped(c: Config, s: State, wid: nat)
    requires wid < |s.incarn|
  {
    c.respawnCap >= 0 && s.incarn[wid] >= c.respawnCap
  }

  /** The slot has a new worker of the next generation, at the end of its file. */
  ghost predicate Replaced(s: State, t: State, wid: nat) {
    && wid < |s.workers| == |t.workers| && |s.incarn| == |t.incarn| == |t.files| == |s.workers|
    && t.workers == s.workers[wid := Worker(Alive, Between, false, |t.files[wid]|, |t.files[wid]|, s.incarn[wid] + 1,
                                            [], false)]
    && t.incarn == s.incarn[wid := s.incarn[wid] + 1] && t.forks == s.forks + 1 && t.sup == Waiting
  }

  /** What follows a verdict: exit 2 frees the slot, any other either replaces the
      worker or, at the cap, ends the loop. */
  ghost predicate Settled(c: Config, s: State, t: State, wid: nat, rc: nat) {
    && Shaped(c, s) && wid < c.workers && |t.files| == c.workers
    && t.files == s.files && t.signals == s.signals + (if rc <= 2 then [(wid, |s.files[wid]|)] else [])
    && t.escrow == s.escrow && t.pending == s.pending && t.txn == s.txn && t.order == s.order
    && (t.pub, t.w, t.r) == (s.pub, s.w, s.r)
    && if rc == 2 then t.sup == Waiting && t.workers == s.workers[wid := s.workers[wid].(status := Freed)]
       else if Capped(c, s, wid) then t.sup == Aborted && t.workers == s.workers
       else Replaced(s, t, wid)
  }

  lemma Settles(c: Config, s: State, wid: nat, rc: nat) returns (t: State)
    requires Shaped(c, s) && wid < c.workers && s.sup == Classified(wid, rc)
    ensures Supervised(c, s, 2, t) && Settled(c, s, t, wid, rc)
  {
    var u := Wake(s, wid, rc);
    assert DoSupervise(c, s) == u;
    t := DoSupervise(c, u);
    hide DoSupervise;
    assert Supervised(c, t, 0, t);
    SupervisedStep(c, u, 0, t);
    SupervisedStep(c, s, 1, t);
  }

  /** A death whose batch must be run again: within 5 steps of the loop alone the
      worker's file is cut back to its acknowledged length, the batch is in the
      escrow pipe with one kill more, workers are told to look there, and the slot
      has its next generation, unless the cap is reached. */
  lemma OrphanReturned(c: Config, s: State, wid: nat, code: int) returns (t: State)
    requires Shaped(c, s) && wid < c.workers && s.sup == Recovering(wid, code)
    requires Classify(s, s.txn[wid], s.incarn[wid], code) == Orphan
    ensures Supervised(c, s, 5, t)
    ensures t.escrow == s.escrow + [EscrowPacket(s.txn[wid].idx, s.txn[wid].kills + 1)] && t.pending
    ensures t.txn == s.txn[wid := s.txn[wid].(state := IDLE)] && t.order == s.order
    ensures t.files == Deposit(s, wid).files && (t.pub, t.w, t.r) == (s.pub, s.w, s.r)
    ensures if Capped(c, s, wid) then t.sup == Aborted else Replaced(Deposit(s, wid), t, wid)
  {
    hide Classify;
    var u := Deposit(s, wid);
    assert DoSupervise(c, s) == u;
    var v := u.(pending := true, sup := Flagged(wid));
    assert DoSupervise(c, u) == v;
    var x := SetTxnState(v, wid, IDLE).(sup := Classified(wid, 0));
    assert DoSupervise(c, v) == x;
    hide DoSupervise;
    t := Settles(c, x, wid, 0);
    SupervisedStep(c, v, 2, t);
    SupervisedStep(c, u, 3, t);
    SupervisedStep(c, s, 4, t);
  }

  /** Any other death: the loop ends on the two fatal verdicts; otherwise, within 3
      steps, the record is clear if it was given up and the slot is settled. */
  lemma VerdictSettled(c: Config, s: State, wid: nat, code: int) returns (n: nat, t: State)
    requires Shaped(c, s) && wid < c.workers && s.sup == Recovering(wid, code)
    requires Classify(s, s.txn[wid], s.incarn[wid], code).Verdict?
    ensures n <= 3 && Supervised(c, s, n, t)
    ensures var v := Classify(s, s.txn[wid], s.incarn[wid], code);
      if v.rc == 4 || v.rc == 5 then t == s.(sup := Aborted)
      else Settled(c, if v.clears then StandDown(s, wid, v.rc) else s, t, wid, v.rc)
  {
    hide Classify;
    var v := Classify(s, s.txn[wid], s.incarn[wid], code);
    var u := DoSupervise(c, s);
    if v.rc == 4 || v.rc == 5 {
      n, t := 1, u;
      assert Supervised(c, t, 0, t);
    } else {
      t := Settles(c, u, wid, v.rc);
      n := 3;
    }
    hide DoSupervise;
    SupervisedStep(c, s, n - 1, t);
  }

  /** A batch whose worker dies while it runs is committed all the same: the loop
      alone, and then the new worker alone, bring its packet into the order pipe. */
  lemma DeadBatchServed(c: Config, s: State, wid: nat, code: int) returns (t: State, n: nat, u: State)
    requires Shaped(c, s) && wid < c.workers && s.sup == Recovering(wid, code) && !Capped(c, s, wid)
    requires Classify(s, s.txn[wid], s.incarn[wid], code) == Orphan
    requires s.escrow == [] && EscrowIdxLive(s.txn[wid].idx, s.w, s.r)
    ensures Supervised(c, s, 5, t) && t.order == s.order
    ensures n <= 16 && Alone(c, t, wid, n, u) && Committed(t, u, wid, s.txn[wid].idx, [])
  {
    t := OrphanReturned(c, s, wid, code);
    hide Supervised, Alone, DoWork, DoSupervise, Classify;
    n, u := PacketServed(c, t, wid);
  }
}
