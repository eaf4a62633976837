/** Chunks that are claimed but not read: the frontier pin does not cover them, and
    exactly when that matters. */
module IngestHeld {
  import opened IngestLimit
  import opened IngestRun

  /** A ticket finds its own chunk in the queue's ring, and that chunk's slot of the
      meta ring has not been given to a later one. */
  ghost predicate Intact(s: State, i: nat, t: nat)
    requires i < |s.nodes| && t < |s.nodes[i].queue|
  {
    Slot(s.nodes[i].queue, t) == s.nodes[i].queue[t] && s.major <= s.nodes[i].queue[t] + RING
  }

  /** So does every ticket that is claimed, published and unread. */
  ghost predicate AllIntact(s: State) {
    forall k: nat, i: nat, t: nat :: Unread(s, k, i, t) ==> Intact(s, i, t)
  }

  /** Both hold until a whole ring of chunks has been published after it, over all
      queues together. */
  lemma IntactIff(s: State, i: nat, t: nat)
    requires i < |s.nodes| && Ascending(s.nodes[i].queue, s.major) && t < |s.nodes[i].queue|
    ensures Intact(s, i, t) <==> s.major <= s.nodes[i].queue[t] + RING
  {
    AscendingGap(s.nodes[i].queue, s.major, t, |s.nodes[i].queue| - 1);
  }

  /** The pin as its comment has it, up to a whole ring, or a single node. */
  predicate Guarded(c: Config) {
    c.nodes == 1 || (c.held.Covered? && c.held.m <= RING)
  }

  // ---- One node ----

  /** Its queue holds every chunk, and nothing is claimed behind a held ticket. */
  ghost predicate Solo(s: State) {
    && |s.nodes| == |s.scanners| == 1 && |s.nodes[0].queue| == s.major
    && (s.scanners[0].duty.Holding? ==>
        s.scanners[0].duty.node == 0 && s.nodes[0].tail == s.scanners[0].duty.ticket + 1)
  }

  lemma StepSolo(c: Config, s: State, a: Action)
    requires Solo(s) && Enabled(c, s, a)
    ensures Solo(Do(c, s, a))
  {
    hide Behind, Slot, Tuned, MinBuf, GlobalMax, StealThreshold, SampleOf, Fits64, MayAim, Config.Ok;
  }

  lemma SoloIntact(c: Config, s: State)
    requires Inv(c, s) && Solo(s)
    ensures AllIntact(s)
  {
    ShareFits(c.nodes);
    hide Slot, GlobalMax;
    var n := s.nodes[0];
    assert NodeOk(n, s.major, s.eof) && Backlog(n) <= GlobalMax(c.nodes);
    forall k: nat, i: nat, t: nat | Unread(s, k, i, t) ensures Intact(s, i, t) {
      AscendingGap(n.queue, s.major, 0, t);
      IntactIff(s, i, t);
    }
  }

  // ---- The extended pin ----

  /** No chunk that waits is more than a ring behind, and less once its node has
      passed the pin. */
  ghost predicate Recent(s: State) {
    forall i: nat, t: nat :: Waits(s, i, t) ==>
      && s.major <= s.nodes[i].queue[t] + RING
      && (i in s.cleared && !s.eof ==> s.major < s.nodes[i].queue[t] + RING)
  }

  lemma ClearRecent(c: Config, s: State, i: nat)
    requires Recent(s) && c.held.Covered? && c.held.m <= RING && Enabled(c, s, Clear(i))
    ensures Recent(Do(c, s, Clear(i)))
  {
    var u := Do(c, s, Clear(i));
    forall j: nat, t: nat | Waits(u, j, t) ensures Waits(s, j, t) { SameWaits(s, u, j, t); }
    hide Waits, Unpinned;
  }

  /** Waiting depends on queues, tails and duties only. */
  lemma SameWaits(s: State, u: State, i: nat, t: nat)
    requires u.nodes == s.nodes && u.scanners == s.scanners && Waits(u, i, t)
    ensures Waits(s, i, t)
  {
    if u.nodes[i].tail > t {
      var k: nat :| Unread(u, k, i, t);
      assert Unread(s, k, i, t);
    }
  }

  /** A publication passes only nodes that have passed the pin; its own chunk is the
      newest. */
  lemma PublishRecent(c: Config, s: State, a: Action)
    requires Recent(s) && Enabled(c, s, a) && (a.Publish? || a.PublishEof?)
    ensures Recent(Do(c, s, a))
  {
    var u := Do(c, s, a);
    var j := if a.Publish? then s.aim else EofTarget(s);
    assert u.nodes == s.nodes[j := Queued(s.nodes[j], s.major)] && u.scanners == s.scanners;
    forall i: nat, t: nat | Waits(u, i, t) ensures u.major <= u.nodes[i].queue[t] + RING {
      if t < |s.nodes[i].queue| {
        PublishedWaits(s, u, i, t);
        assert u.nodes[i].queue[t] == s.nodes[i].queue[t] && i in s.cleared;
      }
    }
  }

  lemma PublishedWaits(s: State, u: State, i: nat, t: nat)
    requires u.scanners == s.scanners && i < |s.nodes| == |u.nodes| && u.nodes[i].tail == s.nodes[i].tail
    requires t < |s.nodes[i].queue| && Waits(u, i, t)
    ensures Waits(s, i, t)
  {
    if u.nodes[i].tail > t {
      var k: nat :| Unread(u, k, i, t);
      assert Unread(s, k, i, t);
    }
  }

  /** Queues stay; what waits after the step waited before it. */
  ghost predicate Quieter(s: State, u: State) {
    && |u.nodes| == |s.nodes| && |u.scanners| == |s.scanners| && u.cleared <= s.cleared && (s.eof ==> u.eof)
    && u.major == s.major
    && (forall i :: 0 <= i < |s.nodes| ==> u.nodes[i].queue == s.nodes[i].queue && u.nodes[i].tail >= s.nodes[i].tail)
    && (forall k: nat :: k < |s.scanners| && u.scanners[k].duty.Holding? ==>
          u.scanners[k].duty == s.scanners[k].duty || Claims(s, u.scanners[k].duty))
  }

  /** The next ticket of a node. */
  ghost predicate Claims(s: State, d: Duty)
    requires d.Holding?
  {
    d.node < |s.nodes| && d.ticket == s.nodes[d.node].tail
  }

  lemma QuietRecent(s: State, u: State)
    requires Recent(s) && Quieter(s, u)
    ensures Recent(u)
  {
    forall i: nat, t: nat | Waits(u, i, t) ensures Waits(s, i, t) {
      if s.nodes[i].tail > t {
        var k: nat :| Unread(u, k, i, t);
        assert u.scanners[k].duty.Holding?;
        assert Unread(s, k, i, t);
      }
    }
    hide Waits;
  }

  lemma IngestQuiet(c: Config, s: State, a: Action)
    requires Enabled(c, s, a) && (a.Aim? || a.Room? || a.Recheck? || a.Tune? || a.Leave?)
    ensures Quieter(s, Do(c, s, a))
  {
    hide Tuned, MinBuf, GlobalMax, StealThreshold, SampleOf;
  }

  lemma WorkQuiet(c: Config, s: State, a: Action)
    requires Enabled(c, s, a)
    requires a.Consume? || a.Advertise? || a.Decide? || a.Take? || a.Read? || a.Flush? || a.Finish? || a.Abandon?
    ensures Quieter(s, Do(c, s, a))
  {
    hide Slot;
  }

  lemma StepRecent(c: Config, s: State, a: Action)
    requires Recent(s) && c.held.Covered? && c.held.m <= RING && Enabled(c, s, a)
    ensures Recent(Do(c, s, a))
  {
    hide *;
    match a
    case Clear(i) => ClearRecent(c, s, i);
    case Publish(_) => PublishRecent(c, s, a);
    case PublishEof => PublishRecent(c, s, a);
    case _ =>
      if a.Aim? || a.Room? || a.Recheck? || a.Tune? || a.Leave? { IngestQuiet(c, s, a); } else { WorkQuiet(c, s, a); }
      QuietRecent(s, Do(c, s, a));
  }

  lemma RecentIntact(c: Config, s: State)
    requires Inv(c, s) && Recent(s)
    ensures AllIntact(s)
  {
    hide Slot, Lags, GlobalMax;
    forall k: nat, i: nat, t: nat | Unread(s, k, i, t) ensures Intact(s, i, t) {
      assert Waits(s, i, t);
      assert NodeOk(s.nodes[i], s.major, s.eof);
      IntactIff(s, i, t);
    }
  }

  // ---- Runs ----

  ghost predicate HeldOk(c: Config, s: State) {
    if c.nodes == 1 then Solo(s) else Recent(s)
  }

  lemma StepHeld(c: Config, s: State, a: Action)
    requires Guarded(c) && HeldOk(c, s) && Enabled(c, s, a)
    ensures HeldOk(c, Do(c, s, a))
  {
    hide Solo, Recent, Enabled, Do;
    if c.nodes == 1 { StepSolo(c, s, a); } else { StepRecent(c, s, a); }
  }

  lemma StartHeld(c: Config)
    ensures HeldOk(c, Start(c))
  {
  }

  lemma {:induction false} RunHeld(c: Config, states: seq<State>, i: nat)
    requires Run(c, states) && Guarded(c) && i < |states|
    ensures HeldOk(c, states[i])
  {
    hide *;
    StartsAt(c, states);
    if i == 0 {
      StartHeld(c);
    } else {
      RunHeld(c, states, i - 1);
      var a := StepInto(c, states, i);
      StepHeld(c, states[i - 1], a);
    }
  }

  /** With the guard, or one node, no held ticket is ever overtaken: neither its
      entry nor its chunk's meta slot. */
  lemma HeldStaysIntact(c: Config, states: seq<State>, i: nat)
    requires Run(c, states) && Guarded(c) && i < |states|
    ensures AllIntact(states[i])
  {
    RunHeld(c, states, i);
    RunInv(c, states, i);
    hide Inv, Solo, Recent, AllIntact;
    if c.nodes == 1 { SoloIntact(c, states[i]); } else { RecentIntact(c, states[i]); }
  }

  /** In the code as it is, a publication, the sentinel's too, takes what a held
      ticket still needs exactly when that ticket's chunk is a whole ring back. */
  lemma PublishLosesIff(c: Config, states: seq<State>, i: nat, a: Action)
    requires Run(c, states) && i < |states| && AllIntact(states[i])
    requires Enabled(c, states[i], a) && (a.Publish? || a.PublishEof?)
    ensures !AllIntact(Do(c, states[i], a))
       <==> exists k: nat, j: nat, t: nat ::
              Unread(states[i], k, j, t) && states[i].major == states[i].nodes[j].queue[t] + RING
  {
    RunInv(c, states, i);
    var s, u := states[i], Do(c, states[i], a);
    StepInv(c, s, a);
    hide *;
    forall k: nat, j: nat, t: nat | Unread(s, k, j, t)
      ensures Unread(u, k, j, t) && (Intact(u, j, t) <==> s.major != s.nodes[j].queue[t] + RING)
    {
      OldUnread(c, s, a, k, j, t);
    }
    NewUnread(c, s, a);
  }

  lemma OldUnread(c: Config, s: State, a: Action, k: nat, j: nat, t: nat)
    requires Inv(c, s) && Enabled(c, s, a) && (a.Publish? || a.PublishEof?) && Inv(c, Do(c, s, a)) && AllIntact(s)
    requires Unread(s, k, j, t)
    ensures var u := Do(c, s, a);
      Unread(u, k, j, t) && (Intact(u, j, t) <==> s.major != s.nodes[j].queue[t] + RING)
  {
    var u := Do(c, s, a);
    hide Slot, Lags, MayPublish, GlobalMax;
    assert NodeOk(s.nodes[j], s.major, s.eof) && NodeOk(u.nodes[j], u.major, u.eof);
    IntactIff(s, j, t);
    IntactIff(u, j, t);
  }

  /** A ticket whose entry this publication is finds it. */
  lemma NewUnread(c: Config, s: State, a: Action)
    requires Inv(c, s) && Enabled(c, s, a) && (a.Publish? || a.PublishEof?) && Inv(c, Do(c, s, a))
    ensures var u := Do(c, s, a);
      forall k: nat, j: nat, t: nat :: Unread(u, k, j, t) && !Unread(s, k, j, t) ==> Intact(u, j, t)
  {
    var u := Do(c, s, a);
    hide Slot, Lags, MayPublish, GlobalMax;
    forall k: nat, j: nat, t: nat | Unread(u, k, j, t) && !Unread(s, k, j, t) ensures Intact(u, j, t) {
      assert NodeOk(u.nodes[j], u.major, u.eof);
      assert u.nodes[j].queue[t] == s.major;
      IntactIff(u, j, t);
    }
  }
}
