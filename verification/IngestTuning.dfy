/** The tuned depth limit over whole runs of NUMA ingest: the queue gates bound how
    far ingest can be ahead of the batches that tuning counts, and so its floor. */
module IngestTuning {
  import opened IngestLimit
  import opened IngestRun

  function Lens(nodes: seq<Node>): (xs: seq<nat>)
    ensures |xs| == |nodes| && forall i :: 0 <= i < |nodes| ==> xs[i] == |nodes[i].queue|
  {
    seq(|nodes|, i requires 0 <= i < |nodes| => |nodes[i].queue|)
  }

  function Tails(nodes: seq<Node>): (xs: seq<nat>)
    ensures |xs| == |nodes| && forall i :: 0 <= i < |nodes| ==> xs[i] == nodes[i].tail
  {
    seq(|nodes|, i requires 0 <= i < |nodes| => nodes[i].tail)
  }

  function Takens(scanners: seq<Scanner>): (xs: seq<nat>)
    ensures |xs| == |scanners| && forall k :: 0 <= k < |scanners| ==> xs[k] == scanners[k].taken
  {
    seq(|scanners|, k requires 0 <= k < |scanners| => scanners[k].taken)
  }

  lemma {:induction false} SumUpdate(xs: seq<nat>, i: nat, v: nat)
    requires i < |xs|
    ensures Sum(xs[i := v]) == Sum(xs) - xs[i] + v
  {
    var n := |xs| - 1;
    if i == n {
      assert xs[i := v][..n] == xs[..n];
    } else {
      assert xs[i := v][..n] == xs[..n][i := v];
      SumUpdate(xs[..n], i, v);
    }
  }

  lemma {:induction false} SumSplit(xs: seq<nat>, ys: seq<nat>, zs: seq<nat>)
    requires |xs| == |ys| == |zs| && forall i :: 0 <= i < |xs| ==> xs[i] <= ys[i] + zs[i]
    ensures Sum(xs) <= Sum(ys) + Sum(zs)
  {
    if xs != [] { SumSplit(xs[..|xs| - 1], ys[..|ys| - 1], zs[..|zs| - 1]); }
  }

  /** A scanner has at most one chunk in hand, has written a batch for every chunk
      it finished unless the run is resumed, and shows all but its lag of them. */
  ghost predicate ScannerOk(x: Scanner, resumed: bool) {
    && x.taken == x.finished + (if x.duty.Holding? || x.duty.Busy? then 1 else 0)
    && (!resumed ==> x.finished + (if x.duty == Busy(true) then 1 else 0) <= x.scanned)
    && x.written <= x.scanned <= x.written + LAG
  }

  /** While ingest runs: every ticket taken was taken by a scanner, and what ingest
      counts agrees. */
  ghost predicate Counted(c: Config, s: State) {
    && |s.nodes| == |s.scanners| == c.nodes
    && Sum(Lens(s.nodes)) == s.major && s.offset <= c.chunk * s.major
    && Sum(Tails(s.nodes)) == Sum(Takens(s.scanners))
    && forall k :: 0 <= k < |s.scanners| ==> ScannerOk(s.scanners[k], c.resumed)
  }

  /** Steps that change node i and scanner k as given. */
  lemma Recount(c: Config, s: State, i: nat, n: Node, k: nat, x: Scanner)
    requires Counted(c, s) && i < |s.nodes| && k < |s.scanners| && ScannerOk(x, c.resumed)
    requires n.queue == s.nodes[i].queue && n.tail - s.nodes[i].tail == x.taken - s.scanners[k].taken
    ensures Counted(c, s.(nodes := s.nodes[i := n], scanners := s.scanners[k := x]))
  {
    hide Sum, ScannerOk;
    var t := s.(nodes := s.nodes[i := n], scanners := s.scanners[k := x]);
    assert Lens(t.nodes) == Lens(s.nodes);
    assert Tails(t.nodes) == Tails(s.nodes)[i := n.tail];
    assert Takens(t.scanners) == Takens(s.scanners)[k := x.taken];
    SumUpdate(Tails(s.nodes), i, n.tail);
    SumUpdate(Takens(s.scanners), k, x.taken);
  }

  lemma ScannerCounts(c: Config, s: State, a: Action, k: nat)
    requires Counted(c, s) && Enabled(c, s, a) && !s.eof
    requires a == Decide(k, if a.Decide? then a.node else 0) || a == Read(k)
          || a == Flush(k, if a.Flush? then a.visible else 0) || a == Finish(k, if a.Finish? then a.visible else 0)
    ensures Counted(c, Do(c, s, a))
  {
    hide Sum, Behind, Slot;
    var t := Do(c, s, a);
    Recount(c, s, k, t.nodes[k], k, t.scanners[k]);
    assert t.nodes == s.nodes[k := t.nodes[k]] && t.scanners == s.scanners[k := t.scanners[k]];
  }

  lemma TakeCounts(c: Config, s: State, k: nat)
    requires Counted(c, s) && Enabled(c, s, Take(k))
    ensures Counted(c, Do(c, s, Take(k)))
  {
    hide Sum;
    var j := s.scanners[k].duty.node;
    Recount(c, s, j, s.nodes[j].(tail := s.nodes[j].tail + 1), k, Do(c, s, Take(k)).scanners[k]);
  }

  lemma IndexerCounts(c: Config, s: State, a: Action)
    requires Counted(c, s) && Enabled(c, s, a) && (a.Consume? || a.Advertise?)
    ensures Counted(c, Do(c, s, a))
  {
    hide Sum, ScannerOk;
    var t := Do(c, s, a);
    assert Lens(t.nodes) == Lens(s.nodes) && Tails(t.nodes) == Tails(s.nodes);
  }

  lemma PublishCounts(c: Config, s: State, len: nat)
    requires Counted(c, s) && Enabled(c, s, Publish(len))
    ensures Counted(c, Do(c, s, Publish(len)))
  {
    hide Sum, ScannerOk;
    var t := Do(c, s, Publish(len));
    assert Lens(t.nodes) == Lens(s.nodes)[s.aim := |s.nodes[s.aim].queue| + 1] && Tails(t.nodes) == Tails(s.nodes);
    SumUpdate(Lens(s.nodes), s.aim, |s.nodes[s.aim].queue| + 1);
    assert c.chunk * t.major == c.chunk * s.major + c.chunk;
  }

  lemma StepCounts(c: Config, s: State, a: Action)
    requires Counted(c, s) && Enabled(c, s, a) && !Do(c, s, a).eof
    ensures Counted(c, Do(c, s, a)) && !s.eof
  {
    StaysOpen(c, s, a);
    hide Counted, Enabled, Do;
    match a
    case Publish(len) => PublishCounts(c, s, len);
    case Consume(_) => IndexerCounts(c, s, a);
    case Advertise(_) => IndexerCounts(c, s, a);
    case Take(k) => TakeCounts(c, s, k);
    case Decide(k, _) => ScannerCounts(c, s, a, k);
    case Read(k) => ScannerCounts(c, s, a, k);
    case Flush(k, _) => ScannerCounts(c, s, a, k);
    case Finish(k, _) => ScannerCounts(c, s, a, k);
    case _ => IngestCounts(c, s, a);
  }

  lemma StaysOpen(c: Config, s: State, a: Action)
    requires Enabled(c, s, a) && !Do(c, s, a).eof
    ensures !s.eof && !a.Leave? && !a.PublishEof? && !a.Abandon?
  {
  }

  lemma IngestCounts(c: Config, s: State, a: Action)
    requires Counted(c, s) && Enabled(c, s, a) && (a.Aim? || a.Room? || a.Clear? || a.Recheck? || a.Tune?)
    ensures Counted(c, Do(c, s, a))
  {
    hide Sum, ScannerOk, Tuned, MinBuf, GlobalMax, Behind;
  }

  lemma StartCounts(c: Config)
    requires c.Ok()
    ensures Counted(c, Start(c))
  {
    var s := Start(c);
    AllZero(Lens(s.nodes));
    AllZero(Tails(s.nodes));
    AllZero(Takens(s.scanners));
  }

  lemma {:induction false} AllZero(xs: seq<nat>)
    requires forall i :: 0 <= i < |xs| ==> xs[i] == 0
    ensures Sum(xs) == 0
  {
    if xs != [] { AllZero(xs[..|xs| - 1]); }
  }

  lemma {:induction false} RunCounts(c: Config, states: seq<State>, i: nat)
    requires Run(c, states) && i < |states| && !states[i].eof
    ensures Counted(c, states[i])
  {
    hide *;
    StartsAt(c, states);
    if i == 0 {
      StartCounts(c);
    } else {
      var a := StepInto(c, states, i);
      StaysOpen(c, states[i - 1], a);
      RunCounts(c, states, i - 1);
      StepCounts(c, states[i - 1], a);
    }
  }

  /** Ingest is no further ahead of the visible batches than the queues' shares of
      the ring, a chunk in each scanner's hand, and the scanners' lags. */
  lemma AheadBounded(c: Config, s: State)
    requires Inv(c, s) && Counted(c, s) && !c.resumed
    ensures s.major <= Sum(Visible(s.scanners)) + RING / 2 + c.nodes * (LAG + 1)
  {
    hide Sum, NodeOk, Lags;
    var slack := seq(|s.scanners|, _ => LAG + 1);
    SumBounded(Backlogs(s.nodes), GlobalMax(c.nodes));
    SumSplit(Lens(s.nodes), Tails(s.nodes), Backlogs(s.nodes));
    assert forall k :: 0 <= k < |s.scanners| ==> Takens(s.scanners)[k] <= Visible(s.scanners)[k] + slack[k];
    SumSplit(Takens(s.scanners), Visible(s.scanners), slack);
    SumBounded(slack, LAG + 1);
  }

  lemma Scaled(a: nat, b: nat, k: nat)
    requires a <= b
    ensures a * k <= b * k
  {
  }

  lemma Quotients(num: nat, d: nat, m: nat)
    requires num <= d * m && d > 0
    ensures num / (d * 2) <= m
  {
    if num / (d * 2) > m { Scaled(m + 1, num / (d * 2), d * 2); }
  }

  lemma AverageFits(workers: nat, nodes: nat)
    requires 0 < nodes <= 512 && workers <= 8192
    ensures 1 <= Average(workers, nodes) <= 8192 && nodes * Average(workers, nodes) <= 8192
  {
  }

  /** Ahead by at most K, `offset` bytes are at most K + 1 times the batches'. */
  lemma AheadTimes(offset: nat, chunk: nat, major: nat, batches: nat, K: nat, avg: nat)
    requires offset <= chunk * major && batches > 0 && major <= batches + K
    ensures offset * avg <= chunk * batches * ((K + 1) * avg)
  {
    Scaled(1, batches, K);
    Scaled(major, batches * (K + 1), chunk);
    assert chunk * (batches * (K + 1)) == chunk * batches * (K + 1);
    Scaled(offset, chunk * batches * (K + 1), avg);
    assert chunk * batches * (K + 1) * avg == chunk * batches * ((K + 1) * avg);
  }

  lemma SlackTimes(nodes: nat, avg: nat)
    requires 1 <= avg <= 8192 && nodes * avg <= 8192
    ensures (RING / 2 + nodes * (LAG + 1) + 1) * avg < 0x2000_0000
  {
    assert (RING / 2 + nodes * (LAG + 1) + 1) * avg == (RING / 2 + 1) * avg + nodes * avg * (LAG + 1);
  }

  lemma FloorIs(c: Config, s: State, workers: nat, stole: bool, extra: nat, saturated: bool)
    requires c.Ok() && workers <= 8192 && Fits64(c, s, workers)
    ensures var batches, avg := Sum(Visible(s.scanners)), Average(workers, c.nodes);
      MinBuf(SampleOf(c, s, workers, stole, extra, saturated), c.nodes)
      == if batches == 0 then 4
         else var q := s.offset * avg / (c.chunk * batches * 2); (if q < 4 then 4 else q) % 0x1_0000_0000
  {
    AverageFits(workers, c.nodes);
    var batches, avg := Sum(Visible(s.scanners)), Average(workers, c.nodes);
    Unwrapped(s.offset * avg);
    Unwrapped(c.chunk * batches * 2);
    if batches > 0 { Scaled(1, batches, c.chunk); }
    hide Sum, GlobalMax;
  }

  lemma Unwrapped(x: nat)
    requires x < 0x1_0000_0000_0000_0000
    ensures x % 0x1_0000_0000_0000_0000 == x
  {
  }

  /** So on a run that is not resumed the floor of a round never comes near its
      truncation. */
  lemma FloorBounded(c: Config, s: State, workers: nat, stole: bool, extra: nat, saturated: bool)
    requires Inv(c, s) && Counted(c, s) && !c.resumed && workers <= 8192 && Fits64(c, s, workers)
    ensures 4 <= MinBuf(SampleOf(c, s, workers, stole, extra, saturated), c.nodes) < 0x4000_0000
  {
    AheadBounded(c, s);
    FloorIs(c, s, workers, stole, extra, saturated);
    AverageFits(workers, c.nodes);
    hide Inv, Fits64, MinBuf, Sum, Average;
    if Sum(Visible(s.scanners)) > 0 {
      QuotientBounded(s.offset, c.chunk, s.major, Sum(Visible(s.scanners)), c.nodes, Average(workers, c.nodes));
    }
  }

  lemma QuotientBounded(offset: nat, chunk: nat, major: nat, batches: nat, nodes: nat, avg: nat)
    requires offset <= chunk * major && batches > 0 && chunk > 0 && 1 <= avg <= 8192 && nodes * avg <= 8192
    requires major <= batches + RING / 2 + nodes * (LAG + 1)
    ensures chunk * batches * 2 > 0 && offset * avg / (chunk * batches * 2) < 0x4000_0000
  {
    var K := RING / 2 + nodes * (LAG + 1);
    SlackTimes(nodes, avg);
    AheadTimes(offset, chunk, major, batches, K, avg);
    Scaled(1, batches, chunk);
    Quotients(offset * avg, chunk * batches, (K + 1) * avg);
  }

  lemma TuneInRange(c: Config, s: State, a: Action)
    requires Inv(c, s) && Counted(c, s) && !c.resumed && Enabled(c, s, a) && a.Tune?
    requires 4 <= s.limit
    ensures 4 <= Do(c, s, a).limit
  {
    var sample := SampleOf(c, s, a.workers, a.stole, a.extra, a.saturated);
    var floor := MinBuf(sample, c.nodes);
    FloorBounded(c, s, a.workers, a.stole, a.extra, a.saturated);
    SmallFloorsAreSane(floor);
    ShareFits(c.nodes);
    hide MinBuf, Inv, Counted, Sane, Fits64;
    SaneKeepsRange(s.limit, s.meter, floor, GlobalMax(c.nodes), a.stole, a.extra, a.saturated);
  }

  lemma LimitMoves(c: Config, s: State, a: Action)
    requires Enabled(c, s, a) && !a.Tune?
    ensures Do(c, s, a).limit == s.limit
  {
  }

  /** In every state of every run that is not resumed the depth limit is between 4
      and the node's share of half the ring: ingest is always let past an empty
      queue, and the queues always fit.  On a resumed run the upper half holds. */
  lemma {:induction false} LimitInRange(c: Config, states: seq<State>, i: nat)
    requires Run(c, states) && i < |states|
    ensures states[i].limit <= GlobalMax(c.nodes)
    ensures !c.resumed || !c.lines ==> 4 <= states[i].limit
  {
    RunInv(c, states, i);
    ShareBounds(c, states[i]);
    hide *;
    StartsAt(c, states);
    if i == 0 {
      StartsAtFour(c);
    } else if !c.resumed || !c.lines {
      LimitInRange(c, states, i - 1);
      var a := StepInto(c, states, i);
      if a.Tune? {
        TuneStep(c, states, i - 1, a);
      } else {
        LimitMoves(c, states[i - 1], a);
      }
    }
  }

  lemma ShareBounds(c: Config, s: State)
    requires Inv(c, s)
    ensures c.nodes > 0 && s.limit <= GlobalMax(c.nodes)
  {
  }

  lemma StartsAtFour(c: Config)
    ensures Start(c).limit == 4 && !Start(c).untuned
  {
  }

  lemma TuneStep(c: Config, states: seq<State>, i: nat, a: Action)
    requires Run(c, states) && i < |states| && Enabled(c, states[i], a) && a.Tune? && 4 <= states[i].limit
    requires !c.resumed || !c.lines
    ensures 4 <= Do(c, states[i], a).limit
  {
    hide Inv, Counted, Do, Run;
    OnlyLinesTune(c, states, i);
    RunInv(c, states, i);
    RunCounts(c, states, i);
    TuneInRange(c, states[i], a);
  }

  /** Only the line path has rounds. */
  lemma {:induction false} OnlyLinesTune(c: Config, states: seq<State>, i: nat)
    requires Run(c, states) && i < |states|
    ensures states[i].untuned ==> c.lines
  {
    hide *;
    StartsAt(c, states);
    if i > 0 {
      OnlyLinesTune(c, states, i - 1);
      var a := StepInto(c, states, i);
      UntunedSince(c, states[i - 1], a);
    } else {
      StartsAtFour(c);
    }
  }

  lemma UntunedSince(c: Config, s: State, a: Action)
    requires Enabled(c, s, a) && (s.untuned ==> c.lines)
    ensures Do(c, s, a).untuned ==> c.lines
  {
  }
}
