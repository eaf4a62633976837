/** Runs of the NUMA line path: with a -n limit the chunks are chained by their
    cumulative line counts; without one they are independent. */
module LineRun {
  import opened Stream
  import opened LineScan
  import opened LineChain
  import opened Indexer

  datatype Phase =
    | Waiting
    | Scanning(prev: nat)
    | Skipping
    | Crossing(fs: seq<Flush>, cum: nat)   // cutoff stored, batches not all out yet
    | Flushed(cum: nat)
    | Published(cum: nat)

  datatype Chain = Chain(cutoff: nat, phases: seq<Phase>, outs: seq<seq<Flush>>)

  datatype Config = Config(input: Input, bounds: seq<nat>, limit: nat) {
    ghost predicate Ok() {
      Layout(bounds, |input.bytes|)
    }

    /** First byte of chunk m's records; of the end of the stream past the last. */
    ghost function At(m: nat): (x: nat)
      requires Ok() && m <= |bounds|
      ensures x <= |input.bytes|
    {
      if m == |bounds| then |input.bytes| else Front(input, bounds, m)
    }

    ghost function LinesBefore(m: nat): nat
      requires Ok() && m <= |bounds|
    {
      LinesTo(input, At(m))
    }

    /** The count chunk m is given: lines so far, up to the limit. */
    ghost function Prev(m: nat): nat
      requires Ok() && m <= |bounds|
    {
      if limit == 0 then 0 else if LinesBefore(m) < limit then LinesBefore(m) else limit
    }

    lemma Steps(m: nat)
      requires Ok() && m < |bounds|
      ensures At(0) == 0 && LinesBefore(0) == 0
      ensures At(m) <= At(m + 1) == Boundary(input, bounds, m) && RecordEnd(input, At(m + 1)) && input.Edge(At(m))
      ensures LinesBefore(m) <= LinesBefore(m + 1)
    {
      FrontBeforeBoundary(input, bounds, m);
      LinesMono(input, At(m), At(m + 1));
    }
  }

  ghost predicate Init(c: Config, s: Chain) {
    && s.cutoff == 0 && |s.phases| == |s.outs| == |c.bounds|
    && forall m :: 0 <= m < |s.phases| ==> s.phases[m] == Waiting && s.outs[m] == []
  }

  datatype Action = Gate | Escape | Skip | Scan(fs: seq<Flush>, stop: nat, cum: nat) | LastFlush | Handoff

  /** What chunk m finds at the gate; without a limit there is none. */
  function Received(c: Config, s: Chain, m: nat): Phase
    requires m < |s.phases|
  {
    if m == 0 || c.limit == 0 then Published(0) else s.phases[m - 1]
  }

  ghost predicate Enabled(c: Config, s: Chain, m: nat, a: Action) {
    c.Ok() && m < |s.phases| == |s.outs| == |c.bounds| &&
    match a
    case Gate => s.phases[m].Waiting? && Received(c, s, m).Published?
    case Escape => s.phases[m].Waiting? && c.limit > 0 && 0 < s.cutoff < m + 1
    case Skip => s.phases[m].Skipping?
    case Scan(fs, stop, cum) =>
      s.phases[m].Scanning? && c.At(m) <= c.At(m + 1)
      && LineScanned(c.input, c.At(m), c.At(m + 1), c.limit, s.phases[m].prev, fs, stop, cum)
    case LastFlush => s.phases[m].Crossing?
    case Handoff => s.phases[m].Flushed?
  }

  /** The scan that reaches the limit stores the cutoff before its last batch is out. */
  ghost function Do(c: Config, s: Chain, m: nat, a: Action): Chain
    requires Enabled(c, s, m, a)
  {
    match a
    case Gate => s.(phases := s.phases[m := Scanning(Received(c, s, m).cum)])
    case Escape => s.(phases := s.phases[m := Skipping])
    case Skip =>
      var at := c.At(m);
      s.(phases := s.phases[m := Flushed(c.limit)], outs := s.outs[m := [Flush(at, at, 0, 0, true)]])
    case Scan(fs, stop, cum) =>
      var crosses := !Reached(c.limit, s.phases[m].prev) && Reached(c.limit, cum);
      if crosses then s.(cutoff := m + 1, phases := s.phases[m := Crossing(fs, cum)])
      else s.(phases := s.phases[m := Flushed(cum)], outs := s.outs[m := fs])
    case LastFlush => s.(phases := s.phases[m := Flushed(s.phases[m].cum)], outs := s.outs[m := s.phases[m].fs])
    case Handoff => s.(phases := s.phases[m := Published(s.phases[m].cum)])
  }

  ghost predicate Next(c: Config, s: Chain, t: Chain) {
    exists m, a :: Enabled(c, s, m, a) && t == Do(c, s, m, a)
  }

  ghost predicate Run(c: Config, states: seq<Chain>) {
    && c.Ok() && states != [] && Init(c, states[0])
    && forall i :: 0 <= i < |states| - 1 ==> Next(c, states[i], states[i + 1])
  }

  ghost predicate Output(c: Config, m: nat, fs: seq<Flush>, cum: nat)
    requires c.Ok() && m < |c.bounds|
  {
    exists stop :: OutputUpTo(c, m, fs, stop, cum)
  }

  ghost predicate OutputUpTo(c: Config, m: nat, fs: seq<Flush>, stop: nat, cum: nat)
    requires c.Ok() && m < |c.bounds|
  {
    c.At(m) <= c.At(m + 1) && LineScanned(c.input, c.At(m), c.At(m + 1), c.limit, c.Prev(m), fs, stop, cum)
  }

  ghost predicate PhaseOk(c: Config, m: nat, p: Phase, fs: seq<Flush>)
    requires c.Ok() && m < |c.bounds|
  {
    match p
    case Waiting => fs == []
    case Scanning(prev) => fs == [] && prev == c.Prev(m)
    case Skipping => fs == [] && Reached(c.limit, c.LinesBefore(m))
    case Crossing(last, cum) => fs == [] && Output(c, m, last, cum) && Crosses(c, m)
    case Flushed(cum) => Output(c, m, fs, cum)
    case Published(cum) => Output(c, m, fs, cum)
  }

  /** The limit falls inside chunk m. */
  ghost predicate Crosses(c: Config, m: nat)
    requires c.Ok()
  {
    m < |c.bounds| && !Reached(c.limit, c.LinesBefore(m)) && Reached(c.limit, c.LinesBefore(m + 1))
  }

  /** A chunk's cutoff store is behind it. */
  predicate PastCut(p: Phase) {
    p.Crossing? || p.Flushed? || p.Published?
  }

  /** The cutoff names the chunk the limit falls into, and is set as soon as that
      chunk is past its store. */
  ghost predicate CutoffOk(c: Config, cutoff: nat, phases: seq<Phase>)
    requires c.Ok()
  {
    && (cutoff > 0 ==> Crosses(c, cutoff - 1))
    && forall m :: 0 <= m < |phases| && Crosses(c, m) && PastCut(phases[m]) ==> cutoff == m + 1
  }

  ghost predicate Inv(c: Config, s: Chain) {
    && c.Ok() && |s.phases| == |s.outs| == |c.bounds| && CutoffOk(c, s.cutoff, s.phases)
    && forall m :: 0 <= m < |s.phases| ==> PhaseOk(c, m, s.phases[m], s.outs[m])
  }

  lemma InitInv(c: Config, s: Chain)
    requires c.Ok() && Init(c, s)
    ensures Inv(c, s)
  {
  }

  /** A published count is the one the successor expects. */
  lemma CountFits(c: Config, m: nat, fs: seq<Flush>, cum: nat)
    requires c.Ok() && m < |c.bounds| && Output(c, m, fs, cum)
    ensures c.limit > 0 ==> cum == c.Prev(m + 1)
  {
    c.Steps(m);
  }

  lemma GateInv(c: Config, s: Chain, m: nat)
    requires Inv(c, s) && Enabled(c, s, m, Gate)
    ensures Inv(c, Do(c, s, m, Gate))
  {
    c.Steps(m);
    hide Output, Layout, LinesTo, Config.At;
    if m > 0 && c.limit > 0 { CountFits(c, m - 1, s.outs[m - 1], s.phases[m - 1].cum); }
  }

  lemma EscapeInv(c: Config, s: Chain, m: nat)
    requires Inv(c, s) && Enabled(c, s, m, Escape)
    ensures Inv(c, Do(c, s, m, Escape))
  {
    LinesGrow(c, s.cutoff, m);
  }

  lemma {:induction false} LinesGrow(c: Config, j: nat, k: nat)
    requires c.Ok() && j <= k <= |c.bounds|
    ensures c.LinesBefore(j) <= c.LinesBefore(k)
  {
    if j < k {
      LinesGrow(c, j, k - 1);
      c.Steps(k - 1);
    }
  }

  lemma SkipInv(c: Config, s: Chain, m: nat)
    requires Inv(c, s) && Enabled(c, s, m, Skip)
    ensures Inv(c, Do(c, s, m, Skip))
  {
    c.Steps(m);
    assert PhaseOk(c, m, s.phases[m], s.outs[m]);
    MarkerScanned(c.input, c.At(m), c.At(m + 1), c.limit, c.limit);
    assert OutputUpTo(c, m, [Flush(c.At(m), c.At(m), 0, 0, true)], c.At(m), c.limit);
  }

  lemma ScanInv(c: Config, s: Chain, m: nat, fs: seq<Flush>, stop: nat, cum: nat)
    requires Inv(c, s) && Enabled(c, s, m, Scan(fs, stop, cum))
    ensures Inv(c, Do(c, s, m, Scan(fs, stop, cum)))
  {
    assert PhaseOk(c, m, s.phases[m], s.outs[m]);
    assert OutputUpTo(c, m, fs, stop, cum);
    assert Output(c, m, fs, cum);
    CountFits(c, m, fs, cum);
    hide Output, LineScanned, LinesTo, Layout, Config.At;
    assert !Reached(c.limit, s.phases[m].prev) && Reached(c.limit, cum) <==> Crosses(c, m);
    forall k | 0 <= k < |s.phases| && Crosses(c, k) && Crosses(c, m) ensures k == m { CrossesOnce(c, k, m); }
    hide Crosses, PhaseOk;
  }

  /** There is one such chunk at most. */
  lemma CrossesOnce(c: Config, j: nat, k: nat)
    requires c.Ok() && Crosses(c, j) && Crosses(c, k)
    ensures j == k
  {
    if j < k { LinesGrow(c, j + 1, k); }
    if k < j { LinesGrow(c, k + 1, j); }
  }

  lemma LastFlushInv(c: Config, s: Chain, m: nat)
    requires Inv(c, s) && Enabled(c, s, m, LastFlush)
    ensures Inv(c, Do(c, s, m, LastFlush))
  {
    hide Output, LinesTo, Layout, Config.At;
    assert PhaseOk(c, m, s.phases[m], s.outs[m]);
  }

  lemma HandoffInv(c: Config, s: Chain, m: nat)
    requires Inv(c, s) && Enabled(c, s, m, Handoff)
    ensures Inv(c, Do(c, s, m, Handoff))
  {
  }

  lemma StepInv(c: Config, s: Chain, t: Chain)
    requires Inv(c, s) && Next(c, s, t)
    ensures Inv(c, t)
  {
    hide Inv;
    var m, a :| Enabled(c, s, m, a) && t == Do(c, s, m, a);
    match a
    case Gate => GateInv(c, s, m);
    case Escape => EscapeInv(c, s, m);
    case Skip => SkipInv(c, s, m);
    case Scan(fs, stop, cum) => ScanInv(c, s, m, fs, stop, cum);
    case LastFlush => LastFlushInv(c, s, m);
    case Handoff => HandoffInv(c, s, m);
  }

  lemma {:induction false} RunInv(c: Config, states: seq<Chain>, i: nat)
    requires Run(c, states) && i < |states|
    ensures Inv(c, states[i])
  {
    if i == 0 {
      InitInv(c, states[0]);
    } else {
      RunInv(c, states, i - 1);
      assert Next(c, states[i - 1], states[i - 1 + 1]);
      StepInv(c, states[i - 1], states[i]);
    }
  }

  /** Before the chunk that reaches the limit has its last batches out the cutoff is
      that chunk, and every chunk after it that still waits can escape; no other
      chunk is ever the cutoff. */
  lemma CutoffExact(c: Config, states: seq<Chain>, i: nat)
    requires Run(c, states) && i < |states|
    ensures states[i].cutoff > 0 ==> Crosses(c, states[i].cutoff - 1)
    ensures |states[i].phases| == |states[i].outs| == |c.bounds|
    ensures forall m, k :: 0 <= m < k < |c.bounds| && Crosses(c, m) && PastCut(states[i].phases[m]) ==>
      states[i].cutoff == m + 1 && (states[i].phases[k].Waiting? ==> Enabled(c, states[i], k, Escape))
  {
    RunInv(c, states, i);
    hide PhaseOk, Run;
  }

  /** The first n chunks have their batches out. */
  ghost predicate Out(s: Chain, n: nat) {
    n <= |s.outs| && forall m :: 0 <= m < n ==> s.outs[m] != []
  }

  /** Delivery after the first n chunks stands here. */
  ghost predicate StandsAt(c: Config, n: nat, x: nat)
    requires c.Ok() && n <= |c.bounds|
  {
    if Reached(c.limit, c.LinesBefore(n)) then LineEnd(c.input, x, c.limit) else x == c.At(n)
  }

  lemma {:induction false} DeliveredUpTo(c: Config, s: Chain, n: nat) returns (x: nat)
    requires Inv(c, s) && Out(s, n)
    ensures StandsAt(c, n, x) && Tiles(Flat(s.outs, n), 0, x) && LinesRight(c.input, Flat(s.outs, n))
  {
    hide Flat, LinesRight, Tiles, Output, StandsAt;
    if n == 0 {
      x := 0;
      NothingDelivered(c, s);
    } else {
      var before := DeliveredUpTo(c, s, n - 1);
      assert PhaseOk(c, n - 1, s.phases[n - 1], s.outs[n - 1]);
      x := Delivers(c, s, n - 1, before, s.phases[n - 1].cum);
    }
  }

  /** Past the limit a chunk has nothing out, or markers. */
  lemma {:induction false} NothingFollows(c: Config, s: Chain, n: nat, k: nat, x: nat)
    requires Inv(c, s) && n <= k <= |c.bounds| && Reached(c.limit, c.LinesBefore(n))
    requires Tiles(Flat(s.outs, n), 0, x) && LinesRight(c.input, Flat(s.outs, n))
    ensures Tiles(Flat(s.outs, k), 0, x) && LinesRight(c.input, Flat(s.outs, k))
  {
    hide *;
    if n < k {
      NothingFollows(c, s, n, k - 1, x);
      Sized(c, s);
      FlatIs(c.input, s.outs, k - 1);
      MarkersPast(c, s, n, k - 1, x);
      TilesJoin(Flat(s.outs, k - 1), s.outs[k - 1], 0, x, x);
    }
  }

  lemma Sized(c: Config, s: Chain)
    requires Inv(c, s)
    ensures c.Ok() && |s.phases| == |s.outs| == |c.bounds|
  {
  }

  lemma MarkersPast(c: Config, s: Chain, n: nat, m: nat, x: nat)
    requires Inv(c, s) && n <= m < |c.bounds| && Reached(c.limit, c.LinesBefore(n))
    ensures Tiles(s.outs[m], x, x) && LinesRight(c.input, s.outs[m])
  {
    LinesGrow(c, n, m);
    hide LinesTo, Layout, Config.At, Output;
    assert PhaseOk(c, m, s.phases[m], s.outs[m]);
    if s.outs[m] != [] { OnlyMarkers(c, m, s.outs[m], s.phases[m].cum, x); }
  }

  lemma OnlyMarkers(c: Config, m: nat, fs: seq<Flush>, cum: nat, x: nat)
    requires c.Ok() && m < |c.bounds| && Output(c, m, fs, cum) && Reached(c.limit, c.LinesBefore(m))
    ensures Tiles(fs, x, x) && LinesRight(c.input, fs)
  {
    var stop :| OutputUpTo(c, m, fs, stop, cum);
    TilesStay(fs, c.At(m), x);
  }

  lemma NothingDelivered(c: Config, s: Chain)
    requires c.Ok() && |c.bounds| == |s.outs|
    ensures StandsAt(c, 0, 0) && Tiles(Flat(s.outs, 0), 0, 0) && LinesRight(c.input, Flat(s.outs, 0))
  {
    c.Steps(0);
  }

  lemma Delivers(c: Config, s: Chain, n: nat, before: nat, cum: nat) returns (x: nat)
    requires c.Ok() && n < |c.bounds| == |s.outs| && StandsAt(c, n, before) && Output(c, n, s.outs[n], cum)
    requires Tiles(Flat(s.outs, n), 0, before) && LinesRight(c.input, Flat(s.outs, n))
    ensures StandsAt(c, n + 1, x)
    ensures Tiles(Flat(s.outs, n + 1), 0, x) && LinesRight(c.input, Flat(s.outs, n + 1))
  {
    var stop :| OutputUpTo(c, n, s.outs[n], stop, cum);
    c.Steps(n);
    hide Flat, Tiles, Numbered, LinesTo, Config.At;
    FlatIs(c.input, s.outs, n);
    if Reached(c.limit, c.LinesBefore(n)) {
      x := before;
      TilesStay(s.outs[n], c.At(n), x);
    } else {
      x := stop;
    }
    TilesJoin(Flat(s.outs, n), s.outs[n], 0, before, x);
  }

  lemma FlatIs(input: Input, outs: seq<seq<Flush>>, n: nat)
    requires n < |outs|
    ensures Flat(outs, n + 1) == Flat(outs, n) + outs[n]
    ensures LinesRight(input, Flat(outs, n)) && LinesRight(input, outs[n]) ==> LinesRight(input, Flat(outs, n + 1))
  {
  }

  /** Whatever the interleaving, batch sizes and timers, in every reachable state:
      the batches of the first n chunks are consecutive from byte 0 and hold those
      chunks' lines up to the limit.  Once the limit is among them, the batches of
      all chunks are exactly the first `limit` lines, whether or not ingest ever
      publishes the rest of the input or the end-of-stream sentinel. */
  lemma DeliversFirstLines(c: Config, states: seq<Chain>, i: nat, n: nat) returns (x: nat)
    requires Run(c, states) && i < |states| && Out(states[i], n)
    ensures n <= |c.bounds| == |states[i].outs| && StandsAt(c, n, x) && x <= |c.input.bytes|
    ensures Tiles(Flat(states[i].outs, n), 0, x) && LinesRight(c.input, Flat(states[i].outs, n))
    ensures Reached(c.limit, c.LinesBefore(n)) ==>
      Tiles(Flat(states[i].outs, |c.bounds|), 0, x) && LinesRight(c.input, Flat(states[i].outs, |c.bounds|))
  {
    RunInv(c, states, i);
    x := DeliveredUpTo(c, states[i], n);
    if Reached(c.limit, c.LinesBefore(n)) { NothingFollows(c, states[i], n, |c.bounds|, x); }
  }

  /** Every chunk's minors run 0..k with only the k-th flagged. */
  lemma MinorsFit(c: Config, states: seq<Chain>, i: nat, m: nat)
    requires Run(c, states) && i < |states| && m < |c.bounds| == |states[i].phases| == |states[i].outs|
    requires states[i].outs[m] != []
    ensures Numbered(states[i].outs[m])
    ensures |states[i].outs[m]| <= RawEnd(c.bounds, m) - RawStart(c.bounds, m) + 2
  {
    RunInv(c, states, i);
    assert PhaseOk(c, m, states[i].phases[m], states[i].outs[m]);
    LinesInside(c, m);
  }

  /** A chunk closes no more lines than its raw bytes hold delimiters, and one
      more at the end of the stream. */
  lemma LinesInside(c: Config, m: nat)
    requires c.Ok() && m < |c.bounds|
    ensures c.LinesBefore(m + 1) - c.LinesBefore(m) <= RawEnd(c.bounds, m) - RawStart(c.bounds, m) + 1
  {
    FrontBeforeBoundary(c.input, c.bounds, m);
    if m + 1 < |c.bounds| {
      FrontBeforeBoundary(c.input, c.bounds, m + 1);
      c.input.CountMono(c.bounds[m], c.bounds[m + 1]);
    }
  }

  /** No scanner waits for a count nobody will publish: as long as chunk n is not
      done, it or one before it can pass the gate or is already past it. */
  lemma {:induction false} GateNeverHangs(c: Config, states: seq<Chain>, i: nat, n: nat) returns (m: nat)
    requires Run(c, states) && i < |states| && n < |states[i].phases| && !states[i].phases[n].Published?
    ensures m <= n && CanGoOn(c, states[i], m)
  {
    if n == 0 || c.limit == 0 || states[i].phases[n - 1].Published? {
      RunInv(c, states, i);
      m := n;
    } else {
      m := GateNeverHangs(c, states, i, n - 1);
    }
  }

  ghost predicate CanGoOn(c: Config, s: Chain, m: nat)
    requires m < |s.phases|
  {
    !s.phases[m].Published? && (s.phases[m].Waiting? ==> Enabled(c, s, m, Gate))
  }

  /** The input on which the byte cap cuts a record, as ingest and the indexer lay
      it out: its last raw chunk starts at `window`, and the records it is given
      are the two of the failing scan. */
  lemma CutChunkArises(window: nat, bounds: seq<nat>, limit: nat)
    requires window >= 2 && Layout(bounds, window + 3) && |bounds| > 2 && bounds[|bounds| - 2] == window
    ensures var c := Config(CutInput(window), bounds, limit);
      c.Ok() && c.At(|bounds| - 2) == 2 && c.At(|bounds| - 1) == window + 3
  {
    var input, m := CutInput(window), |bounds| - 2;
    CutCounts(window, 2);
    CutCounts(window, 1);
    CutCounts(window, window);
    CutCounts(window, window + 2);
    FrontBeforeBoundary(input, bounds, m);
    FrontBeforeBoundary(input, bounds, m + 1);
    hide CutInput;
    input.EdgeUnique(input.LastEdge(window), 2, 1);
  }
}
