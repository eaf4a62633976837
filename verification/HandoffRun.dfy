/** Runs of the handoff chain: scanners take chunks in any order, wait at the
    gate for their predecessor's handoff or escape past the published cutoff. */
module HandoffRun {
  import opened Stream
  import opened HandoffChain

  /** A chunk's life.  Once its batches are out it stores the cutoff if it crossed
      the limit (`cut`), then the open batch's start (`actual_end`), then the
      count (`cum_lines`); successors may look in between. */
  datatype Phase =
    | Waiting
    | Scanning(start: nat, prev: nat)
    | Skipping
    | Flushed(open: nat, cum: nat, cut: bool)
    | Ended(open: nat, cum: nat)
    | Published(open: nat, cum: nat)

  datatype Chain = Chain(cutoff: nat, phases: seq<Phase>, outs: seq<seq<Flush>>)

  datatype Config = Config(input: Input, bounds: seq<nat>, L: nat, limit: nat) {
    ghost predicate Ok() {
      L > 0 && Layout(bounds, |input.bytes|)
    }

    /** Start of chunk m. */
    ghost function At(m: nat): (x: nat)
      requires Ok() && m < |bounds|
      ensures x == bounds[m] <= |input.bytes|
      ensures m + 1 < |bounds| ==> x < bounds[m + 1] <= |input.bytes|
    {
      bounds[m]
    }

    ghost function LinesBefore(m: nat): nat
      requires Ok() && m < |bounds|
    {
      input.Count(At(m))
    }
  }

  ghost predicate Init(c: Config, s: Chain) {
    && s.cutoff == 0 && |s.phases| == |s.outs| == |c.bounds|
    && forall m :: 0 <= m < |s.phases| ==> s.phases[m] == Waiting && s.outs[m] == []
  }

  datatype Action =
    | Gate
    | Escape
    | Skip
    | Scan(fs: seq<Flush>, open: nat, cum: nat)
    | Eof
    | Cut
    | StoreEnd
    | StoreCount

  /** What chunk m finds at the gate. */
  function Received(s: Chain, m: nat): Phase
    requires m < |s.phases|
  {
    if m == 0 then Published(0, 0) else s.phases[m - 1]
  }

  ghost predicate Enabled(c: Config, s: Chain, m: nat, a: Action) {
    c.Ok() && m < |s.phases| == |s.outs| == |c.bounds| &&
    match a
    case Gate => s.phases[m].Waiting? && Received(s, m).Published?
    case Escape => s.phases[m].Waiting? && c.limit > 0 && 0 < s.cutoff < m + 1
    case Skip => s.phases[m].Skipping?
    case Scan(fs, open, cum) => s.phases[m].Scanning? && m + 1 < |c.bounds| && ScanOf(c, m, s.phases[m], fs, open, cum)
    case Eof => s.phases[m].Scanning? && m + 1 == |c.bounds|
    case Cut => s.phases[m].Flushed? && s.phases[m].cut
    case StoreEnd => s.phases[m].Flushed? && !s.phases[m].cut
    case StoreCount => s.phases[m].Ended?
  }

  ghost predicate ScanOf(c: Config, m: nat, p: Phase, fs: seq<Flush>, open: nat, cum: nat)
    requires c.Ok() && m + 1 < |c.bounds| && p.Scanning?
  {
    Scanned(c.input, c.At(m), c.At(m + 1), c.L, c.limit, p.start, fs, open, cum)
  }

  ghost function Do(c: Config, s: Chain, m: nat, a: Action): Chain
    requires Enabled(c, s, m, a)
  {
    match a
    case Gate =>
      var r := Received(s, m);
      s.(phases := s.phases[m := if Reached(c.limit, r.cum) then Skipping else Scanning(r.open, r.cum)])
    case Escape => s.(phases := s.phases[m := Skipping])
    case Skip =>
      var rs := c.At(m);
      s.(phases := s.phases[m := Flushed(rs, c.limit, false)], outs := s.outs[m := [Flush(rs, rs, 0, 0, true)]])
    case Scan(fs, open, cum) =>
      s.(phases := s.phases[m := Flushed(open, cum, Reached(c.limit, cum))], outs := s.outs[m := fs])
    case Eof =>
      var eof := c.At(m);
      var p := s.phases[m];
      s.(phases := s.phases[m := Flushed(eof, p.prev, false)],
         outs := s.outs[m := [Flush(p.start, eof, Pending(p.prev, c.L), 0, true)]])
    case Cut => s.(cutoff := m + 1, phases := s.phases[m := s.phases[m].(cut := false)])
    case StoreEnd => s.(phases := s.phases[m := Ended(s.phases[m].open, s.phases[m].cum)])
    case StoreCount => s.(phases := s.phases[m := Published(s.phases[m].open, s.phases[m].cum)])
  }

  ghost predicate Run(c: Config, states: seq<Chain>) {
    && c.Ok() && states != [] && Init(c, states[0])
    && forall i :: 0 <= i < |states| - 1 ==> Next(c, states[i], states[i + 1])
  }

  ghost predicate Next(c: Config, s: Chain, t: Chain) {
    exists m, a :: Enabled(c, s, m, a) && t == Do(c, s, m, a)
  }

  /** What chunk m has published once it is done. */
  ghost predicate Output(c: Config, m: nat, fs: seq<Flush>, open: nat, cum: nat)
    requires c.Ok() && m < |c.bounds|
  {
    var rs := c.At(m);
    if Reached(c.limit, c.LinesBefore(m)) then fs == [Flush(rs, rs, 0, 0, true)] && cum == c.limit
    else
      exists start ::
        c.input.EdgeOf(start, c.LinesBefore(m) - Pending(c.LinesBefore(m), c.L))
        && OutputFrom(c, m, start, fs, open, cum)
  }

  ghost predicate OutputFrom(c: Config, m: nat, start: nat, fs: seq<Flush>, open: nat, cum: nat)
    requires c.Ok() && m < |c.bounds|
  {
    if m + 1 < |c.bounds| then Scanned(c.input, c.At(m), c.At(m + 1), c.L, c.limit, start, fs, open, cum)
    else
      open == c.At(m) && cum == c.LinesBefore(m)
      && fs == [Flush(start, c.At(m), Pending(c.LinesBefore(m), c.L), 0, true)]
  }

  ghost predicate PhaseOk(c: Config, m: nat, p: Phase, fs: seq<Flush>)
    requires c.Ok() && m < |c.bounds|
  {
    match p
    case Waiting => fs == []
    case Scanning(start, prev) =>
      fs == [] && !Reached(c.limit, c.LinesBefore(m)) && Handed(c.input, c.L, c.limit, c.At(m), start, prev)
    case Skipping => fs == [] && Reached(c.limit, c.LinesBefore(m))
    case Flushed(open, cum, cut) =>
      Output(c, m, fs, open, cum) && (cut ==> Crosses(c, m))
    case Ended(open, cum) => Output(c, m, fs, open, cum)
    case Published(open, cum) => Output(c, m, fs, open, cum)
  }

  /** The limit falls inside chunk m. */
  ghost predicate Crosses(c: Config, m: nat)
    requires c.Ok()
  {
    m + 1 < |c.bounds| && !Reached(c.limit, c.LinesBefore(m)) && Reached(c.limit, c.LinesBefore(m + 1))
  }

  /** A chunk's cutoff store is behind it. */
  predicate PastCut(p: Phase) {
    p.Ended? || p.Published? || (p.Flushed? && !p.cut)
  }

  /** The cutoff names the chunk the limit falls into, and is set as soon as that
      chunk is past its store. */
  ghost predicate CutoffOk(c: Config, cutoff: nat, phases: seq<Phase>)
    requires c.Ok()
  {
    && (cutoff > 0 ==> Crosses(c, cutoff - 1))
    && forall m :: 0 <= m < |phases| && Crosses(c, m) && PastCut(phases[m]) ==> cutoff == m + 1
  }

  /** There is one such chunk at most. */
  lemma CrossesOnce(c: Config, j: nat, k: nat)
    requires c.Ok() && Crosses(c, j) && Crosses(c, k)
    ensures j == k
  {
    if j < k { c.input.CountMono(c.At(j + 1), c.At(k)); }
    if k < j { c.input.CountMono(c.At(k + 1), c.At(j)); }
  }

  ghost predicate Inv(c: Config, s: Chain) {
    && c.Ok() && |s.phases| == |s.outs| == |c.bounds| && CutoffOk(c, s.cutoff, s.phases)
    && forall m :: 0 <= m < |s.phases| ==> PhaseOk(c, m, s.phases[m], s.outs[m])
  }

  lemma InitInv(c: Config, s: Chain)
    requires c.Ok() && Init(c, s)
    ensures Inv(c, s)
  {
  }

  /** A published handoff is the one the successor's scan expects. */
  lemma HandoffFits(c: Config, m: nat, fs: seq<Flush>, open: nat, cum: nat)
    requires c.Ok() && m + 1 < |c.bounds| && Output(c, m, fs, open, cum)
    ensures Handed(c.input, c.L, c.limit, c.At(m + 1), open, cum)
    ensures Reached(c.limit, cum) <==> Reached(c.limit, c.LinesBefore(m + 1))
  {
    c.input.CountMono(c.At(m), c.At(m + 1));
  }

  lemma GateInv(c: Config, s: Chain, m: nat)
    requires Inv(c, s) && Enabled(c, s, m, Gate)
    ensures Inv(c, Do(c, s, m, Gate))
  {
    hide Output, Pending, Layout;
    if m > 0 {
      HandoffFits(c, m - 1, s.outs[m - 1], s.phases[m - 1].open, s.phases[m - 1].cum);
    } else {
      FirstHandoff(c);
    }
  }

  lemma FirstHandoff(c: Config)
    requires c.Ok()
    ensures c.At(0) == 0 && c.LinesBefore(0) == 0 && Handed(c.input, c.L, c.limit, 0, 0, 0)
  {
  }

  lemma EscapeInv(c: Config, s: Chain, m: nat)
    requires Inv(c, s) && Enabled(c, s, m, Escape)
    ensures Inv(c, Do(c, s, m, Escape))
  {
    c.input.CountMono(c.At(s.cutoff), c.At(m));
  }

  lemma SkipInv(c: Config, s: Chain, m: nat)
    requires Inv(c, s) && Enabled(c, s, m, Skip)
    ensures Inv(c, Do(c, s, m, Skip))
  {
  }

  lemma ScanInv(c: Config, s: Chain, m: nat, fs: seq<Flush>, open: nat, cum: nat)
    requires Inv(c, s) && Enabled(c, s, m, Scan(fs, open, cum))
    ensures Inv(c, Do(c, s, m, Scan(fs, open, cum)))
  {
    hide Pending, Scanned;
    var p := s.phases[m];
    assert PhaseOk(c, m, p, s.outs[m]);
    assert OutputFrom(c, m, p.start, fs, open, cum);
    assert Output(c, m, fs, open, cum);
    CrossingSeen(c, m, p.start, fs, open, cum);
    assert Reached(c.limit, cum) <==> Crosses(c, m);
  }

  lemma CrossingSeen(c: Config, m: nat, start: nat, fs: seq<Flush>, open: nat, cum: nat)
    requires c.Ok() && m + 1 < |c.bounds| && Scanned(c.input, c.At(m), c.At(m + 1), c.L, c.limit, start, fs, open, cum)
    ensures Reached(c.limit, cum) <==> Reached(c.limit, c.LinesBefore(m + 1))
  {
  }

  lemma EofInv(c: Config, s: Chain, m: nat)
    requires Inv(c, s) && Enabled(c, s, m, Eof)
    ensures Inv(c, Do(c, s, m, Eof))
  {
    hide Pending, Scanned;
    var p := s.phases[m];
    assert PhaseOk(c, m, p, s.outs[m]);
    assert OutputFrom(c, m, p.start, [Flush(p.start, c.At(m), Pending(p.prev, c.L), 0, true)], c.At(m), p.prev);
  }

  lemma StoreInv(c: Config, s: Chain, m: nat, a: Action)
    requires Inv(c, s) && Enabled(c, s, m, a) && (a.Cut? || a.StoreEnd? || a.StoreCount?)
    ensures Inv(c, Do(c, s, m, a))
  {
    hide Output, Layout;
    assert PhaseOk(c, m, s.phases[m], s.outs[m]);
    if a.Cut? {
      forall k | 0 <= k < |s.phases| && Crosses(c, k) ensures k == m { CrossesOnce(c, k, m); }
    }
    hide Crosses, PhaseOk;
  }

  lemma StepInv(c: Config, s: Chain, t: Chain)
    requires Inv(c, s) && Next(c, s, t)
    ensures Inv(c, t)
  {
    hide Inv;
    var m, a :| Enabled(c, s, m, a) && t == Do(c, s, m, a);
    match a
    case Gate => GateInv(c, s, m);
    case Escape => EscapeInv(c, s, m);
    case Skip => SkipInv(c, s, m);
    case Scan(fs, open, cum) => ScanInv(c, s, m, fs, open, cum);
    case Eof => EofInv(c, s, m);
    case Cut => StoreInv(c, s, m, a);
    case StoreEnd => StoreInv(c, s, m, a);
    case StoreCount => StoreInv(c, s, m, a);
  }

  lemma {:induction false} RunInv(c: Config, states: seq<Chain>, i: nat)
    requires Run(c, states) && i < |states|
    ensures Inv(c, states[i])
  {
    if i == 0 {
      InitInv(c, states[0]);
    } else {
      RunInv(c, states, i - 1);
      assert Next(c, states[i - 1], states[i - 1 + 1]);
      StepInv(c, states[i - 1], states[i]);
    }
  }

  /** As soon as the chunk that reaches the limit has handed on, the cutoff is that
      chunk, and every chunk after it that still waits can escape; no other chunk
      is ever the cutoff. */
  lemma CutoffExact(c: Config, states: seq<Chain>, i: nat)
    requires Run(c, states) && i < |states|
    ensures states[i].cutoff > 0 ==> Crosses(c, states[i].cutoff - 1)
    ensures |states[i].phases| == |c.bounds|
    ensures forall m, k :: 0 <= m < k < |c.bounds| && Crosses(c, m) && PastCut(states[i].phases[m]) ==>
      states[i].cutoff == m + 1 && (states[i].phases[k].Waiting? ==> Enabled(c, states[i], k, Escape))
  {
    RunInv(c, states, i);
    hide PhaseOk, Run;
  }

  /** The first n chunks have their batches out. */
  ghost predicate Out(s: Chain, n: nat) {
    n <= |s.outs| && forall m :: 0 <= m < n ==> s.outs[m] != []
  }

  /** Where the open batch starts once the first `m` raw chunks are scanned. */
  ghost predicate OpenAt(c: Config, m: nat, x: nat)
    requires c.Ok() && m < |c.bounds|
  {
    if Reached(c.limit, c.LinesBefore(m)) then c.input.EdgeOf(x, c.limit)
    else c.input.EdgeOf(x, c.LinesBefore(m) - Pending(c.LinesBefore(m), c.L))
  }

  /** The batches of the first `n` raw chunks, in chunk order: they tile the
      input up to the open batch and are exact until the limit closes the last. */
  ghost predicate Prefix(c: Config, s: Chain, n: nat, x: nat)
    requires c.Ok() && n < |c.bounds| == |s.outs|
  {
    && OpenAt(c, n, x) && Tiles(Flat(s.outs, n), 0, x)
    && if Reached(c.limit, c.LinesBefore(n)) then ClosingExact(c.input, c.L, Flat(s.outs, n))
       else AllExact(c.input, c.L, Flat(s.outs, n))
  }

  lemma AllExactJoin(input: Input, L: nat, fs: seq<Flush>, gs: seq<Flush>)
    requires AllExact(input, L, fs)
    ensures AllExact(input, L, gs) ==> AllExact(input, L, fs + gs)
    ensures ClosingExact(input, L, gs) ==> ClosingExact(input, L, fs + gs)
  {
    if ClosingExact(input, L, gs) {
      var k :| 0 <= k < |gs| && AllExact(input, L, gs[..k]) && AtMost(input, L, gs[k]) && AllEmpty(gs[k + 1..]);
      hide AtMost;
      var all := fs + gs;
      assert all[..|fs| + k] == fs + gs[..k];
      assert all[|fs| + k] == gs[k];
      assert all[|fs| + k + 1..] == gs[k + 1..];
    }
  }

  lemma ClosedJoin(input: Input, L: nat, fs: seq<Flush>, gs: seq<Flush>)
    requires ClosingExact(input, L, fs) && AllEmpty(gs)
    ensures ClosingExact(input, L, fs + gs)
  {
    var k :| 0 <= k < |fs| && AllExact(input, L, fs[..k]) && AtMost(input, L, fs[k]) && AllEmpty(fs[k + 1..]);
    hide AllExact, AtMost;
    var all := fs + gs;
    DropFront(fs, gs, k + 1);
    assert all[..k] == fs[..k] && all[k] == fs[k];
  }

  lemma DropFront<T>(fs: seq<T>, gs: seq<T>, k: nat)
    requires k <= |fs|
    ensures (fs + gs)[k..] == fs[k..] + gs
  {
  }

  /** A chunk below the limit picks up the open batch where it stood. */
  lemma ScannedPrefix(c: Config, s: Chain, n: nat, x: nat, open: nat, cum: nat)
    requires c.Ok() && n + 1 < |c.bounds| == |s.outs| && Prefix(c, s, n, x) && !Reached(c.limit, c.LinesBefore(n))
    requires Output(c, n, s.outs[n], open, cum)
    ensures Prefix(c, s, n + 1, open)
  {
    hide Pending, Tiles, AllExact, ClosingExact, Numbered, Flat;
    var start :| c.input.EdgeOf(start, c.LinesBefore(n) - Pending(c.LinesBefore(n), c.L))
      && OutputFrom(c, n, start, s.outs[n], open, cum);
    c.input.EdgeUnique(start, x, c.LinesBefore(n) - Pending(c.LinesBefore(n), c.L));
    assert Scanned(c.input, c.At(n), c.At(n + 1), c.L, c.limit, start, s.outs[n], open, cum);
    FlatStep(s.outs, n);
    TilesJoin(Flat(s.outs, n), s.outs[n], 0, x, open);
    AllExactJoin(c.input, c.L, Flat(s.outs, n), s.outs[n]);
  }

  lemma FlatStep(outs: seq<seq<Flush>>, n: nat)
    requires n < |outs|
    ensures Flat(outs, n + 1) == Flat(outs, n) + outs[n]
  {
  }

  /** Chunks past the limit add only empty markers. */
  lemma SkippedPrefix(c: Config, s: Chain, n: nat, x: nat)
    requires c.Ok() && n + 1 < |c.bounds| == |s.outs| && Prefix(c, s, n, x) && Reached(c.limit, c.LinesBefore(n))
    requires s.outs[n] == [Flush(c.At(n), c.At(n), 0, 0, true)]
    ensures Prefix(c, s, n + 1, x)
  {
    c.input.CountMono(c.At(n), c.At(n + 1));
    hide Pending, Tiles, AllExact, ClosingExact, Flat;
    FlatStep(s.outs, n);
    TilesAppend(Flat(s.outs, n), 0, x, s.outs[n][0]);
    ClosedJoin(c.input, c.L, Flat(s.outs, n), s.outs[n]);
  }

  lemma {:induction false} PrefixAt(c: Config, s: Chain, n: nat) returns (x: nat)
    requires Inv(c, s) && Out(s, n) && n < |c.bounds|
    ensures Prefix(c, s, n, x)
  {
    hide Prefix, Output;
    if n == 0 {
      x := 0;
      NoPrefix(c, s);
    } else {
      var before := PrefixAt(c, s, n - 1);
      var p := s.phases[n - 1];
      assert PhaseOk(c, n - 1, p, s.outs[n - 1]);
      if Reached(c.limit, c.LinesBefore(n - 1)) {
        x := before;
        PastLimit(c, n - 1, s.outs[n - 1], p.open, p.cum);
        SkippedPrefix(c, s, n - 1, x);
      } else {
        x := p.open;
        ScannedPrefix(c, s, n - 1, before, p.open, p.cum);
      }
    }
  }

  lemma NoPrefix(c: Config, s: Chain)
    requires c.Ok() && |c.bounds| == |s.outs|
    ensures Prefix(c, s, 0, 0)
  {
    assert c.At(0) == 0;
  }

  lemma PastLimit(c: Config, m: nat, fs: seq<Flush>, open: nat, cum: nat)
    requires c.Ok() && m < |c.bounds| && Output(c, m, fs, open, cum) && Reached(c.limit, c.LinesBefore(m))
    ensures fs == [Flush(c.At(m), c.At(m), 0, 0, true)]
  {
  }

  /** The sequential reading of the input: consecutive batches from byte 0 to the
      stop, each exactly L lines but for the last that is not empty, which has at
      most L and which only markers follow. */
  ghost predicate SequentialSplit(input: Input, L: nat, limit: nat, fs: seq<Flush>, stop: nat) {
    && Stop(input, limit, stop) && Tiles(fs, 0, stop)
    && exists k :: 0 <= k < |fs| && AllExact(input, L, fs[..k]) && Short(input, L, fs[k]) && AllEmpty(fs[k + 1..])
  }

  ghost predicate Short(input: Input, L: nat, f: Flush) {
    f.start <= f.end <= |input.bytes| && input.Count(f.end) == input.Count(f.start) + f.lines && f.lines <= L
  }

  /** Nothing more can be delivered once these n chunks are out. */
  ghost predicate Closed(c: Config, n: nat)
    requires c.Ok() && n <= |c.bounds|
  {
    n == |c.bounds| || Reached(c.limit, c.LinesBefore(n))
  }

  /** Whatever the interleaving, in every reachable state: the batches of the
      first n chunks tile the input up to the open batch and are exact.  Once the
      limit or the end of the stream is among them, the batches of all chunks are
      the sequential split, delivering exactly the first `limit` lines (or the
      whole input), whether or not ingest publishes the rest of the input. */
  lemma HandoffRefinesSequentialSplit(c: Config, states: seq<Chain>, i: nat, n: nat) returns (x: nat)
    requires Run(c, states) && i < |states| && Out(states[i], n)
    ensures n <= |c.bounds| == |states[i].outs| && Tiles(Flat(states[i].outs, n), 0, x)
    ensures if Closed(c, n) then SequentialSplit(c.input, c.L, c.limit, Flat(states[i].outs, |c.bounds|), x)
            else Prefix(c, states[i], n, x)
  {
    RunInv(c, states, i);
    var s := states[i];
    if n < |c.bounds| {
      x := PrefixAt(c, s, n);
      if Closed(c, n) { ClosedEarly(c, s, n, x); }
    } else {
      x := WholeStream(c, s);
    }
  }

  lemma WholeStream(c: Config, s: Chain) returns (stop: nat)
    requires Inv(c, s) && Out(s, |c.bounds|)
    ensures SequentialSplit(c.input, c.L, c.limit, Flat(s.outs, |c.bounds|), stop)
  {
    var last := |c.bounds| - 1;
    stop := PrefixAt(c, s, last);
    var p := s.phases[last];
    assert PhaseOk(c, last, p, s.outs[last]);
    hide Output, Prefix, SequentialSplit, Flat, Pending;
    FlatStep(s.outs, last);
    if Reached(c.limit, c.LinesBefore(last)) {
      PastLimit(c, last, s.outs[last], p.open, p.cum);
      EndPastLimit(c, s, last, stop);
    } else {
      EndOfStream(c, s, last, stop, p.open, p.cum);
      stop := c.At(last);
    }
  }

  /** Past the limit a chunk has nothing out, or a marker. */
  lemma MarkerPast(c: Config, s: Chain, n: nat, m: nat)
    requires Inv(c, s) && n <= m < |c.bounds| && Reached(c.limit, c.LinesBefore(n))
    ensures s.outs[m] == [] || s.outs[m] == [Flush(c.At(m), c.At(m), 0, 0, true)]
    ensures Reached(c.limit, c.LinesBefore(m))
  {
    c.input.CountMono(c.At(n), c.At(m));
    hide Input.Count, Layout, Scanned;
    assert PhaseOk(c, m, s.phases[m], s.outs[m]);
  }

  lemma {:induction false} MarkersFollow(c: Config, s: Chain, n: nat, k: nat, x: nat)
    requires Inv(c, s) && n <= k < |c.bounds| && Reached(c.limit, c.LinesBefore(n)) && Prefix(c, s, n, x)
    ensures Prefix(c, s, k, x) && Reached(c.limit, c.LinesBefore(k))
  {
    hide *;
    Sized(c, s);
    if n < k {
      MarkersFollow(c, s, n, k - 1, x);
      MarkerPast(c, s, n, k - 1);
      MarkerPast(c, s, n, k);
      if s.outs[k - 1] == [] { EmptyPrefix(c, s, k - 1, x); } else { SkippedPrefix(c, s, k - 1, x); }
    }
  }

  lemma Sized(c: Config, s: Chain)
    requires Inv(c, s)
    ensures c.Ok() && |s.phases| == |s.outs| == |c.bounds| > 0
  {
  }

  lemma EmptyPrefix(c: Config, s: Chain, n: nat, x: nat)
    requires c.Ok() && n + 1 < |c.bounds| == |s.outs| && Prefix(c, s, n, x) && Reached(c.limit, c.LinesBefore(n))
    requires s.outs[n] == [] && Reached(c.limit, c.LinesBefore(n + 1))
    ensures Prefix(c, s, n + 1, x)
  {
    hide Tiles, ClosingExact;
    assert Flat(s.outs, n + 1) == Flat(s.outs, n);
  }

  lemma ClosedEarly(c: Config, s: Chain, n: nat, x: nat)
    requires Inv(c, s) && n < |c.bounds| && Reached(c.limit, c.LinesBefore(n)) && Prefix(c, s, n, x)
    ensures SequentialSplit(c.input, c.L, c.limit, Flat(s.outs, |c.bounds|), x)
  {
    hide *;
    Sized(c, s);
    var last := |c.bounds| - 1;
    MarkersFollow(c, s, n, last, x);
    MarkerPast(c, s, n, last);
    FlatStep(s.outs, last);
    if s.outs[last] == [] {
      NoMore(Flat(s.outs, last), s.outs[last]);
      SplitByLimit(c, s, last, x);
    } else {
      EndPastLimit(c, s, last, x);
    }
  }

  lemma NoMore(fs: seq<Flush>, gs: seq<Flush>)
    requires gs == []
    ensures fs + gs == fs
  {
  }

  /** Once the limit is reached the prefix is already a sequential split. */
  lemma SplitByLimit(c: Config, s: Chain, n: nat, x: nat)
    requires c.Ok() && n < |c.bounds| == |s.outs| && Prefix(c, s, n, x) && Reached(c.limit, c.LinesBefore(n))
    ensures SequentialSplit(c.input, c.L, c.limit, Flat(s.outs, n), x)
  {
    c.input.CountMono(c.At(n), |c.input.bytes|);
    hide Pending, Tiles, AllExact, Flat, Input.Count, Input.Edge;
    var fs := Flat(s.outs, n);
    var k :| 0 <= k < |fs| && AllExact(c.input, c.L, fs[..k]) && AtMost(c.input, c.L, fs[k]) && AllEmpty(fs[k + 1..]);
    assert Short(c.input, c.L, fs[k]);
  }

  lemma EndPastLimit(c: Config, s: Chain, last: nat, x: nat)
    requires c.Ok() && last + 1 == |c.bounds| == |s.outs|
    requires Prefix(c, s, last, x) && Reached(c.limit, c.LinesBefore(last))
    requires s.outs[last] == [Flush(c.At(last), c.At(last), 0, 0, true)]
    ensures SequentialSplit(c.input, c.L, c.limit, Flat(s.outs, last) + s.outs[last], x)
  {
    hide Pending, Tiles, AllExact, Flat, Input.Count, Input.Edge;
    var fs := Flat(s.outs, last) + s.outs[last];
    TilesAppend(Flat(s.outs, last), 0, x, s.outs[last][0]);
    ClosedJoin(c.input, c.L, Flat(s.outs, last), s.outs[last]);
    var k :| 0 <= k < |fs| && AllExact(c.input, c.L, fs[..k]) && AtMost(c.input, c.L, fs[k]) && AllEmpty(fs[k + 1..]);
    assert Short(c.input, c.L, fs[k]);
  }

  lemma EndOfStream(c: Config, s: Chain, last: nat, x: nat, open: nat, cum: nat)
    requires c.Ok() && last + 1 == |c.bounds| == |s.outs|
    requires Prefix(c, s, last, x) && !Reached(c.limit, c.LinesBefore(last))
    requires Output(c, last, s.outs[last], open, cum)
    ensures SequentialSplit(c.input, c.L, c.limit, Flat(s.outs, last) + s.outs[last], c.At(last))
  {
    hide Pending, Tiles, AllExact, Flat;
    var n := c.LinesBefore(last);
    var start :| c.input.EdgeOf(start, n - Pending(n, c.L)) && OutputFrom(c, last, start, s.outs[last], open, cum);
    c.input.EdgeUnique(start, x, n - Pending(n, c.L));
    c.input.EdgeOrder(start, c.At(last));
    var fs := Flat(s.outs, last) + s.outs[last];
    TilesAppend(Flat(s.outs, last), 0, x, s.outs[last][0]);
    var k := |Flat(s.outs, last)|;
    assert fs[..k] == Flat(s.outs, last) && fs[k] == s.outs[last][0] && fs[k + 1..] == [];
  }

  /** The handoff of every raw chunk below the limit: the delimiters so far, and
      the edge after the last whole batch of them. */
  lemma HandoffClosedForm(c: Config, states: seq<Chain>, i: nat, m: nat)
    requires Run(c, states) && i < |states| && m + 1 < |c.bounds| == |states[i].phases|
    requires states[i].phases[m].Published? && !Reached(c.limit, c.LinesBefore(m + 1))
    ensures states[i].phases[m].cum == c.LinesBefore(m + 1)
    ensures c.input.EdgeOf(states[i].phases[m].open, c.LinesBefore(m + 1) - c.LinesBefore(m + 1) % c.L)
  {
    RunInv(c, states, i);
    var p := states[i].phases[m];
    assert PhaseOk(c, m, p, states[i].outs[m]);
    HandoffFits(c, m, states[i].outs[m], p.open, p.cum);
    PendingIsMod(p.cum, c.L);
  }

  /** Every chunk's minors run 0..k with only the k-th flagged, and k is at most
      the chunk's length. */
  lemma MinorsFit(c: Config, states: seq<Chain>, i: nat, m: nat)
    requires Run(c, states) && i < |states| && m < |c.bounds| == |states[i].phases| == |states[i].outs|
    requires states[i].outs[m] != []
    ensures Numbered(states[i].outs[m]) && |states[i].outs[m]| <= RawEnd(c.bounds, m) - RawStart(c.bounds, m) + 1
  {
    RunInv(c, states, i);
    var p := states[i].phases[m];
    assert PhaseOk(c, m, p, states[i].outs[m]);
    hide Pending, Tiles, AllExact, ClosingExact;
    assert c.At(m) == c.bounds[m];
  }

  ghost predicate CanGoOn(c: Config, s: Chain, m: nat)
    requires m < |s.phases|
  {
    !s.phases[m].Published? && (s.phases[m].Waiting? ==> Enabled(c, s, m, Gate))
  }

  /** No scanner waits for a handoff nobody will publish: as long as chunk n is
      not done, it or one before it can pass the gate or is already past it. */
  lemma {:induction false} GateNeverHangs(c: Config, states: seq<Chain>, i: nat, n: nat) returns (m: nat)
    requires Run(c, states) && i < |states| && n < |states[i].phases| && !states[i].phases[n].Published?
    ensures m <= n && CanGoOn(c, states[i], m)
  {
    if n == 0 || states[i].phases[n - 1].Published? {
      RunInv(c, states, i);
      m := n;
    } else {
      m := GateNeverHangs(c, states, i, n - 1);
    }
  }
}
