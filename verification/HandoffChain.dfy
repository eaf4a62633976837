/** Exact-L batches across chunks: the scanner-handoff chain of the -L path. */
module HandoffChain {
  import opened Stream
  import opened VectorScan

  /** Lines of `cum` that no complete batch holds. */
  function Pending(cum: nat, L: nat): (r: nat)
    requires L > 0
    ensures r < L && r <= cum
  {
    if cum < L then cum else Pending(cum - L, L)
  }

  lemma {:induction false} PendingIsMod(cum: nat, L: nat)
    requires L > 0
    ensures Pending(cum, L) == cum % L
  {
    if cum >= L {
      PendingIsMod(cum - L, L);
      ModShift(cum - L, L);
    }
  }

  lemma ModShift(a: nat, L: nat)
    requires L > 0
    ensures (a + L) % L == a % L
  {
    Divided(a, L);
    Divided(a + L, L);
    Remainders(L, a / L + 1, a % L, (a + L) / L, (a + L) % L);
  }

  lemma Divided(a: nat, L: nat)
    requires L > 0
    ensures a == L * (a / L) + a % L
  {
  }

  /** Quotient and remainder are unique. */
  lemma Remainders(L: nat, q: int, r: nat, q': int, r': nat)
    requires r < L && r' < L && L * q + r == L * q' + r'
    ensures r == r'
  {
    if q < q' { Apart(L, q, q'); } else if q' < q { Apart(L, q', q); }
  }

  lemma Apart(L: nat, q: int, q': int)
    requires q < q'
    ensures L * q' >= L * q + L
  {
    Grows(L, q' - q);
    assert L * q' == L * q + L * (q' - q);
  }

  lemma Grows(L: nat, k: int)
    requires k >= 1
    ensures L * k >= L
  {
  }

  lemma {:induction false} PendingAdd(cum: nat, k: nat, L: nat)
    requires L > 0 && Pending(cum, L) + k <= L
    ensures Pending(cum + k, L) == if Pending(cum, L) + k == L then 0 else Pending(cum, L) + k
  {
    if cum >= L { PendingAdd(cum - L, k, L); }
  }

  /** Every batch of `fs` is exactly L lines long and ends at an edge. */
  ghost predicate AllExact(input: Input, L: nat, fs: seq<Flush>) {
    forall i :: 0 <= i < |fs| ==> ExactBatch(input, L, fs[i])
  }

  /** Empty, or exactly L lines ending in a delimiter. */
  ghost predicate ExactBatch(input: Input, L: nat, f: Flush) {
    f.start <= f.end <= |input.bytes|
    && (f.start < f.end ==> f.lines == L && input.Count(f.end) == input.Count(f.start) + L && input.Edge(f.end))
  }

  /** Where delivery stops: the edge of line `limit`, if the input has one. */
  ghost predicate Stop(input: Input, limit: nat, x: nat) {
    if Reached(limit, input.Count(|input.bytes|)) then input.EdgeOf(x, limit) else x == |input.bytes|
  }

  /** A chunk's handoff, as its successor must find it: where the open batch
      starts and how many lines precede the successor. */
  ghost predicate Handed(input: Input, L: nat, limit: nat, x: nat, open: nat, cum: nat)
    requires L > 0 && x <= |input.bytes|
  {
    if Reached(limit, input.Count(x)) then cum == limit
    else cum == input.Count(x) && input.EdgeOf(open, cum - Pending(cum, L))
  }

  /** What scanning one raw chunk publishes. */
  ghost predicate Scanned(input: Input, rs: nat, re: nat, L: nat, limit: nat, start: nat, fs: seq<Flush>, open: nat,
                          cum: nat)
    requires L > 0 && re <= |input.bytes|
  {
    && Numbered(fs) && Tiles(fs, start, open) && |fs| <= re - rs + 1
    && Handed(input, L, limit, re, open, cum)
    && if Reached(limit, input.Count(re)) then input.EdgeOf(open, limit) && ClosingExact(input, L, fs)
       else AllExact(input, L, fs)
  }

  /** All batches but perhaps the last are exact, and the last is no longer. */
  ghost predicate ClosingExact(input: Input, L: nat, fs: seq<Flush>) {
    exists k :: 0 <= k < |fs| && AllExact(input, L, fs[..k]) && AtMost(input, L, fs[k])
      && AllEmpty(fs[k + 1..])
  }

  ghost predicate AtMost(input: Input, L: nat, f: Flush) {
    && f.start <= f.end <= |input.bytes| && input.Edge(f.end)
    && input.Count(f.end) == input.Count(f.start) + f.lines && 0 < f.lines <= L
  }

  ghost predicate AllEmpty(fs: seq<Flush>) {
    forall i :: 0 <= i < |fs| ==> fs[i].start == fs[i].end
  }

  /** Mid-chunk state: complete batches behind `open`, scanned up to `p`. */
  ghost predicate Mid(input: Input, L: nat, rs: nat, re: nat, start: nat, fs: seq<Flush>, open: nat, p: nat,
                      flagged: bool)
    requires L > 0 && p <= |input.bytes|
  {
    && rs <= p <= re && |fs| <= p - rs
    && Tiles(fs, start, open) && AllExact(input, L, fs)
    && input.EdgeOf(open, input.Count(p) - Pending(input.Count(p), L))
    && (if flagged then p == re && Numbered(fs) else Counting(fs))
  }

  lemma MidStart(input: Input, L: nat, limit: nat, rs: nat, re: nat, start: nat, prev: nat)
    requires L > 0 && rs < re <= |input.bytes| && !Reached(limit, input.Count(rs))
    requires Handed(input, L, limit, rs, start, prev)
    ensures Mid(input, L, rs, re, start, [], start, rs, false) && prev == input.Count(rs)
  {
  }

  /** A batch from the open edge to a delimiter ahead of `p` tiles on. */
  lemma FlushAhead(input: Input, L: nat, rs: nat, re: nat, start: nat, fs: seq<Flush>, open: nat, p: nat, x: nat,
                   need: nat)
    requires L > 0 && p < x <= re <= |input.bytes| && Mid(input, L, rs, re, start, fs, open, p, false)
    requires 0 < need && input.EdgeOf(x, input.Count(p) + need)
    ensures open < x && input.Count(x) == input.Count(open) + Pending(input.Count(p), L) + need
    ensures Tiles(fs + [Flush(open, x, Pending(input.Count(p), L) + need, |fs|, x >= re)], start, x)
  {
    input.EdgeOrder(x, open);
    TilesAppend(fs, start, open, Flush(open, x, Pending(input.Count(p), L) + need, |fs|, x >= re));
  }

  /** Sealing a complete batch. */
  lemma Seal(input: Input, L: nat, rs: nat, re: nat, start: nat, fs: seq<Flush>, open: nat, p: nat, x: nat)
    requires L > 0 && p < x <= re <= |input.bytes| && Mid(input, L, rs, re, start, fs, open, p, false)
    requires input.EdgeOf(x, input.Count(p) + L - Pending(input.Count(p), L))
    ensures Mid(input, L, rs, re, start, fs + [Flush(open, x, L, |fs|, x >= re)], x, x, x >= re)
    ensures Pending(input.Count(x), L) == 0
  {
    var f := Flush(open, x, L, |fs|, x >= re);
    FlushAhead(input, L, rs, re, start, fs, open, p, x, L - Pending(input.Count(p), L));
    PendingAdd(input.Count(p), L - Pending(input.Count(p), L), L);
    NumberedAppend(fs, f);
    AllExactAppend(input, L, fs, f);
  }

  lemma AllExactAppend(input: Input, L: nat, fs: seq<Flush>, f: Flush)
    requires AllExact(input, L, fs) && ExactBatch(input, L, f)
    ensures AllExact(input, L, fs + [f])
  {
  }

  /** The chunk's last entry: none if a flagged batch already ended it. */
  function Ended(fs: seq<Flush>, open: nat, flagged: bool): seq<Flush> {
    if flagged then fs else fs + [Flush(open, open, 0, |fs|, true)]
  }

  /** The end of a chunk below the limit. */
  lemma Finish(input: Input, L: nat, limit: nat, rs: nat, re: nat, start: nat, fs: seq<Flush>, open: nat, p: nat,
               flagged: bool)
    requires L > 0 && p <= re <= |input.bytes| && Mid(input, L, rs, re, start, fs, open, p, flagged)
    requires Pending(input.Count(p), L) + (input.Count(re) - input.Count(p)) < L && !Reached(limit, input.Count(re))
    ensures Scanned(input, rs, re, L, limit, start, Ended(fs, open, flagged), open, input.Count(re))
  {
    input.CountMono(p, re);
    PendingAdd(input.Count(p), input.Count(re) - input.Count(p), L);
    EndedTiles(start, fs, open, flagged);
    if !flagged { AllExactAppend(input, L, fs, Flush(open, open, 0, |fs|, true)); }
  }

  /** The chunk that crosses the limit: its last batch may be short. */
  lemma Close(input: Input, L: nat, limit: nat, rs: nat, re: nat, start: nat, fs: seq<Flush>, open: nat, p: nat, x: nat,
              need: nat)
    requires L > 0 && p < x <= re <= |input.bytes| && Mid(input, L, rs, re, start, fs, open, p, false)
    requires 0 < need <= L - Pending(input.Count(p), L) && limit == input.Count(p) + need
    requires input.EdgeOf(x, limit)
    ensures var f := Flush(open, x, Pending(input.Count(p), L) + need, |fs|, x >= re);
      Scanned(input, rs, re, L, limit, start, Ended(fs + [f], x, x >= re), x, limit)
    ensures Reached(limit, input.Count(re))
  {
    hide Input.Count, Pending, Tiles, Numbered, Counting, AllExact, ClosingExact, Ended;
    var f := Flush(open, x, Pending(input.Count(p), L) + need, |fs|, x >= re);
    input.CountMono(x, re);
    FlushAhead(input, L, rs, re, start, fs, open, p, x, need);
    NumberedAppend(fs, f);
    EndedTiles(start, fs + [f], x, x >= re);
    ClosingEnds(input, L, fs, f, x, x >= re);
  }

  lemma EndedTiles(start: nat, fs: seq<Flush>, open: nat, flagged: bool)
    requires Tiles(fs, start, open) && if flagged then Numbered(fs) else Counting(fs)
    ensures var gs := Ended(fs, open, flagged);
      Numbered(gs) && Tiles(gs, start, open) && |gs| <= |fs| + if flagged then 0 else 1
  {
    if !flagged {
      NumberedAppend(fs, Flush(open, open, 0, |fs|, true));
      TilesAppend(fs, start, open, Flush(open, open, 0, |fs|, true));
    }
  }

  lemma ClosingEnds(input: Input, L: nat, fs: seq<Flush>, f: Flush, x: nat, flagged: bool)
    requires AllExact(input, L, fs) && AtMost(input, L, f)
    ensures ClosingExact(input, L, Ended(fs + [f], x, flagged))
  {
    hide AllExact, AtMost;
    var gs := Ended(fs + [f], x, flagged);
    assert gs[..|fs|] == fs && gs[|fs|] == f;
  }

  /** A hit seals the open batch: the chunk goes on, or the limit ends it. */
  lemma Publish(input: Input, L: nat, limit: nat, rs: nat, re: nat, start: nat, fs: seq<Flush>, open: nat, p: nat,
                x: nat, need: nat)
    requires L > 0 && p < x <= re <= |input.bytes| && Mid(input, L, rs, re, start, fs, open, p, false)
    requires 0 < need <= L - Pending(input.Count(p), L) && input.EdgeOf(x, input.Count(p) + need)
    requires limit > 0 ==> input.Count(p) + need <= limit
    requires need < L - Pending(input.Count(p), L) ==> limit == input.Count(p) + need
    ensures input.Count(x) == input.Count(p) + need
    ensures var gs := fs + [Flush(open, x, Pending(input.Count(p), L) + need, |fs|, x >= re)];
      if Reached(limit, input.Count(x))
      then Scanned(input, rs, re, L, limit, start, Ended(gs, x, x >= re), x, limit) && Reached(limit, input.Count(re))
      else Mid(input, L, rs, re, start, gs, x, x, x >= re) && Pending(input.Count(x), L) == 0
  {
    hide Mid, Scanned, Input.Count, Pending, Ended, Input.Edge;
    if Reached(limit, input.Count(x)) {
      Close(input, L, limit, rs, re, start, fs, open, p, x, need);
    } else {
      Seal(input, L, rs, re, start, fs, open, p, x);
    }
  }

  /** Jump to the delimiter that fills the open batch or spends the budget. */
  method SearchBatch(simd: Simd, input: Input, L: nat, limit: nat, p: nat, end: nat, spent: nat, inBatch: nat)
    returns (need: nat, hit: Hit)
    requires p <= end <= |input.bytes| && inBatch < L && !Reached(limit, spent)
    ensures 0 < need <= L - inBatch && (limit > 0 ==> spent + need <= limit)
    ensures need < L - inBatch ==> limit == spent + need
    ensures NthHit(input, p, end, need, hit)
  {
    need := L - inBatch;
    if limit > 0 && need > limit - spent { need := limit - spent; }
    hit := ScanNthDelim(simd, input, p, end, need);
  }

  /** The scan loop's state: mid-chunk with `inBatch` lines in the open batch,
      `sealed` in complete ones, and the limit not reached. */
  ghost predicate Scanning(input: Input, L: nat, limit: nat, rs: nat, re: nat, start: nat, fs: seq<Flush>, open: nat,
                           p: nat, flagged: bool, sealed: nat, inBatch: nat)
  {
    && L > 0 && p <= re <= |input.bytes| && Mid(input, L, rs, re, start, fs, open, p, flagged)
    && inBatch == Pending(input.Count(p), L) && sealed + inBatch == input.Count(p)
    && (flagged <==> p >= re) && !Reached(limit, input.Count(p))
  }

  lemma ScanStart(input: Input, L: nat, limit: nat, rs: nat, re: nat, start: nat, prev: nat)
    requires L > 0 && rs < re <= |input.bytes| && !Reached(limit, input.Count(rs))
    requires Handed(input, L, limit, rs, start, prev)
    ensures Scanning(input, L, limit, rs, re, start, [], start, rs, false, prev - Pending(prev, L), Pending(prev, L))
  {
    MidStart(input, L, limit, rs, re, start, prev);
  }

  /** The end of a chunk below the limit, `tail` lines after the last stop. */
  lemma ScanEnd(input: Input, L: nat, limit: nat, rs: nat, re: nat, start: nat, fs: seq<Flush>, open: nat, p: nat,
                flagged: bool, sealed: nat, inBatch: nat, tail: nat)
    requires Scanning(input, L, limit, rs, re, start, fs, open, p, flagged, sealed, inBatch)
    requires input.Count(re) == sealed + inBatch + tail
    requires inBatch + tail < L && !Reached(limit, sealed + inBatch + tail)
    ensures Scanned(input, rs, re, L, limit, start, Ended(fs, open, flagged), open, sealed + inBatch + tail)
  {
    hide Mid, Scanned, Ended, Input.Count, Pending;
    Finish(input, L, limit, rs, re, start, fs, open, p, flagged);
  }

  lemma ScanSums(input: Input, L: nat, limit: nat, rs: nat, re: nat, start: nat, fs: seq<Flush>, open: nat, p: nat,
                 flagged: bool, sealed: nat, inBatch: nat)
    requires Scanning(input, L, limit, rs, re, start, fs, open, p, flagged, sealed, inBatch)
    ensures inBatch < L && p <= re <= |input.bytes| && sealed + inBatch == input.Count(p)
    ensures !Reached(limit, sealed + inBatch) && (flagged <==> p >= re)
  {
  }

  /** One round of the scan loop: if the batch fills or the budget is spent within
      the window, flush it and say where it ended and how many lines it took. */
  method NextBatch(simd: Simd, input: Input, L: nat, limit: nat, ghost rs: nat, re: nat, ghost start: nat, p: nat,
                   end: nat, fs: seq<Flush>, open: nat, ghost flagged: bool, sealed: nat, inBatch: nat)
    returns (gs: seq<Flush>, x: nat, need: nat, found: bool)
    requires p < end <= re && Scanning(input, L, limit, rs, re, start, fs, open, p, flagged, sealed, inBatch)
    ensures !found ==> gs == fs && x == open && input.Count(end) < sealed + inBatch + need
    ensures inBatch + need <= L && (limit > 0 ==> sealed + inBatch + need <= limit)
    ensures found ==> p < x <= end
    ensures found ==>
      if Reached(limit, sealed + inBatch + need)
      then Scanned(input, rs, re, L, limit, start, Ended(gs, x, x >= re), x, limit) && Reached(limit, input.Count(re))
      else Scanning(input, L, limit, rs, re, start, gs, x, x, x >= re, sealed + inBatch + need, 0)
  {
    hide Mid, Scanned, Ended, Pending, Input.Count, Input.EdgeOf;
    ScanSums(input, L, limit, rs, re, start, fs, open, p, flagged, sealed, inBatch);
    var hit;
    // The budget is never exhausted here, so the arm for that never runs.
    need, hit := SearchBatch(simd, input, L, limit, p, end, sealed + inBatch, inBatch);
    gs, x, found := fs, open, hit.At?;
    if found {
      x := hit.pos;
      gs := fs + [Flush(open, x, inBatch + need, |fs|, x >= re)];
      Publish(input, L, limit, rs, re, start, fs, open, p, x, need);
    }
  }

  /** The scan loop of one chunk.  `window` is the read buffer. */
  method ScanChunk(simd: Simd, input: Input, rs: nat, re: nat, window: nat, L: nat, limit: nat, start: nat, prev: nat)
    returns (fs: seq<Flush>, open: nat, cum: nat, hitLimit: bool)
    requires L > 0 && rs < re <= |input.bytes| && re - rs <= window
    requires !Reached(limit, input.Count(rs)) && Handed(input, L, limit, rs, start, prev)
    ensures Scanned(input, rs, re, L, limit, start, fs, open, cum)
    ensures hitLimit <==> Reached(limit, input.Count(re))
  {
    hide Scanning, Scanned, Handed, Pending, Ended, Input.Count;
    ScanStart(input, L, limit, rs, re, start, prev);
    var inBatch: nat, counted: nat := Pending(prev, L), 0;
    var sealed: nat, published: nat := prev - inBatch, 0;
    var lastFlushed := false;
    var p, end := rs, rs;
    fs, open, hitLimit := [], start, false;
    while true
      invariant rs <= p <= end <= re && (end < re ==> p == end == rs)
      invariant Scanning(input, L, limit, rs, re, start, fs, open, p, lastFlushed, sealed + published, inBatch)
      invariant prev + counted == sealed + published + inBatch && !hitLimit
      decreases re - p, if p >= end then 1 else 0
    {
      ScanSums(input, L, limit, rs, re, start, fs, open, p, lastFlushed, sealed + published, inBatch);
      if p >= end {
        if end >= re {
          ScanEnd(input, L, limit, rs, re, start, fs, open, p, lastFlushed, sealed + published, inBatch, 0);
          break;
        }
        p, end := end, if end + window > re then re else end + window;
      }
      var x, need, found;
      fs, x, need, found :=
        NextBatch(simd, input, L, limit, rs, re, start, p, end, fs, open, lastFlushed, sealed + published, inBatch);
      if found {
        p, open, lastFlushed := x, x, x >= re;
        counted, published, inBatch := counted + need, published + inBatch + need, 0;
        if limit > 0 && sealed + published >= limit { hitLimit := true; break; }
      } else {
        if end >= re {
          var tail := CountDelims(simd, input, p, end);
          ScanEnd(input, L, limit, rs, re, start, fs, open, p, lastFlushed, sealed + published, inBatch, tail);
          counted := counted + tail;
          break;
        }
        p := end;  // read on
      }
    }
    fs := Ended(fs, open, lastFlushed);
    cum := prev + counted;
  }

  /** Read-buffer size of a scanner: an eighth of the last-level cache in whole
      huge pages, between 2 MiB and 32 MiB. */
  function ScannerWindow(llc: nat): nat {
    var target := (llc / 8 + 0x1F_FFFF) / 0x20_0000 * 0x20_0000;
    if target < 0x20_0000 then 0x20_0000 else if target > 0x200_0000 then 0x200_0000 else target
  }

  function FloorPow2(n: nat): (p: nat)
    ensures 1 <= p && (n > 0 ==> p <= n)
  {
    if n < 2 then 1 else 2 * FloorPow2(n / 2)
  }

  /** Raw-chunk size of NUMA ingest in line mode; `ideal` is the size of a
      non-empty regular file over twice the node count. */
  function IngestChunk(regular: bool, ideal: nat): nat {
    if regular && ideal < 0x20_0000 then (if FloorPow2(ideal) < 4096 then 4096 else FloorPow2(ideal)) else 0x20_0000
  }

  /** One read covers a raw chunk, so the scan loop never refills mid-chunk: a
      refill would forget the delimiters it had passed since its last batch.  A
      chunk also has fewer minors than 22 bits can number. */
  lemma WindowCovers(llc: nat, regular: bool, ideal: nat)
    ensures IngestChunk(regular, ideal) <= ScannerWindow(llc)
    ensures IngestChunk(regular, ideal) + 1 < 0x40_0000
  {
    assert FloorPow2(ideal) <= if ideal > 0 then ideal else 1;
  }
}
