/** The input as the scanners see it: a byte string, its delimiters, how ingest
    cut it into raw chunks, and the batches ("flushes") scanners publish. */
module Stream {

  datatype Input = Input(bytes: seq<bv8>, delim: bv8) {

    ghost predicate Mark(i: nat) {
      i < |bytes| && bytes[i] == delim
    }

    /** Delimiters among the first `x` bytes. */
    ghost function Count(x: nat): nat
      requires x <= |bytes|
    {
      if x == 0 then 0 else Count(x - 1) + if Mark(x - 1) then 1 else 0
    }

    /** Position 0, or one past a delimiter. */
    ghost predicate Edge(x: nat) {
      x <= |bytes| && (x > 0 ==> Mark(x - 1))
    }

    /** The edge that closes line number `n`. */
    ghost predicate EdgeOf(x: nat, n: nat) {
      Edge(x) && Count(x) == n
    }

    lemma {:induction false} CountMono(x: nat, y: nat)
      requires x <= y <= |bytes|
      ensures Count(x) <= Count(y) <= Count(x) + (y - x)
      decreases y
    {
      if x < y { CountMono(x, y - 1); }
    }

    /** Between equal counts there is no delimiter. */
    lemma {:induction false} CountSame(x: nat, y: nat, i: nat)
      requires x <= i < y <= |bytes| && Count(x) == Count(y)
      ensures !Mark(i)
    {
      CountMono(x, i);
      CountMono(i + 1, y);
    }

    /** Line numbers identify edges. */
    lemma EdgeUnique(x: nat, y: nat, n: nat)
      requires EdgeOf(x, n) && EdgeOf(y, n)
      ensures x == y
    {
      if x < y {
        CountMono(x, y - 1);
      } else if y < x {
        CountMono(y, x - 1);
      }
    }

    /** Edges are ordered as their line numbers. */
    lemma EdgeOrder(x: nat, y: nat)
      requires Edge(x) && y <= |bytes|
      ensures Count(x) > Count(y) ==> x > y
      ensures x > y ==> Count(x) > Count(y)
    {
      if x <= y { CountMono(x, y); } else { CountMono(y, x - 1); }
    }

    /** One past the last delimiter before `x`, 0 if there is none. */
    ghost function LastEdge(x: nat): (e: nat)
      requires x <= |bytes|
      ensures e <= x && Edge(e) && Count(e) == Count(x)
    {
      if x == 0 || Mark(x - 1) then x else LastEdge(x - 1)
    }

    lemma {:induction false} LastEdgeMono(x: nat, y: nat)
      requires x <= y <= |bytes|
      ensures LastEdge(x) <= LastEdge(y)
    {
      CountMono(x, y);
      EdgeOrder(LastEdge(x), LastEdge(y));
      if Count(x) == Count(y) { EdgeUnique(LastEdge(x), LastEdge(y), Count(x)); }
    }
  }

  /** Outcome of a search for the n-th delimiter in [p, end). */
  datatype Hit = At(pos: nat) | Fewer

  ghost predicate NthHit(input: Input, p: nat, end: nat, n: nat, hit: Hit)
    requires p <= end <= |input.bytes|
  {
    match hit
    case At(x) => p < x <= end && input.EdgeOf(x, input.Count(p) + n)
    case Fewer => input.Count(end) < input.Count(p) + n
  }

  /** The -n limit: 0 is no limit. */
  predicate Reached(limit: nat, lines: nat) {
    limit > 0 && lines >= limit
  }

  /** How ingest cut the stream: raw chunks [bounds[m], bounds[m + 1]), none of
      them empty, and then the end-of-stream sentinel as chunk |bounds| - 1. */
  ghost predicate Layout(bounds: seq<nat>, total: nat) {
    && |bounds| > 0 && bounds[0] == 0 && bounds[|bounds| - 1] == total
    && forall j, k :: 0 <= j < k < |bounds| ==> bounds[j] < bounds[k]
  }

  function RawStart(bounds: seq<nat>, m: nat): nat
    requires m < |bounds|
  {
    bounds[m]
  }

  function RawEnd(bounds: seq<nat>, m: nat): nat
    requires m < |bounds|
  {
    if m + 1 < |bounds| then bounds[m + 1] else bounds[m]
  }

  /** One published batch: input range, lines, minor number within its chunk, and
      the flag on the chunk's last. */
  datatype Flush = Flush(start: nat, end: nat, lines: nat, minor: nat, last: bool)

  /** Minors run 0..k and exactly the k-th is flagged. */
  ghost predicate Numbered(fs: seq<Flush>) {
    fs != [] && forall i :: 0 <= i < |fs| ==> fs[i].minor == i && (fs[i].last <==> i == |fs| - 1)
  }

  /** Numbered so far, nothing flagged yet. */
  ghost predicate Counting(fs: seq<Flush>) {
    forall i :: 0 <= i < |fs| ==> fs[i].minor == i && !fs[i].last
  }

  lemma NumberedAppend(fs: seq<Flush>, f: Flush)
    requires Counting(fs) && f.minor == |fs|
    ensures if f.last then Numbered(fs + [f]) else Counting(fs + [f])
  {
  }

  /** The non-empty ranges of `fs`, in order, are consecutive from `from` to `to`. */
  ghost predicate Tiles(fs: seq<Flush>, from: nat, to: nat) {
    if fs == [] then from == to
    else
      var f := fs[|fs| - 1];
      if f.start < f.end then f.end == to && Tiles(fs[..|fs| - 1], from, f.start)
      else f.start == f.end && Tiles(fs[..|fs| - 1], from, to)
  }

  lemma TilesAppend(fs: seq<Flush>, from: nat, to: nat, f: Flush)
    requires Tiles(fs, from, to) && f.start <= f.end && (f.start < f.end ==> f.start == to)
    ensures Tiles(fs + [f], from, if f.start < f.end then f.end else to)
  {
    assert (fs + [f])[..|fs|] == fs;
  }

  lemma {:induction false} TilesJoin(fs: seq<Flush>, gs: seq<Flush>, a: nat, b: nat, c: nat)
    requires Tiles(fs, a, b) && Tiles(gs, b, c)
    ensures Tiles(fs + gs, a, c)
  {
    if gs == [] {
      assert fs + gs == fs;
    } else {
      var n := |gs| - 1;
      assert (fs + gs)[..|fs| + n] == fs + gs[..n];
      TilesJoin(fs, gs[..n], a, b, if gs[n].start < gs[n].end then gs[n].start else c);
    }
  }

  /** Tiling never goes backwards. */
  lemma {:induction false} TilesForward(fs: seq<Flush>, from: nat, to: nat)
    requires Tiles(fs, from, to)
    ensures from <= to
  {
    if fs != [] {
      var f := fs[|fs| - 1];
      TilesForward(fs[..|fs| - 1], from, if f.start < f.end then f.start else to);
    }
  }

  /** Markers tile anywhere. */
  lemma {:induction false} TilesStay(fs: seq<Flush>, a: nat, x: nat)
    requires Tiles(fs, a, a)
    ensures Tiles(fs, x, x)
  {
    if fs != [] {
      var f := fs[|fs| - 1];
      if f.start < f.end { TilesForward(fs[..|fs| - 1], a, f.start); } else { TilesStay(fs[..|fs| - 1], a, x); }
    }
  }

  /** A tiled byte lies in one of the flushes. */
  lemma {:induction false} TilesFind(fs: seq<Flush>, from: nat, upTo: nat, b: nat) returns (k: nat)
    requires Tiles(fs, from, upTo) && from <= b < upTo
    ensures k < |fs| && fs[k].start <= b < fs[k].end
  {
    var n := |fs| - 1;
    if fs[n].start <= b < fs[n].end {
      k := n;
    } else {
      k := TilesFind(fs[..n], from, if fs[n].start < fs[n].end then fs[n].start else upTo, b);
    }
  }

  /** A flush of a tiling lies inside it, and no two share a byte. */
  lemma {:induction false} TilesInside(fs: seq<Flush>, from: nat, upTo: nat, k: nat)
    requires Tiles(fs, from, upTo) && k < |fs|
    ensures fs[k].start <= fs[k].end && (fs[k].start < fs[k].end ==> from <= fs[k].start && fs[k].end <= upTo)
  {
    var n := |fs| - 1;
    TilesForward(fs[..n], from, if fs[n].start < fs[n].end then fs[n].start else upTo);
    if k < n { TilesInside(fs[..n], from, if fs[n].start < fs[n].end then fs[n].start else upTo, k); }
  }

  lemma {:induction false} TilesOnce(fs: seq<Flush>, from: nat, upTo: nat, j: nat, k: nat, b: nat)
    requires Tiles(fs, from, upTo) && j < |fs| && k < |fs|
    requires fs[j].start <= b < fs[j].end && fs[k].start <= b < fs[k].end
    ensures j == k
  {
    var n := |fs| - 1;
    var mid := if fs[n].start < fs[n].end then fs[n].start else upTo;
    if j < n && k < n {
      TilesOnce(fs[..n], from, mid, j, k, b);
    } else if j < n {
      TilesInside(fs[..n], from, mid, j);
    } else if k < n {
      TilesInside(fs[..n], from, mid, k);
    }
  }

  /** All flushes of the first `n` chunks, in chunk order. */
  ghost function Flat(outs: seq<seq<Flush>>, n: nat): seq<Flush>
    requires n <= |outs|
  {
    if n == 0 then [] else Flat(outs, n - 1) + outs[n - 1]
  }

  /** The input bytes of the flushes, one after the other. */
  ghost function Content(bytes: seq<bv8>, fs: seq<Flush>): seq<bv8>
    requires forall i :: 0 <= i < |fs| ==> fs[i].start <= fs[i].end <= |bytes|
  {
    if fs == [] then [] else Content(bytes, fs[..|fs| - 1]) + bytes[fs[|fs| - 1].start..fs[|fs| - 1].end]
  }

  /** Tiling flushes carry exactly the bytes they span, in order. */
  lemma {:induction false} TilesContent(bytes: seq<bv8>, fs: seq<Flush>, from: nat, to: nat)
    requires Tiles(fs, from, to) && to <= |bytes|
    requires forall i :: 0 <= i < |fs| ==> fs[i].start <= fs[i].end <= |bytes|
    ensures from <= to && Content(bytes, fs) == bytes[from..to]
  {
    TilesForward(fs, from, to);
    if fs != [] {
      var f := fs[|fs| - 1];
      var mid := if f.start < f.end then f.start else to;
      TilesContent(bytes, fs[..|fs| - 1], from, mid);
      if f.start < f.end { assert bytes[from..to] == bytes[from..mid] + bytes[mid..to]; }
    }
  }
}
