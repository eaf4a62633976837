/** Byte batches within one raw chunk: the NUMA byte path, with a byte limit. */
module ByteScan {
  import opened Stream

  /** Where a chunk's share of the delivery ends. */
  function Clamp(limit: nat, end: nat): nat {
    if limit > 0 && end > limit then limit else end
  }

  /** Batches of exactly L bytes, the last perhaps shorter. */
  ghost predicate Blocks(fs: seq<Flush>, L: nat) {
    forall i :: 0 <= i < |fs| ==> fs[i].end <= fs[i].start + L && (i < |fs| - 1 ==> fs[i].end == fs[i].start + L)
  }

  ghost predicate ByteScanned(from: nat, end: nat, L: nat, limit: nat, fs: seq<Flush>) {
    Numbered(fs) && Blocks(fs, L) && Tiles(fs, from, if from < Clamp(limit, end) then Clamp(limit, end) else from)
  }

  lemma BlocksAppend(fs: seq<Flush>, f: Flush, L: nat)
    requires (forall i :: 0 <= i < |fs| ==> fs[i].end == fs[i].start + L) && f.end <= f.start + L
    ensures Blocks(fs + [f], L)
  {
  }

  lemma {:induction false} BlocksSum(fs: seq<Flush>, L: nat, from: nat, to: nat)
    requires L > 0 && Tiles(fs, from, to) && forall i :: 0 <= i < |fs| ==> fs[i].end == fs[i].start + L
    ensures |fs| * L == to - from
  {
    if fs != [] { BlocksSum(fs[..|fs| - 1], L, from, fs[|fs| - 1].start); }
  }

  /** A chunk of at most `blocks` times L bytes has at most one batch more. */
  lemma BlocksFit(from: nat, end: nat, L: nat, limit: nat, fs: seq<Flush>, blocks: nat)
    requires L > 0 && ByteScanned(from, end, L, limit, fs) && end <= from + blocks * L
    ensures |fs| <= blocks + 1
  {
    var n := |fs| - 1;
    var to := if from < Clamp(limit, end) then Clamp(limit, end) else from;
    var f := fs[n];
    BlocksSum(fs[..n], L, from, if f.start < f.end then f.start else to);
    if n > blocks { Scaled(blocks + 1, n, L); }
  }

  /** A chunk at or past the limit gets a marker only. */
  lemma MarkerAlone(from: nat, end: nat, L: nat, limit: nat)
    requires from >= end || (limit > 0 && from >= limit)
    ensures ByteScanned(from, end, L, limit, [Flush(from, from, 0, 0, true)])
  {
  }

  /** The byte loop of one raw chunk.  `blocks` is how many full batches a chunk
      can hold: ingest keeps chunks within the minor range times L. */
  method ScanBytes(from: nat, end: nat, L: nat, limit: nat, ghost blocks: nat) returns (fs: seq<Flush>)
    requires L > 0 && from <= end && end - from <= blocks * L
    ensures ByteScanned(from, end, L, limit, fs)
    ensures |fs| <= blocks || |fs| == 1
  {
    if from >= end || (limit > 0 && from >= limit) {
      MarkerAlone(from, end, L, limit);
      return [Flush(from, from, 0, 0, true)];
    }
    var chunkEnd := if limit > 0 && end > limit then limit else end;
    var p, minor := from, 0;
    fs := [];
    assert Tiles(fs, from, p);
    hide Tiles;
    while p < chunkEnd
      invariant from <= p <= chunkEnd && minor == |fs|
      invariant p < chunkEnd ==> Counting(fs) && (forall i :: 0 <= i < |fs| ==> fs[i].end == fs[i].start + L)
      invariant p < chunkEnd ==> p == from + |fs| * L
      invariant p == chunkEnd ==> Numbered(fs) && Blocks(fs, L) && |fs| <= blocks
      invariant Tiles(fs, from, p)
    {
      var avail := chunkEnd - p;
      // Neither arm for a batch at or across the limit runs: the chunk is clamped.
      var take := if avail >= L then L else avail;
      var next := p + take;
      var f := Flush(p, next, 0, minor, next >= chunkEnd);
      NumberedAppend(fs, f);
      TilesAppend(fs, from, p, f);
      BlocksAppend(fs, f, L);
      CountBlocks(|fs|, blocks, L, p - from, end - from);
      fs := fs + [f];
      minor, p := minor + 1, next;
    }
  }

  lemma CountBlocks(n: nat, blocks: nat, L: nat, done: nat, total: nat)
    requires L > 0 && done == n * L && done < total <= blocks * L
    ensures n + 1 <= blocks && (n + 1) * L == done + L
  {
    if n >= blocks { Scaled(blocks, n, L); }
  }

  lemma Scaled(a: nat, b: nat, L: nat)
    requires a <= b
    ensures a * L <= b * L
  {
  }

  /** Every chunk that has batches out has scanned its raw bytes; who scanned it
      and when makes no difference. */
  ghost predicate ChunksScanned(bounds: seq<nat>, L: nat, limit: nat, outs: seq<seq<Flush>>) {
    && |outs| == |bounds|
    && forall m :: 0 <= m < |outs| && outs[m] != [] ==>
      ByteScanned(RawStart(bounds, m), RawEnd(bounds, m), L, limit, outs[m])
  }

  /** Where the first n raw chunks end. */
  function RawUpTo(bounds: seq<nat>, n: nat): nat
    requires n <= |bounds| && |bounds| > 0
  {
    if n < |bounds| then bounds[n] else bounds[n - 1]
  }

  lemma ChunkTiles(bounds: seq<nat>, total: nat, L: nat, limit: nat, outs: seq<seq<Flush>>, m: nat)
    requires Layout(bounds, total) && ChunksScanned(bounds, L, limit, outs) && m < |bounds| && outs[m] != []
    ensures Tiles(outs[m], Clamp(limit, RawUpTo(bounds, m)), Clamp(limit, RawUpTo(bounds, m + 1)))
  {
    assert ByteScanned(RawStart(bounds, m), RawEnd(bounds, m), L, limit, outs[m]);
    ByteShare(RawStart(bounds, m), RawEnd(bounds, m), L, limit, outs[m]);
  }

  lemma ByteShare(from: nat, end: nat, L: nat, limit: nat, fs: seq<Flush>)
    requires from <= end && ByteScanned(from, end, L, limit, fs)
    ensures Tiles(fs, Clamp(limit, from), Clamp(limit, end))
  {
    if limit > 0 && from >= limit { TilesStay(fs, from, limit); }
  }

  lemma {:induction false} ByteChunksTile(bounds: seq<nat>, total: nat, L: nat, limit: nat, outs: seq<seq<Flush>>,
                                          n: nat)
    requires Layout(bounds, total) && ChunksScanned(bounds, L, limit, outs) && n <= |outs|
    requires forall m :: 0 <= m < n ==> outs[m] != []
    ensures Tiles(Flat(outs, n), 0, Clamp(limit, RawUpTo(bounds, n)))
  {
    hide Tiles, ByteScanned;
    if n > 0 {
      ByteChunksTile(bounds, total, L, limit, outs, n - 1);
      ChunkTiles(bounds, total, L, limit, outs, n - 1);
      TilesJoin(Flat(outs, n - 1), outs[n - 1], 0, Clamp(limit, RawUpTo(bounds, n - 1)),
                Clamp(limit, RawUpTo(bounds, n)));
    } else {
      NothingTiled(outs);
    }
  }

  lemma NothingTiled(outs: seq<seq<Flush>>)
    ensures Tiles(Flat(outs, 0), 0, 0)
  {
  }

  /** Chunks past the limit add markers at most. */
  lemma {:induction false} NothingFollows(bounds: seq<nat>, total: nat, L: nat, limit: nat, outs: seq<seq<Flush>>,
                                          n: nat, k: nat)
    requires Layout(bounds, total) && ChunksScanned(bounds, L, limit, outs) && n <= k <= |outs|
    requires 0 < limit <= RawUpTo(bounds, n) && Tiles(Flat(outs, n), 0, limit)
    ensures Tiles(Flat(outs, k), 0, limit)
  {
    hide Tiles, ByteScanned;
    if n < k {
      NothingFollows(bounds, total, L, limit, outs, n, k - 1);
      if outs[k - 1] == [] {
        assert Flat(outs, k) == Flat(outs, k - 1);
      } else {
        ChunkTiles(bounds, total, L, limit, outs, k - 1);
        TilesJoin(Flat(outs, k - 1), outs[k - 1], 0, limit, limit);
      }
    }
  }

  /** With the batches of the first n chunks out, whatever else is: their bytes up
      to the limit, consecutive from byte 0; once the limit is among them, exactly
      the first `limit` bytes over all chunks. */
  lemma DeliversFirstBytes(bounds: seq<nat>, total: nat, L: nat, limit: nat, outs: seq<seq<Flush>>, n: nat)
    requires Layout(bounds, total) && ChunksScanned(bounds, L, limit, outs) && n <= |outs|
    requires forall m :: 0 <= m < n ==> outs[m] != []
    ensures Tiles(Flat(outs, n), 0, Clamp(limit, RawUpTo(bounds, n)))
    ensures RawUpTo(bounds, |bounds|) == total
    ensures 0 < limit <= RawUpTo(bounds, n) ==> Tiles(Flat(outs, |outs|), 0, limit)
  {
    ByteChunksTile(bounds, total, L, limit, outs, n);
    if 0 < limit <= RawUpTo(bounds, n) { NothingFollows(bounds, total, L, limit, outs, n, |outs|); }
  }
}
