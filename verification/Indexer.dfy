/** The indexers: each finds where its raw chunk's last record ends, searching
    backwards, or takes over its predecessor's boundary. */
module Indexer {
  import opened Stream

  /** memrchr over [from, to): one past the last delimiter, if there is one. */
  method FindLast(input: Input, from: nat, to: nat) returns (found: bool, e: nat)
    requires from <= to <= |input.bytes|
    ensures found ==> from < e <= to && e == input.LastEdge(to)
    ensures !found ==> input.Count(from) == input.Count(to) && input.LastEdge(from) == input.LastEdge(to)
  {
    var x := to;
    while x > from
      invariant from <= x <= to && input.LastEdge(x) == input.LastEdge(to) && input.Count(x) == input.Count(to)
    {
      if input.bytes[x - 1] == input.delim { return true, x; }
      x := x - 1;
    }
    return false, 0;
  }

  /** The backward search of one raw chunk, a window at a time. */
  method SearchChunk(input: Input, rs: nat, re: nat, window: nat) returns (found: bool, e: nat)
    requires rs <= re <= |input.bytes| && window > 0
    ensures found <==> input.LastEdge(re) > rs
    ensures found ==> e == input.LastEdge(re)
    ensures !found ==> input.LastEdge(rs) == input.LastEdge(re)
  {
    var searchEnd := re;
    while searchEnd > rs
      invariant rs <= searchEnd <= re && input.LastEdge(searchEnd) == input.LastEdge(re)
    {
      var size := if searchEnd - rs > window then window else searchEnd - rs;
      found, e := FindLast(input, searchEnd - size, searchEnd);
      if found { return; }
      searchEnd := searchEnd - size;
    }
    found, e := false, 0;
  }

  datatype Option<T> = None | Some(value: T)

  /** The boundary chunk m must get: the last record edge at or before its raw
      end, and the end of the stream for the sentinel. */
  ghost function Boundary(input: Input, bounds: seq<nat>, m: nat): (e: nat)
    requires Layout(bounds, |input.bytes|) && m < |bounds|
    ensures e <= |input.bytes|
  {
    if m + 1 < |bounds| then input.LastEdge(bounds[m + 1]) else bounds[m]
  }

  /** Where chunk m's records start: its predecessor's boundary. */
  ghost function Front(input: Input, bounds: seq<nat>, m: nat): (s: nat)
    requires Layout(bounds, |input.bytes|) && m < |bounds|
    ensures s <= |input.bytes| && input.Edge(s)
  {
    if m == 0 then 0 else Boundary(input, bounds, m - 1)
  }

  /** Boundaries never decrease, so the chunks' records tile the stream at edges. */
  lemma FrontBeforeBoundary(input: Input, bounds: seq<nat>, m: nat)
    requires Layout(bounds, |input.bytes|) && m < |bounds|
    ensures Front(input, bounds, m) == input.LastEdge(bounds[m]) <= Boundary(input, bounds, m)
    ensures input.Edge(Boundary(input, bounds, m)) || Boundary(input, bounds, m) == |input.bytes|
    ensures m + 1 < |bounds| ==> Front(input, bounds, m + 1) == Boundary(input, bounds, m)
  {
    if m + 1 < |bounds| { input.LastEdgeMono(bounds[m], bounds[m + 1]); }
  }

  /** Indexers of different nodes finish chunks in any order. */
  ghost predicate Next(input: Input, bounds: seq<nat>, ends: seq<Option<nat>>, ends': seq<Option<nat>>) {
    exists m: nat, e: nat :: Publishes(input, bounds, ends, m, e) && ends' == ends[m := Some(e)]
  }

  /** One indexer's publication, as its branches decide it. */
  ghost predicate Publishes(input: Input, bounds: seq<nat>, ends: seq<Option<nat>>, m: nat, e: nat) {
    && Layout(bounds, |input.bytes|) && m < |ends| == |bounds| && ends[m].None?
    && RawEnd(bounds, m) <= |input.bytes|
    && (if input.LastEdge(RawEnd(bounds, m)) > RawStart(bounds, m) then e == input.LastEdge(RawEnd(bounds, m))
        else if RawEnd(bounds, m) == RawStart(bounds, m) then e == RawStart(bounds, m)
        else if m == 0 then e == 0
        else ends[m - 1] == Some(e))
  }

  /** What the indexer of chunk m publishes, given the boundaries published so
      far; None if it has to wait for its predecessor's. */
  method IndexChunk(input: Input, bounds: seq<nat>, ends: seq<Option<nat>>, m: nat, window: nat)
    returns (e: Option<nat>)
    requires Layout(bounds, |input.bytes|) && m < |ends| == |bounds| && ends[m].None? && window > 0
    ensures e.Some? ==> Publishes(input, bounds, ends, m, e.value)
    ensures e.None? <==> m > 0 && ends[m - 1].None? && RawStart(bounds, m) < RawEnd(bounds, m)
                         && input.LastEdge(RawEnd(bounds, m)) <= RawStart(bounds, m)
  {
    var rs, re := RawStart(bounds, m), RawEnd(bounds, m);
    var found, at := SearchChunk(input, rs, re, window);
    if found {
      e := Some(at);
    } else if re == rs {
      e := Some(rs);
    } else if m == 0 {
      e := Some(0);
    } else {
      e := ends[m - 1];
    }
  }

  ghost predicate Run(input: Input, bounds: seq<nat>, states: seq<seq<Option<nat>>>) {
    && Layout(bounds, |input.bytes|) && states != [] && |states[0]| == |bounds|
    && (forall m :: 0 <= m < |states[0]| ==> states[0][m] == None)
    && forall i :: 0 <= i < |states| - 1 ==> Next(input, bounds, states[i], states[i + 1])
  }

  /** In every run each published boundary has the closed form, whatever the
      windows and whoever was first. */
  lemma {:induction false} BoundariesExact(input: Input, bounds: seq<nat>, states: seq<seq<Option<nat>>>, i: nat,
                                           m: nat)
    requires Run(input, bounds, states) && i < |states| && m < |bounds|
    ensures |states[i]| == |bounds|
    ensures states[i][m].Some? ==> states[i][m].value == Boundary(input, bounds, m)
    decreases i, m
  {
    if i > 0 {
      BoundariesExact(input, bounds, states, i - 1, m);
      assert Next(input, bounds, states[i - 1], states[i - 1 + 1]);
      var k: nat, e: nat :| Publishes(input, bounds, states[i - 1], k, e) && states[i] == states[i - 1][k := Some(e)];
      if k == m {
        if m > 0 { BoundariesExact(input, bounds, states, i - 1, m - 1); }
        FrontBeforeBoundary(input, bounds, m);
        BoundaryOf(input, bounds, m, e, if m > 0 then states[i - 1][m - 1] else None, states[i - 1]);
      }
    }
  }

  lemma BoundaryOf(input: Input, bounds: seq<nat>, m: nat, e: nat, pred: Option<nat>, ends: seq<Option<nat>>)
    requires Publishes(input, bounds, ends, m, e) && (m > 0 ==> pred == ends[m - 1])
    requires m > 0 && pred.Some? ==> pred.value == Boundary(input, bounds, m - 1)
    ensures e == Boundary(input, bounds, m)
  {
    FrontBeforeBoundary(input, bounds, m);
    input.CountMono(RawStart(bounds, m), RawEnd(bounds, m));
    if input.LastEdge(RawEnd(bounds, m)) <= RawStart(bounds, m) < RawEnd(bounds, m) {
      NoneInside(input, RawStart(bounds, m), RawEnd(bounds, m));
    }
  }

  /** A last edge at or before `x` is the last edge of `x` too. */
  lemma {:induction false} NoneInside(input: Input, x: nat, y: nat)
    requires x <= y <= |input.bytes| && input.LastEdge(y) <= x
    ensures input.LastEdge(x) == input.LastEdge(y)
    decreases y
  {
    if x < y && !input.Mark(y - 1) { NoneInside(input, x, y - 1); }
  }

  /** The lowest unpublished chunk can always be published: no indexer waits for
      ever. */
  lemma LowestPublishes(input: Input, bounds: seq<nat>, ends: seq<Option<nat>>, m: nat)
    requires Layout(bounds, |input.bytes|) && m < |ends| == |bounds| && ends[m].None? && (m > 0 ==> ends[m - 1].Some?)
    ensures exists e :: Publishes(input, bounds, ends, m, e)
  {
    var rs, re := RawStart(bounds, m), RawEnd(bounds, m);
    assert re <= |input.bytes|;
    assert Publishes(input, bounds, ends, m,
      if input.LastEdge(re) > rs then input.LastEdge(re)
      else if re == rs then rs else if m == 0 then 0 else ends[m - 1].value);
  }
}
