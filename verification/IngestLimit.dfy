/** Back-pressure of NUMA ingest: the tuned bound on unclaimed chunks per node. */
module IngestLimit {

  /** What one tuning round observes. */
  datatype Sample = Sample(offset: nat, workers: nat, batches: nat, chunk: nat, stole: bool, extra: nat,
                           saturated: bool)

  /** The bound no queue may exceed: the largest with which all of them together stay
      within half the meta ring. */
  function GlobalMax(nodes: nat): (g: nat)
    requires 0 < nodes
    ensures g >= 4
    ensures nodes <= 512 ==> nodes * g <= 2048 < nodes * (g + 1)
  {
    Share(nodes);
    if 2048 / nodes < 4 then 4 else 2048 / nodes
  }

  lemma Share(nodes: nat)
    requires 0 < nodes
    ensures nodes * (2048 / nodes) <= 2048 < nodes * (2048 / nodes + 1)
    ensures nodes <= 512 ==> 2048 / nodes >= 4
  {
    if nodes <= 512 { FourFit(nodes); }
  }

  lemma FourFit(nodes: nat)
    requires 0 < nodes <= 512
    ensures 2048 / nodes >= 4
  {
    var q := 2048 / nodes;
    assert 2048 < (q + 1) * nodes;
    if q < 4 { Times(q + 1, 4, nodes); }
  }

  lemma Times(a: nat, b: nat, n: nat)
    requires a <= b
    ensures a * n <= b * n
  {
  }

  /** The floor from the observed batch size: 64-bit products, a 64-bit quotient
      of at least 4, and a 32-bit truncation. */
  function MinBuf(s: Sample, nodes: nat): (m: nat)
    requires 0 < nodes
    ensures m < 0x1_0000_0000
  {
    var avg := if s.workers / nodes < 1 then 1 else s.workers / nodes;
    var num := s.offset * avg % 0x1_0000_0000_0000_0000;
    var den := s.chunk * s.batches * 2 % 0x1_0000_0000_0000_0000;
    if s.batches == 0 || den == 0 then 4
    else (if num / den < 4 then 4 else num / den) % 0x1_0000_0000
  }

  function Min(a: nat, b: nat): nat {
    if a < b then a else b
  }

  /** Step size of an adjustment: an eighth of the floor. */
  function StepOf(minBuf: nat): (step: nat)
    ensures step >= 1 && (minBuf >= 8 ==> 8 * step <= minBuf < 8 * step + 8) && (minBuf < 8 ==> step == 1)
  {
    if minBuf / 8 < 1 then 1 else minBuf / 8
  }

  /** The ceiling, in 32-bit arithmetic, before the share of the meta ring. */
  function RawMax(minBuf: nat): nat {
    Min(Min(4 * minBuf % 0x1_0000_0000, (minBuf + 12 * StepOf(minBuf)) % 0x1_0000_0000), 128)
  }

  /** Bring the limit between the round's floor and ceiling. */
  function Clamped(limit: nat, minBuf: nat, maxBuf: nat, globalMax: nat): nat {
    var l := if limit < minBuf then minBuf else if limit > maxBuf then maxBuf else limit;
    if l > globalMax then globalMax else l
  }

  /** The load meter: 32-bit state, 64-bit sums. */
  function Metered(meter: nat, limit: nat, minBuf: nat, maxBuf: nat, stole: bool, extra: nat): (m: nat)
  {
    var decay := meter * 31 % 0x1_0000_0000;
    if limit >= maxBuf then (decay + if stole then 75 else 0) / 32 % 0x1_0000_0000
    else if stole then
      var si := if extra > 10 then 10 else extra;
      (decay + 1000 + 1000 * (Pow2(si + 1) - 1) / Pow2(si)) / 32 % 0x1_0000_0000
    else (decay + if limit <= minBuf then 15 else 0) / 32 % 0x1_0000_0000
  }

  function Pow2(n: nat): (p: nat)
    ensures p >= 1
  {
    if n == 0 then 1 else 2 * Pow2(n - 1)
  }

  /** Move the limit by a step when the meter leaves its band. */
  function Adjusted(limit: nat, meter: nat, minBuf: nat, maxBuf: nat, step: nat, saturated: bool): (nat, nat) {
    if meter < 15 && limit > minBuf then (if limit >= minBuf + step then limit - step else minBuf, 50)
    else if meter > 75 && limit < maxBuf && saturated then (if limit + step <= maxBuf then limit + step else maxBuf, 50)
    else (limit, meter)
  }

  /** One tuning round, as new (limit, meter). */
  function Tuned(limit: nat, meter: nat, s: Sample, nodes: nat): (nat, nat)
    requires 0 < nodes
  {
    TunedFrom(limit, meter, MinBuf(s, nodes), GlobalMax(nodes), s.stole, s.extra, s.saturated)
  }

  function TunedFrom(limit: nat, meter: nat, floor: nat, g: nat, stole: bool, extra: nat, saturated: bool): (nat, nat) {
    var minBuf, maxBuf := Min(floor, g), Min(RawMax(floor), g);
    var l := Clamped(limit, minBuf, maxBuf, g);
    Adjusted(l, Metered(meter, l, minBuf, maxBuf, stole, extra), minBuf, maxBuf, StepOf(floor), saturated)
  }

  /** The round's floor survived its truncation, and its ceiling its wrap-around:
      so it is whenever the floor is below 2^30. */
  predicate Sane(floor: nat) {
    floor >= 4 && RawMax(floor) >= 4
  }

  lemma SmallFloorsAreSane(floor: nat)
    requires 4 <= floor < 0x4000_0000
    ensures Sane(floor)
  {
  }

  /** Such a floor's ceiling is at least it and at most four times it, up to 128. */
  lemma CeilingOver(floor: nat)
    requires 4 <= floor < 0x4000_0000
    ensures Min(floor, 128) <= RawMax(floor) <= Min(4 * floor, 128)
    ensures floor == 4 ==> RawMax(floor) == 16
  {
  }

  lemma SaneKeepsRange(limit: nat, meter: nat, floor: nat, g: nat, stole: bool, extra: nat, saturated: bool)
    requires 4 <= limit <= g && Sane(floor)
    ensures 4 <= TunedFrom(limit, meter, floor, g, stole, extra, saturated).0 <= g
  {
    hide RawMax, Metered, StepOf;
  }

  /** Whatever the floor, no round leaves the limit above the ring's share. */
  lemma NeverAboveShare(limit: nat, meter: nat, floor: nat, g: nat, stole: bool, extra: nat, saturated: bool)
    ensures TunedFrom(limit, meter, floor, g, stole, extra, saturated).0 <= g
  {
    hide RawMax, Metered, StepOf;
  }

  /** At the floor of 4 the limit of 4 stays, as long as no queue is saturated. */
  lemma FourStays(meter: nat, g: nat, stole: bool, extra: nat)
    requires g >= 4
    ensures TunedFrom(4, meter, 4, g, stole, extra, false).0 == 4
  {
    hide Metered;
  }

  /** A floor of 2^30 has no ceiling left: its product wraps to 0.  A limit that
      stood at the ring's share drops to 0. */
  lemma FloorWraps(meter: nat, g: nat, stole: bool, extra: nat, saturated: bool)
    requires 4 <= g <= 2048
    ensures TunedFrom(g, meter, 0x4000_0000, g, stole, extra, saturated).0 == 0
    ensures !Sane(0x4000_0000)
  {
    hide Metered;
  }

  /** The limit stays between 4 and the ring's share in every case exactly when
      the floor is sane. */
  lemma RangeKeptIff(floor: nat, g: nat)
    requires g >= 4
    ensures Sane(floor) <==>
      forall limit: nat, meter: nat, stole, extra: nat, saturated :: 4 <= limit <= g ==>
        4 <= TunedFrom(limit, meter, floor, g, stole, extra, saturated).0 <= g
  {
    if Sane(floor) {
      forall limit: nat, meter: nat, stole, extra: nat, saturated | 4 <= limit <= g
        ensures 4 <= TunedFrom(limit, meter, floor, g, stole, extra, saturated).0 <= g
      {
        SaneKeepsRange(limit, meter, floor, g, stole, extra, saturated);
      }
    } else {
      InsaneEscapes(floor, g);
    }
  }

  lemma InsaneEscapes(floor: nat, g: nat)
    requires g >= 4 && !Sane(floor)
    ensures exists limit: nat ::  4 <= limit <= g && TunedFrom(limit, 0, floor, g, false, 0, false).0 < 4
  {
    if floor < 4 {
      assert TunedFrom(4, 0, floor, g, false, 0, false).0 < 4;
    } else {
      assert TunedFrom(g, 0, floor, g, false, 0, false).0 < 4;
    }
  }

  /** A stealing threshold scaled by the floor, kept within a byte. */
  function StealThreshold(minBuf: nat, base: nat): (t: nat)
    ensures 1 <= t <= 255
    ensures minBuf <= 4 && 1 <= base <= 255 ==> t == base
    ensures 4 < minBuf && 4 <= minBuf * base < 1024 ==> 4 * t <= minBuf * base < 4 * t + 4
    ensures 4 < minBuf && 1024 <= minBuf * base < 0x1_0000_0000 ==> t == 255
  {
    var scaled := (if minBuf > 4 then minBuf else 4) * base % 0x1_0000_0000 / 4;
    if scaled < 1 then 1 else if scaled > 255 then 255 else scaled
  }

  /** Ingest's tuning state. */
  class Tuner {
    const nodes: nat
    var limit: nat
    var meter: nat

    constructor (nodes: nat)
      requires 0 < nodes
      ensures this.nodes == nodes && limit == 4 && meter == 50
    {
      this.nodes := nodes;
      limit, meter := 4, 50;
    }

    /** The round after each published chunk. */
    method Tune(s: Sample) returns (minBuf: nat)
      requires 0 < nodes
      modifies this
      ensures (limit, meter) == Tuned(old(limit), old(meter), s, nodes)
      ensures limit <= GlobalMax(nodes)
      ensures 4 <= old(limit) <= GlobalMax(nodes) && Sane(MinBuf(s, nodes)) ==> 4 <= limit
      ensures minBuf <= GlobalMax(nodes)
    {
      hide MinBuf, RawMax, Metered, StepOf, Sane, GlobalMax, Adjusted;
      var g := GlobalMax(nodes);
      var floor := MinBuf(s, nodes);
      NeverAboveShare(limit, meter, floor, g, s.stole, s.extra, s.saturated);
      if 4 <= limit <= g && Sane(floor) { SaneKeepsRange(limit, meter, floor, g, s.stole, s.extra, s.saturated); }
      minBuf := floor;
      var maxBuf := RawMax(floor);
      if maxBuf > g { maxBuf := g; }
      if minBuf > g { minBuf := g; }
      if limit < minBuf { limit := minBuf; } else if limit > maxBuf { limit := maxBuf; }
      limit := Min(limit, g);
      meter := Metered(meter, limit, minBuf, maxBuf, s.stole, s.extra);
      Adjust(minBuf, maxBuf, StepOf(floor), s.saturated);
    }

    method Adjust(minBuf: nat, maxBuf: nat, step: nat, saturated: bool)
      modifies this
      ensures (limit, meter) == Adjusted(old(limit), old(meter), minBuf, maxBuf, step, saturated)
    {
      if meter < 15 && limit > minBuf {
        limit := if limit >= minBuf + step then limit - step else minBuf;
        meter := 50;
      } else if meter > 75 && limit < maxBuf && saturated {
        limit := if limit + step <= maxBuf then limit + step else maxBuf;
        meter := 50;
      }
    }
  }
}
