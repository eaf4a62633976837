/** How the tuned queue limit moves: rounds with a steady floor. */
module IngestMeter {
  import opened IngestLimit

  /** Lowest and highest limit a round with this floor allows. */
  function Lo(floor: nat, g: nat): nat {
    Min(floor, g)
  }

  function Hi(floor: nat, g: nat): nat {
    Min(RawMax(floor), g)
  }

  /** A round leaves the limit between them, wherever it was; for large batches the
      first is the higher one. */
  lemma RoundInBand(limit: nat, meter: nat, floor: nat, g: nat, stole: bool, extra: nat, saturated: bool)
    requires 4 <= floor < 0x4000_0000
    ensures var l := TunedFrom(limit, meter, floor, g, stole, extra, saturated).0;
      Lo(floor, g) <= l <= Hi(floor, g) || (floor > 128 && Hi(floor, g) <= l <= Lo(floor, g))
  {
    CeilingOver(floor);
    hide RawMax, Metered, StepOf;
  }

  /** n rounds in each of which a chunk was stolen, or none was. */
  function Rounds(limit: nat, meter: nat, floor: nat, g: nat, stole: bool, saturated: bool, n: nat): (nat, nat)
  {
    if n == 0 then (limit, meter)
    else
      var (l, m) := Rounds(limit, meter, floor, g, stole, saturated, n - 1);
      TunedFrom(l, m, floor, g, stole, 0, saturated)
  }

  lemma {:induction false} RoundsJoin(limit: nat, meter: nat, floor: nat, g: nat, stole: bool, saturated: bool,
                                      m: nat, n: nat)
    ensures var (l, x) := Rounds(limit, meter, floor, g, stole, saturated, m);
      Rounds(limit, meter, floor, g, stole, saturated, m + n) == Rounds(l, x, floor, g, stole, saturated, n)
  {
    hide TunedFrom;
    if n > 0 { RoundsJoin(limit, meter, floor, g, stole, saturated, m, n - 1); }
  }

  /** At the ceiling the meter never climbs over 75, at the floor a run without
      steals never takes it below 15. */
  lemma MeterBand(meter: nat, limit: nat, minBuf: nat, maxBuf: nat, stole: bool, extra: nat)
    ensures limit >= maxBuf && meter <= 75 ==> Metered(meter, limit, minBuf, maxBuf, stole, extra) <= 75
    ensures limit <= minBuf && limit < maxBuf && 15 <= meter < 0x800_0000 && !stole ==>
      15 <= Metered(meter, limit, minBuf, maxBuf, stole, extra) <= meter
  {
  }

  /** Above the floor a round without steals lowers the meter. */
  lemma MeterFalls(meter: nat, limit: nat, minBuf: nat, maxBuf: nat)
    requires limit > minBuf && 0 < meter < 0x800_0000
    ensures Metered(meter, limit, minBuf, maxBuf, false, 0) < meter
  {
  }

  /** Below the ceiling one stolen chunk takes it over 75 from anywhere in its band. */
  lemma MeterJumps(meter: nat, limit: nat, minBuf: nat, maxBuf: nat, extra: nat)
    requires limit < maxBuf && 14 <= meter < 0x400_0000
    ensures 75 < Metered(meter, limit, minBuf, maxBuf, true, extra)
  {
    var si := if extra > 10 then 10 else extra;
    Boost(Pow2(si));
    assert Pow2(si + 1) == 2 * Pow2(si);
  }

  lemma Boost(p: nat)
    requires p >= 1
    ensures 1000 <= 1000 * (2 * p - 1) / p < 2000
  {
    var q := 1000 * (2 * p - 1) / p;
    if q < 1000 { Times(q + 1, 1000, p); }
    if q >= 2000 { Times(2000, q, p); }
  }

  /** One step down. */
  function Down(limit: nat, floor: nat, g: nat): (l: nat)
    requires Lo(floor, g) < limit
    ensures Lo(floor, g) <= l < limit
  {
    if limit >= Lo(floor, g) + StepOf(floor) then limit - StepOf(floor) else Lo(floor, g)
  }

  /** Between floor and ceiling, a quiet round lowers the meter or takes the limit a
      step down. */
  lemma QuietRound(limit: nat, meter: nat, floor: nat, g: nat, saturated: bool)
    requires Lo(floor, g) < limit <= Hi(floor, g) && meter <= 75
    ensures var (l, m) := TunedFrom(limit, meter, floor, g, false, 0, saturated);
      if Metered(meter, limit, Lo(floor, g), Hi(floor, g), false, 0) < 15
      then m == 50 && l == Down(limit, floor, g)
      else l == limit && 15 <= m < meter
  {
    hide RawMax, StepOf, Metered;
    if meter > 0 {
      MeterFalls(meter, limit, Lo(floor, g), Hi(floor, g));
    } else {
      MeterEmpty(limit, Lo(floor, g), Hi(floor, g));
    }
  }

  lemma MeterEmpty(limit: nat, minBuf: nat, maxBuf: nat)
    requires limit > minBuf
    ensures Metered(0, limit, minBuf, maxBuf, false, 0) == 0
  {
  }

  lemma OneRound(limit: nat, meter: nat, floor: nat, g: nat, saturated: bool)
    ensures Rounds(limit, meter, floor, g, false, saturated, 1)
         == TunedFrom(limit, meter, floor, g, false, 0, saturated)
  {
    hide TunedFrom;
    assert Rounds(limit, meter, floor, g, false, saturated, 0) == (limit, meter);
  }

  /** Without steals the limit comes down by a step within as many rounds as the
      meter stands at. */
  lemma {:induction false} QuietShrinks(limit: nat, meter: nat, floor: nat, g: nat, saturated: bool) returns (n: nat)
    requires Lo(floor, g) < limit <= Hi(floor, g) && meter <= 75
    ensures 0 < n <= meter + 1
    ensures Rounds(limit, meter, floor, g, false, saturated, n) == (Down(limit, floor, g), 50)
    decreases meter
  {
    QuietRound(limit, meter, floor, g, saturated);
    var (l, m) := TunedFrom(limit, meter, floor, g, false, 0, saturated);
    hide TunedFrom, Metered, StepOf, RawMax, Lo, Hi, Down;
    OneRound(limit, meter, floor, g, saturated);
    hide Rounds;
    if Metered(meter, limit, Lo(floor, g), Hi(floor, g), false, 0) < 15 {
      n := 1;
    } else {
      n := QuietShrinks(l, m, floor, g, saturated);
      RoundsJoin(limit, meter, floor, g, false, saturated, 1, n);
      n := n + 1;
    }
  }

  /** So it comes down to the floor. */
  lemma {:induction false} QuietSettles(limit: nat, meter: nat, floor: nat, g: nat, saturated: bool) returns (n: nat)
    requires Lo(floor, g) < limit <= Hi(floor, g) && meter <= 75
    ensures Rounds(limit, meter, floor, g, false, saturated, n) == (Lo(floor, g), 50)
    decreases limit
  {
    n := QuietShrinks(limit, meter, floor, g, saturated);
    hide TunedFrom, RawMax, StepOf, Down;
    var l := Down(limit, floor, g);
    if l > Lo(floor, g) {
      var k := QuietSettles(l, 50, floor, g, saturated);
      RoundsJoin(limit, meter, floor, g, false, saturated, n, k);
      n := n + k;
    }
  }

  /** And stays there while nothing is stolen. */
  lemma {:induction false} FloorHolds(meter: nat, floor: nat, g: nat, n: nat, saturated: bool)
    requires Lo(floor, g) < Hi(floor, g) && 15 <= meter <= 75
    ensures var (l, m) := Rounds(Lo(floor, g), meter, floor, g, false, saturated, n);
      l == Lo(floor, g) && 15 <= m <= 75
  {
    if n > 0 {
      FloorHolds(meter, floor, g, n - 1, saturated);
      var (l, m) := Rounds(Lo(floor, g), meter, floor, g, false, saturated, n - 1);
      FloorRound(m, floor, g, saturated);
    }
  }

  lemma FloorRound(meter: nat, floor: nat, g: nat, saturated: bool)
    requires Lo(floor, g) < Hi(floor, g) && 15 <= meter <= 75
    ensures var (l, m) := TunedFrom(Lo(floor, g), meter, floor, g, false, 0, saturated);
      l == Lo(floor, g) && 15 <= m <= 75
  {
    MeterBand(meter, Lo(floor, g), Lo(floor, g), Hi(floor, g), false, 0);
    hide RawMax, StepOf, Metered;
  }

  /** Below the ceiling, a round with a stolen chunk takes the limit a step up if the
      queue was full, and leaves it alone if it was not. */
  lemma StealGrows(limit: nat, meter: nat, floor: nat, g: nat, extra: nat, saturated: bool)
    requires Lo(floor, g) <= limit < Hi(floor, g) && 14 <= meter <= 75
    ensures TunedFrom(limit, meter, floor, g, true, extra, saturated).0
         == if !saturated then limit
            else if limit + StepOf(floor) <= Hi(floor, g) then limit + StepOf(floor) else Hi(floor, g)
  {
    MeterJumps(meter, limit, Lo(floor, g), Hi(floor, g), extra);
    hide RawMax, StepOf, Metered;
  }
}
