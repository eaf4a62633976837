/** The seqlock over the completion ledger: the orderer stores horizon, byte count
    and islands cell by cell between two bumps of a 32-bit counter; a reader
    retries until it sees the same even count before and after. */
module Seqlock {

  datatype Writer = Idle | Storing

  /** An attempt keeps the count it began with and what it has loaded, as (cell,
      value); `began` is history: the number of bumps before its first load. */
  datatype Reader =
    | Resting
    | Reading(seq1: nat, loads: seq<(nat, nat)>, began: nat)
    | Accepted(loads: seq<(nat, nat)>)

  /** Cells 0, 1, 2 are horizon, byte count and number n of islands, cells 3 to
      2 + 2n their bounds.  `count` is the shared 32-bit word.  History: `bumps`
      counts without wrapping, `published` are the cells after each publish. */
  datatype State = State(count: nat, cells: seq<nat>, writer: Writer, reader: Reader, bumps: nat,
                         published: seq<seq<nat>>)

  datatype Action =
    | Open
    | Store(cell: nat, value: nat)
    | Close
    | Begin
    | Load(cell: nat)
    | Check

  predicate Enabled(s: State, a: Action) {
    match a
    case Open => s.writer.Idle?
    case Store(k, _) => s.writer.Storing? && k < |s.cells|
    case Close => s.writer.Storing?
    case Begin => !s.reader.Reading?
    case Load(k) => s.reader.Reading? && k < |s.cells|
    case Check => s.reader.Reading?
  }

  function Bump(count: nat): nat {
    (count + 1) % 0x1_0000_0000
  }

  function Do(s: State, a: Action): State
    requires Enabled(s, a)
  {
    match a
    case Open => s.(count := Bump(s.count), writer := Storing, bumps := s.bumps + 1)
    case Store(k, v) => s.(cells := s.cells[k := v])
    case Close => s.(count := Bump(s.count), writer := Idle, bumps := s.bumps + 1, published := s.published + [s.cells])
    case Begin => s.(reader := Reading(s.count, [], s.bumps))
    case Load(k) => s.(reader := s.reader.(loads := s.reader.loads + [(k, s.cells[k])]))
    case Check =>
      if s.reader.seq1 != s.count || s.reader.seq1 % 2 == 1 then s.(reader := Resting)
      else s.(reader := Accepted(s.reader.loads))
  }

  ghost predicate Init(s: State) {
    s.count == 0 && s.writer.Idle? && s.reader.Resting? && s.bumps == 0 && s.published == [s.cells]
  }

  /** A run in which no attempt is overtaken by 2^32 bumps, that is, by 2^31
      publishes. */
  ghost predicate Run(states: seq<State>) {
    && states != [] && Init(states[0])
    && (forall i :: 0 <= i < |states| - 1 ==> Next(states[i], states[i + 1]))
    && (forall i :: 0 <= i < |states| ==> Timely(states[i]))
  }

  ghost predicate Next(s: State, t: State) {
    exists a :: Enabled(s, a) && t == Do(s, a)
  }

  ghost predicate Timely(s: State) {
    s.reader.Reading? ==> s.bumps - s.reader.began < 0x1_0000_0000
  }

  /** Every load of the attempt is a cell of generation g. */
  ghost predicate FromGeneration(loads: seq<(nat, nat)>, published: seq<seq<nat>>, g: nat) {
    g < |published| && forall i :: 0 <= i < |loads| ==>
      loads[i].0 < |published[g]| && published[g][loads[i].0] == loads[i].1
  }

  ghost predicate Inv(s: State) {
    && s.count == s.bumps % 0x1_0000_0000
    && |s.published| == s.bumps / 2 + 1
    && (s.writer.Idle? <==> s.bumps % 2 == 0)
    && (s.writer.Idle? ==> s.cells == s.published[s.bumps / 2])
    && ReaderOk(s)
  }

  ghost predicate ReaderOk(s: State) {
    match s.reader
    case Resting => true
    case Reading(seq1, loads, began) =>
      && began <= s.bumps && seq1 == began % 0x1_0000_0000
      && (began == s.bumps && began % 2 == 0 ==> FromGeneration(loads, s.published, began / 2))
    case Accepted(loads) => exists g :: FromGeneration(loads, s.published, g)
  }

  lemma WriterInv(s: State, a: Action)
    requires Inv(s) && Enabled(s, a) && (a.Open? || a.Store? || a.Close?)
    ensures Inv(Do(s, a))
  {
    var t := Do(s, a);
    if s.reader.Accepted? {
      var g :| FromGeneration(s.reader.loads, s.published, g);
      assert FromGeneration(s.reader.loads, t.published, g);
    }
  }

  /** Equal 32-bit counts fewer than 2^32 bumps apart are the same moment. */
  lemma SameCount(b1: nat, b2: nat)
    requires b1 <= b2 < b1 + 0x1_0000_0000 && b1 % 0x1_0000_0000 == b2 % 0x1_0000_0000
    ensures b1 == b2
  {
  }

  lemma ReaderInv(s: State, a: Action)
    requires Inv(s) && Enabled(s, a) && (a.Begin? || a.Load? || a.Check?) && Timely(s)
    ensures Inv(Do(s, a))
  {
    if a.Check? && s.reader.seq1 == s.count {
      SameCount(s.reader.began, s.bumps);
      assert s.reader.seq1 % 2 == s.reader.began % 2;
      if s.reader.began % 2 == 0 { assert FromGeneration(s.reader.loads, s.published, s.bumps / 2); }
    }
  }

  lemma {:induction false} RunInv(states: seq<State>, i: nat)
    requires Run(states) && i < |states|
    ensures Inv(states[i])
  {
    if i > 0 {
      RunInv(states, i - 1);
      assert Next(states[i - 1], states[i - 1 + 1]) && Timely(states[i - 1]);
      var a :| Enabled(states[i - 1], a) && states[i] == Do(states[i - 1], a);
      hide Inv, Do, Enabled;
      if a.Open? || a.Store? || a.Close? { WriterInv(states[i - 1], a); } else { ReaderInv(states[i - 1], a); }
    }
  }

  /** An attempt is accepted exactly when no publish was under way at its first load
      and none has begun since: undisturbed, the first attempt succeeds. */
  lemma AcceptsIff(states: seq<State>, i: nat)
    requires Run(states) && i < |states| && states[i].reader.Reading?
    ensures Do(states[i], Check).reader.Accepted? <==>
      states[i].reader.began == states[i].bumps && states[i].writer.Idle?
  {
    RunInv(states, i);
    var s := states[i];
    assert Timely(s);
    hide Run, FromGeneration;
    EvenCount(s.reader.began);
    if s.reader.seq1 == s.count { SameCount(s.reader.began, s.bumps); }
  }

  lemma EvenCount(b: nat)
    ensures b % 0x1_0000_0000 % 2 == b % 2
  {
  }

  /** Whatever the interleaving, an accepted snapshot is one published generation,
      whole. */
  lemma AcceptedIsOneGeneration(states: seq<State>, i: nat) returns (g: nat)
    requires Run(states) && i < |states| && states[i].reader.Accepted?
    ensures FromGeneration(states[i].reader.loads, states[i].published, g)
  {
    RunInv(states, i);
    g :| FromGeneration(states[i].reader.loads, states[i].published, g);
  }

  /** The generations in question are those of completed publishes. */
  lemma {:induction false} GenerationsArePublishes(states: seq<State>, i: nat, g: nat)
    requires Run(states) && i < |states| && 0 < g < |states[i].published|
    ensures exists j :: 0 <= j < i && IsPublish(states[j], states[j + 1], states[i].published[g])
  {
    if i > 0 {
      assert Next(states[i - 1], states[i - 1 + 1]);
      var a :| Enabled(states[i - 1], a) && states[i] == Do(states[i - 1], a);
      if a.Close? && g == |states[i].published| - 1 {
        assert IsPublish(states[i - 1], states[i - 1 + 1], states[i].published[g]);
      } else {
        GenerationsArePublishes(states, i - 1, g);
      }
    }
  }

  /** The closing bump of a publish whose stores left these cells. */
  ghost predicate IsPublish(s: State, t: State, cells: seq<nat>) {
    s.writer.Storing? && t.writer.Idle? && s.cells == cells == t.cells
  }
}
