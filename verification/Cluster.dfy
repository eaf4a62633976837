/** Several nodes: a ring with its own escrow and workers on each, one resume
    horizon over all of them. */
module Cluster {
  import C = ClaimProtocol
  import I = ClaimInvariant
  import T = ClaimTheorems

  /** What each node's ring is run with; bytes that go to other nodes are not known
      beforehand. */
  datatype Config = Config(rings: seq<C.Config>) {
    ghost predicate Ok() {
      forall j, k :: 0 <= j < |rings| && 0 <= k < |rings| ==>
        rings[j].foreign == iset{} && rings[j].resumeFrom == rings[k].resumeFrom
    }
  }

  type State = seq<C.State>

  datatype Action =
    | At(node: nat, step: C.Action)   // a step of one node's ring
    | Advance(h: nat)                 // of the horizon

  /** A batch that goes to node j overlaps nothing on any other node. */
  ghost predicate Clear(s: State, j: nat, b: C.Batch) {
    forall k: nat, i: nat :: k < |s| && k != j && i < |s[k].pub| ==> !C.Overlaps(s[k].pub[i], b)
  }

  /** Some node has acknowledged input byte x. */
  ghost predicate Acked(s: State, x: nat) {
    exists k: nat :: k < |s| && C.Covered(s[k].pub, s[k].order, x)
  }

  ghost predicate Enabled(c: Config, s: State, a: Action) {
    c.Ok() && |s| == |c.rings| &&
    match a
    case At(j, b) => j < |s| && C.Enabled(c.rings[j], s[j], b) && !b.AdvanceHorizon?
      && (b.Flush? ==> Clear(s, j, b.batch))
    case Advance(h) =>
      forall j :: 0 <= j < |s| ==>
        && C.Shaped(c.rings[j], s[j]) && s[j].horizon <= h
        && forall x: nat :: s[j].horizon <= x < h ==> Acked(s, x)
  }

  ghost function Do(c: Config, s: State, a: Action): State
    requires Enabled(c, s, a)
  {
    match a
    case At(j, b) => s[j := C.Do(c.rings[j], s[j], b)]
    case Advance(h) => seq(|s|, j requires 0 <= j < |s| => s[j].(horizon := h))
  }

  ghost predicate Run(c: Config, states: seq<State>, actions: seq<Action>) {
    && c.Ok() && |states| == |actions| + 1 && |states[0]| == |c.rings|
    && (forall j :: 0 <= j < |c.rings| ==> C.Init(c.rings[j], states[0][j]))
    && forall i :: 0 <= i < |actions| ==>
      Enabled(c, states[i], actions[i]) && states[i + 1] == Do(c, states[i], actions[i])
  }

  lemma RunStep(c: Config, states: seq<State>, actions: seq<Action>, n: nat)
    requires Run(c, states, actions) && 0 < n < |states|
    ensures Enabled(c, states[n - 1], actions[n - 1]) && states[n] == Do(c, states[n - 1], actions[n - 1])
  {
    hide Enabled, Do;
    assert states[n - 1 + 1] == states[n];
  }

  lemma {:induction false} RunSized(c: Config, states: seq<State>, actions: seq<Action>, n: nat)
    requires Run(c, states, actions) && n < |states|
    ensures |states[n]| == |c.rings|
  {
    hide C.Enabled, C.Do, Clear, Acked, Config.Ok;
    if n > 0 {
      RunSized(c, states, actions, n - 1);
      RunStep(c, states, actions, n);
    }
  }

  /** Input byte x is in a batch of another node than j. */
  ghost predicate Elsewhere(s: State, j: nat, x: nat) {
    exists k: nat, i: nat :: k < |s| && k != j && i < |s[k].pub| && s[k].pub[i].offset <= x < s[k].pub[i].end
  }

  ghost function Foreign(s: State, j: nat): iset<nat> {
    iset x: nat | Elsewhere(s, j, x)
  }

  /** Node j's ring in a run that ends in s. */
  ghost function Ring(c: Config, s: State, j: nat): C.Config
    requires j < |c.rings|
  {
    c.rings[j].(foreign := Foreign(s, j))
  }

  // ---- What is published stays and overlaps nothing ----

  lemma SuperviseKeepsPub(c: C.Config, s: C.State)
    requires C.CanSupervise(c, s)
    ensures C.DoSupervise(c, s).pub == s.pub
  {
    hide C.Classify;
  }

  lemma RingPub(c: C.Config, s: C.State, a: C.Action)
    requires C.Enabled(c, s, a)
    ensures C.Do(c, s, a).pub == s.pub + if a.Flush? then [a.batch] else []
  {
    hide C.DoWork, C.DoSupervise, C.WithinWindow, C.Covered;
    match a
    case Work(wid, choice) => T.WorkKeeps(c, s, wid, choice);
    case Supervise => SuperviseKeepsPub(c, s);
    case _ =>
  }

  /** Batches of different nodes are disjoint. */
  ghost predicate Disjoint(s: State) {
    forall j: nat, k: nat, i: nat, l: nat :: j < |s| && k < |s| && j != k && i < |s[j].pub| && l < |s[k].pub| ==>
      !C.Overlaps(s[j].pub[i], s[k].pub[l])
  }

  /** A step adds at most one batch, and that is disjoint from the other nodes'. */
  lemma StepPub(c: Config, s: State, a: Action)
    requires Enabled(c, s, a)
    ensures |Do(c, s, a)| == |s| && forall k :: 0 <= k < |s| ==> s[k].pub <= Do(c, s, a)[k].pub
    ensures Disjoint(s) ==> Disjoint(Do(c, s, a))
  {
    hide C.Enabled, C.Do, Acked, Config.Ok;
    if a.At? {
      RingPub(c.rings[a.node], s[a.node], a.step);
      assert Do(c, s, a)[a.node].pub == s[a.node].pub + if a.step.Flush? then [a.step.batch] else [];
    }
  }

  lemma {:induction false} RunPub(c: Config, states: seq<State>, actions: seq<Action>, n: nat, last: nat)
    requires Run(c, states, actions) && n <= last < |states|
    ensures |states[n]| == |states[last]|
    ensures forall k :: 0 <= k < |states[n]| ==> states[n][k].pub <= states[last][k].pub
  {
    hide Enabled, Do;
    if n < last {
      RunPub(c, states, actions, n, last - 1);
      RunStep(c, states, actions, last);
      StepPub(c, states[last - 1], actions[last - 1]);
    }
  }

  lemma {:induction false} RunDisjoint(c: Config, states: seq<State>, actions: seq<Action>, n: nat)
    requires Run(c, states, actions) && n < |states|
    ensures Disjoint(states[n])
  {
    hide Enabled, Do;
    if n > 0 {
      RunDisjoint(c, states, actions, n - 1);
      RunStep(c, states, actions, n);
      StepPub(c, states[n - 1], actions[n - 1]);
    } else {
      hide Disjoint;
      StartDisjoint(c, states[0]);
    }
  }

  lemma StartDisjoint(c: Config, s: State)
    requires |s| == |c.rings| && forall j :: 0 <= j < |s| ==> C.Init(c.rings[j], s[j])
    ensures Disjoint(s)
  {
    assert forall j :: 0 <= j < |s| ==> s[j].pub == [];
  }

  // ---- Each node's ring runs by itself ----

  /** What another ring's bytes are makes no difference to a step. */
  lemma SameStep(c: C.Config, foreign: iset<nat>, s: C.State, a: C.Action)
    requires C.Enabled(c, s, a) && !a.AdvanceHorizon? && (a.Flush? ==> C.Apart(foreign, a.batch))
    ensures C.Enabled(c.(foreign := foreign), s, a) && C.Do(c.(foreign := foreign), s, a) == C.Do(c, s, a)
  {
    hide C.WithinWindow, C.Covered, C.DoWork, C.DoSupervise, C.Apart;
    match a
    case Work(wid, choice) => SameWork(c, foreign, s, wid, choice);
    case Supervise => SameSupervise(c, foreign, s);
    case _ =>
  }

  lemma SameWork(c: C.Config, foreign: iset<nat>, s: C.State, wid: nat, choice: C.Choice)
    requires C.CanWork(c, s, wid, choice)
    ensures C.CanWork(c.(foreign := foreign), s, wid, choice)
    ensures C.DoWork(c.(foreign := foreign), s, wid, choice) == C.DoWork(c, s, wid, choice)
  {
    hide C.NextPc, C.EscrowIdxLive, C.Slot;
  }

  lemma SameSupervise(c: C.Config, foreign: iset<nat>, s: C.State)
    requires C.CanSupervise(c, s)
    ensures C.CanSupervise(c.(foreign := foreign), s)
    ensures C.DoSupervise(c.(foreign := foreign), s) == C.DoSupervise(c, s)
  {
    hide C.Classify;
  }

  /** A batch of node j holds none of the bytes of other nodes. */
  lemma OwnBytes(s: State, j: nat, i: nat)
    requires Disjoint(s) && j < |s| && i < |s[j].pub|
    ensures C.Apart(Foreign(s, j), s[j].pub[i])
  {
  }

  /** A step of the whole is a step of node j's ring, or leaves it alone. */
  lemma RingStep(c: Config, s: State, a: Action, last: State, j: nat) returns (b: C.Action)
    requires Enabled(c, s, a) && j < |s| == |last| && Disjoint(last)
    requires forall k :: 0 <= k < |s| ==> s[k].pub <= Do(c, s, a)[k].pub <= last[k].pub
    ensures if a.At? && a.node != j then Do(c, s, a)[j] == s[j]
            else C.Enabled(Ring(c, last, j), s[j], b) && Do(c, s, a)[j] == C.Do(Ring(c, last, j), s[j], b)
  {
    match a
    case At(k, step) =>
      b := step;
      hide C.Enabled, C.Do, Acked, Foreign;
      if k == j {
        if step.Flush? {
          RingPub(c.rings[j], s[j], step);
          assert last[j].pub[|s[j].pub|] == step.batch;
          OwnBytes(last, j, |s[j].pub|);
        }
        hide Disjoint, Clear;
        SameStep(c.rings[j], Foreign(last, j), s[j], step);
      }
    case Advance(h) =>
      b := C.AdvanceHorizon(h);
      forall x: nat | s[j].horizon <= x < h ensures x in Foreign(last, j) || C.Covered(s[j].pub, s[j].order, x) {
        AckedWhere(s, last, j, x);
      }
      hide C.Covered, Foreign, Disjoint;
  }

  /** An acknowledged byte is one of node j's acknowledged bytes, or foreign to it. */
  lemma AckedWhere(s: State, last: State, j: nat, x: nat)
    requires Acked(s, x) && |s| == |last| && forall k :: 0 <= k < |s| ==> s[k].pub <= last[k].pub
    ensures x in Foreign(last, j) || (j < |s| && C.Covered(s[j].pub, s[j].order, x))
  {
    var k: nat :| k < |s| && C.Covered(s[k].pub, s[k].order, x);
    if k != j {
      var t: nat :| t < |s[k].order| && s[k].order[t].idx < |s[k].pub|
                 && s[k].pub[s[k].order[t].idx].offset <= x < s[k].pub[s[k].order[t].idx].end;
      assert last[k].pub[s[k].order[t].idx] == s[k].pub[s[k].order[t].idx];
    }
  }

  lemma RingExtend(c: C.Config, rs: seq<C.State>, ras: seq<C.Action>, b: C.Action)
    requires C.Run(c, rs, ras) && C.Enabled(c, rs[|ras|], b)
    ensures C.Run(c, rs + [C.Do(c, rs[|ras|], b)], ras + [b])
  {
    hide C.Enabled, C.Do, C.Init;
    var more, acts := rs + [C.Do(c, rs[|ras|], b)], ras + [b];
    forall i | 0 <= i < |acts| ensures C.Enabled(c, more[i], acts[i]) && more[i + 1] == C.Do(c, more[i], acts[i]) {
      if i < |ras| { assert more[i] == rs[i] && more[i + 1] == rs[i + 1] && acts[i] == ras[i]; }
    }
  }

  /** What node j does in a run of all nodes is a run of its ring alone: every
      property of one ring's runs holds of each node's. */
  lemma {:induction false} RingRun(c: Config, states: seq<State>, actions: seq<Action>, n: nat, last: nat, j: nat)
    returns (rs: seq<C.State>, ras: seq<C.Action>)
    requires Run(c, states, actions) && n <= last < |states| && j < |c.rings|
    ensures |states[n]| == |c.rings|
    ensures C.Run(Ring(c, states[last], j), rs, ras) && rs[|ras|] == states[n][j]
  {
    RunSized(c, states, actions, n);
    if n == 0 {
      rs, ras := [states[0][j]], [];
      hide Enabled, Do, Foreign;
      assert C.Init(c.rings[j], states[0][j]);
    } else {
      rs, ras := RingRun(c, states, actions, n - 1, last, j);
      hide *;
      RunStep(c, states, actions, n);
      rs, ras := RingGoesOn(c, states, actions, n, last, j, rs, ras);
    }
  }

  lemma RingGoesOn(c: Config, states: seq<State>, actions: seq<Action>, n: nat, last: nat, j: nat,
                   rs: seq<C.State>, ras: seq<C.Action>) returns (more: seq<C.State>, acts: seq<C.Action>)
    requires Run(c, states, actions) && 0 < n <= last < |states| && j < |c.rings| == |states[n - 1]| == |states[n]|
    requires C.Run(Ring(c, states[last], j), rs, ras) && rs[|ras|] == states[n - 1][j]
    requires Enabled(c, states[n - 1], actions[n - 1]) && states[n] == Do(c, states[n - 1], actions[n - 1])
    ensures C.Run(Ring(c, states[last], j), more, acts) && more[|acts|] == states[n][j]
  {
    RunPub(c, states, actions, n - 1, n);
    RunPub(c, states, actions, n, last);
    RunDisjoint(c, states, actions, last);
    var a := actions[n - 1];
    var b := RingStep(c, states[n - 1], a, states[last], j);
    hide Run, C.Run, C.Enabled, C.Do, Enabled, Do, Disjoint, Foreign;
    if a.At? && a.node != j {
      more, acts := rs, ras;
    } else {
      RingExtend(Ring(c, states[last], j), rs, ras, b);
      more, acts := rs + [C.Do(Ring(c, states[last], j), rs[|ras|], b)], ras + [b];
      RunLength(Ring(c, states[last], j), rs, ras);
    }
  }

  lemma RunLength(c: C.Config, rs: seq<C.State>, ras: seq<C.Action>)
    requires C.Run(c, rs, ras)
    ensures |rs| == |ras| + 1
  {
    hide C.Enabled, C.Do, C.Init;
  }

  /** The whole invariant of one ring, on every node in every reachable state. */
  lemma NodeInv(c: Config, states: seq<State>, actions: seq<Action>, n: nat, j: nat)
    requires Run(c, states, actions) && n < |states| && j < |c.rings|
    ensures |states[n]| == |c.rings| && I.Inv(Ring(c, states[n], j), states[n][j])
  {
    var rs, ras := RingRun(c, states, actions, n, n, j);
    hide Run, C.Run, I.Inv, Foreign;
    RunLength(Ring(c, states[n], j), rs, ras);
    I.RunInv(Ring(c, states[n], j), rs, ras, |ras|);
  }

  /** On every node, however many bytes of other nodes the horizon has passed: a
      non-empty batch at or below it has been acknowledged. */
  lemma BelowHorizonAcked(c: Config, states: seq<State>, actions: seq<Action>, n: nat, j: nat, i: nat)
    requires Run(c, states, actions) && n < |states| && j < |states[n]| && i < |states[n][j].pub|
    requires states[n][j].pub[i].offset < states[n][j].pub[i].end <= states[n][j].horizon
    ensures exists k :: 0 <= k < |states[n][j].order| && states[n][j].order[k].idx == i
  {
    RunSized(c, states, actions, n);
    NodeInv(c, states, actions, n, j);
    hide Run, Foreign;
    T.BelowHorizonAcked(Ring(c, states[n], j), states[n][j], i);
  }
}
