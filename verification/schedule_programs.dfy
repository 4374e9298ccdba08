/**
 * The two scheduled programs of the verifier's regression tests, parameterised
 * by the set of events left out, and the step lemmas through which each
 * concrete verdict is replayed (one module per verdict).
 */
module SchedulePrograms {
  import opened Results
  import opened ScheduleVerifier
  import opened ScheduleTheory

  /** The function parameter `x` every branch starts from. */
  const X := Param("x")

  function Atan(a: Operand): Instr
  {
    Call("atan", [a])
  }

  function Concatenate(a: Operand, axis: int): Instr
  {
    Call("concatenate", [a, Const(axis)])
  }

  /** The statement `s`, or nothing when event `e` is among the removed ones. */
  function Unless(removed: set<EventId>, e: EventId, s: Stmt): seq<Stmt>
  {
    if e in removed then [] else [s]
  }

  /** Three branches on streams 0, 1, 2 joined by a tuple on stream 2; events 0 and 1 order the join. */
  function SimpleBranches(removed: set<EventId>): Program
  {
    [Let(0, SetStream(0, 0)), Let(1, Atan(X)), Let(2, Atan(LetVar(1))), Let(3, Atan(LetVar(2)))]
    + Unless(removed, 0, Let(4, AddEvent(0)))
    + [Let(5, SetStream(0, 1)), Let(6, Atan(X)), Let(7, Atan(LetVar(6)))]
    + Unless(removed, 1, Let(8, AddEvent(1)))
    + [Let(9, SetStream(0, 2)), Let(10, Atan(X))]
    + Unless(removed, 1, Let(11, WaitEvent(1)))
    + Unless(removed, 0, Let(12, WaitEvent(0)))
    + [Let(13, MakeTuple([LetVar(10), LetVar(7), LetVar(3)])), Let(14, Concatenate(LetVar(13), 0))]
  }

  /**
   * Two blocks of three branches each: the first joins on stream 2 (events 0, 1),
   * the second fans the join out to streams 1 and 0 (event 2) and joins on
   * stream 0 (events 3, 4).
   */
  function StackedBlocks(removed: set<EventId>): Program
  {
    [Let(0, SetStream(0, 0)), Let(1, Atan(X)), Let(2, Atan(LetVar(1)))]
    + Unless(removed, 0, Let(3, AddEvent(0)))
    + [Let(4, SetStream(0, 1)), Let(5, Atan(X))]
    + Unless(removed, 1, Let(6, AddEvent(1)))
    + [Let(7, SetStream(0, 2)), Let(8, Atan(X))]
    + Unless(removed, 1, Let(9, WaitEvent(1)))
    + Unless(removed, 0, Let(10, WaitEvent(0)))
    + [Let(11, MakeTuple([LetVar(8), LetVar(5), LetVar(2)])), Let(12, Concatenate(LetVar(11), 0))]
    + Unless(removed, 2, Let(13, AddEvent(2)))
    + [Let(14, Atan(LetVar(12))), Let(15, Atan(LetVar(14)))]
    + Unless(removed, 3, Let(16, AddEvent(3)))
    + [Let(17, SetStream(0, 1))]
    + Unless(removed, 2, Let(18, WaitEvent(2)))
    + [Let(19, Atan(LetVar(12)))]
    + Unless(removed, 4, Let(20, AddEvent(4)))
    + [Let(21, SetStream(0, 0))]
    + Unless(removed, 2, Let(22, WaitEvent(2)))
    + [Let(23, Atan(LetVar(12)))]
    + Unless(removed, 4, Let(24, WaitEvent(4)))
    + Unless(removed, 3, Let(25, WaitEvent(3)))
    + [Let(26, MakeTuple([LetVar(23), LetVar(19), LetVar(15)])), Let(27, Concatenate(LetVar(26), 0))]
  }

  // ---------------------------------------------------------------------------
  // Evaluation one statement at a time, so that a concrete run unfolds in
  // small steps.  Every instruction of the two programs reads at most three
  // operands; resolution and hazard detection are spelled out per operand.
  // ---------------------------------------------------------------------------

  predicate Bound(ops: seq<Operand>, k: nat, defs: map<VarId, nat>)
  {
    k < |ops| && ops[k].LetVar? ==> ops[k].v in defs
  }

  /** The binding position operand `k` resolves to, if it is a let var. */
  function DepAt(ops: seq<Operand>, k: nat, defs: map<VarId, nat>): seq<nat>
    requires Bound(ops, k, defs)
  {
    if k < |ops| && ops[k].LetVar? then [defs[ops[k].v]] else []
  }

  lemma ResolveSmall(ops: seq<Operand>, defs: map<VarId, nat>)
    requires |ops| <= 3 && Bound(ops, 0, defs) && Bound(ops, 1, defs) && Bound(ops, 2, defs)
    ensures Resolve(ops, defs) == Ok(DepAt(ops, 0, defs) + DepAt(ops, 1, defs) + DepAt(ops, 2, defs))
  {
    var d0, d1, d2 := DepAt(ops, 0, defs), DepAt(ops, 1, defs), DepAt(ops, 2, defs);
    if |ops| == 3 {
      assert ops[2..][1..] == [];
      assert Resolve(ops[2..], defs).value == d2;
    }
    if |ops| >= 2 {
      assert ops[1..][1..] == ops[2..];
      assert |ops| < 3 ==> ops[2..] == [];
      assert Resolve(ops[1..], defs).value == d1 + d2;
    }
    assert |ops| == 1 ==> ops[1..] == [];
    assert d0 + d1 + d2 == d0 + (d1 + d2);
    var r := Resolve(ops, defs);
    assert r.Ok? && r.value == d0 + d1 + d2;
  }

  /** The hazard, if any, of the read of operand `k`. */
  function HazardAt(nodes: seq<Node>, deps: seq<nat>, k: nat, i: nat, cs: StreamId, c: Clock): seq<Hazard>
    requires forall j :: 0 <= j < |deps| ==> deps[j] < |nodes|
  {
    if k < |deps| && !Covers(c, cs, nodes[deps[k]].stream, deps[k])
    then [Hazard(deps[k], i, nodes[deps[k]].stream, cs)] else []
  }

  lemma ReadHazardsOne(nodes: seq<Node>, deps: seq<nat>, i: nat, cs: StreamId, c: Clock)
    requires |deps| == 1 && deps[0] < |nodes|
    ensures ReadHazards(nodes, deps, i, cs, c) == HazardAt(nodes, deps, 0, i, cs, c)
  {
    assert deps[1..] == [];
  }

  lemma ReadHazardsTwo(nodes: seq<Node>, deps: seq<nat>, i: nat, cs: StreamId, c: Clock)
    requires |deps| == 2 && deps[0] < |nodes| && deps[1] < |nodes|
    ensures ReadHazards(nodes, deps, i, cs, c) == HazardAt(nodes, deps, 0, i, cs, c) + HazardAt(nodes, deps, 1, i, cs, c)
  {
    ReadHazardsOne(nodes, deps[1..], i, cs, c);
    assert HazardAt(nodes, deps[1..], 0, i, cs, c) == HazardAt(nodes, deps, 1, i, cs, c);
  }

  lemma ReadHazardsThree(nodes: seq<Node>, deps: seq<nat>, i: nat, cs: StreamId, c: Clock)
    requires |deps| == 3 && deps[0] < |nodes| && deps[1] < |nodes| && deps[2] < |nodes|
    ensures ReadHazards(nodes, deps, i, cs, c)
         == HazardAt(nodes, deps, 0, i, cs, c) + HazardAt(nodes, deps, 1, i, cs, c) + HazardAt(nodes, deps, 2, i, cs, c)
  {
    var h0, h1, h2 := HazardAt(nodes, deps, 0, i, cs, c), HazardAt(nodes, deps, 1, i, cs, c), HazardAt(nodes, deps, 2, i, cs, c);
    ReadHazardsTwo(nodes, deps[1..], i, cs, c);
    assert HazardAt(nodes, deps[1..], 0, i, cs, c) == h1 && HazardAt(nodes, deps[1..], 1, i, cs, c) == h2;
    assert h0 + (h1 + h2) == h0 + h1 + h2;
  }

  /** The check of a reader of at most three operands, one operand at a time. */
  lemma ReadHazardsSmall(nodes: seq<Node>, deps: seq<nat>, i: nat, cs: StreamId, c: Clock)
    requires |deps| <= 3 && forall j :: 0 <= j < |deps| ==> deps[j] < |nodes|
    ensures ReadHazards(nodes, deps, i, cs, c)
         == HazardAt(nodes, deps, 0, i, cs, c) + HazardAt(nodes, deps, 1, i, cs, c) + HazardAt(nodes, deps, 2, i, cs, c)
  {
    if |deps| == 3 {
      ReadHazardsThree(nodes, deps, i, cs, c);
    } else if |deps| == 2 {
      ReadHazardsTwo(nodes, deps, i, cs, c);
      assert HazardAt(nodes, deps, 2, i, cs, c) == [];
    } else if |deps| == 1 {
      ReadHazardsOne(nodes, deps, i, cs, c);
      assert HazardAt(nodes, deps, 1, i, cs, c) == [] && HazardAt(nodes, deps, 2, i, cs, c) == [];
    }
  }

  /** The stream in force before position `i`, read off the graph built so far. */
  function ActiveAt(g: seq<Node>, i: nat): StreamId
    requires i <= |g|
  {
    if i == 0 then DefaultStream else g[i - 1].stream
  }

  /** Node `j` of `g` is what extraction builds from statement `j` of `prog` under `defs[j]`. */
  predicate Advances(prog: Program, g: seq<Node>, defs: seq<map<VarId, nat>>, j: nat)
    requires j < |prog| == |g| && |defs| == |prog| + 1
  {
    var ops := Reads(prog[j].instr);
    && |ops| <= 3 && Bound(ops, 0, defs[j]) && Bound(ops, 1, defs[j]) && Bound(ops, 2, defs[j])
    && defs[j + 1] == defs[j][prog[j].v := j]
    && g[j].instr == prog[j].instr
    && g[j].stream == NextStream(prog[j].instr, ActiveAt(g, j))
    && g[j].deps == DepAt(ops, 0, defs[j]) + DepAt(ops, 1, defs[j]) + DepAt(ops, 2, defs[j])
  }

  lemma DepsBelow(ops: seq<Operand>, defs: map<VarId, nat>, i: nat)
    requires Bound(ops, 0, defs) && Bound(ops, 1, defs) && Bound(ops, 2, defs)
    requires forall v :: v in defs ==> defs[v] < i
    ensures var deps := DepAt(ops, 0, defs) + DepAt(ops, 1, defs) + DepAt(ops, 2, defs);
      forall m :: 0 <= m < |deps| ==> deps[m] < i
  {
  }

  lemma WellFormedExtend(acc: seq<Node>, n: Node)
    requires WellFormed(acc) && forall m :: 0 <= m < |n.deps| ==> n.deps[m] < |acc|
    ensures WellFormed(acc + [n])
  {
    var acc' := acc + [n];
    forall j, k | 0 <= j < |acc'| && 0 <= k < |acc'[j].deps| ensures acc'[j].deps[k] < j {
      if j < |acc| {
        assert acc'[j] == acc[j];
      }
    }
  }

  /** Every recorded position in `defs` is before `i`. */
  predicate DefsBelow(defs: map<VarId, nat>, i: nat)
  {
    forall v :: v in defs ==> defs[v] < i
  }

  /** One statement of extraction, when node `i` of `g` `Advances`. */
  lemma ExtractAdvance(prog: Program, g: seq<Node>, defs: seq<map<VarId, nat>>, i: nat)
    requires i < |prog| == |g| && |defs| == |prog| + 1
    requires WellFormed(g[..i]) && DefsBelow(defs[i], i)
    requires Advances(prog, g, defs, i)
    ensures WellFormed(g[..i + 1]) && DefsBelow(defs[i + 1], i + 1)
    ensures ExtractFrom(prog, i, ActiveAt(g, i), defs[i], g[..i])
         == ExtractFrom(prog, i + 1, ActiveAt(g, i + 1), defs[i + 1], g[..i + 1])
  {
    var ops := Reads(prog[i].instr);
    ResolveSmall(ops, defs[i]);
    DepsBelow(ops, defs[i], i);
    assert g[..i] + [g[i]] == g[..i + 1];
    WellFormedExtend(g[..i], g[i]);
    assert Node(prog[i].instr, NextStream(prog[i].instr, ActiveAt(g, i)), Resolve(ops, defs[i]).value) == g[i];
  }

  /** Extraction from position `i` on rebuilds `g` when every later node `Advances`. */
  lemma {:induction false} ExtractReplays(prog: Program, g: seq<Node>, defs: seq<map<VarId, nat>>, i: nat)
    requires i <= |prog| == |g| && |defs| == |prog| + 1
    requires WellFormed(g[..i]) && DefsBelow(defs[i], i)
    requires forall j :: i <= j < |prog| ==> Advances(prog, g, defs, j)
    ensures ExtractFrom(prog, i, ActiveAt(g, i), defs[i], g[..i]) == Ok(g)
    decreases |prog| - i
  {
    if i == |prog| {
      assert g[..i] == g;
    } else {
      ExtractAdvance(prog, g, defs, i);
      ExtractReplays(prog, g, defs, i + 1);
    }
  }

  /** A merge written out as a clock literal. */
  lemma MergeIs(c: Clock, m: Mark, r: Clock)
    requires r.Keys == c.Keys + m.clock.Keys + {m.stream}
    requires forall t :: t in r ==> r[t] == Max(Max(Seen(c, t), Seen(m.clock, t)), if t == m.stream then m.pos else -1)
    ensures Merge(c, m) == r
  {
    forall t ensures Seen(Merge(c, m), t) == Seen(r, t) {
      if t in r {
      }
    }
    ClockExt(Merge(c, m), r);
  }

  /** A step that succeeds hands the rest of the run over to its result. */
  lemma SimulateLink(g: seq<Node>, i: nat, st: SimState, st': SimState)
    requires WellFormed(g) && i < |g| && Step(g, i, st) == Ok(st')
    ensures SimulateFrom(g, i, st) == SimulateFrom(g, i + 1, st')
  {
  }

  lemma SimulateDone(g: seq<Node>, st: SimState)
    requires WellFormed(g)
    ensures SimulateFrom(g, |g|, st) == Ok(st)
  {
  }
}
