/**
 * The verifier's verdict on `SimpleBranches(removed)` for one choice of removed events.
 * Without event 1 the tuple `x_13` (position 11) reads the second branch `x_7` unordered.
 */
module SimpleBranchesWithoutEvent1 {
  import opened Results
  import opened ScheduleVerifier
  import opened ScheduleTheory
  import opened SchedulePrograms

  /** The graph `Extract` builds for `SimpleBranches(removed)`. */
  function SimpleBranchesWithoutEvent1Nodes(): seq<Node>
  {
    [ Node(SetStream(0, 0), OnDevice(0, 0), [])
    , Node(Atan(X), OnDevice(0, 0), [])
    , Node(Atan(LetVar(1)), OnDevice(0, 0), [1])
    , Node(Atan(LetVar(2)), OnDevice(0, 0), [2])
    , Node(AddEvent(0), OnDevice(0, 0), [])
    , Node(SetStream(0, 1), OnDevice(0, 1), [])
    , Node(Atan(X), OnDevice(0, 1), [])
    , Node(Atan(LetVar(6)), OnDevice(0, 1), [6])
    , Node(SetStream(0, 2), OnDevice(0, 2), [])
    , Node(Atan(X), OnDevice(0, 2), [])
    , Node(WaitEvent(0), OnDevice(0, 2), [])
    , Node(MakeTuple([LetVar(10), LetVar(7), LetVar(3)]), OnDevice(0, 2), [9, 7, 3])
    , Node(Concatenate(LetVar(13), 0), OnDevice(0, 2), [11]) ]
  }

  /** `g` is `SimpleBranchesWithoutEvent1Nodes()`, position by position. */
  predicate SimpleBranchesWithoutEvent1Shape(g: seq<Node>)
  {
    && |g| == 13
    && SimpleBranchesWithoutEvent1Shape0(g)
    && SimpleBranchesWithoutEvent1Shape5(g)
    && SimpleBranchesWithoutEvent1Shape10(g)
  }

  predicate SimpleBranchesWithoutEvent1Shape0(g: seq<Node>)
    requires |g| == 13
  {
    && g[0] == Node(SetStream(0, 0), OnDevice(0, 0), [])
    && g[1] == Node(Atan(X), OnDevice(0, 0), [])
    && g[2] == Node(Atan(LetVar(1)), OnDevice(0, 0), [1])
    && g[3] == Node(Atan(LetVar(2)), OnDevice(0, 0), [2])
    && g[4] == Node(AddEvent(0), OnDevice(0, 0), [])
  }

  predicate SimpleBranchesWithoutEvent1Shape5(g: seq<Node>)
    requires |g| == 13
  {
    && g[5] == Node(SetStream(0, 1), OnDevice(0, 1), [])
    && g[6] == Node(Atan(X), OnDevice(0, 1), [])
    && g[7] == Node(Atan(LetVar(6)), OnDevice(0, 1), [6])
    && g[8] == Node(SetStream(0, 2), OnDevice(0, 2), [])
    && g[9] == Node(Atan(X), OnDevice(0, 2), [])
  }

  predicate SimpleBranchesWithoutEvent1Shape10(g: seq<Node>)
    requires |g| == 13
  {
    && g[10] == Node(WaitEvent(0), OnDevice(0, 2), [])
    && g[11] == Node(MakeTuple([LetVar(10), LetVar(7), LetVar(3)]), OnDevice(0, 2), [9, 7, 3])
    && g[12] == Node(Concatenate(LetVar(13), 0), OnDevice(0, 2), [11])
  }

  /** The variable table before each position of `SimpleBranches(removed)`. */
  function SimpleBranchesWithoutEvent1Defs(): seq<map<VarId, nat>>
  {
    [ map[]
    , map[0 := 0]
    , map[0 := 0, 1 := 1]
    , map[0 := 0, 1 := 1, 2 := 2]
    , map[0 := 0, 1 := 1, 2 := 2, 3 := 3]
    , map[0 := 0, 1 := 1, 2 := 2, 3 := 3, 4 := 4]
    , map[0 := 0, 1 := 1, 2 := 2, 3 := 3, 4 := 4, 5 := 5]
    , map[0 := 0, 1 := 1, 2 := 2, 3 := 3, 4 := 4, 5 := 5, 6 := 6]
    , map[0 := 0, 1 := 1, 2 := 2, 3 := 3, 4 := 4, 5 := 5, 6 := 6, 7 := 7]
    , map[0 := 0, 1 := 1, 2 := 2, 3 := 3, 4 := 4, 5 := 5, 6 := 6, 7 := 7, 9 := 8]
    , map[0 := 0, 1 := 1, 2 := 2, 3 := 3, 4 := 4, 5 := 5, 6 := 6, 7 := 7, 9 := 8, 10 := 9]
    , map[0 := 0, 1 := 1, 2 := 2, 3 := 3, 4 := 4, 5 := 5, 6 := 6, 7 := 7, 9 := 8, 10 := 9, 12 := 10]
    , map[0 := 0, 1 := 1, 2 := 2, 3 := 3, 4 := 4, 5 := 5, 6 := 6, 7 := 7, 9 := 8, 10 := 9, 12 := 10, 13 := 11]
    , map[0 := 0, 1 := 1, 2 := 2, 3 := 3, 4 := 4, 5 := 5, 6 := 6, 7 := 7, 9 := 8, 10 := 9, 12 := 10, 13 := 11, 14 := 12] ]
  }

  /** `defs` is `SimpleBranchesWithoutEvent1Defs()`, position by position. */
  predicate SimpleBranchesWithoutEvent1Tables(defs: seq<map<VarId, nat>>)
  {
    && |defs| == 14
    && SimpleBranchesWithoutEvent1Tables0(defs)
    && SimpleBranchesWithoutEvent1Tables5(defs)
    && SimpleBranchesWithoutEvent1Tables10(defs)
  }

  predicate SimpleBranchesWithoutEvent1Tables0(defs: seq<map<VarId, nat>>)
    requires |defs| == 14
  {
    && defs[0] == map[]
    && defs[1] == map[0 := 0]
    && defs[2] == map[0 := 0, 1 := 1]
    && defs[3] == map[0 := 0, 1 := 1, 2 := 2]
    && defs[4] == map[0 := 0, 1 := 1, 2 := 2, 3 := 3]
  }

  predicate SimpleBranchesWithoutEvent1Tables5(defs: seq<map<VarId, nat>>)
    requires |defs| == 14
  {
    && defs[5] == map[0 := 0, 1 := 1, 2 := 2, 3 := 3, 4 := 4]
    && defs[6] == map[0 := 0, 1 := 1, 2 := 2, 3 := 3, 4 := 4, 5 := 5]
    && defs[7] == map[0 := 0, 1 := 1, 2 := 2, 3 := 3, 4 := 4, 5 := 5, 6 := 6]
    && defs[8] == map[0 := 0, 1 := 1, 2 := 2, 3 := 3, 4 := 4, 5 := 5, 6 := 6, 7 := 7]
    && defs[9] == map[0 := 0, 1 := 1, 2 := 2, 3 := 3, 4 := 4, 5 := 5, 6 := 6, 7 := 7, 9 := 8]
  }

  predicate SimpleBranchesWithoutEvent1Tables10(defs: seq<map<VarId, nat>>)
    requires |defs| == 14
  {
    && defs[10] == map[0 := 0, 1 := 1, 2 := 2, 3 := 3, 4 := 4, 5 := 5, 6 := 6, 7 := 7, 9 := 8, 10 := 9]
    && defs[11] == map[0 := 0, 1 := 1, 2 := 2, 3 := 3, 4 := 4, 5 := 5, 6 := 6, 7 := 7, 9 := 8, 10 := 9, 12 := 10]
    && defs[12] == map[0 := 0, 1 := 1, 2 := 2, 3 := 3, 4 := 4, 5 := 5, 6 := 6, 7 := 7, 9 := 8, 10 := 9, 12 := 10, 13 := 11]
    && defs[13] == map[0 := 0, 1 := 1, 2 := 2, 3 := 3, 4 := 4, 5 := 5, 6 := 6, 7 := 7, 9 := 8, 10 := 9, 12 := 10, 13 := 11, 14 := 12]
  }

  function SimpleBranchesWithoutEvent1State0(): SimState
  {
    SimState(map[], map[], [])
  }

  function SimpleBranchesWithoutEvent1State1(): SimState
  {
    SimState(map[], map[], [])
  }

  function SimpleBranchesWithoutEvent1State2(): SimState
  {
    SimState(map[], map[], [])
  }

  function SimpleBranchesWithoutEvent1State3(): SimState
  {
    SimState(map[], map[], [])
  }

  function SimpleBranchesWithoutEvent1State4(): SimState
  {
    SimState(map[], map[], [])
  }

  function SimpleBranchesWithoutEvent1State5(): SimState
  {
    SimState(map[][0 := Mark(OnDevice(0, 0), 4, map[])], map[], [])
  }

  function SimpleBranchesWithoutEvent1State6(): SimState
  {
    SimState(map[][0 := Mark(OnDevice(0, 0), 4, map[])], map[], [])
  }

  function SimpleBranchesWithoutEvent1State7(): SimState
  {
    SimState(map[][0 := Mark(OnDevice(0, 0), 4, map[])], map[], [])
  }

  function SimpleBranchesWithoutEvent1State8(): SimState
  {
    SimState(map[][0 := Mark(OnDevice(0, 0), 4, map[])], map[], [])
  }

  function SimpleBranchesWithoutEvent1State9(): SimState
  {
    SimState(map[][0 := Mark(OnDevice(0, 0), 4, map[])], map[], [])
  }

  function SimpleBranchesWithoutEvent1State10(): SimState
  {
    SimState(map[][0 := Mark(OnDevice(0, 0), 4, map[])], map[], [])
  }

  function SimpleBranchesWithoutEvent1State11(): SimState
  {
    SimState(map[][0 := Mark(OnDevice(0, 0), 4, map[])], map[][OnDevice(0, 2) := map[OnDevice(0, 0) := 4]], [])
  }

  function SimpleBranchesWithoutEvent1State12(): SimState
  {
    SimState(map[][0 := Mark(OnDevice(0, 0), 4, map[])], map[][OnDevice(0, 2) := map[OnDevice(0, 0) := 4]], [Hazard(7, 11, OnDevice(0, 1), OnDevice(0, 2))])
  }

  function SimpleBranchesWithoutEvent1State13(): SimState
  {
    SimState(map[][0 := Mark(OnDevice(0, 0), 4, map[])], map[][OnDevice(0, 2) := map[OnDevice(0, 0) := 4]], [Hazard(7, 11, OnDevice(0, 1), OnDevice(0, 2))])
  }

  lemma SimpleBranchesWithoutEvent1Advance0(removed: set<EventId>, g: seq<Node>, defs: seq<map<VarId, nat>>)
    requires 0 !in removed && 1 in removed
    requires |g| == 13
    requires g[0] == Node(SetStream(0, 0), OnDevice(0, 0), [])
    requires |defs| == 14
    requires defs[0] == map[]
    requires defs[1] == map[0 := 0]
    ensures |SimpleBranches(removed)| == 13 && Advances(SimpleBranches(removed), g, defs, 0)
  {
    var p := SimpleBranches(removed);
    assert p[0] == Let(0, SetStream(0, 0));
  }

  lemma SimpleBranchesWithoutEvent1Advance1(removed: set<EventId>, g: seq<Node>, defs: seq<map<VarId, nat>>)
    requires 0 !in removed && 1 in removed
    requires |g| == 13
    requires g[0] == Node(SetStream(0, 0), OnDevice(0, 0), [])
    requires g[1] == Node(Atan(X), OnDevice(0, 0), [])
    requires |defs| == 14
    requires defs[1] == map[0 := 0]
    requires defs[2] == map[0 := 0, 1 := 1]
    ensures |SimpleBranches(removed)| == 13 && Advances(SimpleBranches(removed), g, defs, 1)
  {
    var p := SimpleBranches(removed);
    assert p[1] == Let(1, Atan(X));
  }

  lemma SimpleBranchesWithoutEvent1Advance2(removed: set<EventId>, g: seq<Node>, defs: seq<map<VarId, nat>>)
    requires 0 !in removed && 1 in removed
    requires |g| == 13
    requires g[1] == Node(Atan(X), OnDevice(0, 0), [])
    requires g[2] == Node(Atan(LetVar(1)), OnDevice(0, 0), [1])
    requires |defs| == 14
    requires defs[2] == map[0 := 0, 1 := 1]
    requires defs[3] == map[0 := 0, 1 := 1, 2 := 2]
    ensures |SimpleBranches(removed)| == 13 && Advances(SimpleBranches(removed), g, defs, 2)
  {
    var p := SimpleBranches(removed);
    assert p[2] == Let(2, Atan(LetVar(1)));
  }

  lemma SimpleBranchesWithoutEvent1Advance3(removed: set<EventId>, g: seq<Node>, defs: seq<map<VarId, nat>>)
    requires 0 !in removed && 1 in removed
    requires |g| == 13
    requires g[2] == Node(Atan(LetVar(1)), OnDevice(0, 0), [1])
    requires g[3] == Node(Atan(LetVar(2)), OnDevice(0, 0), [2])
    requires |defs| == 14
    requires defs[3] == map[0 := 0, 1 := 1, 2 := 2]
    requires defs[4] == map[0 := 0, 1 := 1, 2 := 2, 3 := 3]
    ensures |SimpleBranches(removed)| == 13 && Advances(SimpleBranches(removed), g, defs, 3)
  {
    var p := SimpleBranches(removed);
    assert p[3] == Let(3, Atan(LetVar(2)));
  }

  lemma SimpleBranchesWithoutEvent1Advance4(removed: set<EventId>, g: seq<Node>, defs: seq<map<VarId, nat>>)
    requires 0 !in removed && 1 in removed
    requires |g| == 13
    requires g[3] == Node(Atan(LetVar(2)), OnDevice(0, 0), [2])
    requires g[4] == Node(AddEvent(0), OnDevice(0, 0), [])
    requires |defs| == 14
    requires defs[4] == map[0 := 0, 1 := 1, 2 := 2, 3 := 3]
    requires defs[5] == map[0 := 0, 1 := 1, 2 := 2, 3 := 3, 4 := 4]
    ensures |SimpleBranches(removed)| == 13 && Advances(SimpleBranches(removed), g, defs, 4)
  {
    var p := SimpleBranches(removed);
    assert p[4] == Let(4, AddEvent(0));
  }

  lemma SimpleBranchesWithoutEvent1Advance5(removed: set<EventId>, g: seq<Node>, defs: seq<map<VarId, nat>>)
    requires 0 !in removed && 1 in removed
    requires |g| == 13
    requires g[4] == Node(AddEvent(0), OnDevice(0, 0), [])
    requires g[5] == Node(SetStream(0, 1), OnDevice(0, 1), [])
    requires |defs| == 14
    requires defs[5] == map[0 := 0, 1 := 1, 2 := 2, 3 := 3, 4 := 4]
    requires defs[6] == map[0 := 0, 1 := 1, 2 := 2, 3 := 3, 4 := 4, 5 := 5]
    ensures |SimpleBranches(removed)| == 13 && Advances(SimpleBranches(removed), g, defs, 5)
  {
    var p := SimpleBranches(removed);
    assert p[5] == Let(5, SetStream(0, 1));
  }

  lemma SimpleBranchesWithoutEvent1Advance6(removed: set<EventId>, g: seq<Node>, defs: seq<map<VarId, nat>>)
    requires 0 !in removed && 1 in removed
    requires |g| == 13
    requires g[5] == Node(SetStream(0, 1), OnDevice(0, 1), [])
    requires g[6] == Node(Atan(X), OnDevice(0, 1), [])
    requires |defs| == 14
    requires defs[6] == map[0 := 0, 1 := 1, 2 := 2, 3 := 3, 4 := 4, 5 := 5]
    requires defs[7] == map[0 := 0, 1 := 1, 2 := 2, 3 := 3, 4 := 4, 5 := 5, 6 := 6]
    ensures |SimpleBranches(removed)| == 13 && Advances(SimpleBranches(removed), g, defs, 6)
  {
    var p := SimpleBranches(removed);
    assert p[6] == Let(6, Atan(X));
  }

  lemma SimpleBranchesWithoutEvent1Advance7(removed: set<EventId>, g: seq<Node>, defs: seq<map<VarId, nat>>)
    requires 0 !in removed && 1 in removed
    requires |g| == 13
    requires g[6] == Node(Atan(X), OnDevice(0, 1), [])
    requires g[7] == Node(Atan(LetVar(6)), OnDevice(0, 1), [6])
    requires |defs| == 14
    requires defs[7] == map[0 := 0, 1 := 1, 2 := 2, 3 := 3, 4 := 4, 5 := 5, 6 := 6]
    requires defs[8] == map[0 := 0, 1 := 1, 2 := 2, 3 := 3, 4 := 4, 5 := 5, 6 := 6, 7 := 7]
    ensures |SimpleBranches(removed)| == 13 && Advances(SimpleBranches(removed), g, defs, 7)
  {
    var p := SimpleBranches(removed);
    assert p[7] == Let(7, Atan(LetVar(6)));
  }

  lemma SimpleBranchesWithoutEvent1Advance8(removed: set<EventId>, g: seq<Node>, defs: seq<map<VarId, nat>>)
    requires 0 !in removed && 1 in removed
    requires |g| == 13
    requires g[7] == Node(Atan(LetVar(6)), OnDevice(0, 1), [6])
    requires g[8] == Node(SetStream(0, 2), OnDevice(0, 2), [])
    requires |defs| == 14
    requires defs[8] == map[0 := 0, 1 := 1, 2 := 2, 3 := 3, 4 := 4, 5 := 5, 6 := 6, 7 := 7]
    requires defs[9] == map[0 := 0, 1 := 1, 2 := 2, 3 := 3, 4 := 4, 5 := 5, 6 := 6, 7 := 7, 9 := 8]
    ensures |SimpleBranches(removed)| == 13 && Advances(SimpleBranches(removed), g, defs, 8)
  {
    var p := SimpleBranches(removed);
    assert p[8] == Let(9, SetStream(0, 2));
  }

  lemma SimpleBranchesWithoutEvent1Advance9(removed: set<EventId>, g: seq<Node>, defs: seq<map<VarId, nat>>)
    requires 0 !in removed && 1 in removed
    requires |g| == 13
    requires g[8] == Node(SetStream(0, 2), OnDevice(0, 2), [])
    requires g[9] == Node(Atan(X), OnDevice(0, 2), [])
    requires |defs| == 14
    requires defs[9] == map[0 := 0, 1 := 1, 2 := 2, 3 := 3, 4 := 4, 5 := 5, 6 := 6, 7 := 7, 9 := 8]
    requires defs[10] == map[0 := 0, 1 := 1, 2 := 2, 3 := 3, 4 := 4, 5 := 5, 6 := 6, 7 := 7, 9 := 8, 10 := 9]
    ensures |SimpleBranches(removed)| == 13 && Advances(SimpleBranches(removed), g, defs, 9)
  {
    var p := SimpleBranches(removed);
    assert p[9] == Let(10, Atan(X));
  }

  lemma SimpleBranchesWithoutEvent1Advance10(removed: set<EventId>, g: seq<Node>, defs: seq<map<VarId, nat>>)
    requires 0 !in removed && 1 in removed
    requires |g| == 13
    requires g[9] == Node(Atan(X), OnDevice(0, 2), [])
    requires g[10] == Node(WaitEvent(0), OnDevice(0, 2), [])
    requires |defs| == 14
    requires defs[10] == map[0 := 0, 1 := 1, 2 := 2, 3 := 3, 4 := 4, 5 := 5, 6 := 6, 7 := 7, 9 := 8, 10 := 9]
    requires defs[11] == map[0 := 0, 1 := 1, 2 := 2, 3 := 3, 4 := 4, 5 := 5, 6 := 6, 7 := 7, 9 := 8, 10 := 9, 12 := 10]
    ensures |SimpleBranches(removed)| == 13 && Advances(SimpleBranches(removed), g, defs, 10)
  {
    var p := SimpleBranches(removed);
    assert p[10] == Let(12, WaitEvent(0));
  }

  lemma SimpleBranchesWithoutEvent1Advance11(removed: set<EventId>, g: seq<Node>, defs: seq<map<VarId, nat>>)
    requires 0 !in removed && 1 in removed
    requires |g| == 13
    requires g[10] == Node(WaitEvent(0), OnDevice(0, 2), [])
    requires g[11] == Node(MakeTuple([LetVar(10), LetVar(7), LetVar(3)]), OnDevice(0, 2), [9, 7, 3])
    requires |defs| == 14
    requires defs[11] == map[0 := 0, 1 := 1, 2 := 2, 3 := 3, 4 := 4, 5 := 5, 6 := 6, 7 := 7, 9 := 8, 10 := 9, 12 := 10]
    requires defs[12] == map[0 := 0, 1 := 1, 2 := 2, 3 := 3, 4 := 4, 5 := 5, 6 := 6, 7 := 7, 9 := 8, 10 := 9, 12 := 10, 13 := 11]
    ensures |SimpleBranches(removed)| == 13 && Advances(SimpleBranches(removed), g, defs, 11)
  {
    var p := SimpleBranches(removed);
    assert p[11] == Let(13, MakeTuple([LetVar(10), LetVar(7), LetVar(3)]));
  }

  lemma SimpleBranchesWithoutEvent1Advance12(removed: set<EventId>, g: seq<Node>, defs: seq<map<VarId, nat>>)
    requires 0 !in removed && 1 in removed
    requires |g| == 13
    requires g[11] == Node(MakeTuple([LetVar(10), LetVar(7), LetVar(3)]), OnDevice(0, 2), [9, 7, 3])
    requires g[12] == Node(Concatenate(LetVar(13), 0), OnDevice(0, 2), [11])
    requires |defs| == 14
    requires defs[12] == map[0 := 0, 1 := 1, 2 := 2, 3 := 3, 4 := 4, 5 := 5, 6 := 6, 7 := 7, 9 := 8, 10 := 9, 12 := 10, 13 := 11]
    requires defs[13] == map[0 := 0, 1 := 1, 2 := 2, 3 := 3, 4 := 4, 5 := 5, 6 := 6, 7 := 7, 9 := 8, 10 := 9, 12 := 10, 13 := 11, 14 := 12]
    ensures |SimpleBranches(removed)| == 13 && Advances(SimpleBranches(removed), g, defs, 12)
  {
    var p := SimpleBranches(removed);
    assert p[12] == Let(14, Concatenate(LetVar(13), 0));
  }

  lemma SimpleBranchesWithoutEvent1Extract0(removed: set<EventId>, g: seq<Node>, defs: seq<map<VarId, nat>>)
    requires 0 !in removed && 1 in removed
    requires SimpleBranchesWithoutEvent1Shape(g) && SimpleBranchesWithoutEvent1Tables(defs)
    ensures |SimpleBranches(removed)| == 13
    ensures forall j :: 0 <= j < 5 ==> Advances(SimpleBranches(removed), g, defs, j)
  {
    SimpleBranchesWithoutEvent1Advance0(removed, g, defs);
    SimpleBranchesWithoutEvent1Advance1(removed, g, defs);
    SimpleBranchesWithoutEvent1Advance2(removed, g, defs);
    SimpleBranchesWithoutEvent1Advance3(removed, g, defs);
    SimpleBranchesWithoutEvent1Advance4(removed, g, defs);
    forall j | 0 <= j < 5 ensures Advances(SimpleBranches(removed), g, defs, j) {
      assert j == 0 || j == 1 || j == 2 || j == 3 || j == 4;
    }
  }

  lemma SimpleBranchesWithoutEvent1Extract5(removed: set<EventId>, g: seq<Node>, defs: seq<map<VarId, nat>>)
    requires 0 !in removed && 1 in removed
    requires SimpleBranchesWithoutEvent1Shape(g) && SimpleBranchesWithoutEvent1Tables(defs)
    ensures |SimpleBranches(removed)| == 13
    ensures forall j :: 5 <= j < 10 ==> Advances(SimpleBranches(removed), g, defs, j)
  {
    SimpleBranchesWithoutEvent1Advance5(removed, g, defs);
    SimpleBranchesWithoutEvent1Advance6(removed, g, defs);
    SimpleBranchesWithoutEvent1Advance7(removed, g, defs);
    SimpleBranchesWithoutEvent1Advance8(removed, g, defs);
    SimpleBranchesWithoutEvent1Advance9(removed, g, defs);
    forall j | 5 <= j < 10 ensures Advances(SimpleBranches(removed), g, defs, j) {
      assert j == 5 || j == 6 || j == 7 || j == 8 || j == 9;
    }
  }

  lemma SimpleBranchesWithoutEvent1Extract10(removed: set<EventId>, g: seq<Node>, defs: seq<map<VarId, nat>>)
    requires 0 !in removed && 1 in removed
    requires SimpleBranchesWithoutEvent1Shape(g) && SimpleBranchesWithoutEvent1Tables(defs)
    ensures |SimpleBranches(removed)| == 13
    ensures forall j :: 10 <= j < 13 ==> Advances(SimpleBranches(removed), g, defs, j)
  {
    SimpleBranchesWithoutEvent1Advance10(removed, g, defs);
    SimpleBranchesWithoutEvent1Advance11(removed, g, defs);
    SimpleBranchesWithoutEvent1Advance12(removed, g, defs);
    forall j | 10 <= j < 13 ensures Advances(SimpleBranches(removed), g, defs, j) {
      assert j == 10 || j == 11 || j == 12;
    }
  }

  lemma SimpleBranchesWithoutEvent1NodesShape0()
    ensures |SimpleBranchesWithoutEvent1Nodes()| == 13 && SimpleBranchesWithoutEvent1Shape0(SimpleBranchesWithoutEvent1Nodes())
  {
  }

  lemma SimpleBranchesWithoutEvent1NodesShape5()
    ensures |SimpleBranchesWithoutEvent1Nodes()| == 13 && SimpleBranchesWithoutEvent1Shape5(SimpleBranchesWithoutEvent1Nodes())
  {
  }

  lemma SimpleBranchesWithoutEvent1NodesShape10()
    ensures |SimpleBranchesWithoutEvent1Nodes()| == 13 && SimpleBranchesWithoutEvent1Shape10(SimpleBranchesWithoutEvent1Nodes())
  {
  }

  lemma SimpleBranchesWithoutEvent1DefsTables0()
    ensures |SimpleBranchesWithoutEvent1Defs()| == 14 && SimpleBranchesWithoutEvent1Tables0(SimpleBranchesWithoutEvent1Defs())
  {
  }

  lemma SimpleBranchesWithoutEvent1DefsTables5()
    ensures |SimpleBranchesWithoutEvent1Defs()| == 14 && SimpleBranchesWithoutEvent1Tables5(SimpleBranchesWithoutEvent1Defs())
  {
  }

  lemma SimpleBranchesWithoutEvent1DefsTables10()
    ensures |SimpleBranchesWithoutEvent1Defs()| == 14 && SimpleBranchesWithoutEvent1Tables10(SimpleBranchesWithoutEvent1Defs())
  {
  }

  /** `Extract` on `SimpleBranches(removed)` yields `SimpleBranchesWithoutEvent1Nodes()`. */
  lemma SimpleBranchesWithoutEvent1Graph(removed: set<EventId>) returns (g: seq<Node>)
    requires 0 !in removed && 1 in removed
    ensures Extract(SimpleBranches(removed)) == Ok(g) && SimpleBranchesWithoutEvent1Shape(g)
  {
    g := SimpleBranchesWithoutEvent1Nodes();
    var defs := SimpleBranchesWithoutEvent1Defs();
    var p := SimpleBranches(removed);
    SimpleBranchesWithoutEvent1NodesShape0();
    SimpleBranchesWithoutEvent1NodesShape5();
    SimpleBranchesWithoutEvent1NodesShape10();
    SimpleBranchesWithoutEvent1DefsTables0();
    SimpleBranchesWithoutEvent1DefsTables5();
    SimpleBranchesWithoutEvent1DefsTables10();
    SimpleBranchesWithoutEvent1Extract0(removed, g, defs);
    SimpleBranchesWithoutEvent1Extract5(removed, g, defs);
    SimpleBranchesWithoutEvent1Extract10(removed, g, defs);
    ExtractReplays(p, g, defs, 0);
    assert g[..0] == [];
  }

  lemma SimpleBranchesWithoutEvent1Simulate0(g: seq<Node>)
    requires WellFormed(g) && |g| == 13
    requires g[0] == Node(SetStream(0, 0), OnDevice(0, 0), [])
    ensures SimulateFrom(g, 0, SimpleBranchesWithoutEvent1State0()) == SimulateFrom(g, 1, SimpleBranchesWithoutEvent1State1())
  {
    assert Step(g, 0, SimpleBranchesWithoutEvent1State0()) == Ok(SimpleBranchesWithoutEvent1State1());
    SimulateLink(g, 0, SimpleBranchesWithoutEvent1State0(), SimpleBranchesWithoutEvent1State1());
  }

  lemma SimpleBranchesWithoutEvent1Simulate1(g: seq<Node>)
    requires WellFormed(g) && |g| == 13
    requires g[1] == Node(Atan(X), OnDevice(0, 0), [])
    ensures SimulateFrom(g, 1, SimpleBranchesWithoutEvent1State1()) == SimulateFrom(g, 2, SimpleBranchesWithoutEvent1State2())
  {
    ReadHazardsSmall(g, g[1].deps, 1, g[1].stream, ClockOf(SimpleBranchesWithoutEvent1State1(), g[1].stream));
    assert SimpleBranchesWithoutEvent1State1().hazards + ReadHazards(g, g[1].deps, 1, g[1].stream, ClockOf(SimpleBranchesWithoutEvent1State1(), g[1].stream)) == SimpleBranchesWithoutEvent1State2().hazards;
    assert Step(g, 1, SimpleBranchesWithoutEvent1State1()) == Ok(SimpleBranchesWithoutEvent1State2());
    SimulateLink(g, 1, SimpleBranchesWithoutEvent1State1(), SimpleBranchesWithoutEvent1State2());
  }

  lemma SimpleBranchesWithoutEvent1Simulate2(g: seq<Node>)
    requires WellFormed(g) && |g| == 13
    requires g[1] == Node(Atan(X), OnDevice(0, 0), [])
    requires g[2] == Node(Atan(LetVar(1)), OnDevice(0, 0), [1])
    ensures SimulateFrom(g, 2, SimpleBranchesWithoutEvent1State2()) == SimulateFrom(g, 3, SimpleBranchesWithoutEvent1State3())
  {
    ReadHazardsSmall(g, g[2].deps, 2, g[2].stream, ClockOf(SimpleBranchesWithoutEvent1State2(), g[2].stream));
    assert SimpleBranchesWithoutEvent1State2().hazards + ReadHazards(g, g[2].deps, 2, g[2].stream, ClockOf(SimpleBranchesWithoutEvent1State2(), g[2].stream)) == SimpleBranchesWithoutEvent1State3().hazards;
    assert Step(g, 2, SimpleBranchesWithoutEvent1State2()) == Ok(SimpleBranchesWithoutEvent1State3());
    SimulateLink(g, 2, SimpleBranchesWithoutEvent1State2(), SimpleBranchesWithoutEvent1State3());
  }

  lemma SimpleBranchesWithoutEvent1Simulate3(g: seq<Node>)
    requires WellFormed(g) && |g| == 13
    requires g[2] == Node(Atan(LetVar(1)), OnDevice(0, 0), [1])
    requires g[3] == Node(Atan(LetVar(2)), OnDevice(0, 0), [2])
    ensures SimulateFrom(g, 3, SimpleBranchesWithoutEvent1State3()) == SimulateFrom(g, 4, SimpleBranchesWithoutEvent1State4())
  {
    ReadHazardsSmall(g, g[3].deps, 3, g[3].stream, ClockOf(SimpleBranchesWithoutEvent1State3(), g[3].stream));
    assert SimpleBranchesWithoutEvent1State3().hazards + ReadHazards(g, g[3].deps, 3, g[3].stream, ClockOf(SimpleBranchesWithoutEvent1State3(), g[3].stream)) == SimpleBranchesWithoutEvent1State4().hazards;
    assert Step(g, 3, SimpleBranchesWithoutEvent1State3()) == Ok(SimpleBranchesWithoutEvent1State4());
    SimulateLink(g, 3, SimpleBranchesWithoutEvent1State3(), SimpleBranchesWithoutEvent1State4());
  }

  lemma SimpleBranchesWithoutEvent1Simulate4(g: seq<Node>)
    requires WellFormed(g) && |g| == 13
    requires g[4] == Node(AddEvent(0), OnDevice(0, 0), [])
    ensures SimulateFrom(g, 4, SimpleBranchesWithoutEvent1State4()) == SimulateFrom(g, 5, SimpleBranchesWithoutEvent1State5())
  {
    assert Step(g, 4, SimpleBranchesWithoutEvent1State4()) == Ok(SimpleBranchesWithoutEvent1State5());
    SimulateLink(g, 4, SimpleBranchesWithoutEvent1State4(), SimpleBranchesWithoutEvent1State5());
  }

  lemma SimpleBranchesWithoutEvent1Simulate5(g: seq<Node>)
    requires WellFormed(g) && |g| == 13
    requires g[5] == Node(SetStream(0, 1), OnDevice(0, 1), [])
    ensures SimulateFrom(g, 5, SimpleBranchesWithoutEvent1State5()) == SimulateFrom(g, 6, SimpleBranchesWithoutEvent1State6())
  {
    assert Step(g, 5, SimpleBranchesWithoutEvent1State5()) == Ok(SimpleBranchesWithoutEvent1State6());
    SimulateLink(g, 5, SimpleBranchesWithoutEvent1State5(), SimpleBranchesWithoutEvent1State6());
  }

  lemma SimpleBranchesWithoutEvent1Simulate6(g: seq<Node>)
    requires WellFormed(g) && |g| == 13
    requires g[6] == Node(Atan(X), OnDevice(0, 1), [])
    ensures SimulateFrom(g, 6, SimpleBranchesWithoutEvent1State6()) == SimulateFrom(g, 7, SimpleBranchesWithoutEvent1State7())
  {
    ReadHazardsSmall(g, g[6].deps, 6, g[6].stream, ClockOf(SimpleBranchesWithoutEvent1State6(), g[6].stream));
    assert SimpleBranchesWithoutEvent1State6().hazards + ReadHazards(g, g[6].deps, 6, g[6].stream, ClockOf(SimpleBranchesWithoutEvent1State6(), g[6].stream)) == SimpleBranchesWithoutEvent1State7().hazards;
    assert Step(g, 6, SimpleBranchesWithoutEvent1State6()) == Ok(SimpleBranchesWithoutEvent1State7());
    SimulateLink(g, 6, SimpleBranchesWithoutEvent1State6(), SimpleBranchesWithoutEvent1State7());
  }

  lemma SimpleBranchesWithoutEvent1Simulate7(g: seq<Node>)
    requires WellFormed(g) && |g| == 13
    requires g[6] == Node(Atan(X), OnDevice(0, 1), [])
    requires g[7] == Node(Atan(LetVar(6)), OnDevice(0, 1), [6])
    ensures SimulateFrom(g, 7, SimpleBranchesWithoutEvent1State7()) == SimulateFrom(g, 8, SimpleBranchesWithoutEvent1State8())
  {
    ReadHazardsSmall(g, g[7].deps, 7, g[7].stream, ClockOf(SimpleBranchesWithoutEvent1State7(), g[7].stream));
    assert SimpleBranchesWithoutEvent1State7().hazards + ReadHazards(g, g[7].deps, 7, g[7].stream, ClockOf(SimpleBranchesWithoutEvent1State7(), g[7].stream)) == SimpleBranchesWithoutEvent1State8().hazards;
    assert Step(g, 7, SimpleBranchesWithoutEvent1State7()) == Ok(SimpleBranchesWithoutEvent1State8());
    SimulateLink(g, 7, SimpleBranchesWithoutEvent1State7(), SimpleBranchesWithoutEvent1State8());
  }

  lemma SimpleBranchesWithoutEvent1Simulate8(g: seq<Node>)
    requires WellFormed(g) && |g| == 13
    requires g[8] == Node(SetStream(0, 2), OnDevice(0, 2), [])
    ensures SimulateFrom(g, 8, SimpleBranchesWithoutEvent1State8()) == SimulateFrom(g, 9, SimpleBranchesWithoutEvent1State9())
  {
    assert Step(g, 8, SimpleBranchesWithoutEvent1State8()) == Ok(SimpleBranchesWithoutEvent1State9());
    SimulateLink(g, 8, SimpleBranchesWithoutEvent1State8(), SimpleBranchesWithoutEvent1State9());
  }

  lemma SimpleBranchesWithoutEvent1Simulate9(g: seq<Node>)
    requires WellFormed(g) && |g| == 13
    requires g[9] == Node(Atan(X), OnDevice(0, 2), [])
    ensures SimulateFrom(g, 9, SimpleBranchesWithoutEvent1State9()) == SimulateFrom(g, 10, SimpleBranchesWithoutEvent1State10())
  {
    ReadHazardsSmall(g, g[9].deps, 9, g[9].stream, ClockOf(SimpleBranchesWithoutEvent1State9(), g[9].stream));
    assert SimpleBranchesWithoutEvent1State9().hazards + ReadHazards(g, g[9].deps, 9, g[9].stream, ClockOf(SimpleBranchesWithoutEvent1State9(), g[9].stream)) == SimpleBranchesWithoutEvent1State10().hazards;
    assert Step(g, 9, SimpleBranchesWithoutEvent1State9()) == Ok(SimpleBranchesWithoutEvent1State10());
    SimulateLink(g, 9, SimpleBranchesWithoutEvent1State9(), SimpleBranchesWithoutEvent1State10());
  }

  lemma SimpleBranchesWithoutEvent1Simulate10(g: seq<Node>)
    requires WellFormed(g) && |g| == 13
    requires g[10] == Node(WaitEvent(0), OnDevice(0, 2), [])
    ensures SimulateFrom(g, 10, SimpleBranchesWithoutEvent1State10()) == SimulateFrom(g, 11, SimpleBranchesWithoutEvent1State11())
  {
    MergeIs(map[], Mark(OnDevice(0, 0), 4, map[]), map[OnDevice(0, 0) := 4]);
    assert Step(g, 10, SimpleBranchesWithoutEvent1State10()) == Ok(SimpleBranchesWithoutEvent1State11());
    SimulateLink(g, 10, SimpleBranchesWithoutEvent1State10(), SimpleBranchesWithoutEvent1State11());
  }

  lemma SimpleBranchesWithoutEvent1Simulate11(g: seq<Node>)
    requires WellFormed(g) && |g| == 13
    requires g[3] == Node(Atan(LetVar(2)), OnDevice(0, 0), [2])
    requires g[7] == Node(Atan(LetVar(6)), OnDevice(0, 1), [6])
    requires g[9] == Node(Atan(X), OnDevice(0, 2), [])
    requires g[11] == Node(MakeTuple([LetVar(10), LetVar(7), LetVar(3)]), OnDevice(0, 2), [9, 7, 3])
    ensures SimulateFrom(g, 11, SimpleBranchesWithoutEvent1State11()) == SimulateFrom(g, 12, SimpleBranchesWithoutEvent1State12())
  {
    ReadHazardsSmall(g, g[11].deps, 11, g[11].stream, ClockOf(SimpleBranchesWithoutEvent1State11(), g[11].stream));
    assert SimpleBranchesWithoutEvent1State11().hazards + ReadHazards(g, g[11].deps, 11, g[11].stream, ClockOf(SimpleBranchesWithoutEvent1State11(), g[11].stream)) == SimpleBranchesWithoutEvent1State12().hazards;
    assert Step(g, 11, SimpleBranchesWithoutEvent1State11()) == Ok(SimpleBranchesWithoutEvent1State12());
    SimulateLink(g, 11, SimpleBranchesWithoutEvent1State11(), SimpleBranchesWithoutEvent1State12());
  }

  lemma SimpleBranchesWithoutEvent1Simulate12(g: seq<Node>)
    requires WellFormed(g) && |g| == 13
    requires g[11] == Node(MakeTuple([LetVar(10), LetVar(7), LetVar(3)]), OnDevice(0, 2), [9, 7, 3])
    requires g[12] == Node(Concatenate(LetVar(13), 0), OnDevice(0, 2), [11])
    ensures SimulateFrom(g, 12, SimpleBranchesWithoutEvent1State12()) == SimulateFrom(g, 13, SimpleBranchesWithoutEvent1State13())
  {
    ReadHazardsSmall(g, g[12].deps, 12, g[12].stream, ClockOf(SimpleBranchesWithoutEvent1State12(), g[12].stream));
    assert SimpleBranchesWithoutEvent1State12().hazards + ReadHazards(g, g[12].deps, 12, g[12].stream, ClockOf(SimpleBranchesWithoutEvent1State12(), g[12].stream)) == SimpleBranchesWithoutEvent1State13().hazards;
    assert Step(g, 12, SimpleBranchesWithoutEvent1State12()) == Ok(SimpleBranchesWithoutEvent1State13());
    SimulateLink(g, 12, SimpleBranchesWithoutEvent1State12(), SimpleBranchesWithoutEvent1State13());
  }

  /** Without event 1 the tuple `x_13` (position 11) reads the second branch `x_7` unordered. */
  lemma Verdict(removed: set<EventId>)
    requires 0 !in removed && 1 in removed
    ensures Verify(SimpleBranches(removed)) == Err(ExecutionOrder([Hazard(7, 11, OnDevice(0, 1), OnDevice(0, 2))]))
  {
    var g := SimpleBranchesWithoutEvent1Graph(removed);
    SimpleBranchesWithoutEvent1Simulate0(g);
    SimpleBranchesWithoutEvent1Simulate1(g);
    SimpleBranchesWithoutEvent1Simulate2(g);
    SimpleBranchesWithoutEvent1Simulate3(g);
    SimpleBranchesWithoutEvent1Simulate4(g);
    SimpleBranchesWithoutEvent1Simulate5(g);
    SimpleBranchesWithoutEvent1Simulate6(g);
    SimpleBranchesWithoutEvent1Simulate7(g);
    SimpleBranchesWithoutEvent1Simulate8(g);
    SimpleBranchesWithoutEvent1Simulate9(g);
    SimpleBranchesWithoutEvent1Simulate10(g);
    SimpleBranchesWithoutEvent1Simulate11(g);
    SimpleBranchesWithoutEvent1Simulate12(g);
    SimulateDone(g, SimpleBranchesWithoutEvent1State13());
  }
}
