/**
 * The verifier's verdict on `SimpleBranches(removed)` for one choice of removed events.
 * Without event 0 the tuple `x_13` (position 11) reads the first branch `x_3` unordered.
 */
module SimpleBranchesWithoutEvent0 {
  import opened Results
  import opened ScheduleVerifier
  import opened ScheduleTheory
  import opened SchedulePrograms

  /** The graph `Extract` builds for `SimpleBranches(removed)`. */
  function SimpleBranchesWithoutEvent0Nodes(): seq<Node>
  {
    [ Node(SetStream(0, 0), OnDevice(0, 0), [])
    , Node(Atan(X), OnDevice(0, 0), [])
    , Node(Atan(LetVar(1)), OnDevice(0, 0), [1])
    , Node(Atan(LetVar(2)), OnDevice(0, 0), [2])
    , Node(SetStream(0, 1), OnDevice(0, 1), [])
    , Node(Atan(X), OnDevice(0, 1), [])
    , Node(Atan(LetVar(6)), OnDevice(0, 1), [5])
    , Node(AddEvent(1), OnDevice(0, 1), [])
    , Node(SetStream(0, 2), OnDevice(0, 2), [])
    , Node(Atan(X), OnDevice(0, 2), [])
    , Node(WaitEvent(1), OnDevice(0, 2), [])
    , Node(MakeTuple([LetVar(10), LetVar(7), LetVar(3)]), OnDevice(0, 2), [9, 6, 3])
    , Node(Concatenate(LetVar(13), 0), OnDevice(0, 2), [11]) ]
  }

  /** `g` is `SimpleBranchesWithoutEvent0Nodes()`, position by position. */
  predicate SimpleBranchesWithoutEvent0Shape(g: seq<Node>)
  {
    && |g| == 13
    && SimpleBranchesWithoutEvent0Shape0(g)
    && SimpleBranchesWithoutEvent0Shape5(g)
    && SimpleBranchesWithoutEvent0Shape10(g)
  }

  predicate SimpleBranchesWithoutEvent0Shape0(g: seq<Node>)
    requires |g| == 13
  {
    && g[0] == Node(SetStream(0, 0), OnDevice(0, 0), [])
    && g[1] == Node(Atan(X), OnDevice(0, 0), [])
    && g[2] == Node(Atan(LetVar(1)), OnDevice(0, 0), [1])
    && g[3] == Node(Atan(LetVar(2)), OnDevice(0, 0), [2])
    && g[4] == Node(SetStream(0, 1), OnDevice(0, 1), [])
  }

  predicate SimpleBranchesWithoutEvent0Shape5(g: seq<Node>)
    requires |g| == 13
  {
    && g[5] == Node(Atan(X), OnDevice(0, 1), [])
    && g[6] == Node(Atan(LetVar(6)), OnDevice(0, 1), [5])
    && g[7] == Node(AddEvent(1), OnDevice(0, 1), [])
    && g[8] == Node(SetStream(0, 2), OnDevice(0, 2), [])
    && g[9] == Node(Atan(X), OnDevice(0, 2), [])
  }

  predicate SimpleBranchesWithoutEvent0Shape10(g: seq<Node>)
    requires |g| == 13
  {
    && g[10] == Node(WaitEvent(1), OnDevice(0, 2), [])
    && g[11] == Node(MakeTuple([LetVar(10), LetVar(7), LetVar(3)]), OnDevice(0, 2), [9, 6, 3])
    && g[12] == Node(Concatenate(LetVar(13), 0), OnDevice(0, 2), [11])
  }

  /** The variable table before each position of `SimpleBranches(removed)`. */
  function SimpleBranchesWithoutEvent0Defs(): seq<map<VarId, nat>>
  {
    [ map[]
    , map[0 := 0]
    , map[0 := 0, 1 := 1]
    , map[0 := 0, 1 := 1, 2 := 2]
    , map[0 := 0, 1 := 1, 2 := 2, 3 := 3]
    , map[0 := 0, 1 := 1, 2 := 2, 3 := 3, 5 := 4]
    , map[0 := 0, 1 := 1, 2 := 2, 3 := 3, 5 := 4, 6 := 5]
    , map[0 := 0, 1 := 1, 2 := 2, 3 := 3, 5 := 4, 6 := 5, 7 := 6]
    , map[0 := 0, 1 := 1, 2 := 2, 3 := 3, 5 := 4, 6 := 5, 7 := 6, 8 := 7]
    , map[0 := 0, 1 := 1, 2 := 2, 3 := 3, 5 := 4, 6 := 5, 7 := 6, 8 := 7, 9 := 8]
    , map[0 := 0, 1 := 1, 2 := 2, 3 := 3, 5 := 4, 6 := 5, 7 := 6, 8 := 7, 9 := 8, 10 := 9]
    , map[0 := 0, 1 := 1, 2 := 2, 3 := 3, 5 := 4, 6 := 5, 7 := 6, 8 := 7, 9 := 8, 10 := 9, 11 := 10]
    , map[0 := 0, 1 := 1, 2 := 2, 3 := 3, 5 := 4, 6 := 5, 7 := 6, 8 := 7, 9 := 8, 10 := 9, 11 := 10, 13 := 11]
    , map[0 := 0, 1 := 1, 2 := 2, 3 := 3, 5 := 4, 6 := 5, 7 := 6, 8 := 7, 9 := 8, 10 := 9, 11 := 10, 13 := 11, 14 := 12] ]
  }

  /** `defs` is `SimpleBranchesWithoutEvent0Defs()`, position by position. */
  predicate SimpleBranchesWithoutEvent0Tables(defs: seq<map<VarId, nat>>)
  {
    && |defs| == 14
    && SimpleBranchesWithoutEvent0Tables0(defs)
    && SimpleBranchesWithoutEvent0Tables5(defs)
    && SimpleBranchesWithoutEvent0Tables10(defs)
  }

  predicate SimpleBranchesWithoutEvent0Tables0(defs: seq<map<VarId, nat>>)
    requires |defs| == 14
  {
    && defs[0] == map[]
    && defs[1] == map[0 := 0]
    && defs[2] == map[0 := 0, 1 := 1]
    && defs[3] == map[0 := 0, 1 := 1, 2 := 2]
    && defs[4] == map[0 := 0, 1 := 1, 2 := 2, 3 := 3]
  }

  predicate SimpleBranchesWithoutEvent0Tables5(defs: seq<map<VarId, nat>>)
    requires |defs| == 14
  {
    && defs[5] == map[0 := 0, 1 := 1, 2 := 2, 3 := 3, 5 := 4]
    && defs[6] == map[0 := 0, 1 := 1, 2 := 2, 3 := 3, 5 := 4, 6 := 5]
    && defs[7] == map[0 := 0, 1 := 1, 2 := 2, 3 := 3, 5 := 4, 6 := 5, 7 := 6]
    && defs[8] == map[0 := 0, 1 := 1, 2 := 2, 3 := 3, 5 := 4, 6 := 5, 7 := 6, 8 := 7]
    && defs[9] == map[0 := 0, 1 := 1, 2 := 2, 3 := 3, 5 := 4, 6 := 5, 7 := 6, 8 := 7, 9 := 8]
  }

  predicate SimpleBranchesWithoutEvent0Tables10(defs: seq<map<VarId, nat>>)
    requires |defs| == 14
  {
    && defs[10] == map[0 := 0, 1 := 1, 2 := 2, 3 := 3, 5 := 4, 6 := 5, 7 := 6, 8 := 7, 9 := 8, 10 := 9]
    && defs[11] == map[0 := 0, 1 := 1, 2 := 2, 3 := 3, 5 := 4, 6 := 5, 7 := 6, 8 := 7, 9 := 8, 10 := 9, 11 := 10]
    && defs[12] == map[0 := 0, 1 := 1, 2 := 2, 3 := 3, 5 := 4, 6 := 5, 7 := 6, 8 := 7, 9 := 8, 10 := 9, 11 := 10, 13 := 11]
    && defs[13] == map[0 := 0, 1 := 1, 2 := 2, 3 := 3, 5 := 4, 6 := 5, 7 := 6, 8 := 7, 9 := 8, 10 := 9, 11 := 10, 13 := 11, 14 := 12]
  }

  function SimpleBranchesWithoutEvent0State0(): SimState
  {
    SimState(map[], map[], [])
  }

  function SimpleBranchesWithoutEvent0State1(): SimState
  {
    SimState(map[], map[], [])
  }

  function SimpleBranchesWithoutEvent0State2(): SimState
  {
    SimState(map[], map[], [])
  }

  function SimpleBranchesWithoutEvent0State3(): SimState
  {
    SimState(map[], map[], [])
  }

  function SimpleBranchesWithoutEvent0State4(): SimState
  {
    SimState(map[], map[], [])
  }

  function SimpleBranchesWithoutEvent0State5(): SimState
  {
    SimState(map[], map[], [])
  }

  function SimpleBranchesWithoutEvent0State6(): SimState
  {
    SimState(map[], map[], [])
  }

  function SimpleBranchesWithoutEvent0State7(): SimState
  {
    SimState(map[], map[], [])
  }

  function SimpleBranchesWithoutEvent0State8(): SimState
  {
    SimState(map[][1 := Mark(OnDevice(0, 1), 7, map[])], map[], [])
  }

  function SimpleBranchesWithoutEvent0State9(): SimState
  {
    SimState(map[][1 := Mark(OnDevice(0, 1), 7, map[])], map[], [])
  }

  function SimpleBranchesWithoutEvent0State10(): SimState
  {
    SimState(map[][1 := Mark(OnDevice(0, 1), 7, map[])], map[], [])
  }

  function SimpleBranchesWithoutEvent0State11(): SimState
  {
    SimState(map[][1 := Mark(OnDevice(0, 1), 7, map[])], map[][OnDevice(0, 2) := map[OnDevice(0, 1) := 7]], [])
  }

  function SimpleBranchesWithoutEvent0State12(): SimState
  {
    SimState(map[][1 := Mark(OnDevice(0, 1), 7, map[])], map[][OnDevice(0, 2) := map[OnDevice(0, 1) := 7]], [Hazard(3, 11, OnDevice(0, 0), OnDevice(0, 2))])
  }

  function SimpleBranchesWithoutEvent0State13(): SimState
  {
    SimState(map[][1 := Mark(OnDevice(0, 1), 7, map[])], map[][OnDevice(0, 2) := map[OnDevice(0, 1) := 7]], [Hazard(3, 11, OnDevice(0, 0), OnDevice(0, 2))])
  }

  lemma SimpleBranchesWithoutEvent0Advance0(removed: set<EventId>, g: seq<Node>, defs: seq<map<VarId, nat>>)
    requires 0 in removed && 1 !in removed
    requires |g| == 13
    requires g[0] == Node(SetStream(0, 0), OnDevice(0, 0), [])
    requires |defs| == 14
    requires defs[0] == map[]
    requires defs[1] == map[0 := 0]
    ensures |SimpleBranches(removed)| == 13 && Advances(SimpleBranches(removed), g, defs, 0)
  {
    var p := SimpleBranches(removed);
    assert p[0] == Let(0, SetStream(0, 0));
  }

  lemma SimpleBranchesWithoutEvent0Advance1(removed: set<EventId>, g: seq<Node>, defs: seq<map<VarId, nat>>)
    requires 0 in removed && 1 !in removed
    requires |g| == 13
    requires g[0] == Node(SetStream(0, 0), OnDevice(0, 0), [])
    requires g[1] == Node(Atan(X), OnDevice(0, 0), [])
    requires |defs| == 14
    requires defs[1] == map[0 := 0]
    requires defs[2] == map[0 := 0, 1 := 1]
    ensures |SimpleBranches(removed)| == 13 && Advances(SimpleBranches(removed), g, defs, 1)
  {
    var p := SimpleBranches(removed);
    assert p[1] == Let(1, Atan(X));
  }

  lemma SimpleBranchesWithoutEvent0Advance2(removed: set<EventId>, g: seq<Node>, defs: seq<map<VarId, nat>>)
    requires 0 in removed && 1 !in removed
    requires |g| == 13
    requires g[1] == Node(Atan(X), OnDevice(0, 0), [])
    requires g[2] == Node(Atan(LetVar(1)), OnDevice(0, 0), [1])
    requires |defs| == 14
    requires defs[2] == map[0 := 0, 1 := 1]
    requires defs[3] == map[0 := 0, 1 := 1, 2 := 2]
    ensures |SimpleBranches(removed)| == 13 && Advances(SimpleBranches(removed), g, defs, 2)
  {
    var p := SimpleBranches(removed);
    assert p[2] == Let(2, Atan(LetVar(1)));
  }

  lemma SimpleBranchesWithoutEvent0Advance3(removed: set<EventId>, g: seq<Node>, defs: seq<map<VarId, nat>>)
    requires 0 in removed && 1 !in removed
    requires |g| == 13
    requires g[2] == Node(Atan(LetVar(1)), OnDevice(0, 0), [1])
    requires g[3] == Node(Atan(LetVar(2)), OnDevice(0, 0), [2])
    requires |defs| == 14
    requires defs[3] == map[0 := 0, 1 := 1, 2 := 2]
    requires defs[4] == map[0 := 0, 1 := 1, 2 := 2, 3 := 3]
    ensures |SimpleBranches(removed)| == 13 && Advances(SimpleBranches(removed), g, defs, 3)
  {
    var p := SimpleBranches(removed);
    assert p[3] == Let(3, Atan(LetVar(2)));
  }

  lemma SimpleBranchesWithoutEvent0Advance4(removed: set<EventId>, g: seq<Node>, defs: seq<map<VarId, nat>>)
    requires 0 in removed && 1 !in removed
    requires |g| == 13
    requires g[3] == Node(Atan(LetVar(2)), OnDevice(0, 0), [2])
    requires g[4] == Node(SetStream(0, 1), OnDevice(0, 1), [])
    requires |defs| == 14
    requires defs[4] == map[0 := 0, 1 := 1, 2 := 2, 3 := 3]
    requires defs[5] == map[0 := 0, 1 := 1, 2 := 2, 3 := 3, 5 := 4]
    ensures |SimpleBranches(removed)| == 13 && Advances(SimpleBranches(removed), g, defs, 4)
  {
    var p := SimpleBranches(removed);
    assert p[4] == Let(5, SetStream(0, 1));
  }

  lemma SimpleBranchesWithoutEvent0Advance5(removed: set<EventId>, g: seq<Node>, defs: seq<map<VarId, nat>>)
    requires 0 in removed && 1 !in removed
    requires |g| == 13
    requires g[4] == Node(SetStream(0, 1), OnDevice(0, 1), [])
    requires g[5] == Node(Atan(X), OnDevice(0, 1), [])
    requires |defs| == 14
    requires defs[5] == map[0 := 0, 1 := 1, 2 := 2, 3 := 3, 5 := 4]
    requires defs[6] == map[0 := 0, 1 := 1, 2 := 2, 3 := 3, 5 := 4, 6 := 5]
    ensures |SimpleBranches(removed)| == 13 && Advances(SimpleBranches(removed), g, defs, 5)
  {
    var p := SimpleBranches(removed);
    assert p[5] == Let(6, Atan(X));
  }

  lemma SimpleBranchesWithoutEvent0Advance6(removed: set<EventId>, g: seq<Node>, defs: seq<map<VarId, nat>>)
    requires 0 in removed && 1 !in removed
    requires |g| == 13
    requires g[5] == Node(Atan(X), OnDevice(0, 1), [])
    requires g[6] == Node(Atan(LetVar(6)), OnDevice(0, 1), [5])
    requires |defs| == 14
    requires defs[6] == map[0 := 0, 1 := 1, 2 := 2, 3 := 3, 5 := 4, 6 := 5]
    requires defs[7] == map[0 := 0, 1 := 1, 2 := 2, 3 := 3, 5 := 4, 6 := 5, 7 := 6]
    ensures |SimpleBranches(removed)| == 13 && Advances(SimpleBranches(removed), g, defs, 6)
  {
    var p := SimpleBranches(removed);
    assert p[6] == Let(7, Atan(LetVar(6)));
  }

  lemma SimpleBranchesWithoutEvent0Advance7(removed: set<EventId>, g: seq<Node>, defs: seq<map<VarId, nat>>)
    requires 0 in removed && 1 !in removed
    requires |g| == 13
    requires g[6] == Node(Atan(LetVar(6)), OnDevice(0, 1), [5])
    requires g[7] == Node(AddEvent(1), OnDevice(0, 1), [])
    requires |defs| == 14
    requires defs[7] == map[0 := 0, 1 := 1, 2 := 2, 3 := 3, 5 := 4, 6 := 5, 7 := 6]
    requires defs[8] == map[0 := 0, 1 := 1, 2 := 2, 3 := 3, 5 := 4, 6 := 5, 7 := 6, 8 := 7]
    ensures |SimpleBranches(removed)| == 13 && Advances(SimpleBranches(removed), g, defs, 7)
  {
    var p := SimpleBranches(removed);
    assert p[7] == Let(8, AddEvent(1));
  }

  lemma SimpleBranchesWithoutEvent0Advance8(removed: set<EventId>, g: seq<Node>, defs: seq<map<VarId, nat>>)
    requires 0 in removed && 1 !in removed
    requires |g| == 13
    requires g[7] == Node(AddEvent(1), OnDevice(0, 1), [])
    requires g[8] == Node(SetStream(0, 2), OnDevice(0, 2), [])
    requires |defs| == 14
    requires defs[8] == map[0 := 0, 1 := 1, 2 := 2, 3 := 3, 5 := 4, 6 := 5, 7 := 6, 8 := 7]
    requires defs[9] == map[0 := 0, 1 := 1, 2 := 2, 3 := 3, 5 := 4, 6 := 5, 7 := 6, 8 := 7, 9 := 8]
    ensures |SimpleBranches(removed)| == 13 && Advances(SimpleBranches(removed), g, defs, 8)
  {
    var p := SimpleBranches(removed);
    assert p[8] == Let(9, SetStream(0, 2));
  }

  lemma SimpleBranchesWithoutEvent0Advance9(removed: set<EventId>, g: seq<Node>, defs: seq<map<VarId, nat>>)
    requires 0 in removed && 1 !in removed
    requires |g| == 13
    requires g[8] == Node(SetStream(0, 2), OnDevice(0, 2), [])
    requires g[9] == Node(Atan(X), OnDevice(0, 2), [])
    requires |defs| == 14
    requires defs[9] == map[0 := 0, 1 := 1, 2 := 2, 3 := 3, 5 := 4, 6 := 5, 7 := 6, 8 := 7, 9 := 8]
    requires defs[10] == map[0 := 0, 1 := 1, 2 := 2, 3 := 3, 5 := 4, 6 := 5, 7 := 6, 8 := 7, 9 := 8, 10 := 9]
    ensures |SimpleBranches(removed)| == 13 && Advances(SimpleBranches(removed), g, defs, 9)
  {
    var p := SimpleBranches(removed);
    assert p[9] == Let(10, Atan(X));
  }

  lemma SimpleBranchesWithoutEvent0Advance10(removed: set<EventId>, g: seq<Node>, defs: seq<map<VarId, nat>>)
    requires 0 in removed && 1 !in removed
    requires |g| == 13
    requires g[9] == Node(Atan(X), OnDevice(0, 2), [])
    requires g[10] == Node(WaitEvent(1), OnDevice(0, 2), [])
    requires |defs| == 14
    requires defs[10] == map[0 := 0, 1 := 1, 2 := 2, 3 := 3, 5 := 4, 6 := 5, 7 := 6, 8 := 7, 9 := 8, 10 := 9]
    requires defs[11] == map[0 := 0, 1 := 1, 2 := 2, 3 := 3, 5 := 4, 6 := 5, 7 := 6, 8 := 7, 9 := 8, 10 := 9, 11 := 10]
    ensures |SimpleBranches(removed)| == 13 && Advances(SimpleBranches(removed), g, defs, 10)
  {
    var p := SimpleBranches(removed);
    assert p[10] == Let(11, WaitEvent(1));
  }

  lemma SimpleBranchesWithoutEvent0Advance11(removed: set<EventId>, g: seq<Node>, defs: seq<map<VarId, nat>>)
    requires 0 in removed && 1 !in removed
    requires |g| == 13
    requires g[10] == Node(WaitEvent(1), OnDevice(0, 2), [])
    requires g[11] == Node(MakeTuple([LetVar(10), LetVar(7), LetVar(3)]), OnDevice(0, 2), [9, 6, 3])
    requires |defs| == 14
    requires defs[11] == map[0 := 0, 1 := 1, 2 := 2, 3 := 3, 5 := 4, 6 := 5, 7 := 6, 8 := 7, 9 := 8, 10 := 9, 11 := 10]
    requires defs[12] == map[0 := 0, 1 := 1, 2 := 2, 3 := 3, 5 := 4, 6 := 5, 7 := 6, 8 := 7, 9 := 8, 10 := 9, 11 := 10, 13 := 11]
    ensures |SimpleBranches(removed)| == 13 && Advances(SimpleBranches(removed), g, defs, 11)
  {
    var p := SimpleBranches(removed);
    assert p[11] == Let(13, MakeTuple([LetVar(10), LetVar(7), LetVar(3)]));
  }

  lemma SimpleBranchesWithoutEvent0Advance12(removed: set<EventId>, g: seq<Node>, defs: seq<map<VarId, nat>>)
    requires 0 in removed && 1 !in removed
    requires |g| == 13
    requires g[11] == Node(MakeTuple([LetVar(10), LetVar(7), LetVar(3)]), OnDevice(0, 2), [9, 6, 3])
    requires g[12] == Node(Concatenate(LetVar(13), 0), OnDevice(0, 2), [11])
    requires |defs| == 14
    requires defs[12] == map[0 := 0, 1 := 1, 2 := 2, 3 := 3, 5 := 4, 6 := 5, 7 := 6, 8 := 7, 9 := 8, 10 := 9, 11 := 10, 13 := 11]
    requires defs[13] == map[0 := 0, 1 := 1, 2 := 2, 3 := 3, 5 := 4, 6 := 5, 7 := 6, 8 := 7, 9 := 8, 10 := 9, 11 := 10, 13 := 11, 14 := 12]
    ensures |SimpleBranches(removed)| == 13 && Advances(SimpleBranches(removed), g, defs, 12)
  {
    var p := SimpleBranches(removed);
    assert p[12] == Let(14, Concatenate(LetVar(13), 0));
  }

  lemma SimpleBranchesWithoutEvent0Extract0(removed: set<EventId>, g: seq<Node>, defs: seq<map<VarId, nat>>)
    requires 0 in removed && 1 !in removed
    requires SimpleBranchesWithoutEvent0Shape(g) && SimpleBranchesWithoutEvent0Tables(defs)
    ensures |SimpleBranches(removed)| == 13
    ensures forall j :: 0 <= j < 5 ==> Advances(SimpleBranches(removed), g, defs, j)
  {
    SimpleBranchesWithoutEvent0Advance0(removed, g, defs);
    SimpleBranchesWithoutEvent0Advance1(removed, g, defs);
    SimpleBranchesWithoutEvent0Advance2(removed, g, defs);
    SimpleBranchesWithoutEvent0Advance3(removed, g, defs);
    SimpleBranchesWithoutEvent0Advance4(removed, g, defs);
    forall j | 0 <= j < 5 ensures Advances(SimpleBranches(removed), g, defs, j) {
      assert j == 0 || j == 1 || j == 2 || j == 3 || j == 4;
    }
  }

  lemma SimpleBranchesWithoutEvent0Extract5(removed: set<EventId>, g: seq<Node>, defs: seq<map<VarId, nat>>)
    requires 0 in removed && 1 !in removed
    requires SimpleBranchesWithoutEvent0Shape(g) && SimpleBranchesWithoutEvent0Tables(defs)
    ensures |SimpleBranches(removed)| == 13
    ensures forall j :: 5 <= j < 10 ==> Advances(SimpleBranches(removed), g, defs, j)
  {
    SimpleBranchesWithoutEvent0Advance5(removed, g, defs);
    SimpleBranchesWithoutEvent0Advance6(removed, g, defs);
    SimpleBranchesWithoutEvent0Advance7(removed, g, defs);
    SimpleBranchesWithoutEvent0Advance8(removed, g, defs);
    SimpleBranchesWithoutEvent0Advance9(removed, g, defs);
    forall j | 5 <= j < 10 ensures Advances(SimpleBranches(removed), g, defs, j) {
      assert j == 5 || j == 6 || j == 7 || j == 8 || j == 9;
    }
  }

  lemma SimpleBranchesWithoutEvent0Extract10(removed: set<EventId>, g: seq<Node>, defs: seq<map<VarId, nat>>)
    requires 0 in removed && 1 !in removed
    requires SimpleBranchesWithoutEvent0Shape(g) && SimpleBranchesWithoutEvent0Tables(defs)
    ensures |SimpleBranches(removed)| == 13
    ensures forall j :: 10 <= j < 13 ==> Advances(SimpleBranches(removed), g, defs, j)
  {
    SimpleBranchesWithoutEvent0Advance10(removed, g, defs);
    SimpleBranchesWithoutEvent0Advance11(removed, g, defs);
    SimpleBranchesWithoutEvent0Advance12(removed, g, defs);
    forall j | 10 <= j < 13 ensures Advances(SimpleBranches(removed), g, defs, j) {
      assert j == 10 || j == 11 || j == 12;
    }
  }

  lemma SimpleBranchesWithoutEvent0NodesShape0()
    ensures |SimpleBranchesWithoutEvent0Nodes()| == 13 && SimpleBranchesWithoutEvent0Shape0(SimpleBranchesWithoutEvent0Nodes())
  {
  }

  lemma SimpleBranchesWithoutEvent0NodesShape5()
    ensures |SimpleBranchesWithoutEvent0Nodes()| == 13 && SimpleBranchesWithoutEvent0Shape5(SimpleBranchesWithoutEvent0Nodes())
  {
  }

  lemma SimpleBranchesWithoutEvent0NodesShape10()
    ensures |SimpleBranchesWithoutEvent0Nodes()| == 13 && SimpleBranchesWithoutEvent0Shape10(SimpleBranchesWithoutEvent0Nodes())
  {
  }

  lemma SimpleBranchesWithoutEvent0DefsTables0()
    ensures |SimpleBranchesWithoutEvent0Defs()| == 14 && SimpleBranchesWithoutEvent0Tables0(SimpleBranchesWithoutEvent0Defs())
  {
  }

  lemma SimpleBranchesWithoutEvent0DefsTables5()
    ensures |SimpleBranchesWithoutEvent0Defs()| == 14 && SimpleBranchesWithoutEvent0Tables5(SimpleBranchesWithoutEvent0Defs())
  {
  }

  lemma SimpleBranchesWithoutEvent0DefsTables10()
    ensures |SimpleBranchesWithoutEvent0Defs()| == 14 && SimpleBranchesWithoutEvent0Tables10(SimpleBranchesWithoutEvent0Defs())
  {
  }

  /** `Extract` on `SimpleBranches(removed)` yields `SimpleBranchesWithoutEvent0Nodes()`. */
  lemma SimpleBranchesWithoutEvent0Graph(removed: set<EventId>) returns (g: seq<Node>)
    requires 0 in removed && 1 !in removed
    ensures Extract(SimpleBranches(removed)) == Ok(g) && SimpleBranchesWithoutEvent0Shape(g)
  {
    g := SimpleBranchesWithoutEvent0Nodes();
    var defs := SimpleBranchesWithoutEvent0Defs();
    var p := SimpleBranches(removed);
    SimpleBranchesWithoutEvent0NodesShape0();
    SimpleBranchesWithoutEvent0NodesShape5();
    SimpleBranchesWithoutEvent0NodesShape10();
    SimpleBranchesWithoutEvent0DefsTables0();
    SimpleBranchesWithoutEvent0DefsTables5();
    SimpleBranchesWithoutEvent0DefsTables10();
    SimpleBranchesWithoutEvent0Extract0(removed, g, defs);
    SimpleBranchesWithoutEvent0Extract5(removed, g, defs);
    SimpleBranchesWithoutEvent0Extract10(removed, g, defs);
    ExtractReplays(p, g, defs, 0);
    assert g[..0] == [];
  }

  lemma SimpleBranchesWithoutEvent0Simulate0(g: seq<Node>)
    requires WellFormed(g) && |g| == 13
    requires g[0] == Node(SetStream(0, 0), OnDevice(0, 0), [])
    ensures SimulateFrom(g, 0, SimpleBranchesWithoutEvent0State0()) == SimulateFrom(g, 1, SimpleBranchesWithoutEvent0State1())
  {
    assert Step(g, 0, SimpleBranchesWithoutEvent0State0()) == Ok(SimpleBranchesWithoutEvent0State1());
    SimulateLink(g, 0, SimpleBranchesWithoutEvent0State0(), SimpleBranchesWithoutEvent0State1());
  }

  lemma SimpleBranchesWithoutEvent0Simulate1(g: seq<Node>)
    requires WellFormed(g) && |g| == 13
    requires g[1] == Node(Atan(X), OnDevice(0, 0), [])
    ensures SimulateFrom(g, 1, SimpleBranchesWithoutEvent0State1()) == SimulateFrom(g, 2, SimpleBranchesWithoutEvent0State2())
  {
    ReadHazardsSmall(g, g[1].deps, 1, g[1].stream, ClockOf(SimpleBranchesWithoutEvent0State1(), g[1].stream));
    assert SimpleBranchesWithoutEvent0State1().hazards + ReadHazards(g, g[1].deps, 1, g[1].stream, ClockOf(SimpleBranchesWithoutEvent0State1(), g[1].stream)) == SimpleBranchesWithoutEvent0State2().hazards;
    assert Step(g, 1, SimpleBranchesWithoutEvent0State1()) == Ok(SimpleBranchesWithoutEvent0State2());
    SimulateLink(g, 1, SimpleBranchesWithoutEvent0State1(), SimpleBranchesWithoutEvent0State2());
  }

  lemma SimpleBranchesWithoutEvent0Simulate2(g: seq<Node>)
    requires WellFormed(g) && |g| == 13
    requires g[1] == Node(Atan(X), OnDevice(0, 0), [])
    requires g[2] == Node(Atan(LetVar(1)), OnDevice(0, 0), [1])
    ensures SimulateFrom(g, 2, SimpleBranchesWithoutEvent0State2()) == SimulateFrom(g, 3, SimpleBranchesWithoutEvent0State3())
  {
    ReadHazardsSmall(g, g[2].deps, 2, g[2].stream, ClockOf(SimpleBranchesWithoutEvent0State2(), g[2].stream));
    assert SimpleBranchesWithoutEvent0State2().hazards + ReadHazards(g, g[2].deps, 2, g[2].stream, ClockOf(SimpleBranchesWithoutEvent0State2(), g[2].stream)) == SimpleBranchesWithoutEvent0State3().hazards;
    assert Step(g, 2, SimpleBranchesWithoutEvent0State2()) == Ok(SimpleBranchesWithoutEvent0State3());
    SimulateLink(g, 2, SimpleBranchesWithoutEvent0State2(), SimpleBranchesWithoutEvent0State3());
  }

  lemma SimpleBranchesWithoutEvent0Simulate3(g: seq<Node>)
    requires WellFormed(g) && |g| == 13
    requires g[2] == Node(Atan(LetVar(1)), OnDevice(0, 0), [1])
    requires g[3] == Node(Atan(LetVar(2)), OnDevice(0, 0), [2])
    ensures SimulateFrom(g, 3, SimpleBranchesWithoutEvent0State3()) == SimulateFrom(g, 4, SimpleBranchesWithoutEvent0State4())
  {
    ReadHazardsSmall(g, g[3].deps, 3, g[3].stream, ClockOf(SimpleBranchesWithoutEvent0State3(), g[3].stream));
    assert SimpleBranchesWithoutEvent0State3().hazards + ReadHazards(g, g[3].deps, 3, g[3].stream, ClockOf(SimpleBranchesWithoutEvent0State3(), g[3].stream)) == SimpleBranchesWithoutEvent0State4().hazards;
    assert Step(g, 3, SimpleBranchesWithoutEvent0State3()) == Ok(SimpleBranchesWithoutEvent0State4());
    SimulateLink(g, 3, SimpleBranchesWithoutEvent0State3(), SimpleBranchesWithoutEvent0State4());
  }

  lemma SimpleBranchesWithoutEvent0Simulate4(g: seq<Node>)
    requires WellFormed(g) && |g| == 13
    requires g[4] == Node(SetStream(0, 1), OnDevice(0, 1), [])
    ensures SimulateFrom(g, 4, SimpleBranchesWithoutEvent0State4()) == SimulateFrom(g, 5, SimpleBranchesWithoutEvent0State5())
  {
    assert Step(g, 4, SimpleBranchesWithoutEvent0State4()) == Ok(SimpleBranchesWithoutEvent0State5());
    SimulateLink(g, 4, SimpleBranchesWithoutEvent0State4(), SimpleBranchesWithoutEvent0State5());
  }

  lemma SimpleBranchesWithoutEvent0Simulate5(g: seq<Node>)
    requires WellFormed(g) && |g| == 13
    requires g[5] == Node(Atan(X), OnDevice(0, 1), [])
    ensures SimulateFrom(g, 5, SimpleBranchesWithoutEvent0State5()) == SimulateFrom(g, 6, SimpleBranchesWithoutEvent0State6())
  {
    ReadHazardsSmall(g, g[5].deps, 5, g[5].stream, ClockOf(SimpleBranchesWithoutEvent0State5(), g[5].stream));
    assert SimpleBranchesWithoutEvent0State5().hazards + ReadHazards(g, g[5].deps, 5, g[5].stream, ClockOf(SimpleBranchesWithoutEvent0State5(), g[5].stream)) == SimpleBranchesWithoutEvent0State6().hazards;
    assert Step(g, 5, SimpleBranchesWithoutEvent0State5()) == Ok(SimpleBranchesWithoutEvent0State6());
    SimulateLink(g, 5, SimpleBranchesWithoutEvent0State5(), SimpleBranchesWithoutEvent0State6());
  }

  lemma SimpleBranchesWithoutEvent0Simulate6(g: seq<Node>)
    requires WellFormed(g) && |g| == 13
    requires g[5] == Node(Atan(X), OnDevice(0, 1), [])
    requires g[6] == Node(Atan(LetVar(6)), OnDevice(0, 1), [5])
    ensures SimulateFrom(g, 6, SimpleBranchesWithoutEvent0State6()) == SimulateFrom(g, 7, SimpleBranchesWithoutEvent0State7())
  {
    ReadHazardsSmall(g, g[6].deps, 6, g[6].stream, ClockOf(SimpleBranchesWithoutEvent0State6(), g[6].stream));
    assert SimpleBranchesWithoutEvent0State6().hazards + ReadHazards(g, g[6].deps, 6, g[6].stream, ClockOf(SimpleBranchesWithoutEvent0State6(), g[6].stream)) == SimpleBranchesWithoutEvent0State7().hazards;
    assert Step(g, 6, SimpleBranchesWithoutEvent0State6()) == Ok(SimpleBranchesWithoutEvent0State7());
    SimulateLink(g, 6, SimpleBranchesWithoutEvent0State6(), SimpleBranchesWithoutEvent0State7());
  }

  lemma SimpleBranchesWithoutEvent0Simulate7(g: seq<Node>)
    requires WellFormed(g) && |g| == 13
    requires g[7] == Node(AddEvent(1), OnDevice(0, 1), [])
    ensures SimulateFrom(g, 7, SimpleBranchesWithoutEvent0State7()) == SimulateFrom(g, 8, SimpleBranchesWithoutEvent0State8())
  {
    assert Step(g, 7, SimpleBranchesWithoutEvent0State7()) == Ok(SimpleBranchesWithoutEvent0State8());
    SimulateLink(g, 7, SimpleBranchesWithoutEvent0State7(), SimpleBranchesWithoutEvent0State8());
  }

  lemma SimpleBranchesWithoutEvent0Simulate8(g: seq<Node>)
    requires WellFormed(g) && |g| == 13
    requires g[8] == Node(SetStream(0, 2), OnDevice(0, 2), [])
    ensures SimulateFrom(g, 8, SimpleBranchesWithoutEvent0State8()) == SimulateFrom(g, 9, SimpleBranchesWithoutEvent0State9())
  {
    assert Step(g, 8, SimpleBranchesWithoutEvent0State8()) == Ok(SimpleBranchesWithoutEvent0State9());
    SimulateLink(g, 8, SimpleBranchesWithoutEvent0State8(), SimpleBranchesWithoutEvent0State9());
  }

  lemma SimpleBranchesWithoutEvent0Simulate9(g: seq<Node>)
    requires WellFormed(g) && |g| == 13
    requires g[9] == Node(Atan(X), OnDevice(0, 2), [])
    ensures SimulateFrom(g, 9, SimpleBranchesWithoutEvent0State9()) == SimulateFrom(g, 10, SimpleBranchesWithoutEvent0State10())
  {
    ReadHazardsSmall(g, g[9].deps, 9, g[9].stream, ClockOf(SimpleBranchesWithoutEvent0State9(), g[9].stream));
    assert SimpleBranchesWithoutEvent0State9().hazards + ReadHazards(g, g[9].deps, 9, g[9].stream, ClockOf(SimpleBranchesWithoutEvent0State9(), g[9].stream)) == SimpleBranchesWithoutEvent0State10().hazards;
    assert Step(g, 9, SimpleBranchesWithoutEvent0State9()) == Ok(SimpleBranchesWithoutEvent0State10());
    SimulateLink(g, 9, SimpleBranchesWithoutEvent0State9(), SimpleBranchesWithoutEvent0State10());
  }

  lemma SimpleBranchesWithoutEvent0Simulate10(g: seq<Node>)
    requires WellFormed(g) && |g| == 13
    requires g[10] == Node(WaitEvent(1), OnDevice(0, 2), [])
    ensures SimulateFrom(g, 10, SimpleBranchesWithoutEvent0State10()) == SimulateFrom(g, 11, SimpleBranchesWithoutEvent0State11())
  {
    MergeIs(map[], Mark(OnDevice(0, 1), 7, map[]), map[OnDevice(0, 1) := 7]);
    assert Step(g, 10, SimpleBranchesWithoutEvent0State10()) == Ok(SimpleBranchesWithoutEvent0State11());
    SimulateLink(g, 10, SimpleBranchesWithoutEvent0State10(), SimpleBranchesWithoutEvent0State11());
  }

  lemma SimpleBranchesWithoutEvent0Simulate11(g: seq<Node>)
    requires WellFormed(g) && |g| == 13
    requires g[3] == Node(Atan(LetVar(2)), OnDevice(0, 0), [2])
    requires g[6] == Node(Atan(LetVar(6)), OnDevice(0, 1), [5])
    requires g[9] == Node(Atan(X), OnDevice(0, 2), [])
    requires g[11] == Node(MakeTuple([LetVar(10), LetVar(7), LetVar(3)]), OnDevice(0, 2), [9, 6, 3])
    ensures SimulateFrom(g, 11, SimpleBranchesWithoutEvent0State11()) == SimulateFrom(g, 12, SimpleBranchesWithoutEvent0State12())
  {
    ReadHazardsSmall(g, g[11].deps, 11, g[11].stream, ClockOf(SimpleBranchesWithoutEvent0State11(), g[11].stream));
    assert SimpleBranchesWithoutEvent0State11().hazards + ReadHazards(g, g[11].deps, 11, g[11].stream, ClockOf(SimpleBranchesWithoutEvent0State11(), g[11].stream)) == SimpleBranchesWithoutEvent0State12().hazards;
    assert Step(g, 11, SimpleBranchesWithoutEvent0State11()) == Ok(SimpleBranchesWithoutEvent0State12());
    SimulateLink(g, 11, SimpleBranchesWithoutEvent0State11(), SimpleBranchesWithoutEvent0State12());
  }

  lemma SimpleBranchesWithoutEvent0Simulate12(g: seq<Node>)
    requires WellFormed(g) && |g| == 13
    requires g[11] == Node(MakeTuple([LetVar(10), LetVar(7), LetVar(3)]), OnDevice(0, 2), [9, 6, 3])
    requires g[12] == Node(Concatenate(LetVar(13), 0), OnDevice(0, 2), [11])
    ensures SimulateFrom(g, 12, SimpleBranchesWithoutEvent0State12()) == SimulateFrom(g, 13, SimpleBranchesWithoutEvent0State13())
  {
    ReadHazardsSmall(g, g[12].deps, 12, g[12].stream, ClockOf(SimpleBranchesWithoutEvent0State12(), g[12].stream));
    assert SimpleBranchesWithoutEvent0State12().hazards + ReadHazards(g, g[12].deps, 12, g[12].stream, ClockOf(SimpleBranchesWithoutEvent0State12(), g[12].stream)) == SimpleBranchesWithoutEvent0State13().hazards;
    assert Step(g, 12, SimpleBranchesWithoutEvent0State12()) == Ok(SimpleBranchesWithoutEvent0State13());
    SimulateLink(g, 12, SimpleBranchesWithoutEvent0State12(), SimpleBranchesWithoutEvent0State13());
  }

  /** Without event 0 the tuple `x_13` (position 11) reads the first branch `x_3` unordered. */
  lemma Verdict(removed: set<EventId>)
    requires 0 in removed && 1 !in removed
    ensures Verify(SimpleBranches(removed)) == Err(ExecutionOrder([Hazard(3, 11, OnDevice(0, 0), OnDevice(0, 2))]))
  {
    var g := SimpleBranchesWithoutEvent0Graph(removed);
    SimpleBranchesWithoutEvent0Simulate0(g);
    SimpleBranchesWithoutEvent0Simulate1(g);
    SimpleBranchesWithoutEvent0Simulate2(g);
    SimpleBranchesWithoutEvent0Simulate3(g);
    SimpleBranchesWithoutEvent0Simulate4(g);
    SimpleBranchesWithoutEvent0Simulate5(g);
    SimpleBranchesWithoutEvent0Simulate6(g);
    SimpleBranchesWithoutEvent0Simulate7(g);
    SimpleBranchesWithoutEvent0Simulate8(g);
    SimpleBranchesWithoutEvent0Simulate9(g);
    SimpleBranchesWithoutEvent0Simulate10(g);
    SimpleBranchesWithoutEvent0Simulate11(g);
    SimpleBranchesWithoutEvent0Simulate12(g);
    SimulateDone(g, SimpleBranchesWithoutEvent0State13());
  }
}
