/**
 * The verifier's verdict on `SimpleBranches(removed)` for one choice of removed events.
 * Without either event both foreign branches are reported, in operand order.
 */
module SimpleBranchesWithoutEvents {
  import opened Results
  import opened ScheduleVerifier
  import opened ScheduleTheory
  import opened SchedulePrograms

  /** The graph `Extract` builds for `SimpleBranches(removed)`. */
  function SimpleBranchesWithoutEventsNodes(): seq<Node>
  {
    [ Node(SetStream(0, 0), OnDevice(0, 0), [])
    , Node(Atan(X), OnDevice(0, 0), [])
    , Node(Atan(LetVar(1)), OnDevice(0, 0), [1])
    , Node(Atan(LetVar(2)), OnDevice(0, 0), [2])
    , Node(SetStream(0, 1), OnDevice(0, 1), [])
    , Node(Atan(X), OnDevice(0, 1), [])
    , Node(Atan(LetVar(6)), OnDevice(0, 1), [5])
    , Node(SetStream(0, 2), OnDevice(0, 2), [])
    , Node(Atan(X), OnDevice(0, 2), [])
    , Node(MakeTuple([LetVar(10), LetVar(7), LetVar(3)]), OnDevice(0, 2), [8, 6, 3])
    , Node(Concatenate(LetVar(13), 0), OnDevice(0, 2), [9]) ]
  }

  /** `g` is `SimpleBranchesWithoutEventsNodes()`, position by position. */
  predicate SimpleBranchesWithoutEventsShape(g: seq<Node>)
  {
    && |g| == 11
    && SimpleBranchesWithoutEventsShape0(g)
    && SimpleBranchesWithoutEventsShape5(g)
    && SimpleBranchesWithoutEventsShape10(g)
  }

  predicate SimpleBranchesWithoutEventsShape0(g: seq<Node>)
    requires |g| == 11
  {
    && g[0] == Node(SetStream(0, 0), OnDevice(0, 0), [])
    && g[1] == Node(Atan(X), OnDevice(0, 0), [])
    && g[2] == Node(Atan(LetVar(1)), OnDevice(0, 0), [1])
    && g[3] == Node(Atan(LetVar(2)), OnDevice(0, 0), [2])
    && g[4] == Node(SetStream(0, 1), OnDevice(0, 1), [])
  }

  predicate SimpleBranchesWithoutEventsShape5(g: seq<Node>)
    requires |g| == 11
  {
    && g[5] == Node(Atan(X), OnDevice(0, 1), [])
    && g[6] == Node(Atan(LetVar(6)), OnDevice(0, 1), [5])
    && g[7] == Node(SetStream(0, 2), OnDevice(0, 2), [])
    && g[8] == Node(Atan(X), OnDevice(0, 2), [])
    && g[9] == Node(MakeTuple([LetVar(10), LetVar(7), LetVar(3)]), OnDevice(0, 2), [8, 6, 3])
  }

  predicate SimpleBranchesWithoutEventsShape10(g: seq<Node>)
    requires |g| == 11
  {
    && g[10] == Node(Concatenate(LetVar(13), 0), OnDevice(0, 2), [9])
  }

  /** The variable table before each position of `SimpleBranches(removed)`. */
  function SimpleBranchesWithoutEventsDefs(): seq<map<VarId, nat>>
  {
    [ map[]
    , map[0 := 0]
    , map[0 := 0, 1 := 1]
    , map[0 := 0, 1 := 1, 2 := 2]
    , map[0 := 0, 1 := 1, 2 := 2, 3 := 3]
    , map[0 := 0, 1 := 1, 2 := 2, 3 := 3, 5 := 4]
    , map[0 := 0, 1 := 1, 2 := 2, 3 := 3, 5 := 4, 6 := 5]
    , map[0 := 0, 1 := 1, 2 := 2, 3 := 3, 5 := 4, 6 := 5, 7 := 6]
    , map[0 := 0, 1 := 1, 2 := 2, 3 := 3, 5 := 4, 6 := 5, 7 := 6, 9 := 7]
    , map[0 := 0, 1 := 1, 2 := 2, 3 := 3, 5 := 4, 6 := 5, 7 := 6, 9 := 7, 10 := 8]
    , map[0 := 0, 1 := 1, 2 := 2, 3 := 3, 5 := 4, 6 := 5, 7 := 6, 9 := 7, 10 := 8, 13 := 9]
    , map[0 := 0, 1 := 1, 2 := 2, 3 := 3, 5 := 4, 6 := 5, 7 := 6, 9 := 7, 10 := 8, 13 := 9, 14 := 10] ]
  }

  /** `defs` is `SimpleBranchesWithoutEventsDefs()`, position by position. */
  predicate SimpleBranchesWithoutEventsTables(defs: seq<map<VarId, nat>>)
  {
    && |defs| == 12
    && SimpleBranchesWithoutEventsTables0(defs)
    && SimpleBranchesWithoutEventsTables5(defs)
    && SimpleBranchesWithoutEventsTables10(defs)
  }

  predicate SimpleBranchesWithoutEventsTables0(defs: seq<map<VarId, nat>>)
    requires |defs| == 12
  {
    && defs[0] == map[]
    && defs[1] == map[0 := 0]
    && defs[2] == map[0 := 0, 1 := 1]
    && defs[3] == map[0 := 0, 1 := 1, 2 := 2]
    && defs[4] == map[0 := 0, 1 := 1, 2 := 2, 3 := 3]
  }

  predicate SimpleBranchesWithoutEventsTables5(defs: seq<map<VarId, nat>>)
    requires |defs| == 12
  {
    && defs[5] == map[0 := 0, 1 := 1, 2 := 2, 3 := 3, 5 := 4]
    && defs[6] == map[0 := 0, 1 := 1, 2 := 2, 3 := 3, 5 := 4, 6 := 5]
    && defs[7] == map[0 := 0, 1 := 1, 2 := 2, 3 := 3, 5 := 4, 6 := 5, 7 := 6]
    && defs[8] == map[0 := 0, 1 := 1, 2 := 2, 3 := 3, 5 := 4, 6 := 5, 7 := 6, 9 := 7]
    && defs[9] == map[0 := 0, 1 := 1, 2 := 2, 3 := 3, 5 := 4, 6 := 5, 7 := 6, 9 := 7, 10 := 8]
  }

  predicate SimpleBranchesWithoutEventsTables10(defs: seq<map<VarId, nat>>)
    requires |defs| == 12
  {
    && defs[10] == map[0 := 0, 1 := 1, 2 := 2, 3 := 3, 5 := 4, 6 := 5, 7 := 6, 9 := 7, 10 := 8, 13 := 9]
    && defs[11] == map[0 := 0, 1 := 1, 2 := 2, 3 := 3, 5 := 4, 6 := 5, 7 := 6, 9 := 7, 10 := 8, 13 := 9, 14 := 10]
  }

  function SimpleBranchesWithoutEventsState0(): SimState
  {
    SimState(map[], map[], [])
  }

  function SimpleBranchesWithoutEventsState1(): SimState
  {
    SimState(map[], map[], [])
  }

  function SimpleBranchesWithoutEventsState2(): SimState
  {
    SimState(map[], map[], [])
  }

  function SimpleBranchesWithoutEventsState3(): SimState
  {
    SimState(map[], map[], [])
  }

  function SimpleBranchesWithoutEventsState4(): SimState
  {
    SimState(map[], map[], [])
  }

  function SimpleBranchesWithoutEventsState5(): SimState
  {
    SimState(map[], map[], [])
  }

  function SimpleBranchesWithoutEventsState6(): SimState
  {
    SimState(map[], map[], [])
  }

  function SimpleBranchesWithoutEventsState7(): SimState
  {
    SimState(map[], map[], [])
  }

  function SimpleBranchesWithoutEventsState8(): SimState
  {
    SimState(map[], map[], [])
  }

  function SimpleBranchesWithoutEventsState9(): SimState
  {
    SimState(map[], map[], [])
  }

  function SimpleBranchesWithoutEventsState10(): SimState
  {
    SimState(map[], map[], [Hazard(6, 9, OnDevice(0, 1), OnDevice(0, 2)), Hazard(3, 9, OnDevice(0, 0), OnDevice(0, 2))])
  }

  function SimpleBranchesWithoutEventsState11(): SimState
  {
    SimState(map[], map[], [Hazard(6, 9, OnDevice(0, 1), OnDevice(0, 2)), Hazard(3, 9, OnDevice(0, 0), OnDevice(0, 2))])
  }

  lemma SimpleBranchesWithoutEventsAdvance0(removed: set<EventId>, g: seq<Node>, defs: seq<map<VarId, nat>>)
    requires 0 in removed && 1 in removed
    requires |g| == 11
    requires g[0] == Node(SetStream(0, 0), OnDevice(0, 0), [])
    requires |defs| == 12
    requires defs[0] == map[]
    requires defs[1] == map[0 := 0]
    ensures |SimpleBranches(removed)| == 11 && Advances(SimpleBranches(removed), g, defs, 0)
  {
    var p := SimpleBranches(removed);
    assert p[0] == Let(0, SetStream(0, 0));
  }

  lemma SimpleBranchesWithoutEventsAdvance1(removed: set<EventId>, g: seq<Node>, defs: seq<map<VarId, nat>>)
    requires 0 in removed && 1 in removed
    requires |g| == 11
    requires g[0] == Node(SetStream(0, 0), OnDevice(0, 0), [])
    requires g[1] == Node(Atan(X), OnDevice(0, 0), [])
    requires |defs| == 12
    requires defs[1] == map[0 := 0]
    requires defs[2] == map[0 := 0, 1 := 1]
    ensures |SimpleBranches(removed)| == 11 && Advances(SimpleBranches(removed), g, defs, 1)
  {
    var p := SimpleBranches(removed);
    assert p[1] == Let(1, Atan(X));
  }

  lemma SimpleBranchesWithoutEventsAdvance2(removed: set<EventId>, g: seq<Node>, defs: seq<map<VarId, nat>>)
    requires 0 in removed && 1 in removed
    requires |g| == 11
    requires g[1] == Node(Atan(X), OnDevice(0, 0), [])
    requires g[2] == Node(Atan(LetVar(1)), OnDevice(0, 0), [1])
    requires |defs| == 12
    requires defs[2] == map[0 := 0, 1 := 1]
    requires defs[3] == map[0 := 0, 1 := 1, 2 := 2]
    ensures |SimpleBranches(removed)| == 11 && Advances(SimpleBranches(removed), g, defs, 2)
  {
    var p := SimpleBranches(removed);
    assert p[2] == Let(2, Atan(LetVar(1)));
  }

  lemma SimpleBranchesWithoutEventsAdvance3(removed: set<EventId>, g: seq<Node>, defs: seq<map<VarId, nat>>)
    requires 0 in removed && 1 in removed
    requires |g| == 11
    requires g[2] == Node(Atan(LetVar(1)), OnDevice(0, 0), [1])
    requires g[3] == Node(Atan(LetVar(2)), OnDevice(0, 0), [2])
    requires |defs| == 12
    requires defs[3] == map[0 := 0, 1 := 1, 2 := 2]
    requires defs[4] == map[0 := 0, 1 := 1, 2 := 2, 3 := 3]
    ensures |SimpleBranches(removed)| == 11 && Advances(SimpleBranches(removed), g, defs, 3)
  {
    var p := SimpleBranches(removed);
    assert p[3] == Let(3, Atan(LetVar(2)));
  }

  lemma SimpleBranchesWithoutEventsAdvance4(removed: set<EventId>, g: seq<Node>, defs: seq<map<VarId, nat>>)
    requires 0 in removed && 1 in removed
    requires |g| == 11
    requires g[3] == Node(Atan(LetVar(2)), OnDevice(0, 0), [2])
    requires g[4] == Node(SetStream(0, 1), OnDevice(0, 1), [])
    requires |defs| == 12
    requires defs[4] == map[0 := 0, 1 := 1, 2 := 2, 3 := 3]
    requires defs[5] == map[0 := 0, 1 := 1, 2 := 2, 3 := 3, 5 := 4]
    ensures |SimpleBranches(removed)| == 11 && Advances(SimpleBranches(removed), g, defs, 4)
  {
    var p := SimpleBranches(removed);
    assert p[4] == Let(5, SetStream(0, 1));
  }

  lemma SimpleBranchesWithoutEventsAdvance5(removed: set<EventId>, g: seq<Node>, defs: seq<map<VarId, nat>>)
    requires 0 in removed && 1 in removed
    requires |g| == 11
    requires g[4] == Node(SetStream(0, 1), OnDevice(0, 1), [])
    requires g[5] == Node(Atan(X), OnDevice(0, 1), [])
    requires |defs| == 12
    requires defs[5] == map[0 := 0, 1 := 1, 2 := 2, 3 := 3, 5 := 4]
    requires defs[6] == map[0 := 0, 1 := 1, 2 := 2, 3 := 3, 5 := 4, 6 := 5]
    ensures |SimpleBranches(removed)| == 11 && Advances(SimpleBranches(removed), g, defs, 5)
  {
    var p := SimpleBranches(removed);
    assert p[5] == Let(6, Atan(X));
  }

  lemma SimpleBranchesWithoutEventsAdvance6(removed: set<EventId>, g: seq<Node>, defs: seq<map<VarId, nat>>)
    requires 0 in removed && 1 in removed
    requires |g| == 11
    requires g[5] == Node(Atan(X), OnDevice(0, 1), [])
    requires g[6] == Node(Atan(LetVar(6)), OnDevice(0, 1), [5])
    requires |defs| == 12
    requires defs[6] == map[0 := 0, 1 := 1, 2 := 2, 3 := 3, 5 := 4, 6 := 5]
    requires defs[7] == map[0 := 0, 1 := 1, 2 := 2, 3 := 3, 5 := 4, 6 := 5, 7 := 6]
    ensures |SimpleBranches(removed)| == 11 && Advances(SimpleBranches(removed), g, defs, 6)
  {
    var p := SimpleBranches(removed);
    assert p[6] == Let(7, Atan(LetVar(6)));
  }

  lemma SimpleBranchesWithoutEventsAdvance7(removed: set<EventId>, g: seq<Node>, defs: seq<map<VarId, nat>>)
    requires 0 in removed && 1 in removed
    requires |g| == 11
    requires g[6] == Node(Atan(LetVar(6)), OnDevice(0, 1), [5])
    requires g[7] == Node(SetStream(0, 2), OnDevice(0, 2), [])
    requires |defs| == 12
    requires defs[7] == map[0 := 0, 1 := 1, 2 := 2, 3 := 3, 5 := 4, 6 := 5, 7 := 6]
    requires defs[8] == map[0 := 0, 1 := 1, 2 := 2, 3 := 3, 5 := 4, 6 := 5, 7 := 6, 9 := 7]
    ensures |SimpleBranches(removed)| == 11 && Advances(SimpleBranches(removed), g, defs, 7)
  {
    var p := SimpleBranches(removed);
    assert p[7] == Let(9, SetStream(0, 2));
  }

  lemma SimpleBranchesWithoutEventsAdvance8(removed: set<EventId>, g: seq<Node>, defs: seq<map<VarId, nat>>)
    requires 0 in removed && 1 in removed
    requires |g| == 11
    requires g[7] == Node(SetStream(0, 2), OnDevice(0, 2), [])
    requires g[8] == Node(Atan(X), OnDevice(0, 2), [])
    requires |defs| == 12
    requires defs[8] == map[0 := 0, 1 := 1, 2 := 2, 3 := 3, 5 := 4, 6 := 5, 7 := 6, 9 := 7]
    requires defs[9] == map[0 := 0, 1 := 1, 2 := 2, 3 := 3, 5 := 4, 6 := 5, 7 := 6, 9 := 7, 10 := 8]
    ensures |SimpleBranches(removed)| == 11 && Advances(SimpleBranches(removed), g, defs, 8)
  {
    var p := SimpleBranches(removed);
    assert p[8] == Let(10, Atan(X));
  }

  lemma SimpleBranchesWithoutEventsAdvance9(removed: set<EventId>, g: seq<Node>, defs: seq<map<VarId, nat>>)
    requires 0 in removed && 1 in removed
    requires |g| == 11
    requires g[8] == Node(Atan(X), OnDevice(0, 2), [])
    requires g[9] == Node(MakeTuple([LetVar(10), LetVar(7), LetVar(3)]), OnDevice(0, 2), [8, 6, 3])
    requires |defs| == 12
    requires defs[9] == map[0 := 0, 1 := 1, 2 := 2, 3 := 3, 5 := 4, 6 := 5, 7 := 6, 9 := 7, 10 := 8]
    requires defs[10] == map[0 := 0, 1 := 1, 2 := 2, 3 := 3, 5 := 4, 6 := 5, 7 := 6, 9 := 7, 10 := 8, 13 := 9]
    ensures |SimpleBranches(removed)| == 11 && Advances(SimpleBranches(removed), g, defs, 9)
  {
    var p := SimpleBranches(removed);
    assert p[9] == Let(13, MakeTuple([LetVar(10), LetVar(7), LetVar(3)]));
  }

  lemma SimpleBranchesWithoutEventsAdvance10(removed: set<EventId>, g: seq<Node>, defs: seq<map<VarId, nat>>)
    requires 0 in removed && 1 in removed
    requires |g| == 11
    requires g[9] == Node(MakeTuple([LetVar(10), LetVar(7), LetVar(3)]), OnDevice(0, 2), [8, 6, 3])
    requires g[10] == Node(Concatenate(LetVar(13), 0), OnDevice(0, 2), [9])
    requires |defs| == 12
    requires defs[10] == map[0 := 0, 1 := 1, 2 := 2, 3 := 3, 5 := 4, 6 := 5, 7 := 6, 9 := 7, 10 := 8, 13 := 9]
    requires defs[11] == map[0 := 0, 1 := 1, 2 := 2, 3 := 3, 5 := 4, 6 := 5, 7 := 6, 9 := 7, 10 := 8, 13 := 9, 14 := 10]
    ensures |SimpleBranches(removed)| == 11 && Advances(SimpleBranches(removed), g, defs, 10)
  {
    var p := SimpleBranches(removed);
    assert p[10] == Let(14, Concatenate(LetVar(13), 0));
  }

  lemma SimpleBranchesWithoutEventsExtract0(removed: set<EventId>, g: seq<Node>, defs: seq<map<VarId, nat>>)
    requires 0 in removed && 1 in removed
    requires SimpleBranchesWithoutEventsShape(g) && SimpleBranchesWithoutEventsTables(defs)
    ensures |SimpleBranches(removed)| == 11
    ensures forall j :: 0 <= j < 5 ==> Advances(SimpleBranches(removed), g, defs, j)
  {
    SimpleBranchesWithoutEventsAdvance0(removed, g, defs);
    SimpleBranchesWithoutEventsAdvance1(removed, g, defs);
    SimpleBranchesWithoutEventsAdvance2(removed, g, defs);
    SimpleBranchesWithoutEventsAdvance3(removed, g, defs);
    SimpleBranchesWithoutEventsAdvance4(removed, g, defs);
    forall j | 0 <= j < 5 ensures Advances(SimpleBranches(removed), g, defs, j) {
      assert j == 0 || j == 1 || j == 2 || j == 3 || j == 4;
    }
  }

  lemma SimpleBranchesWithoutEventsExtract5(removed: set<EventId>, g: seq<Node>, defs: seq<map<VarId, nat>>)
    requires 0 in removed && 1 in removed
    requires SimpleBranchesWithoutEventsShape(g) && SimpleBranchesWithoutEventsTables(defs)
    ensures |SimpleBranches(removed)| == 11
    ensures forall j :: 5 <= j < 10 ==> Advances(SimpleBranches(removed), g, defs, j)
  {
    SimpleBranchesWithoutEventsAdvance5(removed, g, defs);
    SimpleBranchesWithoutEventsAdvance6(removed, g, defs);
    SimpleBranchesWithoutEventsAdvance7(removed, g, defs);
    SimpleBranchesWithoutEventsAdvance8(removed, g, defs);
    SimpleBranchesWithoutEventsAdvance9(removed, g, defs);
    forall j | 5 <= j < 10 ensures Advances(SimpleBranches(removed), g, defs, j) {
      assert j == 5 || j == 6 || j == 7 || j == 8 || j == 9;
    }
  }

  lemma SimpleBranchesWithoutEventsExtract10(removed: set<EventId>, g: seq<Node>, defs: seq<map<VarId, nat>>)
    requires 0 in removed && 1 in removed
    requires SimpleBranchesWithoutEventsShape(g) && SimpleBranchesWithoutEventsTables(defs)
    ensures |SimpleBranches(removed)| == 11
    ensures forall j :: 10 <= j < 11 ==> Advances(SimpleBranches(removed), g, defs, j)
  {
    SimpleBranchesWithoutEventsAdvance10(removed, g, defs);
    forall j | 10 <= j < 11 ensures Advances(SimpleBranches(removed), g, defs, j) {
      assert j == 10;
    }
  }

  lemma SimpleBranchesWithoutEventsNodesShape0()
    ensures |SimpleBranchesWithoutEventsNodes()| == 11 && SimpleBranchesWithoutEventsShape0(SimpleBranchesWithoutEventsNodes())
  {
  }

  lemma SimpleBranchesWithoutEventsNodesShape5()
    ensures |SimpleBranchesWithoutEventsNodes()| == 11 && SimpleBranchesWithoutEventsShape5(SimpleBranchesWithoutEventsNodes())
  {
  }

  lemma SimpleBranchesWithoutEventsNodesShape10()
    ensures |SimpleBranchesWithoutEventsNodes()| == 11 && SimpleBranchesWithoutEventsShape10(SimpleBranchesWithoutEventsNodes())
  {
  }

  lemma SimpleBranchesWithoutEventsDefsTables0()
    ensures |SimpleBranchesWithoutEventsDefs()| == 12 && SimpleBranchesWithoutEventsTables0(SimpleBranchesWithoutEventsDefs())
  {
  }

  lemma SimpleBranchesWithoutEventsDefsTables5()
    ensures |SimpleBranchesWithoutEventsDefs()| == 12 && SimpleBranchesWithoutEventsTables5(SimpleBranchesWithoutEventsDefs())
  {
  }

  lemma SimpleBranchesWithoutEventsDefsTables10()
    ensures |SimpleBranchesWithoutEventsDefs()| == 12 && SimpleBranchesWithoutEventsTables10(SimpleBranchesWithoutEventsDefs())
  {
  }

  /** `Extract` on `SimpleBranches(removed)` yields `SimpleBranchesWithoutEventsNodes()`. */
  lemma SimpleBranchesWithoutEventsGraph(removed: set<EventId>) returns (g: seq<Node>)
    requires 0 in removed && 1 in removed
    ensures Extract(SimpleBranches(removed)) == Ok(g) && SimpleBranchesWithoutEventsShape(g)
  {
    g := SimpleBranchesWithoutEventsNodes();
    var defs := SimpleBranchesWithoutEventsDefs();
    var p := SimpleBranches(removed);
    SimpleBranchesWithoutEventsNodesShape0();
    SimpleBranchesWithoutEventsNodesShape5();
    SimpleBranchesWithoutEventsNodesShape10();
    SimpleBranchesWithoutEventsDefsTables0();
    SimpleBranchesWithoutEventsDefsTables5();
    SimpleBranchesWithoutEventsDefsTables10();
    SimpleBranchesWithoutEventsExtract0(removed, g, defs);
    SimpleBranchesWithoutEventsExtract5(removed, g, defs);
    SimpleBranchesWithoutEventsExtract10(removed, g, defs);
    ExtractReplays(p, g, defs, 0);
    assert g[..0] == [];
  }

  lemma SimpleBranchesWithoutEventsSimulate0(g: seq<Node>)
    requires WellFormed(g) && |g| == 11
    requires g[0] == Node(SetStream(0, 0), OnDevice(0, 0), [])
    ensures SimulateFrom(g, 0, SimpleBranchesWithoutEventsState0()) == SimulateFrom(g, 1, SimpleBranchesWithoutEventsState1())
  {
    assert Step(g, 0, SimpleBranchesWithoutEventsState0()) == Ok(SimpleBranchesWithoutEventsState1());
    SimulateLink(g, 0, SimpleBranchesWithoutEventsState0(), SimpleBranchesWithoutEventsState1());
  }

  lemma SimpleBranchesWithoutEventsSimulate1(g: seq<Node>)
    requires WellFormed(g) && |g| == 11
    requires g[1] == Node(Atan(X), OnDevice(0, 0), [])
    ensures SimulateFrom(g, 1, SimpleBranchesWithoutEventsState1()) == SimulateFrom(g, 2, SimpleBranchesWithoutEventsState2())
  {
    ReadHazardsSmall(g, g[1].deps, 1, g[1].stream, ClockOf(SimpleBranchesWithoutEventsState1(), g[1].stream));
    assert SimpleBranchesWithoutEventsState1().hazards + ReadHazards(g, g[1].deps, 1, g[1].stream, ClockOf(SimpleBranchesWithoutEventsState1(), g[1].stream)) == SimpleBranchesWithoutEventsState2().hazards;
    assert Step(g, 1, SimpleBranchesWithoutEventsState1()) == Ok(SimpleBranchesWithoutEventsState2());
    SimulateLink(g, 1, SimpleBranchesWithoutEventsState1(), SimpleBranchesWithoutEventsState2());
  }

  lemma SimpleBranchesWithoutEventsSimulate2(g: seq<Node>)
    requires WellFormed(g) && |g| == 11
    requires g[1] == Node(Atan(X), OnDevice(0, 0), [])
    requires g[2] == Node(Atan(LetVar(1)), OnDevice(0, 0), [1])
    ensures SimulateFrom(g, 2, SimpleBranchesWithoutEventsState2()) == SimulateFrom(g, 3, SimpleBranchesWithoutEventsState3())
  {
    ReadHazardsSmall(g, g[2].deps, 2, g[2].stream, ClockOf(SimpleBranchesWithoutEventsState2(), g[2].stream));
    assert SimpleBranchesWithoutEventsState2().hazards + ReadHazards(g, g[2].deps, 2, g[2].stream, ClockOf(SimpleBranchesWithoutEventsState2(), g[2].stream)) == SimpleBranchesWithoutEventsState3().hazards;
    assert Step(g, 2, SimpleBranchesWithoutEventsState2()) == Ok(SimpleBranchesWithoutEventsState3());
    SimulateLink(g, 2, SimpleBranchesWithoutEventsState2(), SimpleBranchesWithoutEventsState3());
  }

  lemma SimpleBranchesWithoutEventsSimulate3(g: seq<Node>)
    requires WellFormed(g) && |g| == 11
    requires g[2] == Node(Atan(LetVar(1)), OnDevice(0, 0), [1])
    requires g[3] == Node(Atan(LetVar(2)), OnDevice(0, 0), [2])
    ensures SimulateFrom(g, 3, SimpleBranchesWithoutEventsState3()) == SimulateFrom(g, 4, SimpleBranchesWithoutEventsState4())
  {
    ReadHazardsSmall(g, g[3].deps, 3, g[3].stream, ClockOf(SimpleBranchesWithoutEventsState3(), g[3].stream));
    assert SimpleBranchesWithoutEventsState3().hazards + ReadHazards(g, g[3].deps, 3, g[3].stream, ClockOf(SimpleBranchesWithoutEventsState3(), g[3].stream)) == SimpleBranchesWithoutEventsState4().hazards;
    assert Step(g, 3, SimpleBranchesWithoutEventsState3()) == Ok(SimpleBranchesWithoutEventsState4());
    SimulateLink(g, 3, SimpleBranchesWithoutEventsState3(), SimpleBranchesWithoutEventsState4());
  }

  lemma SimpleBranchesWithoutEventsSimulate4(g: seq<Node>)
    requires WellFormed(g) && |g| == 11
    requires g[4] == Node(SetStream(0, 1), OnDevice(0, 1), [])
    ensures SimulateFrom(g, 4, SimpleBranchesWithoutEventsState4()) == SimulateFrom(g, 5, SimpleBranchesWithoutEventsState5())
  {
    assert Step(g, 4, SimpleBranchesWithoutEventsState4()) == Ok(SimpleBranchesWithoutEventsState5());
    SimulateLink(g, 4, SimpleBranchesWithoutEventsState4(), SimpleBranchesWithoutEventsState5());
  }

  lemma SimpleBranchesWithoutEventsSimulate5(g: seq<Node>)
    requires WellFormed(g) && |g| == 11
    requires g[5] == Node(Atan(X), OnDevice(0, 1), [])
    ensures SimulateFrom(g, 5, SimpleBranchesWithoutEventsState5()) == SimulateFrom(g, 6, SimpleBranchesWithoutEventsState6())
  {
    ReadHazardsSmall(g, g[5].deps, 5, g[5].stream, ClockOf(SimpleBranchesWithoutEventsState5(), g[5].stream));
    assert SimpleBranchesWithoutEventsState5().hazards + ReadHazards(g, g[5].deps, 5, g[5].stream, ClockOf(SimpleBranchesWithoutEventsState5(), g[5].stream)) == SimpleBranchesWithoutEventsState6().hazards;
    assert Step(g, 5, SimpleBranchesWithoutEventsState5()) == Ok(SimpleBranchesWithoutEventsState6());
    SimulateLink(g, 5, SimpleBranchesWithoutEventsState5(), SimpleBranchesWithoutEventsState6());
  }

  lemma SimpleBranchesWithoutEventsSimulate6(g: seq<Node>)
    requires WellFormed(g) && |g| == 11
    requires g[5] == Node(Atan(X), OnDevice(0, 1), [])
    requires g[6] == Node(Atan(LetVar(6)), OnDevice(0, 1), [5])
    ensures SimulateFrom(g, 6, SimpleBranchesWithoutEventsState6()) == SimulateFrom(g, 7, SimpleBranchesWithoutEventsState7())
  {
    ReadHazardsSmall(g, g[6].deps, 6, g[6].stream, ClockOf(SimpleBranchesWithoutEventsState6(), g[6].stream));
    assert SimpleBranchesWithoutEventsState6().hazards + ReadHazards(g, g[6].deps, 6, g[6].stream, ClockOf(SimpleBranchesWithoutEventsState6(), g[6].stream)) == SimpleBranchesWithoutEventsState7().hazards;
    assert Step(g, 6, SimpleBranchesWithoutEventsState6()) == Ok(SimpleBranchesWithoutEventsState7());
    SimulateLink(g, 6, SimpleBranchesWithoutEventsState6(), SimpleBranchesWithoutEventsState7());
  }

  lemma SimpleBranchesWithoutEventsSimulate7(g: seq<Node>)
    requires WellFormed(g) && |g| == 11
    requires g[7] == Node(SetStream(0, 2), OnDevice(0, 2), [])
    ensures SimulateFrom(g, 7, SimpleBranchesWithoutEventsState7()) == SimulateFrom(g, 8, SimpleBranchesWithoutEventsState8())
  {
    assert Step(g, 7, SimpleBranchesWithoutEventsState7()) == Ok(SimpleBranchesWithoutEventsState8());
    SimulateLink(g, 7, SimpleBranchesWithoutEventsState7(), SimpleBranchesWithoutEventsState8());
  }

  lemma SimpleBranchesWithoutEventsSimulate8(g: seq<Node>)
    requires WellFormed(g) && |g| == 11
    requires g[8] == Node(Atan(X), OnDevice(0, 2), [])
    ensures SimulateFrom(g, 8, SimpleBranchesWithoutEventsState8()) == SimulateFrom(g, 9, SimpleBranchesWithoutEventsState9())
  {
    ReadHazardsSmall(g, g[8].deps, 8, g[8].stream, ClockOf(SimpleBranchesWithoutEventsState8(), g[8].stream));
    assert SimpleBranchesWithoutEventsState8().hazards + ReadHazards(g, g[8].deps, 8, g[8].stream, ClockOf(SimpleBranchesWithoutEventsState8(), g[8].stream)) == SimpleBranchesWithoutEventsState9().hazards;
    assert Step(g, 8, SimpleBranchesWithoutEventsState8()) == Ok(SimpleBranchesWithoutEventsState9());
    SimulateLink(g, 8, SimpleBranchesWithoutEventsState8(), SimpleBranchesWithoutEventsState9());
  }

  lemma SimpleBranchesWithoutEventsSimulate9(g: seq<Node>)
    requires WellFormed(g) && |g| == 11
    requires g[3] == Node(Atan(LetVar(2)), OnDevice(0, 0), [2])
    requires g[6] == Node(Atan(LetVar(6)), OnDevice(0, 1), [5])
    requires g[8] == Node(Atan(X), OnDevice(0, 2), [])
    requires g[9] == Node(MakeTuple([LetVar(10), LetVar(7), LetVar(3)]), OnDevice(0, 2), [8, 6, 3])
    ensures SimulateFrom(g, 9, SimpleBranchesWithoutEventsState9()) == SimulateFrom(g, 10, SimpleBranchesWithoutEventsState10())
  {
    ReadHazardsSmall(g, g[9].deps, 9, g[9].stream, ClockOf(SimpleBranchesWithoutEventsState9(), g[9].stream));
    assert SimpleBranchesWithoutEventsState9().hazards + ReadHazards(g, g[9].deps, 9, g[9].stream, ClockOf(SimpleBranchesWithoutEventsState9(), g[9].stream)) == SimpleBranchesWithoutEventsState10().hazards;
    assert Step(g, 9, SimpleBranchesWithoutEventsState9()) == Ok(SimpleBranchesWithoutEventsState10());
    SimulateLink(g, 9, SimpleBranchesWithoutEventsState9(), SimpleBranchesWithoutEventsState10());
  }

  lemma SimpleBranchesWithoutEventsSimulate10(g: seq<Node>)
    requires WellFormed(g) && |g| == 11
    requires g[9] == Node(MakeTuple([LetVar(10), LetVar(7), LetVar(3)]), OnDevice(0, 2), [8, 6, 3])
    requires g[10] == Node(Concatenate(LetVar(13), 0), OnDevice(0, 2), [9])
    ensures SimulateFrom(g, 10, SimpleBranchesWithoutEventsState10()) == SimulateFrom(g, 11, SimpleBranchesWithoutEventsState11())
  {
    ReadHazardsSmall(g, g[10].deps, 10, g[10].stream, ClockOf(SimpleBranchesWithoutEventsState10(), g[10].stream));
    assert SimpleBranchesWithoutEventsState10().hazards + ReadHazards(g, g[10].deps, 10, g[10].stream, ClockOf(SimpleBranchesWithoutEventsState10(), g[10].stream)) == SimpleBranchesWithoutEventsState11().hazards;
    assert Step(g, 10, SimpleBranchesWithoutEventsState10()) == Ok(SimpleBranchesWithoutEventsState11());
    SimulateLink(g, 10, SimpleBranchesWithoutEventsState10(), SimpleBranchesWithoutEventsState11());
  }

  /** Without either event both foreign branches are reported, in operand order. */
  lemma Verdict(removed: set<EventId>)
    requires 0 in removed && 1 in removed
    ensures Verify(SimpleBranches(removed)) == Err(ExecutionOrder([Hazard(6, 9, OnDevice(0, 1), OnDevice(0, 2)), Hazard(3, 9, OnDevice(0, 0), OnDevice(0, 2))]))
  {
    var g := SimpleBranchesWithoutEventsGraph(removed);
    SimpleBranchesWithoutEventsSimulate0(g);
    SimpleBranchesWithoutEventsSimulate1(g);
    SimpleBranchesWithoutEventsSimulate2(g);
    SimpleBranchesWithoutEventsSimulate3(g);
    SimpleBranchesWithoutEventsSimulate4(g);
    SimpleBranchesWithoutEventsSimulate5(g);
    SimpleBranchesWithoutEventsSimulate6(g);
    SimpleBranchesWithoutEventsSimulate7(g);
    SimpleBranchesWithoutEventsSimulate8(g);
    SimpleBranchesWithoutEventsSimulate9(g);
    SimpleBranchesWithoutEventsSimulate10(g);
    SimulateDone(g, SimpleBranchesWithoutEventsState11());
  }
}
