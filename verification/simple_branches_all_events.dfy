/**
 * The verifier's verdict on `SimpleBranches(removed)` for one choice of removed events.
 * With both events in place the three branches join safely.
 */
module SimpleBranchesAllEvents {
  import opened Results
  import opened ScheduleVerifier
  import opened ScheduleTheory
  import opened SchedulePrograms

  /** The graph `Extract` builds for `SimpleBranches(removed)`. */
  function SimpleBranchesAllEventsNodes(): seq<Node>
  {
    [ Node(SetStream(0, 0), OnDevice(0, 0), [])
    , Node(Atan(X), OnDevice(0, 0), [])
    , Node(Atan(LetVar(1)), OnDevice(0, 0), [1])
    , Node(Atan(LetVar(2)), OnDevice(0, 0), [2])
    , Node(AddEvent(0), OnDevice(0, 0), [])
    , Node(SetStream(0, 1), OnDevice(0, 1), [])
    , Node(Atan(X), OnDevice(0, 1), [])
    , Node(Atan(LetVar(6)), OnDevice(0, 1), [6])
    , Node(AddEvent(1), OnDevice(0, 1), [])
    , Node(SetStream(0, 2), OnDevice(0, 2), [])
    , Node(Atan(X), OnDevice(0, 2), [])
    , Node(WaitEvent(1), OnDevice(0, 2), [])
    , Node(WaitEvent(0), OnDevice(0, 2), [])
    , Node(MakeTuple([LetVar(10), LetVar(7), LetVar(3)]), OnDevice(0, 2), [10, 7, 3])
    , Node(Concatenate(LetVar(13), 0), OnDevice(0, 2), [13]) ]
  }

  /** `g` is `SimpleBranchesAllEventsNodes()`, position by position. */
  predicate SimpleBranchesAllEventsShape(g: seq<Node>)
  {
    && |g| == 15
    && SimpleBranchesAllEventsShape0(g)
    && SimpleBranchesAllEventsShape5(g)
    && SimpleBranchesAllEventsShape10(g)
  }

  predicate SimpleBranchesAllEventsShape0(g: seq<Node>)
    requires |g| == 15
  {
    && g[0] == Node(SetStream(0, 0), OnDevice(0, 0), [])
    && g[1] == Node(Atan(X), OnDevice(0, 0), [])
    && g[2] == Node(Atan(LetVar(1)), OnDevice(0, 0), [1])
    && g[3] == Node(Atan(LetVar(2)), OnDevice(0, 0), [2])
    && g[4] == Node(AddEvent(0), OnDevice(0, 0), [])
  }

  predicate SimpleBranchesAllEventsShape5(g: seq<Node>)
    requires |g| == 15
  {
    && g[5] == Node(SetStream(0, 1), OnDevice(0, 1), [])
    && g[6] == Node(Atan(X), OnDevice(0, 1), [])
    && g[7] == Node(Atan(LetVar(6)), OnDevice(0, 1), [6])
    && g[8] == Node(AddEvent(1), OnDevice(0, 1), [])
    && g[9] == Node(SetStream(0, 2), OnDevice(0, 2), [])
  }

  predicate SimpleBranchesAllEventsShape10(g: seq<Node>)
    requires |g| == 15
  {
    && g[10] == Node(Atan(X), OnDevice(0, 2), [])
    && g[11] == Node(WaitEvent(1), OnDevice(0, 2), [])
    && g[12] == Node(WaitEvent(0), OnDevice(0, 2), [])
    && g[13] == Node(MakeTuple([LetVar(10), LetVar(7), LetVar(3)]), OnDevice(0, 2), [10, 7, 3])
    && g[14] == Node(Concatenate(LetVar(13), 0), OnDevice(0, 2), [13])
  }

  /** The variable table before each position of `SimpleBranches(removed)`. */
  function SimpleBranchesAllEventsDefs(): seq<map<VarId, nat>>
  {
    [ map[]
    , map[0 := 0]
    , map[0 := 0, 1 := 1]
    , map[0 := 0, 1 := 1, 2 := 2]
    , map[0 := 0, 1 := 1, 2 := 2, 3 := 3]
    , map[0 := 0, 1 := 1, 2 := 2, 3 := 3, 4 := 4]
    , map[0 := 0, 1 := 1, 2 := 2, 3 := 3, 4 := 4, 5 := 5]
    , map[0 := 0, 1 := 1, 2 := 2, 3 := 3, 4 := 4, 5 := 5, 6 := 6]
    , map[0 := 0, 1 := 1, 2 := 2, 3 := 3, 4 := 4, 5 := 5, 6 := 6, 7 := 7]
    , map[0 := 0, 1 := 1, 2 := 2, 3 := 3, 4 := 4, 5 := 5, 6 := 6, 7 := 7, 8 := 8]
    , map[0 := 0, 1 := 1, 2 := 2, 3 := 3, 4 := 4, 5 := 5, 6 := 6, 7 := 7, 8 := 8, 9 := 9]
    , map[0 := 0, 1 := 1, 2 := 2, 3 := 3, 4 := 4, 5 := 5, 6 := 6, 7 := 7, 8 := 8, 9 := 9, 10 := 10]
    , map[0 := 0, 1 := 1, 2 := 2, 3 := 3, 4 := 4, 5 := 5, 6 := 6, 7 := 7, 8 := 8, 9 := 9, 10 := 10, 11 := 11]
    , map[0 := 0, 1 := 1, 2 := 2, 3 := 3, 4 := 4, 5 := 5, 6 := 6, 7 := 7, 8 := 8, 9 := 9, 10 := 10, 11 := 11, 12 := 12]
    , map[0 := 0, 1 := 1, 2 := 2, 3 := 3, 4 := 4, 5 := 5, 6 := 6, 7 := 7, 8 := 8, 9 := 9, 10 := 10, 11 := 11, 12 := 12, 13 := 13]
    , map[0 := 0, 1 := 1, 2 := 2, 3 := 3, 4 := 4, 5 := 5, 6 := 6, 7 := 7, 8 := 8, 9 := 9, 10 := 10, 11 := 11, 12 := 12, 13 := 13, 14 := 14] ]
  }

  /** `defs` is `SimpleBranchesAllEventsDefs()`, position by position. */
  predicate SimpleBranchesAllEventsTables(defs: seq<map<VarId, nat>>)
  {
    && |defs| == 16
    && SimpleBranchesAllEventsTables0(defs)
    && SimpleBranchesAllEventsTables5(defs)
    && SimpleBranchesAllEventsTables10(defs)
  }

  predicate SimpleBranchesAllEventsTables0(defs: seq<map<VarId, nat>>)
    requires |defs| == 16
  {
    && defs[0] == map[]
    && defs[1] == map[0 := 0]
    && defs[2] == map[0 := 0, 1 := 1]
    && defs[3] == map[0 := 0, 1 := 1, 2 := 2]
    && defs[4] == map[0 := 0, 1 := 1, 2 := 2, 3 := 3]
  }

  predicate SimpleBranchesAllEventsTables5(defs: seq<map<VarId, nat>>)
    requires |defs| == 16
  {
    && defs[5] == map[0 := 0, 1 := 1, 2 := 2, 3 := 3, 4 := 4]
    && defs[6] == map[0 := 0, 1 := 1, 2 := 2, 3 := 3, 4 := 4, 5 := 5]
    && defs[7] == map[0 := 0, 1 := 1, 2 := 2, 3 := 3, 4 := 4, 5 := 5, 6 := 6]
    && defs[8] == map[0 := 0, 1 := 1, 2 := 2, 3 := 3, 4 := 4, 5 := 5, 6 := 6, 7 := 7]
    && defs[9] == map[0 := 0, 1 := 1, 2 := 2, 3 := 3, 4 := 4, 5 := 5, 6 := 6, 7 := 7, 8 := 8]
  }

  predicate SimpleBranchesAllEventsTables10(defs: seq<map<VarId, nat>>)
    requires |defs| == 16
  {
    && defs[10] == map[0 := 0, 1 := 1, 2 := 2, 3 := 3, 4 := 4, 5 := 5, 6 := 6, 7 := 7, 8 := 8, 9 := 9]
    && defs[11] == map[0 := 0, 1 := 1, 2 := 2, 3 := 3, 4 := 4, 5 := 5, 6 := 6, 7 := 7, 8 := 8, 9 := 9, 10 := 10]
    && defs[12] == map[0 := 0, 1 := 1, 2 := 2, 3 := 3, 4 := 4, 5 := 5, 6 := 6, 7 := 7, 8 := 8, 9 := 9, 10 := 10, 11 := 11]
    && defs[13] == map[0 := 0, 1 := 1, 2 := 2, 3 := 3, 4 := 4, 5 := 5, 6 := 6, 7 := 7, 8 := 8, 9 := 9, 10 := 10, 11 := 11, 12 := 12]
    && defs[14] == map[0 := 0, 1 := 1, 2 := 2, 3 := 3, 4 := 4, 5 := 5, 6 := 6, 7 := 7, 8 := 8, 9 := 9, 10 := 10, 11 := 11, 12 := 12, 13 := 13]
    && defs[15] == map[0 := 0, 1 := 1, 2 := 2, 3 := 3, 4 := 4, 5 := 5, 6 := 6, 7 := 7, 8 := 8, 9 := 9, 10 := 10, 11 := 11, 12 := 12, 13 := 13, 14 := 14]
  }

  function SimpleBranchesAllEventsState0(): SimState
  {
    SimState(map[], map[], [])
  }

  function SimpleBranchesAllEventsState1(): SimState
  {
    SimState(map[], map[], [])
  }

  function SimpleBranchesAllEventsState2(): SimState
  {
    SimState(map[], map[], [])
  }

  function SimpleBranchesAllEventsState3(): SimState
  {
    SimState(map[], map[], [])
  }

  function SimpleBranchesAllEventsState4(): SimState
  {
    SimState(map[], map[], [])
  }

  function SimpleBranchesAllEventsState5(): SimState
  {
    SimState(map[][0 := Mark(OnDevice(0, 0), 4, map[])], map[], [])
  }

  function SimpleBranchesAllEventsState6(): SimState
  {
    SimState(map[][0 := Mark(OnDevice(0, 0), 4, map[])], map[], [])
  }

  function SimpleBranchesAllEventsState7(): SimState
  {
    SimState(map[][0 := Mark(OnDevice(0, 0), 4, map[])], map[], [])
  }

  function SimpleBranchesAllEventsState8(): SimState
  {
    SimState(map[][0 := Mark(OnDevice(0, 0), 4, map[])], map[], [])
  }

  function SimpleBranchesAllEventsState9(): SimState
  {
    SimState(map[][0 := Mark(OnDevice(0, 0), 4, map[])][1 := Mark(OnDevice(0, 1), 8, map[])], map[], [])
  }

  function SimpleBranchesAllEventsState10(): SimState
  {
    SimState(map[][0 := Mark(OnDevice(0, 0), 4, map[])][1 := Mark(OnDevice(0, 1), 8, map[])], map[], [])
  }

  function SimpleBranchesAllEventsState11(): SimState
  {
    SimState(map[][0 := Mark(OnDevice(0, 0), 4, map[])][1 := Mark(OnDevice(0, 1), 8, map[])], map[], [])
  }

  function SimpleBranchesAllEventsState12(): SimState
  {
    SimState(map[][0 := Mark(OnDevice(0, 0), 4, map[])][1 := Mark(OnDevice(0, 1), 8, map[])], map[][OnDevice(0, 2) := map[OnDevice(0, 1) := 8]], [])
  }

  function SimpleBranchesAllEventsState13(): SimState
  {
    SimState(map[][0 := Mark(OnDevice(0, 0), 4, map[])][1 := Mark(OnDevice(0, 1), 8, map[])], map[][OnDevice(0, 2) := map[OnDevice(0, 1) := 8]][OnDevice(0, 2) := map[OnDevice(0, 0) := 4, OnDevice(0, 1) := 8]], [])
  }

  function SimpleBranchesAllEventsState14(): SimState
  {
    SimState(map[][0 := Mark(OnDevice(0, 0), 4, map[])][1 := Mark(OnDevice(0, 1), 8, map[])], map[][OnDevice(0, 2) := map[OnDevice(0, 1) := 8]][OnDevice(0, 2) := map[OnDevice(0, 0) := 4, OnDevice(0, 1) := 8]], [])
  }

  function SimpleBranchesAllEventsState15(): SimState
  {
    SimState(map[][0 := Mark(OnDevice(0, 0), 4, map[])][1 := Mark(OnDevice(0, 1), 8, map[])], map[][OnDevice(0, 2) := map[OnDevice(0, 1) := 8]][OnDevice(0, 2) := map[OnDevice(0, 0) := 4, OnDevice(0, 1) := 8]], [])
  }

  lemma SimpleBranchesAllEventsAdvance0(removed: set<EventId>, g: seq<Node>, defs: seq<map<VarId, nat>>)
    requires 0 !in removed && 1 !in removed
    requires |g| == 15
    requires g[0] == Node(SetStream(0, 0), OnDevice(0, 0), [])
    requires |defs| == 16
    requires defs[0] == map[]
    requires defs[1] == map[0 := 0]
    ensures |SimpleBranches(removed)| == 15 && Advances(SimpleBranches(removed), g, defs, 0)
  {
    var p := SimpleBranches(removed);
    assert p[0] == Let(0, SetStream(0, 0));
  }

  lemma SimpleBranchesAllEventsAdvance1(removed: set<EventId>, g: seq<Node>, defs: seq<map<VarId, nat>>)
    requires 0 !in removed && 1 !in removed
    requires |g| == 15
    requires g[0] == Node(SetStream(0, 0), OnDevice(0, 0), [])
    requires g[1] == Node(Atan(X), OnDevice(0, 0), [])
    requires |defs| == 16
    requires defs[1] == map[0 := 0]
    requires defs[2] == map[0 := 0, 1 := 1]
    ensures |SimpleBranches(removed)| == 15 && Advances(SimpleBranches(removed), g, defs, 1)
  {
    var p := SimpleBranches(removed);
    assert p[1] == Let(1, Atan(X));
  }

  lemma SimpleBranchesAllEventsAdvance2(removed: set<EventId>, g: seq<Node>, defs: seq<map<VarId, nat>>)
    requires 0 !in removed && 1 !in removed
    requires |g| == 15
    requires g[1] == Node(Atan(X), OnDevice(0, 0), [])
    requires g[2] == Node(Atan(LetVar(1)), OnDevice(0, 0), [1])
    requires |defs| == 16
    requires defs[2] == map[0 := 0, 1 := 1]
    requires defs[3] == map[0 := 0, 1 := 1, 2 := 2]
    ensures |SimpleBranches(removed)| == 15 && Advances(SimpleBranches(removed), g, defs, 2)
  {
    var p := SimpleBranches(removed);
    assert p[2] == Let(2, Atan(LetVar(1)));
  }

  lemma SimpleBranchesAllEventsAdvance3(removed: set<EventId>, g: seq<Node>, defs: seq<map<VarId, nat>>)
    requires 0 !in removed && 1 !in removed
    requires |g| == 15
    requires g[2] == Node(Atan(LetVar(1)), OnDevice(0, 0), [1])
    requires g[3] == Node(Atan(LetVar(2)), OnDevice(0, 0), [2])
    requires |defs| == 16
    requires defs[3] == map[0 := 0, 1 := 1, 2 := 2]
    requires defs[4] == map[0 := 0, 1 := 1, 2 := 2, 3 := 3]
    ensures |SimpleBranches(removed)| == 15 && Advances(SimpleBranches(removed), g, defs, 3)
  {
    var p := SimpleBranches(removed);
    assert p[3] == Let(3, Atan(LetVar(2)));
  }

  lemma SimpleBranchesAllEventsAdvance4(removed: set<EventId>, g: seq<Node>, defs: seq<map<VarId, nat>>)
    requires 0 !in removed && 1 !in removed
    requires |g| == 15
    requires g[3] == Node(Atan(LetVar(2)), OnDevice(0, 0), [2])
    requires g[4] == Node(AddEvent(0), OnDevice(0, 0), [])
    requires |defs| == 16
    requires defs[4] == map[0 := 0, 1 := 1, 2 := 2, 3 := 3]
    requires defs[5] == map[0 := 0, 1 := 1, 2 := 2, 3 := 3, 4 := 4]
    ensures |SimpleBranches(removed)| == 15 && Advances(SimpleBranches(removed), g, defs, 4)
  {
    var p := SimpleBranches(removed);
    assert p[4] == Let(4, AddEvent(0));
  }

  lemma SimpleBranchesAllEventsAdvance5(removed: set<EventId>, g: seq<Node>, defs: seq<map<VarId, nat>>)
    requires 0 !in removed && 1 !in removed
    requires |g| == 15
    requires g[4] == Node(AddEvent(0), OnDevice(0, 0), [])
    requires g[5] == Node(SetStream(0, 1), OnDevice(0, 1), [])
    requires |defs| == 16
    requires defs[5] == map[0 := 0, 1 := 1, 2 := 2, 3 := 3, 4 := 4]
    requires defs[6] == map[0 := 0, 1 := 1, 2 := 2, 3 := 3, 4 := 4, 5 := 5]
    ensures |SimpleBranches(removed)| == 15 && Advances(SimpleBranches(removed), g, defs, 5)
  {
    var p := SimpleBranches(removed);
    assert p[5] == Let(5, SetStream(0, 1));
  }

  lemma SimpleBranchesAllEventsAdvance6(removed: set<EventId>, g: seq<Node>, defs: seq<map<VarId, nat>>)
    requires 0 !in removed && 1 !in removed
    requires |g| == 15
    requires g[5] == Node(SetStream(0, 1), OnDevice(0, 1), [])
    requires g[6] == Node(Atan(X), OnDevice(0, 1), [])
    requires |defs| == 16
    requires defs[6] == map[0 := 0, 1 := 1, 2 := 2, 3 := 3, 4 := 4, 5 := 5]
    requires defs[7] == map[0 := 0, 1 := 1, 2 := 2, 3 := 3, 4 := 4, 5 := 5, 6 := 6]
    ensures |SimpleBranches(removed)| == 15 && Advances(SimpleBranches(removed), g, defs, 6)
  {
    var p := SimpleBranches(removed);
    assert p[6] == Let(6, Atan(X));
  }

  lemma SimpleBranchesAllEventsAdvance7(removed: set<EventId>, g: seq<Node>, defs: seq<map<VarId, nat>>)
    requires 0 !in removed && 1 !in removed
    requires |g| == 15
    requires g[6] == Node(Atan(X), OnDevice(0, 1), [])
    requires g[7] == Node(Atan(LetVar(6)), OnDevice(0, 1), [6])
    requires |defs| == 16
    requires defs[7] == map[0 := 0, 1 := 1, 2 := 2, 3 := 3, 4 := 4, 5 := 5, 6 := 6]
    requires defs[8] == map[0 := 0, 1 := 1, 2 := 2, 3 := 3, 4 := 4, 5 := 5, 6 := 6, 7 := 7]
    ensures |SimpleBranches(removed)| == 15 && Advances(SimpleBranches(removed), g, defs, 7)
  {
    var p := SimpleBranches(removed);
    assert p[7] == Let(7, Atan(LetVar(6)));
  }

  lemma SimpleBranchesAllEventsAdvance8(removed: set<EventId>, g: seq<Node>, defs: seq<map<VarId, nat>>)
    requires 0 !in removed && 1 !in removed
    requires |g| == 15
    requires g[7] == Node(Atan(LetVar(6)), OnDevice(0, 1), [6])
    requires g[8] == Node(AddEvent(1), OnDevice(0, 1), [])
    requires |defs| == 16
    requires defs[8] == map[0 := 0, 1 := 1, 2 := 2, 3 := 3, 4 := 4, 5 := 5, 6 := 6, 7 := 7]
    requires defs[9] == map[0 := 0, 1 := 1, 2 := 2, 3 := 3, 4 := 4, 5 := 5, 6 := 6, 7 := 7, 8 := 8]
    ensures |SimpleBranches(removed)| == 15 && Advances(SimpleBranches(removed), g, defs, 8)
  {
    var p := SimpleBranches(removed);
    assert p[8] == Let(8, AddEvent(1));
  }

  lemma SimpleBranchesAllEventsAdvance9(removed: set<EventId>, g: seq<Node>, defs: seq<map<VarId, nat>>)
    requires 0 !in removed && 1 !in removed
    requires |g| == 15
    requires g[8] == Node(AddEvent(1), OnDevice(0, 1), [])
    requires g[9] == Node(SetStream(0, 2), OnDevice(0, 2), [])
    requires |defs| == 16
    requires defs[9] == map[0 := 0, 1 := 1, 2 := 2, 3 := 3, 4 := 4, 5 := 5, 6 := 6, 7 := 7, 8 := 8]
    requires defs[10] == map[0 := 0, 1 := 1, 2 := 2, 3 := 3, 4 := 4, 5 := 5, 6 := 6, 7 := 7, 8 := 8, 9 := 9]
    ensures |SimpleBranches(removed)| == 15 && Advances(SimpleBranches(removed), g, defs, 9)
  {
    var p := SimpleBranches(removed);
    assert p[9] == Let(9, SetStream(0, 2));
  }

  lemma SimpleBranchesAllEventsAdvance10(removed: set<EventId>, g: seq<Node>, defs: seq<map<VarId, nat>>)
    requires 0 !in removed && 1 !in removed
    requires |g| == 15
    requires g[9] == Node(SetStream(0, 2), OnDevice(0, 2), [])
    requires g[10] == Node(Atan(X), OnDevice(0, 2), [])
    requires |defs| == 16
    requires defs[10] == map[0 := 0, 1 := 1, 2 := 2, 3 := 3, 4 := 4, 5 := 5, 6 := 6, 7 := 7, 8 := 8, 9 := 9]
    requires defs[11] == map[0 := 0, 1 := 1, 2 := 2, 3 := 3, 4 := 4, 5 := 5, 6 := 6, 7 := 7, 8 := 8, 9 := 9, 10 := 10]
    ensures |SimpleBranches(removed)| == 15 && Advances(SimpleBranches(removed), g, defs, 10)
  {
    var p := SimpleBranches(removed);
    assert p[10] == Let(10, Atan(X));
  }

  lemma SimpleBranchesAllEventsAdvance11(removed: set<EventId>, g: seq<Node>, defs: seq<map<VarId, nat>>)
    requires 0 !in removed && 1 !in removed
    requires |g| == 15
    requires g[10] == Node(Atan(X), OnDevice(0, 2), [])
    requires g[11] == Node(WaitEvent(1), OnDevice(0, 2), [])
    requires |defs| == 16
    requires defs[11] == map[0 := 0, 1 := 1, 2 := 2, 3 := 3, 4 := 4, 5 := 5, 6 := 6, 7 := 7, 8 := 8, 9 := 9, 10 := 10]
    requires defs[12] == map[0 := 0, 1 := 1, 2 := 2, 3 := 3, 4 := 4, 5 := 5, 6 := 6, 7 := 7, 8 := 8, 9 := 9, 10 := 10, 11 := 11]
    ensures |SimpleBranches(removed)| == 15 && Advances(SimpleBranches(removed), g, defs, 11)
  {
    var p := SimpleBranches(removed);
    assert p[11] == Let(11, WaitEvent(1));
  }

  lemma SimpleBranchesAllEventsAdvance12(removed: set<EventId>, g: seq<Node>, defs: seq<map<VarId, nat>>)
    requires 0 !in removed && 1 !in removed
    requires |g| == 15
    requires g[11] == Node(WaitEvent(1), OnDevice(0, 2), [])
    requires g[12] == Node(WaitEvent(0), OnDevice(0, 2), [])
    requires |defs| == 16
    requires defs[12] == map[0 := 0, 1 := 1, 2 := 2, 3 := 3, 4 := 4, 5 := 5, 6 := 6, 7 := 7, 8 := 8, 9 := 9, 10 := 10, 11 := 11]
    requires defs[13] == map[0 := 0, 1 := 1, 2 := 2, 3 := 3, 4 := 4, 5 := 5, 6 := 6, 7 := 7, 8 := 8, 9 := 9, 10 := 10, 11 := 11, 12 := 12]
    ensures |SimpleBranches(removed)| == 15 && Advances(SimpleBranches(removed), g, defs, 12)
  {
    var p := SimpleBranches(removed);
    assert p[12] == Let(12, WaitEvent(0));
  }

  lemma SimpleBranchesAllEventsAdvance13(removed: set<EventId>, g: seq<Node>, defs: seq<map<VarId, nat>>)
    requires 0 !in removed && 1 !in removed
    requires |g| == 15
    requires g[12] == Node(WaitEvent(0), OnDevice(0, 2), [])
    requires g[13] == Node(MakeTuple([LetVar(10), LetVar(7), LetVar(3)]), OnDevice(0, 2), [10, 7, 3])
    requires |defs| == 16
    requires defs[13] == map[0 := 0, 1 := 1, 2 := 2, 3 := 3, 4 := 4, 5 := 5, 6 := 6, 7 := 7, 8 := 8, 9 := 9, 10 := 10, 11 := 11, 12 := 12]
    requires defs[14] == map[0 := 0, 1 := 1, 2 := 2, 3 := 3, 4 := 4, 5 := 5, 6 := 6, 7 := 7, 8 := 8, 9 := 9, 10 := 10, 11 := 11, 12 := 12, 13 := 13]
    ensures |SimpleBranches(removed)| == 15 && Advances(SimpleBranches(removed), g, defs, 13)
  {
    var p := SimpleBranches(removed);
    assert p[13] == Let(13, MakeTuple([LetVar(10), LetVar(7), LetVar(3)]));
  }

  lemma SimpleBranchesAllEventsAdvance14(removed: set<EventId>, g: seq<Node>, defs: seq<map<VarId, nat>>)
    requires 0 !in removed && 1 !in removed
    requires |g| == 15
    requires g[13] == Node(MakeTuple([LetVar(10), LetVar(7), LetVar(3)]), OnDevice(0, 2), [10, 7, 3])
    requires g[14] == Node(Concatenate(LetVar(13), 0), OnDevice(0, 2), [13])
    requires |defs| == 16
    requires defs[14] == map[0 := 0, 1 := 1, 2 := 2, 3 := 3, 4 := 4, 5 := 5, 6 := 6, 7 := 7, 8 := 8, 9 := 9, 10 := 10, 11 := 11, 12 := 12, 13 := 13]
    requires defs[15] == map[0 := 0, 1 := 1, 2 := 2, 3 := 3, 4 := 4, 5 := 5, 6 := 6, 7 := 7, 8 := 8, 9 := 9, 10 := 10, 11 := 11, 12 := 12, 13 := 13, 14 := 14]
    ensures |SimpleBranches(removed)| == 15 && Advances(SimpleBranches(removed), g, defs, 14)
  {
    var p := SimpleBranches(removed);
    assert p[14] == Let(14, Concatenate(LetVar(13), 0));
  }

  lemma SimpleBranchesAllEventsExtract0(removed: set<EventId>, g: seq<Node>, defs: seq<map<VarId, nat>>)
    requires 0 !in removed && 1 !in removed
    requires SimpleBranchesAllEventsShape(g) && SimpleBranchesAllEventsTables(defs)
    ensures |SimpleBranches(removed)| == 15
    ensures forall j :: 0 <= j < 5 ==> Advances(SimpleBranches(removed), g, defs, j)
  {
    SimpleBranchesAllEventsAdvance0(removed, g, defs);
    SimpleBranchesAllEventsAdvance1(removed, g, defs);
    SimpleBranchesAllEventsAdvance2(removed, g, defs);
    SimpleBranchesAllEventsAdvance3(removed, g, defs);
    SimpleBranchesAllEventsAdvance4(removed, g, defs);
    forall j | 0 <= j < 5 ensures Advances(SimpleBranches(removed), g, defs, j) {
      assert j == 0 || j == 1 || j == 2 || j == 3 || j == 4;
    }
  }

  lemma SimpleBranchesAllEventsExtract5(removed: set<EventId>, g: seq<Node>, defs: seq<map<VarId, nat>>)
    requires 0 !in removed && 1 !in removed
    requires SimpleBranchesAllEventsShape(g) && SimpleBranchesAllEventsTables(defs)
    ensures |SimpleBranches(removed)| == 15
    ensures forall j :: 5 <= j < 10 ==> Advances(SimpleBranches(removed), g, defs, j)
  {
    SimpleBranchesAllEventsAdvance5(removed, g, defs);
    SimpleBranchesAllEventsAdvance6(removed, g, defs);
    SimpleBranchesAllEventsAdvance7(removed, g, defs);
    SimpleBranchesAllEventsAdvance8(removed, g, defs);
    SimpleBranchesAllEventsAdvance9(removed, g, defs);
    forall j | 5 <= j < 10 ensures Advances(SimpleBranches(removed), g, defs, j) {
      assert j == 5 || j == 6 || j == 7 || j == 8 || j == 9;
    }
  }

  lemma SimpleBranchesAllEventsExtract10(removed: set<EventId>, g: seq<Node>, defs: seq<map<VarId, nat>>)
    requires 0 !in removed && 1 !in removed
    requires SimpleBranchesAllEventsShape(g) && SimpleBranchesAllEventsTables(defs)
    ensures |SimpleBranches(removed)| == 15
    ensures forall j :: 10 <= j < 15 ==> Advances(SimpleBranches(removed), g, defs, j)
  {
    SimpleBranchesAllEventsAdvance10(removed, g, defs);
    SimpleBranchesAllEventsAdvance11(removed, g, defs);
    SimpleBranchesAllEventsAdvance12(removed, g, defs);
    SimpleBranchesAllEventsAdvance13(removed, g, defs);
    SimpleBranchesAllEventsAdvance14(removed, g, defs);
    forall j | 10 <= j < 15 ensures Advances(SimpleBranches(removed), g, defs, j) {
      assert j == 10 || j == 11 || j == 12 || j == 13 || j == 14;
    }
  }

  lemma SimpleBranchesAllEventsNodesShape0()
    ensures |SimpleBranchesAllEventsNodes()| == 15 && SimpleBranchesAllEventsShape0(SimpleBranchesAllEventsNodes())
  {
  }

  lemma SimpleBranchesAllEventsNodesShape5()
    ensures |SimpleBranchesAllEventsNodes()| == 15 && SimpleBranchesAllEventsShape5(SimpleBranchesAllEventsNodes())
  {
  }

  lemma SimpleBranchesAllEventsNodesShape10()
    ensures |SimpleBranchesAllEventsNodes()| == 15 && SimpleBranchesAllEventsShape10(SimpleBranchesAllEventsNodes())
  {
  }

  lemma SimpleBranchesAllEventsDefsTables0()
    ensures |SimpleBranchesAllEventsDefs()| == 16 && SimpleBranchesAllEventsTables0(SimpleBranchesAllEventsDefs())
  {
  }

  lemma SimpleBranchesAllEventsDefsTables5()
    ensures |SimpleBranchesAllEventsDefs()| == 16 && SimpleBranchesAllEventsTables5(SimpleBranchesAllEventsDefs())
  {
  }

  lemma SimpleBranchesAllEventsDefsTables10()
    ensures |SimpleBranchesAllEventsDefs()| == 16 && SimpleBranchesAllEventsTables10(SimpleBranchesAllEventsDefs())
  {
  }

  /** `Extract` on `SimpleBranches(removed)` yields `SimpleBranchesAllEventsNodes()`. */
  lemma SimpleBranchesAllEventsGraph(removed: set<EventId>) returns (g: seq<Node>)
    requires 0 !in removed && 1 !in removed
    ensures Extract(SimpleBranches(removed)) == Ok(g) && SimpleBranchesAllEventsShape(g)
  {
    g := SimpleBranchesAllEventsNodes();
    var defs := SimpleBranchesAllEventsDefs();
    var p := SimpleBranches(removed);
    SimpleBranchesAllEventsNodesShape0();
    SimpleBranchesAllEventsNodesShape5();
    SimpleBranchesAllEventsNodesShape10();
    SimpleBranchesAllEventsDefsTables0();
    SimpleBranchesAllEventsDefsTables5();
    SimpleBranchesAllEventsDefsTables10();
    SimpleBranchesAllEventsExtract0(removed, g, defs);
    SimpleBranchesAllEventsExtract5(removed, g, defs);
    SimpleBranchesAllEventsExtract10(removed, g, defs);
    ExtractReplays(p, g, defs, 0);
    assert g[..0] == [];
  }

  lemma SimpleBranchesAllEventsSimulate0(g: seq<Node>)
    requires WellFormed(g) && |g| == 15
    requires g[0] == Node(SetStream(0, 0), OnDevice(0, 0), [])
    ensures SimulateFrom(g, 0, SimpleBranchesAllEventsState0()) == SimulateFrom(g, 1, SimpleBranchesAllEventsState1())
  {
    assert Step(g, 0, SimpleBranchesAllEventsState0()) == Ok(SimpleBranchesAllEventsState1());
    SimulateLink(g, 0, SimpleBranchesAllEventsState0(), SimpleBranchesAllEventsState1());
  }

  lemma SimpleBranchesAllEventsSimulate1(g: seq<Node>)
    requires WellFormed(g) && |g| == 15
    requires g[1] == Node(Atan(X), OnDevice(0, 0), [])
    ensures SimulateFrom(g, 1, SimpleBranchesAllEventsState1()) == SimulateFrom(g, 2, SimpleBranchesAllEventsState2())
  {
    ReadHazardsSmall(g, g[1].deps, 1, g[1].stream, ClockOf(SimpleBranchesAllEventsState1(), g[1].stream));
    assert SimpleBranchesAllEventsState1().hazards + ReadHazards(g, g[1].deps, 1, g[1].stream, ClockOf(SimpleBranchesAllEventsState1(), g[1].stream)) == SimpleBranchesAllEventsState2().hazards;
    assert Step(g, 1, SimpleBranchesAllEventsState1()) == Ok(SimpleBranchesAllEventsState2());
    SimulateLink(g, 1, SimpleBranchesAllEventsState1(), SimpleBranchesAllEventsState2());
  }

  lemma SimpleBranchesAllEventsSimulate2(g: seq<Node>)
    requires WellFormed(g) && |g| == 15
    requires g[1] == Node(Atan(X), OnDevice(0, 0), [])
    requires g[2] == Node(Atan(LetVar(1)), OnDevice(0, 0), [1])
    ensures SimulateFrom(g, 2, SimpleBranchesAllEventsState2()) == SimulateFrom(g, 3, SimpleBranchesAllEventsState3())
  {
    ReadHazardsSmall(g, g[2].deps, 2, g[2].stream, ClockOf(SimpleBranchesAllEventsState2(), g[2].stream));
    assert SimpleBranchesAllEventsState2().hazards + ReadHazards(g, g[2].deps, 2, g[2].stream, ClockOf(SimpleBranchesAllEventsState2(), g[2].stream)) == SimpleBranchesAllEventsState3().hazards;
    assert Step(g, 2, SimpleBranchesAllEventsState2()) == Ok(SimpleBranchesAllEventsState3());
    SimulateLink(g, 2, SimpleBranchesAllEventsState2(), SimpleBranchesAllEventsState3());
  }

  lemma SimpleBranchesAllEventsSimulate3(g: seq<Node>)
    requires WellFormed(g) && |g| == 15
    requires g[2] == Node(Atan(LetVar(1)), OnDevice(0, 0), [1])
    requires g[3] == Node(Atan(LetVar(2)), OnDevice(0, 0), [2])
    ensures SimulateFrom(g, 3, SimpleBranchesAllEventsState3()) == SimulateFrom(g, 4, SimpleBranchesAllEventsState4())
  {
    ReadHazardsSmall(g, g[3].deps, 3, g[3].stream, ClockOf(SimpleBranchesAllEventsState3(), g[3].stream));
    assert SimpleBranchesAllEventsState3().hazards + ReadHazards(g, g[3].deps, 3, g[3].stream, ClockOf(SimpleBranchesAllEventsState3(), g[3].stream)) == SimpleBranchesAllEventsState4().hazards;
    assert Step(g, 3, SimpleBranchesAllEventsState3()) == Ok(SimpleBranchesAllEventsState4());
    SimulateLink(g, 3, SimpleBranchesAllEventsState3(), SimpleBranchesAllEventsState4());
  }

  lemma SimpleBranchesAllEventsSimulate4(g: seq<Node>)
    requires WellFormed(g) && |g| == 15
    requires g[4] == Node(AddEvent(0), OnDevice(0, 0), [])
    ensures SimulateFrom(g, 4, SimpleBranchesAllEventsState4()) == SimulateFrom(g, 5, SimpleBranchesAllEventsState5())
  {
    assert Step(g, 4, SimpleBranchesAllEventsState4()) == Ok(SimpleBranchesAllEventsState5());
    SimulateLink(g, 4, SimpleBranchesAllEventsState4(), SimpleBranchesAllEventsState5());
  }

  lemma SimpleBranchesAllEventsSimulate5(g: seq<Node>)
    requires WellFormed(g) && |g| == 15
    requires g[5] == Node(SetStream(0, 1), OnDevice(0, 1), [])
    ensures SimulateFrom(g, 5, SimpleBranchesAllEventsState5()) == SimulateFrom(g, 6, SimpleBranchesAllEventsState6())
  {
    assert Step(g, 5, SimpleBranchesAllEventsState5()) == Ok(SimpleBranchesAllEventsState6());
    SimulateLink(g, 5, SimpleBranchesAllEventsState5(), SimpleBranchesAllEventsState6());
  }

  lemma SimpleBranchesAllEventsSimulate6(g: seq<Node>)
    requires WellFormed(g) && |g| == 15
    requires g[6] == Node(Atan(X), OnDevice(0, 1), [])
    ensures SimulateFrom(g, 6, SimpleBranchesAllEventsState6()) == SimulateFrom(g, 7, SimpleBranchesAllEventsState7())
  {
    ReadHazardsSmall(g, g[6].deps, 6, g[6].stream, ClockOf(SimpleBranchesAllEventsState6(), g[6].stream));
    assert SimpleBranchesAllEventsState6().hazards + ReadHazards(g, g[6].deps, 6, g[6].stream, ClockOf(SimpleBranchesAllEventsState6(), g[6].stream)) == SimpleBranchesAllEventsState7().hazards;
    assert Step(g, 6, SimpleBranchesAllEventsState6()) == Ok(SimpleBranchesAllEventsState7());
    SimulateLink(g, 6, SimpleBranchesAllEventsState6(), SimpleBranchesAllEventsState7());
  }

  lemma SimpleBranchesAllEventsSimulate7(g: seq<Node>)
    requires WellFormed(g) && |g| == 15
    requires g[6] == Node(Atan(X), OnDevice(0, 1), [])
    requires g[7] == Node(Atan(LetVar(6)), OnDevice(0, 1), [6])
    ensures SimulateFrom(g, 7, SimpleBranchesAllEventsState7()) == SimulateFrom(g, 8, SimpleBranchesAllEventsState8())
  {
    ReadHazardsSmall(g, g[7].deps, 7, g[7].stream, ClockOf(SimpleBranchesAllEventsState7(), g[7].stream));
    assert SimpleBranchesAllEventsState7().hazards + ReadHazards(g, g[7].deps, 7, g[7].stream, ClockOf(SimpleBranchesAllEventsState7(), g[7].stream)) == SimpleBranchesAllEventsState8().hazards;
    assert Step(g, 7, SimpleBranchesAllEventsState7()) == Ok(SimpleBranchesAllEventsState8());
    SimulateLink(g, 7, SimpleBranchesAllEventsState7(), SimpleBranchesAllEventsState8());
  }

  lemma SimpleBranchesAllEventsSimulate8(g: seq<Node>)
    requires WellFormed(g) && |g| == 15
    requires g[8] == Node(AddEvent(1), OnDevice(0, 1), [])
    ensures SimulateFrom(g, 8, SimpleBranchesAllEventsState8()) == SimulateFrom(g, 9, SimpleBranchesAllEventsState9())
  {
    assert Step(g, 8, SimpleBranchesAllEventsState8()) == Ok(SimpleBranchesAllEventsState9());
    SimulateLink(g, 8, SimpleBranchesAllEventsState8(), SimpleBranchesAllEventsState9());
  }

  lemma SimpleBranchesAllEventsSimulate9(g: seq<Node>)
    requires WellFormed(g) && |g| == 15
    requires g[9] == Node(SetStream(0, 2), OnDevice(0, 2), [])
    ensures SimulateFrom(g, 9, SimpleBranchesAllEventsState9()) == SimulateFrom(g, 10, SimpleBranchesAllEventsState10())
  {
    assert Step(g, 9, SimpleBranchesAllEventsState9()) == Ok(SimpleBranchesAllEventsState10());
    SimulateLink(g, 9, SimpleBranchesAllEventsState9(), SimpleBranchesAllEventsState10());
  }

  lemma SimpleBranchesAllEventsSimulate10(g: seq<Node>)
    requires WellFormed(g) && |g| == 15
    requires g[10] == Node(Atan(X), OnDevice(0, 2), [])
    ensures SimulateFrom(g, 10, SimpleBranchesAllEventsState10()) == SimulateFrom(g, 11, SimpleBranchesAllEventsState11())
  {
    ReadHazardsSmall(g, g[10].deps, 10, g[10].stream, ClockOf(SimpleBranchesAllEventsState10(), g[10].stream));
    assert SimpleBranchesAllEventsState10().hazards + ReadHazards(g, g[10].deps, 10, g[10].stream, ClockOf(SimpleBranchesAllEventsState10(), g[10].stream)) == SimpleBranchesAllEventsState11().hazards;
    assert Step(g, 10, SimpleBranchesAllEventsState10()) == Ok(SimpleBranchesAllEventsState11());
    SimulateLink(g, 10, SimpleBranchesAllEventsState10(), SimpleBranchesAllEventsState11());
  }

  lemma SimpleBranchesAllEventsSimulate11(g: seq<Node>)
    requires WellFormed(g) && |g| == 15
    requires g[11] == Node(WaitEvent(1), OnDevice(0, 2), [])
    ensures SimulateFrom(g, 11, SimpleBranchesAllEventsState11()) == SimulateFrom(g, 12, SimpleBranchesAllEventsState12())
  {
    MergeIs(map[], Mark(OnDevice(0, 1), 8, map[]), map[OnDevice(0, 1) := 8]);
    assert Step(g, 11, SimpleBranchesAllEventsState11()) == Ok(SimpleBranchesAllEventsState12());
    SimulateLink(g, 11, SimpleBranchesAllEventsState11(), SimpleBranchesAllEventsState12());
  }

  lemma SimpleBranchesAllEventsSimulate12(g: seq<Node>)
    requires WellFormed(g) && |g| == 15
    requires g[12] == Node(WaitEvent(0), OnDevice(0, 2), [])
    ensures SimulateFrom(g, 12, SimpleBranchesAllEventsState12()) == SimulateFrom(g, 13, SimpleBranchesAllEventsState13())
  {
    MergeIs(map[OnDevice(0, 1) := 8], Mark(OnDevice(0, 0), 4, map[]), map[OnDevice(0, 0) := 4, OnDevice(0, 1) := 8]);
    assert Step(g, 12, SimpleBranchesAllEventsState12()) == Ok(SimpleBranchesAllEventsState13());
    SimulateLink(g, 12, SimpleBranchesAllEventsState12(), SimpleBranchesAllEventsState13());
  }

  lemma SimpleBranchesAllEventsSimulate13(g: seq<Node>)
    requires WellFormed(g) && |g| == 15
    requires g[3] == Node(Atan(LetVar(2)), OnDevice(0, 0), [2])
    requires g[7] == Node(Atan(LetVar(6)), OnDevice(0, 1), [6])
    requires g[10] == Node(Atan(X), OnDevice(0, 2), [])
    requires g[13] == Node(MakeTuple([LetVar(10), LetVar(7), LetVar(3)]), OnDevice(0, 2), [10, 7, 3])
    ensures SimulateFrom(g, 13, SimpleBranchesAllEventsState13()) == SimulateFrom(g, 14, SimpleBranchesAllEventsState14())
  {
    ReadHazardsSmall(g, g[13].deps, 13, g[13].stream, ClockOf(SimpleBranchesAllEventsState13(), g[13].stream));
    assert SimpleBranchesAllEventsState13().hazards + ReadHazards(g, g[13].deps, 13, g[13].stream, ClockOf(SimpleBranchesAllEventsState13(), g[13].stream)) == SimpleBranchesAllEventsState14().hazards;
    assert Step(g, 13, SimpleBranchesAllEventsState13()) == Ok(SimpleBranchesAllEventsState14());
    SimulateLink(g, 13, SimpleBranchesAllEventsState13(), SimpleBranchesAllEventsState14());
  }

  lemma SimpleBranchesAllEventsSimulate14(g: seq<Node>)
    requires WellFormed(g) && |g| == 15
    requires g[13] == Node(MakeTuple([LetVar(10), LetVar(7), LetVar(3)]), OnDevice(0, 2), [10, 7, 3])
    requires g[14] == Node(Concatenate(LetVar(13), 0), OnDevice(0, 2), [13])
    ensures SimulateFrom(g, 14, SimpleBranchesAllEventsState14()) == SimulateFrom(g, 15, SimpleBranchesAllEventsState15())
  {
    ReadHazardsSmall(g, g[14].deps, 14, g[14].stream, ClockOf(SimpleBranchesAllEventsState14(), g[14].stream));
    assert SimpleBranchesAllEventsState14().hazards + ReadHazards(g, g[14].deps, 14, g[14].stream, ClockOf(SimpleBranchesAllEventsState14(), g[14].stream)) == SimpleBranchesAllEventsState15().hazards;
    assert Step(g, 14, SimpleBranchesAllEventsState14()) == Ok(SimpleBranchesAllEventsState15());
    SimulateLink(g, 14, SimpleBranchesAllEventsState14(), SimpleBranchesAllEventsState15());
  }

  /** With both events in place the three branches join safely. */
  lemma Verdict(removed: set<EventId>)
    requires 0 !in removed && 1 !in removed
    ensures Verify(SimpleBranches(removed)) == Ok(())
  {
    var g := SimpleBranchesAllEventsGraph(removed);
    SimpleBranchesAllEventsSimulate0(g);
    SimpleBranchesAllEventsSimulate1(g);
    SimpleBranchesAllEventsSimulate2(g);
    SimpleBranchesAllEventsSimulate3(g);
    SimpleBranchesAllEventsSimulate4(g);
    SimpleBranchesAllEventsSimulate5(g);
    SimpleBranchesAllEventsSimulate6(g);
    SimpleBranchesAllEventsSimulate7(g);
    SimpleBranchesAllEventsSimulate8(g);
    SimpleBranchesAllEventsSimulate9(g);
    SimpleBranchesAllEventsSimulate10(g);
    SimpleBranchesAllEventsSimulate11(g);
    SimpleBranchesAllEventsSimulate12(g);
    SimpleBranchesAllEventsSimulate13(g);
    SimpleBranchesAllEventsSimulate14(g);
    SimulateDone(g, SimpleBranchesAllEventsState15());
  }
}
