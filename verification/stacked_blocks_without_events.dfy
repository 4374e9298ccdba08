/**
 * The verifier's verdict on `StackedBlocks(removed)` for one choice of removed events.
 * Without any event every cross-stream read is reported, in program order.
 */
module StackedBlocksWithoutEvents {
  import opened Results
  import opened ScheduleVerifier
  import opened ScheduleTheory
  import opened SchedulePrograms

  /** The graph `Extract` builds for `StackedBlocks(removed)`. */
  function StackedBlocksWithoutEventsNodes(): seq<Node>
  {
    [ Node(SetStream(0, 0), OnDevice(0, 0), [])
    , Node(Atan(X), OnDevice(0, 0), [])
    , Node(Atan(LetVar(1)), OnDevice(0, 0), [1])
    , Node(SetStream(0, 1), OnDevice(0, 1), [])
    , Node(Atan(X), OnDevice(0, 1), [])
    , Node(SetStream(0, 2), OnDevice(0, 2), [])
    , Node(Atan(X), OnDevice(0, 2), [])
    , Node(MakeTuple([LetVar(8), LetVar(5), LetVar(2)]), OnDevice(0, 2), [6, 4, 2])
    , Node(Concatenate(LetVar(11), 0), OnDevice(0, 2), [7])
    , Node(Atan(LetVar(12)), OnDevice(0, 2), [8])
    , Node(Atan(LetVar(14)), OnDevice(0, 2), [9])
    , Node(SetStream(0, 1), OnDevice(0, 1), [])
    , Node(Atan(LetVar(12)), OnDevice(0, 1), [8])
    , Node(SetStream(0, 0), OnDevice(0, 0), [])
    , Node(Atan(LetVar(12)), OnDevice(0, 0), [8])
    , Node(MakeTuple([LetVar(23), LetVar(19), LetVar(15)]), OnDevice(0, 0), [14, 12, 10])
    , Node(Concatenate(LetVar(26), 0), OnDevice(0, 0), [15]) ]
  }

  /** `g` is `StackedBlocksWithoutEventsNodes()`, position by position. */
  predicate StackedBlocksWithoutEventsShape(g: seq<Node>)
  {
    && |g| == 17
    && StackedBlocksWithoutEventsShape0(g)
    && StackedBlocksWithoutEventsShape5(g)
    && StackedBlocksWithoutEventsShape10(g)
    && StackedBlocksWithoutEventsShape15(g)
  }

  predicate StackedBlocksWithoutEventsShape0(g: seq<Node>)
    requires |g| == 17
  {
    && g[0] == Node(SetStream(0, 0), OnDevice(0, 0), [])
    && g[1] == Node(Atan(X), OnDevice(0, 0), [])
    && g[2] == Node(Atan(LetVar(1)), OnDevice(0, 0), [1])
    && g[3] == Node(SetStream(0, 1), OnDevice(0, 1), [])
    && g[4] == Node(Atan(X), OnDevice(0, 1), [])
  }

  predicate StackedBlocksWithoutEventsShape5(g: seq<Node>)
    requires |g| == 17
  {
    && g[5] == Node(SetStream(0, 2), OnDevice(0, 2), [])
    && g[6] == Node(Atan(X), OnDevice(0, 2), [])
    && g[7] == Node(MakeTuple([LetVar(8), LetVar(5), LetVar(2)]), OnDevice(0, 2), [6, 4, 2])
    && g[8] == Node(Concatenate(LetVar(11), 0), OnDevice(0, 2), [7])
    && g[9] == Node(Atan(LetVar(12)), OnDevice(0, 2), [8])
  }

  predicate StackedBlocksWithoutEventsShape10(g: seq<Node>)
    requires |g| == 17
  {
    && g[10] == Node(Atan(LetVar(14)), OnDevice(0, 2), [9])
    && g[11] == Node(SetStream(0, 1), OnDevice(0, 1), [])
    && g[12] == Node(Atan(LetVar(12)), OnDevice(0, 1), [8])
    && g[13] == Node(SetStream(0, 0), OnDevice(0, 0), [])
    && g[14] == Node(Atan(LetVar(12)), OnDevice(0, 0), [8])
  }

  predicate StackedBlocksWithoutEventsShape15(g: seq<Node>)
    requires |g| == 17
  {
    && g[15] == Node(MakeTuple([LetVar(23), LetVar(19), LetVar(15)]), OnDevice(0, 0), [14, 12, 10])
    && g[16] == Node(Concatenate(LetVar(26), 0), OnDevice(0, 0), [15])
  }

  /** The variable table before each position of `StackedBlocks(removed)`. */
  function StackedBlocksWithoutEventsDefs(): seq<map<VarId, nat>>
  {
    [ map[]
    , map[0 := 0]
    , map[0 := 0, 1 := 1]
    , map[0 := 0, 1 := 1, 2 := 2]
    , map[0 := 0, 1 := 1, 2 := 2, 4 := 3]
    , map[0 := 0, 1 := 1, 2 := 2, 4 := 3, 5 := 4]
    , map[0 := 0, 1 := 1, 2 := 2, 4 := 3, 5 := 4, 7 := 5]
    , map[0 := 0, 1 := 1, 2 := 2, 4 := 3, 5 := 4, 7 := 5, 8 := 6]
    , map[0 := 0, 1 := 1, 2 := 2, 4 := 3, 5 := 4, 7 := 5, 8 := 6, 11 := 7]
    , map[0 := 0, 1 := 1, 2 := 2, 4 := 3, 5 := 4, 7 := 5, 8 := 6, 11 := 7, 12 := 8]
    , map[0 := 0, 1 := 1, 2 := 2, 4 := 3, 5 := 4, 7 := 5, 8 := 6, 11 := 7, 12 := 8, 14 := 9]
    , map[0 := 0, 1 := 1, 2 := 2, 4 := 3, 5 := 4, 7 := 5, 8 := 6, 11 := 7, 12 := 8, 14 := 9, 15 := 10]
    , map[0 := 0, 1 := 1, 2 := 2, 4 := 3, 5 := 4, 7 := 5, 8 := 6, 11 := 7, 12 := 8, 14 := 9, 15 := 10, 17 := 11]
    , map[0 := 0, 1 := 1, 2 := 2, 4 := 3, 5 := 4, 7 := 5, 8 := 6, 11 := 7, 12 := 8, 14 := 9, 15 := 10, 17 := 11, 19 := 12]
    , map[0 := 0, 1 := 1, 2 := 2, 4 := 3, 5 := 4, 7 := 5, 8 := 6, 11 := 7, 12 := 8, 14 := 9, 15 := 10, 17 := 11, 19 := 12, 21 := 13]
    , map[0 := 0, 1 := 1, 2 := 2, 4 := 3, 5 := 4, 7 := 5, 8 := 6, 11 := 7, 12 := 8, 14 := 9, 15 := 10, 17 := 11, 19 := 12, 21 := 13, 23 := 14]
    , map[0 := 0, 1 := 1, 2 := 2, 4 := 3, 5 := 4, 7 := 5, 8 := 6, 11 := 7, 12 := 8, 14 := 9, 15 := 10, 17 := 11, 19 := 12, 21 := 13, 23 := 14, 26 := 15]
    , map[0 := 0, 1 := 1, 2 := 2, 4 := 3, 5 := 4, 7 := 5, 8 := 6, 11 := 7, 12 := 8, 14 := 9, 15 := 10, 17 := 11, 19 := 12, 21 := 13, 23 := 14, 26 := 15, 27 := 16] ]
  }

  /** `defs` is `StackedBlocksWithoutEventsDefs()`, position by position. */
  predicate StackedBlocksWithoutEventsTables(defs: seq<map<VarId, nat>>)
  {
    && |defs| == 18
    && StackedBlocksWithoutEventsTables0(defs)
    && StackedBlocksWithoutEventsTables5(defs)
    && StackedBlocksWithoutEventsTables10(defs)
    && StackedBlocksWithoutEventsTables15(defs)
  }

  predicate StackedBlocksWithoutEventsTables0(defs: seq<map<VarId, nat>>)
    requires |defs| == 18
  {
    && defs[0] == map[]
    && defs[1] == map[0 := 0]
    && defs[2] == map[0 := 0, 1 := 1]
    && defs[3] == map[0 := 0, 1 := 1, 2 := 2]
    && defs[4] == map[0 := 0, 1 := 1, 2 := 2, 4 := 3]
  }

  predicate StackedBlocksWithoutEventsTables5(defs: seq<map<VarId, nat>>)
    requires |defs| == 18
  {
    && defs[5] == map[0 := 0, 1 := 1, 2 := 2, 4 := 3, 5 := 4]
    && defs[6] == map[0 := 0, 1 := 1, 2 := 2, 4 := 3, 5 := 4, 7 := 5]
    && defs[7] == map[0 := 0, 1 := 1, 2 := 2, 4 := 3, 5 := 4, 7 := 5, 8 := 6]
    && defs[8] == map[0 := 0, 1 := 1, 2 := 2, 4 := 3, 5 := 4, 7 := 5, 8 := 6, 11 := 7]
    && defs[9] == map[0 := 0, 1 := 1, 2 := 2, 4 := 3, 5 := 4, 7 := 5, 8 := 6, 11 := 7, 12 := 8]
  }

  predicate StackedBlocksWithoutEventsTables10(defs: seq<map<VarId, nat>>)
    requires |defs| == 18
  {
    && defs[10] == map[0 := 0, 1 := 1, 2 := 2, 4 := 3, 5 := 4, 7 := 5, 8 := 6, 11 := 7, 12 := 8, 14 := 9]
    && defs[11] == map[0 := 0, 1 := 1, 2 := 2, 4 := 3, 5 := 4, 7 := 5, 8 := 6, 11 := 7, 12 := 8, 14 := 9, 15 := 10]
    && defs[12] == map[0 := 0, 1 := 1, 2 := 2, 4 := 3, 5 := 4, 7 := 5, 8 := 6, 11 := 7, 12 := 8, 14 := 9, 15 := 10, 17 := 11]
    && defs[13] == map[0 := 0, 1 := 1, 2 := 2, 4 := 3, 5 := 4, 7 := 5, 8 := 6, 11 := 7, 12 := 8, 14 := 9, 15 := 10, 17 := 11, 19 := 12]
    && defs[14] == map[0 := 0, 1 := 1, 2 := 2, 4 := 3, 5 := 4, 7 := 5, 8 := 6, 11 := 7, 12 := 8, 14 := 9, 15 := 10, 17 := 11, 19 := 12, 21 := 13]
  }

  predicate StackedBlocksWithoutEventsTables15(defs: seq<map<VarId, nat>>)
    requires |defs| == 18
  {
    && defs[15] == map[0 := 0, 1 := 1, 2 := 2, 4 := 3, 5 := 4, 7 := 5, 8 := 6, 11 := 7, 12 := 8, 14 := 9, 15 := 10, 17 := 11, 19 := 12, 21 := 13, 23 := 14]
    && defs[16] == map[0 := 0, 1 := 1, 2 := 2, 4 := 3, 5 := 4, 7 := 5, 8 := 6, 11 := 7, 12 := 8, 14 := 9, 15 := 10, 17 := 11, 19 := 12, 21 := 13, 23 := 14, 26 := 15]
    && defs[17] == map[0 := 0, 1 := 1, 2 := 2, 4 := 3, 5 := 4, 7 := 5, 8 := 6, 11 := 7, 12 := 8, 14 := 9, 15 := 10, 17 := 11, 19 := 12, 21 := 13, 23 := 14, 26 := 15, 27 := 16]
  }

  function StackedBlocksWithoutEventsState0(): SimState
  {
    SimState(map[], map[], [])
  }

  function StackedBlocksWithoutEventsState1(): SimState
  {
    SimState(map[], map[], [])
  }

  function StackedBlocksWithoutEventsState2(): SimState
  {
    SimState(map[], map[], [])
  }

  function StackedBlocksWithoutEventsState3(): SimState
  {
    SimState(map[], map[], [])
  }

  function StackedBlocksWithoutEventsState4(): SimState
  {
    SimState(map[], map[], [])
  }

  function StackedBlocksWithoutEventsState5(): SimState
  {
    SimState(map[], map[], [])
  }

  function StackedBlocksWithoutEventsState6(): SimState
  {
    SimState(map[], map[], [])
  }

  function StackedBlocksWithoutEventsState7(): SimState
  {
    SimState(map[], map[], [])
  }

  function StackedBlocksWithoutEventsState8(): SimState
  {
    SimState(map[], map[], [Hazard(4, 7, OnDevice(0, 1), OnDevice(0, 2)), Hazard(2, 7, OnDevice(0, 0), OnDevice(0, 2))])
  }

  function StackedBlocksWithoutEventsState9(): SimState
  {
    SimState(map[], map[], [Hazard(4, 7, OnDevice(0, 1), OnDevice(0, 2)), Hazard(2, 7, OnDevice(0, 0), OnDevice(0, 2))])
  }

  function StackedBlocksWithoutEventsState10(): SimState
  {
    SimState(map[], map[], [Hazard(4, 7, OnDevice(0, 1), OnDevice(0, 2)), Hazard(2, 7, OnDevice(0, 0), OnDevice(0, 2))])
  }

  function StackedBlocksWithoutEventsState11(): SimState
  {
    SimState(map[], map[], [Hazard(4, 7, OnDevice(0, 1), OnDevice(0, 2)), Hazard(2, 7, OnDevice(0, 0), OnDevice(0, 2))])
  }

  function StackedBlocksWithoutEventsState12(): SimState
  {
    SimState(map[], map[], [Hazard(4, 7, OnDevice(0, 1), OnDevice(0, 2)), Hazard(2, 7, OnDevice(0, 0), OnDevice(0, 2))])
  }

  function StackedBlocksWithoutEventsState13(): SimState
  {
    SimState(map[], map[], [Hazard(4, 7, OnDevice(0, 1), OnDevice(0, 2)), Hazard(2, 7, OnDevice(0, 0), OnDevice(0, 2)), Hazard(8, 12, OnDevice(0, 2), OnDevice(0, 1))])
  }

  function StackedBlocksWithoutEventsState14(): SimState
  {
    SimState(map[], map[], [Hazard(4, 7, OnDevice(0, 1), OnDevice(0, 2)), Hazard(2, 7, OnDevice(0, 0), OnDevice(0, 2)), Hazard(8, 12, OnDevice(0, 2), OnDevice(0, 1))])
  }

  function StackedBlocksWithoutEventsState15(): SimState
  {
    SimState(map[], map[], [Hazard(4, 7, OnDevice(0, 1), OnDevice(0, 2)), Hazard(2, 7, OnDevice(0, 0), OnDevice(0, 2)), Hazard(8, 12, OnDevice(0, 2), OnDevice(0, 1)), Hazard(8, 14, OnDevice(0, 2), OnDevice(0, 0))])
  }

  function StackedBlocksWithoutEventsState16(): SimState
  {
    SimState(map[], map[], [Hazard(4, 7, OnDevice(0, 1), OnDevice(0, 2)), Hazard(2, 7, OnDevice(0, 0), OnDevice(0, 2)), Hazard(8, 12, OnDevice(0, 2), OnDevice(0, 1)), Hazard(8, 14, OnDevice(0, 2), OnDevice(0, 0)), Hazard(12, 15, OnDevice(0, 1), OnDevice(0, 0)), Hazard(10, 15, OnDevice(0, 2), OnDevice(0, 0))])
  }

  function StackedBlocksWithoutEventsState17(): SimState
  {
    SimState(map[], map[], [Hazard(4, 7, OnDevice(0, 1), OnDevice(0, 2)), Hazard(2, 7, OnDevice(0, 0), OnDevice(0, 2)), Hazard(8, 12, OnDevice(0, 2), OnDevice(0, 1)), Hazard(8, 14, OnDevice(0, 2), OnDevice(0, 0)), Hazard(12, 15, OnDevice(0, 1), OnDevice(0, 0)), Hazard(10, 15, OnDevice(0, 2), OnDevice(0, 0))])
  }

  lemma StackedBlocksWithoutEventsAdvance0(removed: set<EventId>, g: seq<Node>, defs: seq<map<VarId, nat>>)
    requires 0 in removed && 1 in removed && 2 in removed && 3 in removed && 4 in removed
    requires |g| == 17
    requires g[0] == Node(SetStream(0, 0), OnDevice(0, 0), [])
    requires |defs| == 18
    requires defs[0] == map[]
    requires defs[1] == map[0 := 0]
    ensures |StackedBlocks(removed)| == 17 && Advances(StackedBlocks(removed), g, defs, 0)
  {
    var p := StackedBlocks(removed);
    assert p[0] == Let(0, SetStream(0, 0));
  }

  lemma StackedBlocksWithoutEventsAdvance1(removed: set<EventId>, g: seq<Node>, defs: seq<map<VarId, nat>>)
    requires 0 in removed && 1 in removed && 2 in removed && 3 in removed && 4 in removed
    requires |g| == 17
    requires g[0] == Node(SetStream(0, 0), OnDevice(0, 0), [])
    requires g[1] == Node(Atan(X), OnDevice(0, 0), [])
    requires |defs| == 18
    requires defs[1] == map[0 := 0]
    requires defs[2] == map[0 := 0, 1 := 1]
    ensures |StackedBlocks(removed)| == 17 && Advances(StackedBlocks(removed), g, defs, 1)
  {
    var p := StackedBlocks(removed);
    assert p[1] == Let(1, Atan(X));
  }

  lemma StackedBlocksWithoutEventsAdvance2(removed: set<EventId>, g: seq<Node>, defs: seq<map<VarId, nat>>)
    requires 0 in removed && 1 in removed && 2 in removed && 3 in removed && 4 in removed
    requires |g| == 17
    requires g[1] == Node(Atan(X), OnDevice(0, 0), [])
    requires g[2] == Node(Atan(LetVar(1)), OnDevice(0, 0), [1])
    requires |defs| == 18
    requires defs[2] == map[0 := 0, 1 := 1]
    requires defs[3] == map[0 := 0, 1 := 1, 2 := 2]
    ensures |StackedBlocks(removed)| == 17 && Advances(StackedBlocks(removed), g, defs, 2)
  {
    var p := StackedBlocks(removed);
    assert p[2] == Let(2, Atan(LetVar(1)));
  }

  lemma StackedBlocksWithoutEventsAdvance3(removed: set<EventId>, g: seq<Node>, defs: seq<map<VarId, nat>>)
    requires 0 in removed && 1 in removed && 2 in removed && 3 in removed && 4 in removed
    requires |g| == 17
    requires g[2] == Node(Atan(LetVar(1)), OnDevice(0, 0), [1])
    requires g[3] == Node(SetStream(0, 1), OnDevice(0, 1), [])
    requires |defs| == 18
    requires defs[3] == map[0 := 0, 1 := 1, 2 := 2]
    requires defs[4] == map[0 := 0, 1 := 1, 2 := 2, 4 := 3]
    ensures |StackedBlocks(removed)| == 17 && Advances(StackedBlocks(removed), g, defs, 3)
  {
    var p := StackedBlocks(removed);
    assert p[3] == Let(4, SetStream(0, 1));
  }

  lemma StackedBlocksWithoutEventsAdvance4(removed: set<EventId>, g: seq<Node>, defs: seq<map<VarId, nat>>)
    requires 0 in removed && 1 in removed && 2 in removed && 3 in removed && 4 in removed
    requires |g| == 17
    requires g[3] == Node(SetStream(0, 1), OnDevice(0, 1), [])
    requires g[4] == Node(Atan(X), OnDevice(0, 1), [])
    requires |defs| == 18
    requires defs[4] == map[0 := 0, 1 := 1, 2 := 2, 4 := 3]
    requires defs[5] == map[0 := 0, 1 := 1, 2 := 2, 4 := 3, 5 := 4]
    ensures |StackedBlocks(removed)| == 17 && Advances(StackedBlocks(removed), g, defs, 4)
  {
    var p := StackedBlocks(removed);
    assert p[4] == Let(5, Atan(X));
  }

  lemma StackedBlocksWithoutEventsAdvance5(removed: set<EventId>, g: seq<Node>, defs: seq<map<VarId, nat>>)
    requires 0 in removed && 1 in removed && 2 in removed && 3 in removed && 4 in removed
    requires |g| == 17
    requires g[4] == Node(Atan(X), OnDevice(0, 1), [])
    requires g[5] == Node(SetStream(0, 2), OnDevice(0, 2), [])
    requires |defs| == 18
    requires defs[5] == map[0 := 0, 1 := 1, 2 := 2, 4 := 3, 5 := 4]
    requires defs[6] == map[0 := 0, 1 := 1, 2 := 2, 4 := 3, 5 := 4, 7 := 5]
    ensures |StackedBlocks(removed)| == 17 && Advances(StackedBlocks(removed), g, defs, 5)
  {
    var p := StackedBlocks(removed);
    assert p[5] == Let(7, SetStream(0, 2));
  }

  lemma StackedBlocksWithoutEventsAdvance6(removed: set<EventId>, g: seq<Node>, defs: seq<map<VarId, nat>>)
    requires 0 in removed && 1 in removed && 2 in removed && 3 in removed && 4 in removed
    requires |g| == 17
    requires g[5] == Node(SetStream(0, 2), OnDevice(0, 2), [])
    requires g[6] == Node(Atan(X), OnDevice(0, 2), [])
    requires |defs| == 18
    requires defs[6] == map[0 := 0, 1 := 1, 2 := 2, 4 := 3, 5 := 4, 7 := 5]
    requires defs[7] == map[0 := 0, 1 := 1, 2 := 2, 4 := 3, 5 := 4, 7 := 5, 8 := 6]
    ensures |StackedBlocks(removed)| == 17 && Advances(StackedBlocks(removed), g, defs, 6)
  {
    var p := StackedBlocks(removed);
    assert p[6] == Let(8, Atan(X));
  }

  lemma StackedBlocksWithoutEventsAdvance7(removed: set<EventId>, g: seq<Node>, defs: seq<map<VarId, nat>>)
    requires 0 in removed && 1 in removed && 2 in removed && 3 in removed && 4 in removed
    requires |g| == 17
    requires g[6] == Node(Atan(X), OnDevice(0, 2), [])
    requires g[7] == Node(MakeTuple([LetVar(8), LetVar(5), LetVar(2)]), OnDevice(0, 2), [6, 4, 2])
    requires |defs| == 18
    requires defs[7] == map[0 := 0, 1 := 1, 2 := 2, 4 := 3, 5 := 4, 7 := 5, 8 := 6]
    requires defs[8] == map[0 := 0, 1 := 1, 2 := 2, 4 := 3, 5 := 4, 7 := 5, 8 := 6, 11 := 7]
    ensures |StackedBlocks(removed)| == 17 && Advances(StackedBlocks(removed), g, defs, 7)
  {
    var p := StackedBlocks(removed);
    assert p[7] == Let(11, MakeTuple([LetVar(8), LetVar(5), LetVar(2)]));
  }

  lemma StackedBlocksWithoutEventsAdvance8(removed: set<EventId>, g: seq<Node>, defs: seq<map<VarId, nat>>)
    requires 0 in removed && 1 in removed && 2 in removed && 3 in removed && 4 in removed
    requires |g| == 17
    requires g[7] == Node(MakeTuple([LetVar(8), LetVar(5), LetVar(2)]), OnDevice(0, 2), [6, 4, 2])
    requires g[8] == Node(Concatenate(LetVar(11), 0), OnDevice(0, 2), [7])
    requires |defs| == 18
    requires defs[8] == map[0 := 0, 1 := 1, 2 := 2, 4 := 3, 5 := 4, 7 := 5, 8 := 6, 11 := 7]
    requires defs[9] == map[0 := 0, 1 := 1, 2 := 2, 4 := 3, 5 := 4, 7 := 5, 8 := 6, 11 := 7, 12 := 8]
    ensures |StackedBlocks(removed)| == 17 && Advances(StackedBlocks(removed), g, defs, 8)
  {
    var p := StackedBlocks(removed);
    assert p[8] == Let(12, Concatenate(LetVar(11), 0));
  }

  lemma StackedBlocksWithoutEventsAdvance9(removed: set<EventId>, g: seq<Node>, defs: seq<map<VarId, nat>>)
    requires 0 in removed && 1 in removed && 2 in removed && 3 in removed && 4 in removed
    requires |g| == 17
    requires g[8] == Node(Concatenate(LetVar(11), 0), OnDevice(0, 2), [7])
    requires g[9] == Node(Atan(LetVar(12)), OnDevice(0, 2), [8])
    requires |defs| == 18
    requires defs[9] == map[0 := 0, 1 := 1, 2 := 2, 4 := 3, 5 := 4, 7 := 5, 8 := 6, 11 := 7, 12 := 8]
    requires defs[10] == map[0 := 0, 1 := 1, 2 := 2, 4 := 3, 5 := 4, 7 := 5, 8 := 6, 11 := 7, 12 := 8, 14 := 9]
    ensures |StackedBlocks(removed)| == 17 && Advances(StackedBlocks(removed), g, defs, 9)
  {
    var p := StackedBlocks(removed);
    assert p[9] == Let(14, Atan(LetVar(12)));
  }

  lemma StackedBlocksWithoutEventsAdvance10(removed: set<EventId>, g: seq<Node>, defs: seq<map<VarId, nat>>)
    requires 0 in removed && 1 in removed && 2 in removed && 3 in removed && 4 in removed
    requires |g| == 17
    requires g[9] == Node(Atan(LetVar(12)), OnDevice(0, 2), [8])
    requires g[10] == Node(Atan(LetVar(14)), OnDevice(0, 2), [9])
    requires |defs| == 18
    requires defs[10] == map[0 := 0, 1 := 1, 2 := 2, 4 := 3, 5 := 4, 7 := 5, 8 := 6, 11 := 7, 12 := 8, 14 := 9]
    requires defs[11] == map[0 := 0, 1 := 1, 2 := 2, 4 := 3, 5 := 4, 7 := 5, 8 := 6, 11 := 7, 12 := 8, 14 := 9, 15 := 10]
    ensures |StackedBlocks(removed)| == 17 && Advances(StackedBlocks(removed), g, defs, 10)
  {
    var p := StackedBlocks(removed);
    assert p[10] == Let(15, Atan(LetVar(14)));
  }

  lemma StackedBlocksWithoutEventsAdvance11(removed: set<EventId>, g: seq<Node>, defs: seq<map<VarId, nat>>)
    requires 0 in removed && 1 in removed && 2 in removed && 3 in removed && 4 in removed
    requires |g| == 17
    requires g[10] == Node(Atan(LetVar(14)), OnDevice(0, 2), [9])
    requires g[11] == Node(SetStream(0, 1), OnDevice(0, 1), [])
    requires |defs| == 18
    requires defs[11] == map[0 := 0, 1 := 1, 2 := 2, 4 := 3, 5 := 4, 7 := 5, 8 := 6, 11 := 7, 12 := 8, 14 := 9, 15 := 10]
    requires defs[12] == map[0 := 0, 1 := 1, 2 := 2, 4 := 3, 5 := 4, 7 := 5, 8 := 6, 11 := 7, 12 := 8, 14 := 9, 15 := 10, 17 := 11]
    ensures |StackedBlocks(removed)| == 17 && Advances(StackedBlocks(removed), g, defs, 11)
  {
    var p := StackedBlocks(removed);
    assert p[11] == Let(17, SetStream(0, 1));
  }

  lemma StackedBlocksWithoutEventsAdvance12(removed: set<EventId>, g: seq<Node>, defs: seq<map<VarId, nat>>)
    requires 0 in removed && 1 in removed && 2 in removed && 3 in removed && 4 in removed
    requires |g| == 17
    requires g[11] == Node(SetStream(0, 1), OnDevice(0, 1), [])
    requires g[12] == Node(Atan(LetVar(12)), OnDevice(0, 1), [8])
    requires |defs| == 18
    requires defs[12] == map[0 := 0, 1 := 1, 2 := 2, 4 := 3, 5 := 4, 7 := 5, 8 := 6, 11 := 7, 12 := 8, 14 := 9, 15 := 10, 17 := 11]
    requires defs[13] == map[0 := 0, 1 := 1, 2 := 2, 4 := 3, 5 := 4, 7 := 5, 8 := 6, 11 := 7, 12 := 8, 14 := 9, 15 := 10, 17 := 11, 19 := 12]
    ensures |StackedBlocks(removed)| == 17 && Advances(StackedBlocks(removed), g, defs, 12)
  {
    var p := StackedBlocks(removed);
    assert p[12] == Let(19, Atan(LetVar(12)));
  }

  lemma StackedBlocksWithoutEventsAdvance13(removed: set<EventId>, g: seq<Node>, defs: seq<map<VarId, nat>>)
    requires 0 in removed && 1 in removed && 2 in removed && 3 in removed && 4 in removed
    requires |g| == 17
    requires g[12] == Node(Atan(LetVar(12)), OnDevice(0, 1), [8])
    requires g[13] == Node(SetStream(0, 0), OnDevice(0, 0), [])
    requires |defs| == 18
    requires defs[13] == map[0 := 0, 1 := 1, 2 := 2, 4 := 3, 5 := 4, 7 := 5, 8 := 6, 11 := 7, 12 := 8, 14 := 9, 15 := 10, 17 := 11, 19 := 12]
    requires defs[14] == map[0 := 0, 1 := 1, 2 := 2, 4 := 3, 5 := 4, 7 := 5, 8 := 6, 11 := 7, 12 := 8, 14 := 9, 15 := 10, 17 := 11, 19 := 12, 21 := 13]
    ensures |StackedBlocks(removed)| == 17 && Advances(StackedBlocks(removed), g, defs, 13)
  {
    var p := StackedBlocks(removed);
    assert p[13] == Let(21, SetStream(0, 0));
  }

  lemma StackedBlocksWithoutEventsAdvance14(removed: set<EventId>, g: seq<Node>, defs: seq<map<VarId, nat>>)
    requires 0 in removed && 1 in removed && 2 in removed && 3 in removed && 4 in removed
    requires |g| == 17
    requires g[13] == Node(SetStream(0, 0), OnDevice(0, 0), [])
    requires g[14] == Node(Atan(LetVar(12)), OnDevice(0, 0), [8])
    requires |defs| == 18
    requires defs[14] == map[0 := 0, 1 := 1, 2 := 2, 4 := 3, 5 := 4, 7 := 5, 8 := 6, 11 := 7, 12 := 8, 14 := 9, 15 := 10, 17 := 11, 19 := 12, 21 := 13]
    requires defs[15] == map[0 := 0, 1 := 1, 2 := 2, 4 := 3, 5 := 4, 7 := 5, 8 := 6, 11 := 7, 12 := 8, 14 := 9, 15 := 10, 17 := 11, 19 := 12, 21 := 13, 23 := 14]
    ensures |StackedBlocks(removed)| == 17 && Advances(StackedBlocks(removed), g, defs, 14)
  {
    var p := StackedBlocks(removed);
    assert p[14] == Let(23, Atan(LetVar(12)));
  }

  lemma StackedBlocksWithoutEventsAdvance15(removed: set<EventId>, g: seq<Node>, defs: seq<map<VarId, nat>>)
    requires 0 in removed && 1 in removed && 2 in removed && 3 in removed && 4 in removed
    requires |g| == 17
    requires g[14] == Node(Atan(LetVar(12)), OnDevice(0, 0), [8])
    requires g[15] == Node(MakeTuple([LetVar(23), LetVar(19), LetVar(15)]), OnDevice(0, 0), [14, 12, 10])
    requires |defs| == 18
    requires defs[15] == map[0 := 0, 1 := 1, 2 := 2, 4 := 3, 5 := 4, 7 := 5, 8 := 6, 11 := 7, 12 := 8, 14 := 9, 15 := 10, 17 := 11, 19 := 12, 21 := 13, 23 := 14]
    requires defs[16] == map[0 := 0, 1 := 1, 2 := 2, 4 := 3, 5 := 4, 7 := 5, 8 := 6, 11 := 7, 12 := 8, 14 := 9, 15 := 10, 17 := 11, 19 := 12, 21 := 13, 23 := 14, 26 := 15]
    ensures |StackedBlocks(removed)| == 17 && Advances(StackedBlocks(removed), g, defs, 15)
  {
    var p := StackedBlocks(removed);
    assert p[15] == Let(26, MakeTuple([LetVar(23), LetVar(19), LetVar(15)]));
  }

  lemma StackedBlocksWithoutEventsAdvance16(removed: set<EventId>, g: seq<Node>, defs: seq<map<VarId, nat>>)
    requires 0 in removed && 1 in removed && 2 in removed && 3 in removed && 4 in removed
    requires |g| == 17
    requires g[15] == Node(MakeTuple([LetVar(23), LetVar(19), LetVar(15)]), OnDevice(0, 0), [14, 12, 10])
    requires g[16] == Node(Concatenate(LetVar(26), 0), OnDevice(0, 0), [15])
    requires |defs| == 18
    requires defs[16] == map[0 := 0, 1 := 1, 2 := 2, 4 := 3, 5 := 4, 7 := 5, 8 := 6, 11 := 7, 12 := 8, 14 := 9, 15 := 10, 17 := 11, 19 := 12, 21 := 13, 23 := 14, 26 := 15]
    requires defs[17] == map[0 := 0, 1 := 1, 2 := 2, 4 := 3, 5 := 4, 7 := 5, 8 := 6, 11 := 7, 12 := 8, 14 := 9, 15 := 10, 17 := 11, 19 := 12, 21 := 13, 23 := 14, 26 := 15, 27 := 16]
    ensures |StackedBlocks(removed)| == 17 && Advances(StackedBlocks(removed), g, defs, 16)
  {
    var p := StackedBlocks(removed);
    assert p[16] == Let(27, Concatenate(LetVar(26), 0));
  }

  lemma StackedBlocksWithoutEventsExtract0(removed: set<EventId>, g: seq<Node>, defs: seq<map<VarId, nat>>)
    requires 0 in removed && 1 in removed && 2 in removed && 3 in removed && 4 in removed
    requires StackedBlocksWithoutEventsShape(g) && StackedBlocksWithoutEventsTables(defs)
    ensures |StackedBlocks(removed)| == 17
    ensures forall j :: 0 <= j < 5 ==> Advances(StackedBlocks(removed), g, defs, j)
  {
    StackedBlocksWithoutEventsAdvance0(removed, g, defs);
    StackedBlocksWithoutEventsAdvance1(removed, g, defs);
    StackedBlocksWithoutEventsAdvance2(removed, g, defs);
    StackedBlocksWithoutEventsAdvance3(removed, g, defs);
    StackedBlocksWithoutEventsAdvance4(removed, g, defs);
    forall j | 0 <= j < 5 ensures Advances(StackedBlocks(removed), g, defs, j) {
      assert j == 0 || j == 1 || j == 2 || j == 3 || j == 4;
    }
  }

  lemma StackedBlocksWithoutEventsExtract5(removed: set<EventId>, g: seq<Node>, defs: seq<map<VarId, nat>>)
    requires 0 in removed && 1 in removed && 2 in removed && 3 in removed && 4 in removed
    requires StackedBlocksWithoutEventsShape(g) && StackedBlocksWithoutEventsTables(defs)
    ensures |StackedBlocks(removed)| == 17
    ensures forall j :: 5 <= j < 10 ==> Advances(StackedBlocks(removed), g, defs, j)
  {
    StackedBlocksWithoutEventsAdvance5(removed, g, defs);
    StackedBlocksWithoutEventsAdvance6(removed, g, defs);
    StackedBlocksWithoutEventsAdvance7(removed, g, defs);
    StackedBlocksWithoutEventsAdvance8(removed, g, defs);
    StackedBlocksWithoutEventsAdvance9(removed, g, defs);
    forall j | 5 <= j < 10 ensures Advances(StackedBlocks(removed), g, defs, j) {
      assert j == 5 || j == 6 || j == 7 || j == 8 || j == 9;
    }
  }

  lemma StackedBlocksWithoutEventsExtract10(removed: set<EventId>, g: seq<Node>, defs: seq<map<VarId, nat>>)
    requires 0 in removed && 1 in removed && 2 in removed && 3 in removed && 4 in removed
    requires StackedBlocksWithoutEventsShape(g) && StackedBlocksWithoutEventsTables(defs)
    ensures |StackedBlocks(removed)| == 17
    ensures forall j :: 10 <= j < 15 ==> Advances(StackedBlocks(removed), g, defs, j)
  {
    StackedBlocksWithoutEventsAdvance10(removed, g, defs);
    StackedBlocksWithoutEventsAdvance11(removed, g, defs);
    StackedBlocksWithoutEventsAdvance12(removed, g, defs);
    StackedBlocksWithoutEventsAdvance13(removed, g, defs);
    StackedBlocksWithoutEventsAdvance14(removed, g, defs);
    forall j | 10 <= j < 15 ensures Advances(StackedBlocks(removed), g, defs, j) {
      assert j == 10 || j == 11 || j == 12 || j == 13 || j == 14;
    }
  }

  lemma StackedBlocksWithoutEventsExtract15(removed: set<EventId>, g: seq<Node>, defs: seq<map<VarId, nat>>)
    requires 0 in removed && 1 in removed && 2 in removed && 3 in removed && 4 in removed
    requires StackedBlocksWithoutEventsShape(g) && StackedBlocksWithoutEventsTables(defs)
    ensures |StackedBlocks(removed)| == 17
    ensures forall j :: 15 <= j < 17 ==> Advances(StackedBlocks(removed), g, defs, j)
  {
    StackedBlocksWithoutEventsAdvance15(removed, g, defs);
    StackedBlocksWithoutEventsAdvance16(removed, g, defs);
    forall j | 15 <= j < 17 ensures Advances(StackedBlocks(removed), g, defs, j) {
      assert j == 15 || j == 16;
    }
  }

  lemma StackedBlocksWithoutEventsNodesShape0()
    ensures |StackedBlocksWithoutEventsNodes()| == 17 && StackedBlocksWithoutEventsShape0(StackedBlocksWithoutEventsNodes())
  {
  }

  lemma StackedBlocksWithoutEventsNodesShape5()
    ensures |StackedBlocksWithoutEventsNodes()| == 17 && StackedBlocksWithoutEventsShape5(StackedBlocksWithoutEventsNodes())
  {
  }

  lemma StackedBlocksWithoutEventsNodesShape10()
    ensures |StackedBlocksWithoutEventsNodes()| == 17 && StackedBlocksWithoutEventsShape10(StackedBlocksWithoutEventsNodes())
  {
  }

  lemma StackedBlocksWithoutEventsNodesShape15()
    ensures |StackedBlocksWithoutEventsNodes()| == 17 && StackedBlocksWithoutEventsShape15(StackedBlocksWithoutEventsNodes())
  {
  }

  lemma StackedBlocksWithoutEventsDefsTables0()
    ensures |StackedBlocksWithoutEventsDefs()| == 18 && StackedBlocksWithoutEventsTables0(StackedBlocksWithoutEventsDefs())
  {
  }

  lemma StackedBlocksWithoutEventsDefsTables5()
    ensures |StackedBlocksWithoutEventsDefs()| == 18 && StackedBlocksWithoutEventsTables5(StackedBlocksWithoutEventsDefs())
  {
  }

  lemma StackedBlocksWithoutEventsDefsTables10()
    ensures |StackedBlocksWithoutEventsDefs()| == 18 && StackedBlocksWithoutEventsTables10(StackedBlocksWithoutEventsDefs())
  {
  }

  lemma StackedBlocksWithoutEventsDefsTables15()
    ensures |StackedBlocksWithoutEventsDefs()| == 18 && StackedBlocksWithoutEventsTables15(StackedBlocksWithoutEventsDefs())
  {
  }

  /** `Extract` on `StackedBlocks(removed)` yields `StackedBlocksWithoutEventsNodes()`. */
  lemma StackedBlocksWithoutEventsGraph(removed: set<EventId>) returns (g: seq<Node>)
    requires 0 in removed && 1 in removed && 2 in removed && 3 in removed && 4 in removed
    ensures Extract(StackedBlocks(removed)) == Ok(g) && StackedBlocksWithoutEventsShape(g)
  {
    g := StackedBlocksWithoutEventsNodes();
    var defs := StackedBlocksWithoutEventsDefs();
    var p := StackedBlocks(removed);
    StackedBlocksWithoutEventsNodesShape0();
    StackedBlocksWithoutEventsNodesShape5();
    StackedBlocksWithoutEventsNodesShape10();
    StackedBlocksWithoutEventsNodesShape15();
    StackedBlocksWithoutEventsDefsTables0();
    StackedBlocksWithoutEventsDefsTables5();
    StackedBlocksWithoutEventsDefsTables10();
    StackedBlocksWithoutEventsDefsTables15();
    StackedBlocksWithoutEventsExtract0(removed, g, defs);
    StackedBlocksWithoutEventsExtract5(removed, g, defs);
    StackedBlocksWithoutEventsExtract10(removed, g, defs);
    StackedBlocksWithoutEventsExtract15(removed, g, defs);
    ExtractReplays(p, g, defs, 0);
    assert g[..0] == [];
  }

  lemma StackedBlocksWithoutEventsSimulate0(g: seq<Node>)
    requires WellFormed(g) && |g| == 17
    requires g[0] == Node(SetStream(0, 0), OnDevice(0, 0), [])
    ensures SimulateFrom(g, 0, StackedBlocksWithoutEventsState0()) == SimulateFrom(g, 1, StackedBlocksWithoutEventsState1())
  {
    assert Step(g, 0, StackedBlocksWithoutEventsState0()) == Ok(StackedBlocksWithoutEventsState1());
    SimulateLink(g, 0, StackedBlocksWithoutEventsState0(), StackedBlocksWithoutEventsState1());
  }

  lemma StackedBlocksWithoutEventsSimulate1(g: seq<Node>)
    requires WellFormed(g) && |g| == 17
    requires g[1] == Node(Atan(X), OnDevice(0, 0), [])
    ensures SimulateFrom(g, 1, StackedBlocksWithoutEventsState1()) == SimulateFrom(g, 2, StackedBlocksWithoutEventsState2())
  {
    ReadHazardsSmall(g, g[1].deps, 1, g[1].stream, ClockOf(StackedBlocksWithoutEventsState1(), g[1].stream));
    assert StackedBlocksWithoutEventsState1().hazards + ReadHazards(g, g[1].deps, 1, g[1].stream, ClockOf(StackedBlocksWithoutEventsState1(), g[1].stream)) == StackedBlocksWithoutEventsState2().hazards;
    assert Step(g, 1, StackedBlocksWithoutEventsState1()) == Ok(StackedBlocksWithoutEventsState2());
    SimulateLink(g, 1, StackedBlocksWithoutEventsState1(), StackedBlocksWithoutEventsState2());
  }

  lemma StackedBlocksWithoutEventsSimulate2(g: seq<Node>)
    requires WellFormed(g) && |g| == 17
    requires g[1] == Node(Atan(X), OnDevice(0, 0), [])
    requires g[2] == Node(Atan(LetVar(1)), OnDevice(0, 0), [1])
    ensures SimulateFrom(g, 2, StackedBlocksWithoutEventsState2()) == SimulateFrom(g, 3, StackedBlocksWithoutEventsState3())
  {
    ReadHazardsSmall(g, g[2].deps, 2, g[2].stream, ClockOf(StackedBlocksWithoutEventsState2(), g[2].stream));
    assert StackedBlocksWithoutEventsState2().hazards + ReadHazards(g, g[2].deps, 2, g[2].stream, ClockOf(StackedBlocksWithoutEventsState2(), g[2].stream)) == StackedBlocksWithoutEventsState3().hazards;
    assert Step(g, 2, StackedBlocksWithoutEventsState2()) == Ok(StackedBlocksWithoutEventsState3());
    SimulateLink(g, 2, StackedBlocksWithoutEventsState2(), StackedBlocksWithoutEventsState3());
  }

  lemma StackedBlocksWithoutEventsSimulate3(g: seq<Node>)
    requires WellFormed(g) && |g| == 17
    requires g[3] == Node(SetStream(0, 1), OnDevice(0, 1), [])
    ensures SimulateFrom(g, 3, StackedBlocksWithoutEventsState3()) == SimulateFrom(g, 4, StackedBlocksWithoutEventsState4())
  {
    assert Step(g, 3, StackedBlocksWithoutEventsState3()) == Ok(StackedBlocksWithoutEventsState4());
    SimulateLink(g, 3, StackedBlocksWithoutEventsState3(), StackedBlocksWithoutEventsState4());
  }

  lemma StackedBlocksWithoutEventsSimulate4(g: seq<Node>)
    requires WellFormed(g) && |g| == 17
    requires g[4] == Node(Atan(X), OnDevice(0, 1), [])
    ensures SimulateFrom(g, 4, StackedBlocksWithoutEventsState4()) == SimulateFrom(g, 5, StackedBlocksWithoutEventsState5())
  {
    ReadHazardsSmall(g, g[4].deps, 4, g[4].stream, ClockOf(StackedBlocksWithoutEventsState4(), g[4].stream));
    assert StackedBlocksWithoutEventsState4().hazards + ReadHazards(g, g[4].deps, 4, g[4].stream, ClockOf(StackedBlocksWithoutEventsState4(), g[4].stream)) == StackedBlocksWithoutEventsState5().hazards;
    assert Step(g, 4, StackedBlocksWithoutEventsState4()) == Ok(StackedBlocksWithoutEventsState5());
    SimulateLink(g, 4, StackedBlocksWithoutEventsState4(), StackedBlocksWithoutEventsState5());
  }

  lemma StackedBlocksWithoutEventsSimulate5(g: seq<Node>)
    requires WellFormed(g) && |g| == 17
    requires g[5] == Node(SetStream(0, 2), OnDevice(0, 2), [])
    ensures SimulateFrom(g, 5, StackedBlocksWithoutEventsState5()) == SimulateFrom(g, 6, StackedBlocksWithoutEventsState6())
  {
    assert Step(g, 5, StackedBlocksWithoutEventsState5()) == Ok(StackedBlocksWithoutEventsState6());
    SimulateLink(g, 5, StackedBlocksWithoutEventsState5(), StackedBlocksWithoutEventsState6());
  }

  lemma StackedBlocksWithoutEventsSimulate6(g: seq<Node>)
    requires WellFormed(g) && |g| == 17
    requires g[6] == Node(Atan(X), OnDevice(0, 2), [])
    ensures SimulateFrom(g, 6, StackedBlocksWithoutEventsState6()) == SimulateFrom(g, 7, StackedBlocksWithoutEventsState7())
  {
    ReadHazardsSmall(g, g[6].deps, 6, g[6].stream, ClockOf(StackedBlocksWithoutEventsState6(), g[6].stream));
    assert StackedBlocksWithoutEventsState6().hazards + ReadHazards(g, g[6].deps, 6, g[6].stream, ClockOf(StackedBlocksWithoutEventsState6(), g[6].stream)) == StackedBlocksWithoutEventsState7().hazards;
    assert Step(g, 6, StackedBlocksWithoutEventsState6()) == Ok(StackedBlocksWithoutEventsState7());
    SimulateLink(g, 6, StackedBlocksWithoutEventsState6(), StackedBlocksWithoutEventsState7());
  }

  lemma StackedBlocksWithoutEventsSimulate7(g: seq<Node>)
    requires WellFormed(g) && |g| == 17
    requires g[2] == Node(Atan(LetVar(1)), OnDevice(0, 0), [1])
    requires g[4] == Node(Atan(X), OnDevice(0, 1), [])
    requires g[6] == Node(Atan(X), OnDevice(0, 2), [])
    requires g[7] == Node(MakeTuple([LetVar(8), LetVar(5), LetVar(2)]), OnDevice(0, 2), [6, 4, 2])
    ensures SimulateFrom(g, 7, StackedBlocksWithoutEventsState7()) == SimulateFrom(g, 8, StackedBlocksWithoutEventsState8())
  {
    ReadHazardsSmall(g, g[7].deps, 7, g[7].stream, ClockOf(StackedBlocksWithoutEventsState7(), g[7].stream));
    assert StackedBlocksWithoutEventsState7().hazards + ReadHazards(g, g[7].deps, 7, g[7].stream, ClockOf(StackedBlocksWithoutEventsState7(), g[7].stream)) == StackedBlocksWithoutEventsState8().hazards;
    assert Step(g, 7, StackedBlocksWithoutEventsState7()) == Ok(StackedBlocksWithoutEventsState8());
    SimulateLink(g, 7, StackedBlocksWithoutEventsState7(), StackedBlocksWithoutEventsState8());
  }

  lemma StackedBlocksWithoutEventsSimulate8(g: seq<Node>)
    requires WellFormed(g) && |g| == 17
    requires g[7] == Node(MakeTuple([LetVar(8), LetVar(5), LetVar(2)]), OnDevice(0, 2), [6, 4, 2])
    requires g[8] == Node(Concatenate(LetVar(11), 0), OnDevice(0, 2), [7])
    ensures SimulateFrom(g, 8, StackedBlocksWithoutEventsState8()) == SimulateFrom(g, 9, StackedBlocksWithoutEventsState9())
  {
    ReadHazardsSmall(g, g[8].deps, 8, g[8].stream, ClockOf(StackedBlocksWithoutEventsState8(), g[8].stream));
    assert StackedBlocksWithoutEventsState8().hazards + ReadHazards(g, g[8].deps, 8, g[8].stream, ClockOf(StackedBlocksWithoutEventsState8(), g[8].stream)) == StackedBlocksWithoutEventsState9().hazards;
    assert Step(g, 8, StackedBlocksWithoutEventsState8()) == Ok(StackedBlocksWithoutEventsState9());
    SimulateLink(g, 8, StackedBlocksWithoutEventsState8(), StackedBlocksWithoutEventsState9());
  }

  lemma StackedBlocksWithoutEventsSimulate9(g: seq<Node>)
    requires WellFormed(g) && |g| == 17
    requires g[8] == Node(Concatenate(LetVar(11), 0), OnDevice(0, 2), [7])
    requires g[9] == Node(Atan(LetVar(12)), OnDevice(0, 2), [8])
    ensures SimulateFrom(g, 9, StackedBlocksWithoutEventsState9()) == SimulateFrom(g, 10, StackedBlocksWithoutEventsState10())
  {
    ReadHazardsSmall(g, g[9].deps, 9, g[9].stream, ClockOf(StackedBlocksWithoutEventsState9(), g[9].stream));
    assert StackedBlocksWithoutEventsState9().hazards + ReadHazards(g, g[9].deps, 9, g[9].stream, ClockOf(StackedBlocksWithoutEventsState9(), g[9].stream)) == StackedBlocksWithoutEventsState10().hazards;
    assert Step(g, 9, StackedBlocksWithoutEventsState9()) == Ok(StackedBlocksWithoutEventsState10());
    SimulateLink(g, 9, StackedBlocksWithoutEventsState9(), StackedBlocksWithoutEventsState10());
  }

  lemma StackedBlocksWithoutEventsSimulate10(g: seq<Node>)
    requires WellFormed(g) && |g| == 17
    requires g[9] == Node(Atan(LetVar(12)), OnDevice(0, 2), [8])
    requires g[10] == Node(Atan(LetVar(14)), OnDevice(0, 2), [9])
    ensures SimulateFrom(g, 10, StackedBlocksWithoutEventsState10()) == SimulateFrom(g, 11, StackedBlocksWithoutEventsState11())
  {
    ReadHazardsSmall(g, g[10].deps, 10, g[10].stream, ClockOf(StackedBlocksWithoutEventsState10(), g[10].stream));
    assert StackedBlocksWithoutEventsState10().hazards + ReadHazards(g, g[10].deps, 10, g[10].stream, ClockOf(StackedBlocksWithoutEventsState10(), g[10].stream)) == StackedBlocksWithoutEventsState11().hazards;
    assert Step(g, 10, StackedBlocksWithoutEventsState10()) == Ok(StackedBlocksWithoutEventsState11());
    SimulateLink(g, 10, StackedBlocksWithoutEventsState10(), StackedBlocksWithoutEventsState11());
  }

  lemma StackedBlocksWithoutEventsSimulate11(g: seq<Node>)
    requires WellFormed(g) && |g| == 17
    requires g[11] == Node(SetStream(0, 1), OnDevice(0, 1), [])
    ensures SimulateFrom(g, 11, StackedBlocksWithoutEventsState11()) == SimulateFrom(g, 12, StackedBlocksWithoutEventsState12())
  {
    assert Step(g, 11, StackedBlocksWithoutEventsState11()) == Ok(StackedBlocksWithoutEventsState12());
    SimulateLink(g, 11, StackedBlocksWithoutEventsState11(), StackedBlocksWithoutEventsState12());
  }

  lemma StackedBlocksWithoutEventsSimulate12(g: seq<Node>)
    requires WellFormed(g) && |g| == 17
    requires g[8] == Node(Concatenate(LetVar(11), 0), OnDevice(0, 2), [7])
    requires g[12] == Node(Atan(LetVar(12)), OnDevice(0, 1), [8])
    ensures SimulateFrom(g, 12, StackedBlocksWithoutEventsState12()) == SimulateFrom(g, 13, StackedBlocksWithoutEventsState13())
  {
    ReadHazardsSmall(g, g[12].deps, 12, g[12].stream, ClockOf(StackedBlocksWithoutEventsState12(), g[12].stream));
    assert StackedBlocksWithoutEventsState12().hazards + ReadHazards(g, g[12].deps, 12, g[12].stream, ClockOf(StackedBlocksWithoutEventsState12(), g[12].stream)) == StackedBlocksWithoutEventsState13().hazards;
    assert Step(g, 12, StackedBlocksWithoutEventsState12()) == Ok(StackedBlocksWithoutEventsState13());
    SimulateLink(g, 12, StackedBlocksWithoutEventsState12(), StackedBlocksWithoutEventsState13());
  }

  lemma StackedBlocksWithoutEventsSimulate13(g: seq<Node>)
    requires WellFormed(g) && |g| == 17
    requires g[13] == Node(SetStream(0, 0), OnDevice(0, 0), [])
    ensures SimulateFrom(g, 13, StackedBlocksWithoutEventsState13()) == SimulateFrom(g, 14, StackedBlocksWithoutEventsState14())
  {
    assert Step(g, 13, StackedBlocksWithoutEventsState13()) == Ok(StackedBlocksWithoutEventsState14());
    SimulateLink(g, 13, StackedBlocksWithoutEventsState13(), StackedBlocksWithoutEventsState14());
  }

  lemma StackedBlocksWithoutEventsSimulate14(g: seq<Node>)
    requires WellFormed(g) && |g| == 17
    requires g[8] == Node(Concatenate(LetVar(11), 0), OnDevice(0, 2), [7])
    requires g[14] == Node(Atan(LetVar(12)), OnDevice(0, 0), [8])
    ensures SimulateFrom(g, 14, StackedBlocksWithoutEventsState14()) == SimulateFrom(g, 15, StackedBlocksWithoutEventsState15())
  {
    ReadHazardsSmall(g, g[14].deps, 14, g[14].stream, ClockOf(StackedBlocksWithoutEventsState14(), g[14].stream));
    assert StackedBlocksWithoutEventsState14().hazards + ReadHazards(g, g[14].deps, 14, g[14].stream, ClockOf(StackedBlocksWithoutEventsState14(), g[14].stream)) == StackedBlocksWithoutEventsState15().hazards;
    assert Step(g, 14, StackedBlocksWithoutEventsState14()) == Ok(StackedBlocksWithoutEventsState15());
    SimulateLink(g, 14, StackedBlocksWithoutEventsState14(), StackedBlocksWithoutEventsState15());
  }

  lemma StackedBlocksWithoutEventsSimulate15(g: seq<Node>)
    requires WellFormed(g) && |g| == 17
    requires g[10] == Node(Atan(LetVar(14)), OnDevice(0, 2), [9])
    requires g[12] == Node(Atan(LetVar(12)), OnDevice(0, 1), [8])
    requires g[14] == Node(Atan(LetVar(12)), OnDevice(0, 0), [8])
    requires g[15] == Node(MakeTuple([LetVar(23), LetVar(19), LetVar(15)]), OnDevice(0, 0), [14, 12, 10])
    ensures SimulateFrom(g, 15, StackedBlocksWithoutEventsState15()) == SimulateFrom(g, 16, StackedBlocksWithoutEventsState16())
  {
    ReadHazardsSmall(g, g[15].deps, 15, g[15].stream, ClockOf(StackedBlocksWithoutEventsState15(), g[15].stream));
    assert StackedBlocksWithoutEventsState15().hazards + ReadHazards(g, g[15].deps, 15, g[15].stream, ClockOf(StackedBlocksWithoutEventsState15(), g[15].stream)) == StackedBlocksWithoutEventsState16().hazards;
    assert Step(g, 15, StackedBlocksWithoutEventsState15()) == Ok(StackedBlocksWithoutEventsState16());
    SimulateLink(g, 15, StackedBlocksWithoutEventsState15(), StackedBlocksWithoutEventsState16());
  }

  lemma StackedBlocksWithoutEventsSimulate16(g: seq<Node>)
    requires WellFormed(g) && |g| == 17
    requires g[15] == Node(MakeTuple([LetVar(23), LetVar(19), LetVar(15)]), OnDevice(0, 0), [14, 12, 10])
    requires g[16] == Node(Concatenate(LetVar(26), 0), OnDevice(0, 0), [15])
    ensures SimulateFrom(g, 16, StackedBlocksWithoutEventsState16()) == SimulateFrom(g, 17, StackedBlocksWithoutEventsState17())
  {
    ReadHazardsSmall(g, g[16].deps, 16, g[16].stream, ClockOf(StackedBlocksWithoutEventsState16(), g[16].stream));
    assert StackedBlocksWithoutEventsState16().hazards + ReadHazards(g, g[16].deps, 16, g[16].stream, ClockOf(StackedBlocksWithoutEventsState16(), g[16].stream)) == StackedBlocksWithoutEventsState17().hazards;
    assert Step(g, 16, StackedBlocksWithoutEventsState16()) == Ok(StackedBlocksWithoutEventsState17());
    SimulateLink(g, 16, StackedBlocksWithoutEventsState16(), StackedBlocksWithoutEventsState17());
  }

  /** Without any event every cross-stream read is reported, in program order. */
  lemma Verdict(removed: set<EventId>)
    requires 0 in removed && 1 in removed && 2 in removed && 3 in removed && 4 in removed
    ensures Verify(StackedBlocks(removed)) == Err(ExecutionOrder([Hazard(4, 7, OnDevice(0, 1), OnDevice(0, 2)), Hazard(2, 7, OnDevice(0, 0), OnDevice(0, 2)), Hazard(8, 12, OnDevice(0, 2), OnDevice(0, 1)), Hazard(8, 14, OnDevice(0, 2), OnDevice(0, 0)), Hazard(12, 15, OnDevice(0, 1), OnDevice(0, 0)), Hazard(10, 15, OnDevice(0, 2), OnDevice(0, 0))]))
  {
    var g := StackedBlocksWithoutEventsGraph(removed);
    StackedBlocksWithoutEventsSimulate0(g);
    StackedBlocksWithoutEventsSimulate1(g);
    StackedBlocksWithoutEventsSimulate2(g);
    StackedBlocksWithoutEventsSimulate3(g);
    StackedBlocksWithoutEventsSimulate4(g);
    StackedBlocksWithoutEventsSimulate5(g);
    StackedBlocksWithoutEventsSimulate6(g);
    StackedBlocksWithoutEventsSimulate7(g);
    StackedBlocksWithoutEventsSimulate8(g);
    StackedBlocksWithoutEventsSimulate9(g);
    StackedBlocksWithoutEventsSimulate10(g);
    StackedBlocksWithoutEventsSimulate11(g);
    StackedBlocksWithoutEventsSimulate12(g);
    StackedBlocksWithoutEventsSimulate13(g);
    StackedBlocksWithoutEventsSimulate14(g);
    StackedBlocksWithoutEventsSimulate15(g);
    StackedBlocksWithoutEventsSimulate16(g);
    SimulateDone(g, StackedBlocksWithoutEventsState17());
  }
}
