/**
 * The verifier's verdict on `StackedBlocks(removed)` for one choice of removed events.
 * Without event 2 `x_19` and `x_23` both read the first join `x_12` unordered.
 */
module StackedBlocksWithoutEvent2 {
  import opened Results
  import opened ScheduleVerifier
  import opened ScheduleTheory
  import opened SchedulePrograms

  /** The graph `Extract` builds for `StackedBlocks(removed)`. */
  function StackedBlocksWithoutEvent2Nodes(): seq<Node>
  {
    [ Node(SetStream(0, 0), OnDevice(0, 0), [])
    , Node(Atan(X), OnDevice(0, 0), [])
    , Node(Atan(LetVar(1)), OnDevice(0, 0), [1])
    , Node(AddEvent(0), OnDevice(0, 0), [])
    , Node(SetStream(0, 1), OnDevice(0, 1), [])
    , Node(Atan(X), OnDevice(0, 1), [])
    , Node(AddEvent(1), OnDevice(0, 1), [])
    , Node(SetStream(0, 2), OnDevice(0, 2), [])
    , Node(Atan(X), OnDevice(0, 2), [])
    , Node(WaitEvent(1), OnDevice(0, 2), [])
    , Node(WaitEvent(0), OnDevice(0, 2), [])
    , Node(MakeTuple([LetVar(8), LetVar(5), LetVar(2)]), OnDevice(0, 2), [8, 5, 2])
    , Node(Concatenate(LetVar(11), 0), OnDevice(0, 2), [11])
    , Node(Atan(LetVar(12)), OnDevice(0, 2), [12])
    , Node(Atan(LetVar(14)), OnDevice(0, 2), [13])
    , Node(AddEvent(3), OnDevice(0, 2), [])
    , Node(SetStream(0, 1), OnDevice(0, 1), [])
    , Node(Atan(LetVar(12)), OnDevice(0, 1), [12])
    , Node(AddEvent(4), OnDevice(0, 1), [])
    , Node(SetStream(0, 0), OnDevice(0, 0), [])
    , Node(Atan(LetVar(12)), OnDevice(0, 0), [12])
    , Node(WaitEvent(4), OnDevice(0, 0), [])
    , Node(WaitEvent(3), OnDevice(0, 0), [])
    , Node(MakeTuple([LetVar(23), LetVar(19), LetVar(15)]), OnDevice(0, 0), [20, 17, 14])
    , Node(Concatenate(LetVar(26), 0), OnDevice(0, 0), [23]) ]
  }

  /** `g` is `StackedBlocksWithoutEvent2Nodes()`, position by position. */
  predicate StackedBlocksWithoutEvent2Shape(g: seq<Node>)
  {
    && |g| == 25
    && StackedBlocksWithoutEvent2Shape0(g)
    && StackedBlocksWithoutEvent2Shape5(g)
    && StackedBlocksWithoutEvent2Shape10(g)
    && StackedBlocksWithoutEvent2Shape15(g)
    && StackedBlocksWithoutEvent2Shape20(g)
  }

  predicate StackedBlocksWithoutEvent2Shape0(g: seq<Node>)
    requires |g| == 25
  {
    && g[0] == Node(SetStream(0, 0), OnDevice(0, 0), [])
    && g[1] == Node(Atan(X), OnDevice(0, 0), [])
    && g[2] == Node(Atan(LetVar(1)), OnDevice(0, 0), [1])
    && g[3] == Node(AddEvent(0), OnDevice(0, 0), [])
    && g[4] == Node(SetStream(0, 1), OnDevice(0, 1), [])
  }

  predicate StackedBlocksWithoutEvent2Shape5(g: seq<Node>)
    requires |g| == 25
  {
    && g[5] == Node(Atan(X), OnDevice(0, 1), [])
    && g[6] == Node(AddEvent(1), OnDevice(0, 1), [])
    && g[7] == Node(SetStream(0, 2), OnDevice(0, 2), [])
    && g[8] == Node(Atan(X), OnDevice(0, 2), [])
    && g[9] == Node(WaitEvent(1), OnDevice(0, 2), [])
  }

  predicate StackedBlocksWithoutEvent2Shape10(g: seq<Node>)
    requires |g| == 25
  {
    && g[10] == Node(WaitEvent(0), OnDevice(0, 2), [])
    && g[11] == Node(MakeTuple([LetVar(8), LetVar(5), LetVar(2)]), OnDevice(0, 2), [8, 5, 2])
    && g[12] == Node(Concatenate(LetVar(11), 0), OnDevice(0, 2), [11])
    && g[13] == Node(Atan(LetVar(12)), OnDevice(0, 2), [12])
    && g[14] == Node(Atan(LetVar(14)), OnDevice(0, 2), [13])
  }

  predicate StackedBlocksWithoutEvent2Shape15(g: seq<Node>)
    requires |g| == 25
  {
    && g[15] == Node(AddEvent(3), OnDevice(0, 2), [])
    && g[16] == Node(SetStream(0, 1), OnDevice(0, 1), [])
    && g[17] == Node(Atan(LetVar(12)), OnDevice(0, 1), [12])
    && g[18] == Node(AddEvent(4), OnDevice(0, 1), [])
    && g[19] == Node(SetStream(0, 0), OnDevice(0, 0), [])
  }

  predicate StackedBlocksWithoutEvent2Shape20(g: seq<Node>)
    requires |g| == 25
  {
    && g[20] == Node(Atan(LetVar(12)), OnDevice(0, 0), [12])
    && g[21] == Node(WaitEvent(4), OnDevice(0, 0), [])
    && g[22] == Node(WaitEvent(3), OnDevice(0, 0), [])
    && g[23] == Node(MakeTuple([LetVar(23), LetVar(19), LetVar(15)]), OnDevice(0, 0), [20, 17, 14])
    && g[24] == Node(Concatenate(LetVar(26), 0), OnDevice(0, 0), [23])
  }

  /** The variable table before each position of `StackedBlocks(removed)`. */
  function StackedBlocksWithoutEvent2Defs(): seq<map<VarId, nat>>
  {
    [ map[]
    , map[0 := 0]
    , map[0 := 0, 1 := 1]
    , map[0 := 0, 1 := 1, 2 := 2]
    , map[0 := 0, 1 := 1, 2 := 2, 3 := 3]
    , map[0 := 0, 1 := 1, 2 := 2, 3 := 3, 4 := 4]
    , map[0 := 0, 1 := 1, 2 := 2, 3 := 3, 4 := 4, 5 := 5]
    , map[0 := 0, 1 := 1, 2 := 2, 3 := 3, 4 := 4, 5 := 5, 6 := 6]
    , map[0 := 0, 1 := 1, 2 := 2, 3 := 3, 4 := 4, 5 := 5, 6 := 6, 7 := 7]
    , map[0 := 0, 1 := 1, 2 := 2, 3 := 3, 4 := 4, 5 := 5, 6 := 6, 7 := 7, 8 := 8]
    , map[0 := 0, 1 := 1, 2 := 2, 3 := 3, 4 := 4, 5 := 5, 6 := 6, 7 := 7, 8 := 8, 9 := 9]
    , map[0 := 0, 1 := 1, 2 := 2, 3 := 3, 4 := 4, 5 := 5, 6 := 6, 7 := 7, 8 := 8, 9 := 9, 10 := 10]
    , map[0 := 0, 1 := 1, 2 := 2, 3 := 3, 4 := 4, 5 := 5, 6 := 6, 7 := 7, 8 := 8, 9 := 9, 10 := 10, 11 := 11]
    , map[0 := 0, 1 := 1, 2 := 2, 3 := 3, 4 := 4, 5 := 5, 6 := 6, 7 := 7, 8 := 8, 9 := 9, 10 := 10, 11 := 11, 12 := 12]
    , map[0 := 0, 1 := 1, 2 := 2, 3 := 3, 4 := 4, 5 := 5, 6 := 6, 7 := 7, 8 := 8, 9 := 9, 10 := 10, 11 := 11, 12 := 12, 14 := 13]
    , map[0 := 0, 1 := 1, 2 := 2, 3 := 3, 4 := 4, 5 := 5, 6 := 6, 7 := 7, 8 := 8, 9 := 9, 10 := 10, 11 := 11, 12 := 12, 14 := 13, 15 := 14]
    , map[0 := 0, 1 := 1, 2 := 2, 3 := 3, 4 := 4, 5 := 5, 6 := 6, 7 := 7, 8 := 8, 9 := 9, 10 := 10, 11 := 11, 12 := 12, 14 := 13, 15 := 14, 16 := 15]
    , map[0 := 0, 1 := 1, 2 := 2, 3 := 3, 4 := 4, 5 := 5, 6 := 6, 7 := 7, 8 := 8, 9 := 9, 10 := 10, 11 := 11, 12 := 12, 14 := 13, 15 := 14, 16 := 15, 17 := 16]
    , map[0 := 0, 1 := 1, 2 := 2, 3 := 3, 4 := 4, 5 := 5, 6 := 6, 7 := 7, 8 := 8, 9 := 9, 10 := 10, 11 := 11, 12 := 12, 14 := 13, 15 := 14, 16 := 15, 17 := 16, 19 := 17]
    , map[0 := 0, 1 := 1, 2 := 2, 3 := 3, 4 := 4, 5 := 5, 6 := 6, 7 := 7, 8 := 8, 9 := 9, 10 := 10, 11 := 11, 12 := 12, 14 := 13, 15 := 14, 16 := 15, 17 := 16, 19 := 17, 20 := 18]
    , map[0 := 0, 1 := 1, 2 := 2, 3 := 3, 4 := 4, 5 := 5, 6 := 6, 7 := 7, 8 := 8, 9 := 9, 10 := 10, 11 := 11, 12 := 12, 14 := 13, 15 := 14, 16 := 15, 17 := 16, 19 := 17, 20 := 18, 21 := 19]
    , map[0 := 0, 1 := 1, 2 := 2, 3 := 3, 4 := 4, 5 := 5, 6 := 6, 7 := 7, 8 := 8, 9 := 9, 10 := 10, 11 := 11, 12 := 12, 14 := 13, 15 := 14, 16 := 15, 17 := 16, 19 := 17, 20 := 18, 21 := 19, 23 := 20]
    , map[0 := 0, 1 := 1, 2 := 2, 3 := 3, 4 := 4, 5 := 5, 6 := 6, 7 := 7, 8 := 8, 9 := 9, 10 := 10, 11 := 11, 12 := 12, 14 := 13, 15 := 14, 16 := 15, 17 := 16, 19 := 17, 20 := 18, 21 := 19, 23 := 20, 24 := 21]
    , map[0 := 0, 1 := 1, 2 := 2, 3 := 3, 4 := 4, 5 := 5, 6 := 6, 7 := 7, 8 := 8, 9 := 9, 10 := 10, 11 := 11, 12 := 12, 14 := 13, 15 := 14, 16 := 15, 17 := 16, 19 := 17, 20 := 18, 21 := 19, 23 := 20, 24 := 21, 25 := 22]
    , map[0 := 0, 1 := 1, 2 := 2, 3 := 3, 4 := 4, 5 := 5, 6 := 6, 7 := 7, 8 := 8, 9 := 9, 10 := 10, 11 := 11, 12 := 12, 14 := 13, 15 := 14, 16 := 15, 17 := 16, 19 := 17, 20 := 18, 21 := 19, 23 := 20, 24 := 21, 25 := 22, 26 := 23]
    , map[0 := 0, 1 := 1, 2 := 2, 3 := 3, 4 := 4, 5 := 5, 6 := 6, 7 := 7, 8 := 8, 9 := 9, 10 := 10, 11 := 11, 12 := 12, 14 := 13, 15 := 14, 16 := 15, 17 := 16, 19 := 17, 20 := 18, 21 := 19, 23 := 20, 24 := 21, 25 := 22, 26 := 23, 27 := 24] ]
  }

  /** `defs` is `StackedBlocksWithoutEvent2Defs()`, position by position. */
  predicate StackedBlocksWithoutEvent2Tables(defs: seq<map<VarId, nat>>)
  {
    && |defs| == 26
    && StackedBlocksWithoutEvent2Tables0(defs)
    && StackedBlocksWithoutEvent2Tables5(defs)
    && StackedBlocksWithoutEvent2Tables10(defs)
    && StackedBlocksWithoutEvent2Tables15(defs)
    && StackedBlocksWithoutEvent2Tables20(defs)
  }

  predicate StackedBlocksWithoutEvent2Tables0(defs: seq<map<VarId, nat>>)
    requires |defs| == 26
  {
    && defs[0] == map[]
    && defs[1] == map[0 := 0]
    && defs[2] == map[0 := 0, 1 := 1]
    && defs[3] == map[0 := 0, 1 := 1, 2 := 2]
    && defs[4] == map[0 := 0, 1 := 1, 2 := 2, 3 := 3]
  }

  predicate StackedBlocksWithoutEvent2Tables5(defs: seq<map<VarId, nat>>)
    requires |defs| == 26
  {
    && defs[5] == map[0 := 0, 1 := 1, 2 := 2, 3 := 3, 4 := 4]
    && defs[6] == map[0 := 0, 1 := 1, 2 := 2, 3 := 3, 4 := 4, 5 := 5]
    && defs[7] == map[0 := 0, 1 := 1, 2 := 2, 3 := 3, 4 := 4, 5 := 5, 6 := 6]
    && defs[8] == map[0 := 0, 1 := 1, 2 := 2, 3 := 3, 4 := 4, 5 := 5, 6 := 6, 7 := 7]
    && defs[9] == map[0 := 0, 1 := 1, 2 := 2, 3 := 3, 4 := 4, 5 := 5, 6 := 6, 7 := 7, 8 := 8]
  }

  predicate StackedBlocksWithoutEvent2Tables10(defs: seq<map<VarId, nat>>)
    requires |defs| == 26
  {
    && defs[10] == map[0 := 0, 1 := 1, 2 := 2, 3 := 3, 4 := 4, 5 := 5, 6 := 6, 7 := 7, 8 := 8, 9 := 9]
    && defs[11] == map[0 := 0, 1 := 1, 2 := 2, 3 := 3, 4 := 4, 5 := 5, 6 := 6, 7 := 7, 8 := 8, 9 := 9, 10 := 10]
    && defs[12] == map[0 := 0, 1 := 1, 2 := 2, 3 := 3, 4 := 4, 5 := 5, 6 := 6, 7 := 7, 8 := 8, 9 := 9, 10 := 10, 11 := 11]
    && defs[13] == map[0 := 0, 1 := 1, 2 := 2, 3 := 3, 4 := 4, 5 := 5, 6 := 6, 7 := 7, 8 := 8, 9 := 9, 10 := 10, 11 := 11, 12 := 12]
    && defs[14] == map[0 := 0, 1 := 1, 2 := 2, 3 := 3, 4 := 4, 5 := 5, 6 := 6, 7 := 7, 8 := 8, 9 := 9, 10 := 10, 11 := 11, 12 := 12, 14 := 13]
  }

  predicate StackedBlocksWithoutEvent2Tables15(defs: seq<map<VarId, nat>>)
    requires |defs| == 26
  {
    && defs[15] == map[0 := 0, 1 := 1, 2 := 2, 3 := 3, 4 := 4, 5 := 5, 6 := 6, 7 := 7, 8 := 8, 9 := 9, 10 := 10, 11 := 11, 12 := 12, 14 := 13, 15 := 14]
    && defs[16] == map[0 := 0, 1 := 1, 2 := 2, 3 := 3, 4 := 4, 5 := 5, 6 := 6, 7 := 7, 8 := 8, 9 := 9, 10 := 10, 11 := 11, 12 := 12, 14 := 13, 15 := 14, 16 := 15]
    && defs[17] == map[0 := 0, 1 := 1, 2 := 2, 3 := 3, 4 := 4, 5 := 5, 6 := 6, 7 := 7, 8 := 8, 9 := 9, 10 := 10, 11 := 11, 12 := 12, 14 := 13, 15 := 14, 16 := 15, 17 := 16]
    && defs[18] == map[0 := 0, 1 := 1, 2 := 2, 3 := 3, 4 := 4, 5 := 5, 6 := 6, 7 := 7, 8 := 8, 9 := 9, 10 := 10, 11 := 11, 12 := 12, 14 := 13, 15 := 14, 16 := 15, 17 := 16, 19 := 17]
    && defs[19] == map[0 := 0, 1 := 1, 2 := 2, 3 := 3, 4 := 4, 5 := 5, 6 := 6, 7 := 7, 8 := 8, 9 := 9, 10 := 10, 11 := 11, 12 := 12, 14 := 13, 15 := 14, 16 := 15, 17 := 16, 19 := 17, 20 := 18]
  }

  predicate StackedBlocksWithoutEvent2Tables20(defs: seq<map<VarId, nat>>)
    requires |defs| == 26
  {
    && defs[20] == map[0 := 0, 1 := 1, 2 := 2, 3 := 3, 4 := 4, 5 := 5, 6 := 6, 7 := 7, 8 := 8, 9 := 9, 10 := 10, 11 := 11, 12 := 12, 14 := 13, 15 := 14, 16 := 15, 17 := 16, 19 := 17, 20 := 18, 21 := 19]
    && defs[21] == map[0 := 0, 1 := 1, 2 := 2, 3 := 3, 4 := 4, 5 := 5, 6 := 6, 7 := 7, 8 := 8, 9 := 9, 10 := 10, 11 := 11, 12 := 12, 14 := 13, 15 := 14, 16 := 15, 17 := 16, 19 := 17, 20 := 18, 21 := 19, 23 := 20]
    && defs[22] == map[0 := 0, 1 := 1, 2 := 2, 3 := 3, 4 := 4, 5 := 5, 6 := 6, 7 := 7, 8 := 8, 9 := 9, 10 := 10, 11 := 11, 12 := 12, 14 := 13, 15 := 14, 16 := 15, 17 := 16, 19 := 17, 20 := 18, 21 := 19, 23 := 20, 24 := 21]
    && defs[23] == map[0 := 0, 1 := 1, 2 := 2, 3 := 3, 4 := 4, 5 := 5, 6 := 6, 7 := 7, 8 := 8, 9 := 9, 10 := 10, 11 := 11, 12 := 12, 14 := 13, 15 := 14, 16 := 15, 17 := 16, 19 := 17, 20 := 18, 21 := 19, 23 := 20, 24 := 21, 25 := 22]
    && defs[24] == map[0 := 0, 1 := 1, 2 := 2, 3 := 3, 4 := 4, 5 := 5, 6 := 6, 7 := 7, 8 := 8, 9 := 9, 10 := 10, 11 := 11, 12 := 12, 14 := 13, 15 := 14, 16 := 15, 17 := 16, 19 := 17, 20 := 18, 21 := 19, 23 := 20, 24 := 21, 25 := 22, 26 := 23]
    && defs[25] == map[0 := 0, 1 := 1, 2 := 2, 3 := 3, 4 := 4, 5 := 5, 6 := 6, 7 := 7, 8 := 8, 9 := 9, 10 := 10, 11 := 11, 12 := 12, 14 := 13, 15 := 14, 16 := 15, 17 := 16, 19 := 17, 20 := 18, 21 := 19, 23 := 20, 24 := 21, 25 := 22, 26 := 23, 27 := 24]
  }

  function StackedBlocksWithoutEvent2State0(): SimState
  {
    SimState(map[], map[], [])
  }

  function StackedBlocksWithoutEvent2State1(): SimState
  {
    SimState(map[], map[], [])
  }

  function StackedBlocksWithoutEvent2State2(): SimState
  {
    SimState(map[], map[], [])
  }

  function StackedBlocksWithoutEvent2State3(): SimState
  {
    SimState(map[], map[], [])
  }

  function StackedBlocksWithoutEvent2State4(): SimState
  {
    SimState(map[][0 := Mark(OnDevice(0, 0), 3, map[])], map[], [])
  }

  function StackedBlocksWithoutEvent2State5(): SimState
  {
    SimState(map[][0 := Mark(OnDevice(0, 0), 3, map[])], map[], [])
  }

  function StackedBlocksWithoutEvent2State6(): SimState
  {
    SimState(map[][0 := Mark(OnDevice(0, 0), 3, map[])], map[], [])
  }

  function StackedBlocksWithoutEvent2State7(): SimState
  {
    SimState(map[][0 := Mark(OnDevice(0, 0), 3, map[])][1 := Mark(OnDevice(0, 1), 6, map[])], map[], [])
  }

  function StackedBlocksWithoutEvent2State8(): SimState
  {
    SimState(map[][0 := Mark(OnDevice(0, 0), 3, map[])][1 := Mark(OnDevice(0, 1), 6, map[])], map[], [])
  }

  function StackedBlocksWithoutEvent2State9(): SimState
  {
    SimState(map[][0 := Mark(OnDevice(0, 0), 3, map[])][1 := Mark(OnDevice(0, 1), 6, map[])], map[], [])
  }

  function StackedBlocksWithoutEvent2State10(): SimState
  {
    SimState(map[][0 := Mark(OnDevice(0, 0), 3, map[])][1 := Mark(OnDevice(0, 1), 6, map[])], map[][OnDevice(0, 2) := map[OnDevice(0, 1) := 6]], [])
  }

  function StackedBlocksWithoutEvent2State11(): SimState
  {
    SimState(map[][0 := Mark(OnDevice(0, 0), 3, map[])][1 := Mark(OnDevice(0, 1), 6, map[])], map[][OnDevice(0, 2) := map[OnDevice(0, 1) := 6]][OnDevice(0, 2) := map[OnDevice(0, 0) := 3, OnDevice(0, 1) := 6]], [])
  }

  function StackedBlocksWithoutEvent2State12(): SimState
  {
    SimState(map[][0 := Mark(OnDevice(0, 0), 3, map[])][1 := Mark(OnDevice(0, 1), 6, map[])], map[][OnDevice(0, 2) := map[OnDevice(0, 1) := 6]][OnDevice(0, 2) := map[OnDevice(0, 0) := 3, OnDevice(0, 1) := 6]], [])
  }

  function StackedBlocksWithoutEvent2State13(): SimState
  {
    SimState(map[][0 := Mark(OnDevice(0, 0), 3, map[])][1 := Mark(OnDevice(0, 1), 6, map[])], map[][OnDevice(0, 2) := map[OnDevice(0, 1) := 6]][OnDevice(0, 2) := map[OnDevice(0, 0) := 3, OnDevice(0, 1) := 6]], [])
  }

  function StackedBlocksWithoutEvent2State14(): SimState
  {
    SimState(map[][0 := Mark(OnDevice(0, 0), 3, map[])][1 := Mark(OnDevice(0, 1), 6, map[])], map[][OnDevice(0, 2) := map[OnDevice(0, 1) := 6]][OnDevice(0, 2) := map[OnDevice(0, 0) := 3, OnDevice(0, 1) := 6]], [])
  }

  function StackedBlocksWithoutEvent2State15(): SimState
  {
    SimState(map[][0 := Mark(OnDevice(0, 0), 3, map[])][1 := Mark(OnDevice(0, 1), 6, map[])], map[][OnDevice(0, 2) := map[OnDevice(0, 1) := 6]][OnDevice(0, 2) := map[OnDevice(0, 0) := 3, OnDevice(0, 1) := 6]], [])
  }

  function StackedBlocksWithoutEvent2State16(): SimState
  {
    SimState(map[][0 := Mark(OnDevice(0, 0), 3, map[])][1 := Mark(OnDevice(0, 1), 6, map[])][3 := Mark(OnDevice(0, 2), 15, map[OnDevice(0, 0) := 3, OnDevice(0, 1) := 6])], map[][OnDevice(0, 2) := map[OnDevice(0, 1) := 6]][OnDevice(0, 2) := map[OnDevice(0, 0) := 3, OnDevice(0, 1) := 6]], [])
  }

  function StackedBlocksWithoutEvent2State17(): SimState
  {
    SimState(map[][0 := Mark(OnDevice(0, 0), 3, map[])][1 := Mark(OnDevice(0, 1), 6, map[])][3 := Mark(OnDevice(0, 2), 15, map[OnDevice(0, 0) := 3, OnDevice(0, 1) := 6])], map[][OnDevice(0, 2) := map[OnDevice(0, 1) := 6]][OnDevice(0, 2) := map[OnDevice(0, 0) := 3, OnDevice(0, 1) := 6]], [])
  }

  function StackedBlocksWithoutEvent2State18(): SimState
  {
    SimState(map[][0 := Mark(OnDevice(0, 0), 3, map[])][1 := Mark(OnDevice(0, 1), 6, map[])][3 := Mark(OnDevice(0, 2), 15, map[OnDevice(0, 0) := 3, OnDevice(0, 1) := 6])], map[][OnDevice(0, 2) := map[OnDevice(0, 1) := 6]][OnDevice(0, 2) := map[OnDevice(0, 0) := 3, OnDevice(0, 1) := 6]], [Hazard(12, 17, OnDevice(0, 2), OnDevice(0, 1))])
  }

  function StackedBlocksWithoutEvent2State19(): SimState
  {
    SimState(map[][0 := Mark(OnDevice(0, 0), 3, map[])][1 := Mark(OnDevice(0, 1), 6, map[])][3 := Mark(OnDevice(0, 2), 15, map[OnDevice(0, 0) := 3, OnDevice(0, 1) := 6])][4 := Mark(OnDevice(0, 1), 18, map[])], map[][OnDevice(0, 2) := map[OnDevice(0, 1) := 6]][OnDevice(0, 2) := map[OnDevice(0, 0) := 3, OnDevice(0, 1) := 6]], [Hazard(12, 17, OnDevice(0, 2), OnDevice(0, 1))])
  }

  function StackedBlocksWithoutEvent2State20(): SimState
  {
    SimState(map[][0 := Mark(OnDevice(0, 0), 3, map[])][1 := Mark(OnDevice(0, 1), 6, map[])][3 := Mark(OnDevice(0, 2), 15, map[OnDevice(0, 0) := 3, OnDevice(0, 1) := 6])][4 := Mark(OnDevice(0, 1), 18, map[])], map[][OnDevice(0, 2) := map[OnDevice(0, 1) := 6]][OnDevice(0, 2) := map[OnDevice(0, 0) := 3, OnDevice(0, 1) := 6]], [Hazard(12, 17, OnDevice(0, 2), OnDevice(0, 1))])
  }

  function StackedBlocksWithoutEvent2State21(): SimState
  {
    SimState(map[][0 := Mark(OnDevice(0, 0), 3, map[])][1 := Mark(OnDevice(0, 1), 6, map[])][3 := Mark(OnDevice(0, 2), 15, map[OnDevice(0, 0) := 3, OnDevice(0, 1) := 6])][4 := Mark(OnDevice(0, 1), 18, map[])], map[][OnDevice(0, 2) := map[OnDevice(0, 1) := 6]][OnDevice(0, 2) := map[OnDevice(0, 0) := 3, OnDevice(0, 1) := 6]], [Hazard(12, 17, OnDevice(0, 2), OnDevice(0, 1)), Hazard(12, 20, OnDevice(0, 2), OnDevice(0, 0))])
  }

  function StackedBlocksWithoutEvent2State22(): SimState
  {
    SimState(map[][0 := Mark(OnDevice(0, 0), 3, map[])][1 := Mark(OnDevice(0, 1), 6, map[])][3 := Mark(OnDevice(0, 2), 15, map[OnDevice(0, 0) := 3, OnDevice(0, 1) := 6])][4 := Mark(OnDevice(0, 1), 18, map[])], map[][OnDevice(0, 2) := map[OnDevice(0, 1) := 6]][OnDevice(0, 2) := map[OnDevice(0, 0) := 3, OnDevice(0, 1) := 6]][OnDevice(0, 0) := map[OnDevice(0, 1) := 18]], [Hazard(12, 17, OnDevice(0, 2), OnDevice(0, 1)), Hazard(12, 20, OnDevice(0, 2), OnDevice(0, 0))])
  }

  function StackedBlocksWithoutEvent2State23(): SimState
  {
    SimState(map[][0 := Mark(OnDevice(0, 0), 3, map[])][1 := Mark(OnDevice(0, 1), 6, map[])][3 := Mark(OnDevice(0, 2), 15, map[OnDevice(0, 0) := 3, OnDevice(0, 1) := 6])][4 := Mark(OnDevice(0, 1), 18, map[])], map[][OnDevice(0, 2) := map[OnDevice(0, 1) := 6]][OnDevice(0, 2) := map[OnDevice(0, 0) := 3, OnDevice(0, 1) := 6]][OnDevice(0, 0) := map[OnDevice(0, 1) := 18]][OnDevice(0, 0) := map[OnDevice(0, 0) := 3, OnDevice(0, 1) := 18, OnDevice(0, 2) := 15]], [Hazard(12, 17, OnDevice(0, 2), OnDevice(0, 1)), Hazard(12, 20, OnDevice(0, 2), OnDevice(0, 0))])
  }

  function StackedBlocksWithoutEvent2State24(): SimState
  {
    SimState(map[][0 := Mark(OnDevice(0, 0), 3, map[])][1 := Mark(OnDevice(0, 1), 6, map[])][3 := Mark(OnDevice(0, 2), 15, map[OnDevice(0, 0) := 3, OnDevice(0, 1) := 6])][4 := Mark(OnDevice(0, 1), 18, map[])], map[][OnDevice(0, 2) := map[OnDevice(0, 1) := 6]][OnDevice(0, 2) := map[OnDevice(0, 0) := 3, OnDevice(0, 1) := 6]][OnDevice(0, 0) := map[OnDevice(0, 1) := 18]][OnDevice(0, 0) := map[OnDevice(0, 0) := 3, OnDevice(0, 1) := 18, OnDevice(0, 2) := 15]], [Hazard(12, 17, OnDevice(0, 2), OnDevice(0, 1)), Hazard(12, 20, OnDevice(0, 2), OnDevice(0, 0))])
  }

  function StackedBlocksWithoutEvent2State25(): SimState
  {
    SimState(map[][0 := Mark(OnDevice(0, 0), 3, map[])][1 := Mark(OnDevice(0, 1), 6, map[])][3 := Mark(OnDevice(0, 2), 15, map[OnDevice(0, 0) := 3, OnDevice(0, 1) := 6])][4 := Mark(OnDevice(0, 1), 18, map[])], map[][OnDevice(0, 2) := map[OnDevice(0, 1) := 6]][OnDevice(0, 2) := map[OnDevice(0, 0) := 3, OnDevice(0, 1) := 6]][OnDevice(0, 0) := map[OnDevice(0, 1) := 18]][OnDevice(0, 0) := map[OnDevice(0, 0) := 3, OnDevice(0, 1) := 18, OnDevice(0, 2) := 15]], [Hazard(12, 17, OnDevice(0, 2), OnDevice(0, 1)), Hazard(12, 20, OnDevice(0, 2), OnDevice(0, 0))])
  }

  lemma StackedBlocksWithoutEvent2Advance0(removed: set<EventId>, g: seq<Node>, defs: seq<map<VarId, nat>>)
    requires 0 !in removed && 1 !in removed && 2 in removed && 3 !in removed && 4 !in removed
    requires |g| == 25
    requires g[0] == Node(SetStream(0, 0), OnDevice(0, 0), [])
    requires |defs| == 26
    requires defs[0] == map[]
    requires defs[1] == map[0 := 0]
    ensures |StackedBlocks(removed)| == 25 && Advances(StackedBlocks(removed), g, defs, 0)
  {
    var p := StackedBlocks(removed);
    assert p[0] == Let(0, SetStream(0, 0));
  }

  lemma StackedBlocksWithoutEvent2Advance1(removed: set<EventId>, g: seq<Node>, defs: seq<map<VarId, nat>>)
    requires 0 !in removed && 1 !in removed && 2 in removed && 3 !in removed && 4 !in removed
    requires |g| == 25
    requires g[0] == Node(SetStream(0, 0), OnDevice(0, 0), [])
    requires g[1] == Node(Atan(X), OnDevice(0, 0), [])
    requires |defs| == 26
    requires defs[1] == map[0 := 0]
    requires defs[2] == map[0 := 0, 1 := 1]
    ensures |StackedBlocks(removed)| == 25 && Advances(StackedBlocks(removed), g, defs, 1)
  {
    var p := StackedBlocks(removed);
    assert p[1] == Let(1, Atan(X));
  }

  lemma StackedBlocksWithoutEvent2Advance2(removed: set<EventId>, g: seq<Node>, defs: seq<map<VarId, nat>>)
    requires 0 !in removed && 1 !in removed && 2 in removed && 3 !in removed && 4 !in removed
    requires |g| == 25
    requires g[1] == Node(Atan(X), OnDevice(0, 0), [])
    requires g[2] == Node(Atan(LetVar(1)), OnDevice(0, 0), [1])
    requires |defs| == 26
    requires defs[2] == map[0 := 0, 1 := 1]
    requires defs[3] == map[0 := 0, 1 := 1, 2 := 2]
    ensures |StackedBlocks(removed)| == 25 && Advances(StackedBlocks(removed), g, defs, 2)
  {
    var p := StackedBlocks(removed);
    assert p[2] == Let(2, Atan(LetVar(1)));
  }

  lemma StackedBlocksWithoutEvent2Advance3(removed: set<EventId>, g: seq<Node>, defs: seq<map<VarId, nat>>)
    requires 0 !in removed && 1 !in removed && 2 in removed && 3 !in removed && 4 !in removed
    requires |g| == 25
    requires g[2] == Node(Atan(LetVar(1)), OnDevice(0, 0), [1])
    requires g[3] == Node(AddEvent(0), OnDevice(0, 0), [])
    requires |defs| == 26
    requires defs[3] == map[0 := 0, 1 := 1, 2 := 2]
    requires defs[4] == map[0 := 0, 1 := 1, 2 := 2, 3 := 3]
    ensures |StackedBlocks(removed)| == 25 && Advances(StackedBlocks(removed), g, defs, 3)
  {
    var p := StackedBlocks(removed);
    assert p[3] == Let(3, AddEvent(0));
  }

  lemma StackedBlocksWithoutEvent2Advance4(removed: set<EventId>, g: seq<Node>, defs: seq<map<VarId, nat>>)
    requires 0 !in removed && 1 !in removed && 2 in removed && 3 !in removed && 4 !in removed
    requires |g| == 25
    requires g[3] == Node(AddEvent(0), OnDevice(0, 0), [])
    requires g[4] == Node(SetStream(0, 1), OnDevice(0, 1), [])
    requires |defs| == 26
    requires defs[4] == map[0 := 0, 1 := 1, 2 := 2, 3 := 3]
    requires defs[5] == map[0 := 0, 1 := 1, 2 := 2, 3 := 3, 4 := 4]
    ensures |StackedBlocks(removed)| == 25 && Advances(StackedBlocks(removed), g, defs, 4)
  {
    var p := StackedBlocks(removed);
    assert p[4] == Let(4, SetStream(0, 1));
  }

  lemma StackedBlocksWithoutEvent2Advance5(removed: set<EventId>, g: seq<Node>, defs: seq<map<VarId, nat>>)
    requires 0 !in removed && 1 !in removed && 2 in removed && 3 !in removed && 4 !in removed
    requires |g| == 25
    requires g[4] == Node(SetStream(0, 1), OnDevice(0, 1), [])
    requires g[5] == Node(Atan(X), OnDevice(0, 1), [])
    requires |defs| == 26
    requires defs[5] == map[0 := 0, 1 := 1, 2 := 2, 3 := 3, 4 := 4]
    requires defs[6] == map[0 := 0, 1 := 1, 2 := 2, 3 := 3, 4 := 4, 5 := 5]
    ensures |StackedBlocks(removed)| == 25 && Advances(StackedBlocks(removed), g, defs, 5)
  {
    var p := StackedBlocks(removed);
    assert p[5] == Let(5, Atan(X));
  }

  lemma StackedBlocksWithoutEvent2Advance6(removed: set<EventId>, g: seq<Node>, defs: seq<map<VarId, nat>>)
    requires 0 !in removed && 1 !in removed && 2 in removed && 3 !in removed && 4 !in removed
    requires |g| == 25
    requires g[5] == Node(Atan(X), OnDevice(0, 1), [])
    requires g[6] == Node(AddEvent(1), OnDevice(0, 1), [])
    requires |defs| == 26
    requires defs[6] == map[0 := 0, 1 := 1, 2 := 2, 3 := 3, 4 := 4, 5 := 5]
    requires defs[7] == map[0 := 0, 1 := 1, 2 := 2, 3 := 3, 4 := 4, 5 := 5, 6 := 6]
    ensures |StackedBlocks(removed)| == 25 && Advances(StackedBlocks(removed), g, defs, 6)
  {
    var p := StackedBlocks(removed);
    assert p[6] == Let(6, AddEvent(1));
  }

  lemma StackedBlocksWithoutEvent2Advance7(removed: set<EventId>, g: seq<Node>, defs: seq<map<VarId, nat>>)
    requires 0 !in removed && 1 !in removed && 2 in removed && 3 !in removed && 4 !in removed
    requires |g| == 25
    requires g[6] == Node(AddEvent(1), OnDevice(0, 1), [])
    requires g[7] == Node(SetStream(0, 2), OnDevice(0, 2), [])
    requires |defs| == 26
    requires defs[7] == map[0 := 0, 1 := 1, 2 := 2, 3 := 3, 4 := 4, 5 := 5, 6 := 6]
    requires defs[8] == map[0 := 0, 1 := 1, 2 := 2, 3 := 3, 4 := 4, 5 := 5, 6 := 6, 7 := 7]
    ensures |StackedBlocks(removed)| == 25 && Advances(StackedBlocks(removed), g, defs, 7)
  {
    var p := StackedBlocks(removed);
    assert p[7] == Let(7, SetStream(0, 2));
  }

  lemma StackedBlocksWithoutEvent2Advance8(removed: set<EventId>, g: seq<Node>, defs: seq<map<VarId, nat>>)
    requires 0 !in removed && 1 !in removed && 2 in removed && 3 !in removed && 4 !in removed
    requires |g| == 25
    requires g[7] == Node(SetStream(0, 2), OnDevice(0, 2), [])
    requires g[8] == Node(Atan(X), OnDevice(0, 2), [])
    requires |defs| == 26
    requires defs[8] == map[0 := 0, 1 := 1, 2 := 2, 3 := 3, 4 := 4, 5 := 5, 6 := 6, 7 := 7]
    requires defs[9] == map[0 := 0, 1 := 1, 2 := 2, 3 := 3, 4 := 4, 5 := 5, 6 := 6, 7 := 7, 8 := 8]
    ensures |StackedBlocks(removed)| == 25 && Advances(StackedBlocks(removed), g, defs, 8)
  {
    var p := StackedBlocks(removed);
    assert p[8] == Let(8, Atan(X));
  }

  lemma StackedBlocksWithoutEvent2Advance9(removed: set<EventId>, g: seq<Node>, defs: seq<map<VarId, nat>>)
    requires 0 !in removed && 1 !in removed && 2 in removed && 3 !in removed && 4 !in removed
    requires |g| == 25
    requires g[8] == Node(Atan(X), OnDevice(0, 2), [])
    requires g[9] == Node(WaitEvent(1), OnDevice(0, 2), [])
    requires |defs| == 26
    requires defs[9] == map[0 := 0, 1 := 1, 2 := 2, 3 := 3, 4 := 4, 5 := 5, 6 := 6, 7 := 7, 8 := 8]
    requires defs[10] == map[0 := 0, 1 := 1, 2 := 2, 3 := 3, 4 := 4, 5 := 5, 6 := 6, 7 := 7, 8 := 8, 9 := 9]
    ensures |StackedBlocks(removed)| == 25 && Advances(StackedBlocks(removed), g, defs, 9)
  {
    var p := StackedBlocks(removed);
    assert p[9] == Let(9, WaitEvent(1));
  }

  lemma StackedBlocksWithoutEvent2Advance10(removed: set<EventId>, g: seq<Node>, defs: seq<map<VarId, nat>>)
    requires 0 !in removed && 1 !in removed && 2 in removed && 3 !in removed && 4 !in removed
    requires |g| == 25
    requires g[9] == Node(WaitEvent(1), OnDevice(0, 2), [])
    requires g[10] == Node(WaitEvent(0), OnDevice(0, 2), [])
    requires |defs| == 26
    requires defs[10] == map[0 := 0, 1 := 1, 2 := 2, 3 := 3, 4 := 4, 5 := 5, 6 := 6, 7 := 7, 8 := 8, 9 := 9]
    requires defs[11] == map[0 := 0, 1 := 1, 2 := 2, 3 := 3, 4 := 4, 5 := 5, 6 := 6, 7 := 7, 8 := 8, 9 := 9, 10 := 10]
    ensures |StackedBlocks(removed)| == 25 && Advances(StackedBlocks(removed), g, defs, 10)
  {
    var p := StackedBlocks(removed);
    assert p[10] == Let(10, WaitEvent(0));
  }

  lemma StackedBlocksWithoutEvent2Advance11(removed: set<EventId>, g: seq<Node>, defs: seq<map<VarId, nat>>)
    requires 0 !in removed && 1 !in removed && 2 in removed && 3 !in removed && 4 !in removed
    requires |g| == 25
    requires g[10] == Node(WaitEvent(0), OnDevice(0, 2), [])
    requires g[11] == Node(MakeTuple([LetVar(8), LetVar(5), LetVar(2)]), OnDevice(0, 2), [8, 5, 2])
    requires |defs| == 26
    requires defs[11] == map[0 := 0, 1 := 1, 2 := 2, 3 := 3, 4 := 4, 5 := 5, 6 := 6, 7 := 7, 8 := 8, 9 := 9, 10 := 10]
    requires defs[12] == map[0 := 0, 1 := 1, 2 := 2, 3 := 3, 4 := 4, 5 := 5, 6 := 6, 7 := 7, 8 := 8, 9 := 9, 10 := 10, 11 := 11]
    ensures |StackedBlocks(removed)| == 25 && Advances(StackedBlocks(removed), g, defs, 11)
  {
    var p := StackedBlocks(removed);
    assert p[11] == Let(11, MakeTuple([LetVar(8), LetVar(5), LetVar(2)]));
  }

  lemma StackedBlocksWithoutEvent2Advance12(removed: set<EventId>, g: seq<Node>, defs: seq<map<VarId, nat>>)
    requires 0 !in removed && 1 !in removed && 2 in removed && 3 !in removed && 4 !in removed
    requires |g| == 25
    requires g[11] == Node(MakeTuple([LetVar(8), LetVar(5), LetVar(2)]), OnDevice(0, 2), [8, 5, 2])
    requires g[12] == Node(Concatenate(LetVar(11), 0), OnDevice(0, 2), [11])
    requires |defs| == 26
    requires defs[12] == map[0 := 0, 1 := 1, 2 := 2, 3 := 3, 4 := 4, 5 := 5, 6 := 6, 7 := 7, 8 := 8, 9 := 9, 10 := 10, 11 := 11]
    requires defs[13] == map[0 := 0, 1 := 1, 2 := 2, 3 := 3, 4 := 4, 5 := 5, 6 := 6, 7 := 7, 8 := 8, 9 := 9, 10 := 10, 11 := 11, 12 := 12]
    ensures |StackedBlocks(removed)| == 25 && Advances(StackedBlocks(removed), g, defs, 12)
  {
    var p := StackedBlocks(removed);
    assert p[12] == Let(12, Concatenate(LetVar(11), 0));
  }

  lemma StackedBlocksWithoutEvent2Advance13(removed: set<EventId>, g: seq<Node>, defs: seq<map<VarId, nat>>)
    requires 0 !in removed && 1 !in removed && 2 in removed && 3 !in removed && 4 !in removed
    requires |g| == 25
    requires g[12] == Node(Concatenate(LetVar(11), 0), OnDevice(0, 2), [11])
    requires g[13] == Node(Atan(LetVar(12)), OnDevice(0, 2), [12])
    requires |defs| == 26
    requires defs[13] == map[0 := 0, 1 := 1, 2 := 2, 3 := 3, 4 := 4, 5 := 5, 6 := 6, 7 := 7, 8 := 8, 9 := 9, 10 := 10, 11 := 11, 12 := 12]
    requires defs[14] == map[0 := 0, 1 := 1, 2 := 2, 3 := 3, 4 := 4, 5 := 5, 6 := 6, 7 := 7, 8 := 8, 9 := 9, 10 := 10, 11 := 11, 12 := 12, 14 := 13]
    ensures |StackedBlocks(removed)| == 25 && Advances(StackedBlocks(removed), g, defs, 13)
  {
    var p := StackedBlocks(removed);
    assert p[13] == Let(14, Atan(LetVar(12)));
  }

  lemma StackedBlocksWithoutEvent2Advance14(removed: set<EventId>, g: seq<Node>, defs: seq<map<VarId, nat>>)
    requires 0 !in removed && 1 !in removed && 2 in removed && 3 !in removed && 4 !in removed
    requires |g| == 25
    requires g[13] == Node(Atan(LetVar(12)), OnDevice(0, 2), [12])
    requires g[14] == Node(Atan(LetVar(14)), OnDevice(0, 2), [13])
    requires |defs| == 26
    requires defs[14] == map[0 := 0, 1 := 1, 2 := 2, 3 := 3, 4 := 4, 5 := 5, 6 := 6, 7 := 7, 8 := 8, 9 := 9, 10 := 10, 11 := 11, 12 := 12, 14 := 13]
    requires defs[15] == map[0 := 0, 1 := 1, 2 := 2, 3 := 3, 4 := 4, 5 := 5, 6 := 6, 7 := 7, 8 := 8, 9 := 9, 10 := 10, 11 := 11, 12 := 12, 14 := 13, 15 := 14]
    ensures |StackedBlocks(removed)| == 25 && Advances(StackedBlocks(removed), g, defs, 14)
  {
    var p := StackedBlocks(removed);
    assert p[14] == Let(15, Atan(LetVar(14)));
  }

  lemma StackedBlocksWithoutEvent2Advance15(removed: set<EventId>, g: seq<Node>, defs: seq<map<VarId, nat>>)
    requires 0 !in removed && 1 !in removed && 2 in removed && 3 !in removed && 4 !in removed
    requires |g| == 25
    requires g[14] == Node(Atan(LetVar(14)), OnDevice(0, 2), [13])
    requires g[15] == Node(AddEvent(3), OnDevice(0, 2), [])
    requires |defs| == 26
    requires defs[15] == map[0 := 0, 1 := 1, 2 := 2, 3 := 3, 4 := 4, 5 := 5, 6 := 6, 7 := 7, 8 := 8, 9 := 9, 10 := 10, 11 := 11, 12 := 12, 14 := 13, 15 := 14]
    requires defs[16] == map[0 := 0, 1 := 1, 2 := 2, 3 := 3, 4 := 4, 5 := 5, 6 := 6, 7 := 7, 8 := 8, 9 := 9, 10 := 10, 11 := 11, 12 := 12, 14 := 13, 15 := 14, 16 := 15]
    ensures |StackedBlocks(removed)| == 25 && Advances(StackedBlocks(removed), g, defs, 15)
  {
    var p := StackedBlocks(removed);
    assert p[15] == Let(16, AddEvent(3));
  }

  lemma StackedBlocksWithoutEvent2Advance16(removed: set<EventId>, g: seq<Node>, defs: seq<map<VarId, nat>>)
    requires 0 !in removed && 1 !in removed && 2 in removed && 3 !in removed && 4 !in removed
    requires |g| == 25
    requires g[15] == Node(AddEvent(3), OnDevice(0, 2), [])
    requires g[16] == Node(SetStream(0, 1), OnDevice(0, 1), [])
    requires |defs| == 26
    requires defs[16] == map[0 := 0, 1 := 1, 2 := 2, 3 := 3, 4 := 4, 5 := 5, 6 := 6, 7 := 7, 8 := 8, 9 := 9, 10 := 10, 11 := 11, 12 := 12, 14 := 13, 15 := 14, 16 := 15]
    requires defs[17] == map[0 := 0, 1 := 1, 2 := 2, 3 := 3, 4 := 4, 5 := 5, 6 := 6, 7 := 7, 8 := 8, 9 := 9, 10 := 10, 11 := 11, 12 := 12, 14 := 13, 15 := 14, 16 := 15, 17 := 16]
    ensures |StackedBlocks(removed)| == 25 && Advances(StackedBlocks(removed), g, defs, 16)
  {
    var p := StackedBlocks(removed);
    assert p[16] == Let(17, SetStream(0, 1));
  }

  lemma StackedBlocksWithoutEvent2Advance17(removed: set<EventId>, g: seq<Node>, defs: seq<map<VarId, nat>>)
    requires 0 !in removed && 1 !in removed && 2 in removed && 3 !in removed && 4 !in removed
    requires |g| == 25
    requires g[16] == Node(SetStream(0, 1), OnDevice(0, 1), [])
    requires g[17] == Node(Atan(LetVar(12)), OnDevice(0, 1), [12])
    requires |defs| == 26
    requires defs[17] == map[0 := 0, 1 := 1, 2 := 2, 3 := 3, 4 := 4, 5 := 5, 6 := 6, 7 := 7, 8 := 8, 9 := 9, 10 := 10, 11 := 11, 12 := 12, 14 := 13, 15 := 14, 16 := 15, 17 := 16]
    requires defs[18] == map[0 := 0, 1 := 1, 2 := 2, 3 := 3, 4 := 4, 5 := 5, 6 := 6, 7 := 7, 8 := 8, 9 := 9, 10 := 10, 11 := 11, 12 := 12, 14 := 13, 15 := 14, 16 := 15, 17 := 16, 19 := 17]
    ensures |StackedBlocks(removed)| == 25 && Advances(StackedBlocks(removed), g, defs, 17)
  {
    var p := StackedBlocks(removed);
    assert p[17] == Let(19, Atan(LetVar(12)));
  }

  lemma StackedBlocksWithoutEvent2Advance18(removed: set<EventId>, g: seq<Node>, defs: seq<map<VarId, nat>>)
    requires 0 !in removed && 1 !in removed && 2 in removed && 3 !in removed && 4 !in removed
    requires |g| == 25
    requires g[17] == Node(Atan(LetVar(12)), OnDevice(0, 1), [12])
    requires g[18] == Node(AddEvent(4), OnDevice(0, 1), [])
    requires |defs| == 26
    requires defs[18] == map[0 := 0, 1 := 1, 2 := 2, 3 := 3, 4 := 4, 5 := 5, 6 := 6, 7 := 7, 8 := 8, 9 := 9, 10 := 10, 11 := 11, 12 := 12, 14 := 13, 15 := 14, 16 := 15, 17 := 16, 19 := 17]
    requires defs[19] == map[0 := 0, 1 := 1, 2 := 2, 3 := 3, 4 := 4, 5 := 5, 6 := 6, 7 := 7, 8 := 8, 9 := 9, 10 := 10, 11 := 11, 12 := 12, 14 := 13, 15 := 14, 16 := 15, 17 := 16, 19 := 17, 20 := 18]
    ensures |StackedBlocks(removed)| == 25 && Advances(StackedBlocks(removed), g, defs, 18)
  {
    var p := StackedBlocks(removed);
    assert p[18] == Let(20, AddEvent(4));
  }

  lemma StackedBlocksWithoutEvent2Advance19(removed: set<EventId>, g: seq<Node>, defs: seq<map<VarId, nat>>)
    requires 0 !in removed && 1 !in removed && 2 in removed && 3 !in removed && 4 !in removed
    requires |g| == 25
    requires g[18] == Node(AddEvent(4), OnDevice(0, 1), [])
    requires g[19] == Node(SetStream(0, 0), OnDevice(0, 0), [])
    requires |defs| == 26
    requires defs[19] == map[0 := 0, 1 := 1, 2 := 2, 3 := 3, 4 := 4, 5 := 5, 6 := 6, 7 := 7, 8 := 8, 9 := 9, 10 := 10, 11 := 11, 12 := 12, 14 := 13, 15 := 14, 16 := 15, 17 := 16, 19 := 17, 20 := 18]
    requires defs[20] == map[0 := 0, 1 := 1, 2 := 2, 3 := 3, 4 := 4, 5 := 5, 6 := 6, 7 := 7, 8 := 8, 9 := 9, 10 := 10, 11 := 11, 12 := 12, 14 := 13, 15 := 14, 16 := 15, 17 := 16, 19 := 17, 20 := 18, 21 := 19]
    ensures |StackedBlocks(removed)| == 25 && Advances(StackedBlocks(removed), g, defs, 19)
  {
    var p := StackedBlocks(removed);
    assert p[19] == Let(21, SetStream(0, 0));
  }

  lemma StackedBlocksWithoutEvent2Advance20(removed: set<EventId>, g: seq<Node>, defs: seq<map<VarId, nat>>)
    requires 0 !in removed && 1 !in removed && 2 in removed && 3 !in removed && 4 !in removed
    requires |g| == 25
    requires g[19] == Node(SetStream(0, 0), OnDevice(0, 0), [])
    requires g[20] == Node(Atan(LetVar(12)), OnDevice(0, 0), [12])
    requires |defs| == 26
    requires defs[20] == map[0 := 0, 1 := 1, 2 := 2, 3 := 3, 4 := 4, 5 := 5, 6 := 6, 7 := 7, 8 := 8, 9 := 9, 10 := 10, 11 := 11, 12 := 12, 14 := 13, 15 := 14, 16 := 15, 17 := 16, 19 := 17, 20 := 18, 21 := 19]
    requires defs[21] == map[0 := 0, 1 := 1, 2 := 2, 3 := 3, 4 := 4, 5 := 5, 6 := 6, 7 := 7, 8 := 8, 9 := 9, 10 := 10, 11 := 11, 12 := 12, 14 := 13, 15 := 14, 16 := 15, 17 := 16, 19 := 17, 20 := 18, 21 := 19, 23 := 20]
    ensures |StackedBlocks(removed)| == 25 && Advances(StackedBlocks(removed), g, defs, 20)
  {
    var p := StackedBlocks(removed);
    assert p[20] == Let(23, Atan(LetVar(12)));
  }

  lemma StackedBlocksWithoutEvent2Advance21(removed: set<EventId>, g: seq<Node>, defs: seq<map<VarId, nat>>)
    requires 0 !in removed && 1 !in removed && 2 in removed && 3 !in removed && 4 !in removed
    requires |g| == 25
    requires g[20] == Node(Atan(LetVar(12)), OnDevice(0, 0), [12])
    requires g[21] == Node(WaitEvent(4), OnDevice(0, 0), [])
    requires |defs| == 26
    requires defs[21] == map[0 := 0, 1 := 1, 2 := 2, 3 := 3, 4 := 4, 5 := 5, 6 := 6, 7 := 7, 8 := 8, 9 := 9, 10 := 10, 11 := 11, 12 := 12, 14 := 13, 15 := 14, 16 := 15, 17 := 16, 19 := 17, 20 := 18, 21 := 19, 23 := 20]
    requires defs[22] == map[0 := 0, 1 := 1, 2 := 2, 3 := 3, 4 := 4, 5 := 5, 6 := 6, 7 := 7, 8 := 8, 9 := 9, 10 := 10, 11 := 11, 12 := 12, 14 := 13, 15 := 14, 16 := 15, 17 := 16, 19 := 17, 20 := 18, 21 := 19, 23 := 20, 24 := 21]
    ensures |StackedBlocks(removed)| == 25 && Advances(StackedBlocks(removed), g, defs, 21)
  {
    var p := StackedBlocks(removed);
    assert p[21] == Let(24, WaitEvent(4));
  }

  lemma StackedBlocksWithoutEvent2Advance22(removed: set<EventId>, g: seq<Node>, defs: seq<map<VarId, nat>>)
    requires 0 !in removed && 1 !in removed && 2 in removed && 3 !in removed && 4 !in removed
    requires |g| == 25
    requires g[21] == Node(WaitEvent(4), OnDevice(0, 0), [])
    requires g[22] == Node(WaitEvent(3), OnDevice(0, 0), [])
    requires |defs| == 26
    requires defs[22] == map[0 := 0, 1 := 1, 2 := 2, 3 := 3, 4 := 4, 5 := 5, 6 := 6, 7 := 7, 8 := 8, 9 := 9, 10 := 10, 11 := 11, 12 := 12, 14 := 13, 15 := 14, 16 := 15, 17 := 16, 19 := 17, 20 := 18, 21 := 19, 23 := 20, 24 := 21]
    requires defs[23] == map[0 := 0, 1 := 1, 2 := 2, 3 := 3, 4 := 4, 5 := 5, 6 := 6, 7 := 7, 8 := 8, 9 := 9, 10 := 10, 11 := 11, 12 := 12, 14 := 13, 15 := 14, 16 := 15, 17 := 16, 19 := 17, 20 := 18, 21 := 19, 23 := 20, 24 := 21, 25 := 22]
    ensures |StackedBlocks(removed)| == 25 && Advances(StackedBlocks(removed), g, defs, 22)
  {
    var p := StackedBlocks(removed);
    assert p[22] == Let(25, WaitEvent(3));
  }

  lemma StackedBlocksWithoutEvent2Advance23(removed: set<EventId>, g: seq<Node>, defs: seq<map<VarId, nat>>)
    requires 0 !in removed && 1 !in removed && 2 in removed && 3 !in removed && 4 !in removed
    requires |g| == 25
    requires g[22] == Node(WaitEvent(3), OnDevice(0, 0), [])
    requires g[23] == Node(MakeTuple([LetVar(23), LetVar(19), LetVar(15)]), OnDevice(0, 0), [20, 17, 14])
    requires |defs| == 26
    requires defs[23] == map[0 := 0, 1 := 1, 2 := 2, 3 := 3, 4 := 4, 5 := 5, 6 := 6, 7 := 7, 8 := 8, 9 := 9, 10 := 10, 11 := 11, 12 := 12, 14 := 13, 15 := 14, 16 := 15, 17 := 16, 19 := 17, 20 := 18, 21 := 19, 23 := 20, 24 := 21, 25 := 22]
    requires defs[24] == map[0 := 0, 1 := 1, 2 := 2, 3 := 3, 4 := 4, 5 := 5, 6 := 6, 7 := 7, 8 := 8, 9 := 9, 10 := 10, 11 := 11, 12 := 12, 14 := 13, 15 := 14, 16 := 15, 17 := 16, 19 := 17, 20 := 18, 21 := 19, 23 := 20, 24 := 21, 25 := 22, 26 := 23]
    ensures |StackedBlocks(removed)| == 25 && Advances(StackedBlocks(removed), g, defs, 23)
  {
    var p := StackedBlocks(removed);
    assert p[23] == Let(26, MakeTuple([LetVar(23), LetVar(19), LetVar(15)]));
  }

  lemma StackedBlocksWithoutEvent2Advance24(removed: set<EventId>, g: seq<Node>, defs: seq<map<VarId, nat>>)
    requires 0 !in removed && 1 !in removed && 2 in removed && 3 !in removed && 4 !in removed
    requires |g| == 25
    requires g[23] == Node(MakeTuple([LetVar(23), LetVar(19), LetVar(15)]), OnDevice(0, 0), [20, 17, 14])
    requires g[24] == Node(Concatenate(LetVar(26), 0), OnDevice(0, 0), [23])
    requires |defs| == 26
    requires defs[24] == map[0 := 0, 1 := 1, 2 := 2, 3 := 3, 4 := 4, 5 := 5, 6 := 6, 7 := 7, 8 := 8, 9 := 9, 10 := 10, 11 := 11, 12 := 12, 14 := 13, 15 := 14, 16 := 15, 17 := 16, 19 := 17, 20 := 18, 21 := 19, 23 := 20, 24 := 21, 25 := 22, 26 := 23]
    requires defs[25] == map[0 := 0, 1 := 1, 2 := 2, 3 := 3, 4 := 4, 5 := 5, 6 := 6, 7 := 7, 8 := 8, 9 := 9, 10 := 10, 11 := 11, 12 := 12, 14 := 13, 15 := 14, 16 := 15, 17 := 16, 19 := 17, 20 := 18, 21 := 19, 23 := 20, 24 := 21, 25 := 22, 26 := 23, 27 := 24]
    ensures |StackedBlocks(removed)| == 25 && Advances(StackedBlocks(removed), g, defs, 24)
  {
    var p := StackedBlocks(removed);
    assert p[24] == Let(27, Concatenate(LetVar(26), 0));
  }

  lemma StackedBlocksWithoutEvent2Extract0(removed: set<EventId>, g: seq<Node>, defs: seq<map<VarId, nat>>)
    requires 0 !in removed && 1 !in removed && 2 in removed && 3 !in removed && 4 !in removed
    requires StackedBlocksWithoutEvent2Shape(g) && StackedBlocksWithoutEvent2Tables(defs)
    ensures |StackedBlocks(removed)| == 25
    ensures forall j :: 0 <= j < 5 ==> Advances(StackedBlocks(removed), g, defs, j)
  {
    StackedBlocksWithoutEvent2Advance0(removed, g, defs);
    StackedBlocksWithoutEvent2Advance1(removed, g, defs);
    StackedBlocksWithoutEvent2Advance2(removed, g, defs);
    StackedBlocksWithoutEvent2Advance3(removed, g, defs);
    StackedBlocksWithoutEvent2Advance4(removed, g, defs);
    forall j | 0 <= j < 5 ensures Advances(StackedBlocks(removed), g, defs, j) {
      assert j == 0 || j == 1 || j == 2 || j == 3 || j == 4;
    }
  }

  lemma StackedBlocksWithoutEvent2Extract5(removed: set<EventId>, g: seq<Node>, defs: seq<map<VarId, nat>>)
    requires 0 !in removed && 1 !in removed && 2 in removed && 3 !in removed && 4 !in removed
    requires StackedBlocksWithoutEvent2Shape(g) && StackedBlocksWithoutEvent2Tables(defs)
    ensures |StackedBlocks(removed)| == 25
    ensures forall j :: 5 <= j < 10 ==> Advances(StackedBlocks(removed), g, defs, j)
  {
    StackedBlocksWithoutEvent2Advance5(removed, g, defs);
    StackedBlocksWithoutEvent2Advance6(removed, g, defs);
    StackedBlocksWithoutEvent2Advance7(removed, g, defs);
    StackedBlocksWithoutEvent2Advance8(removed, g, defs);
    StackedBlocksWithoutEvent2Advance9(removed, g, defs);
    forall j | 5 <= j < 10 ensures Advances(StackedBlocks(removed), g, defs, j) {
      assert j == 5 || j == 6 || j == 7 || j == 8 || j == 9;
    }
  }

  lemma StackedBlocksWithoutEvent2Extract10(removed: set<EventId>, g: seq<Node>, defs: seq<map<VarId, nat>>)
    requires 0 !in removed && 1 !in removed && 2 in removed && 3 !in removed && 4 !in removed
    requires StackedBlocksWithoutEvent2Shape(g) && StackedBlocksWithoutEvent2Tables(defs)
    ensures |StackedBlocks(removed)| == 25
    ensures forall j :: 10 <= j < 15 ==> Advances(StackedBlocks(removed), g, defs, j)
  {
    StackedBlocksWithoutEvent2Advance10(removed, g, defs);
    StackedBlocksWithoutEvent2Advance11(removed, g, defs);
    StackedBlocksWithoutEvent2Advance12(removed, g, defs);
    StackedBlocksWithoutEvent2Advance13(removed, g, defs);
    StackedBlocksWithoutEvent2Advance14(removed, g, defs);
    forall j | 10 <= j < 15 ensures Advances(StackedBlocks(removed), g, defs, j) {
      assert j == 10 || j == 11 || j == 12 || j == 13 || j == 14;
    }
  }

  lemma StackedBlocksWithoutEvent2Extract15(removed: set<EventId>, g: seq<Node>, defs: seq<map<VarId, nat>>)
    requires 0 !in removed && 1 !in removed && 2 in removed && 3 !in removed && 4 !in removed
    requires StackedBlocksWithoutEvent2Shape(g) && StackedBlocksWithoutEvent2Tables(defs)
    ensures |StackedBlocks(removed)| == 25
    ensures forall j :: 15 <= j < 20 ==> Advances(StackedBlocks(removed), g, defs, j)
  {
    StackedBlocksWithoutEvent2Advance15(removed, g, defs);
    StackedBlocksWithoutEvent2Advance16(removed, g, defs);
    StackedBlocksWithoutEvent2Advance17(removed, g, defs);
    StackedBlocksWithoutEvent2Advance18(removed, g, defs);
    StackedBlocksWithoutEvent2Advance19(removed, g, defs);
    forall j | 15 <= j < 20 ensures Advances(StackedBlocks(removed), g, defs, j) {
      assert j == 15 || j == 16 || j == 17 || j == 18 || j == 19;
    }
  }

  lemma StackedBlocksWithoutEvent2Extract20(removed: set<EventId>, g: seq<Node>, defs: seq<map<VarId, nat>>)
    requires 0 !in removed && 1 !in removed && 2 in removed && 3 !in removed && 4 !in removed
    requires StackedBlocksWithoutEvent2Shape(g) && StackedBlocksWithoutEvent2Tables(defs)
    ensures |StackedBlocks(removed)| == 25
    ensures forall j :: 20 <= j < 25 ==> Advances(StackedBlocks(removed), g, defs, j)
  {
    StackedBlocksWithoutEvent2Advance20(removed, g, defs);
    StackedBlocksWithoutEvent2Advance21(removed, g, defs);
    StackedBlocksWithoutEvent2Advance22(removed, g, defs);
    StackedBlocksWithoutEvent2Advance23(removed, g, defs);
    StackedBlocksWithoutEvent2Advance24(removed, g, defs);
    forall j | 20 <= j < 25 ensures Advances(StackedBlocks(removed), g, defs, j) {
      assert j == 20 || j == 21 || j == 22 || j == 23 || j == 24;
    }
  }

  lemma StackedBlocksWithoutEvent2NodesShape0()
    ensures |StackedBlocksWithoutEvent2Nodes()| == 25 && StackedBlocksWithoutEvent2Shape0(StackedBlocksWithoutEvent2Nodes())
  {
  }

  lemma StackedBlocksWithoutEvent2NodesShape5()
    ensures |StackedBlocksWithoutEvent2Nodes()| == 25 && StackedBlocksWithoutEvent2Shape5(StackedBlocksWithoutEvent2Nodes())
  {
  }

  lemma StackedBlocksWithoutEvent2NodesShape10()
    ensures |StackedBlocksWithoutEvent2Nodes()| == 25 && StackedBlocksWithoutEvent2Shape10(StackedBlocksWithoutEvent2Nodes())
  {
  }

  lemma StackedBlocksWithoutEvent2NodesShape15()
    ensures |StackedBlocksWithoutEvent2Nodes()| == 25 && StackedBlocksWithoutEvent2Shape15(StackedBlocksWithoutEvent2Nodes())
  {
  }

  lemma StackedBlocksWithoutEvent2NodesShape20()
    ensures |StackedBlocksWithoutEvent2Nodes()| == 25 && StackedBlocksWithoutEvent2Shape20(StackedBlocksWithoutEvent2Nodes())
  {
  }

  lemma StackedBlocksWithoutEvent2DefsTables0()
    ensures |StackedBlocksWithoutEvent2Defs()| == 26 && StackedBlocksWithoutEvent2Tables0(StackedBlocksWithoutEvent2Defs())
  {
  }

  lemma StackedBlocksWithoutEvent2DefsTables5()
    ensures |StackedBlocksWithoutEvent2Defs()| == 26 && StackedBlocksWithoutEvent2Tables5(StackedBlocksWithoutEvent2Defs())
  {
  }

  lemma StackedBlocksWithoutEvent2DefsTables10()
    ensures |StackedBlocksWithoutEvent2Defs()| == 26 && StackedBlocksWithoutEvent2Tables10(StackedBlocksWithoutEvent2Defs())
  {
  }

  lemma StackedBlocksWithoutEvent2DefsTables15()
    ensures |StackedBlocksWithoutEvent2Defs()| == 26 && StackedBlocksWithoutEvent2Tables15(StackedBlocksWithoutEvent2Defs())
  {
  }

  lemma StackedBlocksWithoutEvent2DefsTables20()
    ensures |StackedBlocksWithoutEvent2Defs()| == 26 && StackedBlocksWithoutEvent2Tables20(StackedBlocksWithoutEvent2Defs())
  {
  }

  /** `Extract` on `StackedBlocks(removed)` yields `StackedBlocksWithoutEvent2Nodes()`. */
  lemma StackedBlocksWithoutEvent2Graph(removed: set<EventId>) returns (g: seq<Node>)
    requires 0 !in removed && 1 !in removed && 2 in removed && 3 !in removed && 4 !in removed
    ensures Extract(StackedBlocks(removed)) == Ok(g) && StackedBlocksWithoutEvent2Shape(g)
  {
    g := StackedBlocksWithoutEvent2Nodes();
    var defs := StackedBlocksWithoutEvent2Defs();
    var p := StackedBlocks(removed);
    StackedBlocksWithoutEvent2NodesShape0();
    StackedBlocksWithoutEvent2NodesShape5();
    StackedBlocksWithoutEvent2NodesShape10();
    StackedBlocksWithoutEvent2NodesShape15();
    StackedBlocksWithoutEvent2NodesShape20();
    StackedBlocksWithoutEvent2DefsTables0();
    StackedBlocksWithoutEvent2DefsTables5();
    StackedBlocksWithoutEvent2DefsTables10();
    StackedBlocksWithoutEvent2DefsTables15();
    StackedBlocksWithoutEvent2DefsTables20();
    StackedBlocksWithoutEvent2Extract0(removed, g, defs);
    StackedBlocksWithoutEvent2Extract5(removed, g, defs);
    StackedBlocksWithoutEvent2Extract10(removed, g, defs);
    StackedBlocksWithoutEvent2Extract15(removed, g, defs);
    StackedBlocksWithoutEvent2Extract20(removed, g, defs);
    ExtractReplays(p, g, defs, 0);
    assert g[..0] == [];
  }

  lemma StackedBlocksWithoutEvent2Simulate0(g: seq<Node>)
    requires WellFormed(g) && |g| == 25
    requires g[0] == Node(SetStream(0, 0), OnDevice(0, 0), [])
    ensures SimulateFrom(g, 0, StackedBlocksWithoutEvent2State0()) == SimulateFrom(g, 1, StackedBlocksWithoutEvent2State1())
  {
    assert Step(g, 0, StackedBlocksWithoutEvent2State0()) == Ok(StackedBlocksWithoutEvent2State1());
    SimulateLink(g, 0, StackedBlocksWithoutEvent2State0(), StackedBlocksWithoutEvent2State1());
  }

  lemma StackedBlocksWithoutEvent2Simulate1(g: seq<Node>)
    requires WellFormed(g) && |g| == 25
    requires g[1] == Node(Atan(X), OnDevice(0, 0), [])
    ensures SimulateFrom(g, 1, StackedBlocksWithoutEvent2State1()) == SimulateFrom(g, 2, StackedBlocksWithoutEvent2State2())
  {
    ReadHazardsSmall(g, g[1].deps, 1, g[1].stream, ClockOf(StackedBlocksWithoutEvent2State1(), g[1].stream));
    assert StackedBlocksWithoutEvent2State1().hazards + ReadHazards(g, g[1].deps, 1, g[1].stream, ClockOf(StackedBlocksWithoutEvent2State1(), g[1].stream)) == StackedBlocksWithoutEvent2State2().hazards;
    assert Step(g, 1, StackedBlocksWithoutEvent2State1()) == Ok(StackedBlocksWithoutEvent2State2());
    SimulateLink(g, 1, StackedBlocksWithoutEvent2State1(), StackedBlocksWithoutEvent2State2());
  }

  lemma StackedBlocksWithoutEvent2Simulate2(g: seq<Node>)
    requires WellFormed(g) && |g| == 25
    requires g[1] == Node(Atan(X), OnDevice(0, 0), [])
    requires g[2] == Node(Atan(LetVar(1)), OnDevice(0, 0), [1])
    ensures SimulateFrom(g, 2, StackedBlocksWithoutEvent2State2()) == SimulateFrom(g, 3, StackedBlocksWithoutEvent2State3())
  {
    ReadHazardsSmall(g, g[2].deps, 2, g[2].stream, ClockOf(StackedBlocksWithoutEvent2State2(), g[2].stream));
    assert StackedBlocksWithoutEvent2State2().hazards + ReadHazards(g, g[2].deps, 2, g[2].stream, ClockOf(StackedBlocksWithoutEvent2State2(), g[2].stream)) == StackedBlocksWithoutEvent2State3().hazards;
    assert Step(g, 2, StackedBlocksWithoutEvent2State2()) == Ok(StackedBlocksWithoutEvent2State3());
    SimulateLink(g, 2, StackedBlocksWithoutEvent2State2(), StackedBlocksWithoutEvent2State3());
  }

  lemma StackedBlocksWithoutEvent2Simulate3(g: seq<Node>)
    requires WellFormed(g) && |g| == 25
    requires g[3] == Node(AddEvent(0), OnDevice(0, 0), [])
    ensures SimulateFrom(g, 3, StackedBlocksWithoutEvent2State3()) == SimulateFrom(g, 4, StackedBlocksWithoutEvent2State4())
  {
    assert Step(g, 3, StackedBlocksWithoutEvent2State3()) == Ok(StackedBlocksWithoutEvent2State4());
    SimulateLink(g, 3, StackedBlocksWithoutEvent2State3(), StackedBlocksWithoutEvent2State4());
  }

  lemma StackedBlocksWithoutEvent2Simulate4(g: seq<Node>)
    requires WellFormed(g) && |g| == 25
    requires g[4] == Node(SetStream(0, 1), OnDevice(0, 1), [])
    ensures SimulateFrom(g, 4, StackedBlocksWithoutEvent2State4()) == SimulateFrom(g, 5, StackedBlocksWithoutEvent2State5())
  {
    assert Step(g, 4, StackedBlocksWithoutEvent2State4()) == Ok(StackedBlocksWithoutEvent2State5());
    SimulateLink(g, 4, StackedBlocksWithoutEvent2State4(), StackedBlocksWithoutEvent2State5());
  }

  lemma StackedBlocksWithoutEvent2Simulate5(g: seq<Node>)
    requires WellFormed(g) && |g| == 25
    requires g[5] == Node(Atan(X), OnDevice(0, 1), [])
    ensures SimulateFrom(g, 5, StackedBlocksWithoutEvent2State5()) == SimulateFrom(g, 6, StackedBlocksWithoutEvent2State6())
  {
    ReadHazardsSmall(g, g[5].deps, 5, g[5].stream, ClockOf(StackedBlocksWithoutEvent2State5(), g[5].stream));
    assert StackedBlocksWithoutEvent2State5().hazards + ReadHazards(g, g[5].deps, 5, g[5].stream, ClockOf(StackedBlocksWithoutEvent2State5(), g[5].stream)) == StackedBlocksWithoutEvent2State6().hazards;
    assert Step(g, 5, StackedBlocksWithoutEvent2State5()) == Ok(StackedBlocksWithoutEvent2State6());
    SimulateLink(g, 5, StackedBlocksWithoutEvent2State5(), StackedBlocksWithoutEvent2State6());
  }

  lemma StackedBlocksWithoutEvent2Simulate6(g: seq<Node>)
    requires WellFormed(g) && |g| == 25
    requires g[6] == Node(AddEvent(1), OnDevice(0, 1), [])
    ensures SimulateFrom(g, 6, StackedBlocksWithoutEvent2State6()) == SimulateFrom(g, 7, StackedBlocksWithoutEvent2State7())
  {
    assert Step(g, 6, StackedBlocksWithoutEvent2State6()) == Ok(StackedBlocksWithoutEvent2State7());
    SimulateLink(g, 6, StackedBlocksWithoutEvent2State6(), StackedBlocksWithoutEvent2State7());
  }

  lemma StackedBlocksWithoutEvent2Simulate7(g: seq<Node>)
    requires WellFormed(g) && |g| == 25
    requires g[7] == Node(SetStream(0, 2), OnDevice(0, 2), [])
    ensures SimulateFrom(g, 7, StackedBlocksWithoutEvent2State7()) == SimulateFrom(g, 8, StackedBlocksWithoutEvent2State8())
  {
    assert Step(g, 7, StackedBlocksWithoutEvent2State7()) == Ok(StackedBlocksWithoutEvent2State8());
    SimulateLink(g, 7, StackedBlocksWithoutEvent2State7(), StackedBlocksWithoutEvent2State8());
  }

  lemma StackedBlocksWithoutEvent2Simulate8(g: seq<Node>)
    requires WellFormed(g) && |g| == 25
    requires g[8] == Node(Atan(X), OnDevice(0, 2), [])
    ensures SimulateFrom(g, 8, StackedBlocksWithoutEvent2State8()) == SimulateFrom(g, 9, StackedBlocksWithoutEvent2State9())
  {
    ReadHazardsSmall(g, g[8].deps, 8, g[8].stream, ClockOf(StackedBlocksWithoutEvent2State8(), g[8].stream));
    assert StackedBlocksWithoutEvent2State8().hazards + ReadHazards(g, g[8].deps, 8, g[8].stream, ClockOf(StackedBlocksWithoutEvent2State8(), g[8].stream)) == StackedBlocksWithoutEvent2State9().hazards;
    assert Step(g, 8, StackedBlocksWithoutEvent2State8()) == Ok(StackedBlocksWithoutEvent2State9());
    SimulateLink(g, 8, StackedBlocksWithoutEvent2State8(), StackedBlocksWithoutEvent2State9());
  }

  lemma StackedBlocksWithoutEvent2Simulate9(g: seq<Node>)
    requires WellFormed(g) && |g| == 25
    requires g[9] == Node(WaitEvent(1), OnDevice(0, 2), [])
    ensures SimulateFrom(g, 9, StackedBlocksWithoutEvent2State9()) == SimulateFrom(g, 10, StackedBlocksWithoutEvent2State10())
  {
    MergeIs(map[], Mark(OnDevice(0, 1), 6, map[]), map[OnDevice(0, 1) := 6]);
    assert Step(g, 9, StackedBlocksWithoutEvent2State9()) == Ok(StackedBlocksWithoutEvent2State10());
    SimulateLink(g, 9, StackedBlocksWithoutEvent2State9(), StackedBlocksWithoutEvent2State10());
  }

  lemma StackedBlocksWithoutEvent2Simulate10(g: seq<Node>)
    requires WellFormed(g) && |g| == 25
    requires g[10] == Node(WaitEvent(0), OnDevice(0, 2), [])
    ensures SimulateFrom(g, 10, StackedBlocksWithoutEvent2State10()) == SimulateFrom(g, 11, StackedBlocksWithoutEvent2State11())
  {
    MergeIs(map[OnDevice(0, 1) := 6], Mark(OnDevice(0, 0), 3, map[]), map[OnDevice(0, 0) := 3, OnDevice(0, 1) := 6]);
    assert Step(g, 10, StackedBlocksWithoutEvent2State10()) == Ok(StackedBlocksWithoutEvent2State11());
    SimulateLink(g, 10, StackedBlocksWithoutEvent2State10(), StackedBlocksWithoutEvent2State11());
  }

  lemma StackedBlocksWithoutEvent2Simulate11(g: seq<Node>)
    requires WellFormed(g) && |g| == 25
    requires g[2] == Node(Atan(LetVar(1)), OnDevice(0, 0), [1])
    requires g[5] == Node(Atan(X), OnDevice(0, 1), [])
    requires g[8] == Node(Atan(X), OnDevice(0, 2), [])
    requires g[11] == Node(MakeTuple([LetVar(8), LetVar(5), LetVar(2)]), OnDevice(0, 2), [8, 5, 2])
    ensures SimulateFrom(g, 11, StackedBlocksWithoutEvent2State11()) == SimulateFrom(g, 12, StackedBlocksWithoutEvent2State12())
  {
    ReadHazardsSmall(g, g[11].deps, 11, g[11].stream, ClockOf(StackedBlocksWithoutEvent2State11(), g[11].stream));
    assert StackedBlocksWithoutEvent2State11().hazards + ReadHazards(g, g[11].deps, 11, g[11].stream, ClockOf(StackedBlocksWithoutEvent2State11(), g[11].stream)) == StackedBlocksWithoutEvent2State12().hazards;
    assert Step(g, 11, StackedBlocksWithoutEvent2State11()) == Ok(StackedBlocksWithoutEvent2State12());
    SimulateLink(g, 11, StackedBlocksWithoutEvent2State11(), StackedBlocksWithoutEvent2State12());
  }

  lemma StackedBlocksWithoutEvent2Simulate12(g: seq<Node>)
    requires WellFormed(g) && |g| == 25
    requires g[11] == Node(MakeTuple([LetVar(8), LetVar(5), LetVar(2)]), OnDevice(0, 2), [8, 5, 2])
    requires g[12] == Node(Concatenate(LetVar(11), 0), OnDevice(0, 2), [11])
    ensures SimulateFrom(g, 12, StackedBlocksWithoutEvent2State12()) == SimulateFrom(g, 13, StackedBlocksWithoutEvent2State13())
  {
    ReadHazardsSmall(g, g[12].deps, 12, g[12].stream, ClockOf(StackedBlocksWithoutEvent2State12(), g[12].stream));
    assert StackedBlocksWithoutEvent2State12().hazards + ReadHazards(g, g[12].deps, 12, g[12].stream, ClockOf(StackedBlocksWithoutEvent2State12(), g[12].stream)) == StackedBlocksWithoutEvent2State13().hazards;
    assert Step(g, 12, StackedBlocksWithoutEvent2State12()) == Ok(StackedBlocksWithoutEvent2State13());
    SimulateLink(g, 12, StackedBlocksWithoutEvent2State12(), StackedBlocksWithoutEvent2State13());
  }

  lemma StackedBlocksWithoutEvent2Simulate13(g: seq<Node>)
    requires WellFormed(g) && |g| == 25
    requires g[12] == Node(Concatenate(LetVar(11), 0), OnDevice(0, 2), [11])
    requires g[13] == Node(Atan(LetVar(12)), OnDevice(0, 2), [12])
    ensures SimulateFrom(g, 13, StackedBlocksWithoutEvent2State13()) == SimulateFrom(g, 14, StackedBlocksWithoutEvent2State14())
  {
    ReadHazardsSmall(g, g[13].deps, 13, g[13].stream, ClockOf(StackedBlocksWithoutEvent2State13(), g[13].stream));
    assert StackedBlocksWithoutEvent2State13().hazards + ReadHazards(g, g[13].deps, 13, g[13].stream, ClockOf(StackedBlocksWithoutEvent2State13(), g[13].stream)) == StackedBlocksWithoutEvent2State14().hazards;
    assert Step(g, 13, StackedBlocksWithoutEvent2State13()) == Ok(StackedBlocksWithoutEvent2State14());
    SimulateLink(g, 13, StackedBlocksWithoutEvent2State13(), StackedBlocksWithoutEvent2State14());
  }

  lemma StackedBlocksWithoutEvent2Simulate14(g: seq<Node>)
    requires WellFormed(g) && |g| == 25
    requires g[13] == Node(Atan(LetVar(12)), OnDevice(0, 2), [12])
    requires g[14] == Node(Atan(LetVar(14)), OnDevice(0, 2), [13])
    ensures SimulateFrom(g, 14, StackedBlocksWithoutEvent2State14()) == SimulateFrom(g, 15, StackedBlocksWithoutEvent2State15())
  {
    ReadHazardsSmall(g, g[14].deps, 14, g[14].stream, ClockOf(StackedBlocksWithoutEvent2State14(), g[14].stream));
    assert StackedBlocksWithoutEvent2State14().hazards + ReadHazards(g, g[14].deps, 14, g[14].stream, ClockOf(StackedBlocksWithoutEvent2State14(), g[14].stream)) == StackedBlocksWithoutEvent2State15().hazards;
    assert Step(g, 14, StackedBlocksWithoutEvent2State14()) == Ok(StackedBlocksWithoutEvent2State15());
    SimulateLink(g, 14, StackedBlocksWithoutEvent2State14(), StackedBlocksWithoutEvent2State15());
  }

  lemma StackedBlocksWithoutEvent2Simulate15(g: seq<Node>)
    requires WellFormed(g) && |g| == 25
    requires g[15] == Node(AddEvent(3), OnDevice(0, 2), [])
    ensures SimulateFrom(g, 15, StackedBlocksWithoutEvent2State15()) == SimulateFrom(g, 16, StackedBlocksWithoutEvent2State16())
  {
    assert Step(g, 15, StackedBlocksWithoutEvent2State15()) == Ok(StackedBlocksWithoutEvent2State16());
    SimulateLink(g, 15, StackedBlocksWithoutEvent2State15(), StackedBlocksWithoutEvent2State16());
  }

  lemma StackedBlocksWithoutEvent2Simulate16(g: seq<Node>)
    requires WellFormed(g) && |g| == 25
    requires g[16] == Node(SetStream(0, 1), OnDevice(0, 1), [])
    ensures SimulateFrom(g, 16, StackedBlocksWithoutEvent2State16()) == SimulateFrom(g, 17, StackedBlocksWithoutEvent2State17())
  {
    assert Step(g, 16, StackedBlocksWithoutEvent2State16()) == Ok(StackedBlocksWithoutEvent2State17());
    SimulateLink(g, 16, StackedBlocksWithoutEvent2State16(), StackedBlocksWithoutEvent2State17());
  }

  lemma StackedBlocksWithoutEvent2Simulate17(g: seq<Node>)
    requires WellFormed(g) && |g| == 25
    requires g[12] == Node(Concatenate(LetVar(11), 0), OnDevice(0, 2), [11])
    requires g[17] == Node(Atan(LetVar(12)), OnDevice(0, 1), [12])
    ensures SimulateFrom(g, 17, StackedBlocksWithoutEvent2State17()) == SimulateFrom(g, 18, StackedBlocksWithoutEvent2State18())
  {
    ReadHazardsSmall(g, g[17].deps, 17, g[17].stream, ClockOf(StackedBlocksWithoutEvent2State17(), g[17].stream));
    assert StackedBlocksWithoutEvent2State17().hazards + ReadHazards(g, g[17].deps, 17, g[17].stream, ClockOf(StackedBlocksWithoutEvent2State17(), g[17].stream)) == StackedBlocksWithoutEvent2State18().hazards;
    assert Step(g, 17, StackedBlocksWithoutEvent2State17()) == Ok(StackedBlocksWithoutEvent2State18());
    SimulateLink(g, 17, StackedBlocksWithoutEvent2State17(), StackedBlocksWithoutEvent2State18());
  }

  lemma StackedBlocksWithoutEvent2Simulate18(g: seq<Node>)
    requires WellFormed(g) && |g| == 25
    requires g[18] == Node(AddEvent(4), OnDevice(0, 1), [])
    ensures SimulateFrom(g, 18, StackedBlocksWithoutEvent2State18()) == SimulateFrom(g, 19, StackedBlocksWithoutEvent2State19())
  {
    assert Step(g, 18, StackedBlocksWithoutEvent2State18()) == Ok(StackedBlocksWithoutEvent2State19());
    SimulateLink(g, 18, StackedBlocksWithoutEvent2State18(), StackedBlocksWithoutEvent2State19());
  }

  lemma StackedBlocksWithoutEvent2Simulate19(g: seq<Node>)
    requires WellFormed(g) && |g| == 25
    requires g[19] == Node(SetStream(0, 0), OnDevice(0, 0), [])
    ensures SimulateFrom(g, 19, StackedBlocksWithoutEvent2State19()) == SimulateFrom(g, 20, StackedBlocksWithoutEvent2State20())
  {
    assert Step(g, 19, StackedBlocksWithoutEvent2State19()) == Ok(StackedBlocksWithoutEvent2State20());
    SimulateLink(g, 19, StackedBlocksWithoutEvent2State19(), StackedBlocksWithoutEvent2State20());
  }

  lemma StackedBlocksWithoutEvent2Simulate20(g: seq<Node>)
    requires WellFormed(g) && |g| == 25
    requires g[12] == Node(Concatenate(LetVar(11), 0), OnDevice(0, 2), [11])
    requires g[20] == Node(Atan(LetVar(12)), OnDevice(0, 0), [12])
    ensures SimulateFrom(g, 20, StackedBlocksWithoutEvent2State20()) == SimulateFrom(g, 21, StackedBlocksWithoutEvent2State21())
  {
    ReadHazardsSmall(g, g[20].deps, 20, g[20].stream, ClockOf(StackedBlocksWithoutEvent2State20(), g[20].stream));
    assert StackedBlocksWithoutEvent2State20().hazards + ReadHazards(g, g[20].deps, 20, g[20].stream, ClockOf(StackedBlocksWithoutEvent2State20(), g[20].stream)) == StackedBlocksWithoutEvent2State21().hazards;
    assert Step(g, 20, StackedBlocksWithoutEvent2State20()) == Ok(StackedBlocksWithoutEvent2State21());
    SimulateLink(g, 20, StackedBlocksWithoutEvent2State20(), StackedBlocksWithoutEvent2State21());
  }

  lemma StackedBlocksWithoutEvent2Simulate21(g: seq<Node>)
    requires WellFormed(g) && |g| == 25
    requires g[21] == Node(WaitEvent(4), OnDevice(0, 0), [])
    ensures SimulateFrom(g, 21, StackedBlocksWithoutEvent2State21()) == SimulateFrom(g, 22, StackedBlocksWithoutEvent2State22())
  {
    MergeIs(map[], Mark(OnDevice(0, 1), 18, map[]), map[OnDevice(0, 1) := 18]);
    assert Step(g, 21, StackedBlocksWithoutEvent2State21()) == Ok(StackedBlocksWithoutEvent2State22());
    SimulateLink(g, 21, StackedBlocksWithoutEvent2State21(), StackedBlocksWithoutEvent2State22());
  }

  lemma StackedBlocksWithoutEvent2Simulate22(g: seq<Node>)
    requires WellFormed(g) && |g| == 25
    requires g[22] == Node(WaitEvent(3), OnDevice(0, 0), [])
    ensures SimulateFrom(g, 22, StackedBlocksWithoutEvent2State22()) == SimulateFrom(g, 23, StackedBlocksWithoutEvent2State23())
  {
    MergeIs(map[OnDevice(0, 1) := 18], Mark(OnDevice(0, 2), 15, map[OnDevice(0, 0) := 3, OnDevice(0, 1) := 6]), map[OnDevice(0, 0) := 3, OnDevice(0, 1) := 18, OnDevice(0, 2) := 15]);
    assert Step(g, 22, StackedBlocksWithoutEvent2State22()) == Ok(StackedBlocksWithoutEvent2State23());
    SimulateLink(g, 22, StackedBlocksWithoutEvent2State22(), StackedBlocksWithoutEvent2State23());
  }

  lemma StackedBlocksWithoutEvent2Simulate23(g: seq<Node>)
    requires WellFormed(g) && |g| == 25
    requires g[14] == Node(Atan(LetVar(14)), OnDevice(0, 2), [13])
    requires g[17] == Node(Atan(LetVar(12)), OnDevice(0, 1), [12])
    requires g[20] == Node(Atan(LetVar(12)), OnDevice(0, 0), [12])
    requires g[23] == Node(MakeTuple([LetVar(23), LetVar(19), LetVar(15)]), OnDevice(0, 0), [20, 17, 14])
    ensures SimulateFrom(g, 23, StackedBlocksWithoutEvent2State23()) == SimulateFrom(g, 24, StackedBlocksWithoutEvent2State24())
  {
    ReadHazardsSmall(g, g[23].deps, 23, g[23].stream, ClockOf(StackedBlocksWithoutEvent2State23(), g[23].stream));
    assert StackedBlocksWithoutEvent2State23().hazards + ReadHazards(g, g[23].deps, 23, g[23].stream, ClockOf(StackedBlocksWithoutEvent2State23(), g[23].stream)) == StackedBlocksWithoutEvent2State24().hazards;
    assert Step(g, 23, StackedBlocksWithoutEvent2State23()) == Ok(StackedBlocksWithoutEvent2State24());
    SimulateLink(g, 23, StackedBlocksWithoutEvent2State23(), StackedBlocksWithoutEvent2State24());
  }

  lemma StackedBlocksWithoutEvent2Simulate24(g: seq<Node>)
    requires WellFormed(g) && |g| == 25
    requires g[23] == Node(MakeTuple([LetVar(23), LetVar(19), LetVar(15)]), OnDevice(0, 0), [20, 17, 14])
    requires g[24] == Node(Concatenate(LetVar(26), 0), OnDevice(0, 0), [23])
    ensures SimulateFrom(g, 24, StackedBlocksWithoutEvent2State24()) == SimulateFrom(g, 25, StackedBlocksWithoutEvent2State25())
  {
    ReadHazardsSmall(g, g[24].deps, 24, g[24].stream, ClockOf(StackedBlocksWithoutEvent2State24(), g[24].stream));
    assert StackedBlocksWithoutEvent2State24().hazards + ReadHazards(g, g[24].deps, 24, g[24].stream, ClockOf(StackedBlocksWithoutEvent2State24(), g[24].stream)) == StackedBlocksWithoutEvent2State25().hazards;
    assert Step(g, 24, StackedBlocksWithoutEvent2State24()) == Ok(StackedBlocksWithoutEvent2State25());
    SimulateLink(g, 24, StackedBlocksWithoutEvent2State24(), StackedBlocksWithoutEvent2State25());
  }

  /** Without event 2 `x_19` and `x_23` both read the first join `x_12` unordered. */
  lemma Verdict(removed: set<EventId>)
    requires 0 !in removed && 1 !in removed && 2 in removed && 3 !in removed && 4 !in removed
    ensures Verify(StackedBlocks(removed)) == Err(ExecutionOrder([Hazard(12, 17, OnDevice(0, 2), OnDevice(0, 1)), Hazard(12, 20, OnDevice(0, 2), OnDevice(0, 0))]))
  {
    var g := StackedBlocksWithoutEvent2Graph(removed);
    StackedBlocksWithoutEvent2Simulate0(g);
    StackedBlocksWithoutEvent2Simulate1(g);
    StackedBlocksWithoutEvent2Simulate2(g);
    StackedBlocksWithoutEvent2Simulate3(g);
    StackedBlocksWithoutEvent2Simulate4(g);
    StackedBlocksWithoutEvent2Simulate5(g);
    StackedBlocksWithoutEvent2Simulate6(g);
    StackedBlocksWithoutEvent2Simulate7(g);
    StackedBlocksWithoutEvent2Simulate8(g);
    StackedBlocksWithoutEvent2Simulate9(g);
    StackedBlocksWithoutEvent2Simulate10(g);
    StackedBlocksWithoutEvent2Simulate11(g);
    StackedBlocksWithoutEvent2Simulate12(g);
    StackedBlocksWithoutEvent2Simulate13(g);
    StackedBlocksWithoutEvent2Simulate14(g);
    StackedBlocksWithoutEvent2Simulate15(g);
    StackedBlocksWithoutEvent2Simulate16(g);
    StackedBlocksWithoutEvent2Simulate17(g);
    StackedBlocksWithoutEvent2Simulate18(g);
    StackedBlocksWithoutEvent2Simulate19(g);
    StackedBlocksWithoutEvent2Simulate20(g);
    StackedBlocksWithoutEvent2Simulate21(g);
    StackedBlocksWithoutEvent2Simulate22(g);
    StackedBlocksWithoutEvent2Simulate23(g);
    StackedBlocksWithoutEvent2Simulate24(g);
    SimulateDone(g, StackedBlocksWithoutEvent2State25());
  }
}
