/**
 * The verifier's verdict on `StackedBlocks(removed)` for one choice of removed events.
 * Without event 1 the first join `x_11` reads `x_5` unordered.
 */
module StackedBlocksWithoutEvent1 {
  import opened Results
  import opened ScheduleVerifier
  import opened ScheduleTheory
  import opened SchedulePrograms

  /** The graph `Extract` builds for `StackedBlocks(removed)`. */
  function StackedBlocksWithoutEvent1Nodes(): seq<Node>
  {
    [ Node(SetStream(0, 0), OnDevice(0, 0), [])
    , Node(Atan(X), OnDevice(0, 0), [])
    , Node(Atan(LetVar(1)), OnDevice(0, 0), [1])
    , Node(AddEvent(0), OnDevice(0, 0), [])
    , Node(SetStream(0, 1), OnDevice(0, 1), [])
    , Node(Atan(X), OnDevice(0, 1), [])
    , Node(SetStream(0, 2), OnDevice(0, 2), [])
    , Node(Atan(X), OnDevice(0, 2), [])
    , Node(WaitEvent(0), OnDevice(0, 2), [])
    , Node(MakeTuple([LetVar(8), LetVar(5), LetVar(2)]), OnDevice(0, 2), [7, 5, 2])
    , Node(Concatenate(LetVar(11), 0), OnDevice(0, 2), [9])
    , Node(AddEvent(2), OnDevice(0, 2), [])
    , Node(Atan(LetVar(12)), OnDevice(0, 2), [10])
    , Node(Atan(LetVar(14)), OnDevice(0, 2), [12])
    , Node(AddEvent(3), OnDevice(0, 2), [])
    , Node(SetStream(0, 1), OnDevice(0, 1), [])
    , Node(WaitEvent(2), OnDevice(0, 1), [])
    , Node(Atan(LetVar(12)), OnDevice(0, 1), [10])
    , Node(AddEvent(4), OnDevice(0, 1), [])
    , Node(SetStream(0, 0), OnDevice(0, 0), [])
    , Node(WaitEvent(2), OnDevice(0, 0), [])
    , Node(Atan(LetVar(12)), OnDevice(0, 0), [10])
    , Node(WaitEvent(4), OnDevice(0, 0), [])
    , Node(WaitEvent(3), OnDevice(0, 0), [])
    , Node(MakeTuple([LetVar(23), LetVar(19), LetVar(15)]), OnDevice(0, 0), [21, 17, 13])
    , Node(Concatenate(LetVar(26), 0), OnDevice(0, 0), [24]) ]
  }

  /** `g` is `StackedBlocksWithoutEvent1Nodes()`, position by position. */
  predicate StackedBlocksWithoutEvent1Shape(g: seq<Node>)
  {
    && |g| == 26
    && StackedBlocksWithoutEvent1Shape0(g)
    && StackedBlocksWithoutEvent1Shape5(g)
    && StackedBlocksWithoutEvent1Shape10(g)
    && StackedBlocksWithoutEvent1Shape15(g)
    && StackedBlocksWithoutEvent1Shape20(g)
    && StackedBlocksWithoutEvent1Shape25(g)
  }

  predicate StackedBlocksWithoutEvent1Shape0(g: seq<Node>)
    requires |g| == 26
  {
    && g[0] == Node(SetStream(0, 0), OnDevice(0, 0), [])
    && g[1] == Node(Atan(X), OnDevice(0, 0), [])
    && g[2] == Node(Atan(LetVar(1)), OnDevice(0, 0), [1])
    && g[3] == Node(AddEvent(0), OnDevice(0, 0), [])
    && g[4] == Node(SetStream(0, 1), OnDevice(0, 1), [])
  }

  predicate StackedBlocksWithoutEvent1Shape5(g: seq<Node>)
    requires |g| == 26
  {
    && g[5] == Node(Atan(X), OnDevice(0, 1), [])
    && g[6] == Node(SetStream(0, 2), OnDevice(0, 2), [])
    && g[7] == Node(Atan(X), OnDevice(0, 2), [])
    && g[8] == Node(WaitEvent(0), OnDevice(0, 2), [])
    && g[9] == Node(MakeTuple([LetVar(8), LetVar(5), LetVar(2)]), OnDevice(0, 2), [7, 5, 2])
  }

  predicate StackedBlocksWithoutEvent1Shape10(g: seq<Node>)
    requires |g| == 26
  {
    && g[10] == Node(Concatenate(LetVar(11), 0), OnDevice(0, 2), [9])
    && g[11] == Node(AddEvent(2), OnDevice(0, 2), [])
    && g[12] == Node(Atan(LetVar(12)), OnDevice(0, 2), [10])
    && g[13] == Node(Atan(LetVar(14)), OnDevice(0, 2), [12])
    && g[14] == Node(AddEvent(3), OnDevice(0, 2), [])
  }

  predicate StackedBlocksWithoutEvent1Shape15(g: seq<Node>)
    requires |g| == 26
  {
    && g[15] == Node(SetStream(0, 1), OnDevice(0, 1), [])
    && g[16] == Node(WaitEvent(2), OnDevice(0, 1), [])
    && g[17] == Node(Atan(LetVar(12)), OnDevice(0, 1), [10])
    && g[18] == Node(AddEvent(4), OnDevice(0, 1), [])
    && g[19] == Node(SetStream(0, 0), OnDevice(0, 0), [])
  }

  predicate StackedBlocksWithoutEvent1Shape20(g: seq<Node>)
    requires |g| == 26
  {
    && g[20] == Node(WaitEvent(2), OnDevice(0, 0), [])
    && g[21] == Node(Atan(LetVar(12)), OnDevice(0, 0), [10])
    && g[22] == Node(WaitEvent(4), OnDevice(0, 0), [])
    && g[23] == Node(WaitEvent(3), OnDevice(0, 0), [])
    && g[24] == Node(MakeTuple([LetVar(23), LetVar(19), LetVar(15)]), OnDevice(0, 0), [21, 17, 13])
  }

  predicate StackedBlocksWithoutEvent1Shape25(g: seq<Node>)
    requires |g| == 26
  {
    && g[25] == Node(Concatenate(LetVar(26), 0), OnDevice(0, 0), [24])
  }

  /** The variable table before each position of `StackedBlocks(removed)`. */
  function StackedBlocksWithoutEvent1Defs(): seq<map<VarId, nat>>
  {
    [ map[]
    , map[0 := 0]
    , map[0 := 0, 1 := 1]
    , map[0 := 0, 1 := 1, 2 := 2]
    , map[0 := 0, 1 := 1, 2 := 2, 3 := 3]
    , map[0 := 0, 1 := 1, 2 := 2, 3 := 3, 4 := 4]
    , map[0 := 0, 1 := 1, 2 := 2, 3 := 3, 4 := 4, 5 := 5]
    , map[0 := 0, 1 := 1, 2 := 2, 3 := 3, 4 := 4, 5 := 5, 7 := 6]
    , map[0 := 0, 1 := 1, 2 := 2, 3 := 3, 4 := 4, 5 := 5, 7 := 6, 8 := 7]
    , map[0 := 0, 1 := 1, 2 := 2, 3 := 3, 4 := 4, 5 := 5, 7 := 6, 8 := 7, 10 := 8]
    , map[0 := 0, 1 := 1, 2 := 2, 3 := 3, 4 := 4, 5 := 5, 7 := 6, 8 := 7, 10 := 8, 11 := 9]
    , map[0 := 0, 1 := 1, 2 := 2, 3 := 3, 4 := 4, 5 := 5, 7 := 6, 8 := 7, 10 := 8, 11 := 9, 12 := 10]
    , map[0 := 0, 1 := 1, 2 := 2, 3 := 3, 4 := 4, 5 := 5, 7 := 6, 8 := 7, 10 := 8, 11 := 9, 12 := 10, 13 := 11]
    , map[0 := 0, 1 := 1, 2 := 2, 3 := 3, 4 := 4, 5 := 5, 7 := 6, 8 := 7, 10 := 8, 11 := 9, 12 := 10, 13 := 11, 14 := 12]
    , map[0 := 0, 1 := 1, 2 := 2, 3 := 3, 4 := 4, 5 := 5, 7 := 6, 8 := 7, 10 := 8, 11 := 9, 12 := 10, 13 := 11, 14 := 12, 15 := 13]
    , map[0 := 0, 1 := 1, 2 := 2, 3 := 3, 4 := 4, 5 := 5, 7 := 6, 8 := 7, 10 := 8, 11 := 9, 12 := 10, 13 := 11, 14 := 12, 15 := 13, 16 := 14]
    , map[0 := 0, 1 := 1, 2 := 2, 3 := 3, 4 := 4, 5 := 5, 7 := 6, 8 := 7, 10 := 8, 11 := 9, 12 := 10, 13 := 11, 14 := 12, 15 := 13, 16 := 14, 17 := 15]
    , map[0 := 0, 1 := 1, 2 := 2, 3 := 3, 4 := 4, 5 := 5, 7 := 6, 8 := 7, 10 := 8, 11 := 9, 12 := 10, 13 := 11, 14 := 12, 15 := 13, 16 := 14, 17 := 15, 18 := 16]
    , map[0 := 0, 1 := 1, 2 := 2, 3 := 3, 4 := 4, 5 := 5, 7 := 6, 8 := 7, 10 := 8, 11 := 9, 12 := 10, 13 := 11, 14 := 12, 15 := 13, 16 := 14, 17 := 15, 18 := 16, 19 := 17]
    , map[0 := 0, 1 := 1, 2 := 2, 3 := 3, 4 := 4, 5 := 5, 7 := 6, 8 := 7, 10 := 8, 11 := 9, 12 := 10, 13 := 11, 14 := 12, 15 := 13, 16 := 14, 17 := 15, 18 := 16, 19 := 17, 20 := 18]
    , map[0 := 0, 1 := 1, 2 := 2, 3 := 3, 4 := 4, 5 := 5, 7 := 6, 8 := 7, 10 := 8, 11 := 9, 12 := 10, 13 := 11, 14 := 12, 15 := 13, 16 := 14, 17 := 15, 18 := 16, 19 := 17, 20 := 18, 21 := 19]
    , map[0 := 0, 1 := 1, 2 := 2, 3 := 3, 4 := 4, 5 := 5, 7 := 6, 8 := 7, 10 := 8, 11 := 9, 12 := 10, 13 := 11, 14 := 12, 15 := 13, 16 := 14, 17 := 15, 18 := 16, 19 := 17, 20 := 18, 21 := 19, 22 := 20]
    , map[0 := 0, 1 := 1, 2 := 2, 3 := 3, 4 := 4, 5 := 5, 7 := 6, 8 := 7, 10 := 8, 11 := 9, 12 := 10, 13 := 11, 14 := 12, 15 := 13, 16 := 14, 17 := 15, 18 := 16, 19 := 17, 20 := 18, 21 := 19, 22 := 20, 23 := 21]
    , map[0 := 0, 1 := 1, 2 := 2, 3 := 3, 4 := 4, 5 := 5, 7 := 6, 8 := 7, 10 := 8, 11 := 9, 12 := 10, 13 := 11, 14 := 12, 15 := 13, 16 := 14, 17 := 15, 18 := 16, 19 := 17, 20 := 18, 21 := 19, 22 := 20, 23 := 21, 24 := 22]
    , map[0 := 0, 1 := 1, 2 := 2, 3 := 3, 4 := 4, 5 := 5, 7 := 6, 8 := 7, 10 := 8, 11 := 9, 12 := 10, 13 := 11, 14 := 12, 15 := 13, 16 := 14, 17 := 15, 18 := 16, 19 := 17, 20 := 18, 21 := 19, 22 := 20, 23 := 21, 24 := 22, 25 := 23]
    , map[0 := 0, 1 := 1, 2 := 2, 3 := 3, 4 := 4, 5 := 5, 7 := 6, 8 := 7, 10 := 8, 11 := 9, 12 := 10, 13 := 11, 14 := 12, 15 := 13, 16 := 14, 17 := 15, 18 := 16, 19 := 17, 20 := 18, 21 := 19, 22 := 20, 23 := 21, 24 := 22, 25 := 23, 26 := 24]
    , map[0 := 0, 1 := 1, 2 := 2, 3 := 3, 4 := 4, 5 := 5, 7 := 6, 8 := 7, 10 := 8, 11 := 9, 12 := 10, 13 := 11, 14 := 12, 15 := 13, 16 := 14, 17 := 15, 18 := 16, 19 := 17, 20 := 18, 21 := 19, 22 := 20, 23 := 21, 24 := 22, 25 := 23, 26 := 24, 27 := 25] ]
  }

  /** `defs` is `StackedBlocksWithoutEvent1Defs()`, position by position. */
  predicate StackedBlocksWithoutEvent1Tables(defs: seq<map<VarId, nat>>)
  {
    && |defs| == 27
    && StackedBlocksWithoutEvent1Tables0(defs)
    && StackedBlocksWithoutEvent1Tables5(defs)
    && StackedBlocksWithoutEvent1Tables10(defs)
    && StackedBlocksWithoutEvent1Tables15(defs)
    && StackedBlocksWithoutEvent1Tables20(defs)
    && StackedBlocksWithoutEvent1Tables25(defs)
  }

  predicate StackedBlocksWithoutEvent1Tables0(defs: seq<map<VarId, nat>>)
    requires |defs| == 27
  {
    && defs[0] == map[]
    && defs[1] == map[0 := 0]
    && defs[2] == map[0 := 0, 1 := 1]
    && defs[3] == map[0 := 0, 1 := 1, 2 := 2]
    && defs[4] == map[0 := 0, 1 := 1, 2 := 2, 3 := 3]
  }

  predicate StackedBlocksWithoutEvent1Tables5(defs: seq<map<VarId, nat>>)
    requires |defs| == 27
  {
    && defs[5] == map[0 := 0, 1 := 1, 2 := 2, 3 := 3, 4 := 4]
    && defs[6] == map[0 := 0, 1 := 1, 2 := 2, 3 := 3, 4 := 4, 5 := 5]
    && defs[7] == map[0 := 0, 1 := 1, 2 := 2, 3 := 3, 4 := 4, 5 := 5, 7 := 6]
    && defs[8] == map[0 := 0, 1 := 1, 2 := 2, 3 := 3, 4 := 4, 5 := 5, 7 := 6, 8 := 7]
    && defs[9] == map[0 := 0, 1 := 1, 2 := 2, 3 := 3, 4 := 4, 5 := 5, 7 := 6, 8 := 7, 10 := 8]
  }

  predicate StackedBlocksWithoutEvent1Tables10(defs: seq<map<VarId, nat>>)
    requires |defs| == 27
  {
    && defs[10] == map[0 := 0, 1 := 1, 2 := 2, 3 := 3, 4 := 4, 5 := 5, 7 := 6, 8 := 7, 10 := 8, 11 := 9]
    && defs[11] == map[0 := 0, 1 := 1, 2 := 2, 3 := 3, 4 := 4, 5 := 5, 7 := 6, 8 := 7, 10 := 8, 11 := 9, 12 := 10]
    && defs[12] == map[0 := 0, 1 := 1, 2 := 2, 3 := 3, 4 := 4, 5 := 5, 7 := 6, 8 := 7, 10 := 8, 11 := 9, 12 := 10, 13 := 11]
    && defs[13] == map[0 := 0, 1 := 1, 2 := 2, 3 := 3, 4 := 4, 5 := 5, 7 := 6, 8 := 7, 10 := 8, 11 := 9, 12 := 10, 13 := 11, 14 := 12]
    && defs[14] == map[0 := 0, 1 := 1, 2 := 2, 3 := 3, 4 := 4, 5 := 5, 7 := 6, 8 := 7, 10 := 8, 11 := 9, 12 := 10, 13 := 11, 14 := 12, 15 := 13]
  }

  predicate StackedBlocksWithoutEvent1Tables15(defs: seq<map<VarId, nat>>)
    requires |defs| == 27
  {
    && defs[15] == map[0 := 0, 1 := 1, 2 := 2, 3 := 3, 4 := 4, 5 := 5, 7 := 6, 8 := 7, 10 := 8, 11 := 9, 12 := 10, 13 := 11, 14 := 12, 15 := 13, 16 := 14]
    && defs[16] == map[0 := 0, 1 := 1, 2 := 2, 3 := 3, 4 := 4, 5 := 5, 7 := 6, 8 := 7, 10 := 8, 11 := 9, 12 := 10, 13 := 11, 14 := 12, 15 := 13, 16 := 14, 17 := 15]
    && defs[17] == map[0 := 0, 1 := 1, 2 := 2, 3 := 3, 4 := 4, 5 := 5, 7 := 6, 8 := 7, 10 := 8, 11 := 9, 12 := 10, 13 := 11, 14 := 12, 15 := 13, 16 := 14, 17 := 15, 18 := 16]
    && defs[18] == map[0 := 0, 1 := 1, 2 := 2, 3 := 3, 4 := 4, 5 := 5, 7 := 6, 8 := 7, 10 := 8, 11 := 9, 12 := 10, 13 := 11, 14 := 12, 15 := 13, 16 := 14, 17 := 15, 18 := 16, 19 := 17]
    && defs[19] == map[0 := 0, 1 := 1, 2 := 2, 3 := 3, 4 := 4, 5 := 5, 7 := 6, 8 := 7, 10 := 8, 11 := 9, 12 := 10, 13 := 11, 14 := 12, 15 := 13, 16 := 14, 17 := 15, 18 := 16, 19 := 17, 20 := 18]
  }

  predicate StackedBlocksWithoutEvent1Tables20(defs: seq<map<VarId, nat>>)
    requires |defs| == 27
  {
    && defs[20] == map[0 := 0, 1 := 1, 2 := 2, 3 := 3, 4 := 4, 5 := 5, 7 := 6, 8 := 7, 10 := 8, 11 := 9, 12 := 10, 13 := 11, 14 := 12, 15 := 13, 16 := 14, 17 := 15, 18 := 16, 19 := 17, 20 := 18, 21 := 19]
    && defs[21] == map[0 := 0, 1 := 1, 2 := 2, 3 := 3, 4 := 4, 5 := 5, 7 := 6, 8 := 7, 10 := 8, 11 := 9, 12 := 10, 13 := 11, 14 := 12, 15 := 13, 16 := 14, 17 := 15, 18 := 16, 19 := 17, 20 := 18, 21 := 19, 22 := 20]
    && defs[22] == map[0 := 0, 1 := 1, 2 := 2, 3 := 3, 4 := 4, 5 := 5, 7 := 6, 8 := 7, 10 := 8, 11 := 9, 12 := 10, 13 := 11, 14 := 12, 15 := 13, 16 := 14, 17 := 15, 18 := 16, 19 := 17, 20 := 18, 21 := 19, 22 := 20, 23 := 21]
    && defs[23] == map[0 := 0, 1 := 1, 2 := 2, 3 := 3, 4 := 4, 5 := 5, 7 := 6, 8 := 7, 10 := 8, 11 := 9, 12 := 10, 13 := 11, 14 := 12, 15 := 13, 16 := 14, 17 := 15, 18 := 16, 19 := 17, 20 := 18, 21 := 19, 22 := 20, 23 := 21, 24 := 22]
    && defs[24] == map[0 := 0, 1 := 1, 2 := 2, 3 := 3, 4 := 4, 5 := 5, 7 := 6, 8 := 7, 10 := 8, 11 := 9, 12 := 10, 13 := 11, 14 := 12, 15 := 13, 16 := 14, 17 := 15, 18 := 16, 19 := 17, 20 := 18, 21 := 19, 22 := 20, 23 := 21, 24 := 22, 25 := 23]
  }

  predicate StackedBlocksWithoutEvent1Tables25(defs: seq<map<VarId, nat>>)
    requires |defs| == 27
  {
    && defs[25] == map[0 := 0, 1 := 1, 2 := 2, 3 := 3, 4 := 4, 5 := 5, 7 := 6, 8 := 7, 10 := 8, 11 := 9, 12 := 10, 13 := 11, 14 := 12, 15 := 13, 16 := 14, 17 := 15, 18 := 16, 19 := 17, 20 := 18, 21 := 19, 22 := 20, 23 := 21, 24 := 22, 25 := 23, 26 := 24]
    && defs[26] == map[0 := 0, 1 := 1, 2 := 2, 3 := 3, 4 := 4, 5 := 5, 7 := 6, 8 := 7, 10 := 8, 11 := 9, 12 := 10, 13 := 11, 14 := 12, 15 := 13, 16 := 14, 17 := 15, 18 := 16, 19 := 17, 20 := 18, 21 := 19, 22 := 20, 23 := 21, 24 := 22, 25 := 23, 26 := 24, 27 := 25]
  }

  function StackedBlocksWithoutEvent1State0(): SimState
  {
    SimState(map[], map[], [])
  }

  function StackedBlocksWithoutEvent1State1(): SimState
  {
    SimState(map[], map[], [])
  }

  function StackedBlocksWithoutEvent1State2(): SimState
  {
    SimState(map[], map[], [])
  }

  function StackedBlocksWithoutEvent1State3(): SimState
  {
    SimState(map[], map[], [])
  }

  function StackedBlocksWithoutEvent1State4(): SimState
  {
    SimState(map[][0 := Mark(OnDevice(0, 0), 3, map[])], map[], [])
  }

  function StackedBlocksWithoutEvent1State5(): SimState
  {
    SimState(map[][0 := Mark(OnDevice(0, 0), 3, map[])], map[], [])
  }

  function StackedBlocksWithoutEvent1State6(): SimState
  {
    SimState(map[][0 := Mark(OnDevice(0, 0), 3, map[])], map[], [])
  }

  function StackedBlocksWithoutEvent1State7(): SimState
  {
    SimState(map[][0 := Mark(OnDevice(0, 0), 3, map[])], map[], [])
  }

  function StackedBlocksWithoutEvent1State8(): SimState
  {
    SimState(map[][0 := Mark(OnDevice(0, 0), 3, map[])], map[], [])
  }

  function StackedBlocksWithoutEvent1State9(): SimState
  {
    SimState(map[][0 := Mark(OnDevice(0, 0), 3, map[])], map[][OnDevice(0, 2) := map[OnDevice(0, 0) := 3]], [])
  }

  function StackedBlocksWithoutEvent1State10(): SimState
  {
    SimState(map[][0 := Mark(OnDevice(0, 0), 3, map[])], map[][OnDevice(0, 2) := map[OnDevice(0, 0) := 3]], [Hazard(5, 9, OnDevice(0, 1), OnDevice(0, 2))])
  }

  function StackedBlocksWithoutEvent1State11(): SimState
  {
    SimState(map[][0 := Mark(OnDevice(0, 0), 3, map[])], map[][OnDevice(0, 2) := map[OnDevice(0, 0) := 3]], [Hazard(5, 9, OnDevice(0, 1), OnDevice(0, 2))])
  }

  function StackedBlocksWithoutEvent1State12(): SimState
  {
    SimState(map[][0 := Mark(OnDevice(0, 0), 3, map[])][2 := Mark(OnDevice(0, 2), 11, map[OnDevice(0, 0) := 3])], map[][OnDevice(0, 2) := map[OnDevice(0, 0) := 3]], [Hazard(5, 9, OnDevice(0, 1), OnDevice(0, 2))])
  }

  function StackedBlocksWithoutEvent1State13(): SimState
  {
    SimState(map[][0 := Mark(OnDevice(0, 0), 3, map[])][2 := Mark(OnDevice(0, 2), 11, map[OnDevice(0, 0) := 3])], map[][OnDevice(0, 2) := map[OnDevice(0, 0) := 3]], [Hazard(5, 9, OnDevice(0, 1), OnDevice(0, 2))])
  }

  function StackedBlocksWithoutEvent1State14(): SimState
  {
    SimState(map[][0 := Mark(OnDevice(0, 0), 3, map[])][2 := Mark(OnDevice(0, 2), 11, map[OnDevice(0, 0) := 3])], map[][OnDevice(0, 2) := map[OnDevice(0, 0) := 3]], [Hazard(5, 9, OnDevice(0, 1), OnDevice(0, 2))])
  }

  function StackedBlocksWithoutEvent1State15(): SimState
  {
    SimState(map[][0 := Mark(OnDevice(0, 0), 3, map[])][2 := Mark(OnDevice(0, 2), 11, map[OnDevice(0, 0) := 3])][3 := Mark(OnDevice(0, 2), 14, map[OnDevice(0, 0) := 3])], map[][OnDevice(0, 2) := map[OnDevice(0, 0) := 3]], [Hazard(5, 9, OnDevice(0, 1), OnDevice(0, 2))])
  }

  function StackedBlocksWithoutEvent1State16(): SimState
  {
    SimState(map[][0 := Mark(OnDevice(0, 0), 3, map[])][2 := Mark(OnDevice(0, 2), 11, map[OnDevice(0, 0) := 3])][3 := Mark(OnDevice(0, 2), 14, map[OnDevice(0, 0) := 3])], map[][OnDevice(0, 2) := map[OnDevice(0, 0) := 3]], [Hazard(5, 9, OnDevice(0, 1), OnDevice(0, 2))])
  }

  function StackedBlocksWithoutEvent1State17(): SimState
  {
    SimState(map[][0 := Mark(OnDevice(0, 0), 3, map[])][2 := Mark(OnDevice(0, 2), 11, map[OnDevice(0, 0) := 3])][3 := Mark(OnDevice(0, 2), 14, map[OnDevice(0, 0) := 3])], map[][OnDevice(0, 2) := map[OnDevice(0, 0) := 3]][OnDevice(0, 1) := map[OnDevice(0, 0) := 3, OnDevice(0, 2) := 11]], [Hazard(5, 9, OnDevice(0, 1), OnDevice(0, 2))])
  }

  function StackedBlocksWithoutEvent1State18(): SimState
  {
    SimState(map[][0 := Mark(OnDevice(0, 0), 3, map[])][2 := Mark(OnDevice(0, 2), 11, map[OnDevice(0, 0) := 3])][3 := Mark(OnDevice(0, 2), 14, map[OnDevice(0, 0) := 3])], map[][OnDevice(0, 2) := map[OnDevice(0, 0) := 3]][OnDevice(0, 1) := map[OnDevice(0, 0) := 3, OnDevice(0, 2) := 11]], [Hazard(5, 9, OnDevice(0, 1), OnDevice(0, 2))])
  }

  function StackedBlocksWithoutEvent1State19(): SimState
  {
    SimState(map[][0 := Mark(OnDevice(0, 0), 3, map[])][2 := Mark(OnDevice(0, 2), 11, map[OnDevice(0, 0) := 3])][3 := Mark(OnDevice(0, 2), 14, map[OnDevice(0, 0) := 3])][4 := Mark(OnDevice(0, 1), 18, map[OnDevice(0, 0) := 3, OnDevice(0, 2) := 11])], map[][OnDevice(0, 2) := map[OnDevice(0, 0) := 3]][OnDevice(0, 1) := map[OnDevice(0, 0) := 3, OnDevice(0, 2) := 11]], [Hazard(5, 9, OnDevice(0, 1), OnDevice(0, 2))])
  }

  function StackedBlocksWithoutEvent1State20(): SimState
  {
    SimState(map[][0 := Mark(OnDevice(0, 0), 3, map[])][2 := Mark(OnDevice(0, 2), 11, map[OnDevice(0, 0) := 3])][3 := Mark(OnDevice(0, 2), 14, map[OnDevice(0, 0) := 3])][4 := Mark(OnDevice(0, 1), 18, map[OnDevice(0, 0) := 3, OnDevice(0, 2) := 11])], map[][OnDevice(0, 2) := map[OnDevice(0, 0) := 3]][OnDevice(0, 1) := map[OnDevice(0, 0) := 3, OnDevice(0, 2) := 11]], [Hazard(5, 9, OnDevice(0, 1), OnDevice(0, 2))])
  }

  function StackedBlocksWithoutEvent1State21(): SimState
  {
    SimState(map[][0 := Mark(OnDevice(0, 0), 3, map[])][2 := Mark(OnDevice(0, 2), 11, map[OnDevice(0, 0) := 3])][3 := Mark(OnDevice(0, 2), 14, map[OnDevice(0, 0) := 3])][4 := Mark(OnDevice(0, 1), 18, map[OnDevice(0, 0) := 3, OnDevice(0, 2) := 11])], map[][OnDevice(0, 2) := map[OnDevice(0, 0) := 3]][OnDevice(0, 1) := map[OnDevice(0, 0) := 3, OnDevice(0, 2) := 11]][OnDevice(0, 0) := map[OnDevice(0, 0) := 3, OnDevice(0, 2) := 11]], [Hazard(5, 9, OnDevice(0, 1), OnDevice(0, 2))])
  }

  function StackedBlocksWithoutEvent1State22(): SimState
  {
    SimState(map[][0 := Mark(OnDevice(0, 0), 3, map[])][2 := Mark(OnDevice(0, 2), 11, map[OnDevice(0, 0) := 3])][3 := Mark(OnDevice(0, 2), 14, map[OnDevice(0, 0) := 3])][4 := Mark(OnDevice(0, 1), 18, map[OnDevice(0, 0) := 3, OnDevice(0, 2) := 11])], map[][OnDevice(0, 2) := map[OnDevice(0, 0) := 3]][OnDevice(0, 1) := map[OnDevice(0, 0) := 3, OnDevice(0, 2) := 11]][OnDevice(0, 0) := map[OnDevice(0, 0) := 3, OnDevice(0, 2) := 11]], [Hazard(5, 9, OnDevice(0, 1), OnDevice(0, 2))])
  }

  function StackedBlocksWithoutEvent1State23(): SimState
  {
    SimState(map[][0 := Mark(OnDevice(0, 0), 3, map[])][2 := Mark(OnDevice(0, 2), 11, map[OnDevice(0, 0) := 3])][3 := Mark(OnDevice(0, 2), 14, map[OnDevice(0, 0) := 3])][4 := Mark(OnDevice(0, 1), 18, map[OnDevice(0, 0) := 3, OnDevice(0, 2) := 11])], map[][OnDevice(0, 2) := map[OnDevice(0, 0) := 3]][OnDevice(0, 1) := map[OnDevice(0, 0) := 3, OnDevice(0, 2) := 11]][OnDevice(0, 0) := map[OnDevice(0, 0) := 3, OnDevice(0, 2) := 11]][OnDevice(0, 0) := map[OnDevice(0, 0) := 3, OnDevice(0, 1) := 18, OnDevice(0, 2) := 11]], [Hazard(5, 9, OnDevice(0, 1), OnDevice(0, 2))])
  }

  function StackedBlocksWithoutEvent1State24(): SimState
  {
    SimState(map[][0 := Mark(OnDevice(0, 0), 3, map[])][2 := Mark(OnDevice(0, 2), 11, map[OnDevice(0, 0) := 3])][3 := Mark(OnDevice(0, 2), 14, map[OnDevice(0, 0) := 3])][4 := Mark(OnDevice(0, 1), 18, map[OnDevice(0, 0) := 3, OnDevice(0, 2) := 11])], map[][OnDevice(0, 2) := map[OnDevice(0, 0) := 3]][OnDevice(0, 1) := map[OnDevice(0, 0) := 3, OnDevice(0, 2) := 11]][OnDevice(0, 0) := map[OnDevice(0, 0) := 3, OnDevice(0, 2) := 11]][OnDevice(0, 0) := map[OnDevice(0, 0) := 3, OnDevice(0, 1) := 18, OnDevice(0, 2) := 11]][OnDevice(0, 0) := map[OnDevice(0, 0) := 3, OnDevice(0, 1) := 18, OnDevice(0, 2) := 14]], [Hazard(5, 9, OnDevice(0, 1), OnDevice(0, 2))])
  }

  function StackedBlocksWithoutEvent1State25(): SimState
  {
    SimState(map[][0 := Mark(OnDevice(0, 0), 3, map[])][2 := Mark(OnDevice(0, 2), 11, map[OnDevice(0, 0) := 3])][3 := Mark(OnDevice(0, 2), 14, map[OnDevice(0, 0) := 3])][4 := Mark(OnDevice(0, 1), 18, map[OnDevice(0, 0) := 3, OnDevice(0, 2) := 11])], map[][OnDevice(0, 2) := map[OnDevice(0, 0) := 3]][OnDevice(0, 1) := map[OnDevice(0, 0) := 3, OnDevice(0, 2) := 11]][OnDevice(0, 0) := map[OnDevice(0, 0) := 3, OnDevice(0, 2) := 11]][OnDevice(0, 0) := map[OnDevice(0, 0) := 3, OnDevice(0, 1) := 18, OnDevice(0, 2) := 11]][OnDevice(0, 0) := map[OnDevice(0, 0) := 3, OnDevice(0, 1) := 18, OnDevice(0, 2) := 14]], [Hazard(5, 9, OnDevice(0, 1), OnDevice(0, 2))])
  }

  function StackedBlocksWithoutEvent1State26(): SimState
  {
    SimState(map[][0 := Mark(OnDevice(0, 0), 3, map[])][2 := Mark(OnDevice(0, 2), 11, map[OnDevice(0, 0) := 3])][3 := Mark(OnDevice(0, 2), 14, map[OnDevice(0, 0) := 3])][4 := Mark(OnDevice(0, 1), 18, map[OnDevice(0, 0) := 3, OnDevice(0, 2) := 11])], map[][OnDevice(0, 2) := map[OnDevice(0, 0) := 3]][OnDevice(0, 1) := map[OnDevice(0, 0) := 3, OnDevice(0, 2) := 11]][OnDevice(0, 0) := map[OnDevice(0, 0) := 3, OnDevice(0, 2) := 11]][OnDevice(0, 0) := map[OnDevice(0, 0) := 3, OnDevice(0, 1) := 18, OnDevice(0, 2) := 11]][OnDevice(0, 0) := map[OnDevice(0, 0) := 3, OnDevice(0, 1) := 18, OnDevice(0, 2) := 14]], [Hazard(5, 9, OnDevice(0, 1), OnDevice(0, 2))])
  }

  lemma StackedBlocksWithoutEvent1Advance0(removed: set<EventId>, g: seq<Node>, defs: seq<map<VarId, nat>>)
    requires 0 !in removed && 1 in removed && 2 !in removed && 3 !in removed && 4 !in removed
    requires |g| == 26
    requires g[0] == Node(SetStream(0, 0), OnDevice(0, 0), [])
    requires |defs| == 27
    requires defs[0] == map[]
    requires defs[1] == map[0 := 0]
    ensures |StackedBlocks(removed)| == 26 && Advances(StackedBlocks(removed), g, defs, 0)
  {
    var p := StackedBlocks(removed);
    assert p[0] == Let(0, SetStream(0, 0));
  }

  lemma StackedBlocksWithoutEvent1Advance1(removed: set<EventId>, g: seq<Node>, defs: seq<map<VarId, nat>>)
    requires 0 !in removed && 1 in removed && 2 !in removed && 3 !in removed && 4 !in removed
    requires |g| == 26
    requires g[0] == Node(SetStream(0, 0), OnDevice(0, 0), [])
    requires g[1] == Node(Atan(X), OnDevice(0, 0), [])
    requires |defs| == 27
    requires defs[1] == map[0 := 0]
    requires defs[2] == map[0 := 0, 1 := 1]
    ensures |StackedBlocks(removed)| == 26 && Advances(StackedBlocks(removed), g, defs, 1)
  {
    var p := StackedBlocks(removed);
    assert p[1] == Let(1, Atan(X));
  }

  lemma StackedBlocksWithoutEvent1Advance2(removed: set<EventId>, g: seq<Node>, defs: seq<map<VarId, nat>>)
    requires 0 !in removed && 1 in removed && 2 !in removed && 3 !in removed && 4 !in removed
    requires |g| == 26
    requires g[1] == Node(Atan(X), OnDevice(0, 0), [])
    requires g[2] == Node(Atan(LetVar(1)), OnDevice(0, 0), [1])
    requires |defs| == 27
    requires defs[2] == map[0 := 0, 1 := 1]
    requires defs[3] == map[0 := 0, 1 := 1, 2 := 2]
    ensures |StackedBlocks(removed)| == 26 && Advances(StackedBlocks(removed), g, defs, 2)
  {
    var p := StackedBlocks(removed);
    assert p[2] == Let(2, Atan(LetVar(1)));
  }

  lemma StackedBlocksWithoutEvent1Advance3(removed: set<EventId>, g: seq<Node>, defs: seq<map<VarId, nat>>)
    requires 0 !in removed && 1 in removed && 2 !in removed && 3 !in removed && 4 !in removed
    requires |g| == 26
    requires g[2] == Node(Atan(LetVar(1)), OnDevice(0, 0), [1])
    requires g[3] == Node(AddEvent(0), OnDevice(0, 0), [])
    requires |defs| == 27
    requires defs[3] == map[0 := 0, 1 := 1, 2 := 2]
    requires defs[4] == map[0 := 0, 1 := 1, 2 := 2, 3 := 3]
    ensures |StackedBlocks(removed)| == 26 && Advances(StackedBlocks(removed), g, defs, 3)
  {
    var p := StackedBlocks(removed);
    assert p[3] == Let(3, AddEvent(0));
  }

  lemma StackedBlocksWithoutEvent1Advance4(removed: set<EventId>, g: seq<Node>, defs: seq<map<VarId, nat>>)
    requires 0 !in removed && 1 in removed && 2 !in removed && 3 !in removed && 4 !in removed
    requires |g| == 26
    requires g[3] == Node(AddEvent(0), OnDevice(0, 0), [])
    requires g[4] == Node(SetStream(0, 1), OnDevice(0, 1), [])
    requires |defs| == 27
    requires defs[4] == map[0 := 0, 1 := 1, 2 := 2, 3 := 3]
    requires defs[5] == map[0 := 0, 1 := 1, 2 := 2, 3 := 3, 4 := 4]
    ensures |StackedBlocks(removed)| == 26 && Advances(StackedBlocks(removed), g, defs, 4)
  {
    var p := StackedBlocks(removed);
    assert p[4] == Let(4, SetStream(0, 1));
  }

  lemma StackedBlocksWithoutEvent1Advance5(removed: set<EventId>, g: seq<Node>, defs: seq<map<VarId, nat>>)
    requires 0 !in removed && 1 in removed && 2 !in removed && 3 !in removed && 4 !in removed
    requires |g| == 26
    requires g[4] == Node(SetStream(0, 1), OnDevice(0, 1), [])
    requires g[5] == Node(Atan(X), OnDevice(0, 1), [])
    requires |defs| == 27
    requires defs[5] == map[0 := 0, 1 := 1, 2 := 2, 3 := 3, 4 := 4]
    requires defs[6] == map[0 := 0, 1 := 1, 2 := 2, 3 := 3, 4 := 4, 5 := 5]
    ensures |StackedBlocks(removed)| == 26 && Advances(StackedBlocks(removed), g, defs, 5)
  {
    var p := StackedBlocks(removed);
    assert p[5] == Let(5, Atan(X));
  }

  lemma StackedBlocksWithoutEvent1Advance6(removed: set<EventId>, g: seq<Node>, defs: seq<map<VarId, nat>>)
    requires 0 !in removed && 1 in removed && 2 !in removed && 3 !in removed && 4 !in removed
    requires |g| == 26
    requires g[5] == Node(Atan(X), OnDevice(0, 1), [])
    requires g[6] == Node(SetStream(0, 2), OnDevice(0, 2), [])
    requires |defs| == 27
    requires defs[6] == map[0 := 0, 1 := 1, 2 := 2, 3 := 3, 4 := 4, 5 := 5]
    requires defs[7] == map[0 := 0, 1 := 1, 2 := 2, 3 := 3, 4 := 4, 5 := 5, 7 := 6]
    ensures |StackedBlocks(removed)| == 26 && Advances(StackedBlocks(removed), g, defs, 6)
  {
    var p := StackedBlocks(removed);
    assert p[6] == Let(7, SetStream(0, 2));
  }

  lemma StackedBlocksWithoutEvent1Advance7(removed: set<EventId>, g: seq<Node>, defs: seq<map<VarId, nat>>)
    requires 0 !in removed && 1 in removed && 2 !in removed && 3 !in removed && 4 !in removed
    requires |g| == 26
    requires g[6] == Node(SetStream(0, 2), OnDevice(0, 2), [])
    requires g[7] == Node(Atan(X), OnDevice(0, 2), [])
    requires |defs| == 27
    requires defs[7] == map[0 := 0, 1 := 1, 2 := 2, 3 := 3, 4 := 4, 5 := 5, 7 := 6]
    requires defs[8] == map[0 := 0, 1 := 1, 2 := 2, 3 := 3, 4 := 4, 5 := 5, 7 := 6, 8 := 7]
    ensures |StackedBlocks(removed)| == 26 && Advances(StackedBlocks(removed), g, defs, 7)
  {
    var p := StackedBlocks(removed);
    assert p[7] == Let(8, Atan(X));
  }

  lemma StackedBlocksWithoutEvent1Advance8(removed: set<EventId>, g: seq<Node>, defs: seq<map<VarId, nat>>)
    requires 0 !in removed && 1 in removed && 2 !in removed && 3 !in removed && 4 !in removed
    requires |g| == 26
    requires g[7] == Node(Atan(X), OnDevice(0, 2), [])
    requires g[8] == Node(WaitEvent(0), OnDevice(0, 2), [])
    requires |defs| == 27
    requires defs[8] == map[0 := 0, 1 := 1, 2 := 2, 3 := 3, 4 := 4, 5 := 5, 7 := 6, 8 := 7]
    requires defs[9] == map[0 := 0, 1 := 1, 2 := 2, 3 := 3, 4 := 4, 5 := 5, 7 := 6, 8 := 7, 10 := 8]
    ensures |StackedBlocks(removed)| == 26 && Advances(StackedBlocks(removed), g, defs, 8)
  {
    var p := StackedBlocks(removed);
    assert p[8] == Let(10, WaitEvent(0));
  }

  lemma StackedBlocksWithoutEvent1Advance9(removed: set<EventId>, g: seq<Node>, defs: seq<map<VarId, nat>>)
    requires 0 !in removed && 1 in removed && 2 !in removed && 3 !in removed && 4 !in removed
    requires |g| == 26
    requires g[8] == Node(WaitEvent(0), OnDevice(0, 2), [])
    requires g[9] == Node(MakeTuple([LetVar(8), LetVar(5), LetVar(2)]), OnDevice(0, 2), [7, 5, 2])
    requires |defs| == 27
    requires defs[9] == map[0 := 0, 1 := 1, 2 := 2, 3 := 3, 4 := 4, 5 := 5, 7 := 6, 8 := 7, 10 := 8]
    requires defs[10] == map[0 := 0, 1 := 1, 2 := 2, 3 := 3, 4 := 4, 5 := 5, 7 := 6, 8 := 7, 10 := 8, 11 := 9]
    ensures |StackedBlocks(removed)| == 26 && Advances(StackedBlocks(removed), g, defs, 9)
  {
    var p := StackedBlocks(removed);
    assert p[9] == Let(11, MakeTuple([LetVar(8), LetVar(5), LetVar(2)]));
  }

  lemma StackedBlocksWithoutEvent1Advance10(removed: set<EventId>, g: seq<Node>, defs: seq<map<VarId, nat>>)
    requires 0 !in removed && 1 in removed && 2 !in removed && 3 !in removed && 4 !in removed
    requires |g| == 26
    requires g[9] == Node(MakeTuple([LetVar(8), LetVar(5), LetVar(2)]), OnDevice(0, 2), [7, 5, 2])
    requires g[10] == Node(Concatenate(LetVar(11), 0), OnDevice(0, 2), [9])
    requires |defs| == 27
    requires defs[10] == map[0 := 0, 1 := 1, 2 := 2, 3 := 3, 4 := 4, 5 := 5, 7 := 6, 8 := 7, 10 := 8, 11 := 9]
    requires defs[11] == map[0 := 0, 1 := 1, 2 := 2, 3 := 3, 4 := 4, 5 := 5, 7 := 6, 8 := 7, 10 := 8, 11 := 9, 12 := 10]
    ensures |StackedBlocks(removed)| == 26 && Advances(StackedBlocks(removed), g, defs, 10)
  {
    var p := StackedBlocks(removed);
    assert p[10] == Let(12, Concatenate(LetVar(11), 0));
  }

  lemma StackedBlocksWithoutEvent1Advance11(removed: set<EventId>, g: seq<Node>, defs: seq<map<VarId, nat>>)
    requires 0 !in removed && 1 in removed && 2 !in removed && 3 !in removed && 4 !in removed
    requires |g| == 26
    requires g[10] == Node(Concatenate(LetVar(11), 0), OnDevice(0, 2), [9])
    requires g[11] == Node(AddEvent(2), OnDevice(0, 2), [])
    requires |defs| == 27
    requires defs[11] == map[0 := 0, 1 := 1, 2 := 2, 3 := 3, 4 := 4, 5 := 5, 7 := 6, 8 := 7, 10 := 8, 11 := 9, 12 := 10]
    requires defs[12] == map[0 := 0, 1 := 1, 2 := 2, 3 := 3, 4 := 4, 5 := 5, 7 := 6, 8 := 7, 10 := 8, 11 := 9, 12 := 10, 13 := 11]
    ensures |StackedBlocks(removed)| == 26 && Advances(StackedBlocks(removed), g, defs, 11)
  {
    var p := StackedBlocks(removed);
    assert p[11] == Let(13, AddEvent(2));
  }

  lemma StackedBlocksWithoutEvent1Advance12(removed: set<EventId>, g: seq<Node>, defs: seq<map<VarId, nat>>)
    requires 0 !in removed && 1 in removed && 2 !in removed && 3 !in removed && 4 !in removed
    requires |g| == 26
    requires g[11] == Node(AddEvent(2), OnDevice(0, 2), [])
    requires g[12] == Node(Atan(LetVar(12)), OnDevice(0, 2), [10])
    requires |defs| == 27
    requires defs[12] == map[0 := 0, 1 := 1, 2 := 2, 3 := 3, 4 := 4, 5 := 5, 7 := 6, 8 := 7, 10 := 8, 11 := 9, 12 := 10, 13 := 11]
    requires defs[13] == map[0 := 0, 1 := 1, 2 := 2, 3 := 3, 4 := 4, 5 := 5, 7 := 6, 8 := 7, 10 := 8, 11 := 9, 12 := 10, 13 := 11, 14 := 12]
    ensures |StackedBlocks(removed)| == 26 && Advances(StackedBlocks(removed), g, defs, 12)
  {
    var p := StackedBlocks(removed);
    assert p[12] == Let(14, Atan(LetVar(12)));
  }

  lemma StackedBlocksWithoutEvent1Advance13(removed: set<EventId>, g: seq<Node>, defs: seq<map<VarId, nat>>)
    requires 0 !in removed && 1 in removed && 2 !in removed && 3 !in removed && 4 !in removed
    requires |g| == 26
    requires g[12] == Node(Atan(LetVar(12)), OnDevice(0, 2), [10])
    requires g[13] == Node(Atan(LetVar(14)), OnDevice(0, 2), [12])
    requires |defs| == 27
    requires defs[13] == map[0 := 0, 1 := 1, 2 := 2, 3 := 3, 4 := 4, 5 := 5, 7 := 6, 8 := 7, 10 := 8, 11 := 9, 12 := 10, 13 := 11, 14 := 12]
    requires defs[14] == map[0 := 0, 1 := 1, 2 := 2, 3 := 3, 4 := 4, 5 := 5, 7 := 6, 8 := 7, 10 := 8, 11 := 9, 12 := 10, 13 := 11, 14 := 12, 15 := 13]
    ensures |StackedBlocks(removed)| == 26 && Advances(StackedBlocks(removed), g, defs, 13)
  {
    var p := StackedBlocks(removed);
    assert p[13] == Let(15, Atan(LetVar(14)));
  }

  lemma StackedBlocksWithoutEvent1Advance14(removed: set<EventId>, g: seq<Node>, defs: seq<map<VarId, nat>>)
    requires 0 !in removed && 1 in removed && 2 !in removed && 3 !in removed && 4 !in removed
    requires |g| == 26
    requires g[13] == Node(Atan(LetVar(14)), OnDevice(0, 2), [12])
    requires g[14] == Node(AddEvent(3), OnDevice(0, 2), [])
    requires |defs| == 27
    requires defs[14] == map[0 := 0, 1 := 1, 2 := 2, 3 := 3, 4 := 4, 5 := 5, 7 := 6, 8 := 7, 10 := 8, 11 := 9, 12 := 10, 13 := 11, 14 := 12, 15 := 13]
    requires defs[15] == map[0 := 0, 1 := 1, 2 := 2, 3 := 3, 4 := 4, 5 := 5, 7 := 6, 8 := 7, 10 := 8, 11 := 9, 12 := 10, 13 := 11, 14 := 12, 15 := 13, 16 := 14]
    ensures |StackedBlocks(removed)| == 26 && Advances(StackedBlocks(removed), g, defs, 14)
  {
    var p := StackedBlocks(removed);
    assert p[14] == Let(16, AddEvent(3));
  }

  lemma StackedBlocksWithoutEvent1Advance15(removed: set<EventId>, g: seq<Node>, defs: seq<map<VarId, nat>>)
    requires 0 !in removed && 1 in removed && 2 !in removed && 3 !in removed && 4 !in removed
    requires |g| == 26
    requires g[14] == Node(AddEvent(3), OnDevice(0, 2), [])
    requires g[15] == Node(SetStream(0, 1), OnDevice(0, 1), [])
    requires |defs| == 27
    requires defs[15] == map[0 := 0, 1 := 1, 2 := 2, 3 := 3, 4 := 4, 5 := 5, 7 := 6, 8 := 7, 10 := 8, 11 := 9, 12 := 10, 13 := 11, 14 := 12, 15 := 13, 16 := 14]
    requires defs[16] == map[0 := 0, 1 := 1, 2 := 2, 3 := 3, 4 := 4, 5 := 5, 7 := 6, 8 := 7, 10 := 8, 11 := 9, 12 := 10, 13 := 11, 14 := 12, 15 := 13, 16 := 14, 17 := 15]
    ensures |StackedBlocks(removed)| == 26 && Advances(StackedBlocks(removed), g, defs, 15)
  {
    var p := StackedBlocks(removed);
    assert p[15] == Let(17, SetStream(0, 1));
  }

  lemma StackedBlocksWithoutEvent1Advance16(removed: set<EventId>, g: seq<Node>, defs: seq<map<VarId, nat>>)
    requires 0 !in removed && 1 in removed && 2 !in removed && 3 !in removed && 4 !in removed
    requires |g| == 26
    requires g[15] == Node(SetStream(0, 1), OnDevice(0, 1), [])
    requires g[16] == Node(WaitEvent(2), OnDevice(0, 1), [])
    requires |defs| == 27
    requires defs[16] == map[0 := 0, 1 := 1, 2 := 2, 3 := 3, 4 := 4, 5 := 5, 7 := 6, 8 := 7, 10 := 8, 11 := 9, 12 := 10, 13 := 11, 14 := 12, 15 := 13, 16 := 14, 17 := 15]
    requires defs[17] == map[0 := 0, 1 := 1, 2 := 2, 3 := 3, 4 := 4, 5 := 5, 7 := 6, 8 := 7, 10 := 8, 11 := 9, 12 := 10, 13 := 11, 14 := 12, 15 := 13, 16 := 14, 17 := 15, 18 := 16]
    ensures |StackedBlocks(removed)| == 26 && Advances(StackedBlocks(removed), g, defs, 16)
  {
    var p := StackedBlocks(removed);
    assert p[16] == Let(18, WaitEvent(2));
  }

  lemma StackedBlocksWithoutEvent1Advance17(removed: set<EventId>, g: seq<Node>, defs: seq<map<VarId, nat>>)
    requires 0 !in removed && 1 in removed && 2 !in removed && 3 !in removed && 4 !in removed
    requires |g| == 26
    requires g[16] == Node(WaitEvent(2), OnDevice(0, 1), [])
    requires g[17] == Node(Atan(LetVar(12)), OnDevice(0, 1), [10])
    requires |defs| == 27
    requires defs[17] == map[0 := 0, 1 := 1, 2 := 2, 3 := 3, 4 := 4, 5 := 5, 7 := 6, 8 := 7, 10 := 8, 11 := 9, 12 := 10, 13 := 11, 14 := 12, 15 := 13, 16 := 14, 17 := 15, 18 := 16]
    requires defs[18] == map[0 := 0, 1 := 1, 2 := 2, 3 := 3, 4 := 4, 5 := 5, 7 := 6, 8 := 7, 10 := 8, 11 := 9, 12 := 10, 13 := 11, 14 := 12, 15 := 13, 16 := 14, 17 := 15, 18 := 16, 19 := 17]
    ensures |StackedBlocks(removed)| == 26 && Advances(StackedBlocks(removed), g, defs, 17)
  {
    var p := StackedBlocks(removed);
    assert p[17] == Let(19, Atan(LetVar(12)));
  }

  lemma StackedBlocksWithoutEvent1Advance18(removed: set<EventId>, g: seq<Node>, defs: seq<map<VarId, nat>>)
    requires 0 !in removed && 1 in removed && 2 !in removed && 3 !in removed && 4 !in removed
    requires |g| == 26
    requires g[17] == Node(Atan(LetVar(12)), OnDevice(0, 1), [10])
    requires g[18] == Node(AddEvent(4), OnDevice(0, 1), [])
    requires |defs| == 27
    requires defs[18] == map[0 := 0, 1 := 1, 2 := 2, 3 := 3, 4 := 4, 5 := 5, 7 := 6, 8 := 7, 10 := 8, 11 := 9, 12 := 10, 13 := 11, 14 := 12, 15 := 13, 16 := 14, 17 := 15, 18 := 16, 19 := 17]
    requires defs[19] == map[0 := 0, 1 := 1, 2 := 2, 3 := 3, 4 := 4, 5 := 5, 7 := 6, 8 := 7, 10 := 8, 11 := 9, 12 := 10, 13 := 11, 14 := 12, 15 := 13, 16 := 14, 17 := 15, 18 := 16, 19 := 17, 20 := 18]
    ensures |StackedBlocks(removed)| == 26 && Advances(StackedBlocks(removed), g, defs, 18)
  {
    var p := StackedBlocks(removed);
    assert p[18] == Let(20, AddEvent(4));
  }

  lemma StackedBlocksWithoutEvent1Advance19(removed: set<EventId>, g: seq<Node>, defs: seq<map<VarId, nat>>)
    requires 0 !in removed && 1 in removed && 2 !in removed && 3 !in removed && 4 !in removed
    requires |g| == 26
    requires g[18] == Node(AddEvent(4), OnDevice(0, 1), [])
    requires g[19] == Node(SetStream(0, 0), OnDevice(0, 0), [])
    requires |defs| == 27
    requires defs[19] == map[0 := 0, 1 := 1, 2 := 2, 3 := 3, 4 := 4, 5 := 5, 7 := 6, 8 := 7, 10 := 8, 11 := 9, 12 := 10, 13 := 11, 14 := 12, 15 := 13, 16 := 14, 17 := 15, 18 := 16, 19 := 17, 20 := 18]
    requires defs[20] == map[0 := 0, 1 := 1, 2 := 2, 3 := 3, 4 := 4, 5 := 5, 7 := 6, 8 := 7, 10 := 8, 11 := 9, 12 := 10, 13 := 11, 14 := 12, 15 := 13, 16 := 14, 17 := 15, 18 := 16, 19 := 17, 20 := 18, 21 := 19]
    ensures |StackedBlocks(removed)| == 26 && Advances(StackedBlocks(removed), g, defs, 19)
  {
    var p := StackedBlocks(removed);
    assert p[19] == Let(21, SetStream(0, 0));
  }

  lemma StackedBlocksWithoutEvent1Advance20(removed: set<EventId>, g: seq<Node>, defs: seq<map<VarId, nat>>)
    requires 0 !in removed && 1 in removed && 2 !in removed && 3 !in removed && 4 !in removed
    requires |g| == 26
    requires g[19] == Node(SetStream(0, 0), OnDevice(0, 0), [])
    requires g[20] == Node(WaitEvent(2), OnDevice(0, 0), [])
    requires |defs| == 27
    requires defs[20] == map[0 := 0, 1 := 1, 2 := 2, 3 := 3, 4 := 4, 5 := 5, 7 := 6, 8 := 7, 10 := 8, 11 := 9, 12 := 10, 13 := 11, 14 := 12, 15 := 13, 16 := 14, 17 := 15, 18 := 16, 19 := 17, 20 := 18, 21 := 19]
    requires defs[21] == map[0 := 0, 1 := 1, 2 := 2, 3 := 3, 4 := 4, 5 := 5, 7 := 6, 8 := 7, 10 := 8, 11 := 9, 12 := 10, 13 := 11, 14 := 12, 15 := 13, 16 := 14, 17 := 15, 18 := 16, 19 := 17, 20 := 18, 21 := 19, 22 := 20]
    ensures |StackedBlocks(removed)| == 26 && Advances(StackedBlocks(removed), g, defs, 20)
  {
    var p := StackedBlocks(removed);
    assert p[20] == Let(22, WaitEvent(2));
  }

  lemma StackedBlocksWithoutEvent1Advance21(removed: set<EventId>, g: seq<Node>, defs: seq<map<VarId, nat>>)
    requires 0 !in removed && 1 in removed && 2 !in removed && 3 !in removed && 4 !in removed
    requires |g| == 26
    requires g[20] == Node(WaitEvent(2), OnDevice(0, 0), [])
    requires g[21] == Node(Atan(LetVar(12)), OnDevice(0, 0), [10])
    requires |defs| == 27
    requires defs[21] == map[0 := 0, 1 := 1, 2 := 2, 3 := 3, 4 := 4, 5 := 5, 7 := 6, 8 := 7, 10 := 8, 11 := 9, 12 := 10, 13 := 11, 14 := 12, 15 := 13, 16 := 14, 17 := 15, 18 := 16, 19 := 17, 20 := 18, 21 := 19, 22 := 20]
    requires defs[22] == map[0 := 0, 1 := 1, 2 := 2, 3 := 3, 4 := 4, 5 := 5, 7 := 6, 8 := 7, 10 := 8, 11 := 9, 12 := 10, 13 := 11, 14 := 12, 15 := 13, 16 := 14, 17 := 15, 18 := 16, 19 := 17, 20 := 18, 21 := 19, 22 := 20, 23 := 21]
    ensures |StackedBlocks(removed)| == 26 && Advances(StackedBlocks(removed), g, defs, 21)
  {
    var p := StackedBlocks(removed);
    assert p[21] == Let(23, Atan(LetVar(12)));
  }

  lemma StackedBlocksWithoutEvent1Advance22(removed: set<EventId>, g: seq<Node>, defs: seq<map<VarId, nat>>)
    requires 0 !in removed && 1 in removed && 2 !in removed && 3 !in removed && 4 !in removed
    requires |g| == 26
    requires g[21] == Node(Atan(LetVar(12)), OnDevice(0, 0), [10])
    requires g[22] == Node(WaitEvent(4), OnDevice(0, 0), [])
    requires |defs| == 27
    requires defs[22] == map[0 := 0, 1 := 1, 2 := 2, 3 := 3, 4 := 4, 5 := 5, 7 := 6, 8 := 7, 10 := 8, 11 := 9, 12 := 10, 13 := 11, 14 := 12, 15 := 13, 16 := 14, 17 := 15, 18 := 16, 19 := 17, 20 := 18, 21 := 19, 22 := 20, 23 := 21]
    requires defs[23] == map[0 := 0, 1 := 1, 2 := 2, 3 := 3, 4 := 4, 5 := 5, 7 := 6, 8 := 7, 10 := 8, 11 := 9, 12 := 10, 13 := 11, 14 := 12, 15 := 13, 16 := 14, 17 := 15, 18 := 16, 19 := 17, 20 := 18, 21 := 19, 22 := 20, 23 := 21, 24 := 22]
    ensures |StackedBlocks(removed)| == 26 && Advances(StackedBlocks(removed), g, defs, 22)
  {
    var p := StackedBlocks(removed);
    assert p[22] == Let(24, WaitEvent(4));
  }

  lemma StackedBlocksWithoutEvent1Advance23(removed: set<EventId>, g: seq<Node>, defs: seq<map<VarId, nat>>)
    requires 0 !in removed && 1 in removed && 2 !in removed && 3 !in removed && 4 !in removed
    requires |g| == 26
    requires g[22] == Node(WaitEvent(4), OnDevice(0, 0), [])
    requires g[23] == Node(WaitEvent(3), OnDevice(0, 0), [])
    requires |defs| == 27
    requires defs[23] == map[0 := 0, 1 := 1, 2 := 2, 3 := 3, 4 := 4, 5 := 5, 7 := 6, 8 := 7, 10 := 8, 11 := 9, 12 := 10, 13 := 11, 14 := 12, 15 := 13, 16 := 14, 17 := 15, 18 := 16, 19 := 17, 20 := 18, 21 := 19, 22 := 20, 23 := 21, 24 := 22]
    requires defs[24] == map[0 := 0, 1 := 1, 2 := 2, 3 := 3, 4 := 4, 5 := 5, 7 := 6, 8 := 7, 10 := 8, 11 := 9, 12 := 10, 13 := 11, 14 := 12, 15 := 13, 16 := 14, 17 := 15, 18 := 16, 19 := 17, 20 := 18, 21 := 19, 22 := 20, 23 := 21, 24 := 22, 25 := 23]
    ensures |StackedBlocks(removed)| == 26 && Advances(StackedBlocks(removed), g, defs, 23)
  {
    var p := StackedBlocks(removed);
    assert p[23] == Let(25, WaitEvent(3));
  }

  lemma StackedBlocksWithoutEvent1Advance24(removed: set<EventId>, g: seq<Node>, defs: seq<map<VarId, nat>>)
    requires 0 !in removed && 1 in removed && 2 !in removed && 3 !in removed && 4 !in removed
    requires |g| == 26
    requires g[23] == Node(WaitEvent(3), OnDevice(0, 0), [])
    requires g[24] == Node(MakeTuple([LetVar(23), LetVar(19), LetVar(15)]), OnDevice(0, 0), [21, 17, 13])
    requires |defs| == 27
    requires defs[24] == map[0 := 0, 1 := 1, 2 := 2, 3 := 3, 4 := 4, 5 := 5, 7 := 6, 8 := 7, 10 := 8, 11 := 9, 12 := 10, 13 := 11, 14 := 12, 15 := 13, 16 := 14, 17 := 15, 18 := 16, 19 := 17, 20 := 18, 21 := 19, 22 := 20, 23 := 21, 24 := 22, 25 := 23]
    requires defs[25] == map[0 := 0, 1 := 1, 2 := 2, 3 := 3, 4 := 4, 5 := 5, 7 := 6, 8 := 7, 10 := 8, 11 := 9, 12 := 10, 13 := 11, 14 := 12, 15 := 13, 16 := 14, 17 := 15, 18 := 16, 19 := 17, 20 := 18, 21 := 19, 22 := 20, 23 := 21, 24 := 22, 25 := 23, 26 := 24]
    ensures |StackedBlocks(removed)| == 26 && Advances(StackedBlocks(removed), g, defs, 24)
  {
    var p := StackedBlocks(removed);
    assert p[24] == Let(26, MakeTuple([LetVar(23), LetVar(19), LetVar(15)]));
  }

  lemma StackedBlocksWithoutEvent1Advance25(removed: set<EventId>, g: seq<Node>, defs: seq<map<VarId, nat>>)
    requires 0 !in removed && 1 in removed && 2 !in removed && 3 !in removed && 4 !in removed
    requires |g| == 26
    requires g[24] == Node(MakeTuple([LetVar(23), LetVar(19), LetVar(15)]), OnDevice(0, 0), [21, 17, 13])
    requires g[25] == Node(Concatenate(LetVar(26), 0), OnDevice(0, 0), [24])
    requires |defs| == 27
    requires defs[25] == map[0 := 0, 1 := 1, 2 := 2, 3 := 3, 4 := 4, 5 := 5, 7 := 6, 8 := 7, 10 := 8, 11 := 9, 12 := 10, 13 := 11, 14 := 12, 15 := 13, 16 := 14, 17 := 15, 18 := 16, 19 := 17, 20 := 18, 21 := 19, 22 := 20, 23 := 21, 24 := 22, 25 := 23, 26 := 24]
    requires defs[26] == map[0 := 0, 1 := 1, 2 := 2, 3 := 3, 4 := 4, 5 := 5, 7 := 6, 8 := 7, 10 := 8, 11 := 9, 12 := 10, 13 := 11, 14 := 12, 15 := 13, 16 := 14, 17 := 15, 18 := 16, 19 := 17, 20 := 18, 21 := 19, 22 := 20, 23 := 21, 24 := 22, 25 := 23, 26 := 24, 27 := 25]
    ensures |StackedBlocks(removed)| == 26 && Advances(StackedBlocks(removed), g, defs, 25)
  {
    var p := StackedBlocks(removed);
    assert p[25] == Let(27, Concatenate(LetVar(26), 0));
  }

  lemma StackedBlocksWithoutEvent1Extract0(removed: set<EventId>, g: seq<Node>, defs: seq<map<VarId, nat>>)
    requires 0 !in removed && 1 in removed && 2 !in removed && 3 !in removed && 4 !in removed
    requires StackedBlocksWithoutEvent1Shape(g) && StackedBlocksWithoutEvent1Tables(defs)
    ensures |StackedBlocks(removed)| == 26
    ensures forall j :: 0 <= j < 5 ==> Advances(StackedBlocks(removed), g, defs, j)
  {
    StackedBlocksWithoutEvent1Advance0(removed, g, defs);
    StackedBlocksWithoutEvent1Advance1(removed, g, defs);
    StackedBlocksWithoutEvent1Advance2(removed, g, defs);
    StackedBlocksWithoutEvent1Advance3(removed, g, defs);
    StackedBlocksWithoutEvent1Advance4(removed, g, defs);
    forall j | 0 <= j < 5 ensures Advances(StackedBlocks(removed), g, defs, j) {
      assert j == 0 || j == 1 || j == 2 || j == 3 || j == 4;
    }
  }

  lemma StackedBlocksWithoutEvent1Extract5(removed: set<EventId>, g: seq<Node>, defs: seq<map<VarId, nat>>)
    requires 0 !in removed && 1 in removed && 2 !in removed && 3 !in removed && 4 !in removed
    requires StackedBlocksWithoutEvent1Shape(g) && StackedBlocksWithoutEvent1Tables(defs)
    ensures |StackedBlocks(removed)| == 26
    ensures forall j :: 5 <= j < 10 ==> Advances(StackedBlocks(removed), g, defs, j)
  {
    StackedBlocksWithoutEvent1Advance5(removed, g, defs);
    StackedBlocksWithoutEvent1Advance6(removed, g, defs);
    StackedBlocksWithoutEvent1Advance7(removed, g, defs);
    StackedBlocksWithoutEvent1Advance8(removed, g, defs);
    StackedBlocksWithoutEvent1Advance9(removed, g, defs);
    forall j | 5 <= j < 10 ensures Advances(StackedBlocks(removed), g, defs, j) {
      assert j == 5 || j == 6 || j == 7 || j == 8 || j == 9;
    }
  }

  lemma StackedBlocksWithoutEvent1Extract10(removed: set<EventId>, g: seq<Node>, defs: seq<map<VarId, nat>>)
    requires 0 !in removed && 1 in removed && 2 !in removed && 3 !in removed && 4 !in removed
    requires StackedBlocksWithoutEvent1Shape(g) && StackedBlocksWithoutEvent1Tables(defs)
    ensures |StackedBlocks(removed)| == 26
    ensures forall j :: 10 <= j < 15 ==> Advances(StackedBlocks(removed), g, defs, j)
  {
    StackedBlocksWithoutEvent1Advance10(removed, g, defs);
    StackedBlocksWithoutEvent1Advance11(removed, g, defs);
    StackedBlocksWithoutEvent1Advance12(removed, g, defs);
    StackedBlocksWithoutEvent1Advance13(removed, g, defs);
    StackedBlocksWithoutEvent1Advance14(removed, g, defs);
    forall j | 10 <= j < 15 ensures Advances(StackedBlocks(removed), g, defs, j) {
      assert j == 10 || j == 11 || j == 12 || j == 13 || j == 14;
    }
  }

  lemma StackedBlocksWithoutEvent1Extract15(removed: set<EventId>, g: seq<Node>, defs: seq<map<VarId, nat>>)
    requires 0 !in removed && 1 in removed && 2 !in removed && 3 !in removed && 4 !in removed
    requires StackedBlocksWithoutEvent1Shape(g) && StackedBlocksWithoutEvent1Tables(defs)
    ensures |StackedBlocks(removed)| == 26
    ensures forall j :: 15 <= j < 20 ==> Advances(StackedBlocks(removed), g, defs, j)
  {
    StackedBlocksWithoutEvent1Advance15(removed, g, defs);
    StackedBlocksWithoutEvent1Advance16(removed, g, defs);
    StackedBlocksWithoutEvent1Advance17(removed, g, defs);
    StackedBlocksWithoutEvent1Advance18(removed, g, defs);
    StackedBlocksWithoutEvent1Advance19(removed, g, defs);
    forall j | 15 <= j < 20 ensures Advances(StackedBlocks(removed), g, defs, j) {
      assert j == 15 || j == 16 || j == 17 || j == 18 || j == 19;
    }
  }

  lemma StackedBlocksWithoutEvent1Extract20(removed: set<EventId>, g: seq<Node>, defs: seq<map<VarId, nat>>)
    requires 0 !in removed && 1 in removed && 2 !in removed && 3 !in removed && 4 !in removed
    requires StackedBlocksWithoutEvent1Shape(g) && StackedBlocksWithoutEvent1Tables(defs)
    ensures |StackedBlocks(removed)| == 26
    ensures forall j :: 20 <= j < 25 ==> Advances(StackedBlocks(removed), g, defs, j)
  {
    StackedBlocksWithoutEvent1Advance20(removed, g, defs);
    StackedBlocksWithoutEvent1Advance21(removed, g, defs);
    StackedBlocksWithoutEvent1Advance22(removed, g, defs);
    StackedBlocksWithoutEvent1Advance23(removed, g, defs);
    StackedBlocksWithoutEvent1Advance24(removed, g, defs);
    forall j | 20 <= j < 25 ensures Advances(StackedBlocks(removed), g, defs, j) {
      assert j == 20 || j == 21 || j == 22 || j == 23 || j == 24;
    }
  }

  lemma StackedBlocksWithoutEvent1Extract25(removed: set<EventId>, g: seq<Node>, defs: seq<map<VarId, nat>>)
    requires 0 !in removed && 1 in removed && 2 !in removed && 3 !in removed && 4 !in removed
    requires StackedBlocksWithoutEvent1Shape(g) && StackedBlocksWithoutEvent1Tables(defs)
    ensures |StackedBlocks(removed)| == 26
    ensures forall j :: 25 <= j < 26 ==> Advances(StackedBlocks(removed), g, defs, j)
  {
    StackedBlocksWithoutEvent1Advance25(removed, g, defs);
    forall j | 25 <= j < 26 ensures Advances(StackedBlocks(removed), g, defs, j) {
      assert j == 25;
    }
  }

  lemma StackedBlocksWithoutEvent1NodesShape0()
    ensures |StackedBlocksWithoutEvent1Nodes()| == 26 && StackedBlocksWithoutEvent1Shape0(StackedBlocksWithoutEvent1Nodes())
  {
  }

  lemma StackedBlocksWithoutEvent1NodesShape5()
    ensures |StackedBlocksWithoutEvent1Nodes()| == 26 && StackedBlocksWithoutEvent1Shape5(StackedBlocksWithoutEvent1Nodes())
  {
  }

  lemma StackedBlocksWithoutEvent1NodesShape10()
    ensures |StackedBlocksWithoutEvent1Nodes()| == 26 && StackedBlocksWithoutEvent1Shape10(StackedBlocksWithoutEvent1Nodes())
  {
  }

  lemma StackedBlocksWithoutEvent1NodesShape15()
    ensures |StackedBlocksWithoutEvent1Nodes()| == 26 && StackedBlocksWithoutEvent1Shape15(StackedBlocksWithoutEvent1Nodes())
  {
  }

  lemma StackedBlocksWithoutEvent1NodesShape20()
    ensures |StackedBlocksWithoutEvent1Nodes()| == 26 && StackedBlocksWithoutEvent1Shape20(StackedBlocksWithoutEvent1Nodes())
  {
  }

  lemma StackedBlocksWithoutEvent1NodesShape25()
    ensures |StackedBlocksWithoutEvent1Nodes()| == 26 && StackedBlocksWithoutEvent1Shape25(StackedBlocksWithoutEvent1Nodes())
  {
  }

  lemma StackedBlocksWithoutEvent1DefsTables0()
    ensures |StackedBlocksWithoutEvent1Defs()| == 27 && StackedBlocksWithoutEvent1Tables0(StackedBlocksWithoutEvent1Defs())
  {
  }

  lemma StackedBlocksWithoutEvent1DefsTables5()
    ensures |StackedBlocksWithoutEvent1Defs()| == 27 && StackedBlocksWithoutEvent1Tables5(StackedBlocksWithoutEvent1Defs())
  {
  }

  lemma StackedBlocksWithoutEvent1DefsTables10()
    ensures |StackedBlocksWithoutEvent1Defs()| == 27 && StackedBlocksWithoutEvent1Tables10(StackedBlocksWithoutEvent1Defs())
  {
  }

  lemma StackedBlocksWithoutEvent1DefsTables15()
    ensures |StackedBlocksWithoutEvent1Defs()| == 27 && StackedBlocksWithoutEvent1Tables15(StackedBlocksWithoutEvent1Defs())
  {
  }

  lemma StackedBlocksWithoutEvent1DefsTables20()
    ensures |StackedBlocksWithoutEvent1Defs()| == 27 && StackedBlocksWithoutEvent1Tables20(StackedBlocksWithoutEvent1Defs())
  {
  }

  lemma StackedBlocksWithoutEvent1DefsTables25()
    ensures |StackedBlocksWithoutEvent1Defs()| == 27 && StackedBlocksWithoutEvent1Tables25(StackedBlocksWithoutEvent1Defs())
  {
  }

  /** `Extract` on `StackedBlocks(removed)` yields `StackedBlocksWithoutEvent1Nodes()`. */
  lemma StackedBlocksWithoutEvent1Graph(removed: set<EventId>) returns (g: seq<Node>)
    requires 0 !in removed && 1 in removed && 2 !in removed && 3 !in removed && 4 !in removed
    ensures Extract(StackedBlocks(removed)) == Ok(g) && StackedBlocksWithoutEvent1Shape(g)
  {
    g := StackedBlocksWithoutEvent1Nodes();
    var defs := StackedBlocksWithoutEvent1Defs();
    var p := StackedBlocks(removed);
    StackedBlocksWithoutEvent1NodesShape0();
    StackedBlocksWithoutEvent1NodesShape5();
    StackedBlocksWithoutEvent1NodesShape10();
    StackedBlocksWithoutEvent1NodesShape15();
    StackedBlocksWithoutEvent1NodesShape20();
    StackedBlocksWithoutEvent1NodesShape25();
    StackedBlocksWithoutEvent1DefsTables0();
    StackedBlocksWithoutEvent1DefsTables5();
    StackedBlocksWithoutEvent1DefsTables10();
    StackedBlocksWithoutEvent1DefsTables15();
    StackedBlocksWithoutEvent1DefsTables20();
    StackedBlocksWithoutEvent1DefsTables25();
    StackedBlocksWithoutEvent1Extract0(removed, g, defs);
    StackedBlocksWithoutEvent1Extract5(removed, g, defs);
    StackedBlocksWithoutEvent1Extract10(removed, g, defs);
    StackedBlocksWithoutEvent1Extract15(removed, g, defs);
    StackedBlocksWithoutEvent1Extract20(removed, g, defs);
    StackedBlocksWithoutEvent1Extract25(removed, g, defs);
    ExtractReplays(p, g, defs, 0);
    assert g[..0] == [];
  }

  lemma StackedBlocksWithoutEvent1Simulate0(g: seq<Node>)
    requires WellFormed(g) && |g| == 26
    requires g[0] == Node(SetStream(0, 0), OnDevice(0, 0), [])
    ensures SimulateFrom(g, 0, StackedBlocksWithoutEvent1State0()) == SimulateFrom(g, 1, StackedBlocksWithoutEvent1State1())
  {
    assert Step(g, 0, StackedBlocksWithoutEvent1State0()) == Ok(StackedBlocksWithoutEvent1State1());
    SimulateLink(g, 0, StackedBlocksWithoutEvent1State0(), StackedBlocksWithoutEvent1State1());
  }

  lemma StackedBlocksWithoutEvent1Simulate1(g: seq<Node>)
    requires WellFormed(g) && |g| == 26
    requires g[1] == Node(Atan(X), OnDevice(0, 0), [])
    ensures SimulateFrom(g, 1, StackedBlocksWithoutEvent1State1()) == SimulateFrom(g, 2, StackedBlocksWithoutEvent1State2())
  {
    ReadHazardsSmall(g, g[1].deps, 1, g[1].stream, ClockOf(StackedBlocksWithoutEvent1State1(), g[1].stream));
    assert StackedBlocksWithoutEvent1State1().hazards + ReadHazards(g, g[1].deps, 1, g[1].stream, ClockOf(StackedBlocksWithoutEvent1State1(), g[1].stream)) == StackedBlocksWithoutEvent1State2().hazards;
    assert Step(g, 1, StackedBlocksWithoutEvent1State1()) == Ok(StackedBlocksWithoutEvent1State2());
    SimulateLink(g, 1, StackedBlocksWithoutEvent1State1(), StackedBlocksWithoutEvent1State2());
  }

  lemma StackedBlocksWithoutEvent1Simulate2(g: seq<Node>)
    requires WellFormed(g) && |g| == 26
    requires g[1] == Node(Atan(X), OnDevice(0, 0), [])
    requires g[2] == Node(Atan(LetVar(1)), OnDevice(0, 0), [1])
    ensures SimulateFrom(g, 2, StackedBlocksWithoutEvent1State2()) == SimulateFrom(g, 3, StackedBlocksWithoutEvent1State3())
  {
    ReadHazardsSmall(g, g[2].deps, 2, g[2].stream, ClockOf(StackedBlocksWithoutEvent1State2(), g[2].stream));
    assert StackedBlocksWithoutEvent1State2().hazards + ReadHazards(g, g[2].deps, 2, g[2].stream, ClockOf(StackedBlocksWithoutEvent1State2(), g[2].stream)) == StackedBlocksWithoutEvent1State3().hazards;
    assert Step(g, 2, StackedBlocksWithoutEvent1State2()) == Ok(StackedBlocksWithoutEvent1State3());
    SimulateLink(g, 2, StackedBlocksWithoutEvent1State2(), StackedBlocksWithoutEvent1State3());
  }

  lemma StackedBlocksWithoutEvent1Simulate3(g: seq<Node>)
    requires WellFormed(g) && |g| == 26
    requires g[3] == Node(AddEvent(0), OnDevice(0, 0), [])
    ensures SimulateFrom(g, 3, StackedBlocksWithoutEvent1State3()) == SimulateFrom(g, 4, StackedBlocksWithoutEvent1State4())
  {
    assert Step(g, 3, StackedBlocksWithoutEvent1State3()) == Ok(StackedBlocksWithoutEvent1State4());
    SimulateLink(g, 3, StackedBlocksWithoutEvent1State3(), StackedBlocksWithoutEvent1State4());
  }

  lemma StackedBlocksWithoutEvent1Simulate4(g: seq<Node>)
    requires WellFormed(g) && |g| == 26
    requires g[4] == Node(SetStream(0, 1), OnDevice(0, 1), [])
    ensures SimulateFrom(g, 4, StackedBlocksWithoutEvent1State4()) == SimulateFrom(g, 5, StackedBlocksWithoutEvent1State5())
  {
    assert Step(g, 4, StackedBlocksWithoutEvent1State4()) == Ok(StackedBlocksWithoutEvent1State5());
    SimulateLink(g, 4, StackedBlocksWithoutEvent1State4(), StackedBlocksWithoutEvent1State5());
  }

  lemma StackedBlocksWithoutEvent1Simulate5(g: seq<Node>)
    requires WellFormed(g) && |g| == 26
    requires g[5] == Node(Atan(X), OnDevice(0, 1), [])
    ensures SimulateFrom(g, 5, StackedBlocksWithoutEvent1State5()) == SimulateFrom(g, 6, StackedBlocksWithoutEvent1State6())
  {
    ReadHazardsSmall(g, g[5].deps, 5, g[5].stream, ClockOf(StackedBlocksWithoutEvent1State5(), g[5].stream));
    assert StackedBlocksWithoutEvent1State5().hazards + ReadHazards(g, g[5].deps, 5, g[5].stream, ClockOf(StackedBlocksWithoutEvent1State5(), g[5].stream)) == StackedBlocksWithoutEvent1State6().hazards;
    assert Step(g, 5, StackedBlocksWithoutEvent1State5()) == Ok(StackedBlocksWithoutEvent1State6());
    SimulateLink(g, 5, StackedBlocksWithoutEvent1State5(), StackedBlocksWithoutEvent1State6());
  }

  lemma StackedBlocksWithoutEvent1Simulate6(g: seq<Node>)
    requires WellFormed(g) && |g| == 26
    requires g[6] == Node(SetStream(0, 2), OnDevice(0, 2), [])
    ensures SimulateFrom(g, 6, StackedBlocksWithoutEvent1State6()) == SimulateFrom(g, 7, StackedBlocksWithoutEvent1State7())
  {
    assert Step(g, 6, StackedBlocksWithoutEvent1State6()) == Ok(StackedBlocksWithoutEvent1State7());
    SimulateLink(g, 6, StackedBlocksWithoutEvent1State6(), StackedBlocksWithoutEvent1State7());
  }

  lemma StackedBlocksWithoutEvent1Simulate7(g: seq<Node>)
    requires WellFormed(g) && |g| == 26
    requires g[7] == Node(Atan(X), OnDevice(0, 2), [])
    ensures SimulateFrom(g, 7, StackedBlocksWithoutEvent1State7()) == SimulateFrom(g, 8, StackedBlocksWithoutEvent1State8())
  {
    ReadHazardsSmall(g, g[7].deps, 7, g[7].stream, ClockOf(StackedBlocksWithoutEvent1State7(), g[7].stream));
    assert StackedBlocksWithoutEvent1State7().hazards + ReadHazards(g, g[7].deps, 7, g[7].stream, ClockOf(StackedBlocksWithoutEvent1State7(), g[7].stream)) == StackedBlocksWithoutEvent1State8().hazards;
    assert Step(g, 7, StackedBlocksWithoutEvent1State7()) == Ok(StackedBlocksWithoutEvent1State8());
    SimulateLink(g, 7, StackedBlocksWithoutEvent1State7(), StackedBlocksWithoutEvent1State8());
  }

  lemma StackedBlocksWithoutEvent1Simulate8(g: seq<Node>)
    requires WellFormed(g) && |g| == 26
    requires g[8] == Node(WaitEvent(0), OnDevice(0, 2), [])
    ensures SimulateFrom(g, 8, StackedBlocksWithoutEvent1State8()) == SimulateFrom(g, 9, StackedBlocksWithoutEvent1State9())
  {
    MergeIs(map[], Mark(OnDevice(0, 0), 3, map[]), map[OnDevice(0, 0) := 3]);
    assert Step(g, 8, StackedBlocksWithoutEvent1State8()) == Ok(StackedBlocksWithoutEvent1State9());
    SimulateLink(g, 8, StackedBlocksWithoutEvent1State8(), StackedBlocksWithoutEvent1State9());
  }

  lemma StackedBlocksWithoutEvent1Simulate9(g: seq<Node>)
    requires WellFormed(g) && |g| == 26
    requires g[2] == Node(Atan(LetVar(1)), OnDevice(0, 0), [1])
    requires g[5] == Node(Atan(X), OnDevice(0, 1), [])
    requires g[7] == Node(Atan(X), OnDevice(0, 2), [])
    requires g[9] == Node(MakeTuple([LetVar(8), LetVar(5), LetVar(2)]), OnDevice(0, 2), [7, 5, 2])
    ensures SimulateFrom(g, 9, StackedBlocksWithoutEvent1State9()) == SimulateFrom(g, 10, StackedBlocksWithoutEvent1State10())
  {
    ReadHazardsSmall(g, g[9].deps, 9, g[9].stream, ClockOf(StackedBlocksWithoutEvent1State9(), g[9].stream));
    assert StackedBlocksWithoutEvent1State9().hazards + ReadHazards(g, g[9].deps, 9, g[9].stream, ClockOf(StackedBlocksWithoutEvent1State9(), g[9].stream)) == StackedBlocksWithoutEvent1State10().hazards;
    assert Step(g, 9, StackedBlocksWithoutEvent1State9()) == Ok(StackedBlocksWithoutEvent1State10());
    SimulateLink(g, 9, StackedBlocksWithoutEvent1State9(), StackedBlocksWithoutEvent1State10());
  }

  lemma StackedBlocksWithoutEvent1Simulate10(g: seq<Node>)
    requires WellFormed(g) && |g| == 26
    requires g[9] == Node(MakeTuple([LetVar(8), LetVar(5), LetVar(2)]), OnDevice(0, 2), [7, 5, 2])
    requires g[10] == Node(Concatenate(LetVar(11), 0), OnDevice(0, 2), [9])
    ensures SimulateFrom(g, 10, StackedBlocksWithoutEvent1State10()) == SimulateFrom(g, 11, StackedBlocksWithoutEvent1State11())
  {
    ReadHazardsSmall(g, g[10].deps, 10, g[10].stream, ClockOf(StackedBlocksWithoutEvent1State10(), g[10].stream));
    assert StackedBlocksWithoutEvent1State10().hazards + ReadHazards(g, g[10].deps, 10, g[10].stream, ClockOf(StackedBlocksWithoutEvent1State10(), g[10].stream)) == StackedBlocksWithoutEvent1State11().hazards;
    assert Step(g, 10, StackedBlocksWithoutEvent1State10()) == Ok(StackedBlocksWithoutEvent1State11());
    SimulateLink(g, 10, StackedBlocksWithoutEvent1State10(), StackedBlocksWithoutEvent1State11());
  }

  lemma StackedBlocksWithoutEvent1Simulate11(g: seq<Node>)
    requires WellFormed(g) && |g| == 26
    requires g[11] == Node(AddEvent(2), OnDevice(0, 2), [])
    ensures SimulateFrom(g, 11, StackedBlocksWithoutEvent1State11()) == SimulateFrom(g, 12, StackedBlocksWithoutEvent1State12())
  {
    assert Step(g, 11, StackedBlocksWithoutEvent1State11()) == Ok(StackedBlocksWithoutEvent1State12());
    SimulateLink(g, 11, StackedBlocksWithoutEvent1State11(), StackedBlocksWithoutEvent1State12());
  }

  lemma StackedBlocksWithoutEvent1Simulate12(g: seq<Node>)
    requires WellFormed(g) && |g| == 26
    requires g[10] == Node(Concatenate(LetVar(11), 0), OnDevice(0, 2), [9])
    requires g[12] == Node(Atan(LetVar(12)), OnDevice(0, 2), [10])
    ensures SimulateFrom(g, 12, StackedBlocksWithoutEvent1State12()) == SimulateFrom(g, 13, StackedBlocksWithoutEvent1State13())
  {
    ReadHazardsSmall(g, g[12].deps, 12, g[12].stream, ClockOf(StackedBlocksWithoutEvent1State12(), g[12].stream));
    assert StackedBlocksWithoutEvent1State12().hazards + ReadHazards(g, g[12].deps, 12, g[12].stream, ClockOf(StackedBlocksWithoutEvent1State12(), g[12].stream)) == StackedBlocksWithoutEvent1State13().hazards;
    assert Step(g, 12, StackedBlocksWithoutEvent1State12()) == Ok(StackedBlocksWithoutEvent1State13());
    SimulateLink(g, 12, StackedBlocksWithoutEvent1State12(), StackedBlocksWithoutEvent1State13());
  }

  lemma StackedBlocksWithoutEvent1Simulate13(g: seq<Node>)
    requires WellFormed(g) && |g| == 26
    requires g[12] == Node(Atan(LetVar(12)), OnDevice(0, 2), [10])
    requires g[13] == Node(Atan(LetVar(14)), OnDevice(0, 2), [12])
    ensures SimulateFrom(g, 13, StackedBlocksWithoutEvent1State13()) == SimulateFrom(g, 14, StackedBlocksWithoutEvent1State14())
  {
    ReadHazardsSmall(g, g[13].deps, 13, g[13].stream, ClockOf(StackedBlocksWithoutEvent1State13(), g[13].stream));
    assert StackedBlocksWithoutEvent1State13().hazards + ReadHazards(g, g[13].deps, 13, g[13].stream, ClockOf(StackedBlocksWithoutEvent1State13(), g[13].stream)) == StackedBlocksWithoutEvent1State14().hazards;
    assert Step(g, 13, StackedBlocksWithoutEvent1State13()) == Ok(StackedBlocksWithoutEvent1State14());
    SimulateLink(g, 13, StackedBlocksWithoutEvent1State13(), StackedBlocksWithoutEvent1State14());
  }

  lemma StackedBlocksWithoutEvent1Simulate14(g: seq<Node>)
    requires WellFormed(g) && |g| == 26
    requires g[14] == Node(AddEvent(3), OnDevice(0, 2), [])
    ensures SimulateFrom(g, 14, StackedBlocksWithoutEvent1State14()) == SimulateFrom(g, 15, StackedBlocksWithoutEvent1State15())
  {
    assert Step(g, 14, StackedBlocksWithoutEvent1State14()) == Ok(StackedBlocksWithoutEvent1State15());
    SimulateLink(g, 14, StackedBlocksWithoutEvent1State14(), StackedBlocksWithoutEvent1State15());
  }

  lemma StackedBlocksWithoutEvent1Simulate15(g: seq<Node>)
    requires WellFormed(g) && |g| == 26
    requires g[15] == Node(SetStream(0, 1), OnDevice(0, 1), [])
    ensures SimulateFrom(g, 15, StackedBlocksWithoutEvent1State15()) == SimulateFrom(g, 16, StackedBlocksWithoutEvent1State16())
  {
    assert Step(g, 15, StackedBlocksWithoutEvent1State15()) == Ok(StackedBlocksWithoutEvent1State16());
    SimulateLink(g, 15, StackedBlocksWithoutEvent1State15(), StackedBlocksWithoutEvent1State16());
  }

  lemma StackedBlocksWithoutEvent1Simulate16(g: seq<Node>)
    requires WellFormed(g) && |g| == 26
    requires g[16] == Node(WaitEvent(2), OnDevice(0, 1), [])
    ensures SimulateFrom(g, 16, StackedBlocksWithoutEvent1State16()) == SimulateFrom(g, 17, StackedBlocksWithoutEvent1State17())
  {
    MergeIs(map[], Mark(OnDevice(0, 2), 11, map[OnDevice(0, 0) := 3]), map[OnDevice(0, 0) := 3, OnDevice(0, 2) := 11]);
    assert Step(g, 16, StackedBlocksWithoutEvent1State16()) == Ok(StackedBlocksWithoutEvent1State17());
    SimulateLink(g, 16, StackedBlocksWithoutEvent1State16(), StackedBlocksWithoutEvent1State17());
  }

  lemma StackedBlocksWithoutEvent1Simulate17(g: seq<Node>)
    requires WellFormed(g) && |g| == 26
    requires g[10] == Node(Concatenate(LetVar(11), 0), OnDevice(0, 2), [9])
    requires g[17] == Node(Atan(LetVar(12)), OnDevice(0, 1), [10])
    ensures SimulateFrom(g, 17, StackedBlocksWithoutEvent1State17()) == SimulateFrom(g, 18, StackedBlocksWithoutEvent1State18())
  {
    ReadHazardsSmall(g, g[17].deps, 17, g[17].stream, ClockOf(StackedBlocksWithoutEvent1State17(), g[17].stream));
    assert StackedBlocksWithoutEvent1State17().hazards + ReadHazards(g, g[17].deps, 17, g[17].stream, ClockOf(StackedBlocksWithoutEvent1State17(), g[17].stream)) == StackedBlocksWithoutEvent1State18().hazards;
    assert Step(g, 17, StackedBlocksWithoutEvent1State17()) == Ok(StackedBlocksWithoutEvent1State18());
    SimulateLink(g, 17, StackedBlocksWithoutEvent1State17(), StackedBlocksWithoutEvent1State18());
  }

  lemma StackedBlocksWithoutEvent1Simulate18(g: seq<Node>)
    requires WellFormed(g) && |g| == 26
    requires g[18] == Node(AddEvent(4), OnDevice(0, 1), [])
    ensures SimulateFrom(g, 18, StackedBlocksWithoutEvent1State18()) == SimulateFrom(g, 19, StackedBlocksWithoutEvent1State19())
  {
    assert Step(g, 18, StackedBlocksWithoutEvent1State18()) == Ok(StackedBlocksWithoutEvent1State19());
    SimulateLink(g, 18, StackedBlocksWithoutEvent1State18(), StackedBlocksWithoutEvent1State19());
  }

  lemma StackedBlocksWithoutEvent1Simulate19(g: seq<Node>)
    requires WellFormed(g) && |g| == 26
    requires g[19] == Node(SetStream(0, 0), OnDevice(0, 0), [])
    ensures SimulateFrom(g, 19, StackedBlocksWithoutEvent1State19()) == SimulateFrom(g, 20, StackedBlocksWithoutEvent1State20())
  {
    assert Step(g, 19, StackedBlocksWithoutEvent1State19()) == Ok(StackedBlocksWithoutEvent1State20());
    SimulateLink(g, 19, StackedBlocksWithoutEvent1State19(), StackedBlocksWithoutEvent1State20());
  }

  lemma StackedBlocksWithoutEvent1Simulate20(g: seq<Node>)
    requires WellFormed(g) && |g| == 26
    requires g[20] == Node(WaitEvent(2), OnDevice(0, 0), [])
    ensures SimulateFrom(g, 20, StackedBlocksWithoutEvent1State20()) == SimulateFrom(g, 21, StackedBlocksWithoutEvent1State21())
  {
    MergeIs(map[], Mark(OnDevice(0, 2), 11, map[OnDevice(0, 0) := 3]), map[OnDevice(0, 0) := 3, OnDevice(0, 2) := 11]);
    assert Step(g, 20, StackedBlocksWithoutEvent1State20()) == Ok(StackedBlocksWithoutEvent1State21());
    SimulateLink(g, 20, StackedBlocksWithoutEvent1State20(), StackedBlocksWithoutEvent1State21());
  }

  lemma StackedBlocksWithoutEvent1Simulate21(g: seq<Node>)
    requires WellFormed(g) && |g| == 26
    requires g[10] == Node(Concatenate(LetVar(11), 0), OnDevice(0, 2), [9])
    requires g[21] == Node(Atan(LetVar(12)), OnDevice(0, 0), [10])
    ensures SimulateFrom(g, 21, StackedBlocksWithoutEvent1State21()) == SimulateFrom(g, 22, StackedBlocksWithoutEvent1State22())
  {
    ReadHazardsSmall(g, g[21].deps, 21, g[21].stream, ClockOf(StackedBlocksWithoutEvent1State21(), g[21].stream));
    assert StackedBlocksWithoutEvent1State21().hazards + ReadHazards(g, g[21].deps, 21, g[21].stream, ClockOf(StackedBlocksWithoutEvent1State21(), g[21].stream)) == StackedBlocksWithoutEvent1State22().hazards;
    assert Step(g, 21, StackedBlocksWithoutEvent1State21()) == Ok(StackedBlocksWithoutEvent1State22());
    SimulateLink(g, 21, StackedBlocksWithoutEvent1State21(), StackedBlocksWithoutEvent1State22());
  }

  lemma StackedBlocksWithoutEvent1Simulate22(g: seq<Node>)
    requires WellFormed(g) && |g| == 26
    requires g[22] == Node(WaitEvent(4), OnDevice(0, 0), [])
    ensures SimulateFrom(g, 22, StackedBlocksWithoutEvent1State22()) == SimulateFrom(g, 23, StackedBlocksWithoutEvent1State23())
  {
    MergeIs(map[OnDevice(0, 0) := 3, OnDevice(0, 2) := 11], Mark(OnDevice(0, 1), 18, map[OnDevice(0, 0) := 3, OnDevice(0, 2) := 11]), map[OnDevice(0, 0) := 3, OnDevice(0, 1) := 18, OnDevice(0, 2) := 11]);
    assert Step(g, 22, StackedBlocksWithoutEvent1State22()) == Ok(StackedBlocksWithoutEvent1State23());
    SimulateLink(g, 22, StackedBlocksWithoutEvent1State22(), StackedBlocksWithoutEvent1State23());
  }

  lemma StackedBlocksWithoutEvent1Simulate23(g: seq<Node>)
    requires WellFormed(g) && |g| == 26
    requires g[23] == Node(WaitEvent(3), OnDevice(0, 0), [])
    ensures SimulateFrom(g, 23, StackedBlocksWithoutEvent1State23()) == SimulateFrom(g, 24, StackedBlocksWithoutEvent1State24())
  {
    MergeIs(map[OnDevice(0, 0) := 3, OnDevice(0, 1) := 18, OnDevice(0, 2) := 11], Mark(OnDevice(0, 2), 14, map[OnDevice(0, 0) := 3]), map[OnDevice(0, 0) := 3, OnDevice(0, 1) := 18, OnDevice(0, 2) := 14]);
    assert Step(g, 23, StackedBlocksWithoutEvent1State23()) == Ok(StackedBlocksWithoutEvent1State24());
    SimulateLink(g, 23, StackedBlocksWithoutEvent1State23(), StackedBlocksWithoutEvent1State24());
  }

  lemma StackedBlocksWithoutEvent1Simulate24(g: seq<Node>)
    requires WellFormed(g) && |g| == 26
    requires g[13] == Node(Atan(LetVar(14)), OnDevice(0, 2), [12])
    requires g[17] == Node(Atan(LetVar(12)), OnDevice(0, 1), [10])
    requires g[21] == Node(Atan(LetVar(12)), OnDevice(0, 0), [10])
    requires g[24] == Node(MakeTuple([LetVar(23), LetVar(19), LetVar(15)]), OnDevice(0, 0), [21, 17, 13])
    ensures SimulateFrom(g, 24, StackedBlocksWithoutEvent1State24()) == SimulateFrom(g, 25, StackedBlocksWithoutEvent1State25())
  {
    ReadHazardsSmall(g, g[24].deps, 24, g[24].stream, ClockOf(StackedBlocksWithoutEvent1State24(), g[24].stream));
    assert StackedBlocksWithoutEvent1State24().hazards + ReadHazards(g, g[24].deps, 24, g[24].stream, ClockOf(StackedBlocksWithoutEvent1State24(), g[24].stream)) == StackedBlocksWithoutEvent1State25().hazards;
    assert Step(g, 24, StackedBlocksWithoutEvent1State24()) == Ok(StackedBlocksWithoutEvent1State25());
    SimulateLink(g, 24, StackedBlocksWithoutEvent1State24(), StackedBlocksWithoutEvent1State25());
  }

  lemma StackedBlocksWithoutEvent1Simulate25(g: seq<Node>)
    requires WellFormed(g) && |g| == 26
    requires g[24] == Node(MakeTuple([LetVar(23), LetVar(19), LetVar(15)]), OnDevice(0, 0), [21, 17, 13])
    requires g[25] == Node(Concatenate(LetVar(26), 0), OnDevice(0, 0), [24])
    ensures SimulateFrom(g, 25, StackedBlocksWithoutEvent1State25()) == SimulateFrom(g, 26, StackedBlocksWithoutEvent1State26())
  {
    ReadHazardsSmall(g, g[25].deps, 25, g[25].stream, ClockOf(StackedBlocksWithoutEvent1State25(), g[25].stream));
    assert StackedBlocksWithoutEvent1State25().hazards + ReadHazards(g, g[25].deps, 25, g[25].stream, ClockOf(StackedBlocksWithoutEvent1State25(), g[25].stream)) == StackedBlocksWithoutEvent1State26().hazards;
    assert Step(g, 25, StackedBlocksWithoutEvent1State25()) == Ok(StackedBlocksWithoutEvent1State26());
    SimulateLink(g, 25, StackedBlocksWithoutEvent1State25(), StackedBlocksWithoutEvent1State26());
  }

  /** Without event 1 the first join `x_11` reads `x_5` unordered. */
  lemma Verdict(removed: set<EventId>)
    requires 0 !in removed && 1 in removed && 2 !in removed && 3 !in removed && 4 !in removed
    ensures Verify(StackedBlocks(removed)) == Err(ExecutionOrder([Hazard(5, 9, OnDevice(0, 1), OnDevice(0, 2))]))
  {
    var g := StackedBlocksWithoutEvent1Graph(removed);
    StackedBlocksWithoutEvent1Simulate0(g);
    StackedBlocksWithoutEvent1Simulate1(g);
    StackedBlocksWithoutEvent1Simulate2(g);
    StackedBlocksWithoutEvent1Simulate3(g);
    StackedBlocksWithoutEvent1Simulate4(g);
    StackedBlocksWithoutEvent1Simulate5(g);
    StackedBlocksWithoutEvent1Simulate6(g);
    StackedBlocksWithoutEvent1Simulate7(g);
    StackedBlocksWithoutEvent1Simulate8(g);
    StackedBlocksWithoutEvent1Simulate9(g);
    StackedBlocksWithoutEvent1Simulate10(g);
    StackedBlocksWithoutEvent1Simulate11(g);
    StackedBlocksWithoutEvent1Simulate12(g);
    StackedBlocksWithoutEvent1Simulate13(g);
    StackedBlocksWithoutEvent1Simulate14(g);
    StackedBlocksWithoutEvent1Simulate15(g);
    StackedBlocksWithoutEvent1Simulate16(g);
    StackedBlocksWithoutEvent1Simulate17(g);
    StackedBlocksWithoutEvent1Simulate18(g);
    StackedBlocksWithoutEvent1Simulate19(g);
    StackedBlocksWithoutEvent1Simulate20(g);
    StackedBlocksWithoutEvent1Simulate21(g);
    StackedBlocksWithoutEvent1Simulate22(g);
    StackedBlocksWithoutEvent1Simulate23(g);
    StackedBlocksWithoutEvent1Simulate24(g);
    StackedBlocksWithoutEvent1Simulate25(g);
    SimulateDone(g, StackedBlocksWithoutEvent1State26());
  }
}
