/**
 * The verifier's verdict on `StackedBlocks(removed)` for one choice of removed events.
 * Without event 0 the first join `x_11` reads `x_2` unordered.
 */
module StackedBlocksWithoutEvent0 {
  import opened Results
  import opened ScheduleVerifier
  import opened ScheduleTheory
  import opened SchedulePrograms

  /** The graph `Extract` builds for `StackedBlocks(removed)`. */
  function StackedBlocksWithoutEvent0Nodes(): seq<Node>
  {
    [ Node(SetStream(0, 0), OnDevice(0, 0), [])
    , Node(Atan(X), OnDevice(0, 0), [])
    , Node(Atan(LetVar(1)), OnDevice(0, 0), [1])
    , Node(SetStream(0, 1), OnDevice(0, 1), [])
    , Node(Atan(X), OnDevice(0, 1), [])
    , Node(AddEvent(1), OnDevice(0, 1), [])
    , Node(SetStream(0, 2), OnDevice(0, 2), [])
    , Node(Atan(X), OnDevice(0, 2), [])
    , Node(WaitEvent(1), OnDevice(0, 2), [])
    , Node(MakeTuple([LetVar(8), LetVar(5), LetVar(2)]), OnDevice(0, 2), [7, 4, 2])
    , Node(Concatenate(LetVar(11), 0), OnDevice(0, 2), [9])
    , Node(AddEvent(2), OnDevice(0, 2), [])
    , Node(Atan(LetVar(12)), OnDevice(0, 2), [10])
    , Node(Atan(LetVar(14)), OnDevice(0, 2), [12])
    , Node(AddEvent(3), OnDevice(0, 2), [])
    , Node(SetStream(0, 1), OnDevice(0, 1), [])
    , Node(WaitEvent(2), OnDevice(0, 1), [])
    , Node(Atan(LetVar(12)), OnDevice(0, 1), [10])
    , Node(AddEvent(4), OnDevice(0, 1), [])
    , Node(SetStream(0, 0), OnDevice(0, 0), [])
    , Node(WaitEvent(2), OnDevice(0, 0), [])
    , Node(Atan(LetVar(12)), OnDevice(0, 0), [10])
    , Node(WaitEvent(4), OnDevice(0, 0), [])
    , Node(WaitEvent(3), OnDevice(0, 0), [])
    , Node(MakeTuple([LetVar(23), LetVar(19), LetVar(15)]), OnDevice(0, 0), [21, 17, 13])
    , Node(Concatenate(LetVar(26), 0), OnDevice(0, 0), [24]) ]
  }

  /** `g` is `StackedBlocksWithoutEvent0Nodes()`, position by position. */
  predicate StackedBlocksWithoutEvent0Shape(g: seq<Node>)
  {
    && |g| == 26
    && StackedBlocksWithoutEvent0Shape0(g)
    && StackedBlocksWithoutEvent0Shape5(g)
    && StackedBlocksWithoutEvent0Shape10(g)
    && StackedBlocksWithoutEvent0Shape15(g)
    && StackedBlocksWithoutEvent0Shape20(g)
    && StackedBlocksWithoutEvent0Shape25(g)
  }

  predicate StackedBlocksWithoutEvent0Shape0(g: seq<Node>)
    requires |g| == 26
  {
    && g[0] == Node(SetStream(0, 0), OnDevice(0, 0), [])
    && g[1] == Node(Atan(X), OnDevice(0, 0), [])
    && g[2] == Node(Atan(LetVar(1)), OnDevice(0, 0), [1])
    && g[3] == Node(SetStream(0, 1), OnDevice(0, 1), [])
    && g[4] == Node(Atan(X), OnDevice(0, 1), [])
  }

  predicate StackedBlocksWithoutEvent0Shape5(g: seq<Node>)
    requires |g| == 26
  {
    && g[5] == Node(AddEvent(1), OnDevice(0, 1), [])
    && g[6] == Node(SetStream(0, 2), OnDevice(0, 2), [])
    && g[7] == Node(Atan(X), OnDevice(0, 2), [])
    && g[8] == Node(WaitEvent(1), OnDevice(0, 2), [])
    && g[9] == Node(MakeTuple([LetVar(8), LetVar(5), LetVar(2)]), OnDevice(0, 2), [7, 4, 2])
  }

  predicate StackedBlocksWithoutEvent0Shape10(g: seq<Node>)
    requires |g| == 26
  {
    && g[10] == Node(Concatenate(LetVar(11), 0), OnDevice(0, 2), [9])
    && g[11] == Node(AddEvent(2), OnDevice(0, 2), [])
    && g[12] == Node(Atan(LetVar(12)), OnDevice(0, 2), [10])
    && g[13] == Node(Atan(LetVar(14)), OnDevice(0, 2), [12])
    && g[14] == Node(AddEvent(3), OnDevice(0, 2), [])
  }

  predicate StackedBlocksWithoutEvent0Shape15(g: seq<Node>)
    requires |g| == 26
  {
    && g[15] == Node(SetStream(0, 1), OnDevice(0, 1), [])
    && g[16] == Node(WaitEvent(2), OnDevice(0, 1), [])
    && g[17] == Node(Atan(LetVar(12)), OnDevice(0, 1), [10])
    && g[18] == Node(AddEvent(4), OnDevice(0, 1), [])
    && g[19] == Node(SetStream(0, 0), OnDevice(0, 0), [])
  }

  predicate StackedBlocksWithoutEvent0Shape20(g: seq<Node>)
    requires |g| == 26
  {
    && g[20] == Node(WaitEvent(2), OnDevice(0, 0), [])
    && g[21] == Node(Atan(LetVar(12)), OnDevice(0, 0), [10])
    && g[22] == Node(WaitEvent(4), OnDevice(0, 0), [])
    && g[23] == Node(WaitEvent(3), OnDevice(0, 0), [])
    && g[24] == Node(MakeTuple([LetVar(23), LetVar(19), LetVar(15)]), OnDevice(0, 0), [21, 17, 13])
  }

  predicate StackedBlocksWithoutEvent0Shape25(g: seq<Node>)
    requires |g| == 26
  {
    && g[25] == Node(Concatenate(LetVar(26), 0), OnDevice(0, 0), [24])
  }

  /** The variable table before each position of `StackedBlocks(removed)`. */
  function StackedBlocksWithoutEvent0Defs(): seq<map<VarId, nat>>
  {
    [ map[]
    , map[0 := 0]
    , map[0 := 0, 1 := 1]
    , map[0 := 0, 1 := 1, 2 := 2]
    , map[0 := 0, 1 := 1, 2 := 2, 4 := 3]
    , map[0 := 0, 1 := 1, 2 := 2, 4 := 3, 5 := 4]
    , map[0 := 0, 1 := 1, 2 := 2, 4 := 3, 5 := 4, 6 := 5]
    , map[0 := 0, 1 := 1, 2 := 2, 4 := 3, 5 := 4, 6 := 5, 7 := 6]
    , map[0 := 0, 1 := 1, 2 := 2, 4 := 3, 5 := 4, 6 := 5, 7 := 6, 8 := 7]
    , map[0 := 0, 1 := 1, 2 := 2, 4 := 3, 5 := 4, 6 := 5, 7 := 6, 8 := 7, 9 := 8]
    , map[0 := 0, 1 := 1, 2 := 2, 4 := 3, 5 := 4, 6 := 5, 7 := 6, 8 := 7, 9 := 8, 11 := 9]
    , map[0 := 0, 1 := 1, 2 := 2, 4 := 3, 5 := 4, 6 := 5, 7 := 6, 8 := 7, 9 := 8, 11 := 9, 12 := 10]
    , map[0 := 0, 1 := 1, 2 := 2, 4 := 3, 5 := 4, 6 := 5, 7 := 6, 8 := 7, 9 := 8, 11 := 9, 12 := 10, 13 := 11]
    , map[0 := 0, 1 := 1, 2 := 2, 4 := 3, 5 := 4, 6 := 5, 7 := 6, 8 := 7, 9 := 8, 11 := 9, 12 := 10, 13 := 11, 14 := 12]
    , map[0 := 0, 1 := 1, 2 := 2, 4 := 3, 5 := 4, 6 := 5, 7 := 6, 8 := 7, 9 := 8, 11 := 9, 12 := 10, 13 := 11, 14 := 12, 15 := 13]
    , map[0 := 0, 1 := 1, 2 := 2, 4 := 3, 5 := 4, 6 := 5, 7 := 6, 8 := 7, 9 := 8, 11 := 9, 12 := 10, 13 := 11, 14 := 12, 15 := 13, 16 := 14]
    , map[0 := 0, 1 := 1, 2 := 2, 4 := 3, 5 := 4, 6 := 5, 7 := 6, 8 := 7, 9 := 8, 11 := 9, 12 := 10, 13 := 11, 14 := 12, 15 := 13, 16 := 14, 17 := 15]
    , map[0 := 0, 1 := 1, 2 := 2, 4 := 3, 5 := 4, 6 := 5, 7 := 6, 8 := 7, 9 := 8, 11 := 9, 12 := 10, 13 := 11, 14 := 12, 15 := 13, 16 := 14, 17 := 15, 18 := 16]
    , map[0 := 0, 1 := 1, 2 := 2, 4 := 3, 5 := 4, 6 := 5, 7 := 6, 8 := 7, 9 := 8, 11 := 9, 12 := 10, 13 := 11, 14 := 12, 15 := 13, 16 := 14, 17 := 15, 18 := 16, 19 := 17]
    , map[0 := 0, 1 := 1, 2 := 2, 4 := 3, 5 := 4, 6 := 5, 7 := 6, 8 := 7, 9 := 8, 11 := 9, 12 := 10, 13 := 11, 14 := 12, 15 := 13, 16 := 14, 17 := 15, 18 := 16, 19 := 17, 20 := 18]
    , map[0 := 0, 1 := 1, 2 := 2, 4 := 3, 5 := 4, 6 := 5, 7 := 6, 8 := 7, 9 := 8, 11 := 9, 12 := 10, 13 := 11, 14 := 12, 15 := 13, 16 := 14, 17 := 15, 18 := 16, 19 := 17, 20 := 18, 21 := 19]
    , map[0 := 0, 1 := 1, 2 := 2, 4 := 3, 5 := 4, 6 := 5, 7 := 6, 8 := 7, 9 := 8, 11 := 9, 12 := 10, 13 := 11, 14 := 12, 15 := 13, 16 := 14, 17 := 15, 18 := 16, 19 := 17, 20 := 18, 21 := 19, 22 := 20]
    , map[0 := 0, 1 := 1, 2 := 2, 4 := 3, 5 := 4, 6 := 5, 7 := 6, 8 := 7, 9 := 8, 11 := 9, 12 := 10, 13 := 11, 14 := 12, 15 := 13, 16 := 14, 17 := 15, 18 := 16, 19 := 17, 20 := 18, 21 := 19, 22 := 20, 23 := 21]
    , map[0 := 0, 1 := 1, 2 := 2, 4 := 3, 5 := 4, 6 := 5, 7 := 6, 8 := 7, 9 := 8, 11 := 9, 12 := 10, 13 := 11, 14 := 12, 15 := 13, 16 := 14, 17 := 15, 18 := 16, 19 := 17, 20 := 18, 21 := 19, 22 := 20, 23 := 21, 24 := 22]
    , map[0 := 0, 1 := 1, 2 := 2, 4 := 3, 5 := 4, 6 := 5, 7 := 6, 8 := 7, 9 := 8, 11 := 9, 12 := 10, 13 := 11, 14 := 12, 15 := 13, 16 := 14, 17 := 15, 18 := 16, 19 := 17, 20 := 18, 21 := 19, 22 := 20, 23 := 21, 24 := 22, 25 := 23]
    , map[0 := 0, 1 := 1, 2 := 2, 4 := 3, 5 := 4, 6 := 5, 7 := 6, 8 := 7, 9 := 8, 11 := 9, 12 := 10, 13 := 11, 14 := 12, 15 := 13, 16 := 14, 17 := 15, 18 := 16, 19 := 17, 20 := 18, 21 := 19, 22 := 20, 23 := 21, 24 := 22, 25 := 23, 26 := 24]
    , map[0 := 0, 1 := 1, 2 := 2, 4 := 3, 5 := 4, 6 := 5, 7 := 6, 8 := 7, 9 := 8, 11 := 9, 12 := 10, 13 := 11, 14 := 12, 15 := 13, 16 := 14, 17 := 15, 18 := 16, 19 := 17, 20 := 18, 21 := 19, 22 := 20, 23 := 21, 24 := 22, 25 := 23, 26 := 24, 27 := 25] ]
  }

  /** `defs` is `StackedBlocksWithoutEvent0Defs()`, position by position. */
  predicate StackedBlocksWithoutEvent0Tables(defs: seq<map<VarId, nat>>)
  {
    && |defs| == 27
    && StackedBlocksWithoutEvent0Tables0(defs)
    && StackedBlocksWithoutEvent0Tables5(defs)
    && StackedBlocksWithoutEvent0Tables10(defs)
    && StackedBlocksWithoutEvent0Tables15(defs)
    && StackedBlocksWithoutEvent0Tables20(defs)
    && StackedBlocksWithoutEvent0Tables25(defs)
  }

  predicate StackedBlocksWithoutEvent0Tables0(defs: seq<map<VarId, nat>>)
    requires |defs| == 27
  {
    && defs[0] == map[]
    && defs[1] == map[0 := 0]
    && defs[2] == map[0 := 0, 1 := 1]
    && defs[3] == map[0 := 0, 1 := 1, 2 := 2]
    && defs[4] == map[0 := 0, 1 := 1, 2 := 2, 4 := 3]
  }

  predicate StackedBlocksWithoutEvent0Tables5(defs: seq<map<VarId, nat>>)
    requires |defs| == 27
  {
    && defs[5] == map[0 := 0, 1 := 1, 2 := 2, 4 := 3, 5 := 4]
    && defs[6] == map[0 := 0, 1 := 1, 2 := 2, 4 := 3, 5 := 4, 6 := 5]
    && defs[7] == map[0 := 0, 1 := 1, 2 := 2, 4 := 3, 5 := 4, 6 := 5, 7 := 6]
    && defs[8] == map[0 := 0, 1 := 1, 2 := 2, 4 := 3, 5 := 4, 6 := 5, 7 := 6, 8 := 7]
    && defs[9] == map[0 := 0, 1 := 1, 2 := 2, 4 := 3, 5 := 4, 6 := 5, 7 := 6, 8 := 7, 9 := 8]
  }

  predicate StackedBlocksWithoutEvent0Tables10(defs: seq<map<VarId, nat>>)
    requires |defs| == 27
  {
    && defs[10] == map[0 := 0, 1 := 1, 2 := 2, 4 := 3, 5 := 4, 6 := 5, 7 := 6, 8 := 7, 9 := 8, 11 := 9]
    && defs[11] == map[0 := 0, 1 := 1, 2 := 2, 4 := 3, 5 := 4, 6 := 5, 7 := 6, 8 := 7, 9 := 8, 11 := 9, 12 := 10]
    && defs[12] == map[0 := 0, 1 := 1, 2 := 2, 4 := 3, 5 := 4, 6 := 5, 7 := 6, 8 := 7, 9 := 8, 11 := 9, 12 := 10, 13 := 11]
    && defs[13] == map[0 := 0, 1 := 1, 2 := 2, 4 := 3, 5 := 4, 6 := 5, 7 := 6, 8 := 7, 9 := 8, 11 := 9, 12 := 10, 13 := 11, 14 := 12]
    && defs[14] == map[0 := 0, 1 := 1, 2 := 2, 4 := 3, 5 := 4, 6 := 5, 7 := 6, 8 := 7, 9 := 8, 11 := 9, 12 := 10, 13 := 11, 14 := 12, 15 := 13]
  }

  predicate StackedBlocksWithoutEvent0Tables15(defs: seq<map<VarId, nat>>)
    requires |defs| == 27
  {
    && defs[15] == map[0 := 0, 1 := 1, 2 := 2, 4 := 3, 5 := 4, 6 := 5, 7 := 6, 8 := 7, 9 := 8, 11 := 9, 12 := 10, 13 := 11, 14 := 12, 15 := 13, 16 := 14]
    && defs[16] == map[0 := 0, 1 := 1, 2 := 2, 4 := 3, 5 := 4, 6 := 5, 7 := 6, 8 := 7, 9 := 8, 11 := 9, 12 := 10, 13 := 11, 14 := 12, 15 := 13, 16 := 14, 17 := 15]
    && defs[17] == map[0 := 0, 1 := 1, 2 := 2, 4 := 3, 5 := 4, 6 := 5, 7 := 6, 8 := 7, 9 := 8, 11 := 9, 12 := 10, 13 := 11, 14 := 12, 15 := 13, 16 := 14, 17 := 15, 18 := 16]
    && defs[18] == map[0 := 0, 1 := 1, 2 := 2, 4 := 3, 5 := 4, 6 := 5, 7 := 6, 8 := 7, 9 := 8, 11 := 9, 12 := 10, 13 := 11, 14 := 12, 15 := 13, 16 := 14, 17 := 15, 18 := 16, 19 := 17]
    && defs[19] == map[0 := 0, 1 := 1, 2 := 2, 4 := 3, 5 := 4, 6 := 5, 7 := 6, 8 := 7, 9 := 8, 11 := 9, 12 := 10, 13 := 11, 14 := 12, 15 := 13, 16 := 14, 17 := 15, 18 := 16, 19 := 17, 20 := 18]
  }

  predicate StackedBlocksWithoutEvent0Tables20(defs: seq<map<VarId, nat>>)
    requires |defs| == 27
  {
    && defs[20] == map[0 := 0, 1 := 1, 2 := 2, 4 := 3, 5 := 4, 6 := 5, 7 := 6, 8 := 7, 9 := 8, 11 := 9, 12 := 10, 13 := 11, 14 := 12, 15 := 13, 16 := 14, 17 := 15, 18 := 16, 19 := 17, 20 := 18, 21 := 19]
    && defs[21] == map[0 := 0, 1 := 1, 2 := 2, 4 := 3, 5 := 4, 6 := 5, 7 := 6, 8 := 7, 9 := 8, 11 := 9, 12 := 10, 13 := 11, 14 := 12, 15 := 13, 16 := 14, 17 := 15, 18 := 16, 19 := 17, 20 := 18, 21 := 19, 22 := 20]
    && defs[22] == map[0 := 0, 1 := 1, 2 := 2, 4 := 3, 5 := 4, 6 := 5, 7 := 6, 8 := 7, 9 := 8, 11 := 9, 12 := 10, 13 := 11, 14 := 12, 15 := 13, 16 := 14, 17 := 15, 18 := 16, 19 := 17, 20 := 18, 21 := 19, 22 := 20, 23 := 21]
    && defs[23] == map[0 := 0, 1 := 1, 2 := 2, 4 := 3, 5 := 4, 6 := 5, 7 := 6, 8 := 7, 9 := 8, 11 := 9, 12 := 10, 13 := 11, 14 := 12, 15 := 13, 16 := 14, 17 := 15, 18 := 16, 19 := 17, 20 := 18, 21 := 19, 22 := 20, 23 := 21, 24 := 22]
    && defs[24] == map[0 := 0, 1 := 1, 2 := 2, 4 := 3, 5 := 4, 6 := 5, 7 := 6, 8 := 7, 9 := 8, 11 := 9, 12 := 10, 13 := 11, 14 := 12, 15 := 13, 16 := 14, 17 := 15, 18 := 16, 19 := 17, 20 := 18, 21 := 19, 22 := 20, 23 := 21, 24 := 22, 25 := 23]
  }

  predicate StackedBlocksWithoutEvent0Tables25(defs: seq<map<VarId, nat>>)
    requires |defs| == 27
  {
    && defs[25] == map[0 := 0, 1 := 1, 2 := 2, 4 := 3, 5 := 4, 6 := 5, 7 := 6, 8 := 7, 9 := 8, 11 := 9, 12 := 10, 13 := 11, 14 := 12, 15 := 13, 16 := 14, 17 := 15, 18 := 16, 19 := 17, 20 := 18, 21 := 19, 22 := 20, 23 := 21, 24 := 22, 25 := 23, 26 := 24]
    && defs[26] == map[0 := 0, 1 := 1, 2 := 2, 4 := 3, 5 := 4, 6 := 5, 7 := 6, 8 := 7, 9 := 8, 11 := 9, 12 := 10, 13 := 11, 14 := 12, 15 := 13, 16 := 14, 17 := 15, 18 := 16, 19 := 17, 20 := 18, 21 := 19, 22 := 20, 23 := 21, 24 := 22, 25 := 23, 26 := 24, 27 := 25]
  }

  function StackedBlocksWithoutEvent0State0(): SimState
  {
    SimState(map[], map[], [])
  }

  function StackedBlocksWithoutEvent0State1(): SimState
  {
    SimState(map[], map[], [])
  }

  function StackedBlocksWithoutEvent0State2(): SimState
  {
    SimState(map[], map[], [])
  }

  function StackedBlocksWithoutEvent0State3(): SimState
  {
    SimState(map[], map[], [])
  }

  function StackedBlocksWithoutEvent0State4(): SimState
  {
    SimState(map[], map[], [])
  }

  function StackedBlocksWithoutEvent0State5(): SimState
  {
    SimState(map[], map[], [])
  }

  function StackedBlocksWithoutEvent0State6(): SimState
  {
    SimState(map[][1 := Mark(OnDevice(0, 1), 5, map[])], map[], [])
  }

  function StackedBlocksWithoutEvent0State7(): SimState
  {
    SimState(map[][1 := Mark(OnDevice(0, 1), 5, map[])], map[], [])
  }

  function StackedBlocksWithoutEvent0State8(): SimState
  {
    SimState(map[][1 := Mark(OnDevice(0, 1), 5, map[])], map[], [])
  }

  function StackedBlocksWithoutEvent0State9(): SimState
  {
    SimState(map[][1 := Mark(OnDevice(0, 1), 5, map[])], map[][OnDevice(0, 2) := map[OnDevice(0, 1) := 5]], [])
  }

  function StackedBlocksWithoutEvent0State10(): SimState
  {
    SimState(map[][1 := Mark(OnDevice(0, 1), 5, map[])], map[][OnDevice(0, 2) := map[OnDevice(0, 1) := 5]], [Hazard(2, 9, OnDevice(0, 0), OnDevice(0, 2))])
  }

  function StackedBlocksWithoutEvent0State11(): SimState
  {
    SimState(map[][1 := Mark(OnDevice(0, 1), 5, map[])], map[][OnDevice(0, 2) := map[OnDevice(0, 1) := 5]], [Hazard(2, 9, OnDevice(0, 0), OnDevice(0, 2))])
  }

  function StackedBlocksWithoutEvent0State12(): SimState
  {
    SimState(map[][1 := Mark(OnDevice(0, 1), 5, map[])][2 := Mark(OnDevice(0, 2), 11, map[OnDevice(0, 1) := 5])], map[][OnDevice(0, 2) := map[OnDevice(0, 1) := 5]], [Hazard(2, 9, OnDevice(0, 0), OnDevice(0, 2))])
  }

  function StackedBlocksWithoutEvent0State13(): SimState
  {
    SimState(map[][1 := Mark(OnDevice(0, 1), 5, map[])][2 := Mark(OnDevice(0, 2), 11, map[OnDevice(0, 1) := 5])], map[][OnDevice(0, 2) := map[OnDevice(0, 1) := 5]], [Hazard(2, 9, OnDevice(0, 0), OnDevice(0, 2))])
  }

  function StackedBlocksWithoutEvent0State14(): SimState
  {
    SimState(map[][1 := Mark(OnDevice(0, 1), 5, map[])][2 := Mark(OnDevice(0, 2), 11, map[OnDevice(0, 1) := 5])], map[][OnDevice(0, 2) := map[OnDevice(0, 1) := 5]], [Hazard(2, 9, OnDevice(0, 0), OnDevice(0, 2))])
  }

  function StackedBlocksWithoutEvent0State15(): SimState
  {
    SimState(map[][1 := Mark(OnDevice(0, 1), 5, map[])][2 := Mark(OnDevice(0, 2), 11, map[OnDevice(0, 1) := 5])][3 := Mark(OnDevice(0, 2), 14, map[OnDevice(0, 1) := 5])], map[][OnDevice(0, 2) := map[OnDevice(0, 1) := 5]], [Hazard(2, 9, OnDevice(0, 0), OnDevice(0, 2))])
  }

  function StackedBlocksWithoutEvent0State16(): SimState
  {
    SimState(map[][1 := Mark(OnDevice(0, 1), 5, map[])][2 := Mark(OnDevice(0, 2), 11, map[OnDevice(0, 1) := 5])][3 := Mark(OnDevice(0, 2), 14, map[OnDevice(0, 1) := 5])], map[][OnDevice(0, 2) := map[OnDevice(0, 1) := 5]], [Hazard(2, 9, OnDevice(0, 0), OnDevice(0, 2))])
  }

  function StackedBlocksWithoutEvent0State17(): SimState
  {
    SimState(map[][1 := Mark(OnDevice(0, 1), 5, map[])][2 := Mark(OnDevice(0, 2), 11, map[OnDevice(0, 1) := 5])][3 := Mark(OnDevice(0, 2), 14, map[OnDevice(0, 1) := 5])], map[][OnDevice(0, 2) := map[OnDevice(0, 1) := 5]][OnDevice(0, 1) := map[OnDevice(0, 1) := 5, OnDevice(0, 2) := 11]], [Hazard(2, 9, OnDevice(0, 0), OnDevice(0, 2))])
  }

  function StackedBlocksWithoutEvent0State18(): SimState
  {
    SimState(map[][1 := Mark(OnDevice(0, 1), 5, map[])][2 := Mark(OnDevice(0, 2), 11, map[OnDevice(0, 1) := 5])][3 := Mark(OnDevice(0, 2), 14, map[OnDevice(0, 1) := 5])], map[][OnDevice(0, 2) := map[OnDevice(0, 1) := 5]][OnDevice(0, 1) := map[OnDevice(0, 1) := 5, OnDevice(0, 2) := 11]], [Hazard(2, 9, OnDevice(0, 0), OnDevice(0, 2))])
  }

  function StackedBlocksWithoutEvent0State19(): SimState
  {
    SimState(map[][1 := Mark(OnDevice(0, 1), 5, map[])][2 := Mark(OnDevice(0, 2), 11, map[OnDevice(0, 1) := 5])][3 := Mark(OnDevice(0, 2), 14, map[OnDevice(0, 1) := 5])][4 := Mark(OnDevice(0, 1), 18, map[OnDevice(0, 1) := 5, OnDevice(0, 2) := 11])], map[][OnDevice(0, 2) := map[OnDevice(0, 1) := 5]][OnDevice(0, 1) := map[OnDevice(0, 1) := 5, OnDevice(0, 2) := 11]], [Hazard(2, 9, OnDevice(0, 0), OnDevice(0, 2))])
  }

  function StackedBlocksWithoutEvent0State20(): SimState
  {
    SimState(map[][1 := Mark(OnDevice(0, 1), 5, map[])][2 := Mark(OnDevice(0, 2), 11, map[OnDevice(0, 1) := 5])][3 := Mark(OnDevice(0, 2), 14, map[OnDevice(0, 1) := 5])][4 := Mark(OnDevice(0, 1), 18, map[OnDevice(0, 1) := 5, OnDevice(0, 2) := 11])], map[][OnDevice(0, 2) := map[OnDevice(0, 1) := 5]][OnDevice(0, 1) := map[OnDevice(0, 1) := 5, OnDevice(0, 2) := 11]], [Hazard(2, 9, OnDevice(0, 0), OnDevice(0, 2))])
  }

  function StackedBlocksWithoutEvent0State21(): SimState
  {
    SimState(map[][1 := Mark(OnDevice(0, 1), 5, map[])][2 := Mark(OnDevice(0, 2), 11, map[OnDevice(0, 1) := 5])][3 := Mark(OnDevice(0, 2), 14, map[OnDevice(0, 1) := 5])][4 := Mark(OnDevice(0, 1), 18, map[OnDevice(0, 1) := 5, OnDevice(0, 2) := 11])], map[][OnDevice(0, 2) := map[OnDevice(0, 1) := 5]][OnDevice(0, 1) := map[OnDevice(0, 1) := 5, OnDevice(0, 2) := 11]][OnDevice(0, 0) := map[OnDevice(0, 1) := 5, OnDevice(0, 2) := 11]], [Hazard(2, 9, OnDevice(0, 0), OnDevice(0, 2))])
  }

  function StackedBlocksWithoutEvent0State22(): SimState
  {
    SimState(map[][1 := Mark(OnDevice(0, 1), 5, map[])][2 := Mark(OnDevice(0, 2), 11, map[OnDevice(0, 1) := 5])][3 := Mark(OnDevice(0, 2), 14, map[OnDevice(0, 1) := 5])][4 := Mark(OnDevice(0, 1), 18, map[OnDevice(0, 1) := 5, OnDevice(0, 2) := 11])], map[][OnDevice(0, 2) := map[OnDevice(0, 1) := 5]][OnDevice(0, 1) := map[OnDevice(0, 1) := 5, OnDevice(0, 2) := 11]][OnDevice(0, 0) := map[OnDevice(0, 1) := 5, OnDevice(0, 2) := 11]], [Hazard(2, 9, OnDevice(0, 0), OnDevice(0, 2))])
  }

  function StackedBlocksWithoutEvent0State23(): SimState
  {
    SimState(map[][1 := Mark(OnDevice(0, 1), 5, map[])][2 := Mark(OnDevice(0, 2), 11, map[OnDevice(0, 1) := 5])][3 := Mark(OnDevice(0, 2), 14, map[OnDevice(0, 1) := 5])][4 := Mark(OnDevice(0, 1), 18, map[OnDevice(0, 1) := 5, OnDevice(0, 2) := 11])], map[][OnDevice(0, 2) := map[OnDevice(0, 1) := 5]][OnDevice(0, 1) := map[OnDevice(0, 1) := 5, OnDevice(0, 2) := 11]][OnDevice(0, 0) := map[OnDevice(0, 1) := 5, OnDevice(0, 2) := 11]][OnDevice(0, 0) := map[OnDevice(0, 1) := 18, OnDevice(0, 2) := 11]], [Hazard(2, 9, OnDevice(0, 0), OnDevice(0, 2))])
  }

  function StackedBlocksWithoutEvent0State24(): SimState
  {
    SimState(map[][1 := Mark(OnDevice(0, 1), 5, map[])][2 := Mark(OnDevice(0, 2), 11, map[OnDevice(0, 1) := 5])][3 := Mark(OnDevice(0, 2), 14, map[OnDevice(0, 1) := 5])][4 := Mark(OnDevice(0, 1), 18, map[OnDevice(0, 1) := 5, OnDevice(0, 2) := 11])], map[][OnDevice(0, 2) := map[OnDevice(0, 1) := 5]][OnDevice(0, 1) := map[OnDevice(0, 1) := 5, OnDevice(0, 2) := 11]][OnDevice(0, 0) := map[OnDevice(0, 1) := 5, OnDevice(0, 2) := 11]][OnDevice(0, 0) := map[OnDevice(0, 1) := 18, OnDevice(0, 2) := 11]][OnDevice(0, 0) := map[OnDevice(0, 1) := 18, OnDevice(0, 2) := 14]], [Hazard(2, 9, OnDevice(0, 0), OnDevice(0, 2))])
  }

  function StackedBlocksWithoutEvent0State25(): SimState
  {
    SimState(map[][1 := Mark(OnDevice(0, 1), 5, map[])][2 := Mark(OnDevice(0, 2), 11, map[OnDevice(0, 1) := 5])][3 := Mark(OnDevice(0, 2), 14, map[OnDevice(0, 1) := 5])][4 := Mark(OnDevice(0, 1), 18, map[OnDevice(0, 1) := 5, OnDevice(0, 2) := 11])], map[][OnDevice(0, 2) := map[OnDevice(0, 1) := 5]][OnDevice(0, 1) := map[OnDevice(0, 1) := 5, OnDevice(0, 2) := 11]][OnDevice(0, 0) := map[OnDevice(0, 1) := 5, OnDevice(0, 2) := 11]][OnDevice(0, 0) := map[OnDevice(0, 1) := 18, OnDevice(0, 2) := 11]][OnDevice(0, 0) := map[OnDevice(0, 1) := 18, OnDevice(0, 2) := 14]], [Hazard(2, 9, OnDevice(0, 0), OnDevice(0, 2))])
  }

  function StackedBlocksWithoutEvent0State26(): SimState
  {
    SimState(map[][1 := Mark(OnDevice(0, 1), 5, map[])][2 := Mark(OnDevice(0, 2), 11, map[OnDevice(0, 1) := 5])][3 := Mark(OnDevice(0, 2), 14, map[OnDevice(0, 1) := 5])][4 := Mark(OnDevice(0, 1), 18, map[OnDevice(0, 1) := 5, OnDevice(0, 2) := 11])], map[][OnDevice(0, 2) := map[OnDevice(0, 1) := 5]][OnDevice(0, 1) := map[OnDevice(0, 1) := 5, OnDevice(0, 2) := 11]][OnDevice(0, 0) := map[OnDevice(0, 1) := 5, OnDevice(0, 2) := 11]][OnDevice(0, 0) := map[OnDevice(0, 1) := 18, OnDevice(0, 2) := 11]][OnDevice(0, 0) := map[OnDevice(0, 1) := 18, OnDevice(0, 2) := 14]], [Hazard(2, 9, OnDevice(0, 0), OnDevice(0, 2))])
  }

  lemma StackedBlocksWithoutEvent0Advance0(removed: set<EventId>, g: seq<Node>, defs: seq<map<VarId, nat>>)
    requires 0 in removed && 1 !in removed && 2 !in removed && 3 !in removed && 4 !in removed
    requires |g| == 26
    requires g[0] == Node(SetStream(0, 0), OnDevice(0, 0), [])
    requires |defs| == 27
    requires defs[0] == map[]
    requires defs[1] == map[0 := 0]
    ensures |StackedBlocks(removed)| == 26 && Advances(StackedBlocks(removed), g, defs, 0)
  {
    var p := StackedBlocks(removed);
    assert p[0] == Let(0, SetStream(0, 0));
  }

  lemma StackedBlocksWithoutEvent0Advance1(removed: set<EventId>, g: seq<Node>, defs: seq<map<VarId, nat>>)
    requires 0 in removed && 1 !in removed && 2 !in removed && 3 !in removed && 4 !in removed
    requires |g| == 26
    requires g[0] == Node(SetStream(0, 0), OnDevice(0, 0), [])
    requires g[1] == Node(Atan(X), OnDevice(0, 0), [])
    requires |defs| == 27
    requires defs[1] == map[0 := 0]
    requires defs[2] == map[0 := 0, 1 := 1]
    ensures |StackedBlocks(removed)| == 26 && Advances(StackedBlocks(removed), g, defs, 1)
  {
    var p := StackedBlocks(removed);
    assert p[1] == Let(1, Atan(X));
  }

  lemma StackedBlocksWithoutEvent0Advance2(removed: set<EventId>, g: seq<Node>, defs: seq<map<VarId, nat>>)
    requires 0 in removed && 1 !in removed && 2 !in removed && 3 !in removed && 4 !in removed
    requires |g| == 26
    requires g[1] == Node(Atan(X), OnDevice(0, 0), [])
    requires g[2] == Node(Atan(LetVar(1)), OnDevice(0, 0), [1])
    requires |defs| == 27
    requires defs[2] == map[0 := 0, 1 := 1]
    requires defs[3] == map[0 := 0, 1 := 1, 2 := 2]
    ensures |StackedBlocks(removed)| == 26 && Advances(StackedBlocks(removed), g, defs, 2)
  {
    var p := StackedBlocks(removed);
    assert p[2] == Let(2, Atan(LetVar(1)));
  }

  lemma StackedBlocksWithoutEvent0Advance3(removed: set<EventId>, g: seq<Node>, defs: seq<map<VarId, nat>>)
    requires 0 in removed && 1 !in removed && 2 !in removed && 3 !in removed && 4 !in removed
    requires |g| == 26
    requires g[2] == Node(Atan(LetVar(1)), OnDevice(0, 0), [1])
    requires g[3] == Node(SetStream(0, 1), OnDevice(0, 1), [])
    requires |defs| == 27
    requires defs[3] == map[0 := 0, 1 := 1, 2 := 2]
    requires defs[4] == map[0 := 0, 1 := 1, 2 := 2, 4 := 3]
    ensures |StackedBlocks(removed)| == 26 && Advances(StackedBlocks(removed), g, defs, 3)
  {
    var p := StackedBlocks(removed);
    assert p[3] == Let(4, SetStream(0, 1));
  }

  lemma StackedBlocksWithoutEvent0Advance4(removed: set<EventId>, g: seq<Node>, defs: seq<map<VarId, nat>>)
    requires 0 in removed && 1 !in removed && 2 !in removed && 3 !in removed && 4 !in removed
    requires |g| == 26
    requires g[3] == Node(SetStream(0, 1), OnDevice(0, 1), [])
    requires g[4] == Node(Atan(X), OnDevice(0, 1), [])
    requires |defs| == 27
    requires defs[4] == map[0 := 0, 1 := 1, 2 := 2, 4 := 3]
    requires defs[5] == map[0 := 0, 1 := 1, 2 := 2, 4 := 3, 5 := 4]
    ensures |StackedBlocks(removed)| == 26 && Advances(StackedBlocks(removed), g, defs, 4)
  {
    var p := StackedBlocks(removed);
    assert p[4] == Let(5, Atan(X));
  }

  lemma StackedBlocksWithoutEvent0Advance5(removed: set<EventId>, g: seq<Node>, defs: seq<map<VarId, nat>>)
    requires 0 in removed && 1 !in removed && 2 !in removed && 3 !in removed && 4 !in removed
    requires |g| == 26
    requires g[4] == Node(Atan(X), OnDevice(0, 1), [])
    requires g[5] == Node(AddEvent(1), OnDevice(0, 1), [])
    requires |defs| == 27
    requires defs[5] == map[0 := 0, 1 := 1, 2 := 2, 4 := 3, 5 := 4]
    requires defs[6] == map[0 := 0, 1 := 1, 2 := 2, 4 := 3, 5 := 4, 6 := 5]
    ensures |StackedBlocks(removed)| == 26 && Advances(StackedBlocks(removed), g, defs, 5)
  {
    var p := StackedBlocks(removed);
    assert p[5] == Let(6, AddEvent(1));
  }

  lemma StackedBlocksWithoutEvent0Advance6(removed: set<EventId>, g: seq<Node>, defs: seq<map<VarId, nat>>)
    requires 0 in removed && 1 !in removed && 2 !in removed && 3 !in removed && 4 !in removed
    requires |g| == 26
    requires g[5] == Node(AddEvent(1), OnDevice(0, 1), [])
    requires g[6] == Node(SetStream(0, 2), OnDevice(0, 2), [])
    requires |defs| == 27
    requires defs[6] == map[0 := 0, 1 := 1, 2 := 2, 4 := 3, 5 := 4, 6 := 5]
    requires defs[7] == map[0 := 0, 1 := 1, 2 := 2, 4 := 3, 5 := 4, 6 := 5, 7 := 6]
    ensures |StackedBlocks(removed)| == 26 && Advances(StackedBlocks(removed), g, defs, 6)
  {
    var p := StackedBlocks(removed);
    assert p[6] == Let(7, SetStream(0, 2));
  }

  lemma StackedBlocksWithoutEvent0Advance7(removed: set<EventId>, g: seq<Node>, defs: seq<map<VarId, nat>>)
    requires 0 in removed && 1 !in removed && 2 !in removed && 3 !in removed && 4 !in removed
    requires |g| == 26
    requires g[6] == Node(SetStream(0, 2), OnDevice(0, 2), [])
    requires g[7] == Node(Atan(X), OnDevice(0, 2), [])
    requires |defs| == 27
    requires defs[7] == map[0 := 0, 1 := 1, 2 := 2, 4 := 3, 5 := 4, 6 := 5, 7 := 6]
    requires defs[8] == map[0 := 0, 1 := 1, 2 := 2, 4 := 3, 5 := 4, 6 := 5, 7 := 6, 8 := 7]
    ensures |StackedBlocks(removed)| == 26 && Advances(StackedBlocks(removed), g, defs, 7)
  {
    var p := StackedBlocks(removed);
    assert p[7] == Let(8, Atan(X));
  }

  lemma StackedBlocksWithoutEvent0Advance8(removed: set<EventId>, g: seq<Node>, defs: seq<map<VarId, nat>>)
    requires 0 in removed && 1 !in removed && 2 !in removed && 3 !in removed && 4 !in removed
    requires |g| == 26
    requires g[7] == Node(Atan(X), OnDevice(0, 2), [])
    requires g[8] == Node(WaitEvent(1), OnDevice(0, 2), [])
    requires |defs| == 27
    requires defs[8] == map[0 := 0, 1 := 1, 2 := 2, 4 := 3, 5 := 4, 6 := 5, 7 := 6, 8 := 7]
    requires defs[9] == map[0 := 0, 1 := 1, 2 := 2, 4 := 3, 5 := 4, 6 := 5, 7 := 6, 8 := 7, 9 := 8]
    ensures |StackedBlocks(removed)| == 26 && Advances(StackedBlocks(removed), g, defs, 8)
  {
    var p := StackedBlocks(removed);
    assert p[8] == Let(9, WaitEvent(1));
  }

  lemma StackedBlocksWithoutEvent0Advance9(removed: set<EventId>, g: seq<Node>, defs: seq<map<VarId, nat>>)
    requires 0 in removed && 1 !in removed && 2 !in removed && 3 !in removed && 4 !in removed
    requires |g| == 26
    requires g[8] == Node(WaitEvent(1), OnDevice(0, 2), [])
    requires g[9] == Node(MakeTuple([LetVar(8), LetVar(5), LetVar(2)]), OnDevice(0, 2), [7, 4, 2])
    requires |defs| == 27
    requires defs[9] == map[0 := 0, 1 := 1, 2 := 2, 4 := 3, 5 := 4, 6 := 5, 7 := 6, 8 := 7, 9 := 8]
    requires defs[10] == map[0 := 0, 1 := 1, 2 := 2, 4 := 3, 5 := 4, 6 := 5, 7 := 6, 8 := 7, 9 := 8, 11 := 9]
    ensures |StackedBlocks(removed)| == 26 && Advances(StackedBlocks(removed), g, defs, 9)
  {
    var p := StackedBlocks(removed);
    assert p[9] == Let(11, MakeTuple([LetVar(8), LetVar(5), LetVar(2)]));
  }

  lemma StackedBlocksWithoutEvent0Advance10(removed: set<EventId>, g: seq<Node>, defs: seq<map<VarId, nat>>)
    requires 0 in removed && 1 !in removed && 2 !in removed && 3 !in removed && 4 !in removed
    requires |g| == 26
    requires g[9] == Node(MakeTuple([LetVar(8), LetVar(5), LetVar(2)]), OnDevice(0, 2), [7, 4, 2])
    requires g[10] == Node(Concatenate(LetVar(11), 0), OnDevice(0, 2), [9])
    requires |defs| == 27
    requires defs[10] == map[0 := 0, 1 := 1, 2 := 2, 4 := 3, 5 := 4, 6 := 5, 7 := 6, 8 := 7, 9 := 8, 11 := 9]
    requires defs[11] == map[0 := 0, 1 := 1, 2 := 2, 4 := 3, 5 := 4, 6 := 5, 7 := 6, 8 := 7, 9 := 8, 11 := 9, 12 := 10]
    ensures |StackedBlocks(removed)| == 26 && Advances(StackedBlocks(removed), g, defs, 10)
  {
    var p := StackedBlocks(removed);
    assert p[10] == Let(12, Concatenate(LetVar(11), 0));
  }

  lemma StackedBlocksWithoutEvent0Advance11(removed: set<EventId>, g: seq<Node>, defs: seq<map<VarId, nat>>)
    requires 0 in removed && 1 !in removed && 2 !in removed && 3 !in removed && 4 !in removed
    requires |g| == 26
    requires g[10] == Node(Concatenate(LetVar(11), 0), OnDevice(0, 2), [9])
    requires g[11] == Node(AddEvent(2), OnDevice(0, 2), [])
    requires |defs| == 27
    requires defs[11] == map[0 := 0, 1 := 1, 2 := 2, 4 := 3, 5 := 4, 6 := 5, 7 := 6, 8 := 7, 9 := 8, 11 := 9, 12 := 10]
    requires defs[12] == map[0 := 0, 1 := 1, 2 := 2, 4 := 3, 5 := 4, 6 := 5, 7 := 6, 8 := 7, 9 := 8, 11 := 9, 12 := 10, 13 := 11]
    ensures |StackedBlocks(removed)| == 26 && Advances(StackedBlocks(removed), g, defs, 11)
  {
    var p := StackedBlocks(removed);
    assert p[11] == Let(13, AddEvent(2));
  }

  lemma StackedBlocksWithoutEvent0Advance12(removed: set<EventId>, g: seq<Node>, defs: seq<map<VarId, nat>>)
    requires 0 in removed && 1 !in removed && 2 !in removed && 3 !in removed && 4 !in removed
    requires |g| == 26
    requires g[11] == Node(AddEvent(2), OnDevice(0, 2), [])
    requires g[12] == Node(Atan(LetVar(12)), OnDevice(0, 2), [10])
    requires |defs| == 27
    requires defs[12] == map[0 := 0, 1 := 1, 2 := 2, 4 := 3, 5 := 4, 6 := 5, 7 := 6, 8 := 7, 9 := 8, 11 := 9, 12 := 10, 13 := 11]
    requires defs[13] == map[0 := 0, 1 := 1, 2 := 2, 4 := 3, 5 := 4, 6 := 5, 7 := 6, 8 := 7, 9 := 8, 11 := 9, 12 := 10, 13 := 11, 14 := 12]
    ensures |StackedBlocks(removed)| == 26 && Advances(StackedBlocks(removed), g, defs, 12)
  {
    var p := StackedBlocks(removed);
    assert p[12] == Let(14, Atan(LetVar(12)));
  }

  lemma StackedBlocksWithoutEvent0Advance13(removed: set<EventId>, g: seq<Node>, defs: seq<map<VarId, nat>>)
    requires 0 in removed && 1 !in removed && 2 !in removed && 3 !in removed && 4 !in removed
    requires |g| == 26
    requires g[12] == Node(Atan(LetVar(12)), OnDevice(0, 2), [10])
    requires g[13] == Node(Atan(LetVar(14)), OnDevice(0, 2), [12])
    requires |defs| == 27
    requires defs[13] == map[0 := 0, 1 := 1, 2 := 2, 4 := 3, 5 := 4, 6 := 5, 7 := 6, 8 := 7, 9 := 8, 11 := 9, 12 := 10, 13 := 11, 14 := 12]
    requires defs[14] == map[0 := 0, 1 := 1, 2 := 2, 4 := 3, 5 := 4, 6 := 5, 7 := 6, 8 := 7, 9 := 8, 11 := 9, 12 := 10, 13 := 11, 14 := 12, 15 := 13]
    ensures |StackedBlocks(removed)| == 26 && Advances(StackedBlocks(removed), g, defs, 13)
  {
    var p := StackedBlocks(removed);
    assert p[13] == Let(15, Atan(LetVar(14)));
  }

  lemma StackedBlocksWithoutEvent0Advance14(removed: set<EventId>, g: seq<Node>, defs: seq<map<VarId, nat>>)
    requires 0 in removed && 1 !in removed && 2 !in removed && 3 !in removed && 4 !in removed
    requires |g| == 26
    requires g[13] == Node(Atan(LetVar(14)), OnDevice(0, 2), [12])
    requires g[14] == Node(AddEvent(3), OnDevice(0, 2), [])
    requires |defs| == 27
    requires defs[14] == map[0 := 0, 1 := 1, 2 := 2, 4 := 3, 5 := 4, 6 := 5, 7 := 6, 8 := 7, 9 := 8, 11 := 9, 12 := 10, 13 := 11, 14 := 12, 15 := 13]
    requires defs[15] == map[0 := 0, 1 := 1, 2 := 2, 4 := 3, 5 := 4, 6 := 5, 7 := 6, 8 := 7, 9 := 8, 11 := 9, 12 := 10, 13 := 11, 14 := 12, 15 := 13, 16 := 14]
    ensures |StackedBlocks(removed)| == 26 && Advances(StackedBlocks(removed), g, defs, 14)
  {
    var p := StackedBlocks(removed);
    assert p[14] == Let(16, AddEvent(3));
  }

  lemma StackedBlocksWithoutEvent0Advance15(removed: set<EventId>, g: seq<Node>, defs: seq<map<VarId, nat>>)
    requires 0 in removed && 1 !in removed && 2 !in removed && 3 !in removed && 4 !in removed
    requires |g| == 26
    requires g[14] == Node(AddEvent(3), OnDevice(0, 2), [])
    requires g[15] == Node(SetStream(0, 1), OnDevice(0, 1), [])
    requires |defs| == 27
    requires defs[15] == map[0 := 0, 1 := 1, 2 := 2, 4 := 3, 5 := 4, 6 := 5, 7 := 6, 8 := 7, 9 := 8, 11 := 9, 12 := 10, 13 := 11, 14 := 12, 15 := 13, 16 := 14]
    requires defs[16] == map[0 := 0, 1 := 1, 2 := 2, 4 := 3, 5 := 4, 6 := 5, 7 := 6, 8 := 7, 9 := 8, 11 := 9, 12 := 10, 13 := 11, 14 := 12, 15 := 13, 16 := 14, 17 := 15]
    ensures |StackedBlocks(removed)| == 26 && Advances(StackedBlocks(removed), g, defs, 15)
  {
    var p := StackedBlocks(removed);
    assert p[15] == Let(17, SetStream(0, 1));
  }

  lemma StackedBlocksWithoutEvent0Advance16(removed: set<EventId>, g: seq<Node>, defs: seq<map<VarId, nat>>)
    requires 0 in removed && 1 !in removed && 2 !in removed && 3 !in removed && 4 !in removed
    requires |g| == 26
    requires g[15] == Node(SetStream(0, 1), OnDevice(0, 1), [])
    requires g[16] == Node(WaitEvent(2), OnDevice(0, 1), [])
    requires |defs| == 27
    requires defs[16] == map[0 := 0, 1 := 1, 2 := 2, 4 := 3, 5 := 4, 6 := 5, 7 := 6, 8 := 7, 9 := 8, 11 := 9, 12 := 10, 13 := 11, 14 := 12, 15 := 13, 16 := 14, 17 := 15]
    requires defs[17] == map[0 := 0, 1 := 1, 2 := 2, 4 := 3, 5 := 4, 6 := 5, 7 := 6, 8 := 7, 9 := 8, 11 := 9, 12 := 10, 13 := 11, 14 := 12, 15 := 13, 16 := 14, 17 := 15, 18 := 16]
    ensures |StackedBlocks(removed)| == 26 && Advances(StackedBlocks(removed), g, defs, 16)
  {
    var p := StackedBlocks(removed);
    assert p[16] == Let(18, WaitEvent(2));
  }

  lemma StackedBlocksWithoutEvent0Advance17(removed: set<EventId>, g: seq<Node>, defs: seq<map<VarId, nat>>)
    requires 0 in removed && 1 !in removed && 2 !in removed && 3 !in removed && 4 !in removed
    requires |g| == 26
    requires g[16] == Node(WaitEvent(2), OnDevice(0, 1), [])
    requires g[17] == Node(Atan(LetVar(12)), OnDevice(0, 1), [10])
    requires |defs| == 27
    requires defs[17] == map[0 := 0, 1 := 1, 2 := 2, 4 := 3, 5 := 4, 6 := 5, 7 := 6, 8 := 7, 9 := 8, 11 := 9, 12 := 10, 13 := 11, 14 := 12, 15 := 13, 16 := 14, 17 := 15, 18 := 16]
    requires defs[18] == map[0 := 0, 1 := 1, 2 := 2, 4 := 3, 5 := 4, 6 := 5, 7 := 6, 8 := 7, 9 := 8, 11 := 9, 12 := 10, 13 := 11, 14 := 12, 15 := 13, 16 := 14, 17 := 15, 18 := 16, 19 := 17]
    ensures |StackedBlocks(removed)| == 26 && Advances(StackedBlocks(removed), g, defs, 17)
  {
    var p := StackedBlocks(removed);
    assert p[17] == Let(19, Atan(LetVar(12)));
  }

  lemma StackedBlocksWithoutEvent0Advance18(removed: set<EventId>, g: seq<Node>, defs: seq<map<VarId, nat>>)
    requires 0 in removed && 1 !in removed && 2 !in removed && 3 !in removed && 4 !in removed
    requires |g| == 26
    requires g[17] == Node(Atan(LetVar(12)), OnDevice(0, 1), [10])
    requires g[18] == Node(AddEvent(4), OnDevice(0, 1), [])
    requires |defs| == 27
    requires defs[18] == map[0 := 0, 1 := 1, 2 := 2, 4 := 3, 5 := 4, 6 := 5, 7 := 6, 8 := 7, 9 := 8, 11 := 9, 12 := 10, 13 := 11, 14 := 12, 15 := 13, 16 := 14, 17 := 15, 18 := 16, 19 := 17]
    requires defs[19] == map[0 := 0, 1 := 1, 2 := 2, 4 := 3, 5 := 4, 6 := 5, 7 := 6, 8 := 7, 9 := 8, 11 := 9, 12 := 10, 13 := 11, 14 := 12, 15 := 13, 16 := 14, 17 := 15, 18 := 16, 19 := 17, 20 := 18]
    ensures |StackedBlocks(removed)| == 26 && Advances(StackedBlocks(removed), g, defs, 18)
  {
    var p := StackedBlocks(removed);
    assert p[18] == Let(20, AddEvent(4));
  }

  lemma StackedBlocksWithoutEvent0Advance19(removed: set<EventId>, g: seq<Node>, defs: seq<map<VarId, nat>>)
    requires 0 in removed && 1 !in removed && 2 !in removed && 3 !in removed && 4 !in removed
    requires |g| == 26
    requires g[18] == Node(AddEvent(4), OnDevice(0, 1), [])
    requires g[19] == Node(SetStream(0, 0), OnDevice(0, 0), [])
    requires |defs| == 27
    requires defs[19] == map[0 := 0, 1 := 1, 2 := 2, 4 := 3, 5 := 4, 6 := 5, 7 := 6, 8 := 7, 9 := 8, 11 := 9, 12 := 10, 13 := 11, 14 := 12, 15 := 13, 16 := 14, 17 := 15, 18 := 16, 19 := 17, 20 := 18]
    requires defs[20] == map[0 := 0, 1 := 1, 2 := 2, 4 := 3, 5 := 4, 6 := 5, 7 := 6, 8 := 7, 9 := 8, 11 := 9, 12 := 10, 13 := 11, 14 := 12, 15 := 13, 16 := 14, 17 := 15, 18 := 16, 19 := 17, 20 := 18, 21 := 19]
    ensures |StackedBlocks(removed)| == 26 && Advances(StackedBlocks(removed), g, defs, 19)
  {
    var p := StackedBlocks(removed);
    assert p[19] == Let(21, SetStream(0, 0));
  }

  lemma StackedBlocksWithoutEvent0Advance20(removed: set<EventId>, g: seq<Node>, defs: seq<map<VarId, nat>>)
    requires 0 in removed && 1 !in removed && 2 !in removed && 3 !in removed && 4 !in removed
    requires |g| == 26
    requires g[19] == Node(SetStream(0, 0), OnDevice(0, 0), [])
    requires g[20] == Node(WaitEvent(2), OnDevice(0, 0), [])
    requires |defs| == 27
    requires defs[20] == map[0 := 0, 1 := 1, 2 := 2, 4 := 3, 5 := 4, 6 := 5, 7 := 6, 8 := 7, 9 := 8, 11 := 9, 12 := 10, 13 := 11, 14 := 12, 15 := 13, 16 := 14, 17 := 15, 18 := 16, 19 := 17, 20 := 18, 21 := 19]
    requires defs[21] == map[0 := 0, 1 := 1, 2 := 2, 4 := 3, 5 := 4, 6 := 5, 7 := 6, 8 := 7, 9 := 8, 11 := 9, 12 := 10, 13 := 11, 14 := 12, 15 := 13, 16 := 14, 17 := 15, 18 := 16, 19 := 17, 20 := 18, 21 := 19, 22 := 20]
    ensures |StackedBlocks(removed)| == 26 && Advances(StackedBlocks(removed), g, defs, 20)
  {
    var p := StackedBlocks(removed);
    assert p[20] == Let(22, WaitEvent(2));
  }

  lemma StackedBlocksWithoutEvent0Advance21(removed: set<EventId>, g: seq<Node>, defs: seq<map<VarId, nat>>)
    requires 0 in removed && 1 !in removed && 2 !in removed && 3 !in removed && 4 !in removed
    requires |g| == 26
    requires g[20] == Node(WaitEvent(2), OnDevice(0, 0), [])
    requires g[21] == Node(Atan(LetVar(12)), OnDevice(0, 0), [10])
    requires |defs| == 27
    requires defs[21] == map[0 := 0, 1 := 1, 2 := 2, 4 := 3, 5 := 4, 6 := 5, 7 := 6, 8 := 7, 9 := 8, 11 := 9, 12 := 10, 13 := 11, 14 := 12, 15 := 13, 16 := 14, 17 := 15, 18 := 16, 19 := 17, 20 := 18, 21 := 19, 22 := 20]
    requires defs[22] == map[0 := 0, 1 := 1, 2 := 2, 4 := 3, 5 := 4, 6 := 5, 7 := 6, 8 := 7, 9 := 8, 11 := 9, 12 := 10, 13 := 11, 14 := 12, 15 := 13, 16 := 14, 17 := 15, 18 := 16, 19 := 17, 20 := 18, 21 := 19, 22 := 20, 23 := 21]
    ensures |StackedBlocks(removed)| == 26 && Advances(StackedBlocks(removed), g, defs, 21)
  {
    var p := StackedBlocks(removed);
    assert p[21] == Let(23, Atan(LetVar(12)));
  }

  lemma StackedBlocksWithoutEvent0Advance22(removed: set<EventId>, g: seq<Node>, defs: seq<map<VarId, nat>>)
    requires 0 in removed && 1 !in removed && 2 !in removed && 3 !in removed && 4 !in removed
    requires |g| == 26
    requires g[21] == Node(Atan(LetVar(12)), OnDevice(0, 0), [10])
    requires g[22] == Node(WaitEvent(4), OnDevice(0, 0), [])
    requires |defs| == 27
    requires defs[22] == map[0 := 0, 1 := 1, 2 := 2, 4 := 3, 5 := 4, 6 := 5, 7 := 6, 8 := 7, 9 := 8, 11 := 9, 12 := 10, 13 := 11, 14 := 12, 15 := 13, 16 := 14, 17 := 15, 18 := 16, 19 := 17, 20 := 18, 21 := 19, 22 := 20, 23 := 21]
    requires defs[23] == map[0 := 0, 1 := 1, 2 := 2, 4 := 3, 5 := 4, 6 := 5, 7 := 6, 8 := 7, 9 := 8, 11 := 9, 12 := 10, 13 := 11, 14 := 12, 15 := 13, 16 := 14, 17 := 15, 18 := 16, 19 := 17, 20 := 18, 21 := 19, 22 := 20, 23 := 21, 24 := 22]
    ensures |StackedBlocks(removed)| == 26 && Advances(StackedBlocks(removed), g, defs, 22)
  {
    var p := StackedBlocks(removed);
    assert p[22] == Let(24, WaitEvent(4));
  }

  lemma StackedBlocksWithoutEvent0Advance23(removed: set<EventId>, g: seq<Node>, defs: seq<map<VarId, nat>>)
    requires 0 in removed && 1 !in removed && 2 !in removed && 3 !in removed && 4 !in removed
    requires |g| == 26
    requires g[22] == Node(WaitEvent(4), OnDevice(0, 0), [])
    requires g[23] == Node(WaitEvent(3), OnDevice(0, 0), [])
    requires |defs| == 27
    requires defs[23] == map[0 := 0, 1 := 1, 2 := 2, 4 := 3, 5 := 4, 6 := 5, 7 := 6, 8 := 7, 9 := 8, 11 := 9, 12 := 10, 13 := 11, 14 := 12, 15 := 13, 16 := 14, 17 := 15, 18 := 16, 19 := 17, 20 := 18, 21 := 19, 22 := 20, 23 := 21, 24 := 22]
    requires defs[24] == map[0 := 0, 1 := 1, 2 := 2, 4 := 3, 5 := 4, 6 := 5, 7 := 6, 8 := 7, 9 := 8, 11 := 9, 12 := 10, 13 := 11, 14 := 12, 15 := 13, 16 := 14, 17 := 15, 18 := 16, 19 := 17, 20 := 18, 21 := 19, 22 := 20, 23 := 21, 24 := 22, 25 := 23]
    ensures |StackedBlocks(removed)| == 26 && Advances(StackedBlocks(removed), g, defs, 23)
  {
    var p := StackedBlocks(removed);
    assert p[23] == Let(25, WaitEvent(3));
  }

  lemma StackedBlocksWithoutEvent0Advance24(removed: set<EventId>, g: seq<Node>, defs: seq<map<VarId, nat>>)
    requires 0 in removed && 1 !in removed && 2 !in removed && 3 !in removed && 4 !in removed
    requires |g| == 26
    requires g[23] == Node(WaitEvent(3), OnDevice(0, 0), [])
    requires g[24] == Node(MakeTuple([LetVar(23), LetVar(19), LetVar(15)]), OnDevice(0, 0), [21, 17, 13])
    requires |defs| == 27
    requires defs[24] == map[0 := 0, 1 := 1, 2 := 2, 4 := 3, 5 := 4, 6 := 5, 7 := 6, 8 := 7, 9 := 8, 11 := 9, 12 := 10, 13 := 11, 14 := 12, 15 := 13, 16 := 14, 17 := 15, 18 := 16, 19 := 17, 20 := 18, 21 := 19, 22 := 20, 23 := 21, 24 := 22, 25 := 23]
    requires defs[25] == map[0 := 0, 1 := 1, 2 := 2, 4 := 3, 5 := 4, 6 := 5, 7 := 6, 8 := 7, 9 := 8, 11 := 9, 12 := 10, 13 := 11, 14 := 12, 15 := 13, 16 := 14, 17 := 15, 18 := 16, 19 := 17, 20 := 18, 21 := 19, 22 := 20, 23 := 21, 24 := 22, 25 := 23, 26 := 24]
    ensures |StackedBlocks(removed)| == 26 && Advances(StackedBlocks(removed), g, defs, 24)
  {
    var p := StackedBlocks(removed);
    assert p[24] == Let(26, MakeTuple([LetVar(23), LetVar(19), LetVar(15)]));
  }

  lemma StackedBlocksWithoutEvent0Advance25(removed: set<EventId>, g: seq<Node>, defs: seq<map<VarId, nat>>)
    requires 0 in removed && 1 !in removed && 2 !in removed && 3 !in removed && 4 !in removed
    requires |g| == 26
    requires g[24] == Node(MakeTuple([LetVar(23), LetVar(19), LetVar(15)]), OnDevice(0, 0), [21, 17, 13])
    requires g[25] == Node(Concatenate(LetVar(26), 0), OnDevice(0, 0), [24])
    requires |defs| == 27
    requires defs[25] == map[0 := 0, 1 := 1, 2 := 2, 4 := 3, 5 := 4, 6 := 5, 7 := 6, 8 := 7, 9 := 8, 11 := 9, 12 := 10, 13 := 11, 14 := 12, 15 := 13, 16 := 14, 17 := 15, 18 := 16, 19 := 17, 20 := 18, 21 := 19, 22 := 20, 23 := 21, 24 := 22, 25 := 23, 26 := 24]
    requires defs[26] == map[0 := 0, 1 := 1, 2 := 2, 4 := 3, 5 := 4, 6 := 5, 7 := 6, 8 := 7, 9 := 8, 11 := 9, 12 := 10, 13 := 11, 14 := 12, 15 := 13, 16 := 14, 17 := 15, 18 := 16, 19 := 17, 20 := 18, 21 := 19, 22 := 20, 23 := 21, 24 := 22, 25 := 23, 26 := 24, 27 := 25]
    ensures |StackedBlocks(removed)| == 26 && Advances(StackedBlocks(removed), g, defs, 25)
  {
    var p := StackedBlocks(removed);
    assert p[25] == Let(27, Concatenate(LetVar(26), 0));
  }

  lemma StackedBlocksWithoutEvent0Extract0(removed: set<EventId>, g: seq<Node>, defs: seq<map<VarId, nat>>)
    requires 0 in removed && 1 !in removed && 2 !in removed && 3 !in removed && 4 !in removed
    requires StackedBlocksWithoutEvent0Shape(g) && StackedBlocksWithoutEvent0Tables(defs)
    ensures |StackedBlocks(removed)| == 26
    ensures forall j :: 0 <= j < 5 ==> Advances(StackedBlocks(removed), g, defs, j)
  {
    StackedBlocksWithoutEvent0Advance0(removed, g, defs);
    StackedBlocksWithoutEvent0Advance1(removed, g, defs);
    StackedBlocksWithoutEvent0Advance2(removed, g, defs);
    StackedBlocksWithoutEvent0Advance3(removed, g, defs);
    StackedBlocksWithoutEvent0Advance4(removed, g, defs);
    forall j | 0 <= j < 5 ensures Advances(StackedBlocks(removed), g, defs, j) {
      assert j == 0 || j == 1 || j == 2 || j == 3 || j == 4;
    }
  }

  lemma StackedBlocksWithoutEvent0Extract5(removed: set<EventId>, g: seq<Node>, defs: seq<map<VarId, nat>>)
    requires 0 in removed && 1 !in removed && 2 !in removed && 3 !in removed && 4 !in removed
    requires StackedBlocksWithoutEvent0Shape(g) && StackedBlocksWithoutEvent0Tables(defs)
    ensures |StackedBlocks(removed)| == 26
    ensures forall j :: 5 <= j < 10 ==> Advances(StackedBlocks(removed), g, defs, j)
  {
    StackedBlocksWithoutEvent0Advance5(removed, g, defs);
    StackedBlocksWithoutEvent0Advance6(removed, g, defs);
    StackedBlocksWithoutEvent0Advance7(removed, g, defs);
    StackedBlocksWithoutEvent0Advance8(removed, g, defs);
    StackedBlocksWithoutEvent0Advance9(removed, g, defs);
    forall j | 5 <= j < 10 ensures Advances(StackedBlocks(removed), g, defs, j) {
      assert j == 5 || j == 6 || j == 7 || j == 8 || j == 9;
    }
  }

  lemma StackedBlocksWithoutEvent0Extract10(removed: set<EventId>, g: seq<Node>, defs: seq<map<VarId, nat>>)
    requires 0 in removed && 1 !in removed && 2 !in removed && 3 !in removed && 4 !in removed
    requires StackedBlocksWithoutEvent0Shape(g) && StackedBlocksWithoutEvent0Tables(defs)
    ensures |StackedBlocks(removed)| == 26
    ensures forall j :: 10 <= j < 15 ==> Advances(StackedBlocks(removed), g, defs, j)
  {
    StackedBlocksWithoutEvent0Advance10(removed, g, defs);
    StackedBlocksWithoutEvent0Advance11(removed, g, defs);
    StackedBlocksWithoutEvent0Advance12(removed, g, defs);
    StackedBlocksWithoutEvent0Advance13(removed, g, defs);
    StackedBlocksWithoutEvent0Advance14(removed, g, defs);
    forall j | 10 <= j < 15 ensures Advances(StackedBlocks(removed), g, defs, j) {
      assert j == 10 || j == 11 || j == 12 || j == 13 || j == 14;
    }
  }

  lemma StackedBlocksWithoutEvent0Extract15(removed: set<EventId>, g: seq<Node>, defs: seq<map<VarId, nat>>)
    requires 0 in removed && 1 !in removed && 2 !in removed && 3 !in removed && 4 !in removed
    requires StackedBlocksWithoutEvent0Shape(g) && StackedBlocksWithoutEvent0Tables(defs)
    ensures |StackedBlocks(removed)| == 26
    ensures forall j :: 15 <= j < 20 ==> Advances(StackedBlocks(removed), g, defs, j)
  {
    StackedBlocksWithoutEvent0Advance15(removed, g, defs);
    StackedBlocksWithoutEvent0Advance16(removed, g, defs);
    StackedBlocksWithoutEvent0Advance17(removed, g, defs);
    StackedBlocksWithoutEvent0Advance18(removed, g, defs);
    StackedBlocksWithoutEvent0Advance19(removed, g, defs);
    forall j | 15 <= j < 20 ensures Advances(StackedBlocks(removed), g, defs, j) {
      assert j == 15 || j == 16 || j == 17 || j == 18 || j == 19;
    }
  }

  lemma StackedBlocksWithoutEvent0Extract20(removed: set<EventId>, g: seq<Node>, defs: seq<map<VarId, nat>>)
    requires 0 in removed && 1 !in removed && 2 !in removed && 3 !in removed && 4 !in removed
    requires StackedBlocksWithoutEvent0Shape(g) && StackedBlocksWithoutEvent0Tables(defs)
    ensures |StackedBlocks(removed)| == 26
    ensures forall j :: 20 <= j < 25 ==> Advances(StackedBlocks(removed), g, defs, j)
  {
    StackedBlocksWithoutEvent0Advance20(removed, g, defs);
    StackedBlocksWithoutEvent0Advance21(removed, g, defs);
    StackedBlocksWithoutEvent0Advance22(removed, g, defs);
    StackedBlocksWithoutEvent0Advance23(removed, g, defs);
    StackedBlocksWithoutEvent0Advance24(removed, g, defs);
    forall j | 20 <= j < 25 ensures Advances(StackedBlocks(removed), g, defs, j) {
      assert j == 20 || j == 21 || j == 22 || j == 23 || j == 24;
    }
  }

  lemma StackedBlocksWithoutEvent0Extract25(removed: set<EventId>, g: seq<Node>, defs: seq<map<VarId, nat>>)
    requires 0 in removed && 1 !in removed && 2 !in removed && 3 !in removed && 4 !in removed
    requires StackedBlocksWithoutEvent0Shape(g) && StackedBlocksWithoutEvent0Tables(defs)
    ensures |StackedBlocks(removed)| == 26
    ensures forall j :: 25 <= j < 26 ==> Advances(StackedBlocks(removed), g, defs, j)
  {
    StackedBlocksWithoutEvent0Advance25(removed, g, defs);
    forall j | 25 <= j < 26 ensures Advances(StackedBlocks(removed), g, defs, j) {
      assert j == 25;
    }
  }

  lemma StackedBlocksWithoutEvent0NodesShape0()
    ensures |StackedBlocksWithoutEvent0Nodes()| == 26 && StackedBlocksWithoutEvent0Shape0(StackedBlocksWithoutEvent0Nodes())
  {
  }

  lemma StackedBlocksWithoutEvent0NodesShape5()
    ensures |StackedBlocksWithoutEvent0Nodes()| == 26 && StackedBlocksWithoutEvent0Shape5(StackedBlocksWithoutEvent0Nodes())
  {
  }

  lemma StackedBlocksWithoutEvent0NodesShape10()
    ensures |StackedBlocksWithoutEvent0Nodes()| == 26 && StackedBlocksWithoutEvent0Shape10(StackedBlocksWithoutEvent0Nodes())
  {
  }

  lemma StackedBlocksWithoutEvent0NodesShape15()
    ensures |StackedBlocksWithoutEvent0Nodes()| == 26 && StackedBlocksWithoutEvent0Shape15(StackedBlocksWithoutEvent0Nodes())
  {
  }

  lemma StackedBlocksWithoutEvent0NodesShape20()
    ensures |StackedBlocksWithoutEvent0Nodes()| == 26 && StackedBlocksWithoutEvent0Shape20(StackedBlocksWithoutEvent0Nodes())
  {
  }

  lemma StackedBlocksWithoutEvent0NodesShape25()
    ensures |StackedBlocksWithoutEvent0Nodes()| == 26 && StackedBlocksWithoutEvent0Shape25(StackedBlocksWithoutEvent0Nodes())
  {
  }

  lemma StackedBlocksWithoutEvent0DefsTables0()
    ensures |StackedBlocksWithoutEvent0Defs()| == 27 && StackedBlocksWithoutEvent0Tables0(StackedBlocksWithoutEvent0Defs())
  {
  }

  lemma StackedBlocksWithoutEvent0DefsTables5()
    ensures |StackedBlocksWithoutEvent0Defs()| == 27 && StackedBlocksWithoutEvent0Tables5(StackedBlocksWithoutEvent0Defs())
  {
  }

  lemma StackedBlocksWithoutEvent0DefsTables10()
    ensures |StackedBlocksWithoutEvent0Defs()| == 27 && StackedBlocksWithoutEvent0Tables10(StackedBlocksWithoutEvent0Defs())
  {
  }

  lemma StackedBlocksWithoutEvent0DefsTables15()
    ensures |StackedBlocksWithoutEvent0Defs()| == 27 && StackedBlocksWithoutEvent0Tables15(StackedBlocksWithoutEvent0Defs())
  {
  }

  lemma StackedBlocksWithoutEvent0DefsTables20()
    ensures |StackedBlocksWithoutEvent0Defs()| == 27 && StackedBlocksWithoutEvent0Tables20(StackedBlocksWithoutEvent0Defs())
  {
  }

  lemma StackedBlocksWithoutEvent0DefsTables25()
    ensures |StackedBlocksWithoutEvent0Defs()| == 27 && StackedBlocksWithoutEvent0Tables25(StackedBlocksWithoutEvent0Defs())
  {
  }

  /** `Extract` on `StackedBlocks(removed)` yields `StackedBlocksWithoutEvent0Nodes()`. */
  lemma StackedBlocksWithoutEvent0Graph(removed: set<EventId>) returns (g: seq<Node>)
    requires 0 in removed && 1 !in removed && 2 !in removed && 3 !in removed && 4 !in removed
    ensures Extract(StackedBlocks(removed)) == Ok(g) && StackedBlocksWithoutEvent0Shape(g)
  {
    g := StackedBlocksWithoutEvent0Nodes();
    var defs := StackedBlocksWithoutEvent0Defs();
    var p := StackedBlocks(removed);
    StackedBlocksWithoutEvent0NodesShape0();
    StackedBlocksWithoutEvent0NodesShape5();
    StackedBlocksWithoutEvent0NodesShape10();
    StackedBlocksWithoutEvent0NodesShape15();
    StackedBlocksWithoutEvent0NodesShape20();
    StackedBlocksWithoutEvent0NodesShape25();
    StackedBlocksWithoutEvent0DefsTables0();
    StackedBlocksWithoutEvent0DefsTables5();
    StackedBlocksWithoutEvent0DefsTables10();
    StackedBlocksWithoutEvent0DefsTables15();
    StackedBlocksWithoutEvent0DefsTables20();
    StackedBlocksWithoutEvent0DefsTables25();
    StackedBlocksWithoutEvent0Extract0(removed, g, defs);
    StackedBlocksWithoutEvent0Extract5(removed, g, defs);
    StackedBlocksWithoutEvent0Extract10(removed, g, defs);
    StackedBlocksWithoutEvent0Extract15(removed, g, defs);
    StackedBlocksWithoutEvent0Extract20(removed, g, defs);
    StackedBlocksWithoutEvent0Extract25(removed, g, defs);
    ExtractReplays(p, g, defs, 0);
    assert g[..0] == [];
  }

  lemma StackedBlocksWithoutEvent0Simulate0(g: seq<Node>)
    requires WellFormed(g) && |g| == 26
    requires g[0] == Node(SetStream(0, 0), OnDevice(0, 0), [])
    ensures SimulateFrom(g, 0, StackedBlocksWithoutEvent0State0()) == SimulateFrom(g, 1, StackedBlocksWithoutEvent0State1())
  {
    assert Step(g, 0, StackedBlocksWithoutEvent0State0()) == Ok(StackedBlocksWithoutEvent0State1());
    SimulateLink(g, 0, StackedBlocksWithoutEvent0State0(), StackedBlocksWithoutEvent0State1());
  }

  lemma StackedBlocksWithoutEvent0Simulate1(g: seq<Node>)
    requires WellFormed(g) && |g| == 26
    requires g[1] == Node(Atan(X), OnDevice(0, 0), [])
    ensures SimulateFrom(g, 1, StackedBlocksWithoutEvent0State1()) == SimulateFrom(g, 2, StackedBlocksWithoutEvent0State2())
  {
    ReadHazardsSmall(g, g[1].deps, 1, g[1].stream, ClockOf(StackedBlocksWithoutEvent0State1(), g[1].stream));
    assert StackedBlocksWithoutEvent0State1().hazards + ReadHazards(g, g[1].deps, 1, g[1].stream, ClockOf(StackedBlocksWithoutEvent0State1(), g[1].stream)) == StackedBlocksWithoutEvent0State2().hazards;
    assert Step(g, 1, StackedBlocksWithoutEvent0State1()) == Ok(StackedBlocksWithoutEvent0State2());
    SimulateLink(g, 1, StackedBlocksWithoutEvent0State1(), StackedBlocksWithoutEvent0State2());
  }

  lemma StackedBlocksWithoutEvent0Simulate2(g: seq<Node>)
    requires WellFormed(g) && |g| == 26
    requires g[1] == Node(Atan(X), OnDevice(0, 0), [])
    requires g[2] == Node(Atan(LetVar(1)), OnDevice(0, 0), [1])
    ensures SimulateFrom(g, 2, StackedBlocksWithoutEvent0State2()) == SimulateFrom(g, 3, StackedBlocksWithoutEvent0State3())
  {
    ReadHazardsSmall(g, g[2].deps, 2, g[2].stream, ClockOf(StackedBlocksWithoutEvent0State2(), g[2].stream));
    assert StackedBlocksWithoutEvent0State2().hazards + ReadHazards(g, g[2].deps, 2, g[2].stream, ClockOf(StackedBlocksWithoutEvent0State2(), g[2].stream)) == StackedBlocksWithoutEvent0State3().hazards;
    assert Step(g, 2, StackedBlocksWithoutEvent0State2()) == Ok(StackedBlocksWithoutEvent0State3());
    SimulateLink(g, 2, StackedBlocksWithoutEvent0State2(), StackedBlocksWithoutEvent0State3());
  }

  lemma StackedBlocksWithoutEvent0Simulate3(g: seq<Node>)
    requires WellFormed(g) && |g| == 26
    requires g[3] == Node(SetStream(0, 1), OnDevice(0, 1), [])
    ensures SimulateFrom(g, 3, StackedBlocksWithoutEvent0State3()) == SimulateFrom(g, 4, StackedBlocksWithoutEvent0State4())
  {
    assert Step(g, 3, StackedBlocksWithoutEvent0State3()) == Ok(StackedBlocksWithoutEvent0State4());
    SimulateLink(g, 3, StackedBlocksWithoutEvent0State3(), StackedBlocksWithoutEvent0State4());
  }

  lemma StackedBlocksWithoutEvent0Simulate4(g: seq<Node>)
    requires WellFormed(g) && |g| == 26
    requires g[4] == Node(Atan(X), OnDevice(0, 1), [])
    ensures SimulateFrom(g, 4, StackedBlocksWithoutEvent0State4()) == SimulateFrom(g, 5, StackedBlocksWithoutEvent0State5())
  {
    ReadHazardsSmall(g, g[4].deps, 4, g[4].stream, ClockOf(StackedBlocksWithoutEvent0State4(), g[4].stream));
    assert StackedBlocksWithoutEvent0State4().hazards + ReadHazards(g, g[4].deps, 4, g[4].stream, ClockOf(StackedBlocksWithoutEvent0State4(), g[4].stream)) == StackedBlocksWithoutEvent0State5().hazards;
    assert Step(g, 4, StackedBlocksWithoutEvent0State4()) == Ok(StackedBlocksWithoutEvent0State5());
    SimulateLink(g, 4, StackedBlocksWithoutEvent0State4(), StackedBlocksWithoutEvent0State5());
  }

  lemma StackedBlocksWithoutEvent0Simulate5(g: seq<Node>)
    requires WellFormed(g) && |g| == 26
    requires g[5] == Node(AddEvent(1), OnDevice(0, 1), [])
    ensures SimulateFrom(g, 5, StackedBlocksWithoutEvent0State5()) == SimulateFrom(g, 6, StackedBlocksWithoutEvent0State6())
  {
    assert Step(g, 5, StackedBlocksWithoutEvent0State5()) == Ok(StackedBlocksWithoutEvent0State6());
    SimulateLink(g, 5, StackedBlocksWithoutEvent0State5(), StackedBlocksWithoutEvent0State6());
  }

  lemma StackedBlocksWithoutEvent0Simulate6(g: seq<Node>)
    requires WellFormed(g) && |g| == 26
    requires g[6] == Node(SetStream(0, 2), OnDevice(0, 2), [])
    ensures SimulateFrom(g, 6, StackedBlocksWithoutEvent0State6()) == SimulateFrom(g, 7, StackedBlocksWithoutEvent0State7())
  {
    assert Step(g, 6, StackedBlocksWithoutEvent0State6()) == Ok(StackedBlocksWithoutEvent0State7());
    SimulateLink(g, 6, StackedBlocksWithoutEvent0State6(), StackedBlocksWithoutEvent0State7());
  }

  lemma StackedBlocksWithoutEvent0Simulate7(g: seq<Node>)
    requires WellFormed(g) && |g| == 26
    requires g[7] == Node(Atan(X), OnDevice(0, 2), [])
    ensures SimulateFrom(g, 7, StackedBlocksWithoutEvent0State7()) == SimulateFrom(g, 8, StackedBlocksWithoutEvent0State8())
  {
    ReadHazardsSmall(g, g[7].deps, 7, g[7].stream, ClockOf(StackedBlocksWithoutEvent0State7(), g[7].stream));
    assert StackedBlocksWithoutEvent0State7().hazards + ReadHazards(g, g[7].deps, 7, g[7].stream, ClockOf(StackedBlocksWithoutEvent0State7(), g[7].stream)) == StackedBlocksWithoutEvent0State8().hazards;
    assert Step(g, 7, StackedBlocksWithoutEvent0State7()) == Ok(StackedBlocksWithoutEvent0State8());
    SimulateLink(g, 7, StackedBlocksWithoutEvent0State7(), StackedBlocksWithoutEvent0State8());
  }

  lemma StackedBlocksWithoutEvent0Simulate8(g: seq<Node>)
    requires WellFormed(g) && |g| == 26
    requires g[8] == Node(WaitEvent(1), OnDevice(0, 2), [])
    ensures SimulateFrom(g, 8, StackedBlocksWithoutEvent0State8()) == SimulateFrom(g, 9, StackedBlocksWithoutEvent0State9())
  {
    MergeIs(map[], Mark(OnDevice(0, 1), 5, map[]), map[OnDevice(0, 1) := 5]);
    assert Step(g, 8, StackedBlocksWithoutEvent0State8()) == Ok(StackedBlocksWithoutEvent0State9());
    SimulateLink(g, 8, StackedBlocksWithoutEvent0State8(), StackedBlocksWithoutEvent0State9());
  }

  lemma StackedBlocksWithoutEvent0Simulate9(g: seq<Node>)
    requires WellFormed(g) && |g| == 26
    requires g[2] == Node(Atan(LetVar(1)), OnDevice(0, 0), [1])
    requires g[4] == Node(Atan(X), OnDevice(0, 1), [])
    requires g[7] == Node(Atan(X), OnDevice(0, 2), [])
    requires g[9] == Node(MakeTuple([LetVar(8), LetVar(5), LetVar(2)]), OnDevice(0, 2), [7, 4, 2])
    ensures SimulateFrom(g, 9, StackedBlocksWithoutEvent0State9()) == SimulateFrom(g, 10, StackedBlocksWithoutEvent0State10())
  {
    ReadHazardsSmall(g, g[9].deps, 9, g[9].stream, ClockOf(StackedBlocksWithoutEvent0State9(), g[9].stream));
    assert StackedBlocksWithoutEvent0State9().hazards + ReadHazards(g, g[9].deps, 9, g[9].stream, ClockOf(StackedBlocksWithoutEvent0State9(), g[9].stream)) == StackedBlocksWithoutEvent0State10().hazards;
    assert Step(g, 9, StackedBlocksWithoutEvent0State9()) == Ok(StackedBlocksWithoutEvent0State10());
    SimulateLink(g, 9, StackedBlocksWithoutEvent0State9(), StackedBlocksWithoutEvent0State10());
  }

  lemma StackedBlocksWithoutEvent0Simulate10(g: seq<Node>)
    requires WellFormed(g) && |g| == 26
    requires g[9] == Node(MakeTuple([LetVar(8), LetVar(5), LetVar(2)]), OnDevice(0, 2), [7, 4, 2])
    requires g[10] == Node(Concatenate(LetVar(11), 0), OnDevice(0, 2), [9])
    ensures SimulateFrom(g, 10, StackedBlocksWithoutEvent0State10()) == SimulateFrom(g, 11, StackedBlocksWithoutEvent0State11())
  {
    ReadHazardsSmall(g, g[10].deps, 10, g[10].stream, ClockOf(StackedBlocksWithoutEvent0State10(), g[10].stream));
    assert StackedBlocksWithoutEvent0State10().hazards + ReadHazards(g, g[10].deps, 10, g[10].stream, ClockOf(StackedBlocksWithoutEvent0State10(), g[10].stream)) == StackedBlocksWithoutEvent0State11().hazards;
    assert Step(g, 10, StackedBlocksWithoutEvent0State10()) == Ok(StackedBlocksWithoutEvent0State11());
    SimulateLink(g, 10, StackedBlocksWithoutEvent0State10(), StackedBlocksWithoutEvent0State11());
  }

  lemma StackedBlocksWithoutEvent0Simulate11(g: seq<Node>)
    requires WellFormed(g) && |g| == 26
    requires g[11] == Node(AddEvent(2), OnDevice(0, 2), [])
    ensures SimulateFrom(g, 11, StackedBlocksWithoutEvent0State11()) == SimulateFrom(g, 12, StackedBlocksWithoutEvent0State12())
  {
    assert Step(g, 11, StackedBlocksWithoutEvent0State11()) == Ok(StackedBlocksWithoutEvent0State12());
    SimulateLink(g, 11, StackedBlocksWithoutEvent0State11(), StackedBlocksWithoutEvent0State12());
  }

  lemma StackedBlocksWithoutEvent0Simulate12(g: seq<Node>)
    requires WellFormed(g) && |g| == 26
    requires g[10] == Node(Concatenate(LetVar(11), 0), OnDevice(0, 2), [9])
    requires g[12] == Node(Atan(LetVar(12)), OnDevice(0, 2), [10])
    ensures SimulateFrom(g, 12, StackedBlocksWithoutEvent0State12()) == SimulateFrom(g, 13, StackedBlocksWithoutEvent0State13())
  {
    ReadHazardsSmall(g, g[12].deps, 12, g[12].stream, ClockOf(StackedBlocksWithoutEvent0State12(), g[12].stream));
    assert StackedBlocksWithoutEvent0State12().hazards + ReadHazards(g, g[12].deps, 12, g[12].stream, ClockOf(StackedBlocksWithoutEvent0State12(), g[12].stream)) == StackedBlocksWithoutEvent0State13().hazards;
    assert Step(g, 12, StackedBlocksWithoutEvent0State12()) == Ok(StackedBlocksWithoutEvent0State13());
    SimulateLink(g, 12, StackedBlocksWithoutEvent0State12(), StackedBlocksWithoutEvent0State13());
  }

  lemma StackedBlocksWithoutEvent0Simulate13(g: seq<Node>)
    requires WellFormed(g) && |g| == 26
    requires g[12] == Node(Atan(LetVar(12)), OnDevice(0, 2), [10])
    requires g[13] == Node(Atan(LetVar(14)), OnDevice(0, 2), [12])
    ensures SimulateFrom(g, 13, StackedBlocksWithoutEvent0State13()) == SimulateFrom(g, 14, StackedBlocksWithoutEvent0State14())
  {
    ReadHazardsSmall(g, g[13].deps, 13, g[13].stream, ClockOf(StackedBlocksWithoutEvent0State13(), g[13].stream));
    assert StackedBlocksWithoutEvent0State13().hazards + ReadHazards(g, g[13].deps, 13, g[13].stream, ClockOf(StackedBlocksWithoutEvent0State13(), g[13].stream)) == StackedBlocksWithoutEvent0State14().hazards;
    assert Step(g, 13, StackedBlocksWithoutEvent0State13()) == Ok(StackedBlocksWithoutEvent0State14());
    SimulateLink(g, 13, StackedBlocksWithoutEvent0State13(), StackedBlocksWithoutEvent0State14());
  }

  lemma StackedBlocksWithoutEvent0Simulate14(g: seq<Node>)
    requires WellFormed(g) && |g| == 26
    requires g[14] == Node(AddEvent(3), OnDevice(0, 2), [])
    ensures SimulateFrom(g, 14, StackedBlocksWithoutEvent0State14()) == SimulateFrom(g, 15, StackedBlocksWithoutEvent0State15())
  {
    assert Step(g, 14, StackedBlocksWithoutEvent0State14()) == Ok(StackedBlocksWithoutEvent0State15());
    SimulateLink(g, 14, StackedBlocksWithoutEvent0State14(), StackedBlocksWithoutEvent0State15());
  }

  lemma StackedBlocksWithoutEvent0Simulate15(g: seq<Node>)
    requires WellFormed(g) && |g| == 26
    requires g[15] == Node(SetStream(0, 1), OnDevice(0, 1), [])
    ensures SimulateFrom(g, 15, StackedBlocksWithoutEvent0State15()) == SimulateFrom(g, 16, StackedBlocksWithoutEvent0State16())
  {
    assert Step(g, 15, StackedBlocksWithoutEvent0State15()) == Ok(StackedBlocksWithoutEvent0State16());
    SimulateLink(g, 15, StackedBlocksWithoutEvent0State15(), StackedBlocksWithoutEvent0State16());
  }

  lemma StackedBlocksWithoutEvent0Simulate16(g: seq<Node>)
    requires WellFormed(g) && |g| == 26
    requires g[16] == Node(WaitEvent(2), OnDevice(0, 1), [])
    ensures SimulateFrom(g, 16, StackedBlocksWithoutEvent0State16()) == SimulateFrom(g, 17, StackedBlocksWithoutEvent0State17())
  {
    MergeIs(map[], Mark(OnDevice(0, 2), 11, map[OnDevice(0, 1) := 5]), map[OnDevice(0, 1) := 5, OnDevice(0, 2) := 11]);
    assert Step(g, 16, StackedBlocksWithoutEvent0State16()) == Ok(StackedBlocksWithoutEvent0State17());
    SimulateLink(g, 16, StackedBlocksWithoutEvent0State16(), StackedBlocksWithoutEvent0State17());
  }

  lemma StackedBlocksWithoutEvent0Simulate17(g: seq<Node>)
    requires WellFormed(g) && |g| == 26
    requires g[10] == Node(Concatenate(LetVar(11), 0), OnDevice(0, 2), [9])
    requires g[17] == Node(Atan(LetVar(12)), OnDevice(0, 1), [10])
    ensures SimulateFrom(g, 17, StackedBlocksWithoutEvent0State17()) == SimulateFrom(g, 18, StackedBlocksWithoutEvent0State18())
  {
    ReadHazardsSmall(g, g[17].deps, 17, g[17].stream, ClockOf(StackedBlocksWithoutEvent0State17(), g[17].stream));
    assert StackedBlocksWithoutEvent0State17().hazards + ReadHazards(g, g[17].deps, 17, g[17].stream, ClockOf(StackedBlocksWithoutEvent0State17(), g[17].stream)) == StackedBlocksWithoutEvent0State18().hazards;
    assert Step(g, 17, StackedBlocksWithoutEvent0State17()) == Ok(StackedBlocksWithoutEvent0State18());
    SimulateLink(g, 17, StackedBlocksWithoutEvent0State17(), StackedBlocksWithoutEvent0State18());
  }

  lemma StackedBlocksWithoutEvent0Simulate18(g: seq<Node>)
    requires WellFormed(g) && |g| == 26
    requires g[18] == Node(AddEvent(4), OnDevice(0, 1), [])
    ensures SimulateFrom(g, 18, StackedBlocksWithoutEvent0State18()) == SimulateFrom(g, 19, StackedBlocksWithoutEvent0State19())
  {
    assert Step(g, 18, StackedBlocksWithoutEvent0State18()) == Ok(StackedBlocksWithoutEvent0State19());
    SimulateLink(g, 18, StackedBlocksWithoutEvent0State18(), StackedBlocksWithoutEvent0State19());
  }

  lemma StackedBlocksWithoutEvent0Simulate19(g: seq<Node>)
    requires WellFormed(g) && |g| == 26
    requires g[19] == Node(SetStream(0, 0), OnDevice(0, 0), [])
    ensures SimulateFrom(g, 19, StackedBlocksWithoutEvent0State19()) == SimulateFrom(g, 20, StackedBlocksWithoutEvent0State20())
  {
    assert Step(g, 19, StackedBlocksWithoutEvent0State19()) == Ok(StackedBlocksWithoutEvent0State20());
    SimulateLink(g, 19, StackedBlocksWithoutEvent0State19(), StackedBlocksWithoutEvent0State20());
  }

  lemma StackedBlocksWithoutEvent0Simulate20(g: seq<Node>)
    requires WellFormed(g) && |g| == 26
    requires g[20] == Node(WaitEvent(2), OnDevice(0, 0), [])
    ensures SimulateFrom(g, 20, StackedBlocksWithoutEvent0State20()) == SimulateFrom(g, 21, StackedBlocksWithoutEvent0State21())
  {
    MergeIs(map[], Mark(OnDevice(0, 2), 11, map[OnDevice(0, 1) := 5]), map[OnDevice(0, 1) := 5, OnDevice(0, 2) := 11]);
    assert Step(g, 20, StackedBlocksWithoutEvent0State20()) == Ok(StackedBlocksWithoutEvent0State21());
    SimulateLink(g, 20, StackedBlocksWithoutEvent0State20(), StackedBlocksWithoutEvent0State21());
  }

  lemma StackedBlocksWithoutEvent0Simulate21(g: seq<Node>)
    requires WellFormed(g) && |g| == 26
    requires g[10] == Node(Concatenate(LetVar(11), 0), OnDevice(0, 2), [9])
    requires g[21] == Node(Atan(LetVar(12)), OnDevice(0, 0), [10])
    ensures SimulateFrom(g, 21, StackedBlocksWithoutEvent0State21()) == SimulateFrom(g, 22, StackedBlocksWithoutEvent0State22())
  {
    ReadHazardsSmall(g, g[21].deps, 21, g[21].stream, ClockOf(StackedBlocksWithoutEvent0State21(), g[21].stream));
    assert StackedBlocksWithoutEvent0State21().hazards + ReadHazards(g, g[21].deps, 21, g[21].stream, ClockOf(StackedBlocksWithoutEvent0State21(), g[21].stream)) == StackedBlocksWithoutEvent0State22().hazards;
    assert Step(g, 21, StackedBlocksWithoutEvent0State21()) == Ok(StackedBlocksWithoutEvent0State22());
    SimulateLink(g, 21, StackedBlocksWithoutEvent0State21(), StackedBlocksWithoutEvent0State22());
  }

  lemma StackedBlocksWithoutEvent0Simulate22(g: seq<Node>)
    requires WellFormed(g) && |g| == 26
    requires g[22] == Node(WaitEvent(4), OnDevice(0, 0), [])
    ensures SimulateFrom(g, 22, StackedBlocksWithoutEvent0State22()) == SimulateFrom(g, 23, StackedBlocksWithoutEvent0State23())
  {
    MergeIs(map[OnDevice(0, 1) := 5, OnDevice(0, 2) := 11], Mark(OnDevice(0, 1), 18, map[OnDevice(0, 1) := 5, OnDevice(0, 2) := 11]), map[OnDevice(0, 1) := 18, OnDevice(0, 2) := 11]);
    assert Step(g, 22, StackedBlocksWithoutEvent0State22()) == Ok(StackedBlocksWithoutEvent0State23());
    SimulateLink(g, 22, StackedBlocksWithoutEvent0State22(), StackedBlocksWithoutEvent0State23());
  }

  lemma StackedBlocksWithoutEvent0Simulate23(g: seq<Node>)
    requires WellFormed(g) && |g| == 26
    requires g[23] == Node(WaitEvent(3), OnDevice(0, 0), [])
    ensures SimulateFrom(g, 23, StackedBlocksWithoutEvent0State23()) == SimulateFrom(g, 24, StackedBlocksWithoutEvent0State24())
  {
    MergeIs(map[OnDevice(0, 1) := 18, OnDevice(0, 2) := 11], Mark(OnDevice(0, 2), 14, map[OnDevice(0, 1) := 5]), map[OnDevice(0, 1) := 18, OnDevice(0, 2) := 14]);
    assert Step(g, 23, StackedBlocksWithoutEvent0State23()) == Ok(StackedBlocksWithoutEvent0State24());
    SimulateLink(g, 23, StackedBlocksWithoutEvent0State23(), StackedBlocksWithoutEvent0State24());
  }

  lemma StackedBlocksWithoutEvent0Simulate24(g: seq<Node>)
    requires WellFormed(g) && |g| == 26
    requires g[13] == Node(Atan(LetVar(14)), OnDevice(0, 2), [12])
    requires g[17] == Node(Atan(LetVar(12)), OnDevice(0, 1), [10])
    requires g[21] == Node(Atan(LetVar(12)), OnDevice(0, 0), [10])
    requires g[24] == Node(MakeTuple([LetVar(23), LetVar(19), LetVar(15)]), OnDevice(0, 0), [21, 17, 13])
    ensures SimulateFrom(g, 24, StackedBlocksWithoutEvent0State24()) == SimulateFrom(g, 25, StackedBlocksWithoutEvent0State25())
  {
    ReadHazardsSmall(g, g[24].deps, 24, g[24].stream, ClockOf(StackedBlocksWithoutEvent0State24(), g[24].stream));
    assert StackedBlocksWithoutEvent0State24().hazards + ReadHazards(g, g[24].deps, 24, g[24].stream, ClockOf(StackedBlocksWithoutEvent0State24(), g[24].stream)) == StackedBlocksWithoutEvent0State25().hazards;
    assert Step(g, 24, StackedBlocksWithoutEvent0State24()) == Ok(StackedBlocksWithoutEvent0State25());
    SimulateLink(g, 24, StackedBlocksWithoutEvent0State24(), StackedBlocksWithoutEvent0State25());
  }

  lemma StackedBlocksWithoutEvent0Simulate25(g: seq<Node>)
    requires WellFormed(g) && |g| == 26
    requires g[24] == Node(MakeTuple([LetVar(23), LetVar(19), LetVar(15)]), OnDevice(0, 0), [21, 17, 13])
    requires g[25] == Node(Concatenate(LetVar(26), 0), OnDevice(0, 0), [24])
    ensures SimulateFrom(g, 25, StackedBlocksWithoutEvent0State25()) == SimulateFrom(g, 26, StackedBlocksWithoutEvent0State26())
  {
    ReadHazardsSmall(g, g[25].deps, 25, g[25].stream, ClockOf(StackedBlocksWithoutEvent0State25(), g[25].stream));
    assert StackedBlocksWithoutEvent0State25().hazards + ReadHazards(g, g[25].deps, 25, g[25].stream, ClockOf(StackedBlocksWithoutEvent0State25(), g[25].stream)) == StackedBlocksWithoutEvent0State26().hazards;
    assert Step(g, 25, StackedBlocksWithoutEvent0State25()) == Ok(StackedBlocksWithoutEvent0State26());
    SimulateLink(g, 25, StackedBlocksWithoutEvent0State25(), StackedBlocksWithoutEvent0State26());
  }

  /** Without event 0 the first join `x_11` reads `x_2` unordered. */
  lemma Verdict(removed: set<EventId>)
    requires 0 in removed && 1 !in removed && 2 !in removed && 3 !in removed && 4 !in removed
    ensures Verify(StackedBlocks(removed)) == Err(ExecutionOrder([Hazard(2, 9, OnDevice(0, 0), OnDevice(0, 2))]))
  {
    var g := StackedBlocksWithoutEvent0Graph(removed);
    StackedBlocksWithoutEvent0Simulate0(g);
    StackedBlocksWithoutEvent0Simulate1(g);
    StackedBlocksWithoutEvent0Simulate2(g);
    StackedBlocksWithoutEvent0Simulate3(g);
    StackedBlocksWithoutEvent0Simulate4(g);
    StackedBlocksWithoutEvent0Simulate5(g);
    StackedBlocksWithoutEvent0Simulate6(g);
    StackedBlocksWithoutEvent0Simulate7(g);
    StackedBlocksWithoutEvent0Simulate8(g);
    StackedBlocksWithoutEvent0Simulate9(g);
    StackedBlocksWithoutEvent0Simulate10(g);
    StackedBlocksWithoutEvent0Simulate11(g);
    StackedBlocksWithoutEvent0Simulate12(g);
    StackedBlocksWithoutEvent0Simulate13(g);
    StackedBlocksWithoutEvent0Simulate14(g);
    StackedBlocksWithoutEvent0Simulate15(g);
    StackedBlocksWithoutEvent0Simulate16(g);
    StackedBlocksWithoutEvent0Simulate17(g);
    StackedBlocksWithoutEvent0Simulate18(g);
    StackedBlocksWithoutEvent0Simulate19(g);
    StackedBlocksWithoutEvent0Simulate20(g);
    StackedBlocksWithoutEvent0Simulate21(g);
    StackedBlocksWithoutEvent0Simulate22(g);
    StackedBlocksWithoutEvent0Simulate23(g);
    StackedBlocksWithoutEvent0Simulate24(g);
    StackedBlocksWithoutEvent0Simulate25(g);
    SimulateDone(g, StackedBlocksWithoutEvent0State26());
  }
}
