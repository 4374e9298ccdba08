/**
 * The verifier's verdict on `StackedBlocks(removed)` for one choice of removed events.
 * Without event 3 the second join `x_26` reads `x_15` unordered.
 */
module StackedBlocksWithoutEvent3 {
  import opened Results
  import opened ScheduleVerifier
  import opened ScheduleTheory
  import opened SchedulePrograms

  /** The graph `Extract` builds for `StackedBlocks(removed)`. */
  function StackedBlocksWithoutEvent3Nodes(): seq<Node>
  {
    [ Node(SetStream(0, 0), OnDevice(0, 0), [])
    , Node(Atan(X), OnDevice(0, 0), [])
    , Node(Atan(LetVar(1)), OnDevice(0, 0), [1])
    , Node(AddEvent(0), OnDevice(0, 0), [])
    , Node(SetStream(0, 1), OnDevice(0, 1), [])
    , Node(Atan(X), OnDevice(0, 1), [])
    , Node(AddEvent(1), OnDevice(0, 1), [])
    , Node(SetStream(0, 2), OnDevice(0, 2), [])
    , Node(Atan(X), OnDevice(0, 2), [])
    , Node(WaitEvent(1), OnDevice(0, 2), [])
    , Node(WaitEvent(0), OnDevice(0, 2), [])
    , Node(MakeTuple([LetVar(8), LetVar(5), LetVar(2)]), OnDevice(0, 2), [8, 5, 2])
    , Node(Concatenate(LetVar(11), 0), OnDevice(0, 2), [11])
    , Node(AddEvent(2), OnDevice(0, 2), [])
    , Node(Atan(LetVar(12)), OnDevice(0, 2), [12])
    , Node(Atan(LetVar(14)), OnDevice(0, 2), [14])
    , Node(SetStream(0, 1), OnDevice(0, 1), [])
    , Node(WaitEvent(2), OnDevice(0, 1), [])
    , Node(Atan(LetVar(12)), OnDevice(0, 1), [12])
    , Node(AddEvent(4), OnDevice(0, 1), [])
    , Node(SetStream(0, 0), OnDevice(0, 0), [])
    , Node(WaitEvent(2), OnDevice(0, 0), [])
    , Node(Atan(LetVar(12)), OnDevice(0, 0), [12])
    , Node(WaitEvent(4), OnDevice(0, 0), [])
    , Node(MakeTuple([LetVar(23), LetVar(19), LetVar(15)]), OnDevice(0, 0), [22, 18, 15])
    , Node(Concatenate(LetVar(26), 0), OnDevice(0, 0), [24]) ]
  }

  /** `g` is `StackedBlocksWithoutEvent3Nodes()`, position by position. */
  predicate StackedBlocksWithoutEvent3Shape(g: seq<Node>)
  {
    && |g| == 26
    && StackedBlocksWithoutEvent3Shape0(g)
    && StackedBlocksWithoutEvent3Shape5(g)
    && StackedBlocksWithoutEvent3Shape10(g)
    && StackedBlocksWithoutEvent3Shape15(g)
    && StackedBlocksWithoutEvent3Shape20(g)
    && StackedBlocksWithoutEvent3Shape25(g)
  }

  predicate StackedBlocksWithoutEvent3Shape0(g: seq<Node>)
    requires |g| == 26
  {
    && g[0] == Node(SetStream(0, 0), OnDevice(0, 0), [])
    && g[1] == Node(Atan(X), OnDevice(0, 0), [])
    && g[2] == Node(Atan(LetVar(1)), OnDevice(0, 0), [1])
    && g[3] == Node(AddEvent(0), OnDevice(0, 0), [])
    && g[4] == Node(SetStream(0, 1), OnDevice(0, 1), [])
  }

  predicate StackedBlocksWithoutEvent3Shape5(g: seq<Node>)
    requires |g| == 26
  {
    && g[5] == Node(Atan(X), OnDevice(0, 1), [])
    && g[6] == Node(AddEvent(1), OnDevice(0, 1), [])
    && g[7] == Node(SetStream(0, 2), OnDevice(0, 2), [])
    && g[8] == Node(Atan(X), OnDevice(0, 2), [])
    && g[9] == Node(WaitEvent(1), OnDevice(0, 2), [])
  }

  predicate StackedBlocksWithoutEvent3Shape10(g: seq<Node>)
    requires |g| == 26
  {
    && g[10] == Node(WaitEvent(0), OnDevice(0, 2), [])
    && g[11] == Node(MakeTuple([LetVar(8), LetVar(5), LetVar(2)]), OnDevice(0, 2), [8, 5, 2])
    && g[12] == Node(Concatenate(LetVar(11), 0), OnDevice(0, 2), [11])
    && g[13] == Node(AddEvent(2), OnDevice(0, 2), [])
    && g[14] == Node(Atan(LetVar(12)), OnDevice(0, 2), [12])
  }

  predicate StackedBlocksWithoutEvent3Shape15(g: seq<Node>)
    requires |g| == 26
  {
    && g[15] == Node(Atan(LetVar(14)), OnDevice(0, 2), [14])
    && g[16] == Node(SetStream(0, 1), OnDevice(0, 1), [])
    && g[17] == Node(WaitEvent(2), OnDevice(0, 1), [])
    && g[18] == Node(Atan(LetVar(12)), OnDevice(0, 1), [12])
    && g[19] == Node(AddEvent(4), OnDevice(0, 1), [])
  }

  predicate StackedBlocksWithoutEvent3Shape20(g: seq<Node>)
    requires |g| == 26
  {
    && g[20] == Node(SetStream(0, 0), OnDevice(0, 0), [])
    && g[21] == Node(WaitEvent(2), OnDevice(0, 0), [])
    && g[22] == Node(Atan(LetVar(12)), OnDevice(0, 0), [12])
    && g[23] == Node(WaitEvent(4), OnDevice(0, 0), [])
    && g[24] == Node(MakeTuple([LetVar(23), LetVar(19), LetVar(15)]), OnDevice(0, 0), [22, 18, 15])
  }

  predicate StackedBlocksWithoutEvent3Shape25(g: seq<Node>)
    requires |g| == 26
  {
    && g[25] == Node(Concatenate(LetVar(26), 0), OnDevice(0, 0), [24])
  }

  /** The variable table before each position of `StackedBlocks(removed)`. */
  function StackedBlocksWithoutEvent3Defs(): seq<map<VarId, nat>>
  {
    [ map[]
    , map[0 := 0]
    , map[0 := 0, 1 := 1]
    , map[0 := 0, 1 := 1, 2 := 2]
    , map[0 := 0, 1 := 1, 2 := 2, 3 := 3]
    , map[0 := 0, 1 := 1, 2 := 2, 3 := 3, 4 := 4]
    , map[0 := 0, 1 := 1, 2 := 2, 3 := 3, 4 := 4, 5 := 5]
    , map[0 := 0, 1 := 1, 2 := 2, 3 := 3, 4 := 4, 5 := 5, 6 := 6]
    , map[0 := 0, 1 := 1, 2 := 2, 3 := 3, 4 := 4, 5 := 5, 6 := 6, 7 := 7]
    , map[0 := 0, 1 := 1, 2 := 2, 3 := 3, 4 := 4, 5 := 5, 6 := 6, 7 := 7, 8 := 8]
    , map[0 := 0, 1 := 1, 2 := 2, 3 := 3, 4 := 4, 5 := 5, 6 := 6, 7 := 7, 8 := 8, 9 := 9]
    , map[0 := 0, 1 := 1, 2 := 2, 3 := 3, 4 := 4, 5 := 5, 6 := 6, 7 := 7, 8 := 8, 9 := 9, 10 := 10]
    , map[0 := 0, 1 := 1, 2 := 2, 3 := 3, 4 := 4, 5 := 5, 6 := 6, 7 := 7, 8 := 8, 9 := 9, 10 := 10, 11 := 11]
    , map[0 := 0, 1 := 1, 2 := 2, 3 := 3, 4 := 4, 5 := 5, 6 := 6, 7 := 7, 8 := 8, 9 := 9, 10 := 10, 11 := 11, 12 := 12]
    , map[0 := 0, 1 := 1, 2 := 2, 3 := 3, 4 := 4, 5 := 5, 6 := 6, 7 := 7, 8 := 8, 9 := 9, 10 := 10, 11 := 11, 12 := 12, 13 := 13]
    , map[0 := 0, 1 := 1, 2 := 2, 3 := 3, 4 := 4, 5 := 5, 6 := 6, 7 := 7, 8 := 8, 9 := 9, 10 := 10, 11 := 11, 12 := 12, 13 := 13, 14 := 14]
    , map[0 := 0, 1 := 1, 2 := 2, 3 := 3, 4 := 4, 5 := 5, 6 := 6, 7 := 7, 8 := 8, 9 := 9, 10 := 10, 11 := 11, 12 := 12, 13 := 13, 14 := 14, 15 := 15]
    , map[0 := 0, 1 := 1, 2 := 2, 3 := 3, 4 := 4, 5 := 5, 6 := 6, 7 := 7, 8 := 8, 9 := 9, 10 := 10, 11 := 11, 12 := 12, 13 := 13, 14 := 14, 15 := 15, 17 := 16]
    , map[0 := 0, 1 := 1, 2 := 2, 3 := 3, 4 := 4, 5 := 5, 6 := 6, 7 := 7, 8 := 8, 9 := 9, 10 := 10, 11 := 11, 12 := 12, 13 := 13, 14 := 14, 15 := 15, 17 := 16, 18 := 17]
    , map[0 := 0, 1 := 1, 2 := 2, 3 := 3, 4 := 4, 5 := 5, 6 := 6, 7 := 7, 8 := 8, 9 := 9, 10 := 10, 11 := 11, 12 := 12, 13 := 13, 14 := 14, 15 := 15, 17 := 16, 18 := 17, 19 := 18]
    , map[0 := 0, 1 := 1, 2 := 2, 3 := 3, 4 := 4, 5 := 5, 6 := 6, 7 := 7, 8 := 8, 9 := 9, 10 := 10, 11 := 11, 12 := 12, 13 := 13, 14 := 14, 15 := 15, 17 := 16, 18 := 17, 19 := 18, 20 := 19]
    , map[0 := 0, 1 := 1, 2 := 2, 3 := 3, 4 := 4, 5 := 5, 6 := 6, 7 := 7, 8 := 8, 9 := 9, 10 := 10, 11 := 11, 12 := 12, 13 := 13, 14 := 14, 15 := 15, 17 := 16, 18 := 17, 19 := 18, 20 := 19, 21 := 20]
    , map[0 := 0, 1 := 1, 2 := 2, 3 := 3, 4 := 4, 5 := 5, 6 := 6, 7 := 7, 8 := 8, 9 := 9, 10 := 10, 11 := 11, 12 := 12, 13 := 13, 14 := 14, 15 := 15, 17 := 16, 18 := 17, 19 := 18, 20 := 19, 21 := 20, 22 := 21]
    , map[0 := 0, 1 := 1, 2 := 2, 3 := 3, 4 := 4, 5 := 5, 6 := 6, 7 := 7, 8 := 8, 9 := 9, 10 := 10, 11 := 11, 12 := 12, 13 := 13, 14 := 14, 15 := 15, 17 := 16, 18 := 17, 19 := 18, 20 := 19, 21 := 20, 22 := 21, 23 := 22]
    , map[0 := 0, 1 := 1, 2 := 2, 3 := 3, 4 := 4, 5 := 5, 6 := 6, 7 := 7, 8 := 8, 9 := 9, 10 := 10, 11 := 11, 12 := 12, 13 := 13, 14 := 14, 15 := 15, 17 := 16, 18 := 17, 19 := 18, 20 := 19, 21 := 20, 22 := 21, 23 := 22, 24 := 23]
    , map[0 := 0, 1 := 1, 2 := 2, 3 := 3, 4 := 4, 5 := 5, 6 := 6, 7 := 7, 8 := 8, 9 := 9, 10 := 10, 11 := 11, 12 := 12, 13 := 13, 14 := 14, 15 := 15, 17 := 16, 18 := 17, 19 := 18, 20 := 19, 21 := 20, 22 := 21, 23 := 22, 24 := 23, 26 := 24]
    , map[0 := 0, 1 := 1, 2 := 2, 3 := 3, 4 := 4, 5 := 5, 6 := 6, 7 := 7, 8 := 8, 9 := 9, 10 := 10, 11 := 11, 12 := 12, 13 := 13, 14 := 14, 15 := 15, 17 := 16, 18 := 17, 19 := 18, 20 := 19, 21 := 20, 22 := 21, 23 := 22, 24 := 23, 26 := 24, 27 := 25] ]
  }

  /** `defs` is `StackedBlocksWithoutEvent3Defs()`, position by position. */
  predicate StackedBlocksWithoutEvent3Tables(defs: seq<map<VarId, nat>>)
  {
    && |defs| == 27
    && StackedBlocksWithoutEvent3Tables0(defs)
    && StackedBlocksWithoutEvent3Tables5(defs)
    && StackedBlocksWithoutEvent3Tables10(defs)
    && StackedBlocksWithoutEvent3Tables15(defs)
    && StackedBlocksWithoutEvent3Tables20(defs)
    && StackedBlocksWithoutEvent3Tables25(defs)
  }

  predicate StackedBlocksWithoutEvent3Tables0(defs: seq<map<VarId, nat>>)
    requires |defs| == 27
  {
    && defs[0] == map[]
    && defs[1] == map[0 := 0]
    && defs[2] == map[0 := 0, 1 := 1]
    && defs[3] == map[0 := 0, 1 := 1, 2 := 2]
    && defs[4] == map[0 := 0, 1 := 1, 2 := 2, 3 := 3]
  }

  predicate StackedBlocksWithoutEvent3Tables5(defs: seq<map<VarId, nat>>)
    requires |defs| == 27
  {
    && defs[5] == map[0 := 0, 1 := 1, 2 := 2, 3 := 3, 4 := 4]
    && defs[6] == map[0 := 0, 1 := 1, 2 := 2, 3 := 3, 4 := 4, 5 := 5]
    && defs[7] == map[0 := 0, 1 := 1, 2 := 2, 3 := 3, 4 := 4, 5 := 5, 6 := 6]
    && defs[8] == map[0 := 0, 1 := 1, 2 := 2, 3 := 3, 4 := 4, 5 := 5, 6 := 6, 7 := 7]
    && defs[9] == map[0 := 0, 1 := 1, 2 := 2, 3 := 3, 4 := 4, 5 := 5, 6 := 6, 7 := 7, 8 := 8]
  }

  predicate StackedBlocksWithoutEvent3Tables10(defs: seq<map<VarId, nat>>)
    requires |defs| == 27
  {
    && defs[10] == map[0 := 0, 1 := 1, 2 := 2, 3 := 3, 4 := 4, 5 := 5, 6 := 6, 7 := 7, 8 := 8, 9 := 9]
    && defs[11] == map[0 := 0, 1 := 1, 2 := 2, 3 := 3, 4 := 4, 5 := 5, 6 := 6, 7 := 7, 8 := 8, 9 := 9, 10 := 10]
    && defs[12] == map[0 := 0, 1 := 1, 2 := 2, 3 := 3, 4 := 4, 5 := 5, 6 := 6, 7 := 7, 8 := 8, 9 := 9, 10 := 10, 11 := 11]
    && defs[13] == map[0 := 0, 1 := 1, 2 := 2, 3 := 3, 4 := 4, 5 := 5, 6 := 6, 7 := 7, 8 := 8, 9 := 9, 10 := 10, 11 := 11, 12 := 12]
    && defs[14] == map[0 := 0, 1 := 1, 2 := 2, 3 := 3, 4 := 4, 5 := 5, 6 := 6, 7 := 7, 8 := 8, 9 := 9, 10 := 10, 11 := 11, 12 := 12, 13 := 13]
  }

  predicate StackedBlocksWithoutEvent3Tables15(defs: seq<map<VarId, nat>>)
    requires |defs| == 27
  {
    && defs[15] == map[0 := 0, 1 := 1, 2 := 2, 3 := 3, 4 := 4, 5 := 5, 6 := 6, 7 := 7, 8 := 8, 9 := 9, 10 := 10, 11 := 11, 12 := 12, 13 := 13, 14 := 14]
    && defs[16] == map[0 := 0, 1 := 1, 2 := 2, 3 := 3, 4 := 4, 5 := 5, 6 := 6, 7 := 7, 8 := 8, 9 := 9, 10 := 10, 11 := 11, 12 := 12, 13 := 13, 14 := 14, 15 := 15]
    && defs[17] == map[0 := 0, 1 := 1, 2 := 2, 3 := 3, 4 := 4, 5 := 5, 6 := 6, 7 := 7, 8 := 8, 9 := 9, 10 := 10, 11 := 11, 12 := 12, 13 := 13, 14 := 14, 15 := 15, 17 := 16]
    && defs[18] == map[0 := 0, 1 := 1, 2 := 2, 3 := 3, 4 := 4, 5 := 5, 6 := 6, 7 := 7, 8 := 8, 9 := 9, 10 := 10, 11 := 11, 12 := 12, 13 := 13, 14 := 14, 15 := 15, 17 := 16, 18 := 17]
    && defs[19] == map[0 := 0, 1 := 1, 2 := 2, 3 := 3, 4 := 4, 5 := 5, 6 := 6, 7 := 7, 8 := 8, 9 := 9, 10 := 10, 11 := 11, 12 := 12, 13 := 13, 14 := 14, 15 := 15, 17 := 16, 18 := 17, 19 := 18]
  }

  predicate StackedBlocksWithoutEvent3Tables20(defs: seq<map<VarId, nat>>)
    requires |defs| == 27
  {
    && defs[20] == map[0 := 0, 1 := 1, 2 := 2, 3 := 3, 4 := 4, 5 := 5, 6 := 6, 7 := 7, 8 := 8, 9 := 9, 10 := 10, 11 := 11, 12 := 12, 13 := 13, 14 := 14, 15 := 15, 17 := 16, 18 := 17, 19 := 18, 20 := 19]
    && defs[21] == map[0 := 0, 1 := 1, 2 := 2, 3 := 3, 4 := 4, 5 := 5, 6 := 6, 7 := 7, 8 := 8, 9 := 9, 10 := 10, 11 := 11, 12 := 12, 13 := 13, 14 := 14, 15 := 15, 17 := 16, 18 := 17, 19 := 18, 20 := 19, 21 := 20]
    && defs[22] == map[0 := 0, 1 := 1, 2 := 2, 3 := 3, 4 := 4, 5 := 5, 6 := 6, 7 := 7, 8 := 8, 9 := 9, 10 := 10, 11 := 11, 12 := 12, 13 := 13, 14 := 14, 15 := 15, 17 := 16, 18 := 17, 19 := 18, 20 := 19, 21 := 20, 22 := 21]
    && defs[23] == map[0 := 0, 1 := 1, 2 := 2, 3 := 3, 4 := 4, 5 := 5, 6 := 6, 7 := 7, 8 := 8, 9 := 9, 10 := 10, 11 := 11, 12 := 12, 13 := 13, 14 := 14, 15 := 15, 17 := 16, 18 := 17, 19 := 18, 20 := 19, 21 := 20, 22 := 21, 23 := 22]
    && defs[24] == map[0 := 0, 1 := 1, 2 := 2, 3 := 3, 4 := 4, 5 := 5, 6 := 6, 7 := 7, 8 := 8, 9 := 9, 10 := 10, 11 := 11, 12 := 12, 13 := 13, 14 := 14, 15 := 15, 17 := 16, 18 := 17, 19 := 18, 20 := 19, 21 := 20, 22 := 21, 23 := 22, 24 := 23]
  }

  predicate StackedBlocksWithoutEvent3Tables25(defs: seq<map<VarId, nat>>)
    requires |defs| == 27
  {
    && defs[25] == map[0 := 0, 1 := 1, 2 := 2, 3 := 3, 4 := 4, 5 := 5, 6 := 6, 7 := 7, 8 := 8, 9 := 9, 10 := 10, 11 := 11, 12 := 12, 13 := 13, 14 := 14, 15 := 15, 17 := 16, 18 := 17, 19 := 18, 20 := 19, 21 := 20, 22 := 21, 23 := 22, 24 := 23, 26 := 24]
    && defs[26] == map[0 := 0, 1 := 1, 2 := 2, 3 := 3, 4 := 4, 5 := 5, 6 := 6, 7 := 7, 8 := 8, 9 := 9, 10 := 10, 11 := 11, 12 := 12, 13 := 13, 14 := 14, 15 := 15, 17 := 16, 18 := 17, 19 := 18, 20 := 19, 21 := 20, 22 := 21, 23 := 22, 24 := 23, 26 := 24, 27 := 25]
  }

  function StackedBlocksWithoutEvent3State0(): SimState
  {
    SimState(map[], map[], [])
  }

  function StackedBlocksWithoutEvent3State1(): SimState
  {
    SimState(map[], map[], [])
  }

  function StackedBlocksWithoutEvent3State2(): SimState
  {
    SimState(map[], map[], [])
  }

  function StackedBlocksWithoutEvent3State3(): SimState
  {
    SimState(map[], map[], [])
  }

  function StackedBlocksWithoutEvent3State4(): SimState
  {
    SimState(map[][0 := Mark(OnDevice(0, 0), 3, map[])], map[], [])
  }

  function StackedBlocksWithoutEvent3State5(): SimState
  {
    SimState(map[][0 := Mark(OnDevice(0, 0), 3, map[])], map[], [])
  }

  function StackedBlocksWithoutEvent3State6(): SimState
  {
    SimState(map[][0 := Mark(OnDevice(0, 0), 3, map[])], map[], [])
  }

  function StackedBlocksWithoutEvent3State7(): SimState
  {
    SimState(map[][0 := Mark(OnDevice(0, 0), 3, map[])][1 := Mark(OnDevice(0, 1), 6, map[])], map[], [])
  }

  function StackedBlocksWithoutEvent3State8(): SimState
  {
    SimState(map[][0 := Mark(OnDevice(0, 0), 3, map[])][1 := Mark(OnDevice(0, 1), 6, map[])], map[], [])
  }

  function StackedBlocksWithoutEvent3State9(): SimState
  {
    SimState(map[][0 := Mark(OnDevice(0, 0), 3, map[])][1 := Mark(OnDevice(0, 1), 6, map[])], map[], [])
  }

  function StackedBlocksWithoutEvent3State10(): SimState
  {
    SimState(map[][0 := Mark(OnDevice(0, 0), 3, map[])][1 := Mark(OnDevice(0, 1), 6, map[])], map[][OnDevice(0, 2) := map[OnDevice(0, 1) := 6]], [])
  }

  function StackedBlocksWithoutEvent3State11(): SimState
  {
    SimState(map[][0 := Mark(OnDevice(0, 0), 3, map[])][1 := Mark(OnDevice(0, 1), 6, map[])], map[][OnDevice(0, 2) := map[OnDevice(0, 1) := 6]][OnDevice(0, 2) := map[OnDevice(0, 0) := 3, OnDevice(0, 1) := 6]], [])
  }

  function StackedBlocksWithoutEvent3State12(): SimState
  {
    SimState(map[][0 := Mark(OnDevice(0, 0), 3, map[])][1 := Mark(OnDevice(0, 1), 6, map[])], map[][OnDevice(0, 2) := map[OnDevice(0, 1) := 6]][OnDevice(0, 2) := map[OnDevice(0, 0) := 3, OnDevice(0, 1) := 6]], [])
  }

  function StackedBlocksWithoutEvent3State13(): SimState
  {
    SimState(map[][0 := Mark(OnDevice(0, 0), 3, map[])][1 := Mark(OnDevice(0, 1), 6, map[])], map[][OnDevice(0, 2) := map[OnDevice(0, 1) := 6]][OnDevice(0, 2) := map[OnDevice(0, 0) := 3, OnDevice(0, 1) := 6]], [])
  }

  function StackedBlocksWithoutEvent3State14(): SimState
  {
    SimState(map[][0 := Mark(OnDevice(0, 0), 3, map[])][1 := Mark(OnDevice(0, 1), 6, map[])][2 := Mark(OnDevice(0, 2), 13, map[OnDevice(0, 0) := 3, OnDevice(0, 1) := 6])], map[][OnDevice(0, 2) := map[OnDevice(0, 1) := 6]][OnDevice(0, 2) := map[OnDevice(0, 0) := 3, OnDevice(0, 1) := 6]], [])
  }

  function StackedBlocksWithoutEvent3State15(): SimState
  {
    SimState(map[][0 := Mark(OnDevice(0, 0), 3, map[])][1 := Mark(OnDevice(0, 1), 6, map[])][2 := Mark(OnDevice(0, 2), 13, map[OnDevice(0, 0) := 3, OnDevice(0, 1) := 6])], map[][OnDevice(0, 2) := map[OnDevice(0, 1) := 6]][OnDevice(0, 2) := map[OnDevice(0, 0) := 3, OnDevice(0, 1) := 6]], [])
  }

  function StackedBlocksWithoutEvent3State16(): SimState
  {
    SimState(map[][0 := Mark(OnDevice(0, 0), 3, map[])][1 := Mark(OnDevice(0, 1), 6, map[])][2 := Mark(OnDevice(0, 2), 13, map[OnDevice(0, 0) := 3, OnDevice(0, 1) := 6])], map[][OnDevice(0, 2) := map[OnDevice(0, 1) := 6]][OnDevice(0, 2) := map[OnDevice(0, 0) := 3, OnDevice(0, 1) := 6]], [])
  }

  function StackedBlocksWithoutEvent3State17(): SimState
  {
    SimState(map[][0 := Mark(OnDevice(0, 0), 3, map[])][1 := Mark(OnDevice(0, 1), 6, map[])][2 := Mark(OnDevice(0, 2), 13, map[OnDevice(0, 0) := 3, OnDevice(0, 1) := 6])], map[][OnDevice(0, 2) := map[OnDevice(0, 1) := 6]][OnDevice(0, 2) := map[OnDevice(0, 0) := 3, OnDevice(0, 1) := 6]], [])
  }

  function StackedBlocksWithoutEvent3State18(): SimState
  {
    SimState(map[][0 := Mark(OnDevice(0, 0), 3, map[])][1 := Mark(OnDevice(0, 1), 6, map[])][2 := Mark(OnDevice(0, 2), 13, map[OnDevice(0, 0) := 3, OnDevice(0, 1) := 6])], map[][OnDevice(0, 2) := map[OnDevice(0, 1) := 6]][OnDevice(0, 2) := map[OnDevice(0, 0) := 3, OnDevice(0, 1) := 6]][OnDevice(0, 1) := map[OnDevice(0, 0) := 3, OnDevice(0, 1) := 6, OnDevice(0, 2) := 13]], [])
  }

  function StackedBlocksWithoutEvent3State19(): SimState
  {
    SimState(map[][0 := Mark(OnDevice(0, 0), 3, map[])][1 := Mark(OnDevice(0, 1), 6, map[])][2 := Mark(OnDevice(0, 2), 13, map[OnDevice(0, 0) := 3, OnDevice(0, 1) := 6])], map[][OnDevice(0, 2) := map[OnDevice(0, 1) := 6]][OnDevice(0, 2) := map[OnDevice(0, 0) := 3, OnDevice(0, 1) := 6]][OnDevice(0, 1) := map[OnDevice(0, 0) := 3, OnDevice(0, 1) := 6, OnDevice(0, 2) := 13]], [])
  }

  function StackedBlocksWithoutEvent3State20(): SimState
  {
    SimState(map[][0 := Mark(OnDevice(0, 0), 3, map[])][1 := Mark(OnDevice(0, 1), 6, map[])][2 := Mark(OnDevice(0, 2), 13, map[OnDevice(0, 0) := 3, OnDevice(0, 1) := 6])][4 := Mark(OnDevice(0, 1), 19, map[OnDevice(0, 0) := 3, OnDevice(0, 1) := 6, OnDevice(0, 2) := 13])], map[][OnDevice(0, 2) := map[OnDevice(0, 1) := 6]][OnDevice(0, 2) := map[OnDevice(0, 0) := 3, OnDevice(0, 1) := 6]][OnDevice(0, 1) := map[OnDevice(0, 0) := 3, OnDevice(0, 1) := 6, OnDevice(0, 2) := 13]], [])
  }

  function StackedBlocksWithoutEvent3State21(): SimState
  {
    SimState(map[][0 := Mark(OnDevice(0, 0), 3, map[])][1 := Mark(OnDevice(0, 1), 6, map[])][2 := Mark(OnDevice(0, 2), 13, map[OnDevice(0, 0) := 3, OnDevice(0, 1) := 6])][4 := Mark(OnDevice(0, 1), 19, map[OnDevice(0, 0) := 3, OnDevice(0, 1) := 6, OnDevice(0, 2) := 13])], map[][OnDevice(0, 2) := map[OnDevice(0, 1) := 6]][OnDevice(0, 2) := map[OnDevice(0, 0) := 3, OnDevice(0, 1) := 6]][OnDevice(0, 1) := map[OnDevice(0, 0) := 3, OnDevice(0, 1) := 6, OnDevice(0, 2) := 13]], [])
  }

  function StackedBlocksWithoutEvent3State22(): SimState
  {
    SimState(map[][0 := Mark(OnDevice(0, 0), 3, map[])][1 := Mark(OnDevice(0, 1), 6, map[])][2 := Mark(OnDevice(0, 2), 13, map[OnDevice(0, 0) := 3, OnDevice(0, 1) := 6])][4 := Mark(OnDevice(0, 1), 19, map[OnDevice(0, 0) := 3, OnDevice(0, 1) := 6, OnDevice(0, 2) := 13])], map[][OnDevice(0, 2) := map[OnDevice(0, 1) := 6]][OnDevice(0, 2) := map[OnDevice(0, 0) := 3, OnDevice(0, 1) := 6]][OnDevice(0, 1) := map[OnDevice(0, 0) := 3, OnDevice(0, 1) := 6, OnDevice(0, 2) := 13]][OnDevice(0, 0) := map[OnDevice(0, 0) := 3, OnDevice(0, 1) := 6, OnDevice(0, 2) := 13]], [])
  }

  function StackedBlocksWithoutEvent3State23(): SimState
  {
    SimState(map[][0 := Mark(OnDevice(0, 0), 3, map[])][1 := Mark(OnDevice(0, 1), 6, map[])][2 := Mark(OnDevice(0, 2), 13, map[OnDevice(0, 0) := 3, OnDevice(0, 1) := 6])][4 := Mark(OnDevice(0, 1), 19, map[OnDevice(0, 0) := 3, OnDevice(0, 1) := 6, OnDevice(0, 2) := 13])], map[][OnDevice(0, 2) := map[OnDevice(0, 1) := 6]][OnDevice(0, 2) := map[OnDevice(0, 0) := 3, OnDevice(0, 1) := 6]][OnDevice(0, 1) := map[OnDevice(0, 0) := 3, OnDevice(0, 1) := 6, OnDevice(0, 2) := 13]][OnDevice(0, 0) := map[OnDevice(0, 0) := 3, OnDevice(0, 1) := 6, OnDevice(0, 2) := 13]], [])
  }

  function StackedBlocksWithoutEvent3State24(): SimState
  {
    SimState(map[][0 := Mark(OnDevice(0, 0), 3, map[])][1 := Mark(OnDevice(0, 1), 6, map[])][2 := Mark(OnDevice(0, 2), 13, map[OnDevice(0, 0) := 3, OnDevice(0, 1) := 6])][4 := Mark(OnDevice(0, 1), 19, map[OnDevice(0, 0) := 3, OnDevice(0, 1) := 6, OnDevice(0, 2) := 13])], map[][OnDevice(0, 2) := map[OnDevice(0, 1) := 6]][OnDevice(0, 2) := map[OnDevice(0, 0) := 3, OnDevice(0, 1) := 6]][OnDevice(0, 1) := map[OnDevice(0, 0) := 3, OnDevice(0, 1) := 6, OnDevice(0, 2) := 13]][OnDevice(0, 0) := map[OnDevice(0, 0) := 3, OnDevice(0, 1) := 6, OnDevice(0, 2) := 13]][OnDevice(0, 0) := map[OnDevice(0, 0) := 3, OnDevice(0, 1) := 19, OnDevice(0, 2) := 13]], [])
  }

  function StackedBlocksWithoutEvent3State25(): SimState
  {
    SimState(map[][0 := Mark(OnDevice(0, 0), 3, map[])][1 := Mark(OnDevice(0, 1), 6, map[])][2 := Mark(OnDevice(0, 2), 13, map[OnDevice(0, 0) := 3, OnDevice(0, 1) := 6])][4 := Mark(OnDevice(0, 1), 19, map[OnDevice(0, 0) := 3, OnDevice(0, 1) := 6, OnDevice(0, 2) := 13])], map[][OnDevice(0, 2) := map[OnDevice(0, 1) := 6]][OnDevice(0, 2) := map[OnDevice(0, 0) := 3, OnDevice(0, 1) := 6]][OnDevice(0, 1) := map[OnDevice(0, 0) := 3, OnDevice(0, 1) := 6, OnDevice(0, 2) := 13]][OnDevice(0, 0) := map[OnDevice(0, 0) := 3, OnDevice(0, 1) := 6, OnDevice(0, 2) := 13]][OnDevice(0, 0) := map[OnDevice(0, 0) := 3, OnDevice(0, 1) := 19, OnDevice(0, 2) := 13]], [Hazard(15, 24, OnDevice(0, 2), OnDevice(0, 0))])
  }

  function StackedBlocksWithoutEvent3State26(): SimState
  {
    SimState(map[][0 := Mark(OnDevice(0, 0), 3, map[])][1 := Mark(OnDevice(0, 1), 6, map[])][2 := Mark(OnDevice(0, 2), 13, map[OnDevice(0, 0) := 3, OnDevice(0, 1) := 6])][4 := Mark(OnDevice(0, 1), 19, map[OnDevice(0, 0) := 3, OnDevice(0, 1) := 6, OnDevice(0, 2) := 13])], map[][OnDevice(0, 2) := map[OnDevice(0, 1) := 6]][OnDevice(0, 2) := map[OnDevice(0, 0) := 3, OnDevice(0, 1) := 6]][OnDevice(0, 1) := map[OnDevice(0, 0) := 3, OnDevice(0, 1) := 6, OnDevice(0, 2) := 13]][OnDevice(0, 0) := map[OnDevice(0, 0) := 3, OnDevice(0, 1) := 6, OnDevice(0, 2) := 13]][OnDevice(0, 0) := map[OnDevice(0, 0) := 3, OnDevice(0, 1) := 19, OnDevice(0, 2) := 13]], [Hazard(15, 24, OnDevice(0, 2), OnDevice(0, 0))])
  }

  lemma StackedBlocksWithoutEvent3Advance0(removed: set<EventId>, g: seq<Node>, defs: seq<map<VarId, nat>>)
    requires 0 !in removed && 1 !in removed && 2 !in removed && 3 in removed && 4 !in removed
    requires |g| == 26
    requires g[0] == Node(SetStream(0, 0), OnDevice(0, 0), [])
    requires |defs| == 27
    requires defs[0] == map[]
    requires defs[1] == map[0 := 0]
    ensures |StackedBlocks(removed)| == 26 && Advances(StackedBlocks(removed), g, defs, 0)
  {
    var p := StackedBlocks(removed);
    assert p[0] == Let(0, SetStream(0, 0));
  }

  lemma StackedBlocksWithoutEvent3Advance1(removed: set<EventId>, g: seq<Node>, defs: seq<map<VarId, nat>>)
    requires 0 !in removed && 1 !in removed && 2 !in removed && 3 in removed && 4 !in removed
    requires |g| == 26
    requires g[0] == Node(SetStream(0, 0), OnDevice(0, 0), [])
    requires g[1] == Node(Atan(X), OnDevice(0, 0), [])
    requires |defs| == 27
    requires defs[1] == map[0 := 0]
    requires defs[2] == map[0 := 0, 1 := 1]
    ensures |StackedBlocks(removed)| == 26 && Advances(StackedBlocks(removed), g, defs, 1)
  {
    var p := StackedBlocks(removed);
    assert p[1] == Let(1, Atan(X));
  }

  lemma StackedBlocksWithoutEvent3Advance2(removed: set<EventId>, g: seq<Node>, defs: seq<map<VarId, nat>>)
    requires 0 !in removed && 1 !in removed && 2 !in removed && 3 in removed && 4 !in removed
    requires |g| == 26
    requires g[1] == Node(Atan(X), OnDevice(0, 0), [])
    requires g[2] == Node(Atan(LetVar(1)), OnDevice(0, 0), [1])
    requires |defs| == 27
    requires defs[2] == map[0 := 0, 1 := 1]
    requires defs[3] == map[0 := 0, 1 := 1, 2 := 2]
    ensures |StackedBlocks(removed)| == 26 && Advances(StackedBlocks(removed), g, defs, 2)
  {
    var p := StackedBlocks(removed);
    assert p[2] == Let(2, Atan(LetVar(1)));
  }

  lemma StackedBlocksWithoutEvent3Advance3(removed: set<EventId>, g: seq<Node>, defs: seq<map<VarId, nat>>)
    requires 0 !in removed && 1 !in removed && 2 !in removed && 3 in removed && 4 !in removed
    requires |g| == 26
    requires g[2] == Node(Atan(LetVar(1)), OnDevice(0, 0), [1])
    requires g[3] == Node(AddEvent(0), OnDevice(0, 0), [])
    requires |defs| == 27
    requires defs[3] == map[0 := 0, 1 := 1, 2 := 2]
    requires defs[4] == map[0 := 0, 1 := 1, 2 := 2, 3 := 3]
    ensures |StackedBlocks(removed)| == 26 && Advances(StackedBlocks(removed), g, defs, 3)
  {
    var p := StackedBlocks(removed);
    assert p[3] == Let(3, AddEvent(0));
  }

  lemma StackedBlocksWithoutEvent3Advance4(removed: set<EventId>, g: seq<Node>, defs: seq<map<VarId, nat>>)
    requires 0 !in removed && 1 !in removed && 2 !in removed && 3 in removed && 4 !in removed
    requires |g| == 26
    requires g[3] == Node(AddEvent(0), OnDevice(0, 0), [])
    requires g[4] == Node(SetStream(0, 1), OnDevice(0, 1), [])
    requires |defs| == 27
    requires defs[4] == map[0 := 0, 1 := 1, 2 := 2, 3 := 3]
    requires defs[5] == map[0 := 0, 1 := 1, 2 := 2, 3 := 3, 4 := 4]
    ensures |StackedBlocks(removed)| == 26 && Advances(StackedBlocks(removed), g, defs, 4)
  {
    var p := StackedBlocks(removed);
    assert p[4] == Let(4, SetStream(0, 1));
  }

  lemma StackedBlocksWithoutEvent3Advance5(removed: set<EventId>, g: seq<Node>, defs: seq<map<VarId, nat>>)
    requires 0 !in removed && 1 !in removed && 2 !in removed && 3 in removed && 4 !in removed
    requires |g| == 26
    requires g[4] == Node(SetStream(0, 1), OnDevice(0, 1), [])
    requires g[5] == Node(Atan(X), OnDevice(0, 1), [])
    requires |defs| == 27
    requires defs[5] == map[0 := 0, 1 := 1, 2 := 2, 3 := 3, 4 := 4]
    requires defs[6] == map[0 := 0, 1 := 1, 2 := 2, 3 := 3, 4 := 4, 5 := 5]
    ensures |StackedBlocks(removed)| == 26 && Advances(StackedBlocks(removed), g, defs, 5)
  {
    var p := StackedBlocks(removed);
    assert p[5] == Let(5, Atan(X));
  }

  lemma StackedBlocksWithoutEvent3Advance6(removed: set<EventId>, g: seq<Node>, defs: seq<map<VarId, nat>>)
    requires 0 !in removed && 1 !in removed && 2 !in removed && 3 in removed && 4 !in removed
    requires |g| == 26
    requires g[5] == Node(Atan(X), OnDevice(0, 1), [])
    requires g[6] == Node(AddEvent(1), OnDevice(0, 1), [])
    requires |defs| == 27
    requires defs[6] == map[0 := 0, 1 := 1, 2 := 2, 3 := 3, 4 := 4, 5 := 5]
    requires defs[7] == map[0 := 0, 1 := 1, 2 := 2, 3 := 3, 4 := 4, 5 := 5, 6 := 6]
    ensures |StackedBlocks(removed)| == 26 && Advances(StackedBlocks(removed), g, defs, 6)
  {
    var p := StackedBlocks(removed);
    assert p[6] == Let(6, AddEvent(1));
  }

  lemma StackedBlocksWithoutEvent3Advance7(removed: set<EventId>, g: seq<Node>, defs: seq<map<VarId, nat>>)
    requires 0 !in removed && 1 !in removed && 2 !in removed && 3 in removed && 4 !in removed
    requires |g| == 26
    requires g[6] == Node(AddEvent(1), OnDevice(0, 1), [])
    requires g[7] == Node(SetStream(0, 2), OnDevice(0, 2), [])
    requires |defs| == 27
    requires defs[7] == map[0 := 0, 1 := 1, 2 := 2, 3 := 3, 4 := 4, 5 := 5, 6 := 6]
    requires defs[8] == map[0 := 0, 1 := 1, 2 := 2, 3 := 3, 4 := 4, 5 := 5, 6 := 6, 7 := 7]
    ensures |StackedBlocks(removed)| == 26 && Advances(StackedBlocks(removed), g, defs, 7)
  {
    var p := StackedBlocks(removed);
    assert p[7] == Let(7, SetStream(0, 2));
  }

  lemma StackedBlocksWithoutEvent3Advance8(removed: set<EventId>, g: seq<Node>, defs: seq<map<VarId, nat>>)
    requires 0 !in removed && 1 !in removed && 2 !in removed && 3 in removed && 4 !in removed
    requires |g| == 26
    requires g[7] == Node(SetStream(0, 2), OnDevice(0, 2), [])
    requires g[8] == Node(Atan(X), OnDevice(0, 2), [])
    requires |defs| == 27
    requires defs[8] == map[0 := 0, 1 := 1, 2 := 2, 3 := 3, 4 := 4, 5 := 5, 6 := 6, 7 := 7]
    requires defs[9] == map[0 := 0, 1 := 1, 2 := 2, 3 := 3, 4 := 4, 5 := 5, 6 := 6, 7 := 7, 8 := 8]
    ensures |StackedBlocks(removed)| == 26 && Advances(StackedBlocks(removed), g, defs, 8)
  {
    var p := StackedBlocks(removed);
    assert p[8] == Let(8, Atan(X));
  }

  lemma StackedBlocksWithoutEvent3Advance9(removed: set<EventId>, g: seq<Node>, defs: seq<map<VarId, nat>>)
    requires 0 !in removed && 1 !in removed && 2 !in removed && 3 in removed && 4 !in removed
    requires |g| == 26
    requires g[8] == Node(Atan(X), OnDevice(0, 2), [])
    requires g[9] == Node(WaitEvent(1), OnDevice(0, 2), [])
    requires |defs| == 27
    requires defs[9] == map[0 := 0, 1 := 1, 2 := 2, 3 := 3, 4 := 4, 5 := 5, 6 := 6, 7 := 7, 8 := 8]
    requires defs[10] == map[0 := 0, 1 := 1, 2 := 2, 3 := 3, 4 := 4, 5 := 5, 6 := 6, 7 := 7, 8 := 8, 9 := 9]
    ensures |StackedBlocks(removed)| == 26 && Advances(StackedBlocks(removed), g, defs, 9)
  {
    var p := StackedBlocks(removed);
    assert p[9] == Let(9, WaitEvent(1));
  }

  lemma StackedBlocksWithoutEvent3Advance10(removed: set<EventId>, g: seq<Node>, defs: seq<map<VarId, nat>>)
    requires 0 !in removed && 1 !in removed && 2 !in removed && 3 in removed && 4 !in removed
    requires |g| == 26
    requires g[9] == Node(WaitEvent(1), OnDevice(0, 2), [])
    requires g[10] == Node(WaitEvent(0), OnDevice(0, 2), [])
    requires |defs| == 27
    requires defs[10] == map[0 := 0, 1 := 1, 2 := 2, 3 := 3, 4 := 4, 5 := 5, 6 := 6, 7 := 7, 8 := 8, 9 := 9]
    requires defs[11] == map[0 := 0, 1 := 1, 2 := 2, 3 := 3, 4 := 4, 5 := 5, 6 := 6, 7 := 7, 8 := 8, 9 := 9, 10 := 10]
    ensures |StackedBlocks(removed)| == 26 && Advances(StackedBlocks(removed), g, defs, 10)
  {
    var p := StackedBlocks(removed);
    assert p[10] == Let(10, WaitEvent(0));
  }

  lemma StackedBlocksWithoutEvent3Advance11(removed: set<EventId>, g: seq<Node>, defs: seq<map<VarId, nat>>)
    requires 0 !in removed && 1 !in removed && 2 !in removed && 3 in removed && 4 !in removed
    requires |g| == 26
    requires g[10] == Node(WaitEvent(0), OnDevice(0, 2), [])
    requires g[11] == Node(MakeTuple([LetVar(8), LetVar(5), LetVar(2)]), OnDevice(0, 2), [8, 5, 2])
    requires |defs| == 27
    requires defs[11] == map[0 := 0, 1 := 1, 2 := 2, 3 := 3, 4 := 4, 5 := 5, 6 := 6, 7 := 7, 8 := 8, 9 := 9, 10 := 10]
    requires defs[12] == map[0 := 0, 1 := 1, 2 := 2, 3 := 3, 4 := 4, 5 := 5, 6 := 6, 7 := 7, 8 := 8, 9 := 9, 10 := 10, 11 := 11]
    ensures |StackedBlocks(removed)| == 26 && Advances(StackedBlocks(removed), g, defs, 11)
  {
    var p := StackedBlocks(removed);
    assert p[11] == Let(11, MakeTuple([LetVar(8), LetVar(5), LetVar(2)]));
  }

  lemma StackedBlocksWithoutEvent3Advance12(removed: set<EventId>, g: seq<Node>, defs: seq<map<VarId, nat>>)
    requires 0 !in removed && 1 !in removed && 2 !in removed && 3 in removed && 4 !in removed
    requires |g| == 26
    requires g[11] == Node(MakeTuple([LetVar(8), LetVar(5), LetVar(2)]), OnDevice(0, 2), [8, 5, 2])
    requires g[12] == Node(Concatenate(LetVar(11), 0), OnDevice(0, 2), [11])
    requires |defs| == 27
    requires defs[12] == map[0 := 0, 1 := 1, 2 := 2, 3 := 3, 4 := 4, 5 := 5, 6 := 6, 7 := 7, 8 := 8, 9 := 9, 10 := 10, 11 := 11]
    requires defs[13] == map[0 := 0, 1 := 1, 2 := 2, 3 := 3, 4 := 4, 5 := 5, 6 := 6, 7 := 7, 8 := 8, 9 := 9, 10 := 10, 11 := 11, 12 := 12]
    ensures |StackedBlocks(removed)| == 26 && Advances(StackedBlocks(removed), g, defs, 12)
  {
    var p := StackedBlocks(removed);
    assert p[12] == Let(12, Concatenate(LetVar(11), 0));
  }

  lemma StackedBlocksWithoutEvent3Advance13(removed: set<EventId>, g: seq<Node>, defs: seq<map<VarId, nat>>)
    requires 0 !in removed && 1 !in removed && 2 !in removed && 3 in removed && 4 !in removed
    requires |g| == 26
    requires g[12] == Node(Concatenate(LetVar(11), 0), OnDevice(0, 2), [11])
    requires g[13] == Node(AddEvent(2), OnDevice(0, 2), [])
    requires |defs| == 27
    requires defs[13] == map[0 := 0, 1 := 1, 2 := 2, 3 := 3, 4 := 4, 5 := 5, 6 := 6, 7 := 7, 8 := 8, 9 := 9, 10 := 10, 11 := 11, 12 := 12]
    requires defs[14] == map[0 := 0, 1 := 1, 2 := 2, 3 := 3, 4 := 4, 5 := 5, 6 := 6, 7 := 7, 8 := 8, 9 := 9, 10 := 10, 11 := 11, 12 := 12, 13 := 13]
    ensures |StackedBlocks(removed)| == 26 && Advances(StackedBlocks(removed), g, defs, 13)
  {
    var p := StackedBlocks(removed);
    assert p[13] == Let(13, AddEvent(2));
  }

  lemma StackedBlocksWithoutEvent3Advance14(removed: set<EventId>, g: seq<Node>, defs: seq<map<VarId, nat>>)
    requires 0 !in removed && 1 !in removed && 2 !in removed && 3 in removed && 4 !in removed
    requires |g| == 26
    requires g[13] == Node(AddEvent(2), OnDevice(0, 2), [])
    requires g[14] == Node(Atan(LetVar(12)), OnDevice(0, 2), [12])
    requires |defs| == 27
    requires defs[14] == map[0 := 0, 1 := 1, 2 := 2, 3 := 3, 4 := 4, 5 := 5, 6 := 6, 7 := 7, 8 := 8, 9 := 9, 10 := 10, 11 := 11, 12 := 12, 13 := 13]
    requires defs[15] == map[0 := 0, 1 := 1, 2 := 2, 3 := 3, 4 := 4, 5 := 5, 6 := 6, 7 := 7, 8 := 8, 9 := 9, 10 := 10, 11 := 11, 12 := 12, 13 := 13, 14 := 14]
    ensures |StackedBlocks(removed)| == 26 && Advances(StackedBlocks(removed), g, defs, 14)
  {
    var p := StackedBlocks(removed);
    assert p[14] == Let(14, Atan(LetVar(12)));
  }

  lemma StackedBlocksWithoutEvent3Advance15(removed: set<EventId>, g: seq<Node>, defs: seq<map<VarId, nat>>)
    requires 0 !in removed && 1 !in removed && 2 !in removed && 3 in removed && 4 !in removed
    requires |g| == 26
    requires g[14] == Node(Atan(LetVar(12)), OnDevice(0, 2), [12])
    requires g[15] == Node(Atan(LetVar(14)), OnDevice(0, 2), [14])
    requires |defs| == 27
    requires defs[15] == map[0 := 0, 1 := 1, 2 := 2, 3 := 3, 4 := 4, 5 := 5, 6 := 6, 7 := 7, 8 := 8, 9 := 9, 10 := 10, 11 := 11, 12 := 12, 13 := 13, 14 := 14]
    requires defs[16] == map[0 := 0, 1 := 1, 2 := 2, 3 := 3, 4 := 4, 5 := 5, 6 := 6, 7 := 7, 8 := 8, 9 := 9, 10 := 10, 11 := 11, 12 := 12, 13 := 13, 14 := 14, 15 := 15]
    ensures |StackedBlocks(removed)| == 26 && Advances(StackedBlocks(removed), g, defs, 15)
  {
    var p := StackedBlocks(removed);
    assert p[15] == Let(15, Atan(LetVar(14)));
  }

  lemma StackedBlocksWithoutEvent3Advance16(removed: set<EventId>, g: seq<Node>, defs: seq<map<VarId, nat>>)
    requires 0 !in removed && 1 !in removed && 2 !in removed && 3 in removed && 4 !in removed
    requires |g| == 26
    requires g[15] == Node(Atan(LetVar(14)), OnDevice(0, 2), [14])
    requires g[16] == Node(SetStream(0, 1), OnDevice(0, 1), [])
    requires |defs| == 27
    requires defs[16] == map[0 := 0, 1 := 1, 2 := 2, 3 := 3, 4 := 4, 5 := 5, 6 := 6, 7 := 7, 8 := 8, 9 := 9, 10 := 10, 11 := 11, 12 := 12, 13 := 13, 14 := 14, 15 := 15]
    requires defs[17] == map[0 := 0, 1 := 1, 2 := 2, 3 := 3, 4 := 4, 5 := 5, 6 := 6, 7 := 7, 8 := 8, 9 := 9, 10 := 10, 11 := 11, 12 := 12, 13 := 13, 14 := 14, 15 := 15, 17 := 16]
    ensures |StackedBlocks(removed)| == 26 && Advances(StackedBlocks(removed), g, defs, 16)
  {
    var p := StackedBlocks(removed);
    assert p[16] == Let(17, SetStream(0, 1));
  }

  lemma StackedBlocksWithoutEvent3Advance17(removed: set<EventId>, g: seq<Node>, defs: seq<map<VarId, nat>>)
    requires 0 !in removed && 1 !in removed && 2 !in removed && 3 in removed && 4 !in removed
    requires |g| == 26
    requires g[16] == Node(SetStream(0, 1), OnDevice(0, 1), [])
    requires g[17] == Node(WaitEvent(2), OnDevice(0, 1), [])
    requires |defs| == 27
    requires defs[17] == map[0 := 0, 1 := 1, 2 := 2, 3 := 3, 4 := 4, 5 := 5, 6 := 6, 7 := 7, 8 := 8, 9 := 9, 10 := 10, 11 := 11, 12 := 12, 13 := 13, 14 := 14, 15 := 15, 17 := 16]
    requires defs[18] == map[0 := 0, 1 := 1, 2 := 2, 3 := 3, 4 := 4, 5 := 5, 6 := 6, 7 := 7, 8 := 8, 9 := 9, 10 := 10, 11 := 11, 12 := 12, 13 := 13, 14 := 14, 15 := 15, 17 := 16, 18 := 17]
    ensures |StackedBlocks(removed)| == 26 && Advances(StackedBlocks(removed), g, defs, 17)
  {
    var p := StackedBlocks(removed);
    assert p[17] == Let(18, WaitEvent(2));
  }

  lemma StackedBlocksWithoutEvent3Advance18(removed: set<EventId>, g: seq<Node>, defs: seq<map<VarId, nat>>)
    requires 0 !in removed && 1 !in removed && 2 !in removed && 3 in removed && 4 !in removed
    requires |g| == 26
    requires g[17] == Node(WaitEvent(2), OnDevice(0, 1), [])
    requires g[18] == Node(Atan(LetVar(12)), OnDevice(0, 1), [12])
    requires |defs| == 27
    requires defs[18] == map[0 := 0, 1 := 1, 2 := 2, 3 := 3, 4 := 4, 5 := 5, 6 := 6, 7 := 7, 8 := 8, 9 := 9, 10 := 10, 11 := 11, 12 := 12, 13 := 13, 14 := 14, 15 := 15, 17 := 16, 18 := 17]
    requires defs[19] == map[0 := 0, 1 := 1, 2 := 2, 3 := 3, 4 := 4, 5 := 5, 6 := 6, 7 := 7, 8 := 8, 9 := 9, 10 := 10, 11 := 11, 12 := 12, 13 := 13, 14 := 14, 15 := 15, 17 := 16, 18 := 17, 19 := 18]
    ensures |StackedBlocks(removed)| == 26 && Advances(StackedBlocks(removed), g, defs, 18)
  {
    var p := StackedBlocks(removed);
    assert p[18] == Let(19, Atan(LetVar(12)));
  }

  lemma StackedBlocksWithoutEvent3Advance19(removed: set<EventId>, g: seq<Node>, defs: seq<map<VarId, nat>>)
    requires 0 !in removed && 1 !in removed && 2 !in removed && 3 in removed && 4 !in removed
    requires |g| == 26
    requires g[18] == Node(Atan(LetVar(12)), OnDevice(0, 1), [12])
    requires g[19] == Node(AddEvent(4), OnDevice(0, 1), [])
    requires |defs| == 27
    requires defs[19] == map[0 := 0, 1 := 1, 2 := 2, 3 := 3, 4 := 4, 5 := 5, 6 := 6, 7 := 7, 8 := 8, 9 := 9, 10 := 10, 11 := 11, 12 := 12, 13 := 13, 14 := 14, 15 := 15, 17 := 16, 18 := 17, 19 := 18]
    requires defs[20] == map[0 := 0, 1 := 1, 2 := 2, 3 := 3, 4 := 4, 5 := 5, 6 := 6, 7 := 7, 8 := 8, 9 := 9, 10 := 10, 11 := 11, 12 := 12, 13 := 13, 14 := 14, 15 := 15, 17 := 16, 18 := 17, 19 := 18, 20 := 19]
    ensures |StackedBlocks(removed)| == 26 && Advances(StackedBlocks(removed), g, defs, 19)
  {
    var p := StackedBlocks(removed);
    assert p[19] == Let(20, AddEvent(4));
  }

  lemma StackedBlocksWithoutEvent3Advance20(removed: set<EventId>, g: seq<Node>, defs: seq<map<VarId, nat>>)
    requires 0 !in removed && 1 !in removed && 2 !in removed && 3 in removed && 4 !in removed
    requires |g| == 26
    requires g[19] == Node(AddEvent(4), OnDevice(0, 1), [])
    requires g[20] == Node(SetStream(0, 0), OnDevice(0, 0), [])
    requires |defs| == 27
    requires defs[20] == map[0 := 0, 1 := 1, 2 := 2, 3 := 3, 4 := 4, 5 := 5, 6 := 6, 7 := 7, 8 := 8, 9 := 9, 10 := 10, 11 := 11, 12 := 12, 13 := 13, 14 := 14, 15 := 15, 17 := 16, 18 := 17, 19 := 18, 20 := 19]
    requires defs[21] == map[0 := 0, 1 := 1, 2 := 2, 3 := 3, 4 := 4, 5 := 5, 6 := 6, 7 := 7, 8 := 8, 9 := 9, 10 := 10, 11 := 11, 12 := 12, 13 := 13, 14 := 14, 15 := 15, 17 := 16, 18 := 17, 19 := 18, 20 := 19, 21 := 20]
    ensures |StackedBlocks(removed)| == 26 && Advances(StackedBlocks(removed), g, defs, 20)
  {
    var p := StackedBlocks(removed);
    assert p[20] == Let(21, SetStream(0, 0));
  }

  lemma StackedBlocksWithoutEvent3Advance21(removed: set<EventId>, g: seq<Node>, defs: seq<map<VarId, nat>>)
    requires 0 !in removed && 1 !in removed && 2 !in removed && 3 in removed && 4 !in removed
    requires |g| == 26
    requires g[20] == Node(SetStream(0, 0), OnDevice(0, 0), [])
    requires g[21] == Node(WaitEvent(2), OnDevice(0, 0), [])
    requires |defs| == 27
    requires defs[21] == map[0 := 0, 1 := 1, 2 := 2, 3 := 3, 4 := 4, 5 := 5, 6 := 6, 7 := 7, 8 := 8, 9 := 9, 10 := 10, 11 := 11, 12 := 12, 13 := 13, 14 := 14, 15 := 15, 17 := 16, 18 := 17, 19 := 18, 20 := 19, 21 := 20]
    requires defs[22] == map[0 := 0, 1 := 1, 2 := 2, 3 := 3, 4 := 4, 5 := 5, 6 := 6, 7 := 7, 8 := 8, 9 := 9, 10 := 10, 11 := 11, 12 := 12, 13 := 13, 14 := 14, 15 := 15, 17 := 16, 18 := 17, 19 := 18, 20 := 19, 21 := 20, 22 := 21]
    ensures |StackedBlocks(removed)| == 26 && Advances(StackedBlocks(removed), g, defs, 21)
  {
    var p := StackedBlocks(removed);
    assert p[21] == Let(22, WaitEvent(2));
  }

  lemma StackedBlocksWithoutEvent3Advance22(removed: set<EventId>, g: seq<Node>, defs: seq<map<VarId, nat>>)
    requires 0 !in removed && 1 !in removed && 2 !in removed && 3 in removed && 4 !in removed
    requires |g| == 26
    requires g[21] == Node(WaitEvent(2), OnDevice(0, 0), [])
    requires g[22] == Node(Atan(LetVar(12)), OnDevice(0, 0), [12])
    requires |defs| == 27
    requires defs[22] == map[0 := 0, 1 := 1, 2 := 2, 3 := 3, 4 := 4, 5 := 5, 6 := 6, 7 := 7, 8 := 8, 9 := 9, 10 := 10, 11 := 11, 12 := 12, 13 := 13, 14 := 14, 15 := 15, 17 := 16, 18 := 17, 19 := 18, 20 := 19, 21 := 20, 22 := 21]
    requires defs[23] == map[0 := 0, 1 := 1, 2 := 2, 3 := 3, 4 := 4, 5 := 5, 6 := 6, 7 := 7, 8 := 8, 9 := 9, 10 := 10, 11 := 11, 12 := 12, 13 := 13, 14 := 14, 15 := 15, 17 := 16, 18 := 17, 19 := 18, 20 := 19, 21 := 20, 22 := 21, 23 := 22]
    ensures |StackedBlocks(removed)| == 26 && Advances(StackedBlocks(removed), g, defs, 22)
  {
    var p := StackedBlocks(removed);
    assert p[22] == Let(23, Atan(LetVar(12)));
  }

  lemma StackedBlocksWithoutEvent3Advance23(removed: set<EventId>, g: seq<Node>, defs: seq<map<VarId, nat>>)
    requires 0 !in removed && 1 !in removed && 2 !in removed && 3 in removed && 4 !in removed
    requires |g| == 26
    requires g[22] == Node(Atan(LetVar(12)), OnDevice(0, 0), [12])
    requires g[23] == Node(WaitEvent(4), OnDevice(0, 0), [])
    requires |defs| == 27
    requires defs[23] == map[0 := 0, 1 := 1, 2 := 2, 3 := 3, 4 := 4, 5 := 5, 6 := 6, 7 := 7, 8 := 8, 9 := 9, 10 := 10, 11 := 11, 12 := 12, 13 := 13, 14 := 14, 15 := 15, 17 := 16, 18 := 17, 19 := 18, 20 := 19, 21 := 20, 22 := 21, 23 := 22]
    requires defs[24] == map[0 := 0, 1 := 1, 2 := 2, 3 := 3, 4 := 4, 5 := 5, 6 := 6, 7 := 7, 8 := 8, 9 := 9, 10 := 10, 11 := 11, 12 := 12, 13 := 13, 14 := 14, 15 := 15, 17 := 16, 18 := 17, 19 := 18, 20 := 19, 21 := 20, 22 := 21, 23 := 22, 24 := 23]
    ensures |StackedBlocks(removed)| == 26 && Advances(StackedBlocks(removed), g, defs, 23)
  {
    var p := StackedBlocks(removed);
    assert p[23] == Let(24, WaitEvent(4));
  }

  lemma StackedBlocksWithoutEvent3Advance24(removed: set<EventId>, g: seq<Node>, defs: seq<map<VarId, nat>>)
    requires 0 !in removed && 1 !in removed && 2 !in removed && 3 in removed && 4 !in removed
    requires |g| == 26
    requires g[23] == Node(WaitEvent(4), OnDevice(0, 0), [])
    requires g[24] == Node(MakeTuple([LetVar(23), LetVar(19), LetVar(15)]), OnDevice(0, 0), [22, 18, 15])
    requires |defs| == 27
    requires defs[24] == map[0 := 0, 1 := 1, 2 := 2, 3 := 3, 4 := 4, 5 := 5, 6 := 6, 7 := 7, 8 := 8, 9 := 9, 10 := 10, 11 := 11, 12 := 12, 13 := 13, 14 := 14, 15 := 15, 17 := 16, 18 := 17, 19 := 18, 20 := 19, 21 := 20, 22 := 21, 23 := 22, 24 := 23]
    requires defs[25] == map[0 := 0, 1 := 1, 2 := 2, 3 := 3, 4 := 4, 5 := 5, 6 := 6, 7 := 7, 8 := 8, 9 := 9, 10 := 10, 11 := 11, 12 := 12, 13 := 13, 14 := 14, 15 := 15, 17 := 16, 18 := 17, 19 := 18, 20 := 19, 21 := 20, 22 := 21, 23 := 22, 24 := 23, 26 := 24]
    ensures |StackedBlocks(removed)| == 26 && Advances(StackedBlocks(removed), g, defs, 24)
  {
    var p := StackedBlocks(removed);
    assert p[24] == Let(26, MakeTuple([LetVar(23), LetVar(19), LetVar(15)]));
  }

  lemma StackedBlocksWithoutEvent3Advance25(removed: set<EventId>, g: seq<Node>, defs: seq<map<VarId, nat>>)
    requires 0 !in removed && 1 !in removed && 2 !in removed && 3 in removed && 4 !in removed
    requires |g| == 26
    requires g[24] == Node(MakeTuple([LetVar(23), LetVar(19), LetVar(15)]), OnDevice(0, 0), [22, 18, 15])
    requires g[25] == Node(Concatenate(LetVar(26), 0), OnDevice(0, 0), [24])
    requires |defs| == 27
    requires defs[25] == map[0 := 0, 1 := 1, 2 := 2, 3 := 3, 4 := 4, 5 := 5, 6 := 6, 7 := 7, 8 := 8, 9 := 9, 10 := 10, 11 := 11, 12 := 12, 13 := 13, 14 := 14, 15 := 15, 17 := 16, 18 := 17, 19 := 18, 20 := 19, 21 := 20, 22 := 21, 23 := 22, 24 := 23, 26 := 24]
    requires defs[26] == map[0 := 0, 1 := 1, 2 := 2, 3 := 3, 4 := 4, 5 := 5, 6 := 6, 7 := 7, 8 := 8, 9 := 9, 10 := 10, 11 := 11, 12 := 12, 13 := 13, 14 := 14, 15 := 15, 17 := 16, 18 := 17, 19 := 18, 20 := 19, 21 := 20, 22 := 21, 23 := 22, 24 := 23, 26 := 24, 27 := 25]
    ensures |StackedBlocks(removed)| == 26 && Advances(StackedBlocks(removed), g, defs, 25)
  {
    var p := StackedBlocks(removed);
    assert p[25] == Let(27, Concatenate(LetVar(26), 0));
  }

  lemma StackedBlocksWithoutEvent3Extract0(removed: set<EventId>, g: seq<Node>, defs: seq<map<VarId, nat>>)
    requires 0 !in removed && 1 !in removed && 2 !in removed && 3 in removed && 4 !in removed
    requires StackedBlocksWithoutEvent3Shape(g) && StackedBlocksWithoutEvent3Tables(defs)
    ensures |StackedBlocks(removed)| == 26
    ensures forall j :: 0 <= j < 5 ==> Advances(StackedBlocks(removed), g, defs, j)
  {
    StackedBlocksWithoutEvent3Advance0(removed, g, defs);
    StackedBlocksWithoutEvent3Advance1(removed, g, defs);
    StackedBlocksWithoutEvent3Advance2(removed, g, defs);
    StackedBlocksWithoutEvent3Advance3(removed, g, defs);
    StackedBlocksWithoutEvent3Advance4(removed, g, defs);
    forall j | 0 <= j < 5 ensures Advances(StackedBlocks(removed), g, defs, j) {
      assert j == 0 || j == 1 || j == 2 || j == 3 || j == 4;
    }
  }

  lemma StackedBlocksWithoutEvent3Extract5(removed: set<EventId>, g: seq<Node>, defs: seq<map<VarId, nat>>)
    requires 0 !in removed && 1 !in removed && 2 !in removed && 3 in removed && 4 !in removed
    requires StackedBlocksWithoutEvent3Shape(g) && StackedBlocksWithoutEvent3Tables(defs)
    ensures |StackedBlocks(removed)| == 26
    ensures forall j :: 5 <= j < 10 ==> Advances(StackedBlocks(removed), g, defs, j)
  {
    StackedBlocksWithoutEvent3Advance5(removed, g, defs);
    StackedBlocksWithoutEvent3Advance6(removed, g, defs);
    StackedBlocksWithoutEvent3Advance7(removed, g, defs);
    StackedBlocksWithoutEvent3Advance8(removed, g, defs);
    StackedBlocksWithoutEvent3Advance9(removed, g, defs);
    forall j | 5 <= j < 10 ensures Advances(StackedBlocks(removed), g, defs, j) {
      assert j == 5 || j == 6 || j == 7 || j == 8 || j == 9;
    }
  }

  lemma StackedBlocksWithoutEvent3Extract10(removed: set<EventId>, g: seq<Node>, defs: seq<map<VarId, nat>>)
    requires 0 !in removed && 1 !in removed && 2 !in removed && 3 in removed && 4 !in removed
    requires StackedBlocksWithoutEvent3Shape(g) && StackedBlocksWithoutEvent3Tables(defs)
    ensures |StackedBlocks(removed)| == 26
    ensures forall j :: 10 <= j < 15 ==> Advances(StackedBlocks(removed), g, defs, j)
  {
    StackedBlocksWithoutEvent3Advance10(removed, g, defs);
    StackedBlocksWithoutEvent3Advance11(removed, g, defs);
    StackedBlocksWithoutEvent3Advance12(removed, g, defs);
    StackedBlocksWithoutEvent3Advance13(removed, g, defs);
    StackedBlocksWithoutEvent3Advance14(removed, g, defs);
    forall j | 10 <= j < 15 ensures Advances(StackedBlocks(removed), g, defs, j) {
      assert j == 10 || j == 11 || j == 12 || j == 13 || j == 14;
    }
  }

  lemma StackedBlocksWithoutEvent3Extract15(removed: set<EventId>, g: seq<Node>, defs: seq<map<VarId, nat>>)
    requires 0 !in removed && 1 !in removed && 2 !in removed && 3 in removed && 4 !in removed
    requires StackedBlocksWithoutEvent3Shape(g) && StackedBlocksWithoutEvent3Tables(defs)
    ensures |StackedBlocks(removed)| == 26
    ensures forall j :: 15 <= j < 20 ==> Advances(StackedBlocks(removed), g, defs, j)
  {
    StackedBlocksWithoutEvent3Advance15(removed, g, defs);
    StackedBlocksWithoutEvent3Advance16(removed, g, defs);
    StackedBlocksWithoutEvent3Advance17(removed, g, defs);
    StackedBlocksWithoutEvent3Advance18(removed, g, defs);
    StackedBlocksWithoutEvent3Advance19(removed, g, defs);
    forall j | 15 <= j < 20 ensures Advances(StackedBlocks(removed), g, defs, j) {
      assert j == 15 || j == 16 || j == 17 || j == 18 || j == 19;
    }
  }

  lemma StackedBlocksWithoutEvent3Extract20(removed: set<EventId>, g: seq<Node>, defs: seq<map<VarId, nat>>)
    requires 0 !in removed && 1 !in removed && 2 !in removed && 3 in removed && 4 !in removed
    requires StackedBlocksWithoutEvent3Shape(g) && StackedBlocksWithoutEvent3Tables(defs)
    ensures |StackedBlocks(removed)| == 26
    ensures forall j :: 20 <= j < 25 ==> Advances(StackedBlocks(removed), g, defs, j)
  {
    StackedBlocksWithoutEvent3Advance20(removed, g, defs);
    StackedBlocksWithoutEvent3Advance21(removed, g, defs);
    StackedBlocksWithoutEvent3Advance22(removed, g, defs);
    StackedBlocksWithoutEvent3Advance23(removed, g, defs);
    StackedBlocksWithoutEvent3Advance24(removed, g, defs);
    forall j | 20 <= j < 25 ensures Advances(StackedBlocks(removed), g, defs, j) {
      assert j == 20 || j == 21 || j == 22 || j == 23 || j == 24;
    }
  }

  lemma StackedBlocksWithoutEvent3Extract25(removed: set<EventId>, g: seq<Node>, defs: seq<map<VarId, nat>>)
    requires 0 !in removed && 1 !in removed && 2 !in removed && 3 in removed && 4 !in removed
    requires StackedBlocksWithoutEvent3Shape(g) && StackedBlocksWithoutEvent3Tables(defs)
    ensures |StackedBlocks(removed)| == 26
    ensures forall j :: 25 <= j < 26 ==> Advances(StackedBlocks(removed), g, defs, j)
  {
    StackedBlocksWithoutEvent3Advance25(removed, g, defs);
    forall j | 25 <= j < 26 ensures Advances(StackedBlocks(removed), g, defs, j) {
      assert j == 25;
    }
  }

  lemma StackedBlocksWithoutEvent3NodesShape0()
    ensures |StackedBlocksWithoutEvent3Nodes()| == 26 && StackedBlocksWithoutEvent3Shape0(StackedBlocksWithoutEvent3Nodes())
  {
  }

  lemma StackedBlocksWithoutEvent3NodesShape5()
    ensures |StackedBlocksWithoutEvent3Nodes()| == 26 && StackedBlocksWithoutEvent3Shape5(StackedBlocksWithoutEvent3Nodes())
  {
  }

  lemma StackedBlocksWithoutEvent3NodesShape10()
    ensures |StackedBlocksWithoutEvent3Nodes()| == 26 && StackedBlocksWithoutEvent3Shape10(StackedBlocksWithoutEvent3Nodes())
  {
  }

  lemma StackedBlocksWithoutEvent3NodesShape15()
    ensures |StackedBlocksWithoutEvent3Nodes()| == 26 && StackedBlocksWithoutEvent3Shape15(StackedBlocksWithoutEvent3Nodes())
  {
  }

  lemma StackedBlocksWithoutEvent3NodesShape20()
    ensures |StackedBlocksWithoutEvent3Nodes()| == 26 && StackedBlocksWithoutEvent3Shape20(StackedBlocksWithoutEvent3Nodes())
  {
  }

  lemma StackedBlocksWithoutEvent3NodesShape25()
    ensures |StackedBlocksWithoutEvent3Nodes()| == 26 && StackedBlocksWithoutEvent3Shape25(StackedBlocksWithoutEvent3Nodes())
  {
  }

  lemma StackedBlocksWithoutEvent3DefsTables0()
    ensures |StackedBlocksWithoutEvent3Defs()| == 27 && StackedBlocksWithoutEvent3Tables0(StackedBlocksWithoutEvent3Defs())
  {
  }

  lemma StackedBlocksWithoutEvent3DefsTables5()
    ensures |StackedBlocksWithoutEvent3Defs()| == 27 && StackedBlocksWithoutEvent3Tables5(StackedBlocksWithoutEvent3Defs())
  {
  }

  lemma StackedBlocksWithoutEvent3DefsTables10()
    ensures |StackedBlocksWithoutEvent3Defs()| == 27 && StackedBlocksWithoutEvent3Tables10(StackedBlocksWithoutEvent3Defs())
  {
  }

  lemma StackedBlocksWithoutEvent3DefsTables15()
    ensures |StackedBlocksWithoutEvent3Defs()| == 27 && StackedBlocksWithoutEvent3Tables15(StackedBlocksWithoutEvent3Defs())
  {
  }

  lemma StackedBlocksWithoutEvent3DefsTables20()
    ensures |StackedBlocksWithoutEvent3Defs()| == 27 && StackedBlocksWithoutEvent3Tables20(StackedBlocksWithoutEvent3Defs())
  {
  }

  lemma StackedBlocksWithoutEvent3DefsTables25()
    ensures |StackedBlocksWithoutEvent3Defs()| == 27 && StackedBlocksWithoutEvent3Tables25(StackedBlocksWithoutEvent3Defs())
  {
  }

  /** `Extract` on `StackedBlocks(removed)` yields `StackedBlocksWithoutEvent3Nodes()`. */
  lemma StackedBlocksWithoutEvent3Graph(removed: set<EventId>) returns (g: seq<Node>)
    requires 0 !in removed && 1 !in removed && 2 !in removed && 3 in removed && 4 !in removed
    ensures Extract(StackedBlocks(removed)) == Ok(g) && StackedBlocksWithoutEvent3Shape(g)
  {
    g := StackedBlocksWithoutEvent3Nodes();
    var defs := StackedBlocksWithoutEvent3Defs();
    var p := StackedBlocks(removed);
    StackedBlocksWithoutEvent3NodesShape0();
    StackedBlocksWithoutEvent3NodesShape5();
    StackedBlocksWithoutEvent3NodesShape10();
    StackedBlocksWithoutEvent3NodesShape15();
    StackedBlocksWithoutEvent3NodesShape20();
    StackedBlocksWithoutEvent3NodesShape25();
    StackedBlocksWithoutEvent3DefsTables0();
    StackedBlocksWithoutEvent3DefsTables5();
    StackedBlocksWithoutEvent3DefsTables10();
    StackedBlocksWithoutEvent3DefsTables15();
    StackedBlocksWithoutEvent3DefsTables20();
    StackedBlocksWithoutEvent3DefsTables25();
    StackedBlocksWithoutEvent3Extract0(removed, g, defs);
    StackedBlocksWithoutEvent3Extract5(removed, g, defs);
    StackedBlocksWithoutEvent3Extract10(removed, g, defs);
    StackedBlocksWithoutEvent3Extract15(removed, g, defs);
    StackedBlocksWithoutEvent3Extract20(removed, g, defs);
    StackedBlocksWithoutEvent3Extract25(removed, g, defs);
    ExtractReplays(p, g, defs, 0);
    assert g[..0] == [];
  }

  lemma StackedBlocksWithoutEvent3Simulate0(g: seq<Node>)
    requires WellFormed(g) && |g| == 26
    requires g[0] == Node(SetStream(0, 0), OnDevice(0, 0), [])
    ensures SimulateFrom(g, 0, StackedBlocksWithoutEvent3State0()) == SimulateFrom(g, 1, StackedBlocksWithoutEvent3State1())
  {
    assert Step(g, 0, StackedBlocksWithoutEvent3State0()) == Ok(StackedBlocksWithoutEvent3State1());
    SimulateLink(g, 0, StackedBlocksWithoutEvent3State0(), StackedBlocksWithoutEvent3State1());
  }

  lemma StackedBlocksWithoutEvent3Simulate1(g: seq<Node>)
    requires WellFormed(g) && |g| == 26
    requires g[1] == Node(Atan(X), OnDevice(0, 0), [])
    ensures SimulateFrom(g, 1, StackedBlocksWithoutEvent3State1()) == SimulateFrom(g, 2, StackedBlocksWithoutEvent3State2())
  {
    ReadHazardsSmall(g, g[1].deps, 1, g[1].stream, ClockOf(StackedBlocksWithoutEvent3State1(), g[1].stream));
    assert StackedBlocksWithoutEvent3State1().hazards + ReadHazards(g, g[1].deps, 1, g[1].stream, ClockOf(StackedBlocksWithoutEvent3State1(), g[1].stream)) == StackedBlocksWithoutEvent3State2().hazards;
    assert Step(g, 1, StackedBlocksWithoutEvent3State1()) == Ok(StackedBlocksWithoutEvent3State2());
    SimulateLink(g, 1, StackedBlocksWithoutEvent3State1(), StackedBlocksWithoutEvent3State2());
  }

  lemma StackedBlocksWithoutEvent3Simulate2(g: seq<Node>)
    requires WellFormed(g) && |g| == 26
    requires g[1] == Node(Atan(X), OnDevice(0, 0), [])
    requires g[2] == Node(Atan(LetVar(1)), OnDevice(0, 0), [1])
    ensures SimulateFrom(g, 2, StackedBlocksWithoutEvent3State2()) == SimulateFrom(g, 3, StackedBlocksWithoutEvent3State3())
  {
    ReadHazardsSmall(g, g[2].deps, 2, g[2].stream, ClockOf(StackedBlocksWithoutEvent3State2(), g[2].stream));
    assert StackedBlocksWithoutEvent3State2().hazards + ReadHazards(g, g[2].deps, 2, g[2].stream, ClockOf(StackedBlocksWithoutEvent3State2(), g[2].stream)) == StackedBlocksWithoutEvent3State3().hazards;
    assert Step(g, 2, StackedBlocksWithoutEvent3State2()) == Ok(StackedBlocksWithoutEvent3State3());
    SimulateLink(g, 2, StackedBlocksWithoutEvent3State2(), StackedBlocksWithoutEvent3State3());
  }

  lemma StackedBlocksWithoutEvent3Simulate3(g: seq<Node>)
    requires WellFormed(g) && |g| == 26
    requires g[3] == Node(AddEvent(0), OnDevice(0, 0), [])
    ensures SimulateFrom(g, 3, StackedBlocksWithoutEvent3State3()) == SimulateFrom(g, 4, StackedBlocksWithoutEvent3State4())
  {
    assert Step(g, 3, StackedBlocksWithoutEvent3State3()) == Ok(StackedBlocksWithoutEvent3State4());
    SimulateLink(g, 3, StackedBlocksWithoutEvent3State3(), StackedBlocksWithoutEvent3State4());
  }

  lemma StackedBlocksWithoutEvent3Simulate4(g: seq<Node>)
    requires WellFormed(g) && |g| == 26
    requires g[4] == Node(SetStream(0, 1), OnDevice(0, 1), [])
    ensures SimulateFrom(g, 4, StackedBlocksWithoutEvent3State4()) == SimulateFrom(g, 5, StackedBlocksWithoutEvent3State5())
  {
    assert Step(g, 4, StackedBlocksWithoutEvent3State4()) == Ok(StackedBlocksWithoutEvent3State5());
    SimulateLink(g, 4, StackedBlocksWithoutEvent3State4(), StackedBlocksWithoutEvent3State5());
  }

  lemma StackedBlocksWithoutEvent3Simulate5(g: seq<Node>)
    requires WellFormed(g) && |g| == 26
    requires g[5] == Node(Atan(X), OnDevice(0, 1), [])
    ensures SimulateFrom(g, 5, StackedBlocksWithoutEvent3State5()) == SimulateFrom(g, 6, StackedBlocksWithoutEvent3State6())
  {
    ReadHazardsSmall(g, g[5].deps, 5, g[5].stream, ClockOf(StackedBlocksWithoutEvent3State5(), g[5].stream));
    assert StackedBlocksWithoutEvent3State5().hazards + ReadHazards(g, g[5].deps, 5, g[5].stream, ClockOf(StackedBlocksWithoutEvent3State5(), g[5].stream)) == StackedBlocksWithoutEvent3State6().hazards;
    assert Step(g, 5, StackedBlocksWithoutEvent3State5()) == Ok(StackedBlocksWithoutEvent3State6());
    SimulateLink(g, 5, StackedBlocksWithoutEvent3State5(), StackedBlocksWithoutEvent3State6());
  }

  lemma StackedBlocksWithoutEvent3Simulate6(g: seq<Node>)
    requires WellFormed(g) && |g| == 26
    requires g[6] == Node(AddEvent(1), OnDevice(0, 1), [])
    ensures SimulateFrom(g, 6, StackedBlocksWithoutEvent3State6()) == SimulateFrom(g, 7, StackedBlocksWithoutEvent3State7())
  {
    assert Step(g, 6, StackedBlocksWithoutEvent3State6()) == Ok(StackedBlocksWithoutEvent3State7());
    SimulateLink(g, 6, StackedBlocksWithoutEvent3State6(), StackedBlocksWithoutEvent3State7());
  }

  lemma StackedBlocksWithoutEvent3Simulate7(g: seq<Node>)
    requires WellFormed(g) && |g| == 26
    requires g[7] == Node(SetStream(0, 2), OnDevice(0, 2), [])
    ensures SimulateFrom(g, 7, StackedBlocksWithoutEvent3State7()) == SimulateFrom(g, 8, StackedBlocksWithoutEvent3State8())
  {
    assert Step(g, 7, StackedBlocksWithoutEvent3State7()) == Ok(StackedBlocksWithoutEvent3State8());
    SimulateLink(g, 7, StackedBlocksWithoutEvent3State7(), StackedBlocksWithoutEvent3State8());
  }

  lemma StackedBlocksWithoutEvent3Simulate8(g: seq<Node>)
    requires WellFormed(g) && |g| == 26
    requires g[8] == Node(Atan(X), OnDevice(0, 2), [])
    ensures SimulateFrom(g, 8, StackedBlocksWithoutEvent3State8()) == SimulateFrom(g, 9, StackedBlocksWithoutEvent3State9())
  {
    ReadHazardsSmall(g, g[8].deps, 8, g[8].stream, ClockOf(StackedBlocksWithoutEvent3State8(), g[8].stream));
    assert StackedBlocksWithoutEvent3State8().hazards + ReadHazards(g, g[8].deps, 8, g[8].stream, ClockOf(StackedBlocksWithoutEvent3State8(), g[8].stream)) == StackedBlocksWithoutEvent3State9().hazards;
    assert Step(g, 8, StackedBlocksWithoutEvent3State8()) == Ok(StackedBlocksWithoutEvent3State9());
    SimulateLink(g, 8, StackedBlocksWithoutEvent3State8(), StackedBlocksWithoutEvent3State9());
  }

  lemma StackedBlocksWithoutEvent3Simulate9(g: seq<Node>)
    requires WellFormed(g) && |g| == 26
    requires g[9] == Node(WaitEvent(1), OnDevice(0, 2), [])
    ensures SimulateFrom(g, 9, StackedBlocksWithoutEvent3State9()) == SimulateFrom(g, 10, StackedBlocksWithoutEvent3State10())
  {
    MergeIs(map[], Mark(OnDevice(0, 1), 6, map[]), map[OnDevice(0, 1) := 6]);
    assert Step(g, 9, StackedBlocksWithoutEvent3State9()) == Ok(StackedBlocksWithoutEvent3State10());
    SimulateLink(g, 9, StackedBlocksWithoutEvent3State9(), StackedBlocksWithoutEvent3State10());
  }

  lemma StackedBlocksWithoutEvent3Simulate10(g: seq<Node>)
    requires WellFormed(g) && |g| == 26
    requires g[10] == Node(WaitEvent(0), OnDevice(0, 2), [])
    ensures SimulateFrom(g, 10, StackedBlocksWithoutEvent3State10()) == SimulateFrom(g, 11, StackedBlocksWithoutEvent3State11())
  {
    MergeIs(map[OnDevice(0, 1) := 6], Mark(OnDevice(0, 0), 3, map[]), map[OnDevice(0, 0) := 3, OnDevice(0, 1) := 6]);
    assert Step(g, 10, StackedBlocksWithoutEvent3State10()) == Ok(StackedBlocksWithoutEvent3State11());
    SimulateLink(g, 10, StackedBlocksWithoutEvent3State10(), StackedBlocksWithoutEvent3State11());
  }

  lemma StackedBlocksWithoutEvent3Simulate11(g: seq<Node>)
    requires WellFormed(g) && |g| == 26
    requires g[2] == Node(Atan(LetVar(1)), OnDevice(0, 0), [1])
    requires g[5] == Node(Atan(X), OnDevice(0, 1), [])
    requires g[8] == Node(Atan(X), OnDevice(0, 2), [])
    requires g[11] == Node(MakeTuple([LetVar(8), LetVar(5), LetVar(2)]), OnDevice(0, 2), [8, 5, 2])
    ensures SimulateFrom(g, 11, StackedBlocksWithoutEvent3State11()) == SimulateFrom(g, 12, StackedBlocksWithoutEvent3State12())
  {
    ReadHazardsSmall(g, g[11].deps, 11, g[11].stream, ClockOf(StackedBlocksWithoutEvent3State11(), g[11].stream));
    assert StackedBlocksWithoutEvent3State11().hazards + ReadHazards(g, g[11].deps, 11, g[11].stream, ClockOf(StackedBlocksWithoutEvent3State11(), g[11].stream)) == StackedBlocksWithoutEvent3State12().hazards;
    assert Step(g, 11, StackedBlocksWithoutEvent3State11()) == Ok(StackedBlocksWithoutEvent3State12());
    SimulateLink(g, 11, StackedBlocksWithoutEvent3State11(), StackedBlocksWithoutEvent3State12());
  }

  lemma StackedBlocksWithoutEvent3Simulate12(g: seq<Node>)
    requires WellFormed(g) && |g| == 26
    requires g[11] == Node(MakeTuple([LetVar(8), LetVar(5), LetVar(2)]), OnDevice(0, 2), [8, 5, 2])
    requires g[12] == Node(Concatenate(LetVar(11), 0), OnDevice(0, 2), [11])
    ensures SimulateFrom(g, 12, StackedBlocksWithoutEvent3State12()) == SimulateFrom(g, 13, StackedBlocksWithoutEvent3State13())
  {
    ReadHazardsSmall(g, g[12].deps, 12, g[12].stream, ClockOf(StackedBlocksWithoutEvent3State12(), g[12].stream));
    assert StackedBlocksWithoutEvent3State12().hazards + ReadHazards(g, g[12].deps, 12, g[12].stream, ClockOf(StackedBlocksWithoutEvent3State12(), g[12].stream)) == StackedBlocksWithoutEvent3State13().hazards;
    assert Step(g, 12, StackedBlocksWithoutEvent3State12()) == Ok(StackedBlocksWithoutEvent3State13());
    SimulateLink(g, 12, StackedBlocksWithoutEvent3State12(), StackedBlocksWithoutEvent3State13());
  }

  lemma StackedBlocksWithoutEvent3Simulate13(g: seq<Node>)
    requires WellFormed(g) && |g| == 26
    requires g[13] == Node(AddEvent(2), OnDevice(0, 2), [])
    ensures SimulateFrom(g, 13, StackedBlocksWithoutEvent3State13()) == SimulateFrom(g, 14, StackedBlocksWithoutEvent3State14())
  {
    assert Step(g, 13, StackedBlocksWithoutEvent3State13()) == Ok(StackedBlocksWithoutEvent3State14());
    SimulateLink(g, 13, StackedBlocksWithoutEvent3State13(), StackedBlocksWithoutEvent3State14());
  }

  lemma StackedBlocksWithoutEvent3Simulate14(g: seq<Node>)
    requires WellFormed(g) && |g| == 26
    requires g[12] == Node(Concatenate(LetVar(11), 0), OnDevice(0, 2), [11])
    requires g[14] == Node(Atan(LetVar(12)), OnDevice(0, 2), [12])
    ensures SimulateFrom(g, 14, StackedBlocksWithoutEvent3State14()) == SimulateFrom(g, 15, StackedBlocksWithoutEvent3State15())
  {
    ReadHazardsSmall(g, g[14].deps, 14, g[14].stream, ClockOf(StackedBlocksWithoutEvent3State14(), g[14].stream));
    assert StackedBlocksWithoutEvent3State14().hazards + ReadHazards(g, g[14].deps, 14, g[14].stream, ClockOf(StackedBlocksWithoutEvent3State14(), g[14].stream)) == StackedBlocksWithoutEvent3State15().hazards;
    assert Step(g, 14, StackedBlocksWithoutEvent3State14()) == Ok(StackedBlocksWithoutEvent3State15());
    SimulateLink(g, 14, StackedBlocksWithoutEvent3State14(), StackedBlocksWithoutEvent3State15());
  }

  lemma StackedBlocksWithoutEvent3Simulate15(g: seq<Node>)
    requires WellFormed(g) && |g| == 26
    requires g[14] == Node(Atan(LetVar(12)), OnDevice(0, 2), [12])
    requires g[15] == Node(Atan(LetVar(14)), OnDevice(0, 2), [14])
    ensures SimulateFrom(g, 15, StackedBlocksWithoutEvent3State15()) == SimulateFrom(g, 16, StackedBlocksWithoutEvent3State16())
  {
    ReadHazardsSmall(g, g[15].deps, 15, g[15].stream, ClockOf(StackedBlocksWithoutEvent3State15(), g[15].stream));
    assert StackedBlocksWithoutEvent3State15().hazards + ReadHazards(g, g[15].deps, 15, g[15].stream, ClockOf(StackedBlocksWithoutEvent3State15(), g[15].stream)) == StackedBlocksWithoutEvent3State16().hazards;
    assert Step(g, 15, StackedBlocksWithoutEvent3State15()) == Ok(StackedBlocksWithoutEvent3State16());
    SimulateLink(g, 15, StackedBlocksWithoutEvent3State15(), StackedBlocksWithoutEvent3State16());
  }

  lemma StackedBlocksWithoutEvent3Simulate16(g: seq<Node>)
    requires WellFormed(g) && |g| == 26
    requires g[16] == Node(SetStream(0, 1), OnDevice(0, 1), [])
    ensures SimulateFrom(g, 16, StackedBlocksWithoutEvent3State16()) == SimulateFrom(g, 17, StackedBlocksWithoutEvent3State17())
  {
    assert Step(g, 16, StackedBlocksWithoutEvent3State16()) == Ok(StackedBlocksWithoutEvent3State17());
    SimulateLink(g, 16, StackedBlocksWithoutEvent3State16(), StackedBlocksWithoutEvent3State17());
  }

  lemma StackedBlocksWithoutEvent3Simulate17(g: seq<Node>)
    requires WellFormed(g) && |g| == 26
    requires g[17] == Node(WaitEvent(2), OnDevice(0, 1), [])
    ensures SimulateFrom(g, 17, StackedBlocksWithoutEvent3State17()) == SimulateFrom(g, 18, StackedBlocksWithoutEvent3State18())
  {
    MergeIs(map[], Mark(OnDevice(0, 2), 13, map[OnDevice(0, 0) := 3, OnDevice(0, 1) := 6]), map[OnDevice(0, 0) := 3, OnDevice(0, 1) := 6, OnDevice(0, 2) := 13]);
    assert Step(g, 17, StackedBlocksWithoutEvent3State17()) == Ok(StackedBlocksWithoutEvent3State18());
    SimulateLink(g, 17, StackedBlocksWithoutEvent3State17(), StackedBlocksWithoutEvent3State18());
  }

  lemma StackedBlocksWithoutEvent3Simulate18(g: seq<Node>)
    requires WellFormed(g) && |g| == 26
    requires g[12] == Node(Concatenate(LetVar(11), 0), OnDevice(0, 2), [11])
    requires g[18] == Node(Atan(LetVar(12)), OnDevice(0, 1), [12])
    ensures SimulateFrom(g, 18, StackedBlocksWithoutEvent3State18()) == SimulateFrom(g, 19, StackedBlocksWithoutEvent3State19())
  {
    ReadHazardsSmall(g, g[18].deps, 18, g[18].stream, ClockOf(StackedBlocksWithoutEvent3State18(), g[18].stream));
    assert StackedBlocksWithoutEvent3State18().hazards + ReadHazards(g, g[18].deps, 18, g[18].stream, ClockOf(StackedBlocksWithoutEvent3State18(), g[18].stream)) == StackedBlocksWithoutEvent3State19().hazards;
    assert Step(g, 18, StackedBlocksWithoutEvent3State18()) == Ok(StackedBlocksWithoutEvent3State19());
    SimulateLink(g, 18, StackedBlocksWithoutEvent3State18(), StackedBlocksWithoutEvent3State19());
  }

  lemma StackedBlocksWithoutEvent3Simulate19(g: seq<Node>)
    requires WellFormed(g) && |g| == 26
    requires g[19] == Node(AddEvent(4), OnDevice(0, 1), [])
    ensures SimulateFrom(g, 19, StackedBlocksWithoutEvent3State19()) == SimulateFrom(g, 20, StackedBlocksWithoutEvent3State20())
  {
    assert Step(g, 19, StackedBlocksWithoutEvent3State19()) == Ok(StackedBlocksWithoutEvent3State20());
    SimulateLink(g, 19, StackedBlocksWithoutEvent3State19(), StackedBlocksWithoutEvent3State20());
  }

  lemma StackedBlocksWithoutEvent3Simulate20(g: seq<Node>)
    requires WellFormed(g) && |g| == 26
    requires g[20] == Node(SetStream(0, 0), OnDevice(0, 0), [])
    ensures SimulateFrom(g, 20, StackedBlocksWithoutEvent3State20()) == SimulateFrom(g, 21, StackedBlocksWithoutEvent3State21())
  {
    assert Step(g, 20, StackedBlocksWithoutEvent3State20()) == Ok(StackedBlocksWithoutEvent3State21());
    SimulateLink(g, 20, StackedBlocksWithoutEvent3State20(), StackedBlocksWithoutEvent3State21());
  }

  lemma StackedBlocksWithoutEvent3Simulate21(g: seq<Node>)
    requires WellFormed(g) && |g| == 26
    requires g[21] == Node(WaitEvent(2), OnDevice(0, 0), [])
    ensures SimulateFrom(g, 21, StackedBlocksWithoutEvent3State21()) == SimulateFrom(g, 22, StackedBlocksWithoutEvent3State22())
  {
    MergeIs(map[], Mark(OnDevice(0, 2), 13, map[OnDevice(0, 0) := 3, OnDevice(0, 1) := 6]), map[OnDevice(0, 0) := 3, OnDevice(0, 1) := 6, OnDevice(0, 2) := 13]);
    assert Step(g, 21, StackedBlocksWithoutEvent3State21()) == Ok(StackedBlocksWithoutEvent3State22());
    SimulateLink(g, 21, StackedBlocksWithoutEvent3State21(), StackedBlocksWithoutEvent3State22());
  }

  lemma StackedBlocksWithoutEvent3Simulate22(g: seq<Node>)
    requires WellFormed(g) && |g| == 26
    requires g[12] == Node(Concatenate(LetVar(11), 0), OnDevice(0, 2), [11])
    requires g[22] == Node(Atan(LetVar(12)), OnDevice(0, 0), [12])
    ensures SimulateFrom(g, 22, StackedBlocksWithoutEvent3State22()) == SimulateFrom(g, 23, StackedBlocksWithoutEvent3State23())
  {
    ReadHazardsSmall(g, g[22].deps, 22, g[22].stream, ClockOf(StackedBlocksWithoutEvent3State22(), g[22].stream));
    assert StackedBlocksWithoutEvent3State22().hazards + ReadHazards(g, g[22].deps, 22, g[22].stream, ClockOf(StackedBlocksWithoutEvent3State22(), g[22].stream)) == StackedBlocksWithoutEvent3State23().hazards;
    assert Step(g, 22, StackedBlocksWithoutEvent3State22()) == Ok(StackedBlocksWithoutEvent3State23());
    SimulateLink(g, 22, StackedBlocksWithoutEvent3State22(), StackedBlocksWithoutEvent3State23());
  }

  lemma StackedBlocksWithoutEvent3Simulate23(g: seq<Node>)
    requires WellFormed(g) && |g| == 26
    requires g[23] == Node(WaitEvent(4), OnDevice(0, 0), [])
    ensures SimulateFrom(g, 23, StackedBlocksWithoutEvent3State23()) == SimulateFrom(g, 24, StackedBlocksWithoutEvent3State24())
  {
    MergeIs(map[OnDevice(0, 0) := 3, OnDevice(0, 1) := 6, OnDevice(0, 2) := 13], Mark(OnDevice(0, 1), 19, map[OnDevice(0, 0) := 3, OnDevice(0, 1) := 6, OnDevice(0, 2) := 13]), map[OnDevice(0, 0) := 3, OnDevice(0, 1) := 19, OnDevice(0, 2) := 13]);
    assert Step(g, 23, StackedBlocksWithoutEvent3State23()) == Ok(StackedBlocksWithoutEvent3State24());
    SimulateLink(g, 23, StackedBlocksWithoutEvent3State23(), StackedBlocksWithoutEvent3State24());
  }

  lemma StackedBlocksWithoutEvent3Simulate24(g: seq<Node>)
    requires WellFormed(g) && |g| == 26
    requires g[15] == Node(Atan(LetVar(14)), OnDevice(0, 2), [14])
    requires g[18] == Node(Atan(LetVar(12)), OnDevice(0, 1), [12])
    requires g[22] == Node(Atan(LetVar(12)), OnDevice(0, 0), [12])
    requires g[24] == Node(MakeTuple([LetVar(23), LetVar(19), LetVar(15)]), OnDevice(0, 0), [22, 18, 15])
    ensures SimulateFrom(g, 24, StackedBlocksWithoutEvent3State24()) == SimulateFrom(g, 25, StackedBlocksWithoutEvent3State25())
  {
    ReadHazardsSmall(g, g[24].deps, 24, g[24].stream, ClockOf(StackedBlocksWithoutEvent3State24(), g[24].stream));
    assert StackedBlocksWithoutEvent3State24().hazards + ReadHazards(g, g[24].deps, 24, g[24].stream, ClockOf(StackedBlocksWithoutEvent3State24(), g[24].stream)) == StackedBlocksWithoutEvent3State25().hazards;
    assert Step(g, 24, StackedBlocksWithoutEvent3State24()) == Ok(StackedBlocksWithoutEvent3State25());
    SimulateLink(g, 24, StackedBlocksWithoutEvent3State24(), StackedBlocksWithoutEvent3State25());
  }

  lemma StackedBlocksWithoutEvent3Simulate25(g: seq<Node>)
    requires WellFormed(g) && |g| == 26
    requires g[24] == Node(MakeTuple([LetVar(23), LetVar(19), LetVar(15)]), OnDevice(0, 0), [22, 18, 15])
    requires g[25] == Node(Concatenate(LetVar(26), 0), OnDevice(0, 0), [24])
    ensures SimulateFrom(g, 25, StackedBlocksWithoutEvent3State25()) == SimulateFrom(g, 26, StackedBlocksWithoutEvent3State26())
  {
    ReadHazardsSmall(g, g[25].deps, 25, g[25].stream, ClockOf(StackedBlocksWithoutEvent3State25(), g[25].stream));
    assert StackedBlocksWithoutEvent3State25().hazards + ReadHazards(g, g[25].deps, 25, g[25].stream, ClockOf(StackedBlocksWithoutEvent3State25(), g[25].stream)) == StackedBlocksWithoutEvent3State26().hazards;
    assert Step(g, 25, StackedBlocksWithoutEvent3State25()) == Ok(StackedBlocksWithoutEvent3State26());
    SimulateLink(g, 25, StackedBlocksWithoutEvent3State25(), StackedBlocksWithoutEvent3State26());
  }

  /** Without event 3 the second join `x_26` reads `x_15` unordered. */
  lemma Verdict(removed: set<EventId>)
    requires 0 !in removed && 1 !in removed && 2 !in removed && 3 in removed && 4 !in removed
    ensures Verify(StackedBlocks(removed)) == Err(ExecutionOrder([Hazard(15, 24, OnDevice(0, 2), OnDevice(0, 0))]))
  {
    var g := StackedBlocksWithoutEvent3Graph(removed);
    StackedBlocksWithoutEvent3Simulate0(g);
    StackedBlocksWithoutEvent3Simulate1(g);
    StackedBlocksWithoutEvent3Simulate2(g);
    StackedBlocksWithoutEvent3Simulate3(g);
    StackedBlocksWithoutEvent3Simulate4(g);
    StackedBlocksWithoutEvent3Simulate5(g);
    StackedBlocksWithoutEvent3Simulate6(g);
    StackedBlocksWithoutEvent3Simulate7(g);
    StackedBlocksWithoutEvent3Simulate8(g);
    StackedBlocksWithoutEvent3Simulate9(g);
    StackedBlocksWithoutEvent3Simulate10(g);
    StackedBlocksWithoutEvent3Simulate11(g);
    StackedBlocksWithoutEvent3Simulate12(g);
    StackedBlocksWithoutEvent3Simulate13(g);
    StackedBlocksWithoutEvent3Simulate14(g);
    StackedBlocksWithoutEvent3Simulate15(g);
    StackedBlocksWithoutEvent3Simulate16(g);
    StackedBlocksWithoutEvent3Simulate17(g);
    StackedBlocksWithoutEvent3Simulate18(g);
    StackedBlocksWithoutEvent3Simulate19(g);
    StackedBlocksWithoutEvent3Simulate20(g);
    StackedBlocksWithoutEvent3Simulate21(g);
    StackedBlocksWithoutEvent3Simulate22(g);
    StackedBlocksWithoutEvent3Simulate23(g);
    StackedBlocksWithoutEvent3Simulate24(g);
    StackedBlocksWithoutEvent3Simulate25(g);
    SimulateDone(g, StackedBlocksWithoutEvent3State26());
  }
}
