/**
 * The verifier's verdict on `StackedBlocks(removed)` for one choice of removed events.
 * With all five events in place both blocks join safely.
 */
module StackedBlocksAllEvents {
  import opened Results
  import opened ScheduleVerifier
  import opened ScheduleTheory
  import opened SchedulePrograms

  /** The graph `Extract` builds for `StackedBlocks(removed)`. */
  function StackedBlocksAllEventsNodes(): seq<Node>
  {
    [ Node(SetStream(0, 0), OnDevice(0, 0), [])
    , Node(Atan(X), OnDevice(0, 0), [])
    , Node(Atan(LetVar(1)), OnDevice(0, 0), [1])
    , Node(AddEvent(0), OnDevice(0, 0), [])
    , Node(SetStream(0, 1), OnDevice(0, 1), [])
    , Node(Atan(X), OnDevice(0, 1), [])
    , Node(AddEvent(1), OnDevice(0, 1), [])
    , Node(SetStream(0, 2), OnDevice(0, 2), [])
    , Node(Atan(X), OnDevice(0, 2), [])
    , Node(WaitEvent(1), OnDevice(0, 2), [])
    , Node(WaitEvent(0), OnDevice(0, 2), [])
    , Node(MakeTuple([LetVar(8), LetVar(5), LetVar(2)]), OnDevice(0, 2), [8, 5, 2])
    , Node(Concatenate(LetVar(11), 0), OnDevice(0, 2), [11])
    , Node(AddEvent(2), OnDevice(0, 2), [])
    , Node(Atan(LetVar(12)), OnDevice(0, 2), [12])
    , Node(Atan(LetVar(14)), OnDevice(0, 2), [14])
    , Node(AddEvent(3), OnDevice(0, 2), [])
    , Node(SetStream(0, 1), OnDevice(0, 1), [])
    , Node(WaitEvent(2), OnDevice(0, 1), [])
    , Node(Atan(LetVar(12)), OnDevice(0, 1), [12])
    , Node(AddEvent(4), OnDevice(0, 1), [])
    , Node(SetStream(0, 0), OnDevice(0, 0), [])
    , Node(WaitEvent(2), OnDevice(0, 0), [])
    , Node(Atan(LetVar(12)), OnDevice(0, 0), [12])
    , Node(WaitEvent(4), OnDevice(0, 0), [])
    , Node(WaitEvent(3), OnDevice(0, 0), [])
    , Node(MakeTuple([LetVar(23), LetVar(19), LetVar(15)]), OnDevice(0, 0), [23, 19, 15])
    , Node(Concatenate(LetVar(26), 0), OnDevice(0, 0), [26]) ]
  }

  /** `g` is `StackedBlocksAllEventsNodes()`, position by position. */
  predicate StackedBlocksAllEventsShape(g: seq<Node>)
  {
    && |g| == 28
    && StackedBlocksAllEventsShape0(g)
    && StackedBlocksAllEventsShape5(g)
    && StackedBlocksAllEventsShape10(g)
    && StackedBlocksAllEventsShape15(g)
    && StackedBlocksAllEventsShape20(g)
    && StackedBlocksAllEventsShape25(g)
  }

  predicate StackedBlocksAllEventsShape0(g: seq<Node>)
    requires |g| == 28
  {
    && g[0] == Node(SetStream(0, 0), OnDevice(0, 0), [])
    && g[1] == Node(Atan(X), OnDevice(0, 0), [])
    && g[2] == Node(Atan(LetVar(1)), OnDevice(0, 0), [1])
    && g[3] == Node(AddEvent(0), OnDevice(0, 0), [])
    && g[4] == Node(SetStream(0, 1), OnDevice(0, 1), [])
  }

  predicate StackedBlocksAllEventsShape5(g: seq<Node>)
    requires |g| == 28
  {
    && g[5] == Node(Atan(X), OnDevice(0, 1), [])
    && g[6] == Node(AddEvent(1), OnDevice(0, 1), [])
    && g[7] == Node(SetStream(0, 2), OnDevice(0, 2), [])
    && g[8] == Node(Atan(X), OnDevice(0, 2), [])
    && g[9] == Node(WaitEvent(1), OnDevice(0, 2), [])
  }

  predicate StackedBlocksAllEventsShape10(g: seq<Node>)
    requires |g| == 28
  {
    && g[10] == Node(WaitEvent(0), OnDevice(0, 2), [])
    && g[11] == Node(MakeTuple([LetVar(8), LetVar(5), LetVar(2)]), OnDevice(0, 2), [8, 5, 2])
    && g[12] == Node(Concatenate(LetVar(11), 0), OnDevice(0, 2), [11])
    && g[13] == Node(AddEvent(2), OnDevice(0, 2), [])
    && g[14] == Node(Atan(LetVar(12)), OnDevice(0, 2), [12])
  }

  predicate StackedBlocksAllEventsShape15(g: seq<Node>)
    requires |g| == 28
  {
    && g[15] == Node(Atan(LetVar(14)), OnDevice(0, 2), [14])
    && g[16] == Node(AddEvent(3), OnDevice(0, 2), [])
    && g[17] == Node(SetStream(0, 1), OnDevice(0, 1), [])
    && g[18] == Node(WaitEvent(2), OnDevice(0, 1), [])
    && g[19] == Node(Atan(LetVar(12)), OnDevice(0, 1), [12])
  }

  predicate StackedBlocksAllEventsShape20(g: seq<Node>)
    requires |g| == 28
  {
    && g[20] == Node(AddEvent(4), OnDevice(0, 1), [])
    && g[21] == Node(SetStream(0, 0), OnDevice(0, 0), [])
    && g[22] == Node(WaitEvent(2), OnDevice(0, 0), [])
    && g[23] == Node(Atan(LetVar(12)), OnDevice(0, 0), [12])
    && g[24] == Node(WaitEvent(4), OnDevice(0, 0), [])
  }

  predicate StackedBlocksAllEventsShape25(g: seq<Node>)
    requires |g| == 28
  {
    && g[25] == Node(WaitEvent(3), OnDevice(0, 0), [])
    && g[26] == Node(MakeTuple([LetVar(23), LetVar(19), LetVar(15)]), OnDevice(0, 0), [23, 19, 15])
    && g[27] == Node(Concatenate(LetVar(26), 0), OnDevice(0, 0), [26])
  }

  /** The variable table before each position of `StackedBlocks(removed)`. */
  function StackedBlocksAllEventsDefs(): seq<map<VarId, nat>>
  {
    [ map[]
    , map[0 := 0]
    , map[0 := 0, 1 := 1]
    , map[0 := 0, 1 := 1, 2 := 2]
    , map[0 := 0, 1 := 1, 2 := 2, 3 := 3]
    , map[0 := 0, 1 := 1, 2 := 2, 3 := 3, 4 := 4]
    , map[0 := 0, 1 := 1, 2 := 2, 3 := 3, 4 := 4, 5 := 5]
    , map[0 := 0, 1 := 1, 2 := 2, 3 := 3, 4 := 4, 5 := 5, 6 := 6]
    , map[0 := 0, 1 := 1, 2 := 2, 3 := 3, 4 := 4, 5 := 5, 6 := 6, 7 := 7]
    , map[0 := 0, 1 := 1, 2 := 2, 3 := 3, 4 := 4, 5 := 5, 6 := 6, 7 := 7, 8 := 8]
    , map[0 := 0, 1 := 1, 2 := 2, 3 := 3, 4 := 4, 5 := 5, 6 := 6, 7 := 7, 8 := 8, 9 := 9]
    , map[0 := 0, 1 := 1, 2 := 2, 3 := 3, 4 := 4, 5 := 5, 6 := 6, 7 := 7, 8 := 8, 9 := 9, 10 := 10]
    , map[0 := 0, 1 := 1, 2 := 2, 3 := 3, 4 := 4, 5 := 5, 6 := 6, 7 := 7, 8 := 8, 9 := 9, 10 := 10, 11 := 11]
    , map[0 := 0, 1 := 1, 2 := 2, 3 := 3, 4 := 4, 5 := 5, 6 := 6, 7 := 7, 8 := 8, 9 := 9, 10 := 10, 11 := 11, 12 := 12]
    , map[0 := 0, 1 := 1, 2 := 2, 3 := 3, 4 := 4, 5 := 5, 6 := 6, 7 := 7, 8 := 8, 9 := 9, 10 := 10, 11 := 11, 12 := 12, 13 := 13]
    , map[0 := 0, 1 := 1, 2 := 2, 3 := 3, 4 := 4, 5 := 5, 6 := 6, 7 := 7, 8 := 8, 9 := 9, 10 := 10, 11 := 11, 12 := 12, 13 := 13, 14 := 14]
    , map[0 := 0, 1 := 1, 2 := 2, 3 := 3, 4 := 4, 5 := 5, 6 := 6, 7 := 7, 8 := 8, 9 := 9, 10 := 10, 11 := 11, 12 := 12, 13 := 13, 14 := 14, 15 := 15]
    , map[0 := 0, 1 := 1, 2 := 2, 3 := 3, 4 := 4, 5 := 5, 6 := 6, 7 := 7, 8 := 8, 9 := 9, 10 := 10, 11 := 11, 12 := 12, 13 := 13, 14 := 14, 15 := 15, 16 := 16]
    , map[0 := 0, 1 := 1, 2 := 2, 3 := 3, 4 := 4, 5 := 5, 6 := 6, 7 := 7, 8 := 8, 9 := 9, 10 := 10, 11 := 11, 12 := 12, 13 := 13, 14 := 14, 15 := 15, 16 := 16, 17 := 17]
    , map[0 := 0, 1 := 1, 2 := 2, 3 := 3, 4 := 4, 5 := 5, 6 := 6, 7 := 7, 8 := 8, 9 := 9, 10 := 10, 11 := 11, 12 := 12, 13 := 13, 14 := 14, 15 := 15, 16 := 16, 17 := 17, 18 := 18]
    , map[0 := 0, 1 := 1, 2 := 2, 3 := 3, 4 := 4, 5 := 5, 6 := 6, 7 := 7, 8 := 8, 9 := 9, 10 := 10, 11 := 11, 12 := 12, 13 := 13, 14 := 14, 15 := 15, 16 := 16, 17 := 17, 18 := 18, 19 := 19]
    , map[0 := 0, 1 := 1, 2 := 2, 3 := 3, 4 := 4, 5 := 5, 6 := 6, 7 := 7, 8 := 8, 9 := 9, 10 := 10, 11 := 11, 12 := 12, 13 := 13, 14 := 14, 15 := 15, 16 := 16, 17 := 17, 18 := 18, 19 := 19, 20 := 20]
    , map[0 := 0, 1 := 1, 2 := 2, 3 := 3, 4 := 4, 5 := 5, 6 := 6, 7 := 7, 8 := 8, 9 := 9, 10 := 10, 11 := 11, 12 := 12, 13 := 13, 14 := 14, 15 := 15, 16 := 16, 17 := 17, 18 := 18, 19 := 19, 20 := 20, 21 := 21]
    , map[0 := 0, 1 := 1, 2 := 2, 3 := 3, 4 := 4, 5 := 5, 6 := 6, 7 := 7, 8 := 8, 9 := 9, 10 := 10, 11 := 11, 12 := 12, 13 := 13, 14 := 14, 15 := 15, 16 := 16, 17 := 17, 18 := 18, 19 := 19, 20 := 20, 21 := 21, 22 := 22]
    , map[0 := 0, 1 := 1, 2 := 2, 3 := 3, 4 := 4, 5 := 5, 6 := 6, 7 := 7, 8 := 8, 9 := 9, 10 := 10, 11 := 11, 12 := 12, 13 := 13, 14 := 14, 15 := 15, 16 := 16, 17 := 17, 18 := 18, 19 := 19, 20 := 20, 21 := 21, 22 := 22, 23 := 23]
    , map[0 := 0, 1 := 1, 2 := 2, 3 := 3, 4 := 4, 5 := 5, 6 := 6, 7 := 7, 8 := 8, 9 := 9, 10 := 10, 11 := 11, 12 := 12, 13 := 13, 14 := 14, 15 := 15, 16 := 16, 17 := 17, 18 := 18, 19 := 19, 20 := 20, 21 := 21, 22 := 22, 23 := 23, 24 := 24]
    , map[0 := 0, 1 := 1, 2 := 2, 3 := 3, 4 := 4, 5 := 5, 6 := 6, 7 := 7, 8 := 8, 9 := 9, 10 := 10, 11 := 11, 12 := 12, 13 := 13, 14 := 14, 15 := 15, 16 := 16, 17 := 17, 18 := 18, 19 := 19, 20 := 20, 21 := 21, 22 := 22, 23 := 23, 24 := 24, 25 := 25]
    , map[0 := 0, 1 := 1, 2 := 2, 3 := 3, 4 := 4, 5 := 5, 6 := 6, 7 := 7, 8 := 8, 9 := 9, 10 := 10, 11 := 11, 12 := 12, 13 := 13, 14 := 14, 15 := 15, 16 := 16, 17 := 17, 18 := 18, 19 := 19, 20 := 20, 21 := 21, 22 := 22, 23 := 23, 24 := 24, 25 := 25, 26 := 26]
    , map[0 := 0, 1 := 1, 2 := 2, 3 := 3, 4 := 4, 5 := 5, 6 := 6, 7 := 7, 8 := 8, 9 := 9, 10 := 10, 11 := 11, 12 := 12, 13 := 13, 14 := 14, 15 := 15, 16 := 16, 17 := 17, 18 := 18, 19 := 19, 20 := 20, 21 := 21, 22 := 22, 23 := 23, 24 := 24, 25 := 25, 26 := 26, 27 := 27] ]
  }

  /** `defs` is `StackedBlocksAllEventsDefs()`, position by position. */
  predicate StackedBlocksAllEventsTables(defs: seq<map<VarId, nat>>)
  {
    && |defs| == 29
    && StackedBlocksAllEventsTables0(defs)
    && StackedBlocksAllEventsTables5(defs)
    && StackedBlocksAllEventsTables10(defs)
    && StackedBlocksAllEventsTables15(defs)
    && StackedBlocksAllEventsTables20(defs)
    && StackedBlocksAllEventsTables25(defs)
  }

  predicate StackedBlocksAllEventsTables0(defs: seq<map<VarId, nat>>)
    requires |defs| == 29
  {
    && defs[0] == map[]
    && defs[1] == map[0 := 0]
    && defs[2] == map[0 := 0, 1 := 1]
    && defs[3] == map[0 := 0, 1 := 1, 2 := 2]
    && defs[4] == map[0 := 0, 1 := 1, 2 := 2, 3 := 3]
  }

  predicate StackedBlocksAllEventsTables5(defs: seq<map<VarId, nat>>)
    requires |defs| == 29
  {
    && defs[5] == map[0 := 0, 1 := 1, 2 := 2, 3 := 3, 4 := 4]
    && defs[6] == map[0 := 0, 1 := 1, 2 := 2, 3 := 3, 4 := 4, 5 := 5]
    && defs[7] == map[0 := 0, 1 := 1, 2 := 2, 3 := 3, 4 := 4, 5 := 5, 6 := 6]
    && defs[8] == map[0 := 0, 1 := 1, 2 := 2, 3 := 3, 4 := 4, 5 := 5, 6 := 6, 7 := 7]
    && defs[9] == map[0 := 0, 1 := 1, 2 := 2, 3 := 3, 4 := 4, 5 := 5, 6 := 6, 7 := 7, 8 := 8]
  }

  predicate StackedBlocksAllEventsTables10(defs: seq<map<VarId, nat>>)
    requires |defs| == 29
  {
    && defs[10] == map[0 := 0, 1 := 1, 2 := 2, 3 := 3, 4 := 4, 5 := 5, 6 := 6, 7 := 7, 8 := 8, 9 := 9]
    && defs[11] == map[0 := 0, 1 := 1, 2 := 2, 3 := 3, 4 := 4, 5 := 5, 6 := 6, 7 := 7, 8 := 8, 9 := 9, 10 := 10]
    && defs[12] == map[0 := 0, 1 := 1, 2 := 2, 3 := 3, 4 := 4, 5 := 5, 6 := 6, 7 := 7, 8 := 8, 9 := 9, 10 := 10, 11 := 11]
    && defs[13] == map[0 := 0, 1 := 1, 2 := 2, 3 := 3, 4 := 4, 5 := 5, 6 := 6, 7 := 7, 8 := 8, 9 := 9, 10 := 10, 11 := 11, 12 := 12]
    && defs[14] == map[0 := 0, 1 := 1, 2 := 2, 3 := 3, 4 := 4, 5 := 5, 6 := 6, 7 := 7, 8 := 8, 9 := 9, 10 := 10, 11 := 11, 12 := 12, 13 := 13]
  }

  predicate StackedBlocksAllEventsTables15(defs: seq<map<VarId, nat>>)
    requires |defs| == 29
  {
    && defs[15] == map[0 := 0, 1 := 1, 2 := 2, 3 := 3, 4 := 4, 5 := 5, 6 := 6, 7 := 7, 8 := 8, 9 := 9, 10 := 10, 11 := 11, 12 := 12, 13 := 13, 14 := 14]
    && defs[16] == map[0 := 0, 1 := 1, 2 := 2, 3 := 3, 4 := 4, 5 := 5, 6 := 6, 7 := 7, 8 := 8, 9 := 9, 10 := 10, 11 := 11, 12 := 12, 13 := 13, 14 := 14, 15 := 15]
    && defs[17] == map[0 := 0, 1 := 1, 2 := 2, 3 := 3, 4 := 4, 5 := 5, 6 := 6, 7 := 7, 8 := 8, 9 := 9, 10 := 10, 11 := 11, 12 := 12, 13 := 13, 14 := 14, 15 := 15, 16 := 16]
    && defs[18] == map[0 := 0, 1 := 1, 2 := 2, 3 := 3, 4 := 4, 5 := 5, 6 := 6, 7 := 7, 8 := 8, 9 := 9, 10 := 10, 11 := 11, 12 := 12, 13 := 13, 14 := 14, 15 := 15, 16 := 16, 17 := 17]
    && defs[19] == map[0 := 0, 1 := 1, 2 := 2, 3 := 3, 4 := 4, 5 := 5, 6 := 6, 7 := 7, 8 := 8, 9 := 9, 10 := 10, 11 := 11, 12 := 12, 13 := 13, 14 := 14, 15 := 15, 16 := 16, 17 := 17, 18 := 18]
  }

  predicate StackedBlocksAllEventsTables20(defs: seq<map<VarId, nat>>)
    requires |defs| == 29
  {
    && defs[20] == map[0 := 0, 1 := 1, 2 := 2, 3 := 3, 4 := 4, 5 := 5, 6 := 6, 7 := 7, 8 := 8, 9 := 9, 10 := 10, 11 := 11, 12 := 12, 13 := 13, 14 := 14, 15 := 15, 16 := 16, 17 := 17, 18 := 18, 19 := 19]
    && defs[21] == map[0 := 0, 1 := 1, 2 := 2, 3 := 3, 4 := 4, 5 := 5, 6 := 6, 7 := 7, 8 := 8, 9 := 9, 10 := 10, 11 := 11, 12 := 12, 13 := 13, 14 := 14, 15 := 15, 16 := 16, 17 := 17, 18 := 18, 19 := 19, 20 := 20]
    && defs[22] == map[0 := 0, 1 := 1, 2 := 2, 3 := 3, 4 := 4, 5 := 5, 6 := 6, 7 := 7, 8 := 8, 9 := 9, 10 := 10, 11 := 11, 12 := 12, 13 := 13, 14 := 14, 15 := 15, 16 := 16, 17 := 17, 18 := 18, 19 := 19, 20 := 20, 21 := 21]
    && defs[23] == map[0 := 0, 1 := 1, 2 := 2, 3 := 3, 4 := 4, 5 := 5, 6 := 6, 7 := 7, 8 := 8, 9 := 9, 10 := 10, 11 := 11, 12 := 12, 13 := 13, 14 := 14, 15 := 15, 16 := 16, 17 := 17, 18 := 18, 19 := 19, 20 := 20, 21 := 21, 22 := 22]
    && defs[24] == map[0 := 0, 1 := 1, 2 := 2, 3 := 3, 4 := 4, 5 := 5, 6 := 6, 7 := 7, 8 := 8, 9 := 9, 10 := 10, 11 := 11, 12 := 12, 13 := 13, 14 := 14, 15 := 15, 16 := 16, 17 := 17, 18 := 18, 19 := 19, 20 := 20, 21 := 21, 22 := 22, 23 := 23]
  }

  predicate StackedBlocksAllEventsTables25(defs: seq<map<VarId, nat>>)
    requires |defs| == 29
  {
    && defs[25] == map[0 := 0, 1 := 1, 2 := 2, 3 := 3, 4 := 4, 5 := 5, 6 := 6, 7 := 7, 8 := 8, 9 := 9, 10 := 10, 11 := 11, 12 := 12, 13 := 13, 14 := 14, 15 := 15, 16 := 16, 17 := 17, 18 := 18, 19 := 19, 20 := 20, 21 := 21, 22 := 22, 23 := 23, 24 := 24]
    && defs[26] == map[0 := 0, 1 := 1, 2 := 2, 3 := 3, 4 := 4, 5 := 5, 6 := 6, 7 := 7, 8 := 8, 9 := 9, 10 := 10, 11 := 11, 12 := 12, 13 := 13, 14 := 14, 15 := 15, 16 := 16, 17 := 17, 18 := 18, 19 := 19, 20 := 20, 21 := 21, 22 := 22, 23 := 23, 24 := 24, 25 := 25]
    && defs[27] == map[0 := 0, 1 := 1, 2 := 2, 3 := 3, 4 := 4, 5 := 5, 6 := 6, 7 := 7, 8 := 8, 9 := 9, 10 := 10, 11 := 11, 12 := 12, 13 := 13, 14 := 14, 15 := 15, 16 := 16, 17 := 17, 18 := 18, 19 := 19, 20 := 20, 21 := 21, 22 := 22, 23 := 23, 24 := 24, 25 := 25, 26 := 26]
    && defs[28] == map[0 := 0, 1 := 1, 2 := 2, 3 := 3, 4 := 4, 5 := 5, 6 := 6, 7 := 7, 8 := 8, 9 := 9, 10 := 10, 11 := 11, 12 := 12, 13 := 13, 14 := 14, 15 := 15, 16 := 16, 17 := 17, 18 := 18, 19 := 19, 20 := 20, 21 := 21, 22 := 22, 23 := 23, 24 := 24, 25 := 25, 26 := 26, 27 := 27]
  }

  function StackedBlocksAllEventsState0(): SimState
  {
    SimState(map[], map[], [])
  }

  function StackedBlocksAllEventsState1(): SimState
  {
    SimState(map[], map[], [])
  }

  function StackedBlocksAllEventsState2(): SimState
  {
    SimState(map[], map[], [])
  }

  function StackedBlocksAllEventsState3(): SimState
  {
    SimState(map[], map[], [])
  }

  function StackedBlocksAllEventsState4(): SimState
  {
    SimState(map[][0 := Mark(OnDevice(0, 0), 3, map[])], map[], [])
  }

  function StackedBlocksAllEventsState5(): SimState
  {
    SimState(map[][0 := Mark(OnDevice(0, 0), 3, map[])], map[], [])
  }

  function StackedBlocksAllEventsState6(): SimState
  {
    SimState(map[][0 := Mark(OnDevice(0, 0), 3, map[])], map[], [])
  }

  function StackedBlocksAllEventsState7(): SimState
  {
    SimState(map[][0 := Mark(OnDevice(0, 0), 3, map[])][1 := Mark(OnDevice(0, 1), 6, map[])], map[], [])
  }

  function StackedBlocksAllEventsState8(): SimState
  {
    SimState(map[][0 := Mark(OnDevice(0, 0), 3, map[])][1 := Mark(OnDevice(0, 1), 6, map[])], map[], [])
  }

  function StackedBlocksAllEventsState9(): SimState
  {
    SimState(map[][0 := Mark(OnDevice(0, 0), 3, map[])][1 := Mark(OnDevice(0, 1), 6, map[])], map[], [])
  }

  function StackedBlocksAllEventsState10(): SimState
  {
    SimState(map[][0 := Mark(OnDevice(0, 0), 3, map[])][1 := Mark(OnDevice(0, 1), 6, map[])], map[][OnDevice(0, 2) := map[OnDevice(0, 1) := 6]], [])
  }

  function StackedBlocksAllEventsState11(): SimState
  {
    SimState(map[][0 := Mark(OnDevice(0, 0), 3, map[])][1 := Mark(OnDevice(0, 1), 6, map[])], map[][OnDevice(0, 2) := map[OnDevice(0, 1) := 6]][OnDevice(0, 2) := map[OnDevice(0, 0) := 3, OnDevice(0, 1) := 6]], [])
  }

  function StackedBlocksAllEventsState12(): SimState
  {
    SimState(map[][0 := Mark(OnDevice(0, 0), 3, map[])][1 := Mark(OnDevice(0, 1), 6, map[])], map[][OnDevice(0, 2) := map[OnDevice(0, 1) := 6]][OnDevice(0, 2) := map[OnDevice(0, 0) := 3, OnDevice(0, 1) := 6]], [])
  }

  function StackedBlocksAllEventsState13(): SimState
  {
    SimState(map[][0 := Mark(OnDevice(0, 0), 3, map[])][1 := Mark(OnDevice(0, 1), 6, map[])], map[][OnDevice(0, 2) := map[OnDevice(0, 1) := 6]][OnDevice(0, 2) := map[OnDevice(0, 0) := 3, OnDevice(0, 1) := 6]], [])
  }

  function StackedBlocksAllEventsState14(): SimState
  {
    SimState(map[][0 := Mark(OnDevice(0, 0), 3, map[])][1 := Mark(OnDevice(0, 1), 6, map[])][2 := Mark(OnDevice(0, 2), 13, map[OnDevice(0, 0) := 3, OnDevice(0, 1) := 6])], map[][OnDevice(0, 2) := map[OnDevice(0, 1) := 6]][OnDevice(0, 2) := map[OnDevice(0, 0) := 3, OnDevice(0, 1) := 6]], [])
  }

  function StackedBlocksAllEventsState15(): SimState
  {
    SimState(map[][0 := Mark(OnDevice(0, 0), 3, map[])][1 := Mark(OnDevice(0, 1), 6, map[])][2 := Mark(OnDevice(0, 2), 13, map[OnDevice(0, 0) := 3, OnDevice(0, 1) := 6])], map[][OnDevice(0, 2) := map[OnDevice(0, 1) := 6]][OnDevice(0, 2) := map[OnDevice(0, 0) := 3, OnDevice(0, 1) := 6]], [])
  }

  function StackedBlocksAllEventsState16(): SimState
  {
    SimState(map[][0 := Mark(OnDevice(0, 0), 3, map[])][1 := Mark(OnDevice(0, 1), 6, map[])][2 := Mark(OnDevice(0, 2), 13, map[OnDevice(0, 0) := 3, OnDevice(0, 1) := 6])], map[][OnDevice(0, 2) := map[OnDevice(0, 1) := 6]][OnDevice(0, 2) := map[OnDevice(0, 0) := 3, OnDevice(0, 1) := 6]], [])
  }

  function StackedBlocksAllEventsState17(): SimState
  {
    SimState(map[][0 := Mark(OnDevice(0, 0), 3, map[])][1 := Mark(OnDevice(0, 1), 6, map[])][2 := Mark(OnDevice(0, 2), 13, map[OnDevice(0, 0) := 3, OnDevice(0, 1) := 6])][3 := Mark(OnDevice(0, 2), 16, map[OnDevice(0, 0) := 3, OnDevice(0, 1) := 6])], map[][OnDevice(0, 2) := map[OnDevice(0, 1) := 6]][OnDevice(0, 2) := map[OnDevice(0, 0) := 3, OnDevice(0, 1) := 6]], [])
  }

  function StackedBlocksAllEventsState18(): SimState
  {
    SimState(map[][0 := Mark(OnDevice(0, 0), 3, map[])][1 := Mark(OnDevice(0, 1), 6, map[])][2 := Mark(OnDevice(0, 2), 13, map[OnDevice(0, 0) := 3, OnDevice(0, 1) := 6])][3 := Mark(OnDevice(0, 2), 16, map[OnDevice(0, 0) := 3, OnDevice(0, 1) := 6])], map[][OnDevice(0, 2) := map[OnDevice(0, 1) := 6]][OnDevice(0, 2) := map[OnDevice(0, 0) := 3, OnDevice(0, 1) := 6]], [])
  }

  function StackedBlocksAllEventsState19(): SimState
  {
    SimState(map[][0 := Mark(OnDevice(0, 0), 3, map[])][1 := Mark(OnDevice(0, 1), 6, map[])][2 := Mark(OnDevice(0, 2), 13, map[OnDevice(0, 0) := 3, OnDevice(0, 1) := 6])][3 := Mark(OnDevice(0, 2), 16, map[OnDevice(0, 0) := 3, OnDevice(0, 1) := 6])], map[][OnDevice(0, 2) := map[OnDevice(0, 1) := 6]][OnDevice(0, 2) := map[OnDevice(0, 0) := 3, OnDevice(0, 1) := 6]][OnDevice(0, 1) := map[OnDevice(0, 0) := 3, OnDevice(0, 1) := 6, OnDevice(0, 2) := 13]], [])
  }

  function StackedBlocksAllEventsState20(): SimState
  {
    SimState(map[][0 := Mark(OnDevice(0, 0), 3, map[])][1 := Mark(OnDevice(0, 1), 6, map[])][2 := Mark(OnDevice(0, 2), 13, map[OnDevice(0, 0) := 3, OnDevice(0, 1) := 6])][3 := Mark(OnDevice(0, 2), 16, map[OnDevice(0, 0) := 3, OnDevice(0, 1) := 6])], map[][OnDevice(0, 2) := map[OnDevice(0, 1) := 6]][OnDevice(0, 2) := map[OnDevice(0, 0) := 3, OnDevice(0, 1) := 6]][OnDevice(0, 1) := map[OnDevice(0, 0) := 3, OnDevice(0, 1) := 6, OnDevice(0, 2) := 13]], [])
  }

  function StackedBlocksAllEventsState21(): SimState
  {
    SimState(map[][0 := Mark(OnDevice(0, 0), 3, map[])][1 := Mark(OnDevice(0, 1), 6, map[])][2 := Mark(OnDevice(0, 2), 13, map[OnDevice(0, 0) := 3, OnDevice(0, 1) := 6])][3 := Mark(OnDevice(0, 2), 16, map[OnDevice(0, 0) := 3, OnDevice(0, 1) := 6])][4 := Mark(OnDevice(0, 1), 20, map[OnDevice(0, 0) := 3, OnDevice(0, 1) := 6, OnDevice(0, 2) := 13])], map[][OnDevice(0, 2) := map[OnDevice(0, 1) := 6]][OnDevice(0, 2) := map[OnDevice(0, 0) := 3, OnDevice(0, 1) := 6]][OnDevice(0, 1) := map[OnDevice(0, 0) := 3, OnDevice(0, 1) := 6, OnDevice(0, 2) := 13]], [])
  }

  function StackedBlocksAllEventsState22(): SimState
  {
    SimState(map[][0 := Mark(OnDevice(0, 0), 3, map[])][1 := Mark(OnDevice(0, 1), 6, map[])][2 := Mark(OnDevice(0, 2), 13, map[OnDevice(0, 0) := 3, OnDevice(0, 1) := 6])][3 := Mark(OnDevice(0, 2), 16, map[OnDevice(0, 0) := 3, OnDevice(0, 1) := 6])][4 := Mark(OnDevice(0, 1), 20, map[OnDevice(0, 0) := 3, OnDevice(0, 1) := 6, OnDevice(0, 2) := 13])], map[][OnDevice(0, 2) := map[OnDevice(0, 1) := 6]][OnDevice(0, 2) := map[OnDevice(0, 0) := 3, OnDevice(0, 1) := 6]][OnDevice(0, 1) := map[OnDevice(0, 0) := 3, OnDevice(0, 1) := 6, OnDevice(0, 2) := 13]], [])
  }

  function StackedBlocksAllEventsState23(): SimState
  {
    SimState(map[][0 := Mark(OnDevice(0, 0), 3, map[])][1 := Mark(OnDevice(0, 1), 6, map[])][2 := Mark(OnDevice(0, 2), 13, map[OnDevice(0, 0) := 3, OnDevice(0, 1) := 6])][3 := Mark(OnDevice(0, 2), 16, map[OnDevice(0, 0) := 3, OnDevice(0, 1) := 6])][4 := Mark(OnDevice(0, 1), 20, map[OnDevice(0, 0) := 3, OnDevice(0, 1) := 6, OnDevice(0, 2) := 13])], map[][OnDevice(0, 2) := map[OnDevice(0, 1) := 6]][OnDevice(0, 2) := map[OnDevice(0, 0) := 3, OnDevice(0, 1) := 6]][OnDevice(0, 1) := map[OnDevice(0, 0) := 3, OnDevice(0, 1) := 6, OnDevice(0, 2) := 13]][OnDevice(0, 0) := map[OnDevice(0, 0) := 3, OnDevice(0, 1) := 6, OnDevice(0, 2) := 13]], [])
  }

  function StackedBlocksAllEventsState24(): SimState
  {
    SimState(map[][0 := Mark(OnDevice(0, 0), 3, map[])][1 := Mark(OnDevice(0, 1), 6, map[])][2 := Mark(OnDevice(0, 2), 13, map[OnDevice(0, 0) := 3, OnDevice(0, 1) := 6])][3 := Mark(OnDevice(0, 2), 16, map[OnDevice(0, 0) := 3, OnDevice(0, 1) := 6])][4 := Mark(OnDevice(0, 1), 20, map[OnDevice(0, 0) := 3, OnDevice(0, 1) := 6, OnDevice(0, 2) := 13])], map[][OnDevice(0, 2) := map[OnDevice(0, 1) := 6]][OnDevice(0, 2) := map[OnDevice(0, 0) := 3, OnDevice(0, 1) := 6]][OnDevice(0, 1) := map[OnDevice(0, 0) := 3, OnDevice(0, 1) := 6, OnDevice(0, 2) := 13]][OnDevice(0, 0) := map[OnDevice(0, 0) := 3, OnDevice(0, 1) := 6, OnDevice(0, 2) := 13]], [])
  }

  function StackedBlocksAllEventsState25(): SimState
  {
    SimState(map[][0 := Mark(OnDevice(0, 0), 3, map[])][1 := Mark(OnDevice(0, 1), 6, map[])][2 := Mark(OnDevice(0, 2), 13, map[OnDevice(0, 0) := 3, OnDevice(0, 1) := 6])][3 := Mark(OnDevice(0, 2), 16, map[OnDevice(0, 0) := 3, OnDevice(0, 1) := 6])][4 := Mark(OnDevice(0, 1), 20, map[OnDevice(0, 0) := 3, OnDevice(0, 1) := 6, OnDevice(0, 2) := 13])], map[][OnDevice(0, 2) := map[OnDevice(0, 1) := 6]][OnDevice(0, 2) := map[OnDevice(0, 0) := 3, OnDevice(0, 1) := 6]][OnDevice(0, 1) := map[OnDevice(0, 0) := 3, OnDevice(0, 1) := 6, OnDevice(0, 2) := 13]][OnDevice(0, 0) := map[OnDevice(0, 0) := 3, OnDevice(0, 1) := 6, OnDevice(0, 2) := 13]][OnDevice(0, 0) := map[OnDevice(0, 0) := 3, OnDevice(0, 1) := 20, OnDevice(0, 2) := 13]], [])
  }

  function StackedBlocksAllEventsState26(): SimState
  {
    SimState(map[][0 := Mark(OnDevice(0, 0), 3, map[])][1 := Mark(OnDevice(0, 1), 6, map[])][2 := Mark(OnDevice(0, 2), 13, map[OnDevice(0, 0) := 3, OnDevice(0, 1) := 6])][3 := Mark(OnDevice(0, 2), 16, map[OnDevice(0, 0) := 3, OnDevice(0, 1) := 6])][4 := Mark(OnDevice(0, 1), 20, map[OnDevice(0, 0) := 3, OnDevice(0, 1) := 6, OnDevice(0, 2) := 13])], map[][OnDevice(0, 2) := map[OnDevice(0, 1) := 6]][OnDevice(0, 2) := map[OnDevice(0, 0) := 3, OnDevice(0, 1) := 6]][OnDevice(0, 1) := map[OnDevice(0, 0) := 3, OnDevice(0, 1) := 6, OnDevice(0, 2) := 13]][OnDevice(0, 0) := map[OnDevice(0, 0) := 3, OnDevice(0, 1) := 6, OnDevice(0, 2) := 13]][OnDevice(0, 0) := map[OnDevice(0, 0) := 3, OnDevice(0, 1) := 20, OnDevice(0, 2) := 13]][OnDevice(0, 0) := map[OnDevice(0, 0) := 3, OnDevice(0, 1) := 20, OnDevice(0, 2) := 16]], [])
  }

  function StackedBlocksAllEventsState27(): SimState
  {
    SimState(map[][0 := Mark(OnDevice(0, 0), 3, map[])][1 := Mark(OnDevice(0, 1), 6, map[])][2 := Mark(OnDevice(0, 2), 13, map[OnDevice(0, 0) := 3, OnDevice(0, 1) := 6])][3 := Mark(OnDevice(0, 2), 16, map[OnDevice(0, 0) := 3, OnDevice(0, 1) := 6])][4 := Mark(OnDevice(0, 1), 20, map[OnDevice(0, 0) := 3, OnDevice(0, 1) := 6, OnDevice(0, 2) := 13])], map[][OnDevice(0, 2) := map[OnDevice(0, 1) := 6]][OnDevice(0, 2) := map[OnDevice(0, 0) := 3, OnDevice(0, 1) := 6]][OnDevice(0, 1) := map[OnDevice(0, 0) := 3, OnDevice(0, 1) := 6, OnDevice(0, 2) := 13]][OnDevice(0, 0) := map[OnDevice(0, 0) := 3, OnDevice(0, 1) := 6, OnDevice(0, 2) := 13]][OnDevice(0, 0) := map[OnDevice(0, 0) := 3, OnDevice(0, 1) := 20, OnDevice(0, 2) := 13]][OnDevice(0, 0) := map[OnDevice(0, 0) := 3, OnDevice(0, 1) := 20, OnDevice(0, 2) := 16]], [])
  }

  function StackedBlocksAllEventsState28(): SimState
  {
    SimState(map[][0 := Mark(OnDevice(0, 0), 3, map[])][1 := Mark(OnDevice(0, 1), 6, map[])][2 := Mark(OnDevice(0, 2), 13, map[OnDevice(0, 0) := 3, OnDevice(0, 1) := 6])][3 := Mark(OnDevice(0, 2), 16, map[OnDevice(0, 0) := 3, OnDevice(0, 1) := 6])][4 := Mark(OnDevice(0, 1), 20, map[OnDevice(0, 0) := 3, OnDevice(0, 1) := 6, OnDevice(0, 2) := 13])], map[][OnDevice(0, 2) := map[OnDevice(0, 1) := 6]][OnDevice(0, 2) := map[OnDevice(0, 0) := 3, OnDevice(0, 1) := 6]][OnDevice(0, 1) := map[OnDevice(0, 0) := 3, OnDevice(0, 1) := 6, OnDevice(0, 2) := 13]][OnDevice(0, 0) := map[OnDevice(0, 0) := 3, OnDevice(0, 1) := 6, OnDevice(0, 2) := 13]][OnDevice(0, 0) := map[OnDevice(0, 0) := 3, OnDevice(0, 1) := 20, OnDevice(0, 2) := 13]][OnDevice(0, 0) := map[OnDevice(0, 0) := 3, OnDevice(0, 1) := 20, OnDevice(0, 2) := 16]], [])
  }

  lemma StackedBlocksAllEventsAdvance0(removed: set<EventId>, g: seq<Node>, defs: seq<map<VarId, nat>>)
    requires 0 !in removed && 1 !in removed && 2 !in removed && 3 !in removed && 4 !in removed
    requires |g| == 28
    requires g[0] == Node(SetStream(0, 0), OnDevice(0, 0), [])
    requires |defs| == 29
    requires defs[0] == map[]
    requires defs[1] == map[0 := 0]
    ensures |StackedBlocks(removed)| == 28 && Advances(StackedBlocks(removed), g, defs, 0)
  {
    var p := StackedBlocks(removed);
    assert p[0] == Let(0, SetStream(0, 0));
  }

  lemma StackedBlocksAllEventsAdvance1(removed: set<EventId>, g: seq<Node>, defs: seq<map<VarId, nat>>)
    requires 0 !in removed && 1 !in removed && 2 !in removed && 3 !in removed && 4 !in removed
    requires |g| == 28
    requires g[0] == Node(SetStream(0, 0), OnDevice(0, 0), [])
    requires g[1] == Node(Atan(X), OnDevice(0, 0), [])
    requires |defs| == 29
    requires defs[1] == map[0 := 0]
    requires defs[2] == map[0 := 0, 1 := 1]
    ensures |StackedBlocks(removed)| == 28 && Advances(StackedBlocks(removed), g, defs, 1)
  {
    var p := StackedBlocks(removed);
    assert p[1] == Let(1, Atan(X));
  }

  lemma StackedBlocksAllEventsAdvance2(removed: set<EventId>, g: seq<Node>, defs: seq<map<VarId, nat>>)
    requires 0 !in removed && 1 !in removed && 2 !in removed && 3 !in removed && 4 !in removed
    requires |g| == 28
    requires g[1] == Node(Atan(X), OnDevice(0, 0), [])
    requires g[2] == Node(Atan(LetVar(1)), OnDevice(0, 0), [1])
    requires |defs| == 29
    requires defs[2] == map[0 := 0, 1 := 1]
    requires defs[3] == map[0 := 0, 1 := 1, 2 := 2]
    ensures |StackedBlocks(removed)| == 28 && Advances(StackedBlocks(removed), g, defs, 2)
  {
    var p := StackedBlocks(removed);
    assert p[2] == Let(2, Atan(LetVar(1)));
  }

  lemma StackedBlocksAllEventsAdvance3(removed: set<EventId>, g: seq<Node>, defs: seq<map<VarId, nat>>)
    requires 0 !in removed && 1 !in removed && 2 !in removed && 3 !in removed && 4 !in removed
    requires |g| == 28
    requires g[2] == Node(Atan(LetVar(1)), OnDevice(0, 0), [1])
    requires g[3] == Node(AddEvent(0), OnDevice(0, 0), [])
    requires |defs| == 29
    requires defs[3] == map[0 := 0, 1 := 1, 2 := 2]
    requires defs[4] == map[0 := 0, 1 := 1, 2 := 2, 3 := 3]
    ensures |StackedBlocks(removed)| == 28 && Advances(StackedBlocks(removed), g, defs, 3)
  {
    var p := StackedBlocks(removed);
    assert p[3] == Let(3, AddEvent(0));
  }

  lemma StackedBlocksAllEventsAdvance4(removed: set<EventId>, g: seq<Node>, defs: seq<map<VarId, nat>>)
    requires 0 !in removed && 1 !in removed && 2 !in removed && 3 !in removed && 4 !in removed
    requires |g| == 28
    requires g[3] == Node(AddEvent(0), OnDevice(0, 0), [])
    requires g[4] == Node(SetStream(0, 1), OnDevice(0, 1), [])
    requires |defs| == 29
    requires defs[4] == map[0 := 0, 1 := 1, 2 := 2, 3 := 3]
    requires defs[5] == map[0 := 0, 1 := 1, 2 := 2, 3 := 3, 4 := 4]
    ensures |StackedBlocks(removed)| == 28 && Advances(StackedBlocks(removed), g, defs, 4)
  {
    var p := StackedBlocks(removed);
    assert p[4] == Let(4, SetStream(0, 1));
  }

  lemma StackedBlocksAllEventsAdvance5(removed: set<EventId>, g: seq<Node>, defs: seq<map<VarId, nat>>)
    requires 0 !in removed && 1 !in removed && 2 !in removed && 3 !in removed && 4 !in removed
    requires |g| == 28
    requires g[4] == Node(SetStream(0, 1), OnDevice(0, 1), [])
    requires g[5] == Node(Atan(X), OnDevice(0, 1), [])
    requires |defs| == 29
    requires defs[5] == map[0 := 0, 1 := 1, 2 := 2, 3 := 3, 4 := 4]
    requires defs[6] == map[0 := 0, 1 := 1, 2 := 2, 3 := 3, 4 := 4, 5 := 5]
    ensures |StackedBlocks(removed)| == 28 && Advances(StackedBlocks(removed), g, defs, 5)
  {
    var p := StackedBlocks(removed);
    assert p[5] == Let(5, Atan(X));
  }

  lemma StackedBlocksAllEventsAdvance6(removed: set<EventId>, g: seq<Node>, defs: seq<map<VarId, nat>>)
    requires 0 !in removed && 1 !in removed && 2 !in removed && 3 !in removed && 4 !in removed
    requires |g| == 28
    requires g[5] == Node(Atan(X), OnDevice(0, 1), [])
    requires g[6] == Node(AddEvent(1), OnDevice(0, 1), [])
    requires |defs| == 29
    requires defs[6] == map[0 := 0, 1 := 1, 2 := 2, 3 := 3, 4 := 4, 5 := 5]
    requires defs[7] == map[0 := 0, 1 := 1, 2 := 2, 3 := 3, 4 := 4, 5 := 5, 6 := 6]
    ensures |StackedBlocks(removed)| == 28 && Advances(StackedBlocks(removed), g, defs, 6)
  {
    var p := StackedBlocks(removed);
    assert p[6] == Let(6, AddEvent(1));
  }

  lemma StackedBlocksAllEventsAdvance7(removed: set<EventId>, g: seq<Node>, defs: seq<map<VarId, nat>>)
    requires 0 !in removed && 1 !in removed && 2 !in removed && 3 !in removed && 4 !in removed
    requires |g| == 28
    requires g[6] == Node(AddEvent(1), OnDevice(0, 1), [])
    requires g[7] == Node(SetStream(0, 2), OnDevice(0, 2), [])
    requires |defs| == 29
    requires defs[7] == map[0 := 0, 1 := 1, 2 := 2, 3 := 3, 4 := 4, 5 := 5, 6 := 6]
    requires defs[8] == map[0 := 0, 1 := 1, 2 := 2, 3 := 3, 4 := 4, 5 := 5, 6 := 6, 7 := 7]
    ensures |StackedBlocks(removed)| == 28 && Advances(StackedBlocks(removed), g, defs, 7)
  {
    var p := StackedBlocks(removed);
    assert p[7] == Let(7, SetStream(0, 2));
  }

  lemma StackedBlocksAllEventsAdvance8(removed: set<EventId>, g: seq<Node>, defs: seq<map<VarId, nat>>)
    requires 0 !in removed && 1 !in removed && 2 !in removed && 3 !in removed && 4 !in removed
    requires |g| == 28
    requires g[7] == Node(SetStream(0, 2), OnDevice(0, 2), [])
    requires g[8] == Node(Atan(X), OnDevice(0, 2), [])
    requires |defs| == 29
    requires defs[8] == map[0 := 0, 1 := 1, 2 := 2, 3 := 3, 4 := 4, 5 := 5, 6 := 6, 7 := 7]
    requires defs[9] == map[0 := 0, 1 := 1, 2 := 2, 3 := 3, 4 := 4, 5 := 5, 6 := 6, 7 := 7, 8 := 8]
    ensures |StackedBlocks(removed)| == 28 && Advances(StackedBlocks(removed), g, defs, 8)
  {
    var p := StackedBlocks(removed);
    assert p[8] == Let(8, Atan(X));
  }

  lemma StackedBlocksAllEventsAdvance9(removed: set<EventId>, g: seq<Node>, defs: seq<map<VarId, nat>>)
    requires 0 !in removed && 1 !in removed && 2 !in removed && 3 !in removed && 4 !in removed
    requires |g| == 28
    requires g[8] == Node(Atan(X), OnDevice(0, 2), [])
    requires g[9] == Node(WaitEvent(1), OnDevice(0, 2), [])
    requires |defs| == 29
    requires defs[9] == map[0 := 0, 1 := 1, 2 := 2, 3 := 3, 4 := 4, 5 := 5, 6 := 6, 7 := 7, 8 := 8]
    requires defs[10] == map[0 := 0, 1 := 1, 2 := 2, 3 := 3, 4 := 4, 5 := 5, 6 := 6, 7 := 7, 8 := 8, 9 := 9]
    ensures |StackedBlocks(removed)| == 28 && Advances(StackedBlocks(removed), g, defs, 9)
  {
    var p := StackedBlocks(removed);
    assert p[9] == Let(9, WaitEvent(1));
  }

  lemma StackedBlocksAllEventsAdvance10(removed: set<EventId>, g: seq<Node>, defs: seq<map<VarId, nat>>)
    requires 0 !in removed && 1 !in removed && 2 !in removed && 3 !in removed && 4 !in removed
    requires |g| == 28
    requires g[9] == Node(WaitEvent(1), OnDevice(0, 2), [])
    requires g[10] == Node(WaitEvent(0), OnDevice(0, 2), [])
    requires |defs| == 29
    requires defs[10] == map[0 := 0, 1 := 1, 2 := 2, 3 := 3, 4 := 4, 5 := 5, 6 := 6, 7 := 7, 8 := 8, 9 := 9]
    requires defs[11] == map[0 := 0, 1 := 1, 2 := 2, 3 := 3, 4 := 4, 5 := 5, 6 := 6, 7 := 7, 8 := 8, 9 := 9, 10 := 10]
    ensures |StackedBlocks(removed)| == 28 && Advances(StackedBlocks(removed), g, defs, 10)
  {
    var p := StackedBlocks(removed);
    assert p[10] == Let(10, WaitEvent(0));
  }

  lemma StackedBlocksAllEventsAdvance11(removed: set<EventId>, g: seq<Node>, defs: seq<map<VarId, nat>>)
    requires 0 !in removed && 1 !in removed && 2 !in removed && 3 !in removed && 4 !in removed
    requires |g| == 28
    requires g[10] == Node(WaitEvent(0), OnDevice(0, 2), [])
    requires g[11] == Node(MakeTuple([LetVar(8), LetVar(5), LetVar(2)]), OnDevice(0, 2), [8, 5, 2])
    requires |defs| == 29
    requires defs[11] == map[0 := 0, 1 := 1, 2 := 2, 3 := 3, 4 := 4, 5 := 5, 6 := 6, 7 := 7, 8 := 8, 9 := 9, 10 := 10]
    requires defs[12] == map[0 := 0, 1 := 1, 2 := 2, 3 := 3, 4 := 4, 5 := 5, 6 := 6, 7 := 7, 8 := 8, 9 := 9, 10 := 10, 11 := 11]
    ensures |StackedBlocks(removed)| == 28 && Advances(StackedBlocks(removed), g, defs, 11)
  {
    var p := StackedBlocks(removed);
    assert p[11] == Let(11, MakeTuple([LetVar(8), LetVar(5), LetVar(2)]));
  }

  lemma StackedBlocksAllEventsAdvance12(removed: set<EventId>, g: seq<Node>, defs: seq<map<VarId, nat>>)
    requires 0 !in removed && 1 !in removed && 2 !in removed && 3 !in removed && 4 !in removed
    requires |g| == 28
    requires g[11] == Node(MakeTuple([LetVar(8), LetVar(5), LetVar(2)]), OnDevice(0, 2), [8, 5, 2])
    requires g[12] == Node(Concatenate(LetVar(11), 0), OnDevice(0, 2), [11])
    requires |defs| == 29
    requires defs[12] == map[0 := 0, 1 := 1, 2 := 2, 3 := 3, 4 := 4, 5 := 5, 6 := 6, 7 := 7, 8 := 8, 9 := 9, 10 := 10, 11 := 11]
    requires defs[13] == map[0 := 0, 1 := 1, 2 := 2, 3 := 3, 4 := 4, 5 := 5, 6 := 6, 7 := 7, 8 := 8, 9 := 9, 10 := 10, 11 := 11, 12 := 12]
    ensures |StackedBlocks(removed)| == 28 && Advances(StackedBlocks(removed), g, defs, 12)
  {
    var p := StackedBlocks(removed);
    assert p[12] == Let(12, Concatenate(LetVar(11), 0));
  }

  lemma StackedBlocksAllEventsAdvance13(removed: set<EventId>, g: seq<Node>, defs: seq<map<VarId, nat>>)
    requires 0 !in removed && 1 !in removed && 2 !in removed && 3 !in removed && 4 !in removed
    requires |g| == 28
    requires g[12] == Node(Concatenate(LetVar(11), 0), OnDevice(0, 2), [11])
    requires g[13] == Node(AddEvent(2), OnDevice(0, 2), [])
    requires |defs| == 29
    requires defs[13] == map[0 := 0, 1 := 1, 2 := 2, 3 := 3, 4 := 4, 5 := 5, 6 := 6, 7 := 7, 8 := 8, 9 := 9, 10 := 10, 11 := 11, 12 := 12]
    requires defs[14] == map[0 := 0, 1 := 1, 2 := 2, 3 := 3, 4 := 4, 5 := 5, 6 := 6, 7 := 7, 8 := 8, 9 := 9, 10 := 10, 11 := 11, 12 := 12, 13 := 13]
    ensures |StackedBlocks(removed)| == 28 && Advances(StackedBlocks(removed), g, defs, 13)
  {
    var p := StackedBlocks(removed);
    assert p[13] == Let(13, AddEvent(2));
  }

  lemma StackedBlocksAllEventsAdvance14(removed: set<EventId>, g: seq<Node>, defs: seq<map<VarId, nat>>)
    requires 0 !in removed && 1 !in removed && 2 !in removed && 3 !in removed && 4 !in removed
    requires |g| == 28
    requires g[13] == Node(AddEvent(2), OnDevice(0, 2), [])
    requires g[14] == Node(Atan(LetVar(12)), OnDevice(0, 2), [12])
    requires |defs| == 29
    requires defs[14] == map[0 := 0, 1 := 1, 2 := 2, 3 := 3, 4 := 4, 5 := 5, 6 := 6, 7 := 7, 8 := 8, 9 := 9, 10 := 10, 11 := 11, 12 := 12, 13 := 13]
    requires defs[15] == map[0 := 0, 1 := 1, 2 := 2, 3 := 3, 4 := 4, 5 := 5, 6 := 6, 7 := 7, 8 := 8, 9 := 9, 10 := 10, 11 := 11, 12 := 12, 13 := 13, 14 := 14]
    ensures |StackedBlocks(removed)| == 28 && Advances(StackedBlocks(removed), g, defs, 14)
  {
    var p := StackedBlocks(removed);
    assert p[14] == Let(14, Atan(LetVar(12)));
  }

  lemma StackedBlocksAllEventsAdvance15(removed: set<EventId>, g: seq<Node>, defs: seq<map<VarId, nat>>)
    requires 0 !in removed && 1 !in removed && 2 !in removed && 3 !in removed && 4 !in removed
    requires |g| == 28
    requires g[14] == Node(Atan(LetVar(12)), OnDevice(0, 2), [12])
    requires g[15] == Node(Atan(LetVar(14)), OnDevice(0, 2), [14])
    requires |defs| == 29
    requires defs[15] == map[0 := 0, 1 := 1, 2 := 2, 3 := 3, 4 := 4, 5 := 5, 6 := 6, 7 := 7, 8 := 8, 9 := 9, 10 := 10, 11 := 11, 12 := 12, 13 := 13, 14 := 14]
    requires defs[16] == map[0 := 0, 1 := 1, 2 := 2, 3 := 3, 4 := 4, 5 := 5, 6 := 6, 7 := 7, 8 := 8, 9 := 9, 10 := 10, 11 := 11, 12 := 12, 13 := 13, 14 := 14, 15 := 15]
    ensures |StackedBlocks(removed)| == 28 && Advances(StackedBlocks(removed), g, defs, 15)
  {
    var p := StackedBlocks(removed);
    assert p[15] == Let(15, Atan(LetVar(14)));
  }

  lemma StackedBlocksAllEventsAdvance16(removed: set<EventId>, g: seq<Node>, defs: seq<map<VarId, nat>>)
    requires 0 !in removed && 1 !in removed && 2 !in removed && 3 !in removed && 4 !in removed
    requires |g| == 28
    requires g[15] == Node(Atan(LetVar(14)), OnDevice(0, 2), [14])
    requires g[16] == Node(AddEvent(3), OnDevice(0, 2), [])
    requires |defs| == 29
    requires defs[16] == map[0 := 0, 1 := 1, 2 := 2, 3 := 3, 4 := 4, 5 := 5, 6 := 6, 7 := 7, 8 := 8, 9 := 9, 10 := 10, 11 := 11, 12 := 12, 13 := 13, 14 := 14, 15 := 15]
    requires defs[17] == map[0 := 0, 1 := 1, 2 := 2, 3 := 3, 4 := 4, 5 := 5, 6 := 6, 7 := 7, 8 := 8, 9 := 9, 10 := 10, 11 := 11, 12 := 12, 13 := 13, 14 := 14, 15 := 15, 16 := 16]
    ensures |StackedBlocks(removed)| == 28 && Advances(StackedBlocks(removed), g, defs, 16)
  {
    var p := StackedBlocks(removed);
    assert p[16] == Let(16, AddEvent(3));
  }

  lemma StackedBlocksAllEventsAdvance17(removed: set<EventId>, g: seq<Node>, defs: seq<map<VarId, nat>>)
    requires 0 !in removed && 1 !in removed && 2 !in removed && 3 !in removed && 4 !in removed
    requires |g| == 28
    requires g[16] == Node(AddEvent(3), OnDevice(0, 2), [])
    requires g[17] == Node(SetStream(0, 1), OnDevice(0, 1), [])
    requires |defs| == 29
    requires defs[17] == map[0 := 0, 1 := 1, 2 := 2, 3 := 3, 4 := 4, 5 := 5, 6 := 6, 7 := 7, 8 := 8, 9 := 9, 10 := 10, 11 := 11, 12 := 12, 13 := 13, 14 := 14, 15 := 15, 16 := 16]
    requires defs[18] == map[0 := 0, 1 := 1, 2 := 2, 3 := 3, 4 := 4, 5 := 5, 6 := 6, 7 := 7, 8 := 8, 9 := 9, 10 := 10, 11 := 11, 12 := 12, 13 := 13, 14 := 14, 15 := 15, 16 := 16, 17 := 17]
    ensures |StackedBlocks(removed)| == 28 && Advances(StackedBlocks(removed), g, defs, 17)
  {
    var p := StackedBlocks(removed);
    assert p[17] == Let(17, SetStream(0, 1));
  }

  lemma StackedBlocksAllEventsAdvance18(removed: set<EventId>, g: seq<Node>, defs: seq<map<VarId, nat>>)
    requires 0 !in removed && 1 !in removed && 2 !in removed && 3 !in removed && 4 !in removed
    requires |g| == 28
    requires g[17] == Node(SetStream(0, 1), OnDevice(0, 1), [])
    requires g[18] == Node(WaitEvent(2), OnDevice(0, 1), [])
    requires |defs| == 29
    requires defs[18] == map[0 := 0, 1 := 1, 2 := 2, 3 := 3, 4 := 4, 5 := 5, 6 := 6, 7 := 7, 8 := 8, 9 := 9, 10 := 10, 11 := 11, 12 := 12, 13 := 13, 14 := 14, 15 := 15, 16 := 16, 17 := 17]
    requires defs[19] == map[0 := 0, 1 := 1, 2 := 2, 3 := 3, 4 := 4, 5 := 5, 6 := 6, 7 := 7, 8 := 8, 9 := 9, 10 := 10, 11 := 11, 12 := 12, 13 := 13, 14 := 14, 15 := 15, 16 := 16, 17 := 17, 18 := 18]
    ensures |StackedBlocks(removed)| == 28 && Advances(StackedBlocks(removed), g, defs, 18)
  {
    var p := StackedBlocks(removed);
    assert p[18] == Let(18, WaitEvent(2));
  }

  lemma StackedBlocksAllEventsAdvance19(removed: set<EventId>, g: seq<Node>, defs: seq<map<VarId, nat>>)
    requires 0 !in removed && 1 !in removed && 2 !in removed && 3 !in removed && 4 !in removed
    requires |g| == 28
    requires g[18] == Node(WaitEvent(2), OnDevice(0, 1), [])
    requires g[19] == Node(Atan(LetVar(12)), OnDevice(0, 1), [12])
    requires |defs| == 29
    requires defs[19] == map[0 := 0, 1 := 1, 2 := 2, 3 := 3, 4 := 4, 5 := 5, 6 := 6, 7 := 7, 8 := 8, 9 := 9, 10 := 10, 11 := 11, 12 := 12, 13 := 13, 14 := 14, 15 := 15, 16 := 16, 17 := 17, 18 := 18]
    requires defs[20] == map[0 := 0, 1 := 1, 2 := 2, 3 := 3, 4 := 4, 5 := 5, 6 := 6, 7 := 7, 8 := 8, 9 := 9, 10 := 10, 11 := 11, 12 := 12, 13 := 13, 14 := 14, 15 := 15, 16 := 16, 17 := 17, 18 := 18, 19 := 19]
    ensures |StackedBlocks(removed)| == 28 && Advances(StackedBlocks(removed), g, defs, 19)
  {
    var p := StackedBlocks(removed);
    assert p[19] == Let(19, Atan(LetVar(12)));
  }

  lemma StackedBlocksAllEventsAdvance20(removed: set<EventId>, g: seq<Node>, defs: seq<map<VarId, nat>>)
    requires 0 !in removed && 1 !in removed && 2 !in removed && 3 !in removed && 4 !in removed
    requires |g| == 28
    requires g[19] == Node(Atan(LetVar(12)), OnDevice(0, 1), [12])
    requires g[20] == Node(AddEvent(4), OnDevice(0, 1), [])
    requires |defs| == 29
    requires defs[20] == map[0 := 0, 1 := 1, 2 := 2, 3 := 3, 4 := 4, 5 := 5, 6 := 6, 7 := 7, 8 := 8, 9 := 9, 10 := 10, 11 := 11, 12 := 12, 13 := 13, 14 := 14, 15 := 15, 16 := 16, 17 := 17, 18 := 18, 19 := 19]
    requires defs[21] == map[0 := 0, 1 := 1, 2 := 2, 3 := 3, 4 := 4, 5 := 5, 6 := 6, 7 := 7, 8 := 8, 9 := 9, 10 := 10, 11 := 11, 12 := 12, 13 := 13, 14 := 14, 15 := 15, 16 := 16, 17 := 17, 18 := 18, 19 := 19, 20 := 20]
    ensures |StackedBlocks(removed)| == 28 && Advances(StackedBlocks(removed), g, defs, 20)
  {
    var p := StackedBlocks(removed);
    assert p[20] == Let(20, AddEvent(4));
  }

  lemma StackedBlocksAllEventsAdvance21(removed: set<EventId>, g: seq<Node>, defs: seq<map<VarId, nat>>)
    requires 0 !in removed && 1 !in removed && 2 !in removed && 3 !in removed && 4 !in removed
    requires |g| == 28
    requires g[20] == Node(AddEvent(4), OnDevice(0, 1), [])
    requires g[21] == Node(SetStream(0, 0), OnDevice(0, 0), [])
    requires |defs| == 29
    requires defs[21] == map[0 := 0, 1 := 1, 2 := 2, 3 := 3, 4 := 4, 5 := 5, 6 := 6, 7 := 7, 8 := 8, 9 := 9, 10 := 10, 11 := 11, 12 := 12, 13 := 13, 14 := 14, 15 := 15, 16 := 16, 17 := 17, 18 := 18, 19 := 19, 20 := 20]
    requires defs[22] == map[0 := 0, 1 := 1, 2 := 2, 3 := 3, 4 := 4, 5 := 5, 6 := 6, 7 := 7, 8 := 8, 9 := 9, 10 := 10, 11 := 11, 12 := 12, 13 := 13, 14 := 14, 15 := 15, 16 := 16, 17 := 17, 18 := 18, 19 := 19, 20 := 20, 21 := 21]
    ensures |StackedBlocks(removed)| == 28 && Advances(StackedBlocks(removed), g, defs, 21)
  {
    var p := StackedBlocks(removed);
    assert p[21] == Let(21, SetStream(0, 0));
  }

  lemma StackedBlocksAllEventsAdvance22(removed: set<EventId>, g: seq<Node>, defs: seq<map<VarId, nat>>)
    requires 0 !in removed && 1 !in removed && 2 !in removed && 3 !in removed && 4 !in removed
    requires |g| == 28
    requires g[21] == Node(SetStream(0, 0), OnDevice(0, 0), [])
    requires g[22] == Node(WaitEvent(2), OnDevice(0, 0), [])
    requires |defs| == 29
    requires defs[22] == map[0 := 0, 1 := 1, 2 := 2, 3 := 3, 4 := 4, 5 := 5, 6 := 6, 7 := 7, 8 := 8, 9 := 9, 10 := 10, 11 := 11, 12 := 12, 13 := 13, 14 := 14, 15 := 15, 16 := 16, 17 := 17, 18 := 18, 19 := 19, 20 := 20, 21 := 21]
    requires defs[23] == map[0 := 0, 1 := 1, 2 := 2, 3 := 3, 4 := 4, 5 := 5, 6 := 6, 7 := 7, 8 := 8, 9 := 9, 10 := 10, 11 := 11, 12 := 12, 13 := 13, 14 := 14, 15 := 15, 16 := 16, 17 := 17, 18 := 18, 19 := 19, 20 := 20, 21 := 21, 22 := 22]
    ensures |StackedBlocks(removed)| == 28 && Advances(StackedBlocks(removed), g, defs, 22)
  {
    var p := StackedBlocks(removed);
    assert p[22] == Let(22, WaitEvent(2));
  }

  lemma StackedBlocksAllEventsAdvance23(removed: set<EventId>, g: seq<Node>, defs: seq<map<VarId, nat>>)
    requires 0 !in removed && 1 !in removed && 2 !in removed && 3 !in removed && 4 !in removed
    requires |g| == 28
    requires g[22] == Node(WaitEvent(2), OnDevice(0, 0), [])
    requires g[23] == Node(Atan(LetVar(12)), OnDevice(0, 0), [12])
    requires |defs| == 29
    requires defs[23] == map[0 := 0, 1 := 1, 2 := 2, 3 := 3, 4 := 4, 5 := 5, 6 := 6, 7 := 7, 8 := 8, 9 := 9, 10 := 10, 11 := 11, 12 := 12, 13 := 13, 14 := 14, 15 := 15, 16 := 16, 17 := 17, 18 := 18, 19 := 19, 20 := 20, 21 := 21, 22 := 22]
    requires defs[24] == map[0 := 0, 1 := 1, 2 := 2, 3 := 3, 4 := 4, 5 := 5, 6 := 6, 7 := 7, 8 := 8, 9 := 9, 10 := 10, 11 := 11, 12 := 12, 13 := 13, 14 := 14, 15 := 15, 16 := 16, 17 := 17, 18 := 18, 19 := 19, 20 := 20, 21 := 21, 22 := 22, 23 := 23]
    ensures |StackedBlocks(removed)| == 28 && Advances(StackedBlocks(removed), g, defs, 23)
  {
    var p := StackedBlocks(removed);
    assert p[23] == Let(23, Atan(LetVar(12)));
  }

  lemma StackedBlocksAllEventsAdvance24(removed: set<EventId>, g: seq<Node>, defs: seq<map<VarId, nat>>)
    requires 0 !in removed && 1 !in removed && 2 !in removed && 3 !in removed && 4 !in removed
    requires |g| == 28
    requires g[23] == Node(Atan(LetVar(12)), OnDevice(0, 0), [12])
    requires g[24] == Node(WaitEvent(4), OnDevice(0, 0), [])
    requires |defs| == 29
    requires defs[24] == map[0 := 0, 1 := 1, 2 := 2, 3 := 3, 4 := 4, 5 := 5, 6 := 6, 7 := 7, 8 := 8, 9 := 9, 10 := 10, 11 := 11, 12 := 12, 13 := 13, 14 := 14, 15 := 15, 16 := 16, 17 := 17, 18 := 18, 19 := 19, 20 := 20, 21 := 21, 22 := 22, 23 := 23]
    requires defs[25] == map[0 := 0, 1 := 1, 2 := 2, 3 := 3, 4 := 4, 5 := 5, 6 := 6, 7 := 7, 8 := 8, 9 := 9, 10 := 10, 11 := 11, 12 := 12, 13 := 13, 14 := 14, 15 := 15, 16 := 16, 17 := 17, 18 := 18, 19 := 19, 20 := 20, 21 := 21, 22 := 22, 23 := 23, 24 := 24]
    ensures |StackedBlocks(removed)| == 28 && Advances(StackedBlocks(removed), g, defs, 24)
  {
    var p := StackedBlocks(removed);
    assert p[24] == Let(24, WaitEvent(4));
  }

  lemma StackedBlocksAllEventsAdvance25(removed: set<EventId>, g: seq<Node>, defs: seq<map<VarId, nat>>)
    requires 0 !in removed && 1 !in removed && 2 !in removed && 3 !in removed && 4 !in removed
    requires |g| == 28
    requires g[24] == Node(WaitEvent(4), OnDevice(0, 0), [])
    requires g[25] == Node(WaitEvent(3), OnDevice(0, 0), [])
    requires |defs| == 29
    requires defs[25] == map[0 := 0, 1 := 1, 2 := 2, 3 := 3, 4 := 4, 5 := 5, 6 := 6, 7 := 7, 8 := 8, 9 := 9, 10 := 10, 11 := 11, 12 := 12, 13 := 13, 14 := 14, 15 := 15, 16 := 16, 17 := 17, 18 := 18, 19 := 19, 20 := 20, 21 := 21, 22 := 22, 23 := 23, 24 := 24]
    requires defs[26] == map[0 := 0, 1 := 1, 2 := 2, 3 := 3, 4 := 4, 5 := 5, 6 := 6, 7 := 7, 8 := 8, 9 := 9, 10 := 10, 11 := 11, 12 := 12, 13 := 13, 14 := 14, 15 := 15, 16 := 16, 17 := 17, 18 := 18, 19 := 19, 20 := 20, 21 := 21, 22 := 22, 23 := 23, 24 := 24, 25 := 25]
    ensures |StackedBlocks(removed)| == 28 && Advances(StackedBlocks(removed), g, defs, 25)
  {
    var p := StackedBlocks(removed);
    assert p[25] == Let(25, WaitEvent(3));
  }

  lemma StackedBlocksAllEventsAdvance26(removed: set<EventId>, g: seq<Node>, defs: seq<map<VarId, nat>>)
    requires 0 !in removed && 1 !in removed && 2 !in removed && 3 !in removed && 4 !in removed
    requires |g| == 28
    requires g[25] == Node(WaitEvent(3), OnDevice(0, 0), [])
    requires g[26] == Node(MakeTuple([LetVar(23), LetVar(19), LetVar(15)]), OnDevice(0, 0), [23, 19, 15])
    requires |defs| == 29
    requires defs[26] == map[0 := 0, 1 := 1, 2 := 2, 3 := 3, 4 := 4, 5 := 5, 6 := 6, 7 := 7, 8 := 8, 9 := 9, 10 := 10, 11 := 11, 12 := 12, 13 := 13, 14 := 14, 15 := 15, 16 := 16, 17 := 17, 18 := 18, 19 := 19, 20 := 20, 21 := 21, 22 := 22, 23 := 23, 24 := 24, 25 := 25]
    requires defs[27] == map[0 := 0, 1 := 1, 2 := 2, 3 := 3, 4 := 4, 5 := 5, 6 := 6, 7 := 7, 8 := 8, 9 := 9, 10 := 10, 11 := 11, 12 := 12, 13 := 13, 14 := 14, 15 := 15, 16 := 16, 17 := 17, 18 := 18, 19 := 19, 20 := 20, 21 := 21, 22 := 22, 23 := 23, 24 := 24, 25 := 25, 26 := 26]
    ensures |StackedBlocks(removed)| == 28 && Advances(StackedBlocks(removed), g, defs, 26)
  {
    var p := StackedBlocks(removed);
    assert p[26] == Let(26, MakeTuple([LetVar(23), LetVar(19), LetVar(15)]));
  }

  lemma StackedBlocksAllEventsAdvance27(removed: set<EventId>, g: seq<Node>, defs: seq<map<VarId, nat>>)
    requires 0 !in removed && 1 !in removed && 2 !in removed && 3 !in removed && 4 !in removed
    requires |g| == 28
    requires g[26] == Node(MakeTuple([LetVar(23), LetVar(19), LetVar(15)]), OnDevice(0, 0), [23, 19, 15])
    requires g[27] == Node(Concatenate(LetVar(26), 0), OnDevice(0, 0), [26])
    requires |defs| == 29
    requires defs[27] == map[0 := 0, 1 := 1, 2 := 2, 3 := 3, 4 := 4, 5 := 5, 6 := 6, 7 := 7, 8 := 8, 9 := 9, 10 := 10, 11 := 11, 12 := 12, 13 := 13, 14 := 14, 15 := 15, 16 := 16, 17 := 17, 18 := 18, 19 := 19, 20 := 20, 21 := 21, 22 := 22, 23 := 23, 24 := 24, 25 := 25, 26 := 26]
    requires defs[28] == map[0 := 0, 1 := 1, 2 := 2, 3 := 3, 4 := 4, 5 := 5, 6 := 6, 7 := 7, 8 := 8, 9 := 9, 10 := 10, 11 := 11, 12 := 12, 13 := 13, 14 := 14, 15 := 15, 16 := 16, 17 := 17, 18 := 18, 19 := 19, 20 := 20, 21 := 21, 22 := 22, 23 := 23, 24 := 24, 25 := 25, 26 := 26, 27 := 27]
    ensures |StackedBlocks(removed)| == 28 && Advances(StackedBlocks(removed), g, defs, 27)
  {
    var p := StackedBlocks(removed);
    assert p[27] == Let(27, Concatenate(LetVar(26), 0));
  }

  lemma StackedBlocksAllEventsExtract0(removed: set<EventId>, g: seq<Node>, defs: seq<map<VarId, nat>>)
    requires 0 !in removed && 1 !in removed && 2 !in removed && 3 !in removed && 4 !in removed
    requires StackedBlocksAllEventsShape(g) && StackedBlocksAllEventsTables(defs)
    ensures |StackedBlocks(removed)| == 28
    ensures forall j :: 0 <= j < 5 ==> Advances(StackedBlocks(removed), g, defs, j)
  {
    StackedBlocksAllEventsAdvance0(removed, g, defs);
    StackedBlocksAllEventsAdvance1(removed, g, defs);
    StackedBlocksAllEventsAdvance2(removed, g, defs);
    StackedBlocksAllEventsAdvance3(removed, g, defs);
    StackedBlocksAllEventsAdvance4(removed, g, defs);
    forall j | 0 <= j < 5 ensures Advances(StackedBlocks(removed), g, defs, j) {
      assert j == 0 || j == 1 || j == 2 || j == 3 || j == 4;
    }
  }

  lemma StackedBlocksAllEventsExtract5(removed: set<EventId>, g: seq<Node>, defs: seq<map<VarId, nat>>)
    requires 0 !in removed && 1 !in removed && 2 !in removed && 3 !in removed && 4 !in removed
    requires StackedBlocksAllEventsShape(g) && StackedBlocksAllEventsTables(defs)
    ensures |StackedBlocks(removed)| == 28
    ensures forall j :: 5 <= j < 10 ==> Advances(StackedBlocks(removed), g, defs, j)
  {
    StackedBlocksAllEventsAdvance5(removed, g, defs);
    StackedBlocksAllEventsAdvance6(removed, g, defs);
    StackedBlocksAllEventsAdvance7(removed, g, defs);
    StackedBlocksAllEventsAdvance8(removed, g, defs);
    StackedBlocksAllEventsAdvance9(removed, g, defs);
    forall j | 5 <= j < 10 ensures Advances(StackedBlocks(removed), g, defs, j) {
      assert j == 5 || j == 6 || j == 7 || j == 8 || j == 9;
    }
  }

  lemma StackedBlocksAllEventsExtract10(removed: set<EventId>, g: seq<Node>, defs: seq<map<VarId, nat>>)
    requires 0 !in removed && 1 !in removed && 2 !in removed && 3 !in removed && 4 !in removed
    requires StackedBlocksAllEventsShape(g) && StackedBlocksAllEventsTables(defs)
    ensures |StackedBlocks(removed)| == 28
    ensures forall j :: 10 <= j < 15 ==> Advances(StackedBlocks(removed), g, defs, j)
  {
    StackedBlocksAllEventsAdvance10(removed, g, defs);
    StackedBlocksAllEventsAdvance11(removed, g, defs);
    StackedBlocksAllEventsAdvance12(removed, g, defs);
    StackedBlocksAllEventsAdvance13(removed, g, defs);
    StackedBlocksAllEventsAdvance14(removed, g, defs);
    forall j | 10 <= j < 15 ensures Advances(StackedBlocks(removed), g, defs, j) {
      assert j == 10 || j == 11 || j == 12 || j == 13 || j == 14;
    }
  }

  lemma StackedBlocksAllEventsExtract15(removed: set<EventId>, g: seq<Node>, defs: seq<map<VarId, nat>>)
    requires 0 !in removed && 1 !in removed && 2 !in removed && 3 !in removed && 4 !in removed
    requires StackedBlocksAllEventsShape(g) && StackedBlocksAllEventsTables(defs)
    ensures |StackedBlocks(removed)| == 28
    ensures forall j :: 15 <= j < 20 ==> Advances(StackedBlocks(removed), g, defs, j)
  {
    StackedBlocksAllEventsAdvance15(removed, g, defs);
    StackedBlocksAllEventsAdvance16(removed, g, defs);
    StackedBlocksAllEventsAdvance17(removed, g, defs);
    StackedBlocksAllEventsAdvance18(removed, g, defs);
    StackedBlocksAllEventsAdvance19(removed, g, defs);
    forall j | 15 <= j < 20 ensures Advances(StackedBlocks(removed), g, defs, j) {
      assert j == 15 || j == 16 || j == 17 || j == 18 || j == 19;
    }
  }

  lemma StackedBlocksAllEventsExtract20(removed: set<EventId>, g: seq<Node>, defs: seq<map<VarId, nat>>)
    requires 0 !in removed && 1 !in removed && 2 !in removed && 3 !in removed && 4 !in removed
    requires StackedBlocksAllEventsShape(g) && StackedBlocksAllEventsTables(defs)
    ensures |StackedBlocks(removed)| == 28
    ensures forall j :: 20 <= j < 25 ==> Advances(StackedBlocks(removed), g, defs, j)
  {
    StackedBlocksAllEventsAdvance20(removed, g, defs);
    StackedBlocksAllEventsAdvance21(removed, g, defs);
    StackedBlocksAllEventsAdvance22(removed, g, defs);
    StackedBlocksAllEventsAdvance23(removed, g, defs);
    StackedBlocksAllEventsAdvance24(removed, g, defs);
    forall j | 20 <= j < 25 ensures Advances(StackedBlocks(removed), g, defs, j) {
      assert j == 20 || j == 21 || j == 22 || j == 23 || j == 24;
    }
  }

  lemma StackedBlocksAllEventsExtract25(removed: set<EventId>, g: seq<Node>, defs: seq<map<VarId, nat>>)
    requires 0 !in removed && 1 !in removed && 2 !in removed && 3 !in removed && 4 !in removed
    requires StackedBlocksAllEventsShape(g) && StackedBlocksAllEventsTables(defs)
    ensures |StackedBlocks(removed)| == 28
    ensures forall j :: 25 <= j < 28 ==> Advances(StackedBlocks(removed), g, defs, j)
  {
    StackedBlocksAllEventsAdvance25(removed, g, defs);
    StackedBlocksAllEventsAdvance26(removed, g, defs);
    StackedBlocksAllEventsAdvance27(removed, g, defs);
    forall j | 25 <= j < 28 ensures Advances(StackedBlocks(removed), g, defs, j) {
      assert j == 25 || j == 26 || j == 27;
    }
  }

  lemma StackedBlocksAllEventsNodesShape0()
    ensures |StackedBlocksAllEventsNodes()| == 28 && StackedBlocksAllEventsShape0(StackedBlocksAllEventsNodes())
  {
  }

  lemma StackedBlocksAllEventsNodesShape5()
    ensures |StackedBlocksAllEventsNodes()| == 28 && StackedBlocksAllEventsShape5(StackedBlocksAllEventsNodes())
  {
  }

  lemma StackedBlocksAllEventsNodesShape10()
    ensures |StackedBlocksAllEventsNodes()| == 28 && StackedBlocksAllEventsShape10(StackedBlocksAllEventsNodes())
  {
  }

  lemma StackedBlocksAllEventsNodesShape15()
    ensures |StackedBlocksAllEventsNodes()| == 28 && StackedBlocksAllEventsShape15(StackedBlocksAllEventsNodes())
  {
  }

  lemma StackedBlocksAllEventsNodesShape20()
    ensures |StackedBlocksAllEventsNodes()| == 28 && StackedBlocksAllEventsShape20(StackedBlocksAllEventsNodes())
  {
  }

  lemma StackedBlocksAllEventsNodesShape25()
    ensures |StackedBlocksAllEventsNodes()| == 28 && StackedBlocksAllEventsShape25(StackedBlocksAllEventsNodes())
  {
  }

  lemma StackedBlocksAllEventsDefsTables0()
    ensures |StackedBlocksAllEventsDefs()| == 29 && StackedBlocksAllEventsTables0(StackedBlocksAllEventsDefs())
  {
  }

  lemma StackedBlocksAllEventsDefsTables5()
    ensures |StackedBlocksAllEventsDefs()| == 29 && StackedBlocksAllEventsTables5(StackedBlocksAllEventsDefs())
  {
  }

  lemma StackedBlocksAllEventsDefsTables10()
    ensures |StackedBlocksAllEventsDefs()| == 29 && StackedBlocksAllEventsTables10(StackedBlocksAllEventsDefs())
  {
  }

  lemma StackedBlocksAllEventsDefsTables15()
    ensures |StackedBlocksAllEventsDefs()| == 29 && StackedBlocksAllEventsTables15(StackedBlocksAllEventsDefs())
  {
  }

  lemma StackedBlocksAllEventsDefsTables20()
    ensures |StackedBlocksAllEventsDefs()| == 29 && StackedBlocksAllEventsTables20(StackedBlocksAllEventsDefs())
  {
  }

  lemma StackedBlocksAllEventsDefsTables25()
    ensures |StackedBlocksAllEventsDefs()| == 29 && StackedBlocksAllEventsTables25(StackedBlocksAllEventsDefs())
  {
  }

  /** `Extract` on `StackedBlocks(removed)` yields `StackedBlocksAllEventsNodes()`. */
  lemma StackedBlocksAllEventsGraph(removed: set<EventId>) returns (g: seq<Node>)
    requires 0 !in removed && 1 !in removed && 2 !in removed && 3 !in removed && 4 !in removed
    ensures Extract(StackedBlocks(removed)) == Ok(g) && StackedBlocksAllEventsShape(g)
  {
    g := StackedBlocksAllEventsNodes();
    var defs := StackedBlocksAllEventsDefs();
    var p := StackedBlocks(removed);
    StackedBlocksAllEventsNodesShape0();
    StackedBlocksAllEventsNodesShape5();
    StackedBlocksAllEventsNodesShape10();
    StackedBlocksAllEventsNodesShape15();
    StackedBlocksAllEventsNodesShape20();
    StackedBlocksAllEventsNodesShape25();
    StackedBlocksAllEventsDefsTables0();
    StackedBlocksAllEventsDefsTables5();
    StackedBlocksAllEventsDefsTables10();
    StackedBlocksAllEventsDefsTables15();
    StackedBlocksAllEventsDefsTables20();
    StackedBlocksAllEventsDefsTables25();
    StackedBlocksAllEventsExtract0(removed, g, defs);
    StackedBlocksAllEventsExtract5(removed, g, defs);
    StackedBlocksAllEventsExtract10(removed, g, defs);
    StackedBlocksAllEventsExtract15(removed, g, defs);
    StackedBlocksAllEventsExtract20(removed, g, defs);
    StackedBlocksAllEventsExtract25(removed, g, defs);
    ExtractReplays(p, g, defs, 0);
    assert g[..0] == [];
  }

  lemma StackedBlocksAllEventsSimulate0(g: seq<Node>)
    requires WellFormed(g) && |g| == 28
    requires g[0] == Node(SetStream(0, 0), OnDevice(0, 0), [])
    ensures SimulateFrom(g, 0, StackedBlocksAllEventsState0()) == SimulateFrom(g, 1, StackedBlocksAllEventsState1())
  {
    assert Step(g, 0, StackedBlocksAllEventsState0()) == Ok(StackedBlocksAllEventsState1());
    SimulateLink(g, 0, StackedBlocksAllEventsState0(), StackedBlocksAllEventsState1());
  }

  lemma StackedBlocksAllEventsSimulate1(g: seq<Node>)
    requires WellFormed(g) && |g| == 28
    requires g[1] == Node(Atan(X), OnDevice(0, 0), [])
    ensures SimulateFrom(g, 1, StackedBlocksAllEventsState1()) == SimulateFrom(g, 2, StackedBlocksAllEventsState2())
  {
    ReadHazardsSmall(g, g[1].deps, 1, g[1].stream, ClockOf(StackedBlocksAllEventsState1(), g[1].stream));
    assert StackedBlocksAllEventsState1().hazards + ReadHazards(g, g[1].deps, 1, g[1].stream, ClockOf(StackedBlocksAllEventsState1(), g[1].stream)) == StackedBlocksAllEventsState2().hazards;
    assert Step(g, 1, StackedBlocksAllEventsState1()) == Ok(StackedBlocksAllEventsState2());
    SimulateLink(g, 1, StackedBlocksAllEventsState1(), StackedBlocksAllEventsState2());
  }

  lemma StackedBlocksAllEventsSimulate2(g: seq<Node>)
    requires WellFormed(g) && |g| == 28
    requires g[1] == Node(Atan(X), OnDevice(0, 0), [])
    requires g[2] == Node(Atan(LetVar(1)), OnDevice(0, 0), [1])
    ensures SimulateFrom(g, 2, StackedBlocksAllEventsState2()) == SimulateFrom(g, 3, StackedBlocksAllEventsState3())
  {
    ReadHazardsSmall(g, g[2].deps, 2, g[2].stream, ClockOf(StackedBlocksAllEventsState2(), g[2].stream));
    assert StackedBlocksAllEventsState2().hazards + ReadHazards(g, g[2].deps, 2, g[2].stream, ClockOf(StackedBlocksAllEventsState2(), g[2].stream)) == StackedBlocksAllEventsState3().hazards;
    assert Step(g, 2, StackedBlocksAllEventsState2()) == Ok(StackedBlocksAllEventsState3());
    SimulateLink(g, 2, StackedBlocksAllEventsState2(), StackedBlocksAllEventsState3());
  }

  lemma StackedBlocksAllEventsSimulate3(g: seq<Node>)
    requires WellFormed(g) && |g| == 28
    requires g[3] == Node(AddEvent(0), OnDevice(0, 0), [])
    ensures SimulateFrom(g, 3, StackedBlocksAllEventsState3()) == SimulateFrom(g, 4, StackedBlocksAllEventsState4())
  {
    assert Step(g, 3, StackedBlocksAllEventsState3()) == Ok(StackedBlocksAllEventsState4());
    SimulateLink(g, 3, StackedBlocksAllEventsState3(), StackedBlocksAllEventsState4());
  }

  lemma StackedBlocksAllEventsSimulate4(g: seq<Node>)
    requires WellFormed(g) && |g| == 28
    requires g[4] == Node(SetStream(0, 1), OnDevice(0, 1), [])
    ensures SimulateFrom(g, 4, StackedBlocksAllEventsState4()) == SimulateFrom(g, 5, StackedBlocksAllEventsState5())
  {
    assert Step(g, 4, StackedBlocksAllEventsState4()) == Ok(StackedBlocksAllEventsState5());
    SimulateLink(g, 4, StackedBlocksAllEventsState4(), StackedBlocksAllEventsState5());
  }

  lemma StackedBlocksAllEventsSimulate5(g: seq<Node>)
    requires WellFormed(g) && |g| == 28
    requires g[5] == Node(Atan(X), OnDevice(0, 1), [])
    ensures SimulateFrom(g, 5, StackedBlocksAllEventsState5()) == SimulateFrom(g, 6, StackedBlocksAllEventsState6())
  {
    ReadHazardsSmall(g, g[5].deps, 5, g[5].stream, ClockOf(StackedBlocksAllEventsState5(), g[5].stream));
    assert StackedBlocksAllEventsState5().hazards + ReadHazards(g, g[5].deps, 5, g[5].stream, ClockOf(StackedBlocksAllEventsState5(), g[5].stream)) == StackedBlocksAllEventsState6().hazards;
    assert Step(g, 5, StackedBlocksAllEventsState5()) == Ok(StackedBlocksAllEventsState6());
    SimulateLink(g, 5, StackedBlocksAllEventsState5(), StackedBlocksAllEventsState6());
  }

  lemma StackedBlocksAllEventsSimulate6(g: seq<Node>)
    requires WellFormed(g) && |g| == 28
    requires g[6] == Node(AddEvent(1), OnDevice(0, 1), [])
    ensures SimulateFrom(g, 6, StackedBlocksAllEventsState6()) == SimulateFrom(g, 7, StackedBlocksAllEventsState7())
  {
    assert Step(g, 6, StackedBlocksAllEventsState6()) == Ok(StackedBlocksAllEventsState7());
    SimulateLink(g, 6, StackedBlocksAllEventsState6(), StackedBlocksAllEventsState7());
  }

  lemma StackedBlocksAllEventsSimulate7(g: seq<Node>)
    requires WellFormed(g) && |g| == 28
    requires g[7] == Node(SetStream(0, 2), OnDevice(0, 2), [])
    ensures SimulateFrom(g, 7, StackedBlocksAllEventsState7()) == SimulateFrom(g, 8, StackedBlocksAllEventsState8())
  {
    assert Step(g, 7, StackedBlocksAllEventsState7()) == Ok(StackedBlocksAllEventsState8());
    SimulateLink(g, 7, StackedBlocksAllEventsState7(), StackedBlocksAllEventsState8());
  }

  lemma StackedBlocksAllEventsSimulate8(g: seq<Node>)
    requires WellFormed(g) && |g| == 28
    requires g[8] == Node(Atan(X), OnDevice(0, 2), [])
    ensures SimulateFrom(g, 8, StackedBlocksAllEventsState8()) == SimulateFrom(g, 9, StackedBlocksAllEventsState9())
  {
    ReadHazardsSmall(g, g[8].deps, 8, g[8].stream, ClockOf(StackedBlocksAllEventsState8(), g[8].stream));
    assert StackedBlocksAllEventsState8().hazards + ReadHazards(g, g[8].deps, 8, g[8].stream, ClockOf(StackedBlocksAllEventsState8(), g[8].stream)) == StackedBlocksAllEventsState9().hazards;
    assert Step(g, 8, StackedBlocksAllEventsState8()) == Ok(StackedBlocksAllEventsState9());
    SimulateLink(g, 8, StackedBlocksAllEventsState8(), StackedBlocksAllEventsState9());
  }

  lemma StackedBlocksAllEventsSimulate9(g: seq<Node>)
    requires WellFormed(g) && |g| == 28
    requires g[9] == Node(WaitEvent(1), OnDevice(0, 2), [])
    ensures SimulateFrom(g, 9, StackedBlocksAllEventsState9()) == SimulateFrom(g, 10, StackedBlocksAllEventsState10())
  {
    MergeIs(map[], Mark(OnDevice(0, 1), 6, map[]), map[OnDevice(0, 1) := 6]);
    assert Step(g, 9, StackedBlocksAllEventsState9()) == Ok(StackedBlocksAllEventsState10());
    SimulateLink(g, 9, StackedBlocksAllEventsState9(), StackedBlocksAllEventsState10());
  }

  lemma StackedBlocksAllEventsSimulate10(g: seq<Node>)
    requires WellFormed(g) && |g| == 28
    requires g[10] == Node(WaitEvent(0), OnDevice(0, 2), [])
    ensures SimulateFrom(g, 10, StackedBlocksAllEventsState10()) == SimulateFrom(g, 11, StackedBlocksAllEventsState11())
  {
    MergeIs(map[OnDevice(0, 1) := 6], Mark(OnDevice(0, 0), 3, map[]), map[OnDevice(0, 0) := 3, OnDevice(0, 1) := 6]);
    assert Step(g, 10, StackedBlocksAllEventsState10()) == Ok(StackedBlocksAllEventsState11());
    SimulateLink(g, 10, StackedBlocksAllEventsState10(), StackedBlocksAllEventsState11());
  }

  lemma StackedBlocksAllEventsSimulate11(g: seq<Node>)
    requires WellFormed(g) && |g| == 28
    requires g[2] == Node(Atan(LetVar(1)), OnDevice(0, 0), [1])
    requires g[5] == Node(Atan(X), OnDevice(0, 1), [])
    requires g[8] == Node(Atan(X), OnDevice(0, 2), [])
    requires g[11] == Node(MakeTuple([LetVar(8), LetVar(5), LetVar(2)]), OnDevice(0, 2), [8, 5, 2])
    ensures SimulateFrom(g, 11, StackedBlocksAllEventsState11()) == SimulateFrom(g, 12, StackedBlocksAllEventsState12())
  {
    ReadHazardsSmall(g, g[11].deps, 11, g[11].stream, ClockOf(StackedBlocksAllEventsState11(), g[11].stream));
    assert StackedBlocksAllEventsState11().hazards + ReadHazards(g, g[11].deps, 11, g[11].stream, ClockOf(StackedBlocksAllEventsState11(), g[11].stream)) == StackedBlocksAllEventsState12().hazards;
    assert Step(g, 11, StackedBlocksAllEventsState11()) == Ok(StackedBlocksAllEventsState12());
    SimulateLink(g, 11, StackedBlocksAllEventsState11(), StackedBlocksAllEventsState12());
  }

  lemma StackedBlocksAllEventsSimulate12(g: seq<Node>)
    requires WellFormed(g) && |g| == 28
    requires g[11] == Node(MakeTuple([LetVar(8), LetVar(5), LetVar(2)]), OnDevice(0, 2), [8, 5, 2])
    requires g[12] == Node(Concatenate(LetVar(11), 0), OnDevice(0, 2), [11])
    ensures SimulateFrom(g, 12, StackedBlocksAllEventsState12()) == SimulateFrom(g, 13, StackedBlocksAllEventsState13())
  {
    ReadHazardsSmall(g, g[12].deps, 12, g[12].stream, ClockOf(StackedBlocksAllEventsState12(), g[12].stream));
    assert StackedBlocksAllEventsState12().hazards + ReadHazards(g, g[12].deps, 12, g[12].stream, ClockOf(StackedBlocksAllEventsState12(), g[12].stream)) == StackedBlocksAllEventsState13().hazards;
    assert Step(g, 12, StackedBlocksAllEventsState12()) == Ok(StackedBlocksAllEventsState13());
    SimulateLink(g, 12, StackedBlocksAllEventsState12(), StackedBlocksAllEventsState13());
  }

  lemma StackedBlocksAllEventsSimulate13(g: seq<Node>)
    requires WellFormed(g) && |g| == 28
    requires g[13] == Node(AddEvent(2), OnDevice(0, 2), [])
    ensures SimulateFrom(g, 13, StackedBlocksAllEventsState13()) == SimulateFrom(g, 14, StackedBlocksAllEventsState14())
  {
    assert Step(g, 13, StackedBlocksAllEventsState13()) == Ok(StackedBlocksAllEventsState14());
    SimulateLink(g, 13, StackedBlocksAllEventsState13(), StackedBlocksAllEventsState14());
  }

  lemma StackedBlocksAllEventsSimulate14(g: seq<Node>)
    requires WellFormed(g) && |g| == 28
    requires g[12] == Node(Concatenate(LetVar(11), 0), OnDevice(0, 2), [11])
    requires g[14] == Node(Atan(LetVar(12)), OnDevice(0, 2), [12])
    ensures SimulateFrom(g, 14, StackedBlocksAllEventsState14()) == SimulateFrom(g, 15, StackedBlocksAllEventsState15())
  {
    ReadHazardsSmall(g, g[14].deps, 14, g[14].stream, ClockOf(StackedBlocksAllEventsState14(), g[14].stream));
    assert StackedBlocksAllEventsState14().hazards + ReadHazards(g, g[14].deps, 14, g[14].stream, ClockOf(StackedBlocksAllEventsState14(), g[14].stream)) == StackedBlocksAllEventsState15().hazards;
    assert Step(g, 14, StackedBlocksAllEventsState14()) == Ok(StackedBlocksAllEventsState15());
    SimulateLink(g, 14, StackedBlocksAllEventsState14(), StackedBlocksAllEventsState15());
  }

  lemma StackedBlocksAllEventsSimulate15(g: seq<Node>)
    requires WellFormed(g) && |g| == 28
    requires g[14] == Node(Atan(LetVar(12)), OnDevice(0, 2), [12])
    requires g[15] == Node(Atan(LetVar(14)), OnDevice(0, 2), [14])
    ensures SimulateFrom(g, 15, StackedBlocksAllEventsState15()) == SimulateFrom(g, 16, StackedBlocksAllEventsState16())
  {
    ReadHazardsSmall(g, g[15].deps, 15, g[15].stream, ClockOf(StackedBlocksAllEventsState15(), g[15].stream));
    assert StackedBlocksAllEventsState15().hazards + ReadHazards(g, g[15].deps, 15, g[15].stream, ClockOf(StackedBlocksAllEventsState15(), g[15].stream)) == StackedBlocksAllEventsState16().hazards;
    assert Step(g, 15, StackedBlocksAllEventsState15()) == Ok(StackedBlocksAllEventsState16());
    SimulateLink(g, 15, StackedBlocksAllEventsState15(), StackedBlocksAllEventsState16());
  }

  lemma StackedBlocksAllEventsSimulate16(g: seq<Node>)
    requires WellFormed(g) && |g| == 28
    requires g[16] == Node(AddEvent(3), OnDevice(0, 2), [])
    ensures SimulateFrom(g, 16, StackedBlocksAllEventsState16()) == SimulateFrom(g, 17, StackedBlocksAllEventsState17())
  {
    assert Step(g, 16, StackedBlocksAllEventsState16()) == Ok(StackedBlocksAllEventsState17());
    SimulateLink(g, 16, StackedBlocksAllEventsState16(), StackedBlocksAllEventsState17());
  }

  lemma StackedBlocksAllEventsSimulate17(g: seq<Node>)
    requires WellFormed(g) && |g| == 28
    requires g[17] == Node(SetStream(0, 1), OnDevice(0, 1), [])
    ensures SimulateFrom(g, 17, StackedBlocksAllEventsState17()) == SimulateFrom(g, 18, StackedBlocksAllEventsState18())
  {
    assert Step(g, 17, StackedBlocksAllEventsState17()) == Ok(StackedBlocksAllEventsState18());
    SimulateLink(g, 17, StackedBlocksAllEventsState17(), StackedBlocksAllEventsState18());
  }

  lemma StackedBlocksAllEventsSimulate18(g: seq<Node>)
    requires WellFormed(g) && |g| == 28
    requires g[18] == Node(WaitEvent(2), OnDevice(0, 1), [])
    ensures SimulateFrom(g, 18, StackedBlocksAllEventsState18()) == SimulateFrom(g, 19, StackedBlocksAllEventsState19())
  {
    MergeIs(map[], Mark(OnDevice(0, 2), 13, map[OnDevice(0, 0) := 3, OnDevice(0, 1) := 6]), map[OnDevice(0, 0) := 3, OnDevice(0, 1) := 6, OnDevice(0, 2) := 13]);
    assert Step(g, 18, StackedBlocksAllEventsState18()) == Ok(StackedBlocksAllEventsState19());
    SimulateLink(g, 18, StackedBlocksAllEventsState18(), StackedBlocksAllEventsState19());
  }

  lemma StackedBlocksAllEventsSimulate19(g: seq<Node>)
    requires WellFormed(g) && |g| == 28
    requires g[12] == Node(Concatenate(LetVar(11), 0), OnDevice(0, 2), [11])
    requires g[19] == Node(Atan(LetVar(12)), OnDevice(0, 1), [12])
    ensures SimulateFrom(g, 19, StackedBlocksAllEventsState19()) == SimulateFrom(g, 20, StackedBlocksAllEventsState20())
  {
    ReadHazardsSmall(g, g[19].deps, 19, g[19].stream, ClockOf(StackedBlocksAllEventsState19(), g[19].stream));
    assert StackedBlocksAllEventsState19().hazards + ReadHazards(g, g[19].deps, 19, g[19].stream, ClockOf(StackedBlocksAllEventsState19(), g[19].stream)) == StackedBlocksAllEventsState20().hazards;
    assert Step(g, 19, StackedBlocksAllEventsState19()) == Ok(StackedBlocksAllEventsState20());
    SimulateLink(g, 19, StackedBlocksAllEventsState19(), StackedBlocksAllEventsState20());
  }

  lemma StackedBlocksAllEventsSimulate20(g: seq<Node>)
    requires WellFormed(g) && |g| == 28
    requires g[20] == Node(AddEvent(4), OnDevice(0, 1), [])
    ensures SimulateFrom(g, 20, StackedBlocksAllEventsState20()) == SimulateFrom(g, 21, StackedBlocksAllEventsState21())
  {
    assert Step(g, 20, StackedBlocksAllEventsState20()) == Ok(StackedBlocksAllEventsState21());
    SimulateLink(g, 20, StackedBlocksAllEventsState20(), StackedBlocksAllEventsState21());
  }

  lemma StackedBlocksAllEventsSimulate21(g: seq<Node>)
    requires WellFormed(g) && |g| == 28
    requires g[21] == Node(SetStream(0, 0), OnDevice(0, 0), [])
    ensures SimulateFrom(g, 21, StackedBlocksAllEventsState21()) == SimulateFrom(g, 22, StackedBlocksAllEventsState22())
  {
    assert Step(g, 21, StackedBlocksAllEventsState21()) == Ok(StackedBlocksAllEventsState22());
    SimulateLink(g, 21, StackedBlocksAllEventsState21(), StackedBlocksAllEventsState22());
  }

  lemma StackedBlocksAllEventsSimulate22(g: seq<Node>)
    requires WellFormed(g) && |g| == 28
    requires g[22] == Node(WaitEvent(2), OnDevice(0, 0), [])
    ensures SimulateFrom(g, 22, StackedBlocksAllEventsState22()) == SimulateFrom(g, 23, StackedBlocksAllEventsState23())
  {
    MergeIs(map[], Mark(OnDevice(0, 2), 13, map[OnDevice(0, 0) := 3, OnDevice(0, 1) := 6]), map[OnDevice(0, 0) := 3, OnDevice(0, 1) := 6, OnDevice(0, 2) := 13]);
    assert Step(g, 22, StackedBlocksAllEventsState22()) == Ok(StackedBlocksAllEventsState23());
    SimulateLink(g, 22, StackedBlocksAllEventsState22(), StackedBlocksAllEventsState23());
  }

  lemma StackedBlocksAllEventsSimulate23(g: seq<Node>)
    requires WellFormed(g) && |g| == 28
    requires g[12] == Node(Concatenate(LetVar(11), 0), OnDevice(0, 2), [11])
    requires g[23] == Node(Atan(LetVar(12)), OnDevice(0, 0), [12])
    ensures SimulateFrom(g, 23, StackedBlocksAllEventsState23()) == SimulateFrom(g, 24, StackedBlocksAllEventsState24())
  {
    ReadHazardsSmall(g, g[23].deps, 23, g[23].stream, ClockOf(StackedBlocksAllEventsState23(), g[23].stream));
    assert StackedBlocksAllEventsState23().hazards + ReadHazards(g, g[23].deps, 23, g[23].stream, ClockOf(StackedBlocksAllEventsState23(), g[23].stream)) == StackedBlocksAllEventsState24().hazards;
    assert Step(g, 23, StackedBlocksAllEventsState23()) == Ok(StackedBlocksAllEventsState24());
    SimulateLink(g, 23, StackedBlocksAllEventsState23(), StackedBlocksAllEventsState24());
  }

  lemma StackedBlocksAllEventsSimulate24(g: seq<Node>)
    requires WellFormed(g) && |g| == 28
    requires g[24] == Node(WaitEvent(4), OnDevice(0, 0), [])
    ensures SimulateFrom(g, 24, StackedBlocksAllEventsState24()) == SimulateFrom(g, 25, StackedBlocksAllEventsState25())
  {
    MergeIs(map[OnDevice(0, 0) := 3, OnDevice(0, 1) := 6, OnDevice(0, 2) := 13], Mark(OnDevice(0, 1), 20, map[OnDevice(0, 0) := 3, OnDevice(0, 1) := 6, OnDevice(0, 2) := 13]), map[OnDevice(0, 0) := 3, OnDevice(0, 1) := 20, OnDevice(0, 2) := 13]);
    assert Step(g, 24, StackedBlocksAllEventsState24()) == Ok(StackedBlocksAllEventsState25());
    SimulateLink(g, 24, StackedBlocksAllEventsState24(), StackedBlocksAllEventsState25());
  }

  lemma StackedBlocksAllEventsSimulate25(g: seq<Node>)
    requires WellFormed(g) && |g| == 28
    requires g[25] == Node(WaitEvent(3), OnDevice(0, 0), [])
    ensures SimulateFrom(g, 25, StackedBlocksAllEventsState25()) == SimulateFrom(g, 26, StackedBlocksAllEventsState26())
  {
    MergeIs(map[OnDevice(0, 0) := 3, OnDevice(0, 1) := 20, OnDevice(0, 2) := 13], Mark(OnDevice(0, 2), 16, map[OnDevice(0, 0) := 3, OnDevice(0, 1) := 6]), map[OnDevice(0, 0) := 3, OnDevice(0, 1) := 20, OnDevice(0, 2) := 16]);
    assert Step(g, 25, StackedBlocksAllEventsState25()) == Ok(StackedBlocksAllEventsState26());
    SimulateLink(g, 25, StackedBlocksAllEventsState25(), StackedBlocksAllEventsState26());
  }

  lemma StackedBlocksAllEventsSimulate26(g: seq<Node>)
    requires WellFormed(g) && |g| == 28
    requires g[15] == Node(Atan(LetVar(14)), OnDevice(0, 2), [14])
    requires g[19] == Node(Atan(LetVar(12)), OnDevice(0, 1), [12])
    requires g[23] == Node(Atan(LetVar(12)), OnDevice(0, 0), [12])
    requires g[26] == Node(MakeTuple([LetVar(23), LetVar(19), LetVar(15)]), OnDevice(0, 0), [23, 19, 15])
    ensures SimulateFrom(g, 26, StackedBlocksAllEventsState26()) == SimulateFrom(g, 27, StackedBlocksAllEventsState27())
  {
    ReadHazardsSmall(g, g[26].deps, 26, g[26].stream, ClockOf(StackedBlocksAllEventsState26(), g[26].stream));
    assert StackedBlocksAllEventsState26().hazards + ReadHazards(g, g[26].deps, 26, g[26].stream, ClockOf(StackedBlocksAllEventsState26(), g[26].stream)) == StackedBlocksAllEventsState27().hazards;
    assert Step(g, 26, StackedBlocksAllEventsState26()) == Ok(StackedBlocksAllEventsState27());
    SimulateLink(g, 26, StackedBlocksAllEventsState26(), StackedBlocksAllEventsState27());
  }

  lemma StackedBlocksAllEventsSimulate27(g: seq<Node>)
    requires WellFormed(g) && |g| == 28
    requires g[26] == Node(MakeTuple([LetVar(23), LetVar(19), LetVar(15)]), OnDevice(0, 0), [23, 19, 15])
    requires g[27] == Node(Concatenate(LetVar(26), 0), OnDevice(0, 0), [26])
    ensures SimulateFrom(g, 27, StackedBlocksAllEventsState27()) == SimulateFrom(g, 28, StackedBlocksAllEventsState28())
  {
    ReadHazardsSmall(g, g[27].deps, 27, g[27].stream, ClockOf(StackedBlocksAllEventsState27(), g[27].stream));
    assert StackedBlocksAllEventsState27().hazards + ReadHazards(g, g[27].deps, 27, g[27].stream, ClockOf(StackedBlocksAllEventsState27(), g[27].stream)) == StackedBlocksAllEventsState28().hazards;
    assert Step(g, 27, StackedBlocksAllEventsState27()) == Ok(StackedBlocksAllEventsState28());
    SimulateLink(g, 27, StackedBlocksAllEventsState27(), StackedBlocksAllEventsState28());
  }

  /** With all five events in place both blocks join safely. */
  lemma Verdict(removed: set<EventId>)
    requires 0 !in removed && 1 !in removed && 2 !in removed && 3 !in removed && 4 !in removed
    ensures Verify(StackedBlocks(removed)) == Ok(())
  {
    var g := StackedBlocksAllEventsGraph(removed);
    StackedBlocksAllEventsSimulate0(g);
    StackedBlocksAllEventsSimulate1(g);
    StackedBlocksAllEventsSimulate2(g);
    StackedBlocksAllEventsSimulate3(g);
    StackedBlocksAllEventsSimulate4(g);
    StackedBlocksAllEventsSimulate5(g);
    StackedBlocksAllEventsSimulate6(g);
    StackedBlocksAllEventsSimulate7(g);
    StackedBlocksAllEventsSimulate8(g);
    StackedBlocksAllEventsSimulate9(g);
    StackedBlocksAllEventsSimulate10(g);
    StackedBlocksAllEventsSimulate11(g);
    StackedBlocksAllEventsSimulate12(g);
    StackedBlocksAllEventsSimulate13(g);
    StackedBlocksAllEventsSimulate14(g);
    StackedBlocksAllEventsSimulate15(g);
    StackedBlocksAllEventsSimulate16(g);
    StackedBlocksAllEventsSimulate17(g);
    StackedBlocksAllEventsSimulate18(g);
    StackedBlocksAllEventsSimulate19(g);
    StackedBlocksAllEventsSimulate20(g);
    StackedBlocksAllEventsSimulate21(g);
    StackedBlocksAllEventsSimulate22(g);
    StackedBlocksAllEventsSimulate23(g);
    StackedBlocksAllEventsSimulate24(g);
    StackedBlocksAllEventsSimulate25(g);
    StackedBlocksAllEventsSimulate26(g);
    StackedBlocksAllEventsSimulate27(g);
    SimulateDone(g, StackedBlocksAllEventsState28());
  }
}
