/**
 * What the schedule verifier computes, stated without its state.
 *
 * Extraction is characterised by the last `set_stream` before each instruction
 * and the latest binding of each let var it reads.  The single forward pass of
 * the simulator is characterised by a happens-before relation over positions:
 * a value made at `x` is ordered before a read at `y` when both run on one
 * stream, or when the reader's stream earlier waited on an event whose latest
 * `add_event` is itself ordered after `x`.  The frontier the pass keeps per
 * stream is shown to know exactly that relation, so the pass reports a hazard
 * for precisely the reads that are not ordered.
 */
module ScheduleTheory {
  import opened Results
  import opened ScheduleVerifier

  // ---------------------------------------------------------------------------
  // Extraction
  // ---------------------------------------------------------------------------

  /** The stream in effect at `j`: the one chosen by the last `set_stream` at or before `j`. */
  function StreamAt(prog: Program, j: nat): StreamId
    requires j < |prog|
  {
    if prog[j].instr.SetStream? then OnDevice(prog[j].instr.device, prog[j].instr.stream)
    else if j == 0 then DefaultStream
    else StreamAt(prog, j - 1)
  }

  /** The position of the latest binding of `v` strictly before `j`. */
  function LastDef(prog: Program, v: VarId, j: nat): (r: Option<nat>)
    requires j <= |prog|
    ensures r.Some? ==> r.value < j && prog[r.value].v == v
  {
    if j == 0 then None
    else if prog[j - 1].v == v then Some(j - 1)
    else LastDef(prog, v, j - 1)
  }

  /** Every let var read at `j` is bound earlier. */
  ghost predicate Resolvable(prog: Program, j: nat)
    requires j < |prog|
  {
    forall v :: v in LetVars(Reads(prog[j].instr)) ==> LastDef(prog, v, j).Some?
  }

  /** `n` is instruction `j` with its stream and the binding positions of its let-var reads. */
  ghost predicate Annotated(prog: Program, j: nat, n: Node)
    requires j < |prog|
  {
    var vs := LetVars(Reads(prog[j].instr));
    && n.instr == prog[j].instr
    && n.stream == StreamAt(prog, j)
    && |n.deps| == |vs|
    && (forall k :: 0 <= k < |vs| ==> LastDef(prog, vs[k], j) == Some(n.deps[k]))
  }

  /** What extraction from position `i` on yields, stated without its state. */
  ghost predicate ExtractOutcome(prog: Program, i: nat, r: Result<seq<Node>, VerifyError>)
    requires i <= |prog|
  {
    && (r.Ok? <==> forall j :: i <= j < |prog| ==> Resolvable(prog, j))
    && (r.Ok? ==> |r.value| == |prog| && forall j :: 0 <= j < |prog| ==> Annotated(prog, j, r.value[j]))
    && (r.Err? ==> r.error.MalformedProgram? && i <= r.error.position < |prog|
                   && r.error.v in LetVars(Reads(prog[r.error.position].instr))
                   && LastDef(prog, r.error.v, r.error.position).None?
                   && forall j :: i <= j < r.error.position ==> Resolvable(prog, j))
  }

  /** An outcome from `i + 1` on is one from `i` on when the reads at `i` resolve. */
  lemma OutcomeStep(prog: Program, i: nat, r: Result<seq<Node>, VerifyError>)
    requires i < |prog| && Resolvable(prog, i) && ExtractOutcome(prog, i + 1, r)
    ensures ExtractOutcome(prog, i, r)
  {
    if r.Ok? {
      forall j | i <= j < |prog| ensures Resolvable(prog, j) {
        if j > i { assert i + 1 <= j; }
      }
    }
  }

  lemma {:induction false} ExtractFromCorrect(prog: Program, i: nat, active: StreamId, defs: map<VarId, nat>, acc: seq<Node>)
    requires i <= |prog| && |acc| == i && WellFormed(acc)
    requires forall v :: v in defs ==> defs[v] < i
    requires active == (if i == 0 then DefaultStream else StreamAt(prog, i - 1))
    requires forall v :: v in defs <==> LastDef(prog, v, i).Some?
    requires forall v :: v in defs ==> LastDef(prog, v, i) == Some(defs[v])
    requires forall j :: 0 <= j < i ==> Annotated(prog, j, acc[j])
    ensures ExtractOutcome(prog, i, ExtractFrom(prog, i, active, defs, acc))
    decreases |prog| - i
  {
    if i < |prog| {
      var instr := prog[i].instr;
      var stream := NextStream(instr, active);
      assert stream == StreamAt(prog, i);
      match Resolve(Reads(instr), defs)
      case Err(v) =>
        assert ExtractFrom(prog, i, active, defs, acc) == Err(MalformedProgram(i, v));
        assert v in LetVars(Reads(instr)) && LastDef(prog, v, i).None?;
        assert !Resolvable(prog, i);
      case Ok(deps) =>
        assert Resolvable(prog, i);
        var defs', acc' := defs[prog[i].v := i], acc + [Node(instr, stream, deps)];
        ExtractStepKeeps(prog, i, defs, acc, Node(instr, stream, deps));
        ExtractFromCorrect(prog, i + 1, stream, defs', acc');
        assert ExtractFrom(prog, i, active, defs, acc) == ExtractFrom(prog, i + 1, stream, defs', acc');
        OutcomeStep(prog, i, ExtractFrom(prog, i + 1, stream, defs', acc'));
    }
  }

  /** One successful extraction step keeps the invariant of `ExtractFromCorrect`. */
  lemma ExtractStepKeeps(prog: Program, i: nat, defs: map<VarId, nat>, acc: seq<Node>, n: Node)
    requires i < |prog| && |acc| == i && WellFormed(acc)
    requires forall v :: v in defs <==> LastDef(prog, v, i).Some?
    requires forall v :: v in defs ==> LastDef(prog, v, i) == Some(defs[v])
    requires forall j :: 0 <= j < i ==> Annotated(prog, j, acc[j])
    requires Annotated(prog, i, n) && forall k :: 0 <= k < |n.deps| ==> n.deps[k] < i
    ensures var defs', acc' := defs[prog[i].v := i], acc + [n];
      && WellFormed(acc')
      && (forall v :: v in defs' ==> defs'[v] < i + 1)
      && (forall v :: v in defs' <==> LastDef(prog, v, i + 1).Some?)
      && (forall v :: v in defs' ==> LastDef(prog, v, i + 1) == Some(defs'[v]))
      && (forall j :: 0 <= j < i + 1 ==> Annotated(prog, j, acc'[j]))
  {
    var defs', acc' := defs[prog[i].v := i], acc + [n];
    forall j, k | 0 <= j < |acc'| && 0 <= k < |acc'[j].deps| ensures acc'[j].deps[k] < j {
      if j < i { assert acc'[j] == acc[j]; }
    }
    forall j | 0 <= j < i + 1 ensures Annotated(prog, j, acc'[j]) {
      if j < i { assert acc'[j] == acc[j]; }
    }
  }

  /**
   * Extraction succeeds exactly when every let var read is bound earlier; it
   * then annotates every instruction, and otherwise reports the first read
   * that is not.
   */
  lemma ExtractCorrect(prog: Program)
    ensures var r := Extract(prog);
      && (r.Ok? <==> forall j :: 0 <= j < |prog| ==> Resolvable(prog, j))
      && (r.Ok? ==> forall j :: 0 <= j < |prog| ==> Annotated(prog, j, r.value[j]))
      && (r.Err? ==> r.error.MalformedProgram? && r.error.position < |prog|
                     && r.error.v in LetVars(Reads(prog[r.error.position].instr))
                     && LastDef(prog, r.error.v, r.error.position).None?
                     && forall j :: 0 <= j < r.error.position ==> Resolvable(prog, j))
  {
    ExtractFromCorrect(prog, 0, DefaultStream, map[], []);
  }

  /** A `set_stream` governs every later instruction up to the next `set_stream`. */
  lemma {:induction false} StreamPersists(prog: Program, i: nat, j: nat)
    requires i <= j < |prog| && prog[i].instr.SetStream?
    requires forall k :: i < k <= j ==> !prog[k].instr.SetStream?
    ensures StreamAt(prog, j) == OnDevice(prog[i].instr.device, prog[i].instr.stream)
    decreases j
  {
    if j > i {
      StreamPersists(prog, i, j - 1);
    }
  }

  // ---------------------------------------------------------------------------
  // Happens-before
  // ---------------------------------------------------------------------------

  /** The position of the latest `add_event(e)` strictly before `w`. */
  function LastAdd(nodes: seq<Node>, e: EventId, w: nat): (r: Option<nat>)
    requires w <= |nodes|
    ensures r.Some? ==> r.value < w && nodes[r.value].instr == AddEvent(e)
  {
    if w == 0 then None
    else if nodes[w - 1].instr == AddEvent(e) then Some(w - 1)
    else LastAdd(nodes, e, w - 1)
  }

  /** For a `wait_event` at `w`, the `add_event` it waits for. */
  function WaitSource(nodes: seq<Node>, w: nat): (r: Option<nat>)
    requires w < |nodes|
    ensures r.Some? ==> r.value < w
  {
    if nodes[w].instr.WaitEvent? then LastAdd(nodes, nodes[w].instr.event, w) else None
  }

  /** Position `x` completes before position `y` starts (or is `y`). */
  ghost predicate HappensBefore(nodes: seq<Node>, x: nat, y: nat)
    decreases y, 1
  {
    x <= y < |nodes| && (nodes[x].stream == nodes[y].stream || KnownBy(nodes, x, nodes[y].stream, y))
  }

  /** Before position `i`, stream `s` waited on an event whose mark is ordered after `x`. */
  ghost predicate KnownBy(nodes: seq<Node>, x: nat, s: StreamId, i: nat)
    decreases i, 0
  {
    exists w :: 0 <= w < i && w < |nodes| && nodes[w].stream == s && WaitSource(nodes, w).Some?
                && HappensBefore(nodes, x, WaitSource(nodes, w).value)
  }

  lemma KnownByBefore(nodes: seq<Node>, x: nat, s: StreamId, i: nat)
    requires KnownBy(nodes, x, s, i)
    ensures x < i
  {
    var w :| 0 <= w < i && w < |nodes| && nodes[w].stream == s && WaitSource(nodes, w).Some?
             && HappensBefore(nodes, x, WaitSource(nodes, w).value);
  }

  /** What stream `s` knows before `i + 1` is what it knew before `i` plus the wait at `i`, if any. */
  lemma KnownByStep(nodes: seq<Node>, x: nat, s: StreamId, i: nat)
    requires i < |nodes|
    ensures KnownBy(nodes, x, s, i + 1) <==>
      KnownBy(nodes, x, s, i)
      || (nodes[i].stream == s && WaitSource(nodes, i).Some? && HappensBefore(nodes, x, WaitSource(nodes, i).value))
  {
    if KnownBy(nodes, x, s, i + 1) {
      var w :| 0 <= w < i + 1 && w < |nodes| && nodes[w].stream == s && WaitSource(nodes, w).Some?
               && HappensBefore(nodes, x, WaitSource(nodes, w).value);
      if w < i {
        assert KnownBy(nodes, x, s, i);
      }
    }
    if KnownBy(nodes, x, s, i) {
      var w :| 0 <= w < i && w < |nodes| && nodes[w].stream == s && WaitSource(nodes, w).Some?
               && HappensBefore(nodes, x, WaitSource(nodes, w).value);
      assert w < i + 1;
    }
    if nodes[i].stream == s && WaitSource(nodes, i).Some? && HappensBefore(nodes, x, WaitSource(nodes, i).value) {
      assert 0 <= i < i + 1;
    }
  }

  lemma {:induction false} KnownByGrows(nodes: seq<Node>, x: nat, s: StreamId, i: nat, j: nat)
    requires i <= j && KnownBy(nodes, x, s, i)
    ensures KnownBy(nodes, x, s, j)
  {
    var w :| 0 <= w < i && w < |nodes| && nodes[w].stream == s && WaitSource(nodes, w).Some?
             && HappensBefore(nodes, x, WaitSource(nodes, w).value);
    assert w < j;
  }

  /** Ordering composes: waiting on a stream that itself waited orders the reader after both. */
  lemma {:induction false} HappensBeforeTransitive(nodes: seq<Node>, x: nat, y: nat, z: nat)
    requires HappensBefore(nodes, x, y) && HappensBefore(nodes, y, z)
    ensures HappensBefore(nodes, x, z)
    decreases z
  {
    if nodes[y].stream == nodes[z].stream {
      if nodes[x].stream != nodes[y].stream {
        KnownByGrows(nodes, x, nodes[y].stream, y, z);
      }
    } else {
      var w :| 0 <= w < z && w < |nodes| && nodes[w].stream == nodes[z].stream && WaitSource(nodes, w).Some?
               && HappensBefore(nodes, y, WaitSource(nodes, w).value);
      var a := WaitSource(nodes, w).value;
      HappensBeforeTransitive(nodes, x, y, a);
      assert KnownBy(nodes, x, nodes[z].stream, z);
    }
  }

  // ---------------------------------------------------------------------------
  // The frontier knows exactly the happens-before relation.
  // ---------------------------------------------------------------------------

  /** A reader: a compute call or a tuple construction. */
  predicate Reader(i: Instr)
  {
    i.Call? || i.MakeTuple?
  }

  /** The reads among `deps` at `c` that are not ordered after their producer, in operand order. */
  ghost function UnorderedReads(nodes: seq<Node>, deps: seq<nat>, c: nat): seq<Hazard>
    requires c < |nodes| && forall k :: 0 <= k < |deps| ==> deps[k] < |nodes|
  {
    if deps == [] then []
    else
      (if HappensBefore(nodes, deps[0], c) then [] else [Hazard(deps[0], c, nodes[deps[0]].stream, nodes[c].stream)])
      + UnorderedReads(nodes, deps[1..], c)
  }

  /** Every unordered read from position `i` on, in program order. */
  ghost function HazardsFrom(nodes: seq<Node>, i: nat): seq<Hazard>
    requires WellFormed(nodes) && i <= |nodes|
    decreases |nodes| - i
  {
    if i == |nodes| then []
    else (if Reader(nodes[i].instr) then UnorderedReads(nodes, nodes[i].deps, i) else []) + HazardsFrom(nodes, i + 1)
  }

  /** Every `wait_event` at a position in `[i, j)` has an earlier `add_event`. */
  ghost predicate EventsBound(nodes: seq<Node>, i: nat, j: nat)
  {
    forall w :: i <= w < j && w < |nodes| && nodes[w].instr.WaitEvent? ==> LastAdd(nodes, nodes[w].instr.event, w).Some?
  }

  /** Clock `c` of stream `s` before position `i` knows exactly what `s` is ordered after. */
  ghost predicate ClockMeans(nodes: seq<Node>, c: Clock, s: StreamId, i: nat)
  {
    forall x :: 0 <= x < |nodes| ==> (x <= Seen(c, nodes[x].stream) <==> KnownBy(nodes, x, s, i))
  }

  /** Every bound event records its latest `add_event`, its stream and what that stream knew. */
  ghost predicate EventsMean(nodes: seq<Node>, i: nat, events: map<EventId, Mark>)
    requires i <= |nodes|
  {
    && (forall e :: e in events <==> LastAdd(nodes, e, i).Some?)
    && (forall e :: e in events ==> MarkMeans(nodes, events[e], LastAdd(nodes, e, i).value))
  }

  ghost predicate MarkMeans(nodes: seq<Node>, m: Mark, a: nat)
    requires a < |nodes|
  {
    m.stream == nodes[a].stream && m.pos == a && ClockMeans(nodes, m.clock, nodes[a].stream, a)
  }

  ghost predicate ClocksMean(nodes: seq<Node>, i: nat, st: SimState)
  {
    forall s :: ClockMeans(nodes, ClockOf(st, s), s, i)
  }

  /** The simulator state before position `i`. */
  ghost predicate Inv(nodes: seq<Node>, i: nat, st: SimState)
  {
    WellFormed(nodes) && i <= |nodes| && EventsMean(nodes, i, st.events) && ClocksMean(nodes, i, st)
  }

  lemma {:induction false} ReadHazardsCorrect(nodes: seq<Node>, deps: seq<nat>, i: nat, c: Clock)
    requires i < |nodes| && forall k :: 0 <= k < |deps| ==> deps[k] < i
    requires ClockMeans(nodes, c, nodes[i].stream, i)
    ensures ReadHazards(nodes, deps, i, nodes[i].stream, c) == UnorderedReads(nodes, deps, i)
  {
    if deps != [] {
      var p := deps[0];
      if nodes[p].stream != nodes[i].stream && !KnownBy(nodes, p, nodes[i].stream, i) {
        assert !HappensBefore(nodes, p, i);
      }
      ReadHazardsCorrect(nodes, deps[1..], i, c);
    }
  }

  /** A step keeps the clocks of the streams it does not wait on meaningful. */
  lemma ClocksAdvance(nodes: seq<Node>, i: nat, st: SimState, st': SimState, s: StreamId)
    requires i < |nodes| && ClockMeans(nodes, ClockOf(st, s), s, i)
    requires ClockOf(st', s) == ClockOf(st, s)
    requires nodes[i].stream != s || WaitSource(nodes, i).None?
    ensures ClockMeans(nodes, ClockOf(st', s), s, i + 1)
  {
    forall x | 0 <= x < |nodes| ensures x <= Seen(ClockOf(st', s), nodes[x].stream) <==> KnownBy(nodes, x, s, i + 1) {
      KnownByStep(nodes, x, s, i);
    }
  }

  lemma WaitMerges(nodes: seq<Node>, i: nat, c: Clock, m: Mark, a: nat)
    requires i < |nodes| && WaitSource(nodes, i) == Some(a)
    requires m.stream == nodes[a].stream && m.pos == a
    requires ClockMeans(nodes, c, nodes[i].stream, i)
    requires ClockMeans(nodes, m.clock, nodes[a].stream, a)
    ensures ClockMeans(nodes, Merge(c, m), nodes[i].stream, i + 1)
  {
    forall x | 0 <= x < |nodes|
      ensures x <= Seen(Merge(c, m), nodes[x].stream) <==> KnownBy(nodes, x, nodes[i].stream, i + 1)
    {
      KnownByStep(nodes, x, nodes[i].stream, i);
      if KnownBy(nodes, x, nodes[a].stream, a) {
        KnownByBefore(nodes, x, nodes[a].stream, a);
      }
    }
  }

  /** Steps that are not waits leave every clock meaningful one position later. */
  lemma NoWaitKeepsClocks(nodes: seq<Node>, i: nat, st: SimState, st': SimState)
    requires i < |nodes| && ClocksMean(nodes, i, st) && st'.clocks == st.clocks
    requires !nodes[i].instr.WaitEvent?
    ensures ClocksMean(nodes, i + 1, st')
  {
    forall s ensures ClockMeans(nodes, ClockOf(st', s), s, i + 1) {
      ClocksAdvance(nodes, i, st, st', s);
    }
  }

  lemma NoAddKeepsEvents(nodes: seq<Node>, i: nat, events: map<EventId, Mark>)
    requires i < |nodes| && EventsMean(nodes, i, events) && !nodes[i].instr.AddEvent?
    ensures EventsMean(nodes, i + 1, events)
  {
    forall e ensures LastAdd(nodes, e, i + 1) == LastAdd(nodes, e, i) {
    }
  }

  lemma StepAdd(nodes: seq<Node>, i: nat, st: SimState)
    requires Inv(nodes, i, st) && i < |nodes| && nodes[i].instr.AddEvent?
    ensures Step(nodes, i, st).Ok?
    ensures Inv(nodes, i + 1, Step(nodes, i, st).value) && Step(nodes, i, st).value.hazards == st.hazards
  {
    var e := nodes[i].instr.event;
    var st' := Step(nodes, i, st).value;
    NoWaitKeepsClocks(nodes, i, st, st');
    forall e' ensures e' in st'.events <==> LastAdd(nodes, e', i + 1).Some? {
    }
    forall e' | e' in st'.events ensures MarkMeans(nodes, st'.events[e'], LastAdd(nodes, e', i + 1).value) {
      if e' != e {
        assert LastAdd(nodes, e', i + 1) == LastAdd(nodes, e', i);
      }
    }
  }

  lemma WaitKeepsClocks(nodes: seq<Node>, i: nat, st: SimState, m: Mark, a: nat)
    requires i < |nodes| && ClocksMean(nodes, i, st)
    requires WaitSource(nodes, i) == Some(a) && MarkMeans(nodes, m, a)
    ensures var s := nodes[i].stream;
      ClocksMean(nodes, i + 1, st.(clocks := st.clocks[s := Merge(ClockOf(st, s), m)]))
  {
    var n := nodes[i];
    var c := ClockOf(st, n.stream);
    var st' := st.(clocks := st.clocks[n.stream := Merge(c, m)]);
    WaitMerges(nodes, i, c, m, a);
    forall s ensures ClockMeans(nodes, ClockOf(st', s), s, i + 1) {
      if s != n.stream {
        ClocksAdvance(nodes, i, st, st', s);
      }
    }
  }

  lemma StepWait(nodes: seq<Node>, i: nat, st: SimState)
    requires Inv(nodes, i, st) && i < |nodes| && nodes[i].instr.WaitEvent?
    ensures var r := Step(nodes, i, st);
      && (r.Err? <==> LastAdd(nodes, nodes[i].instr.event, i).None?)
      && (r.Err? ==> r.error == UnknownEvent(i, nodes[i].instr.event))
      && (r.Ok? ==> Inv(nodes, i + 1, r.value) && r.value.hazards == st.hazards)
  {
    var e := nodes[i].instr.event;
    assert e in st.events <==> LastAdd(nodes, e, i).Some?;
    if e in st.events {
      var a := LastAdd(nodes, e, i).value;
      assert MarkMeans(nodes, st.events[e], a);
      WaitKeepsClocks(nodes, i, st, st.events[e], a);
      NoAddKeepsEvents(nodes, i, st.events);
    }
  }

  lemma StepRead(nodes: seq<Node>, i: nat, st: SimState)
    requires Inv(nodes, i, st) && i < |nodes| && Reader(nodes[i].instr)
    ensures Step(nodes, i, st).Ok?
    ensures Inv(nodes, i + 1, Step(nodes, i, st).value)
    ensures Step(nodes, i, st).value.hazards == st.hazards + UnorderedReads(nodes, nodes[i].deps, i)
  {
    var n := nodes[i];
    ReadHazardsCorrect(nodes, n.deps, i, ClockOf(st, n.stream));
    NoWaitKeepsClocks(nodes, i, st, Step(nodes, i, st).value);
    NoAddKeepsEvents(nodes, i, st.events);
  }

  lemma StepCorrect(nodes: seq<Node>, i: nat, st: SimState)
    requires Inv(nodes, i, st) && i < |nodes|
    ensures var r := Step(nodes, i, st);
      && (r.Err? <==> nodes[i].instr.WaitEvent? && LastAdd(nodes, nodes[i].instr.event, i).None?)
      && (r.Err? ==> r.error == UnknownEvent(i, nodes[i].instr.event))
      && (r.Ok? ==> Inv(nodes, i + 1, r.value)
                    && r.value.hazards == st.hazards + (if Reader(nodes[i].instr) then UnorderedReads(nodes, nodes[i].deps, i) else []))
  {
    match nodes[i].instr
    case SetStream(_, _) =>
      assert st.hazards + [] == st.hazards;
      NoWaitKeepsClocks(nodes, i, st, st);
      NoAddKeepsEvents(nodes, i, st.events);
    case AddEvent(_) =>
      assert st.hazards + [] == st.hazards;
      StepAdd(nodes, i, st);
    case WaitEvent(_) =>
      assert st.hazards + [] == st.hazards;
      StepWait(nodes, i, st);
    case Call(_, _) =>
      StepRead(nodes, i, st);
    case MakeTuple(_) =>
      StepRead(nodes, i, st);
  }

  /** Position `w` holds the first wait from `i` on whose event was never added. */
  ghost predicate FirstUnbound(nodes: seq<Node>, i: nat, w: nat)
  {
    && i <= w < |nodes| && nodes[w].instr.WaitEvent?
    && LastAdd(nodes, nodes[w].instr.event, w).None?
    && EventsBound(nodes, i, w)
  }

  lemma {:induction false} SimulateFromOutcome(nodes: seq<Node>, i: nat, st: SimState)
    requires Inv(nodes, i, st)
    ensures var r := SimulateFrom(nodes, i, st);
      && (r.Ok? <==> EventsBound(nodes, i, |nodes|))
      && (r.Err? ==> exists w: nat :: FirstUnbound(nodes, i, w) && r.error == UnknownEvent(w, nodes[w].instr.event))
    decreases |nodes| - i
  {
    if i < |nodes| {
      StepCorrect(nodes, i, st);
      var s := Step(nodes, i, st);
      if s.Err? {
        assert SimulateFrom(nodes, i, st) == Err(s.error);
        assert FirstUnbound(nodes, i, i);
      } else {
        SimulateFromOutcome(nodes, i + 1, s.value);
        OutcomeLink(nodes, i, st, s.value);
      }
    }
  }

  /** The outcome at `i + 1` after a successful step gives the outcome at `i`. */
  lemma OutcomeLink(nodes: seq<Node>, i: nat, st: SimState, st': SimState)
    requires WellFormed(nodes) && i < |nodes| && Step(nodes, i, st) == Ok(st')
    requires nodes[i].instr.WaitEvent? ==> LastAdd(nodes, nodes[i].instr.event, i).Some?
    requires var r := SimulateFrom(nodes, i + 1, st');
      && (r.Ok? <==> EventsBound(nodes, i + 1, |nodes|))
      && (r.Err? ==> exists w: nat :: FirstUnbound(nodes, i + 1, w) && r.error == UnknownEvent(w, nodes[w].instr.event))
    ensures var r := SimulateFrom(nodes, i, st);
      && (r.Ok? <==> EventsBound(nodes, i, |nodes|))
      && (r.Err? ==> exists w: nat :: FirstUnbound(nodes, i, w) && r.error == UnknownEvent(w, nodes[w].instr.event))
  {
    assert SimulateFrom(nodes, i, st) == SimulateFrom(nodes, i + 1, st');
    var r := SimulateFrom(nodes, i + 1, st');
    if r.Ok? {
      EventsBoundExtend(nodes, i, |nodes|);
    } else {
      var w: nat :| FirstUnbound(nodes, i + 1, w) && r.error == UnknownEvent(w, nodes[w].instr.event);
      EventsBoundExtend(nodes, i, w);
      assert FirstUnbound(nodes, i, w);
    }
  }

  lemma {:induction false} SimulateFromHazards(nodes: seq<Node>, i: nat, st: SimState)
    requires Inv(nodes, i, st)
    ensures var r := SimulateFrom(nodes, i, st);
      r.Ok? ==> r.value.hazards == st.hazards + HazardsFrom(nodes, i)
    decreases |nodes| - i
  {
    if i == |nodes| {
      assert st.hazards + [] == st.hazards;
    } else {
      StepCorrect(nodes, i, st);
      var s := Step(nodes, i, st);
      if s.Ok? {
        SimulateFromHazards(nodes, i + 1, s.value);
        HazardsLink(nodes, i, st, s.value);
      }
    }
  }

  /** One step of `SimulateFromHazards`: the hazards of position `i` come before those of the rest. */
  lemma HazardsLink(nodes: seq<Node>, i: nat, st: SimState, st': SimState)
    requires WellFormed(nodes) && i < |nodes| && Step(nodes, i, st) == Ok(st')
    requires st'.hazards == st.hazards + (if Reader(nodes[i].instr) then UnorderedReads(nodes, nodes[i].deps, i) else [])
    requires var r := SimulateFrom(nodes, i + 1, st'); r.Ok? ==> r.value.hazards == st'.hazards + HazardsFrom(nodes, i + 1)
    ensures var r := SimulateFrom(nodes, i, st); r.Ok? ==> r.value.hazards == st.hazards + HazardsFrom(nodes, i)
  {
    var here := if Reader(nodes[i].instr) then UnorderedReads(nodes, nodes[i].deps, i) else [];
    SimulateUnfold(nodes, i, st, st');
    assert HazardsFrom(nodes, i) == here + HazardsFrom(nodes, i + 1);
    assert (st.hazards + here) + HazardsFrom(nodes, i + 1) == st.hazards + (here + HazardsFrom(nodes, i + 1));
  }

  /** A successful step hands the rest of the simulation the stepped state. */
  lemma SimulateUnfold(nodes: seq<Node>, i: nat, st: SimState, st': SimState)
    requires WellFormed(nodes) && i < |nodes| && Step(nodes, i, st) == Ok(st')
    ensures SimulateFrom(nodes, i, st) == SimulateFrom(nodes, i + 1, st')
  {
  }

  lemma EventsBoundExtend(nodes: seq<Node>, i: nat, j: nat)
    requires i < |nodes| && EventsBound(nodes, i + 1, j)
    requires nodes[i].instr.WaitEvent? ==> LastAdd(nodes, nodes[i].instr.event, i).Some?
    ensures EventsBound(nodes, i, j)
  {
  }

  /**
   * The forward pass reports exactly the reads not ordered after their producer,
   * in program order; it stops with `UnknownEvent` at the first wait whose event
   * was never added, and only then.
   */
  lemma SimulateCorrect(nodes: seq<Node>)
    requires WellFormed(nodes)
    ensures Simulate(nodes).Ok? <==> EventsBound(nodes, 0, |nodes|)
    ensures Simulate(nodes).Ok? ==> Simulate(nodes).value == HazardsFrom(nodes, 0)
    ensures Simulate(nodes).Err? ==>
              exists w: nat :: FirstUnbound(nodes, 0, w) && Simulate(nodes).error == UnknownEvent(w, nodes[w].instr.event)
  {
    forall s ensures ClockMeans(nodes, ClockOf(Initial, s), s, 0) {
    }
    SimulateFromOutcome(nodes, 0, Initial);
    SimulateFromHazards(nodes, 0, Initial);
  }

  lemma {:induction false} UnorderedReadsEmpty(nodes: seq<Node>, deps: seq<nat>, c: nat)
    requires c < |nodes| && forall k :: 0 <= k < |deps| ==> deps[k] < |nodes|
    ensures UnorderedReads(nodes, deps, c) == [] <==> forall k :: 0 <= k < |deps| ==> HappensBefore(nodes, deps[k], c)
  {
    if deps != [] {
      UnorderedReadsEmpty(nodes, deps[1..], c);
      assert forall k :: 1 <= k < |deps| ==> deps[k] == deps[1..][k - 1];
    }
  }

  /** Every read at a reader in `[i, |nodes|)` is ordered after its producer. */
  ghost predicate OrderedFrom(nodes: seq<Node>, i: nat)
    requires WellFormed(nodes)
  {
    forall c, k :: i <= c < |nodes| && Reader(nodes[c].instr) && 0 <= k < |nodes[c].deps| ==>
      HappensBefore(nodes, nodes[c].deps[k], c)
  }

  lemma {:induction false} HazardsFromEmpty(nodes: seq<Node>, i: nat)
    requires WellFormed(nodes) && i <= |nodes|
    ensures HazardsFrom(nodes, i) == [] <==> OrderedFrom(nodes, i)
    decreases |nodes| - i
  {
    if i < |nodes| {
      HazardsFromEmpty(nodes, i + 1);
      if Reader(nodes[i].instr) {
        UnorderedReadsEmpty(nodes, nodes[i].deps, i);
      }
    }
  }

  /** An unordered read at a reader `c` at or after `i` is among the hazards reported from `i`. */
  lemma {:induction false} UnorderedReadReported(nodes: seq<Node>, i: nat, c: nat, k: nat)
    requires WellFormed(nodes) && i <= c < |nodes| && Reader(nodes[c].instr) && k < |nodes[c].deps|
    requires !HappensBefore(nodes, nodes[c].deps[k], c)
    ensures Hazard(nodes[c].deps[k], c, nodes[nodes[c].deps[k]].stream, nodes[c].stream) in HazardsFrom(nodes, i)
    decreases |nodes| - i
  {
    if i < c {
      UnorderedReadReported(nodes, i + 1, c, k);
    } else {
      UnorderedReadListed(nodes, nodes[c].deps, c, k);
    }
  }

  lemma {:induction false} UnorderedReadListed(nodes: seq<Node>, deps: seq<nat>, c: nat, k: nat)
    requires c < |nodes| && (forall j :: 0 <= j < |deps| ==> deps[j] < |nodes|) && k < |deps|
    requires !HappensBefore(nodes, deps[k], c)
    ensures Hazard(deps[k], c, nodes[deps[k]].stream, nodes[c].stream) in UnorderedReads(nodes, deps, c)
  {
    if k > 0 {
      UnorderedReadListed(nodes, deps[1..], c, k - 1);
    }
  }

  /**
   * A schedule verifies exactly when every let var read is bound earlier, every
   * waited event was added earlier, and every read is ordered after its
   * producer; an `ExecutionOrder` error lists every unordered read.
   */
  lemma VerifyCorrect(prog: Program)
    ensures Verify(prog).Ok? <==>
      Extract(prog).Ok? && EventsBound(Extract(prog).value, 0, |prog|) && OrderedFrom(Extract(prog).value, 0)
    ensures Verify(prog).Err? && Verify(prog).error.ExecutionOrder? ==>
      Extract(prog).Ok? && Verify(prog).error.hazards == HazardsFrom(Extract(prog).value, 0) != []
  {
    ExtractCorrect(prog);
    if Extract(prog).Ok? {
      var nodes := Extract(prog).value;
      SimulateCorrect(nodes);
      HazardsFromEmpty(nodes, 0);
    }
  }

  /** A schedule whose every read stays on its producer's stream has no hazards, whatever its events. */
  lemma IntraStreamReadsAreSafe(nodes: seq<Node>)
    requires WellFormed(nodes) && EventsBound(nodes, 0, |nodes|)
    requires forall c, k :: 0 <= c < |nodes| && 0 <= k < |nodes[c].deps| ==> nodes[nodes[c].deps[k]].stream == nodes[c].stream
    ensures Simulate(nodes) == Ok([])
  {
    SimulateCorrect(nodes);
    HazardsFromEmpty(nodes, 0);
  }

  /** Without any wait, every read across streams is reported. */
  lemma CrossStreamReadNeedsEvents(nodes: seq<Node>, c: nat, k: nat)
    requires WellFormed(nodes) && forall w :: 0 <= w < |nodes| ==> !nodes[w].instr.WaitEvent?
    requires c < |nodes| && Reader(nodes[c].instr) && k < |nodes[c].deps|
    requires nodes[nodes[c].deps[k]].stream != nodes[c].stream
    ensures Simulate(nodes).Ok?
    ensures Hazard(nodes[c].deps[k], c, nodes[nodes[c].deps[k]].stream, nodes[c].stream) in Simulate(nodes).value
  {
    SimulateCorrect(nodes);
    assert !KnownBy(nodes, nodes[c].deps[k], nodes[c].stream, c);
    UnorderedReadReported(nodes, 0, c, k);
  }

  // ---------------------------------------------------------------------------
  // Algebra of the frontier merge.
  // ---------------------------------------------------------------------------

  lemma MaxSwap(a: int, b: int, c: int)
    ensures Max(Max(a, b), c) == Max(Max(a, c), b)
  {
  }

  /** Clocks that agree on what they know about every stream are equal. */
  lemma ClockExt(a: Clock, b: Clock)
    requires forall t :: Seen(a, t) == Seen(b, t)
    ensures a == b
  {
    assert forall t :: t in a <==> Seen(a, t) >= 0;
    assert forall t :: t in b <==> Seen(b, t) >= 0;
    assert a.Keys == b.Keys;
    forall t | t in a ensures a[t] == b[t] {
      assert Seen(a, t) == Seen(b, t);
    }
  }

  /** Waiting twice on the same mark teaches nothing new. */
  lemma MergeIdempotent(c: Clock, m: Mark)
    ensures Merge(Merge(c, m), m) == Merge(c, m)
  {
    ClockExt(Merge(Merge(c, m), m), Merge(c, m));
  }

  /** The order in which two marks are merged does not matter. */
  lemma MergeCommutes(c: Clock, m1: Mark, m2: Mark)
    ensures Merge(Merge(c, m1), m2) == Merge(Merge(c, m2), m1)
  {
    var l := Merge(Merge(c, m1), m2);
    var r := Merge(Merge(c, m2), m1);
    forall t ensures Seen(l, t) == Seen(r, t) {
      var x, y1, y2 := Seen(c, t), Seen(m1.clock, t), Seen(m2.clock, t);
      var p1 := if t == m1.stream then m1.pos else -1;
      var p2 := if t == m2.stream then m2.pos else -1;
      assert Seen(l, t) == Max(Max(Max(Max(x, y1), p1), y2), p2);
      assert Seen(r, t) == Max(Max(Max(Max(x, y2), p2), y1), p1);
      MaxSwap(Max(x, y1), p1, y2);
      MaxSwap(x, y1, y2);
      MaxSwap(Max(Max(x, y2), y1), p1, p2);
      MaxSwap(Max(x, y2), y1, p2);
    }
    ClockExt(l, r);
  }

  /** No step forgets what a stream knows about another. */
  lemma StepGrowsClocks(nodes: seq<Node>, i: nat, st: SimState, s: StreamId, t: StreamId)
    requires WellFormed(nodes) && i < |nodes| && Step(nodes, i, st).Ok?
    ensures Seen(ClockOf(st, s), t) <= Seen(ClockOf(Step(nodes, i, st).value, s), t)
  {
    var n := nodes[i];
    if n.instr.WaitEvent? && s == n.stream {
      var m := st.events[n.instr.event];
      assert ClockOf(Step(nodes, i, st).value, s) == Merge(ClockOf(st, s), m);
    }
  }
}
