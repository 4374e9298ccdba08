/**
 * Execution-order verification of a multi-stream schedule.
 *
 * A scheduled function body is a straight let-chain.  `set_stream` selects the
 * stream that runs every following instruction, `add_event(e)` marks a point on
 * the current stream, `wait_event(e)` makes the current stream wait for the most
 * recent mark of `e`.  Compute calls and tuple constructions read earlier let
 * vars and function parameters.  A read of a value produced on another stream is
 * a hazard unless a chain of add/wait pairs orders the producer before the reader.
 */
module ScheduleVerifier {
  import opened Results

  /** A hardware stream; `DefaultStream` is in effect before the first `set_stream`. */
  datatype StreamId = DefaultStream | OnDevice(device: nat, stream: nat)

  /** Let vars are identified by their index in the builder (`x_k` is `k`). */
  type VarId = nat
  type EventId = nat

  /** What an instruction may read: a function parameter, a constant, or an earlier let var. */
  datatype Operand = Param(name: string) | Const(value: int) | LetVar(v: VarId)

  datatype Instr =
    | SetStream(device: nat, stream: nat)
    | AddEvent(event: EventId)
    | WaitEvent(event: EventId)
    | Call(op: string, args: seq<Operand>)
    | MakeTuple(fields: seq<Operand>)

  /** One binding `let v = instr` of the let-chain. */
  datatype Stmt = Let(v: VarId, instr: Instr)

  type Program = seq<Stmt>

  /** An instruction after extraction: its stream and the positions of the values it reads. */
  datatype Node = Node(instr: Instr, stream: StreamId, deps: seq<nat>)

  /** An unsynchronised cross-stream read. */
  datatype Hazard = Hazard(producer: nat, consumer: nat, producerStream: StreamId, consumerStream: StreamId)

  datatype VerifyError =
    | MalformedProgram(position: nat, v: VarId)
    | UnknownEvent(position: nat, event: EventId)
    | ExecutionOrder(hazards: seq<Hazard>)

  /** The operands an instruction reads; control instructions read nothing. */
  function Reads(i: Instr): seq<Operand>
  {
    match i
    case Call(_, args) => args
    case MakeTuple(fields) => fields
    case _ => []
  }

  /** The let vars among some operands, in operand order. */
  function LetVars(ops: seq<Operand>): (vs: seq<VarId>)
    ensures |vs| <= |ops|
  {
    if ops == [] then []
    else (if ops[0].LetVar? then [ops[0].v] else []) + LetVars(ops[1..])
  }

  // ---------------------------------------------------------------------------
  // Extraction: one left-to-right scan carrying the active stream and the
  // position of every let var bound so far.
  // ---------------------------------------------------------------------------

  /** Resolves each let var read to the position of its binding. */
  function Resolve(ops: seq<Operand>, defs: map<VarId, nat>): (r: Result<seq<nat>, VarId>)
    ensures r.Ok? <==> forall v :: v in LetVars(ops) ==> v in defs
    ensures r.Ok? ==> |r.value| == |LetVars(ops)|
    ensures r.Ok? ==> forall k :: 0 <= k < |r.value| ==> r.value[k] == defs[LetVars(ops)[k]]
    ensures r.Err? ==> r.error !in defs && r.error in LetVars(ops)
  {
    if ops == [] then Ok([])
    else if ops[0].LetVar? && ops[0].v !in defs then Err(ops[0].v)
    else
      match Resolve(ops[1..], defs)
      case Err(v) => Err(v)
      case Ok(rest) => Ok((if ops[0].LetVar? then [defs[ops[0].v]] else []) + rest)
  }

  /** The stream selected by the instruction at `i`, given the stream active before it. */
  function NextStream(instr: Instr, active: StreamId): StreamId
  {
    if instr.SetStream? then OnDevice(instr.device, instr.stream) else active
  }

  /** Nodes whose operands all point to earlier positions, as extraction produces them. */
  predicate WellFormed(nodes: seq<Node>)
  {
    forall j, k :: 0 <= j < |nodes| && 0 <= k < |nodes[j].deps| ==> nodes[j].deps[k] < j
  }

  function ExtractFrom(prog: Program, i: nat, active: StreamId, defs: map<VarId, nat>, acc: seq<Node>)
    : (r: Result<seq<Node>, VerifyError>)
    requires i <= |prog| && |acc| == i && WellFormed(acc)
    requires forall v :: v in defs ==> defs[v] < i
    ensures r.Ok? ==> |r.value| == |prog| && WellFormed(r.value)
    ensures r.Err? ==> r.error.MalformedProgram? && i <= r.error.position < |prog|
    decreases |prog| - i
  {
    if i == |prog| then Ok(acc)
    else
      var instr := prog[i].instr;
      var stream := NextStream(instr, active);
      match Resolve(Reads(instr), defs)
      case Err(v) => Err(MalformedProgram(i, v))
      case Ok(deps) =>
        ExtractFrom(prog, i + 1, stream, defs[prog[i].v := i], acc + [Node(instr, stream, deps)])
  }

  /** Annotates every instruction with its stream and resolved operands. */
  function Extract(prog: Program): (r: Result<seq<Node>, VerifyError>)
    ensures r.Ok? ==> |r.value| == |prog| && WellFormed(r.value)
    ensures r.Err? ==> r.error.MalformedProgram? && r.error.position < |prog|
  {
    ExtractFrom(prog, 0, DefaultStream, map[], [])
  }

  // ---------------------------------------------------------------------------
  // Happens-before frontier.  A clock maps another stream to the latest
  // position on it known to be complete.
  // ---------------------------------------------------------------------------

  type Clock = map<StreamId, nat>

  /** The latest known-complete position on `t`, or -1 when nothing is known. */
  function Seen(c: Clock, t: StreamId): int
  {
    if t in c then c[t] else -1
  }

  function Max(a: int, b: int): int
  {
    if a < b then b else a
  }

  /** Pointwise maximum of two clocks. */
  function Join(a: Clock, b: Clock): (r: Clock)
    ensures r.Keys == a.Keys + b.Keys
    ensures forall t :: Seen(r, t) == Max(Seen(a, t), Seen(b, t))
  {
    map t | t in a.Keys + b.Keys :: if Seen(a, t) < Seen(b, t) then b[t] else a[t]
  }

  /** The binding of an event: where it was added and what its stream knew then. */
  datatype Mark = Mark(stream: StreamId, pos: nat, clock: Clock)

  /** What a stream knows after waiting on a mark: the mark's own point and, transitively, its snapshot. */
  function Merge(c: Clock, m: Mark): (r: Clock)
    ensures forall t :: Seen(r, t) == Max(Max(Seen(c, t), Seen(m.clock, t)), if t == m.stream then m.pos else -1)
  {
    Join(Join(c, m.clock), map[m.stream := m.pos])
  }

  /** Whether a read on `cs` of a value made at `pp` on `ps` is ordered by clock `c`. */
  predicate Covers(c: Clock, cs: StreamId, ps: StreamId, pp: nat)
  {
    cs == ps || Seen(c, ps) >= pp
  }

  // ---------------------------------------------------------------------------
  // Simulation and hazard detection, interleaved in one forward pass.
  // ---------------------------------------------------------------------------

  datatype SimState = SimState(events: map<EventId, Mark>, clocks: map<StreamId, Clock>, hazards: seq<Hazard>)

  function ClockOf(st: SimState, s: StreamId): Clock
  {
    if s in st.clocks then st.clocks[s] else map[]
  }

  /** The hazards among `deps`, read on `cs` under clock `c`, in operand order. */
  function ReadHazards(nodes: seq<Node>, deps: seq<nat>, i: nat, cs: StreamId, c: Clock): (hs: seq<Hazard>)
    requires forall k :: 0 <= k < |deps| ==> deps[k] < |nodes|
    ensures |hs| <= |deps|
  {
    if deps == [] then []
    else
      var p := deps[0];
      (if Covers(c, cs, nodes[p].stream, p) then [] else [Hazard(p, i, nodes[p].stream, cs)])
      + ReadHazards(nodes, deps[1..], i, cs, c)
  }

  /**
   * Processes the node at position `i`.  Only a wait on an event never added
   * fails, and only a read can add hazards, after the ones already found.
   */
  function Step(nodes: seq<Node>, i: nat, st: SimState): (r: Result<SimState, VerifyError>)
    requires WellFormed(nodes) && i < |nodes|
    ensures r.Err? <==> nodes[i].instr.WaitEvent? && nodes[i].instr.event !in st.events
    ensures r.Err? ==> r.error == UnknownEvent(i, nodes[i].instr.event)
    ensures r.Ok? ==> |st.hazards| <= |r.value.hazards| && r.value.hazards[..|st.hazards|] == st.hazards
    ensures r.Ok? && !nodes[i].instr.Call? && !nodes[i].instr.MakeTuple? ==> r.value.hazards == st.hazards
  {
    var n := nodes[i];
    var c := ClockOf(st, n.stream);
    match n.instr
    case SetStream(_, _) => Ok(st)
    case AddEvent(e) => Ok(st.(events := st.events[e := Mark(n.stream, i, c)]))
    case WaitEvent(e) =>
      if e !in st.events then Err(UnknownEvent(i, e))
      else Ok(st.(clocks := st.clocks[n.stream := Merge(c, st.events[e])]))
    case _ => Ok(st.(hazards := st.hazards + ReadHazards(nodes, n.deps, i, n.stream, c)))
  }

  function SimulateFrom(nodes: seq<Node>, i: nat, st: SimState): (r: Result<SimState, VerifyError>)
    requires WellFormed(nodes) && i <= |nodes|
    ensures r.Err? ==> r.error.UnknownEvent? && i <= r.error.position < |nodes|
    decreases |nodes| - i
  {
    if i == |nodes| then Ok(st)
    else
      match Step(nodes, i, st)
      case Err(e) => Err(e)
      case Ok(st') => SimulateFrom(nodes, i + 1, st')
  }

  const Initial := SimState(map[], map[], [])

  /** Runs the whole pass, returning every hazard in program order. */
  function Simulate(nodes: seq<Node>): (r: Result<seq<Hazard>, VerifyError>)
    requires WellFormed(nodes)
    ensures r.Err? ==> r.error.UnknownEvent? && r.error.position < |nodes|
  {
    match SimulateFrom(nodes, 0, Initial)
    case Err(e) => Err(e)
    case Ok(st) => Ok(st.hazards)
  }

  /** Verifies a schedule: success, or the first fatal error, or every hazard. */
  function Verify(prog: Program): (r: Result<(), VerifyError>)
    ensures r.Err? && r.error.MalformedProgram? <==> Extract(prog).Err?
    ensures r.Err? && r.error.UnknownEvent? ==> r.error.position < |prog|
    ensures r.Err? && r.error.ExecutionOrder? ==> r.error.hazards != []
  {
    match Extract(prog)
    case Err(e) => Err(e)
    case Ok(nodes) =>
      match Simulate(nodes)
      case Err(e) => Err(e)
      case Ok(hs) => if hs == [] then Ok(()) else Err(ExecutionOrder(hs))
  }
}
