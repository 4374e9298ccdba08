/**
 * The in-place update pass.  A visitor walks a function's outer `let` chain
 * twice: first it records each variable's binding and a one-step
 * simplification (a variable bound to a variable, or to a projection of a
 * tuple literal, stands for that variable); then, for every variable that may
 * share memory with another, it maps the simplified variable to the sharing
 * partner and the call's storage argument to "undefined".  A rewriter then
 * drops the `let`s of mapped variables and replaces mapped occurrences.
 */
module InplaceUpdate {
  import opened Results
  import opened Ir

  /** The operator whose result is raw storage. */
  const AllocStorage := "mnm.op.vm.alloc_storage"

  /** What `vmap` maps a variable to: its sharing partner, or an undefined variable. */
  datatype Target<V> = To(v: V) | Undefined

  datatype InplaceError<V> =
    | MissingKey(v: V)         // a map lookup of a variable with no entry
    | NotAVar                  // a `Downcast<Var>` of some other expression
    | NotACall(v: V)           // the storage argument's binding is no call
    | NotAllocStorage(v: V)    // the storage argument is not made by `alloc_storage`
    | NoArgs                   // the call has no first argument
    | FieldOutOfRange(index: nat)
    | AllocStorageUsed(v: V)   // an occurrence of a variable mapped to undefined

  datatype Binding<V> = Binding(x: V, value: Expr<V>)

  /** The visitor's maps: each variable's simplification and each variable's binding. */
  datatype VisitorState<V> = VisitorState(simplify: map<V, V>, binding: map<V, Expr<V>>)

  datatype Function<V, T, A> = Function(params: seq<V>, body: Expr<V>, retType: T, typeParams: seq<T>, attrs: A)

  /** The outer `let` chain of a function body, outermost first. */
  function LetList<V>(e: Expr<V>): seq<Binding<V>>
  {
    match e
    case Let(x, value, body) => [Binding(x, value)] + LetList(body)
    case _ => []
  }

  // ---------------------------------------------------------------------------
  // First walk: bindings and one-step simplification
  // ---------------------------------------------------------------------------

  /** What `x`, bound to `value`, simplifies to when the lookups into `st` succeed. */
  function Simplified<V>(st: VisitorState<V>, x: V, value: Expr<V>): V
  {
    match value
    case Var(v) => v
    case TupleGetItem(Var(t), idx) =>
      if t in st.simplify && st.simplify[t] in st.binding && st.binding[st.simplify[t]].Tuple?
         && idx < |st.binding[st.simplify[t]].fields| && st.binding[st.simplify[t]].fields[idx].Var?
      then st.binding[st.simplify[t]].fields[idx].v
      else x
    case _ => x
  }

  /** A projection's tuple variable, and what it simplifies to, are known in `st`. */
  predicate Resolved<V>(st: VisitorState<V>, value: Expr<V>)
  {
    value.TupleGetItem? ==>
      value.tuple.Var? && value.tuple.v in st.simplify && st.simplify[value.tuple.v] in st.binding
  }

  /**
   * The lookups of the first walk succeed for `b`: once `b.x` is recorded, a
   * projection's tuple is a variable whose simplification is bound, and when
   * that binding is a tuple literal the projected field exists and is a
   * variable.  Bindings of any other kind always succeed.
   */
  predicate Recordable<V>(st: VisitorState<V>, b: Binding<V>)
  {
    var simplify, binding := st.simplify[b.x := b.x], st.binding[b.x := b.value];
    b.value.TupleGetItem? ==>
      && b.value.tuple.Var? && b.value.tuple.v in simplify && simplify[b.value.tuple.v] in binding
      && var e := binding[simplify[b.value.tuple.v]];
         (e.Tuple? ==> b.value.index < |e.fields| && e.fields[b.value.index].Var?)
  }

  /** One iteration of the first loop: record `x`, then visit its bound expression. */
  function Record<V(==)>(st: VisitorState<V>, b: Binding<V>): (r: Result<VisitorState<V>, InplaceError<V>>)
    ensures r.Ok? <==> Recordable(st, b)
    ensures b.value.TupleGetItem? && !b.value.tuple.Var? ==> r == Err(NotAVar)
    ensures r.Err? ==> r.error.NotAVar? || r.error.MissingKey? || r.error == FieldOutOfRange(b.value.index)
    ensures r.Ok? ==> r.value.binding == st.binding[b.x := b.value]
    ensures r.Ok? ==> r.value.simplify == st.simplify[b.x := Simplified(r.value, b.x, b.value)]
    ensures r.Ok? ==> Resolved(r.value, b.value)
  {
    var st1 := VisitorState(st.simplify[b.x := b.x], st.binding[b.x := b.value]);
    match b.value
    case Var(v) => Ok(VisitorState(st1.simplify[b.x := v], st1.binding))
    case TupleGetItem(tuple, idx) =>
      if !tuple.Var? then Err(NotAVar)
      else if tuple.v !in st1.simplify then Err(MissingKey(tuple.v))
      else if st1.simplify[tuple.v] !in st1.binding then Err(MissingKey(st1.simplify[tuple.v]))
      else
        var e := st1.binding[st1.simplify[tuple.v]];
        if !e.Tuple? then Ok(st1)
        else if idx >= |e.fields| then Err(FieldOutOfRange(idx))
        else if !e.fields[idx].Var? then Err(NotAVar)
        else Ok(VisitorState(st1.simplify[b.x := e.fields[idx].v], st1.binding))
    case _ => Ok(st1)
  }

  function RecordFrom<V(==)>(lets: seq<Binding<V>>, i: nat, st: VisitorState<V>): Result<VisitorState<V>, InplaceError<V>>
    requires i <= |lets|
    decreases |lets| - i
  {
    if i == |lets| then Ok(st)
    else match Record(st, lets[i]) {
      case Err(err) => Err(err)
      case Ok(st') => RecordFrom(lets, i + 1, st')
    }
  }

  // ---------------------------------------------------------------------------
  // Second walk: the sharing map
  // ---------------------------------------------------------------------------

  /**
   * One iteration of the second loop, for a variable that may share with
   * `partner`: when its simplified binding is a call, map the simplified
   * variable to `partner` and the call's first argument, which must be made
   * by `alloc_storage`, to undefined.
   */
  function Share<V(==)>(st: VisitorState<V>, x: V, partner: V, vmap: map<V, Target<V>>): (r: Result<map<V, Target<V>>, InplaceError<V>>)
    requires x in st.simplify
    ensures r.Ok? <==> StorageChecked(st, x)
    ensures r.Ok? ==> r.value == Shared(st, x, partner, vmap)
  {
    var s := st.simplify[x];
    if s !in st.binding then Err(MissingKey(s))
    else match st.binding[s] {
      case Call(_, args) =>
        if |args| == 0 then Err(NoArgs)
        else if !args[0].Var? then Err(NotAVar)
        else
          var arg := args[0].v;
          if arg !in st.simplify then Err(MissingKey(arg))
          else if st.simplify[arg] !in st.binding then Err(MissingKey(st.simplify[arg]))
          else match st.binding[st.simplify[arg]] {
            case Call(op, _) =>
              if op != AllocStorage then Err(NotAllocStorage(arg))
              else Ok(vmap[s := To(partner)][arg := Undefined])
            case _ => Err(NotACall(st.simplify[arg]))
          }
      case _ => Ok(vmap)
    }
  }

  function ShareFrom<V(==)>(st: VisitorState<V>, lets: seq<Binding<V>>, mayShare: map<V, V>, i: nat, vmap: map<V, Target<V>>)
    : (r: Result<map<V, Target<V>>, InplaceError<V>>)
    requires i <= |lets| && forall k :: 0 <= k < |lets| ==> lets[k].x in st.simplify
    ensures mayShare == map[] ==> r == Ok(vmap)
    decreases |lets| - i
  {
    if i == |lets| then Ok(vmap)
    else if lets[i].x !in mayShare then ShareFrom(st, lets, mayShare, i + 1, vmap)
    else match Share(st, lets[i].x, mayShare[lets[i].x], vmap) {
      case Err(err) => Err(err)
      case Ok(vmap') => ShareFrom(st, lets, mayShare, i + 1, vmap')
    }
  }

  /** Recording a chain is recording a prefix of it, then the rest from the state it leaves. */
  lemma {:induction false} RecordFromPrefix<V>(lets: seq<Binding<V>>, i: nat, k: nat, st: VisitorState<V>)
    requires i <= k <= |lets|
    ensures RecordFrom(lets, i, st) == match RecordFrom(lets[..k], i, st)
      case Err(err) => Err(err)
      case Ok(st') => RecordFrom(lets, k, st')
    decreases k - i
  {
    if i < k {
      assert lets[..k][i] == lets[i];
      if Record(st, lets[i]).Ok? {
        RecordFromPrefix(lets, i + 1, k, Record(st, lets[i]).value);
      }
    }
  }

  /**
   * The first walk succeeds exactly when every `let` it reaches is
   * recordable in the state the `let`s before it leave; otherwise it fails
   * with the error of the first `let` that is not.
   */
  lemma {:induction false} RecordFromCorrect<V>(lets: seq<Binding<V>>, st: VisitorState<V>)
    ensures RecordFrom(lets, 0, st).Ok? <==>
      forall k :: 0 <= k < |lets| && RecordFrom(lets[..k], 0, st).Ok? ==> Recordable(RecordFrom(lets[..k], 0, st).value, lets[k])
    ensures RecordFrom(lets, 0, st).Err? ==>
      exists k :: 0 <= k < |lets| && RecordFrom(lets[..k], 0, st).Ok?
        && !Recordable(RecordFrom(lets[..k], 0, st).value, lets[k])
        && RecordFrom(lets, 0, st).error == Record(RecordFrom(lets[..k], 0, st).value, lets[k]).error
  {
    RecordFromPrefixes(lets, |lets|, st);
    assert lets[..|lets|] == lets;
  }

  /** `RecordFromCorrect` for the prefix of the first `n` `let`s. */
  lemma {:induction false} RecordFromPrefixes<V>(lets: seq<Binding<V>>, n: nat, st: VisitorState<V>)
    requires n <= |lets|
    ensures RecordFrom(lets[..n], 0, st).Ok? <==>
      forall k :: 0 <= k < n && RecordFrom(lets[..k], 0, st).Ok? ==> Recordable(RecordFrom(lets[..k], 0, st).value, lets[k])
    ensures RecordFrom(lets[..n], 0, st).Err? ==>
      exists k :: 0 <= k < n && RecordFrom(lets[..k], 0, st).Ok?
        && !Recordable(RecordFrom(lets[..k], 0, st).value, lets[k])
        && RecordFrom(lets[..n], 0, st).error == Record(RecordFrom(lets[..k], 0, st).value, lets[k]).error
  {
    if n > 0 {
      RecordFromPrefixes(lets, n - 1, st);
      var pre := lets[..n];
      assert pre[..n - 1] == lets[..n - 1] && pre[n - 1] == lets[n - 1];
      RecordFromPrefix(pre, 0, n - 1, st);
      var r := RecordFrom(lets[..n - 1], 0, st);
      if r.Ok? {
        var s := Record(r.value, lets[n - 1]);
        if s.Ok? {
          assert RecordFrom(pre, n, s.value) == Ok(s.value);
        } else {
          assert RecordFrom(pre, 0, st) == s;
        }
      }
    }
  }

  lemma {:induction false} RecordFromDefines<V>(lets: seq<Binding<V>>, i: nat, st: VisitorState<V>)
    requires i <= |lets| && RecordFrom(lets, i, st).Ok?
    ensures var st' := RecordFrom(lets, i, st).value;
      && st'.simplify.Keys == st.simplify.Keys + (set k | i <= k < |lets| :: lets[k].x)
      && st'.binding.Keys == st.binding.Keys + (set k | i <= k < |lets| :: lets[k].x)
    decreases |lets| - i
  {
    if i < |lets| {
      RecordFromDefines(lets, i + 1, Record(st, lets[i]).value);
      assert (set k | i <= k < |lets| :: lets[k].x) == {lets[i].x} + (set k | i + 1 <= k < |lets| :: lets[k].x);
    }
  }

  /**
   * `InplaceVisitor::operator()` on a function body: the sharing map, given
   * which variables may share memory with which.
   */
  function Visit<V(==)>(body: Expr<V>, mayShare: map<V, V>): (r: Result<map<V, Target<V>>, InplaceError<V>>)
    ensures var first := RecordFrom(LetList(body), 0, VisitorState(map[], map[]));
      first.Err? ==> r == Err(first.error)
    ensures mayShare == map[] ==> r.Ok? == RecordFrom(LetList(body), 0, VisitorState(map[], map[])).Ok?
    ensures mayShare == map[] && r.Ok? ==> r.value == map[]
  {
    var lets := LetList(body);
    match RecordFrom(lets, 0, VisitorState(map[], map[]))
    case Err(err) => Err(err)
    case Ok(st) =>
      RecordFromDefines(lets, 0, VisitorState(map[], map[]));
      ShareFrom(st, lets, mayShare, 0, map[])
  }

  // ---------------------------------------------------------------------------
  // The rewriter
  // ---------------------------------------------------------------------------

  /** The rewriter fails only at an occurrence of a variable mapped to undefined. */
  function Rewrite<V(==)>(e: Expr<V>, vmap: map<V, Target<V>>): (r: Result<Expr<V>, InplaceError<V>>)
    ensures r.Err? ==> r.error.AllocStorageUsed? && r.error.v in vmap && vmap[r.error.v] == Undefined
    decreases e
  {
    match e
    case Var(v) =>
      if v !in vmap then Ok(e)
      else if vmap[v].To? then Ok(Var(vmap[v].v))
      else Err(AllocStorageUsed(v))
    case Let(x, value, body) =>
      if x in vmap then Rewrite(body, vmap)
      else (match Rewrite(value, vmap) {
        case Err(err) => Err(err)
        case Ok(value') =>
          match Rewrite(body, vmap) {
            case Err(err) => Err(err)
            case Ok(body') => Ok(Let(x, value', body'))
          }
      })
    case Call(op, args) =>
      match RewriteAll(args, vmap) {
        case Err(err) => Err(err)
        case Ok(args') => Ok(Call(op, args'))
      }
    case Tuple(fields) =>
      match RewriteAll(fields, vmap) {
        case Err(err) => Err(err)
        case Ok(fields') => Ok(Tuple(fields'))
      }
    case TupleGetItem(t, i) =>
      match Rewrite(t, vmap) {
        case Err(err) => Err(err)
        case Ok(t') => Ok(TupleGetItem(t', i))
      }
  }

  function RewriteAll<V(==)>(es: seq<Expr<V>>, vmap: map<V, Target<V>>): (r: Result<seq<Expr<V>>, InplaceError<V>>)
    ensures r.Err? ==> r.error.AllocStorageUsed? && r.error.v in vmap && vmap[r.error.v] == Undefined
    decreases es
  {
    if es == [] then Ok([])
    else match Rewrite(es[0], vmap) {
      case Err(err) => Err(err)
      case Ok(e0) =>
        match RewriteAll(es[1..], vmap) {
          case Err(err) => Err(err)
          case Ok(rest) => Ok([e0] + rest)
        }
    }
  }

  /** `InplaceRewriter::operator()`: everything but the body is carried over. */
  function RewriteFunction<V(==), T, A>(f: Function<V, T, A>, mayShare: map<V, V>): (r: Result<Function<V, T, A>, InplaceError<V>>)
    ensures r.Ok? ==> r.value.params == f.params && r.value.retType == f.retType
                      && r.value.typeParams == f.typeParams && r.value.attrs == f.attrs
    ensures r.Ok? <==> Visit(f.body, mayShare).Ok? && Rewrite(f.body, Visit(f.body, mayShare).value).Ok?
  {
    match Visit(f.body, mayShare)
    case Err(err) => Err(err)
    case Ok(vmap) =>
      match Rewrite(f.body, vmap) {
        case Err(err) => Err(err)
        case Ok(body) => Ok(Function(f.params, body, f.retType, f.typeParams, f.attrs))
      }
  }

  /**
   * `InplaceUpdate(mod)`: every function rewritten by its own rewriter and
   * kept under its global variable.  If any function fails the pass stops;
   * the error names the functions that fail.
   */
  function InplaceUpdateModule<G(==,!new), V(==), T, A>(mod: map<G, Function<V, T, A>>, mayShare: map<V, V>)
    : (r: Result<map<G, Function<V, T, A>>, set<G>>)
    ensures r.Ok? ==> r.value.Keys == mod.Keys
    ensures r.Ok? ==> forall g :: g in mod ==> RewriteFunction(mod[g], mayShare) == Ok(r.value[g])
    ensures r.Err? ==> r.error != {} && forall g :: g in r.error <==> g in mod && RewriteFunction(mod[g], mayShare).Err?
  {
    if exists g :: g in mod && RewriteFunction(mod[g], mayShare).Err? then
      var failed := set g | g in mod && RewriteFunction(mod[g], mayShare).Err?;
      var g0 :| g0 in mod && RewriteFunction(mod[g0], mayShare).Err?;
      assert g0 in failed;
      Err(failed)
    else Ok(map g | g in mod :: RewriteFunction(mod[g], mayShare).value)
  }

  // ---------------------------------------------------------------------------
  // The rewriter against an independent account of its walk
  // ---------------------------------------------------------------------------

  /** The events the rewriter meets: the `let` of a mapped variable is skipped with its value. */
  function Visited<V>(e: Expr<V>, vmap: map<V, Target<V>>): seq<Event<V>>
    decreases e
  {
    match e
    case Var(v) => [Use(v)]
    case Let(x, value, body) =>
      if x in vmap then Visited(body, vmap) else [Bind(x)] + Visited(value, vmap) + Visited(body, vmap)
    case Call(_, args) => VisitedAll(args, vmap)
    case Tuple(fields) => VisitedAll(fields, vmap)
    case TupleGetItem(t, _) => Visited(t, vmap)
  }

  function VisitedAll<V>(es: seq<Expr<V>>, vmap: map<V, Target<V>>): seq<Event<V>>
    decreases es
  {
    if es == [] then [] else Visited(es[0], vmap) + VisitedAll(es[1..], vmap)
  }

  /** The first occurrence among `evs` of a variable mapped to undefined. */
  function FirstBlocked<V>(evs: seq<Event<V>>, vmap: map<V, Target<V>>): (r: Option<V>)
    ensures r.Some? ==> Use(r.value) in evs && r.value in vmap && vmap[r.value] == Undefined
    ensures r.None? ==> forall i :: 0 <= i < |evs| && evs[i].Use? && evs[i].v in vmap ==> vmap[evs[i].v].To?
  {
    if evs == [] then None
    else if evs[0].Use? && evs[0].v in vmap && vmap[evs[0].v] == Undefined then Some(evs[0].v)
    else
      var r := FirstBlocked(evs[1..], vmap);
      assert forall i :: 1 <= i < |evs| ==> evs[i] == evs[1..][i - 1];
      r
  }

  /** The events with every mapped occurrence replaced by its partner. */
  function Retarget<V>(evs: seq<Event<V>>, vmap: map<V, Target<V>>): (r: seq<Event<V>>)
    ensures |r| == |evs|
  {
    if evs == [] then []
    else
      var e := evs[0];
      [if e.Use? && e.v in vmap && vmap[e.v].To? then Use(vmap[e.v].v) else e] + Retarget(evs[1..], vmap)
  }

  lemma {:induction false} WalkAppend<V>(a: seq<Event<V>>, b: seq<Event<V>>, vmap: map<V, Target<V>>)
    ensures Retarget(a + b, vmap) == Retarget(a, vmap) + Retarget(b, vmap)
    ensures FirstBlocked(a + b, vmap) == if FirstBlocked(a, vmap).Some? then FirstBlocked(a, vmap) else FirstBlocked(b, vmap)
    decreases |a|
  {
    if a == [] {
      assert a + b == b;
    } else {
      assert (a + b)[0] == a[0] && (a + b)[1..] == a[1..] + b;
      WalkAppend(a[1..], b, vmap);
    }
  }

  /** `e` without the `let`s of mapped variables, each such `let` giving way to its body. */
  function DropMapped<V>(e: Expr<V>, vmap: map<V, Target<V>>): Expr<V>
    decreases e
  {
    match e
    case Var(_) => e
    case Let(x, value, body) =>
      if x in vmap then DropMapped(body, vmap) else Let(x, DropMapped(value, vmap), DropMapped(body, vmap))
    case Call(op, args) => Call(op, DropMappedAll(args, vmap))
    case Tuple(fields) => Tuple(DropMappedAll(fields, vmap))
    case TupleGetItem(t, i) => TupleGetItem(DropMapped(t, vmap), i)
  }

  function DropMappedAll<V>(es: seq<Expr<V>>, vmap: map<V, Target<V>>): (r: seq<Expr<V>>)
    ensures |r| == |es| && forall i :: 0 <= i < |es| ==> r[i] == DropMapped(es[i], vmap)
    decreases es
  {
    if es == [] then [] else [DropMapped(es[0], vmap)] + DropMappedAll(es[1..], vmap)
  }

  /** How the rewriter ends, according to its walk. */
  ghost predicate RewriteOutcome<V>(evs: seq<Event<V>>, vmap: map<V, Target<V>>, r: Result<seq<Event<V>>, InplaceError<V>>)
  {
    match FirstBlocked(evs, vmap)
    case Some(v) => r == Err(AllocStorageUsed(v))
    case None => r == Ok(Retarget(evs, vmap))
  }

  function EventsOf<V>(r: Result<Expr<V>, InplaceError<V>>): Result<seq<Event<V>>, InplaceError<V>>
  {
    match r
    case Ok(e) => Ok(Events(e))
    case Err(err) => Err(err)
  }

  function EventsOfAll<V>(r: Result<seq<Expr<V>>, InplaceError<V>>): Result<seq<Event<V>>, InplaceError<V>>
  {
    match r
    case Ok(es) => Ok(EventsAll(es))
    case Err(err) => Err(err)
  }

  lemma RewriteLetCorrect<V>(x: V, value: Expr<V>, body: Expr<V>, vmap: map<V, Target<V>>)
    requires RewriteOutcome(Visited(value, vmap), vmap, EventsOf(Rewrite(value, vmap)))
    requires RewriteOutcome(Visited(body, vmap), vmap, EventsOf(Rewrite(body, vmap)))
    ensures RewriteOutcome(Visited(Let(x, value, body), vmap), vmap, EventsOf(Rewrite(Let(x, value, body), vmap)))
  {
    if x !in vmap {
      var vv, vb := Visited(value, vmap), Visited(body, vmap);
      BindHead(x, vv + vb, vmap);
      WalkAppend(vv, vb, vmap);
      assert Visited(Let(x, value, body), vmap) == [Bind(x)] + (vv + vb);
      if Rewrite(value, vmap).Ok? && Rewrite(body, vmap).Ok? {
        var value', body' := Rewrite(value, vmap).value, Rewrite(body, vmap).value;
        assert Rewrite(Let(x, value, body), vmap) == Ok(Let(x, value', body'));
        assert Events(Let(x, value', body')) == [Bind(x)] + (Events(value') + Events(body'));
      }
    }
  }

  /** A `let` met by the walk blocks nothing and is kept as it is. */
  lemma BindHead<V>(x: V, rest: seq<Event<V>>, vmap: map<V, Target<V>>)
    ensures FirstBlocked([Bind(x)] + rest, vmap) == FirstBlocked(rest, vmap)
    ensures Retarget([Bind(x)] + rest, vmap) == [Bind(x)] + Retarget(rest, vmap)
  {
    var evs := [Bind(x)] + rest;
    assert evs[0] == Bind(x) && evs[1..] == rest;
  }

  /**
   * The rewriter fails exactly at the first occurrence, among the parts it
   * walks, of a variable mapped to undefined; otherwise its result is the walk
   * with `let`s of mapped variables gone and mapped occurrences replaced.
   */
  lemma {:induction false} RewriteCorrect<V>(e: Expr<V>, vmap: map<V, Target<V>>)
    ensures RewriteOutcome(Visited(e, vmap), vmap, EventsOf(Rewrite(e, vmap)))
    ensures Rewrite(e, vmap).Ok? ==> Skeleton(Rewrite(e, vmap).value) == Skeleton(DropMapped(e, vmap))
    decreases e
  {
    if Rewrite(e, vmap).Ok? {
      RewriteShape(e, vmap);
    }
    match e
    case Var(v) =>
      var evs := [Use(v)];
      assert evs[0] == Use(v) && evs[1..] == [];
      assert FirstBlocked(evs[1..], vmap) == None && Retarget(evs[1..], vmap) == [];
      if v !in vmap {
        assert FirstBlocked(evs, vmap) == None;
        assert Retarget(evs, vmap) == evs + [] == evs;
        assert Rewrite(e, vmap) == Ok(Var(v)) && Events(Var(v)) == evs;
      } else if vmap[v].To? {
        assert FirstBlocked(evs, vmap) == None;
        assert Retarget(evs, vmap) == [Use(vmap[v].v)] + [] == [Use(vmap[v].v)];
        assert Rewrite(e, vmap) == Ok(Var(vmap[v].v)) && Events(Var(vmap[v].v)) == [Use(vmap[v].v)];
      } else {
        assert FirstBlocked(evs, vmap) == Some(v);
      }
    case Let(x, value, body) =>
      RewriteCorrect(value, vmap);
      RewriteCorrect(body, vmap);
      RewriteLetCorrect(x, value, body, vmap);
    case Call(_, args) =>
      RewriteAllCorrect(args, vmap);
    case Tuple(fields) =>
      RewriteAllCorrect(fields, vmap);
    case TupleGetItem(t, _) =>
      RewriteCorrect(t, vmap);
  }

  lemma {:induction false} RewriteAllCorrect<V>(es: seq<Expr<V>>, vmap: map<V, Target<V>>)
    ensures RewriteOutcome(VisitedAll(es, vmap), vmap, EventsOfAll(RewriteAll(es, vmap)))
    decreases es
  {
    if es != [] {
      RewriteCorrect(es[0], vmap);
      RewriteAllCorrect(es[1..], vmap);
      WalkAppend(Visited(es[0], vmap), VisitedAll(es[1..], vmap), vmap);
      if RewriteAll(es, vmap).Ok? {
        var out := RewriteAll(es, vmap).value;
        assert out[0] == Rewrite(es[0], vmap).value && out[1..] == RewriteAll(es[1..], vmap).value;
      }
    }
  }

  /**
   * Apart from its variables, a successful rewrite is the input with the
   * `let`s of mapped variables dropped: operators, node kinds, arities and
   * projection indices are kept.
   */
  lemma {:induction false} RewriteShape<V>(e: Expr<V>, vmap: map<V, Target<V>>)
    requires Rewrite(e, vmap).Ok?
    ensures Skeleton(Rewrite(e, vmap).value) == Skeleton(DropMapped(e, vmap))
    decreases e
  {
    match e
    case Var(_) =>
    case Let(x, value, body) =>
      if x !in vmap {
        RewriteShape(value, vmap);
      }
      RewriteShape(body, vmap);
    case Call(_, args) =>
      RewriteAllShape(args, vmap);
    case Tuple(fields) =>
      RewriteAllShape(fields, vmap);
    case TupleGetItem(t, _) =>
      RewriteShape(t, vmap);
  }

  lemma {:induction false} RewriteAllShape<V>(es: seq<Expr<V>>, vmap: map<V, Target<V>>)
    requires RewriteAll(es, vmap).Ok?
    ensures SkeletonAll(RewriteAll(es, vmap).value) == SkeletonAll(DropMappedAll(es, vmap))
    decreases es
  {
    if es != [] {
      RewriteShape(es[0], vmap);
      RewriteAllShape(es[1..], vmap);
      var out, dropped := RewriteAll(es, vmap).value, DropMappedAll(es, vmap);
      assert out[0] == Rewrite(es[0], vmap).value && out[1..] == RewriteAll(es[1..], vmap).value;
      assert dropped[1..] == DropMappedAll(es[1..], vmap);
    }
  }

  /** No `let` of a mapped variable survives the walk. */
  lemma {:induction false} VisitedBindsUnmapped<V>(e: Expr<V>, vmap: map<V, Target<V>>)
    ensures forall x :: x in BindsOf(Visited(e, vmap)) ==> x !in vmap
    decreases e
  {
    match e
    case Var(v) =>
      assert [Use(v)][1..] == [];
    case Let(x, value, body) =>
      VisitedBindsUnmapped(value, vmap);
      VisitedBindsUnmapped(body, vmap);
      VisitedLetBindsUnmapped(x, value, body, vmap);
    case Call(_, args) =>
      VisitedAllBindsUnmapped(args, vmap);
    case Tuple(fields) =>
      VisitedAllBindsUnmapped(fields, vmap);
    case TupleGetItem(t, _) =>
      VisitedBindsUnmapped(t, vmap);
  }

  lemma VisitedLetBindsUnmapped<V>(x: V, value: Expr<V>, body: Expr<V>, vmap: map<V, Target<V>>)
    requires forall y :: y in BindsOf(Visited(value, vmap)) ==> y !in vmap
    requires forall y :: y in BindsOf(Visited(body, vmap)) ==> y !in vmap
    ensures forall y :: y in BindsOf(Visited(Let(x, value, body), vmap)) ==> y !in vmap
  {
    if x !in vmap {
      var vv, vb := Visited(value, vmap), Visited(body, vmap);
      BindsUsesAppend([Bind(x)], vv + vb);
      BindsUsesAppend(vv, vb);
      assert Visited(Let(x, value, body), vmap) == [Bind(x)] + (vv + vb);
      assert BindsOf([Bind(x)]) == [x] by {
        assert [Bind(x)][1..] == [];
      }
    }
  }

  lemma {:induction false} VisitedAllBindsUnmapped<V>(es: seq<Expr<V>>, vmap: map<V, Target<V>>)
    ensures forall x :: x in BindsOf(VisitedAll(es, vmap)) ==> x !in vmap
    decreases es
  {
    if es != [] {
      VisitedBindsUnmapped(es[0], vmap);
      VisitedAllBindsUnmapped(es[1..], vmap);
      BindsUsesAppend(Visited(es[0], vmap), VisitedAll(es[1..], vmap));
    }
  }

  lemma {:induction false} RetargetBinds<V>(evs: seq<Event<V>>, vmap: map<V, Target<V>>)
    ensures BindsOf(Retarget(evs, vmap)) == BindsOf(evs)
    decreases |evs|
  {
    if evs != [] {
      RetargetBinds(evs[1..], vmap);
    }
  }

  /** After a successful rewrite no `let` binds a mapped variable. */
  lemma RewriteDropsMappedLets<V>(e: Expr<V>, vmap: map<V, Target<V>>)
    requires Rewrite(e, vmap).Ok?
    ensures forall x :: x in Binders(Rewrite(e, vmap).value) ==> x !in vmap
  {
    RewriteCorrect(e, vmap);
    VisitedBindsUnmapped(e, vmap);
    RetargetBinds(Visited(e, vmap), vmap);
  }

  /** With nothing to replace, the rewriter gives its input back. */
  lemma {:induction false} RewriteEmptyIdentity<V>(e: Expr<V>)
    ensures Rewrite(e, map[]) == Ok(e)
    decreases e
  {
    match e
    case Var(_) =>
    case Let(_, value, body) =>
      RewriteEmptyIdentity(value);
      RewriteEmptyIdentity(body);
    case Call(_, args) =>
      RewriteAllEmptyIdentity(args);
    case Tuple(fields) =>
      RewriteAllEmptyIdentity(fields);
    case TupleGetItem(t, _) =>
      RewriteEmptyIdentity(t);
  }

  lemma {:induction false} RewriteAllEmptyIdentity<V>(es: seq<Expr<V>>)
    ensures RewriteAll(es, map[]) == Ok(es)
    decreases es
  {
    if es != [] {
      RewriteEmptyIdentity(es[0]);
      RewriteAllEmptyIdentity(es[1..]);
      assert [es[0]] + es[1..] == es;
    }
  }

  // ---------------------------------------------------------------------------
  // The first walk, for let chains that bind each variable once
  // ---------------------------------------------------------------------------

  ghost predicate DistinctVars<V>(lets: seq<Binding<V>>)
  {
    forall i, j :: 0 <= i < j < |lets| ==> lets[i].x != lets[j].x
  }

  /** `st'` keeps every entry of `st`. */
  ghost predicate Grows<V>(st: VisitorState<V>, st': VisitorState<V>)
  {
    && (forall y :: y in st.simplify ==> y in st'.simplify && st'.simplify[y] == st.simplify[y])
    && (forall y :: y in st.binding ==> y in st'.binding && st'.binding[y] == st.binding[y])
  }

  lemma SimplifiedStable<V>(st: VisitorState<V>, st': VisitorState<V>, x: V, value: Expr<V>)
    requires Resolved(st, value) && Grows(st, st')
    ensures Simplified(st', x, value) == Simplified(st, x, value)
  {
  }

  lemma {:induction false} RecordFromGrows<V>(lets: seq<Binding<V>>, i: nat, st: VisitorState<V>)
    requires i <= |lets| && DistinctVars(lets) && RecordFrom(lets, i, st).Ok?
    requires forall k :: i <= k < |lets| ==> lets[k].x !in st.simplify && lets[k].x !in st.binding
    ensures var st' := RecordFrom(lets, i, st).value;
      && Grows(st, st')
      && forall k :: i <= k < |lets| ==>
           lets[k].x in st'.binding && st'.binding[lets[k].x] == lets[k].value
           && lets[k].x in st'.simplify && st'.simplify[lets[k].x] == Simplified(st', lets[k].x, lets[k].value)
    decreases |lets| - i
  {
    if i < |lets| {
      var st1 := Record(st, lets[i]).value;
      RecordFromGrows(lets, i + 1, st1);
      var st' := RecordFrom(lets, i + 1, st1).value;
      SimplifiedStable(st1, st', lets[i].x, lets[i].value);
    }
  }

  /**
   * For a `let` chain binding each variable once, after the first walk every
   * variable's binding is recorded, and its simplification is the variable
   * it is bound to, the field variable of the tuple literal it projects, or
   * else itself.
   */
  lemma RecordCorrect<V>(lets: seq<Binding<V>>)
    requires DistinctVars(lets) && RecordFrom(lets, 0, VisitorState(map[], map[])).Ok?
    ensures var st := RecordFrom(lets, 0, VisitorState(map[], map[])).value;
      forall k :: 0 <= k < |lets| ==>
        && lets[k].x in st.binding && st.binding[lets[k].x] == lets[k].value
        && lets[k].x in st.simplify && st.simplify[lets[k].x] == Simplified(st, lets[k].x, lets[k].value)
  {
    RecordFromGrows(lets, 0, VisitorState(map[], map[]));
  }

  // ---------------------------------------------------------------------------
  // The second walk
  // ---------------------------------------------------------------------------

  /** `x`'s simplified binding is a call. */
  predicate SimplifiesToCall<V>(st: VisitorState<V>, x: V)
  {
    x in st.simplify && st.simplify[x] in st.binding && st.binding[st.simplify[x]].Call?
  }

  /**
   * The checks the second walk makes for a variable that may share: its
   * simplification is bound, and if that binding is a call, its first
   * argument is a variable whose simplified binding is an `alloc_storage` call.
   */
  predicate StorageChecked<V>(st: VisitorState<V>, x: V)
  {
    && x in st.simplify && st.simplify[x] in st.binding
    && (SimplifiesToCall(st, x) ==>
          var args := st.binding[st.simplify[x]].args;
          && |args| > 0 && args[0].Var? && SimplifiesToCall(st, args[0].v)
          && st.binding[st.simplify[args[0].v]].op == AllocStorage)
  }

  /** The storage argument of a checked sharing variable. */
  function StorageArg<V>(st: VisitorState<V>, x: V): V
    requires StorageChecked(st, x) && SimplifiesToCall(st, x)
  {
    st.binding[st.simplify[x]].args[0].v
  }

  /** Entry `y := t` of the sharing map was made for the `k`-th `let`. */
  ghost predicate MadeBy<V>(st: VisitorState<V>, lets: seq<Binding<V>>, mayShare: map<V, V>, k: int, y: V, t: Target<V>)
  {
    && 0 <= k < |lets| && lets[k].x in mayShare
    && StorageChecked(st, lets[k].x) && SimplifiesToCall(st, lets[k].x)
    && ((y == st.simplify[lets[k].x] && t == To(mayShare[lets[k].x]))
        || (y == StorageArg(st, lets[k].x) && t == Undefined))
  }

  /** Entry `y := t` was made for one of the first `n` `let`s. */
  ghost predicate MadeAmong<V>(st: VisitorState<V>, lets: seq<Binding<V>>, mayShare: map<V, V>, n: nat, y: V, t: Target<V>)
  {
    n > 0 && (MadeBy(st, lets, mayShare, n - 1, y, t) || MadeAmong(st, lets, mayShare, n - 1, y, t))
  }

  lemma {:induction false} MadeAmongWitness<V>(st: VisitorState<V>, lets: seq<Binding<V>>, mayShare: map<V, V>, n: nat, y: V, t: Target<V>)
    requires MadeAmong(st, lets, mayShare, n, y, t)
    ensures exists k :: 0 <= k < n && MadeBy(st, lets, mayShare, k, y, t)
  {
    if !MadeBy(st, lets, mayShare, n - 1, y, t) {
      MadeAmongWitness(st, lets, mayShare, n - 1, y, t);
    }
  }

  /** What the sharing map holds after the second walk over `lets[..n]`. */
  ghost predicate SharingSound<V>(st: VisitorState<V>, lets: seq<Binding<V>>, mayShare: map<V, V>, n: nat, vmap: map<V, Target<V>>)
  {
    forall y :: y in vmap ==> MadeAmong(st, lets, mayShare, n, y, vmap[y])
  }

  ghost predicate SharingComplete<V>(st: VisitorState<V>, lets: seq<Binding<V>>, mayShare: map<V, V>, n: nat, vmap: map<V, Target<V>>)
  {
    forall k :: 0 <= k < n && k < |lets| && lets[k].x in mayShare && StorageChecked(st, lets[k].x)
                && SimplifiesToCall(st, lets[k].x) ==>
      st.simplify[lets[k].x] in vmap && StorageArg(st, lets[k].x) in vmap
  }

  /** What one step of the second walk adds to the map. */
  function Shared<V>(st: VisitorState<V>, x: V, partner: V, vmap: map<V, Target<V>>): map<V, Target<V>>
    requires StorageChecked(st, x)
  {
    if SimplifiesToCall(st, x) then vmap[st.simplify[x] := To(partner)][StorageArg(st, x) := Undefined] else vmap
  }

  /** One step of the second walk keeps the map sound and complete. */
  lemma ShareStep<V>(st: VisitorState<V>, lets: seq<Binding<V>>, mayShare: map<V, V>, i: nat, vmap: map<V, Target<V>>)
    requires i < |lets| && lets[i].x in mayShare && StorageChecked(st, lets[i].x)
    requires SharingSound(st, lets, mayShare, i, vmap) && SharingComplete(st, lets, mayShare, i, vmap)
    ensures var vmap1 := Shared(st, lets[i].x, mayShare[lets[i].x], vmap);
      SharingSound(st, lets, mayShare, i + 1, vmap1) && SharingComplete(st, lets, mayShare, i + 1, vmap1)
  {
    var x := lets[i].x;
    var vmap1 := Shared(st, x, mayShare[x], vmap);
    forall y | y in vmap1 ensures MadeAmong(st, lets, mayShare, i + 1, y, vmap1[y]) {
      if SimplifiesToCall(st, x) && (y == StorageArg(st, x) || y == st.simplify[x]) {
        assert MadeBy(st, lets, mayShare, i, y, vmap1[y]);
      } else {
        assert y in vmap && vmap1[y] == vmap[y];
      }
    }
  }

  /**
   * The second walk succeeds exactly when every sharing variable passes the
   * checks; then every entry of the map was made for a sharing variable whose
   * simplified binding is a call (its simplification to the partner, its
   * storage argument to undefined), and every such variable has both entries.
   */
  lemma {:induction false} ShareFromCorrect<V>(st: VisitorState<V>, lets: seq<Binding<V>>, mayShare: map<V, V>, i: nat, vmap: map<V, Target<V>>)
    requires i <= |lets| && forall k :: 0 <= k < |lets| ==> lets[k].x in st.simplify
    requires SharingSound(st, lets, mayShare, i, vmap) && SharingComplete(st, lets, mayShare, i, vmap)
    ensures ShareFrom(st, lets, mayShare, i, vmap).Ok? <==>
      forall k :: i <= k < |lets| && lets[k].x in mayShare ==> StorageChecked(st, lets[k].x)
    ensures ShareFrom(st, lets, mayShare, i, vmap).Ok? ==>
      var vmap' := ShareFrom(st, lets, mayShare, i, vmap).value;
      SharingSound(st, lets, mayShare, |lets|, vmap') && SharingComplete(st, lets, mayShare, |lets|, vmap')
    decreases |lets| - i
  {
    if i < |lets| {
      var x := lets[i].x;
      if x !in mayShare {
        ShareFromCorrect(st, lets, mayShare, i + 1, vmap);
      } else {
        if StorageChecked(st, x) {
          ShareStep(st, lets, mayShare, i, vmap);
          ShareFromCorrect(st, lets, mayShare, i + 1, Shared(st, x, mayShare[x], vmap));
        }
      }
    }
  }

  /**
   * When the first walk succeeds, the pass's map is made exactly when every
   * variable that may share passes the checks, and then holds precisely the
   * entries the sharing variables call for.
   */
  lemma VisitCorrect<V>(body: Expr<V>, mayShare: map<V, V>)
    requires RecordFrom(LetList(body), 0, VisitorState(map[], map[])).Ok?
    ensures var lets, st := LetList(body), RecordFrom(LetList(body), 0, VisitorState(map[], map[])).value;
      && (Visit(body, mayShare).Ok? <==>
            forall k :: 0 <= k < |lets| && lets[k].x in mayShare ==> StorageChecked(st, lets[k].x))
      && (Visit(body, mayShare).Ok? ==>
            SharingSound(st, lets, mayShare, |lets|, Visit(body, mayShare).value)
            && SharingComplete(st, lets, mayShare, |lets|, Visit(body, mayShare).value))
  {
    var lets := LetList(body);
    RecordFromDefines(lets, 0, VisitorState(map[], map[]));
    var st := RecordFrom(lets, 0, VisitorState(map[], map[])).value;
    assert forall k :: 0 <= k < |lets| ==> lets[k].x in st.simplify;
    ShareFromCorrect(st, lets, mayShare, 0, map[]);
  }

  /** With no variable that may share, a function whose first walk succeeds comes out as it went in. */
  lemma NoSharingUnchanged<V, T, A>(f: Function<V, T, A>)
    requires RecordFrom(LetList(f.body), 0, VisitorState(map[], map[])).Ok?
    ensures RewriteFunction(f, map[]) == Ok(f)
  {
    var lets, st := LetList(f.body), RecordFrom(LetList(f.body), 0, VisitorState(map[], map[])).value;
    VisitCorrect(f.body, map[]);
    var vmap := Visit(f.body, map[]).value;
    forall y | y in vmap ensures false {
      MadeAmongWitness(st, lets, map[], |lets|, y, vmap[y]);
    }
    assert vmap == map[];
    RewriteEmptyIdentity(f.body);
  }

  // ---------------------------------------------------------------------------
  // Examples
  // ---------------------------------------------------------------------------

  /** A variable bound to a variable bound to a variable simplifies one step only. */
  lemma SimplifyOneStep()
    ensures var lets := [Binding("a", Call("f", [])), Binding("b", Var("a")), Binding("c", Var("b"))];
      RecordFrom(lets, 0, VisitorState(map[], map[])).Ok?
      && RecordFrom(lets, 0, VisitorState(map[], map[])).value.simplify == map["a" := "a", "b" := "a", "c" := "b"]
  {
  }

  /** A projection of a tuple literal simplifies to the field variable. */
  lemma SimplifyProjection()
    ensures var lets := [Binding("a", Call("f", [])), Binding("t", Tuple([Var("p"), Var("a")])),
                         Binding("b", TupleGetItem(Var("t"), 1))];
      RecordFrom(lets, 0, VisitorState(map[], map[])).Ok?
      && RecordFrom(lets, 0, VisitorState(map[], map[])).value.simplify == map["a" := "a", "t" := "t", "b" := "a"]
  {
  }

  /**
   * The first walk fails on a projection of a parameter, which has no
   * binding, on a projected field that is no variable, and on a field
   * index past the end of the tuple literal.
   */
  lemma RecordFailures()
    ensures RecordFrom([Binding("b", TupleGetItem(Var("p"), 0))], 0, VisitorState(map[], map[]))
            == Err(MissingKey("p"))
    ensures RecordFrom([Binding("t", Tuple([Call("f", [])])), Binding("b", TupleGetItem(Var("t"), 0))], 0,
                       VisitorState(map[], map[])) == Err(NotAVar)
    ensures RecordFrom([Binding("t", Tuple([Var("p")])), Binding("b", TupleGetItem(Var("t"), 1))], 0,
                       VisitorState(map[], map[])) == Err(FieldOutOfRange(1))
  {
  }

  /**
   * Storage `s`, a tensor `t` made in it, and a sum written to `t`, which may
   * share with the parameter `p`: the `let`s of `s` and `t` go and `t`
   * becomes `p`.
   */
  lemma InplaceExample()
    ensures var body := Let("s", Call(AllocStorage, []),
                        Let("t", Call("mnm.op.vm.alloc_tensor", [Var("s")]),
                        Let("y", Call("mnm.op.add", [Var("p"), Var("t")]),
                        Var("y"))));
      && Visit(body, map["t" := "p"]) == Ok(map["t" := To("p"), "s" := Undefined])
      && Rewrite(body, map["t" := To("p"), "s" := Undefined])
         == Ok(Let("y", Call("mnm.op.add", [Var("p"), Var("p")]), Var("y")))
  {
    var body := Let("s", Call(AllocStorage, []),
                Let("t", Call("mnm.op.vm.alloc_tensor", [Var("s")]),
                Let("y", Call("mnm.op.add", [Var("p"), Var("t")]),
                Var("y"))));
    var lets := LetList(body);
    assert lets == [Binding("s", Call(AllocStorage, [])), Binding("t", Call("mnm.op.vm.alloc_tensor", [Var("s")])),
                    Binding("y", Call("mnm.op.add", [Var("p"), Var("t")]))];
    var vmap := map["t" := To("p"), "s" := Undefined];
    assert Rewrite(Var("t"), vmap) == Ok(Var("p"));
    assert Rewrite(Var("p"), vmap) == Ok(Var("p"));
    assert Rewrite(Var("y"), vmap) == Ok(Var("y"));
    var args := [Var("p"), Var("t")];
    var rest := [Var("t")];
    assert args[0] == Var("p") && args[1..] == rest && rest[0] == Var("t") && rest[1..] == [];
    assert RewriteAll(rest[1..], vmap) == Ok([]);
    assert Rewrite(rest[0], vmap) == Ok(Var("p"));
    assert [Var("p")] + [] == [Var("p")];
    assert RewriteAll(rest, vmap) == Ok([Var("p")]);
    assert Rewrite(args[0], vmap) == Ok(Var("p"));
    assert [Var("p")] + [Var("p")] == [Var("p"), Var("p")];
    assert RewriteAll(args, vmap) == Ok([Var("p"), Var("p")]);
  }
}
