/**
 * The variable-renaming pass: variables named by the front end are replaced
 * by fresh variables carrying their names, and every `let`-bound variable by
 * a fresh variable `a1`, `a2`, ... numbered in the order the pass meets the
 * `let`s.  A `let` that binds an already-mapped variable, and an occurrence
 * of a variable with no mapping, stop the pass.
 */
module RenameVars {
  import opened Results
  import opened Text
  import opened Ir

  /** A fresh variable made by the pass: one per named variable, one per `let`. */
  datatype NewVar = Named(key: string) | Bound(k: nat)

  /** The name the pass gives a fresh variable. */
  function NameHint(v: NewVar): string
  {
    match v
    case Named(key) => key
    case Bound(k) => "a" + NatToString(k)
  }

  /** The mutator's fields: the variable map and the count of `let`s met so far. */
  datatype RenameState<V> = RenameState(varMap: map<V, NewVar>, numBoundVar: nat)

  datatype RenameError<V> =
    | UnboundVar(v: V)   // `var_map.at` finds no mapping
    | BoundTwice(x: V)   // "IR is malformed: cannot bind var twice"

  datatype Renamed<V, T> = Renamed(out: T, st: RenameState<V>)

  /**
   * The map the constructor builds from the named variables, visited in
   * order; when two names share a variable the later one wins.
   */
  function NamedMap<V(==)>(namedVars: seq<(string, V)>): (m: map<V, NewVar>)
    ensures m.Keys == set entry | entry in namedVars :: entry.1
    ensures forall v :: v in m ==> m[v].Named? && (m[v].key, v) in namedVars
  {
    if namedVars == [] then map[]
    else
      var last := namedVars[|namedVars| - 1];
      var init := namedVars[..|namedVars| - 1];
      assert namedVars == init + [last];
      NamedMap(init)[last.1 := Named(last.0)]
  }

  /** The state after meeting a `let` of `x`: `x` maps to the next numbered variable. */
  function Enter<V(==)>(st: RenameState<V>, x: V): RenameState<V>
  {
    RenameState(st.varMap[x := Bound(st.numBoundVar + 1)], st.numBoundVar + 1)
  }

  function Rename<V(==)>(e: Expr<V>, st: RenameState<V>): Result<Renamed<V, Expr<NewVar>>, RenameError<V>>
    decreases e
  {
    match e
    case Var(v) =>
      if v in st.varMap then Ok(Renamed(Var(st.varMap[v]), st)) else Err(UnboundVar(v))
    case Let(x, value, body) =>
      if x in st.varMap then Err(BoundTwice(x))
      else
        var st1 := Enter(st, x);
        match Rename(value, st1) {
          case Err(err) => Err(err)
          case Ok(rv) =>
            match Rename(body, rv.st) {
              case Err(err) => Err(err)
              case Ok(rb) => Ok(Renamed(Let(Bound(st1.numBoundVar), rv.out, rb.out), rb.st))
            }
        }
    case Call(op, args) =>
      match RenameAll(args, st) {
        case Err(err) => Err(err)
        case Ok(ra) => Ok(Renamed(Call(op, ra.out), ra.st))
      }
    case Tuple(fields) =>
      match RenameAll(fields, st) {
        case Err(err) => Err(err)
        case Ok(rf) => Ok(Renamed(Tuple(rf.out), rf.st))
      }
    case TupleGetItem(t, i) =>
      match Rename(t, st)
      case Err(err) => Err(err)
      case Ok(rt) => Ok(Renamed(TupleGetItem(rt.out, i), rt.st))
  }

  function RenameAll<V(==)>(es: seq<Expr<V>>, st: RenameState<V>): Result<Renamed<V, seq<Expr<NewVar>>>, RenameError<V>>
    decreases es
  {
    if es == [] then Ok(Renamed([], st))
    else
      match Rename(es[0], st)
      case Err(err) => Err(err)
      case Ok(r0) =>
        match RenameAll(es[1..], r0.st) {
          case Err(err) => Err(err)
          case Ok(rs) => Ok(Renamed([r0.out] + rs.out, rs.st))
        }
  }

  /**
   * `RenameVars(expr, named_vars)`: fails exactly when the replay of the
   * walk's events from the named variables does, with the same error, and
   * otherwise keeps the shape of the tree.
   */
  function RenameVars<V(==)>(e: Expr<V>, namedVars: seq<(string, V)>): (r: Result<Expr<NewVar>, RenameError<V>>)
    ensures var named := set entry | entry in namedVars :: entry.1;
      && (r.Ok? <==> Check(named, Events(e)).Ok?)
      && (r.Err? ==> r.error == Check(named, Events(e)).error)
    ensures r.Ok? ==> Skeleton(r.value) == Skeleton(e)
  {
    var st := RenameState(NamedMap(namedVars), 0);
    RenameChecks(e, st);
    match Rename(e, st)
    case Ok(res) => RenameShape(e, st); Ok(res.out)
    case Err(err) => Err(err)
  }

  // ---------------------------------------------------------------------------
  // An independent account of when the pass fails: replay the walk's events
  // against the set of mapped variables.
  // ---------------------------------------------------------------------------

  /** The variables mapped after the events, or the first event the pass rejects. */
  function Check<V(==)>(defined: set<V>, evs: seq<Event<V>>): Result<set<V>, RenameError<V>>
    decreases |evs|
  {
    if evs == [] then Ok(defined)
    else match evs[0] {
      case Use(v) => if v in defined then Check(defined, evs[1..]) else Err(UnboundVar(v))
      case Bind(x) => if x in defined then Err(BoundTwice(x)) else Check(defined + {x}, evs[1..])
    }
  }

  lemma {:induction false} CheckAppend<V>(defined: set<V>, a: seq<Event<V>>, b: seq<Event<V>>)
    ensures Check(defined, a + b) == match Check(defined, a)
      case Err(err) => Err(err)
      case Ok(d) => Check(d, b)
    decreases |a|
  {
    if a != [] {
      assert (a + b)[0] == a[0] && (a + b)[1..] == a[1..] + b;
      match a[0]
      case Use(v) => CheckAppend(defined, a[1..], b);
      case Bind(x) => CheckAppend(defined + {x}, a[1..], b);
    } else {
      assert a + b == b;
    }
  }

  /** A successful replay has mapped exactly the variables it started with and the bound ones. */
  lemma {:induction false} CheckDefines<V>(defined: set<V>, evs: seq<Event<V>>)
    requires Check(defined, evs).Ok?
    ensures Check(defined, evs).value == defined + set x | x in BindsOf(evs)
    decreases |evs|
  {
    if evs != [] {
      match evs[0]
      case Use(v) => CheckDefines(defined, evs[1..]);
      case Bind(x) => CheckDefines(defined + {x}, evs[1..]);
    }
  }

  /** How the pass ends, according to the replay of its events. */
  ghost predicate AgreesWithCheck<V, T>(c: Result<set<V>, RenameError<V>>, r: Result<Renamed<V, T>, RenameError<V>>)
  {
    match c
    case Err(err) => r == Err(err)
    case Ok(d) => r.Ok? && r.value.st.varMap.Keys == d
  }

  /** The pass fails exactly when the replay does, with the same error. */
  lemma {:induction false} RenameChecks<V>(e: Expr<V>, st: RenameState<V>)
    ensures AgreesWithCheck(Check(st.varMap.Keys, Events(e)), Rename(e, st))
    decreases e
  {
    var D := st.varMap.Keys;
    match e
    case Var(v) =>
    case Let(x, value, body) =>
      var evs := Events(value) + Events(body);
      assert Events(e)[1..] == evs;
      if x !in st.varMap {
        var st1 := Enter(st, x);
        assert st1.varMap.Keys == D + {x};
        CheckAppend(D + {x}, Events(value), Events(body));
        RenameChecks(value, st1);
        if Rename(value, st1).Ok? {
          RenameChecks(body, Rename(value, st1).value.st);
        }
      }
    case Call(_, args) =>
      RenameAllChecks(args, st);
    case Tuple(fields) =>
      RenameAllChecks(fields, st);
    case TupleGetItem(t, _) =>
      RenameChecks(t, st);
  }

  lemma {:induction false} RenameAllChecks<V>(es: seq<Expr<V>>, st: RenameState<V>)
    ensures AgreesWithCheck(Check(st.varMap.Keys, EventsAll(es)), RenameAll(es, st))
    decreases es
  {
    if es != [] {
      CheckAppend(st.varMap.Keys, Events(es[0]), EventsAll(es[1..]));
      RenameChecks(es[0], st);
      if Rename(es[0], st).Ok? {
        RenameAllChecks(es[1..], Rename(es[0], st).value.st);
      }
    }
  }

  // ---------------------------------------------------------------------------
  // What a successful run produces
  // ---------------------------------------------------------------------------

  /** `m'` keeps every mapping of `m`. */
  predicate Extends<K, W(==)>(m: map<K, W>, m': map<K, W>)
  {
    forall k :: k in m ==> k in m' && m'[k] == m[k]
  }

  /** The pass only adds mappings: a variable keeps the fresh variable it was first given. */
  lemma {:induction false} RenameExtends<V>(e: Expr<V>, st: RenameState<V>)
    requires Rename(e, st).Ok?
    ensures Extends(st.varMap, Rename(e, st).value.st.varMap)
    decreases e
  {
    match e
    case Var(_) =>
    case Let(x, value, body) =>
      var st1 := Enter(st, x);
      RenameExtends(value, st1);
      RenameExtends(body, Rename(value, st1).value.st);
    case Call(_, args) =>
      RenameAllExtends(args, st);
    case Tuple(fields) =>
      RenameAllExtends(fields, st);
    case TupleGetItem(t, _) =>
      RenameExtends(t, st);
  }

  lemma {:induction false} RenameAllExtends<V>(es: seq<Expr<V>>, st: RenameState<V>)
    requires RenameAll(es, st).Ok?
    ensures Extends(st.varMap, RenameAll(es, st).value.st.varMap)
    decreases es
  {
    if es != [] {
      RenameExtends(es[0], st);
      RenameAllExtends(es[1..], Rename(es[0], st).value.st);
    }
  }

  /** The numbered variables `a(c+1)`, ..., `a(c+n)`. */
  function Numbered(c: nat, n: nat): (r: seq<NewVar>)
    ensures |r| == n && forall j :: 0 <= j < n ==> r[j] == Bound(c + j + 1)
  {
    if n == 0 then [] else Numbered(c, n - 1) + [Bound(c + n)]
  }

  /** The `let`s of a successful run are numbered in walk order, from the counter on. */
  ghost predicate Numbering<V>(bound: seq<V>, outBound: seq<NewVar>, st: RenameState<V>, st': RenameState<V>)
  {
    && st'.numBoundVar == st.numBoundVar + |bound|
    && outBound == Numbered(st.numBoundVar, |bound|)
    && forall j :: 0 <= j < |bound| ==> bound[j] in st'.varMap && st'.varMap[bound[j]] == Bound(st.numBoundVar + j + 1)
  }

  lemma NumberingAppend<V>(b0: seq<V>, o0: seq<NewVar>, bs: seq<V>, os: seq<NewVar>,
                           st: RenameState<V>, st0: RenameState<V>, st': RenameState<V>)
    requires Numbering(b0, o0, st, st0) && Numbering(bs, os, st0, st') && Extends(st0.varMap, st'.varMap)
    ensures Numbering(b0 + bs, o0 + os, st, st')
  {
    var c, n0 := st.numBoundVar, |b0|;
    assert o0 + os == Numbered(c, n0 + |bs|);
    forall j | 0 <= j < |b0 + bs|
      ensures (b0 + bs)[j] in st'.varMap && st'.varMap[(b0 + bs)[j]] == Bound(c + j + 1)
    {
      if j < n0 {
        assert (b0 + bs)[j] == b0[j];
      } else {
        assert (b0 + bs)[j] == bs[j - n0];
      }
    }
  }

  lemma {:induction false} RenameNumbers<V>(e: Expr<V>, st: RenameState<V>)
    requires Rename(e, st).Ok?
    ensures Numbering(Binders(e), Binders(Rename(e, st).value.out), st, Rename(e, st).value.st)
    decreases e
  {
    var r := Rename(e, st).value;
    match e
    case Var(v) =>
      VarParts(v);
      VarParts(r.out.v);
    case Let(x, value, body) =>
      var st1 := Enter(st, x);
      var rv := Rename(value, st1).value;
      var rb := Rename(body, rv.st).value;
      RenameNumbers(value, st1);
      RenameNumbers(body, rv.st);
      RenameExtends(body, rv.st);
      RenameExtends(value, st1);
      LetParts(x, value, body);
      LetParts(Bound(st1.numBoundVar), rv.out, rb.out);
      assert Numbering([x], [Bound(st1.numBoundVar)], st, st1);
      NumberingAppend([x], [Bound(st1.numBoundVar)], Binders(value), Binders(rv.out), st, st1, rv.st);
      NumberingAppend([x] + Binders(value), [Bound(st1.numBoundVar)] + Binders(rv.out),
                      Binders(body), Binders(rb.out), st, rv.st, rb.st);
    case Call(_, args) =>
      RenameAllNumbers(args, st);
    case Tuple(fields) =>
      RenameAllNumbers(fields, st);
    case TupleGetItem(t, _) =>
      RenameNumbers(t, st);
  }

  lemma {:induction false} RenameAllNumbers<V>(es: seq<Expr<V>>, st: RenameState<V>)
    requires RenameAll(es, st).Ok?
    ensures Numbering(BindsOf(EventsAll(es)), BindsOf(EventsAll(RenameAll(es, st).value.out)), st, RenameAll(es, st).value.st)
    decreases es
  {
    var r := RenameAll(es, st).value;
    if es != [] {
      var r0 := Rename(es[0], st).value;
      var rs := RenameAll(es[1..], r0.st).value;
      RenameNumbers(es[0], st);
      RenameAllNumbers(es[1..], r0.st);
      RenameAllExtends(es[1..], r0.st);
      ConsParts(es);
      assert r.out[0] == r0.out && r.out[1..] == rs.out;
      ConsParts(r.out);
      NumberingAppend(Binders(es[0]), Binders(r0.out), BindsOf(EventsAll(es[1..])), BindsOf(EventsAll(rs.out)),
                      st, r0.st, rs.st);
    }
  }

  /** Every occurrence is replaced by the fresh variable its original is mapped to at the end. */
  ghost predicate UsesMapped<V>(uses: seq<V>, outUses: seq<NewVar>, m: map<V, NewVar>)
  {
    |outUses| == |uses| && forall j :: 0 <= j < |uses| ==> uses[j] in m && outUses[j] == m[uses[j]]
  }

  lemma UsesMappedAppend<V>(a: seq<V>, oa: seq<NewVar>, b: seq<V>, ob: seq<NewVar>, m: map<V, NewVar>, m': map<V, NewVar>)
    requires UsesMapped(a, oa, m) && UsesMapped(b, ob, m') && Extends(m, m')
    ensures UsesMapped(a + b, oa + ob, m')
  {
    forall j | 0 <= j < |a + b| ensures (a + b)[j] in m' && (oa + ob)[j] == m'[(a + b)[j]] {
      if j < |a| {
        assert (a + b)[j] == a[j] && (oa + ob)[j] == oa[j];
      } else {
        assert (a + b)[j] == b[j - |a|] && (oa + ob)[j] == ob[j - |a|];
      }
    }
  }

  lemma {:induction false} RenameUses<V>(e: Expr<V>, st: RenameState<V>)
    requires Rename(e, st).Ok?
    ensures UsesMapped(Uses(e), Uses(Rename(e, st).value.out), Rename(e, st).value.st.varMap)
    decreases e
  {
    match e
    case Var(v) =>
      VarParts(v);
      VarParts(Rename(e, st).value.out.v);
    case Let(x, value, body) =>
      var st1 := Enter(st, x);
      var rv := Rename(value, st1).value;
      var rb := Rename(body, rv.st).value;
      RenameUses(value, st1);
      RenameUses(body, rv.st);
      RenameExtends(body, rv.st);
      LetParts(x, value, body);
      LetParts(Bound(st1.numBoundVar), rv.out, rb.out);
      UsesMappedAppend(Uses(value), Uses(rv.out), Uses(body), Uses(rb.out), rv.st.varMap, rb.st.varMap);
    case Call(_, args) =>
      RenameAllUses(args, st);
    case Tuple(fields) =>
      RenameAllUses(fields, st);
    case TupleGetItem(t, _) =>
      RenameUses(t, st);
  }

  lemma {:induction false} RenameAllUses<V>(es: seq<Expr<V>>, st: RenameState<V>)
    requires RenameAll(es, st).Ok?
    ensures UsesMapped(UsesOf(EventsAll(es)), UsesOf(EventsAll(RenameAll(es, st).value.out)), RenameAll(es, st).value.st.varMap)
    decreases es
  {
    var r := RenameAll(es, st).value;
    if es != [] {
      var r0 := Rename(es[0], st).value;
      var rs := RenameAll(es[1..], r0.st).value;
      RenameUses(es[0], st);
      RenameAllUses(es[1..], r0.st);
      RenameAllExtends(es[1..], r0.st);
      ConsParts(es);
      assert r.out[0] == r0.out && r.out[1..] == rs.out;
      ConsParts(r.out);
      UsesMappedAppend(Uses(es[0]), Uses(r0.out), UsesOf(EventsAll(es[1..])), UsesOf(EventsAll(rs.out)), r0.st.varMap, rs.st.varMap);
    }
  }

  /** Renaming changes variables only: the tree keeps its shape, operators and indices. */
  lemma {:induction false} RenameShape<V>(e: Expr<V>, st: RenameState<V>)
    requires Rename(e, st).Ok?
    ensures Skeleton(Rename(e, st).value.out) == Skeleton(e)
    decreases e
  {
    match e
    case Var(_) =>
    case Let(x, value, body) =>
      var st1 := Enter(st, x);
      RenameShape(value, st1);
      RenameShape(body, Rename(value, st1).value.st);
    case Call(_, args) =>
      RenameAllShape(args, st);
    case Tuple(fields) =>
      RenameAllShape(fields, st);
    case TupleGetItem(t, _) =>
      RenameShape(t, st);
  }

  lemma {:induction false} RenameAllShape<V>(es: seq<Expr<V>>, st: RenameState<V>)
    requires RenameAll(es, st).Ok?
    ensures SkeletonAll(RenameAll(es, st).value.out) == SkeletonAll(es)
    decreases es
  {
    if es != [] {
      var r0 := Rename(es[0], st).value;
      RenameShape(es[0], st);
      RenameAllShape(es[1..], r0.st);
      var out := RenameAll(es, st).value.out;
      assert out[0] == r0.out && out[1..] == RenameAll(es[1..], r0.st).value.out;
    }
  }

  // ---------------------------------------------------------------------------
  // The pass as a whole
  // ---------------------------------------------------------------------------

  /**
   * `RenameVars` succeeds exactly when, walking the expression, no `let` binds
   * a named or already-bound variable and every occurrence is of a named or
   * already-bound variable; the error is the first violation met.  On success
   * the `let`s become `a1`, `a2`, ... in walk order, a named variable's
   * occurrences become the fresh variable named by its key, a bound variable's
   * occurrences become the numbered variable of its `let`, and the shape of
   * the tree is unchanged.
   */
  lemma RenameVarsCorrect<V>(e: Expr<V>, namedVars: seq<(string, V)>)
    ensures var named := set entry | entry in namedVars :: entry.1;
      && (RenameVars(e, namedVars).Ok? <==> Check(named, Events(e)).Ok?)
      && (RenameVars(e, namedVars).Err? ==> RenameVars(e, namedVars).error == Check(named, Events(e)).error)
    ensures RenameVars(e, namedVars).Ok? ==>
      var out := RenameVars(e, namedVars).value;
      && Binders(out) == Numbered(0, |Binders(e)|)
      && Skeleton(out) == Skeleton(e)
      && |Uses(out)| == |Uses(e)|
      && (forall j :: 0 <= j < |Uses(e)| && Uses(e)[j] in NamedMap(namedVars) ==>
            Uses(out)[j] == NamedMap(namedVars)[Uses(e)[j]])
      && (forall j :: 0 <= j < |Uses(e)| && Uses(e)[j] !in NamedMap(namedVars) ==>
            exists i :: 0 <= i < |Binders(e)| && Binders(e)[i] == Uses(e)[j] && Uses(out)[j] == Bound(i + 1))
  {
    var st := RenameState(NamedMap(namedVars), 0);
    RenameChecks(e, st);
    if Rename(e, st).Ok? {
      var r := Rename(e, st).value;
      RenameNumbers(e, st);
      RenameUses(e, st);
      RenameShape(e, st);
      RenameExtends(e, st);
      CheckDefines(st.varMap.Keys, Events(e));
      forall j | 0 <= j < |Uses(e)| && Uses(e)[j] !in NamedMap(namedVars)
        ensures exists i :: 0 <= i < |Binders(e)| && Binders(e)[i] == Uses(e)[j] && Uses(r.out)[j] == Bound(i + 1)
      {
        var u := Uses(e)[j];
        assert u in set x | x in Binders(e);
        var i :| 0 <= i < |Binders(e)| && Binders(e)[i] == u;
      }
    }
  }

  /** The generated names `a1`, `a2`, ... are pairwise distinct. */
  lemma GeneratedNamesDistinct(i: nat, j: nat)
    requires NameHint(Bound(i)) == NameHint(Bound(j))
    ensures i == j
  {
    assert NatToString(i) == NameHint(Bound(i))[1..] == NameHint(Bound(j))[1..] == NatToString(j);
    NatToStringInjective(i, j);
  }
}
