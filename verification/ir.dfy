/**
 * The fragment of the Relay expression language the two passes rewrite:
 * variables, `let`, operator calls, tuples and tuple projection.  Variables
 * are drawn from any type with equality, standing for Relay's variables,
 * which are compared by identity.
 */
module Ir {

  datatype Expr<V> =
    | Var(v: V)
    | Let(x: V, value: Expr<V>, body: Expr<V>)
    | Call(op: string, args: seq<Expr<V>>)
    | Tuple(fields: seq<Expr<V>>)
    | TupleGetItem(tuple: Expr<V>, index: nat)

  /**
   * What a mutator meets as it walks an expression: a `let` binding its
   * variable, or a variable occurrence.  The walk is pre-order; a `let` is met
   * before its value, the value before the body, and call arguments and tuple
   * fields from left to right.
   */
  datatype Event<V> = Bind(x: V) | Use(v: V)

  function Events<V>(e: Expr<V>): seq<Event<V>>
    decreases e
  {
    match e
    case Var(v) => [Use(v)]
    case Let(x, value, body) => [Bind(x)] + Events(value) + Events(body)
    case Call(_, args) => EventsAll(args)
    case Tuple(fields) => EventsAll(fields)
    case TupleGetItem(t, _) => Events(t)
  }

  function EventsAll<V>(es: seq<Expr<V>>): seq<Event<V>>
    decreases es
  {
    if es == [] then [] else Events(es[0]) + EventsAll(es[1..])
  }

  /** The variables bound by the events, in order. */
  function BindsOf<V>(evs: seq<Event<V>>): seq<V>
  {
    if evs == [] then []
    else (if evs[0].Bind? then [evs[0].x] else []) + BindsOf(evs[1..])
  }

  /** The variables used by the events, in order. */
  function UsesOf<V>(evs: seq<Event<V>>): seq<V>
  {
    if evs == [] then []
    else (if evs[0].Use? then [evs[0].v] else []) + UsesOf(evs[1..])
  }

  lemma {:induction false} BindsUsesAppend<V>(a: seq<Event<V>>, b: seq<Event<V>>)
    ensures BindsOf(a + b) == BindsOf(a) + BindsOf(b)
    ensures UsesOf(a + b) == UsesOf(a) + UsesOf(b)
    decreases |a|
  {
    if a != [] {
      assert (a + b)[0] == a[0] && (a + b)[1..] == a[1..] + b;
      var hb := if a[0].Bind? then [a[0].x] else [];
      var hu := if a[0].Use? then [a[0].v] else [];
      assert BindsOf(a + b) == hb + BindsOf(a[1..] + b) && BindsOf(a) == hb + BindsOf(a[1..]);
      assert UsesOf(a + b) == hu + UsesOf(a[1..] + b) && UsesOf(a) == hu + UsesOf(a[1..]);
      BindsUsesAppend(a[1..], b);
    } else {
      assert a + b == b;
    }
  }

  /** The `let`-bound variables of `e`, outermost first. */
  function Binders<V>(e: Expr<V>): seq<V>
  {
    BindsOf(Events(e))
  }

  /** The variable occurrences of `e`, in walk order. */
  function Uses<V>(e: Expr<V>): seq<V>
  {
    UsesOf(Events(e))
  }

  lemma VarParts<V>(v: V)
    ensures Binders(Var(v)) == [] && Uses(Var(v)) == [v]
  {
    var evs := Events(Var(v));
    assert evs == [Use(v)] && evs[0] == Use(v) && evs[1..] == [];
    assert BindsOf(evs) == [] + BindsOf(evs[1..]);
    assert UsesOf(evs) == [v] + UsesOf(evs[1..]);
  }

  lemma LetParts<V>(x: V, value: Expr<V>, body: Expr<V>)
    ensures Binders(Let(x, value, body)) == [x] + Binders(value) + Binders(body)
    ensures Uses(Let(x, value, body)) == Uses(value) + Uses(body)
  {
    var evs := Events(Let(x, value, body));
    assert evs == [Bind(x)] + (Events(value) + Events(body));
    BindsUsesAppend([Bind(x)], Events(value) + Events(body));
    BindsUsesAppend(Events(value), Events(body));
    assert BindsOf([Bind(x)]) == [x] && UsesOf([Bind(x)]) == [];
  }

  lemma ConsParts<V>(es: seq<Expr<V>>)
    requires es != []
    ensures BindsOf(EventsAll(es)) == Binders(es[0]) + BindsOf(EventsAll(es[1..]))
    ensures UsesOf(EventsAll(es)) == Uses(es[0]) + UsesOf(EventsAll(es[1..]))
  {
    BindsUsesAppend(Events(es[0]), EventsAll(es[1..]));
  }

  /** `e` with every variable erased: what is left is the shape of the tree. */
  function Skeleton<V>(e: Expr<V>): Expr<()>
    decreases e
  {
    match e
    case Var(_) => Var(())
    case Let(_, value, body) => Let((), Skeleton(value), Skeleton(body))
    case Call(op, args) => Call(op, SkeletonAll(args))
    case Tuple(fields) => Tuple(SkeletonAll(fields))
    case TupleGetItem(t, i) => TupleGetItem(Skeleton(t), i)
  }

  function SkeletonAll<V>(es: seq<Expr<V>>): (r: seq<Expr<()>>)
    ensures |r| == |es|
    decreases es
  {
    if es == [] then [] else [Skeleton(es[0])] + SkeletonAll(es[1..])
  }
}
