/**
 * The base of the bounded enums: a value is an index below the number of
 * entries, checked when the value is made, and each entry's name string,
 * plain value and extra attributes live in tables indexed by that value.
 */
module EnumBase {
  import opened Results

  /**
   * What an enum class declares: the number of entries, each constant's name
   * string and plain value, the value the default constructor uses and the
   * conversion the constructor from a plain value uses.
   */
  datatype EnumClass<!P> = EnumClass(
    numel: nat,
    name: int -> string,
    plain: int -> P,
    defaultValue: int,
    fromPlain: P -> int)

  /** An enum value: only the underlying integer is stored. */
  datatype Enum = Enum(v: int)

  /** The constructor's range check fails. */
  datatype EnumError = OutOfRange(v: int)

  /** The invariant every constructor establishes. */
  predicate Valid<P>(c: EnumClass<P>, e: Enum)
  {
    0 <= e.v < c.numel
  }

  /**
   * `collect<T, underlying, n>`: the table of the first `n` constants, built
   * from the table of the first `n - 1` with constant `n - 1` pushed at the
   * end; the table of no constants is empty.
   */
  function Collect<T>(n: nat, entry: int -> T): (r: seq<T>)
    ensures |r| == n
    ensures forall i :: 0 <= i < n ==> r[i] == entry(i)
  {
    if n == 0 then [] else Collect(n - 1, entry) + [entry(n - 1)]
  }

  /** `EnumBase(v)`: fails unless `0 <= v < numel`. */
  function Make<P>(c: EnumClass<P>, v: int): (r: Result<Enum, EnumError>)
    ensures r.Ok? <==> 0 <= v < c.numel
    ensures r.Ok? ==> Valid(c, r.value) && r.value.v == v
    ensures r.Err? ==> r.error == OutOfRange(v)
  {
    if 0 <= v < c.numel then Ok(Enum(v)) else Err(OutOfRange(v))
  }

  /** The default constructor. */
  function Default<P>(c: EnumClass<P>): (r: Result<Enum, EnumError>)
    ensures r.Ok? <==> 0 <= c.defaultValue < c.numel
    ensures r.Ok? ==> Valid(c, r.value) && r.value.v == c.defaultValue
  {
    Make(c, c.defaultValue)
  }

  /** The constructor from a plain value. */
  function FromPlain<P>(c: EnumClass<P>, p: P): (r: Result<Enum, EnumError>)
    ensures r.Ok? <==> 0 <= c.fromPlain(p) < c.numel
    ensures r.Ok? ==> Valid(c, r.value) && r.value.v == c.fromPlain(p)
  {
    Make(c, c.fromPlain(p))
  }

  /** `c_str()`: the entry at the value in the table of names. */
  function CStr<P>(c: EnumClass<P>, e: Enum): (s: string)
    requires Valid(c, e)
    ensures s == c.name(e.v)
  {
    Collect(c.numel, c.name)[e.v]
  }

  /** `plain()`, also the conversion to the plain type: the entry at the value in the table of plain values. */
  function Plain<P>(c: EnumClass<P>, e: Enum): (p: P)
    requires Valid(c, e)
    ensures p == c.plain(e.v)
  {
    Collect(c.numel, c.plain)[e.v]
  }

  /** `==` between two values of one enum, and between a value and a constant. */
  function Equal(a: Enum, b: Enum): (r: bool)
    ensures r <==> a == b
  {
    a.v == b.v
  }

  function NotEqual(a: Enum, b: Enum): (r: bool)
    ensures r <==> !Equal(a, b)
  {
    a.v != b.v
  }

  function EqualConstant(a: Enum, k: int): (r: bool)
    ensures r <==> a == Enum(k)
  {
    a.v == k
  }

  function NotEqualConstant(a: Enum, k: int): (r: bool)
    ensures r <==> !EqualConstant(a, k)
  {
    a.v != k
  }

  /** `ENUM_DEF_ATTR`: the element at the value in the attribute list. */
  function Attr<A>(e: Enum, attrs: seq<A>): (r: A)
    requires 0 <= e.v < |attrs|
    ensures r in attrs
  {
    attrs[e.v]
  }

  /** An attribute list written in entry order gives every constant its own attribute. */
  lemma AttrInEntryOrder<P, A>(c: EnumClass<P>, e: Enum, attr: int -> A)
    requires Valid(c, e)
    ensures Attr(e, Collect(c.numel, attr)) == attr(e.v)
  {
  }

  /** Whatever a constructor accepts, `c_str()` and `plain()` can look up. */
  lemma MadeValuesLookUp<P>(c: EnumClass<P>, v: int)
    requires Make(c, v).Ok?
    ensures CStr(c, Make(c, v).value) == c.name(v) && Plain(c, Make(c, v).value) == c.plain(v)
  {
  }

  /**
   * Equal values have the same name and plain value; when the names are
   * distinct, values with the same name are equal.
   */
  lemma EqualByName<P>(c: EnumClass<P>, a: Enum, b: Enum)
    requires Valid(c, a) && Valid(c, b)
    requires forall i, j :: 0 <= i < j < c.numel ==> c.name(i) != c.name(j)
    ensures Equal(a, b) <==> CStr(c, a) == CStr(c, b)
    ensures Equal(a, b) ==> Plain(c, a) == Plain(c, b)
  {
  }

  /** Making a value and making it again from its own underlying integer agree. */
  lemma MakeRoundTrip<P>(c: EnumClass<P>, e: Enum)
    requires Valid(c, e)
    ensures Make(c, e.v) == Ok(e)
  {
  }
}
