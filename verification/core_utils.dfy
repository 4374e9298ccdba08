/**
 * Device naming and graph traversal from the Python core utilities: the
 * table from device names to `(device_type, device_id)` contexts, its inverse
 * rendering, and the breadth-first traversal the front end uses to walk
 * models.
 */
module CoreUtils {
  import opened Results
  import opened Text

  /** A DLPack device context. */
  datatype Ctx = Ctx(deviceType: int, deviceId: int)

  /** Why a lookup or rendering fails: Python's `KeyError`, `IndexError` and `TypeError`. */
  datatype DeviceError =
    | UnknownName(name: string)
    | TypeOutOfRange(deviceType: int)
    | NoName(deviceType: int)

  // ---------------------------------------------------------------------------
  // Names to contexts
  // ---------------------------------------------------------------------------

  /** The device aliases in table order, each with its device type. */
  const Aliases: seq<(string, int)> :=
    [ ("llvm", 1), ("stackvm", 1), ("cpu", 1), ("c", 1)
    , ("gpu", 2), ("cuda", 2), ("nvptx", 2)
    , ("cl", 4), ("opencl", 4)
    , ("aocl", 5), ("aocl_sw_emu", 5)
    , ("sdaccel", 6), ("vulkan", 7), ("metal", 8), ("vpi", 9)
    , ("rocm", 10), ("opengl", 11), ("ext_dev", 12), ("micro_dev", 13) ]

  /** Device ids `0 .. MaxDeviceId - 1` get an explicit `alias(id)` entry. */
  const MaxDeviceId := 128

  /** The key `alias(id)` of the table. */
  function IndexedName(alias: string, id: nat): string
  {
    alias + "(" + NatToString(id) + ")"
  }

  /**
   * The table as it is built: every alias names device id 0 of its type, and
   * `alias(id)` names device id `id` for `0 <= id < MaxDeviceId`.
   */
  ghost predicate InTable(name: string, c: Ctx)
  {
    exists i :: 0 <= i < |Aliases| && c.deviceType == Aliases[i].1 &&
      ((name == Aliases[i].0 && c.deviceId == 0) ||
       (0 <= c.deviceId < MaxDeviceId && name == IndexedName(Aliases[i].0, c.deviceId)))
  }

  /** The device id `name` denotes under `alias`, if it is one of that alias's keys. */
  function IdUnder(name: string, alias: string): (r: Option<nat>)
    ensures r.Some? ==> r.value < MaxDeviceId
  {
    if name == alias then Some(0)
    else if |name| >= |alias| + 2 && StartsWith(name, alias + "(") && EndsWith(name, ")") then
      match ParseNat(name[|alias| + 1..|name| - 1])
      case Some(k) => if k < MaxDeviceId then Some(k) else None
      case None => None
    else None
  }

  function LookupFrom(name: string, i: nat): (r: Option<Ctx>)
    requires i <= |Aliases|
    decreases |Aliases| - i
  {
    if i == |Aliases| then None
    else match IdUnder(name, Aliases[i].0)
      case Some(k) => Some(Ctx(Aliases[i].1, k))
      case None => LookupFrom(name, i + 1)
  }

  /** `str2ctx`: the context a device name denotes; a name not in the table is a `KeyError`. */
  function Str2Ctx(name: string): (r: Result<Ctx, DeviceError>)
    ensures r.Err? ==> r.error == UnknownName(name)
  {
    match LookupFrom(name, 0)
    case Some(c) => Ok(c)
    case None => Err(UnknownName(name))
  }

  /** `IdUnder` recognises exactly the keys the table builds for one alias. */
  lemma IdUnderCorrect(name: string, alias: string, k: nat)
    ensures IdUnder(name, alias) == Some(k) <==>
      ((name == alias && k == 0) || (k < MaxDeviceId && name == IndexedName(alias, k)))
  {
    if name != alias && k < MaxDeviceId && name == IndexedName(alias, k) {
      var digits := NatToString(k);
      assert name[..|alias| + 1] == alias + "(";
      assert name[|alias| + 1..|name| - 1] == digits;
      NatRoundTrip(k);
    }
    if IdUnder(name, alias) == Some(k) && name != alias {
      var digits := name[|alias| + 1..|name| - 1];
      ParseNatRoundTrip(digits);
      assert name == name[..|alias| + 1] + digits + name[|name| - 1..];
    }
  }

  predicate NoParen(s: string)
  {
    forall k :: 0 <= k < |s| ==> s[k] != '('
  }

  /** No alias contains `(` and no two aliases are spelt the same. */
  lemma AliasesDistinct()
    ensures forall i :: 0 <= i < |Aliases| ==> NoParen(Aliases[i].0)
    ensures forall i, j :: 0 <= i < j < |Aliases| ==> Aliases[i].0 != Aliases[j].0
  {
  }

  /** A key of an alias starts with the alias, followed by `(` if anything follows. */
  lemma KeyShape(name: string, alias: string, k: nat)
    requires IdUnder(name, alias) == Some(k)
    ensures |alias| <= |name| && name[..|alias|] == alias
    ensures |name| > |alias| ==> name[|alias|] == '('
  {
    if name != alias {
      assert name[..|alias| + 1] == alias + "(";
      assert name[..|alias|] == (alias + "(")[..|alias|];
    }
  }

  /** Of two aliases claiming the same name, the longer has `(` where the shorter ends. */
  lemma ParenInLonger(name: string, a: string, b: string, ka: nat, kb: nat)
    requires IdUnder(name, a) == Some(ka) && IdUnder(name, b) == Some(kb)
    ensures |a| < |b| ==> b[|a|] == '('
    ensures |a| == |b| ==> a == b
  {
    KeyShape(name, a, ka);
    KeyShape(name, b, kb);
    if |a| < |b| {
      assert b[|a|] == name[..|b|][|a|];
    }
  }

  /** Two aliases that both claim a name are the same alias. */
  lemma KeysDisjoint(name: string, i: nat, j: nat, ki: nat, kj: nat)
    requires i < |Aliases| && j < |Aliases|
    requires IdUnder(name, Aliases[i].0) == Some(ki) && IdUnder(name, Aliases[j].0) == Some(kj)
    ensures i == j && ki == kj
  {
    AliasesDistinct();
    ParenInLonger(name, Aliases[i].0, Aliases[j].0, ki, kj);
    ParenInLonger(name, Aliases[j].0, Aliases[i].0, kj, ki);
  }

  lemma {:induction false} LookupFromSound(name: string, i: nat, c: Ctx)
    requires i <= |Aliases| && LookupFrom(name, i) == Some(c)
    ensures InTable(name, c)
    decreases |Aliases| - i
  {
    match IdUnder(name, Aliases[i].0)
    case Some(k) =>
      IdUnderCorrect(name, Aliases[i].0, k);
    case None =>
      LookupFromSound(name, i + 1, c);
  }

  lemma {:induction false} LookupFromFinds(name: string, i: nat, j: nat, k: nat)
    requires i <= j < |Aliases| && IdUnder(name, Aliases[j].0) == Some(k)
    ensures LookupFrom(name, i) == Some(Ctx(Aliases[j].1, k))
    decreases j - i
  {
    if i < j {
      match IdUnder(name, Aliases[i].0)
      case Some(ki) =>
        KeysDisjoint(name, i, j, ki, k);
      case None =>
        LookupFromFinds(name, i + 1, j, k);
    }
  }

  /** `str2ctx` succeeds exactly on the table's keys, with the context the table holds. */
  lemma Str2CtxMatchesTable(name: string, c: Ctx)
    ensures Str2Ctx(name) == Ok(c) <==> InTable(name, c)
  {
    if Str2Ctx(name) == Ok(c) {
      LookupFromSound(name, 0, c);
    }
    if InTable(name, c) {
      var i :| 0 <= i < |Aliases| && c.deviceType == Aliases[i].1 &&
        ((name == Aliases[i].0 && c.deviceId == 0) ||
         (0 <= c.deviceId < MaxDeviceId && name == IndexedName(Aliases[i].0, c.deviceId)));
      IdUnderCorrect(name, Aliases[i].0, c.deviceId);
      LookupFromFinds(name, 0, i, c.deviceId);
    }
  }

  // ---------------------------------------------------------------------------
  // Contexts to names
  // ---------------------------------------------------------------------------

  /** The rendering names of device types 0 .. 11; type 0 has none. */
  const Mask: seq<Option<string>> :=
    [ None, Some("cpu"), Some("cuda"), Some("cpu_pinned"), Some("cl"), Some("aocl")
    , Some("sdaccel"), Some("vulkan"), Some("metal"), Some("vpi"), Some("rocm"), Some("opengl") ]

  /**
   * `ctx2str`: the bare name for device 0 of types 1 and 3, otherwise
   * `name(id)`.  The type indexes `Mask` as Python does, so a negative type
   * counts from the end, one past either end is an `IndexError`, and a type
   * whose entry is `None` fails when the name is concatenated (`TypeError`).
   */
  function Ctx2Str(c: Ctx): (r: Result<string, DeviceError>)
    ensures r.Ok? <==> 1 <= c.deviceType < |Mask| || -|Mask| < c.deviceType <= -1
    ensures r.Err? && -|Mask| <= c.deviceType < |Mask| ==> r.error == NoName(c.deviceType)
    ensures r.Err? && !(-|Mask| <= c.deviceType < |Mask|) ==> r.error == TypeOutOfRange(c.deviceType)
    ensures c.deviceId == 0 && (c.deviceType == 1 || c.deviceType == 3) ==>
      r == Ok(Mask[c.deviceType].value)
    ensures r.Ok? && !(c.deviceId == 0 && (c.deviceType == 1 || c.deviceType == 3)) ==>
      r.value == PyIndex(Mask, c.deviceType).value.value + "(" + IntToString(c.deviceId) + ")"
  {
    if c.deviceId == 0 && (c.deviceType == 1 || c.deviceType == 3) then
      Ok(Mask[c.deviceType].value)
    else
      var entry: Option<Option<string>> := PyIndex(Mask, c.deviceType);
      if entry.None? then Err(TypeOutOfRange(c.deviceType))
      else if entry.value.None? then Err(NoName(c.deviceType))
      else
        var n := entry.value.value;
        Ok(n + "(" + IntToString(c.deviceId) + ")")
  }

  /**
   * Every non-bare rendering is the type's name, then the id in parentheses:
   * whatever the id, negative or beyond the table's 128, the text between the
   * parentheses reads back as that id.
   */
  lemma Ctx2StrIdReadsBack(c: Ctx)
    requires Ctx2Str(c).Ok? && !(c.deviceId == 0 && (c.deviceType == 1 || c.deviceType == 3))
    ensures var r, n := Ctx2Str(c).value, PyIndex(Mask, c.deviceType).value.value;
      && StartsWith(r, n + "(") && EndsWith(r, ")") && |r| >= |n| + 2
      && ParseInt(r[|n| + 1..|r| - 1]) == Some(c.deviceId)
  {
    var r, n := Ctx2Str(c).value, PyIndex(Mask, c.deviceType).value.value;
    var id := IntToString(c.deviceId);
    assert r[..|n| + 1] == n + "(";
    assert r[|n| + 1..|r| - 1] == id;
    IntRoundTrip(c.deviceId);
  }

  /** The alias under which the table files the name `ctx2str` gives device type `t`. */
  function MaskAlias(t: int): (i: nat)
    requires t == 1 || t == 2 || 4 <= t < |Mask|
    ensures i < |Aliases| && Aliases[i] == (Mask[t].value, t)
  {
    match t
    case 1 => 2
    case 2 => 5
    case 4 => 7
    case 5 => 9
    case 6 => 11
    case 7 => 12
    case 8 => 13
    case 9 => 14
    case 10 => 15
    case 11 => 16
  }

  /** For types 1, 2 and 4 .. 11 and ids below `MaxDeviceId`, `str2ctx` inverts `ctx2str`. */
  lemma NameRoundTrip(c: Ctx)
    requires c.deviceType == 1 || c.deviceType == 2 || 4 <= c.deviceType < |Mask|
    requires 0 <= c.deviceId < MaxDeviceId
    ensures Ctx2Str(c).Ok? && Str2Ctx(Ctx2Str(c).value) == Ok(c)
  {
    var i := MaskAlias(c.deviceType);
    var name := Ctx2Str(c).value;
    assert InTable(name, c) by {
      if !(c.deviceId == 0 && c.deviceType == 1) {
        assert name == IndexedName(Aliases[i].0, c.deviceId);
      }
    }
    Str2CtxMatchesTable(name, c);
  }

  /** `cpu_pinned` is rendered but is no key of the table, so type 3 does not round-trip. */
  lemma PinnedNotRoundTrip()
    ensures Ctx2Str(Ctx(3, 0)) == Ok("cpu_pinned")
    ensures Str2Ctx("cpu_pinned").Err?
  {
    PinnedUnknown();
  }

  lemma PinnedUnknown()
    ensures Str2Ctx("cpu_pinned").Err?
  {
    AliasesDistinct();
    forall c ensures !InTable("cpu_pinned", c) {
      forall i | 0 <= i < |Aliases|
        ensures "cpu_pinned" != Aliases[i].0 && "cpu_pinned"[|"cpu_pinned"| - 1] != ')'
      {
      }
    }
    if Str2Ctx("cpu_pinned").Ok? {
      Str2CtxMatchesTable("cpu_pinned", Str2Ctx("cpu_pinned").value);
    }
  }

  // ---------------------------------------------------------------------------
  // Breadth-first traversal
  // ---------------------------------------------------------------------------

  /** `p` is a walk along successor edges; `None` successors are no edges. */
  ghost predicate IsPath<T(!new)>(next: T -> seq<Option<T>>, p: seq<T>)
  {
    |p| > 0 && forall i :: 0 <= i < |p| - 1 ==> Some(p[i + 1]) in next(p[i])
  }

  ghost predicate Reachable<T(!new)>(next: T -> seq<Option<T>>, sources: seq<T>, y: T)
  {
    exists p :: IsPath(next, p) && p[0] in sources && p[|p| - 1] == y
  }

  /** The sources come first, in their given order. */
  predicate SourcesFirst<T(==)>(sources: seq<T>, popped: seq<T>)
  {
    |sources| <= |popped| && popped[..|sources|] == sources
  }

  /** After the sources, nothing is popped twice and no source is popped again. */
  predicate NoRevisit<T(==)>(sources: seq<T>, popped: seq<T>)
  {
    && (forall i :: |sources| <= i < |popped| ==> popped[i] !in sources)
    && (forall i, j :: |sources| <= i < j < |popped| ==> popped[i] != popped[j])
  }

  /** Every successor of a popped node is popped. */
  ghost predicate Closed<T(!new)>(next: T -> seq<Option<T>>, popped: seq<T>)
  {
    forall i, y :: 0 <= i < |popped| && Some(y) in next(popped[i]) ==> y in popped
  }

  /** Every node after the sources is a successor of a node popped before it. */
  ghost predicate Justified<T(!new)>(next: T -> seq<Option<T>>, sources: seq<T>, popped: seq<T>)
  {
    forall i :: |sources| <= i < |popped| ==>
      exists j :: 0 <= j < i && Some(popped[i]) in next(popped[j])
  }

  /** `order[j]` is the first node of `order` whose successors list `order[i]`. */
  ghost predicate FirstLister<T(!new)>(next: T -> seq<Option<T>>, order: seq<T>, i: int, j: int)
  {
    && 0 <= j < i < |order| && Some(order[i]) in next(order[j])
    && forall k :: 0 <= k < j ==> Some(order[i]) !in next(order[k])
  }

  /** In `succ`, `a` is listed before `b` is first listed. */
  ghost predicate ListedBefore<T>(succ: seq<Option<T>>, a: T, b: T)
  {
    exists m :: 0 <= m < |succ| && succ[m] == Some(a) && forall m' :: 0 <= m' <= m ==> succ[m'] != Some(b)
  }

  /**
   * First in, first out: after the sources, nodes come in the order of the
   * node that first lists them, and nodes first listed by the same node come
   * in the order that node lists them.
   */
  ghost predicate LevelOrder<T(!new)>(next: T -> seq<Option<T>>, sources: seq<T>, popped: seq<T>)
  {
    forall i, i', j, j' :: |sources| <= i < i' && FirstLister(next, popped, i, j) && FirstLister(next, popped, i', j') ==>
      j <= j' && (j == j' ==> ListedBefore(next(popped[j]), popped[i], popped[i']))
  }

  lemma SubsetCard<T>(a: set<T>, b: set<T>)
    requires a <= b
    ensures |a| <= |b|
  {
    assert b == a + (b - a);
  }

  /** `universe` holds the sources and every successor of its members. */
  ghost predicate Bounds<T(!new)>(next: T -> seq<Option<T>>, sources: seq<T>, universe: set<T>)
  {
    && (forall s :: s in sources ==> s in universe)
    && (forall x, y :: x in universe && Some(y) in next(x) ==> y in universe)
  }

  /**
   * The traversal state: `order` is everything ever queued (the sources, then
   * each discovered node once), `order[..head]` has been popped, `visited` is
   * the set of queued nodes, and `parent[j]` is a popped node whose successor
   * list holds the `j`-th discovered node.
   */
  ghost predicate Frontier<T(!new)>(next: T -> seq<Option<T>>, sources: seq<T>, universe: set<T>,
                                   order: seq<T>, visited: set<T>, head: nat, parent: seq<nat>)
  {
    && head <= |order| && SourcesFirst(sources, order) && NoRevisit(sources, order)
    && (forall x :: x in visited <==> x in order)
    && visited <= universe
    && |parent| == |order| - |sources|
    && (forall j :: 0 <= j < |parent| ==>
          parent[j] < head && parent[j] < |sources| + j && Some(order[|sources| + j]) in next(order[parent[j]]))
  }

  /** The successors of the first `n` nodes of `order` are all visited. */
  ghost predicate ExpandedUpTo<T(!new)>(next: T -> seq<Option<T>>, order: seq<T>, visited: set<T>, n: nat)
  {
    forall i, y :: 0 <= i < n && i < |order| && Some(y) in next(order[i]) ==> y in visited
  }

  /** Queuing an unvisited successor of the last popped node keeps the traversal state. */
  lemma Enqueue<T(!new)>(next: T -> seq<Option<T>>, sources: seq<T>, universe: set<T>,
                         order: seq<T>, visited: set<T>, head: nat, parent: seq<nat>, y: T)
    requires Bounds(next, sources, universe) && Frontier(next, sources, universe, order, visited, head, parent)
    requires 0 < head && Some(y) in next(order[head - 1]) && y !in visited
    ensures Frontier(next, sources, universe, order + [y], visited + {y}, head, parent + [head - 1])
  {
    assert order[head - 1] in visited;
    var order', parent' := order + [y], parent + [head - 1];
    assert order'[..|sources|] == order[..|sources|];
    forall j | 0 <= j < |parent'|
      ensures parent'[j] < head && parent'[j] < |sources| + j && Some(order'[|sources| + j]) in next(order'[parent'[j]])
    {
      if j < |parent| {
        assert order'[|sources| + j] == order[|sources| + j] && order'[parent'[j]] == order[parent[j]];
      }
    }
  }

  /**
   * The queue discipline, on the ghost `parent` record: a discovered node's
   * parent is the first node of `order` listing it, parents never decrease,
   * and siblings come in their parent's listing order.
   */
  ghost predicate Fifo<T(!new)>(next: T -> seq<Option<T>>, sources: seq<T>, order: seq<T>, parent: seq<nat>)
  {
    && |sources| + |parent| == |order|
    && (forall j :: 0 <= j < |parent| ==>
          forall k :: 0 <= k < parent[j] && k < |order| ==> Some(order[|sources| + j]) !in next(order[k]))
    && (forall j, j' :: 0 <= j < j' < |parent| ==> parent[j] <= parent[j'])
    && (forall j, j' :: 0 <= j < j' < |parent| && parent[j] == parent[j'] && parent[j] < |order| ==>
          ListedBefore(next(order[parent[j]]), order[|sources| + j], order[|sources| + j']))
  }

  /** Queuing the `k`-th successor of the last popped node keeps the queue discipline. */
  lemma EnqueueFifo<T(!new)>(next: T -> seq<Option<T>>, sources: seq<T>, universe: set<T>,
                             order: seq<T>, visited: set<T>, head: nat, parent: seq<nat>,
                             succ: seq<Option<T>>, k: nat, y: T)
    requires Frontier(next, sources, universe, order, visited, head, parent) && Fifo(next, sources, order, parent)
    requires 0 < head && ExpandedUpTo(next, order, visited, head - 1) && succ == next(order[head - 1])
    requires k < |succ| && succ[k] == Some(y) && y !in visited
    requires forall m, z :: 0 <= m < k && succ[m] == Some(z) ==> z in visited
    requires forall j :: 0 <= j < |parent| && parent[j] == head - 1 ==>
      exists m :: 0 <= m < k && succ[m] == Some(order[|sources| + j])
    ensures Fifo(next, sources, order + [y], parent + [head - 1])
  {
    EnqueueFirstListers(next, sources, order, visited, head, parent, y, order + [y], parent + [head - 1]);
    EnqueueSiblingOrder(next, sources, order, visited, head, parent, succ, k, y, order + [y], parent + [head - 1]);
  }

  /** A node queued while its discoverer is expanded is listed by no node popped before the discoverer. */
  lemma EnqueueFirstListers<T(!new)>(next: T -> seq<Option<T>>, sources: seq<T>, order: seq<T>, visited: set<T>,
                                     head: nat, parent: seq<nat>, y: T, order': seq<T>, parent': seq<nat>)
    requires Fifo(next, sources, order, parent) && 0 < head <= |order|
    requires forall j :: 0 <= j < |parent| ==> parent[j] < head
    requires ExpandedUpTo(next, order, visited, head - 1) && y !in visited
    requires order' == order + [y] && parent' == parent + [head - 1]
    ensures forall j :: 0 <= j < |parent'| ==>
      forall kk :: 0 <= kk < parent'[j] && kk < |order'| ==> Some(order'[|sources| + j]) !in next(order'[kk])
  {
    forall j, kk | 0 <= j < |parent'| && 0 <= kk < parent'[j] && kk < |order'|
      ensures Some(order'[|sources| + j]) !in next(order'[kk])
    {
      if j < |parent| {
        assert order'[kk] == order[kk] && order'[|sources| + j] == order[|sources| + j];
      } else {
        assert order'[kk] == order[kk] && order'[|sources| + j] == y;
      }
    }
  }

  /** A node queued after its siblings is listed, by their common parent, after each of them. */
  lemma EnqueueSiblingOrder<T(!new)>(next: T -> seq<Option<T>>, sources: seq<T>, order: seq<T>, visited: set<T>,
                                     head: nat, parent: seq<nat>, succ: seq<Option<T>>, k: nat, y: T,
                                     order': seq<T>, parent': seq<nat>)
    requires Fifo(next, sources, order, parent) && 0 < head <= |order| && succ == next(order[head - 1])
    requires forall j :: 0 <= j < |parent| ==> parent[j] < head
    requires k < |succ| && y !in visited
    requires forall m, z :: 0 <= m < k && succ[m] == Some(z) ==> z in visited
    requires forall j :: 0 <= j < |parent| && parent[j] == head - 1 ==>
      exists m :: 0 <= m < k && succ[m] == Some(order[|sources| + j])
    requires order' == order + [y] && parent' == parent + [head - 1]
    ensures forall j, j' :: 0 <= j < j' < |parent'| && parent'[j] == parent'[j'] && parent'[j] < |order'| ==>
      ListedBefore(next(order'[parent'[j]]), order'[|sources| + j], order'[|sources| + j'])
  {
    forall j, j' | 0 <= j < j' < |parent'| && parent'[j] == parent'[j'] && parent'[j] < |order'|
      ensures ListedBefore(next(order'[parent'[j]]), order'[|sources| + j], order'[|sources| + j'])
    {
      assert order'[parent'[j]] == order[parent[j]] && order'[|sources| + j] == order[|sources| + j];
      if j' == |parent| {
        var m :| 0 <= m < k && succ[m] == Some(order[|sources| + j]);
        assert order'[|sources| + j'] == y;
        assert forall m' :: 0 <= m' <= m ==> succ[m'] != Some(y);
      } else {
        assert order'[|sources| + j'] == order[|sources| + j'];
      }
    }
  }

  /** After queuing the `k`-th successor, every sibling queued so far is listed among the first `k + 1`. */
  lemma EnqueueSiblings<T(!new)>(next: T -> seq<Option<T>>, sources: seq<T>, order: seq<T>, visited: set<T>,
                                 head: nat, parent: seq<nat>, succ: seq<Option<T>>, k: nat, y: T,
                                 order': seq<T>, parent': seq<nat>)
    requires 0 < head <= |order| && |sources| + |parent| == |order| && ExpandedUpTo(next, order, visited, head - 1)
    requires k < |succ| && succ[k] == Some(y)
    requires forall j :: 0 <= j < |parent| && parent[j] == head - 1 ==>
      exists m :: 0 <= m < k && succ[m] == Some(order[|sources| + j])
    requires order' == order + [y] && parent' == parent + [head - 1]
    ensures forall j :: 0 <= j < |parent'| && parent'[j] == head - 1 ==>
      exists m :: 0 <= m < k + 1 && succ[m] == Some(order'[|sources| + j])
    ensures ExpandedUpTo(next, order', visited + {y}, head - 1)
  {
    forall j | 0 <= j < |parent'| && parent'[j] == head - 1
      ensures exists m :: 0 <= m < k + 1 && succ[m] == Some(order'[|sources| + j])
    {
      if j < |parent| {
        assert order'[|sources| + j] == order[|sources| + j];
      } else {
        assert succ[k] == Some(order'[|sources| + j]);
      }
    }
    forall i, z | 0 <= i < head - 1 && i < |order'| && Some(z) in next(order'[i]) ensures z in visited + {y} {
      assert order'[i] == order[i];
    }
  }

  /** The inner loop of `bfs`: queue and mark each unvisited successor of the node just popped. */
  method Discover<T(==,!new)>(next: T -> seq<Option<T>>, sources: seq<T>, ghost universe: set<T>,
                             order: seq<T>, visited: set<T>, head: nat, ghost parent: seq<nat>)
    returns (order': seq<T>, visited': set<T>, ghost parent': seq<nat>)
    requires Bounds(next, sources, universe) && Frontier(next, sources, universe, order, visited, head, parent)
    requires 0 < head
    requires Fifo(next, sources, order, parent) && ExpandedUpTo(next, order, visited, head - 1)
    requires forall j :: 0 <= j < |parent| ==> parent[j] < head - 1
    ensures Frontier(next, sources, universe, order', visited', head, parent')
    ensures Fifo(next, sources, order', parent')
    ensures |order| <= |order'| && order'[..|order|] == order && visited <= visited'
    ensures forall y :: Some(y) in next(order[head - 1]) ==> y in visited'
    ensures |visited'| == |visited| + |order'| - |order|
  {
    var succ := next(order[head - 1]);
    order', visited', parent' := order, visited, parent;
    var k := 0;
    while k < |succ|
      invariant k <= |succ| && Frontier(next, sources, universe, order', visited', head, parent')
      invariant Fifo(next, sources, order', parent') && ExpandedUpTo(next, order', visited', head - 1)
      invariant forall j :: 0 <= j < |parent'| && parent'[j] == head - 1 ==>
        exists m :: 0 <= m < k && succ[m] == Some(order'[|sources| + j])
      invariant |order| <= |order'| && (forall i :: 0 <= i < |order| ==> order'[i] == order[i]) && visited <= visited'
      invariant forall m, y :: 0 <= m < k && succ[m] == Some(y) ==> y in visited'
      invariant |visited'| == |visited| + |order'| - |order|
    {
      match succ[k] {
        case Some(y) =>
          if y !in visited' {
            assert order'[head - 1] == order[head - 1];
            Enqueue(next, sources, universe, order', visited', head, parent', y);
            EnqueueFifo(next, sources, universe, order', visited', head, parent', succ, k, y);
            EnqueueSiblings(next, sources, order', visited', head, parent', succ, k, y, order' + [y], parent' + [head - 1]);
            parent' := parent' + [head - 1];
            order' := order' + [y];
            visited' := visited' + {y};
          }
        case None =>
      }
      k := k + 1;
    }
    forall y | Some(y) in succ ensures y in visited' {
      var m :| 0 <= m < |succ| && succ[m] == Some(y);
    }
    assert order'[..|order|] == order;
  }

  /**
   * `bfs(sources, on_pop, on_next, recursive=...)`: the nodes handed to
   * `on_pop`, in order.  Without `recursive` these are the sources; with it, a
   * queue starts as the sources, every source is marked visited, and each
   * popped node's successors that are not `None` and not yet visited are
   * marked and queued.  `universe` is a finite set closed under `on_next`
   * that bounds the traversal.
   */
  method Bfs<T(==,!new)>(sources: seq<T>, next: T -> seq<Option<T>>, recursive: bool, ghost universe: set<T>)
    returns (popped: seq<T>)
    requires recursive ==> Bounds(next, sources, universe)
    ensures !recursive ==> popped == sources
    ensures recursive ==> SourcesFirst(sources, popped) && NoRevisit(sources, popped)
    ensures recursive ==> Closed(next, popped) && Justified(next, sources, popped)
    ensures recursive ==> LevelOrder(next, sources, popped)
  {
    if !recursive {
      return sources;
    }
    var order := sources;
    var visited := set s | s in sources;
    var head := 0;
    ghost var parent: seq<nat> := [];
    SubsetCard(visited, universe);
    while head < |order|
      invariant Frontier(next, sources, universe, order, visited, head, parent)
      invariant Fifo(next, sources, order, parent)
      invariant ExpandedUpTo(next, order, visited, head)
      invariant |visited| <= |universe|
      decreases |universe| - |visited|, |order| - head
    {
      head := head + 1;
      ghost var order0 := order;
      order, visited, parent := Discover(next, sources, universe, order, visited, head, parent);
      SubsetCard(visited, universe);
      forall i, y | 0 <= i < head && i < |order| && Some(y) in next(order[i]) ensures y in visited {
        assert order[i] == order0[i];
      }
    }
    popped := order;
    forall i | |sources| <= i < |popped|
      ensures exists j :: 0 <= j < i && Some(popped[i]) in next(popped[j])
    {
      var j := parent[i - |sources|];
      assert 0 <= j < i && Some(popped[i]) in next(popped[j]);
    }
    FifoLevelOrder(next, sources, universe, popped, visited, parent);
  }

  /** A tree: node 0 lists 1 and 2, node 1 lists 3, node 2 lists 4. */
  function SmallTree(x: int): seq<Option<int>>
  {
    if x == 0 then [Some(1), Some(2)] else if x == 1 then [Some(3)] else if x == 2 then [Some(4)] else []
  }

  /** On that tree the level order 0, 1, 2, 3, 4 is the traversal's order, and the depth-first 0, 1, 3, 2, 4 is not. */
  lemma LevelOrderExample()
    ensures LevelOrder(SmallTree, [0], [0, 1, 2, 3, 4])
    ensures !LevelOrder(SmallTree, [0], [0, 1, 3, 2, 4])
  {
    var bfs := [0, 1, 2, 3, 4];
    forall i, i', j, j' | 1 <= i < i' && FirstLister(SmallTree, bfs, i, j) && FirstLister(SmallTree, bfs, i', j')
      ensures j <= j' && (j == j' ==> ListedBefore(SmallTree(bfs[j]), bfs[i], bfs[i']))
    {
      assert j == if i <= 2 then 0 else i - 2;
      assert j' == if i' <= 2 then 0 else i' - 2;
      if j == j' {
        assert SmallTree(bfs[j])[0] == Some(1);
      }
    }
    var dfs := [0, 1, 3, 2, 4];
    assert FirstLister(SmallTree, dfs, 2, 1) && FirstLister(SmallTree, dfs, 3, 0);
  }

  /** At the end of the traversal the queue discipline is the level order. */
  lemma FifoLevelOrder<T(!new)>(next: T -> seq<Option<T>>, sources: seq<T>, universe: set<T>,
                                popped: seq<T>, visited: set<T>, parent: seq<nat>)
    requires Frontier(next, sources, universe, popped, visited, |popped|, parent) && Fifo(next, sources, popped, parent)
    ensures LevelOrder(next, sources, popped)
  {
    forall i, i', j, j' | |sources| <= i < i' && FirstLister(next, popped, i, j) && FirstLister(next, popped, i', j')
      ensures j <= j' && (j == j' ==> ListedBefore(next(popped[j]), popped[i], popped[i']))
    {
      var p, p' := parent[i - |sources|], parent[i' - |sources|];
      assert popped[|sources| + (i - |sources|)] == popped[i];
      assert popped[|sources| + (i' - |sources|)] == popped[i'];
      assert p == j;
      assert p' == j';
    }
  }

  lemma {:induction false} PathStaysInside<T(!new)>(next: T -> seq<Option<T>>, popped: seq<T>, p: seq<T>)
    requires Closed(next, popped) && IsPath(next, p) && p[0] in popped
    ensures p[|p| - 1] in popped
    decreases |p|
  {
    if |p| > 1 {
      var q := p[..|p| - 1];
      assert IsPath(next, q);
      PathStaysInside(next, popped, q);
      var i :| 0 <= i < |popped| && popped[i] == q[|q| - 1];
      assert Some(p[|p| - 1]) in next(popped[i]);
    }
  }

  /** A closed traversal that pops every source pops every node reachable from them. */
  lemma BfsComplete<T(!new)>(next: T -> seq<Option<T>>, sources: seq<T>, popped: seq<T>)
    requires SourcesFirst(sources, popped) && Closed(next, popped)
    ensures forall y :: Reachable(next, sources, y) ==> y in popped
  {
    forall y | Reachable(next, sources, y) ensures y in popped {
      var p :| IsPath(next, p) && p[0] in sources && p[|p| - 1] == y;
      var s :| 0 <= s < |sources| && sources[s] == p[0];
      assert popped[s] == sources[s];
      PathStaysInside(next, popped, p);
    }
  }

  lemma {:induction false} JustifiedReachable<T(!new)>(next: T -> seq<Option<T>>, sources: seq<T>, popped: seq<T>, i: nat)
    requires SourcesFirst(sources, popped) && Justified(next, sources, popped) && i < |popped|
    ensures Reachable(next, sources, popped[i])
    decreases i
  {
    if i < |sources| {
      assert popped[i] == sources[i];
      assert IsPath(next, [popped[i]]);
    } else {
      var j :| 0 <= j < i && Some(popped[i]) in next(popped[j]);
      JustifiedReachable(next, sources, popped, j);
      var p :| IsPath(next, p) && p[0] in sources && p[|p| - 1] == popped[j];
      var p' := p + [popped[i]];
      assert IsPath(next, p');
      assert p'[0] == p[0];
    }
  }

  /** Everything a justified traversal pops is reachable from the sources. */
  lemma BfsSound<T(!new)>(next: T -> seq<Option<T>>, sources: seq<T>, popped: seq<T>)
    requires SourcesFirst(sources, popped) && Justified(next, sources, popped)
    ensures forall i :: 0 <= i < |popped| ==> Reachable(next, sources, popped[i])
  {
    forall i | 0 <= i < |popped| ensures Reachable(next, sources, popped[i]) {
      JustifiedReachable(next, sources, popped, i);
    }
  }
}
