/**
 * The bookkeeping of the cuDNN source generator: the generator's status
 * (attributes, casts, wrappers and hard-coded symbols, each a dictionary that
 * keeps insertion order), the text it emits from them, and the wrappers that
 * turn a tensor expression into shape, padding and stride declarations.
 * A failed assertion of the generator is an `Err`.
 */
module DefCudnn {
  import opened Results
  import opened Text

  const CudnnPrefix := "cudnn"
  const DescriptorSuffix := "Descriptor_t"
  const Arrow := "->"
  const LastMarker := "<last>"
  const FieldsPrefix := "tv->fields["

  /** `strip_type_commons`: a descriptor type name without its `cudnn` prefix and `Descriptor_t` suffix. */
  function StripTypeCommons(s: string): (r: string)
    ensures |s| >= 17 ==> r == s[5..|s| - 12]
    ensures |s| <= 17 ==> r == ""
  {
    PySlice(s, |CudnnPrefix|, -|DescriptorSuffix|)
  }

  lemma StripRoundTrip(m: string)
    ensures StripTypeCommons(CudnnPrefix + m + DescriptorSuffix) == m
  {
    var s := CudnnPrefix + m + DescriptorSuffix;
    assert s[5..|s| - 12] == m;
  }

  /**
   * `call_cudnn_api`: a checked call, with `cudnn` put in front of the name
   * unless it is there; every emitted call names a `cudnn` function and
   * passes `args`.
   */
  function CallCudnnApi(api: string, args: string): (r: string)
    ensures StartsWith(r, "CUDNN_CALL(cudnn")
    ensures EndsWith(r, "(" + args + "));")
    ensures StartsWith(api, CudnnPrefix) ==> r == "CUDNN_CALL(" + api + "(" + args + "));"
    ensures !StartsWith(api, CudnnPrefix) ==> r == "CUDNN_CALL(cudnn" + api + "(" + args + "));"
  {
    var r := "CUDNN_CALL(" + (if StartsWith(api, CudnnPrefix) then "" else CudnnPrefix) + api + "(" + args + "));";
    assert r[..16] == "CUDNN_CALL(cudnn" by {
      if StartsWith(api, CudnnPrefix) {
        assert r[11..16] == api[..5];
      }
    }
    assert r[|r| - |"(" + args + "));"|..] == "(" + args + "));";
    r
  }

  /** Naming an api with or without its `cudnn` prefix emits the same call. */
  lemma CallCudnnApiPrefixOnce(api: string, args: string)
    requires !StartsWith(api, CudnnPrefix)
    ensures CallCudnnApi(CudnnPrefix + api, args) == CallCudnnApi(api, args)
  {
    assert StartsWith(CudnnPrefix + api, CudnnPrefix) by {
      assert (CudnnPrefix + api)[..5] == CudnnPrefix;
    }
  }

  // ---------------------------------------------------------------------------
  // Dictionaries in insertion order
  // ---------------------------------------------------------------------------

  /** A Python dictionary with string keys: its items in insertion order. */
  type Dict<V> = seq<(string, V)>

  predicate HasKey<V>(d: Dict<V>, k: string)
  {
    exists i :: 0 <= i < |d| && d[i].0 == k
  }

  ghost predicate UniqueKeys<V>(d: Dict<V>)
  {
    forall i, j :: 0 <= i < j < |d| ==> d[i].0 != d[j].0
  }

  function Get<V>(d: Dict<V>, k: string): (r: Option<V>)
    ensures r.Some? <==> HasKey(d, k)
    ensures r.Some? ==> exists i :: 0 <= i < |d| && d[i] == (k, r.value)
  {
    if d == [] then None
    else if d[0].0 == k then Some(d[0].1)
    else
      var r := Get(d[1..], k);
      assert forall i :: 1 <= i < |d| ==> d[i] == d[1..][i - 1];
      r
  }

  /** `d[k] = v`: an existing key keeps its place and takes the new value; a new key goes last. */
  function Put<V>(d: Dict<V>, k: string, v: V): (r: Dict<V>)
    ensures HasKey(d, k) ==> |r| == |d|
    ensures !HasKey(d, k) ==> r == d + [(k, v)]
  {
    if d == [] then [(k, v)]
    else if d[0].0 == k then [(k, v)] + d[1..]
    else
      assert HasKey(d, k) <==> HasKey(d[1..], k) by {
        assert forall i :: 1 <= i < |d| ==> d[i] == d[1..][i - 1];
      }
      [d[0]] + Put(d[1..], k, v)
  }

  lemma GetCons<V>(x: (string, V), d: Dict<V>, k: string)
    ensures Get([x] + d, k) == if x.0 == k then Some(x.1) else Get(d, k)
  {
    assert ([x] + d)[0] == x && ([x] + d)[1..] == d;
  }

  /** After `d[k] = v`, `k` finds `v` and every other key finds what it found before. */
  lemma {:induction false} PutGet<V>(d: Dict<V>, k: string, v: V)
    ensures Get(Put(d, k, v), k) == Some(v)
    ensures forall k' :: k' != k ==> Get(Put(d, k, v), k') == Get(d, k')
    decreases |d|
  {
    if d == [] {
      forall k' | k' != k ensures Get(Put(d, k, v), k') == Get(d, k') {
        GetCons((k, v), [], k');
      }
    } else if d[0].0 == k {
      GetCons((k, v), d[1..], k);
      forall k' | k' != k ensures Get(Put(d, k, v), k') == Get(d, k') {
        GetCons((k, v), d[1..], k');
        GetCons(d[0], d[1..], k');
        assert [d[0]] + d[1..] == d;
      }
    } else {
      PutGet(d[1..], k, v);
      GetCons(d[0], Put(d[1..], k, v), k);
      forall k' | k' != k ensures Get(Put(d, k, v), k') == Get(d, k') {
        GetCons(d[0], Put(d[1..], k, v), k');
        GetCons(d[0], d[1..], k');
        assert [d[0]] + d[1..] == d;
      }
    }
  }

  /** `d[k] = v` keeps every item's key and leaves the items of other keys alone. */
  lemma {:induction false} PutKeys<V>(d: Dict<V>, k: string, v: V)
    ensures |Put(d, k, v)| >= |d|
    ensures forall i :: 0 <= i < |d| ==> Put(d, k, v)[i].0 == d[i].0
    ensures forall i :: 0 <= i < |d| && d[i].0 != k ==> Put(d, k, v)[i] == d[i]
    decreases |d|
  {
    if d != [] && d[0].0 != k {
      PutKeys(d[1..], k, v);
      var r := Put(d, k, v);
      assert forall i :: 1 <= i < |r| ==> r[i] == Put(d[1..], k, v)[i - 1];
    }
  }

  lemma PutUnique<V>(d: Dict<V>, k: string, v: V)
    requires UniqueKeys(d)
    ensures UniqueKeys(Put(d, k, v))
  {
    PutKeys(d, k, v);
  }

  // ---------------------------------------------------------------------------
  // The generator's status
  // ---------------------------------------------------------------------------

  /**
   * `Status`: attribute types by name, casts (type and value) by name,
   * wrappers by key and hard-coded symbols by name.
   */
  datatype Status<W> = Status(
    attrs: Dict<string>,
    casts: Dict<(string, string)>,
    wrappers: Dict<W>,
    symbols: Dict<string>)

  datatype CodegenError =
    | DuplicateAttr(name: string)
    | DuplicateWrapper(key: string)
    | HardcodeOverride(key: string, existing: string, given: string)
    | NoArrow(tensor: string)
    | NotAnIndex(text: string)
    | UnknownOutput(tensor: string)

  /** `add_attr`: a new attribute goes last; a name already used is refused. */
  function AddAttr<W>(st: Status<W>, ty: string, name: string): (r: Result<Status<W>, CodegenError>)
    ensures r.Ok? <==> !HasKey(st.attrs, name)
    ensures r.Ok? ==> r.value == st.(attrs := st.attrs + [(name, ty)])
    ensures r.Err? ==> r.error == DuplicateAttr(name)
  {
    if HasKey(st.attrs, name) then Err(DuplicateAttr(name)) else Ok(st.(attrs := Put(st.attrs, name, ty)))
  }

  /** `add_wrapper`: refuses a key it already has. */
  function AddWrapper<W>(st: Status<W>, key: string, func: W): (r: Result<Status<W>, CodegenError>)
    ensures r.Ok? <==> !HasKey(st.wrappers, key)
    ensures r.Ok? ==> r.value == st.(wrappers := st.wrappers + [(key, func)])
    ensures r.Err? ==> r.error == DuplicateWrapper(key)
  {
    if HasKey(st.wrappers, key) then Err(DuplicateWrapper(key)) else Ok(st.(wrappers := Put(st.wrappers, key, func)))
  }

  /** `add_cast`: the last cast of a name wins, in the place of the first. */
  function AddCast<W>(st: Status<W>, ty: string, name: string, value: string): (r: Status<W>)
    ensures r.attrs == st.attrs && r.wrappers == st.wrappers && r.symbols == st.symbols
  {
    st.(casts := Put(st.casts, name, (ty, value)))
  }

  /** `set_hardcode`: refuses to override a symbol it already has. */
  function SetHardcode<W>(st: Status<W>, k: string, v: string): (r: Result<Status<W>, CodegenError>)
    ensures r.Ok? <==> !HasKey(st.symbols, k)
    ensures r.Ok? ==> r.value == st.(symbols := st.symbols + [(k, v)])
    ensures r.Err? ==> r.error == HardcodeOverride(k, Get(st.symbols, k).value, v)
  {
    match Get(st.symbols, k)
    case Some(prev) => Err(HardcodeOverride(k, prev, v))
    case None => Ok(st.(symbols := Put(st.symbols, k, v)))
  }

  /** The additions a status accepts keep each of its dictionaries free of repeated keys. */
  ghost predicate WellFormed<W>(st: Status<W>)
  {
    UniqueKeys(st.attrs) && UniqueKeys(st.casts) && UniqueKeys(st.wrappers) && UniqueKeys(st.symbols)
  }

  lemma AppendNewKey<V>(d: Dict<V>, k: string, v: V)
    requires UniqueKeys(d) && !HasKey(d, k)
    ensures UniqueKeys(d + [(k, v)])
  {
  }

  /** Every operation on the status keeps it well formed; casts find their latest value. */
  lemma StatusOperationsKeepWellFormed<W>(st: Status<W>, ty: string, name: string, value: string, func: W)
    requires WellFormed(st)
    ensures AddAttr(st, ty, name).Ok? ==> WellFormed(AddAttr(st, ty, name).value)
    ensures AddWrapper(st, name, func).Ok? ==> WellFormed(AddWrapper(st, name, func).value)
    ensures SetHardcode(st, name, value).Ok? ==> WellFormed(SetHardcode(st, name, value).value)
    ensures WellFormed(AddCast(st, ty, name, value))
    ensures Get(AddCast(st, ty, name, value).casts, name) == Some((ty, value))
  {
    if !HasKey(st.attrs, name) {
      AppendNewKey(st.attrs, name, ty);
    }
    if !HasKey(st.wrappers, name) {
      AppendNewKey(st.wrappers, name, func);
    }
    if !HasKey(st.symbols, name) {
      AppendNewKey(st.symbols, name, value);
    }
    PutUnique(st.casts, name, (ty, value));
    PutGet(st.casts, name, (ty, value));
  }

  // ---------------------------------------------------------------------------
  // The text the status emits
  // ---------------------------------------------------------------------------

  function AttrLine(item: (string, string)): string
  {
    item.1 + " " + item.0 + ";"
  }

  /** One declaration per attribute, in insertion order. */
  function AttrLines(attrs: Dict<string>): (r: seq<string>)
    ensures |r| == |attrs|
    ensures forall i :: 0 <= i < |attrs| ==> r[i] == AttrLine(attrs[i])
  {
    if attrs == [] then [] else AttrLines(attrs[..|attrs| - 1]) + [AttrLine(attrs[|attrs| - 1])]
  }

  /**
   * `get_attrs`: empty exactly when there is no attribute; otherwise it opens
   * with the first attribute's declaration and closes with the last one's.
   */
  function GetAttrs<W>(st: Status<W>): (r: string)
    ensures r == "" <==> st.attrs == []
    ensures st.attrs != [] ==> StartsWith(r, AttrLine(st.attrs[0])) && EndsWith(r, AttrLine(st.attrs[|st.attrs| - 1]))
  {
    var lines := AttrLines(st.attrs);
    if lines == [] then "" else JoinEnds("\n  ", lines); Join("\n  ", lines)
  }

  predicate IsDescriptor(item: (string, string))
  {
    EndsWith(item.1, DescriptorSuffix)
  }

  function DestroyLine(item: (string, string)): string
  {
    CallCudnnApi("Destroy" + StripTypeCommons(item.1) + "Descriptor", item.0)
  }

  /** One destroy call per attribute whose type is a descriptor, in insertion order. */
  function DestroyLines(attrs: Dict<string>): (r: seq<string>)
    ensures |r| <= |attrs|
    ensures forall j :: 0 <= j < |r| ==> exists i :: 0 <= i < |attrs| && IsDescriptor(attrs[i]) && r[j] == DestroyLine(attrs[i])
    ensures forall i :: 0 <= i < |attrs| && IsDescriptor(attrs[i]) ==> DestroyLine(attrs[i]) in r
  {
    if attrs == [] then []
    else
      var init, last := attrs[..|attrs| - 1], attrs[|attrs| - 1];
      var r := DestroyLines(init) + (if IsDescriptor(last) then [DestroyLine(last)] else []);
      assert forall i :: 0 <= i < |init| ==> init[i] == attrs[i];
      r
  }

  lemma DestroyLinesSnoc(attrs: Dict<string>, item: (string, string))
    ensures DestroyLines(attrs + [item]) == DestroyLines(attrs) + (if IsDescriptor(item) then [DestroyLine(item)] else [])
  {
    var attrs' := attrs + [item];
    assert attrs'[..|attrs'| - 1] == attrs && attrs'[|attrs'| - 1] == item;
  }

  /**
   * `get_destructors`: empty exactly when no attribute is a descriptor;
   * otherwise it opens and closes with a destroy call of a descriptor attribute.
   */
  function GetDestructors<W>(st: Status<W>): (r: string)
    ensures r == "" <==> forall i :: 0 <= i < |st.attrs| ==> !IsDescriptor(st.attrs[i])
    ensures r != "" ==> exists i :: 0 <= i < |st.attrs| && IsDescriptor(st.attrs[i]) && StartsWith(r, DestroyLine(st.attrs[i]))
  {
    var lines := DestroyLines(st.attrs);
    if lines == [] then ""
    else
      JoinEnds("\n    ", lines);
      assert StartsWith(lines[0], "CUDNN_CALL(cudnn");
      Join("\n    ", lines)
  }

  function CastLine(item: (string, (string, string))): string
  {
    item.1.0 + " " + item.0 + " = " + item.1.1 + ";\n    (void) " + item.0 + ";"
  }

  /** One declaration per cast, in insertion order. */
  function CastLines(casts: Dict<(string, string)>): (r: seq<string>)
    ensures |r| == |casts|
    ensures forall i :: 0 <= i < |casts| ==> r[i] == CastLine(casts[i])
  {
    if casts == [] then [] else CastLines(casts[..|casts| - 1]) + [CastLine(casts[|casts| - 1])]
  }

  /**
   * `get_casts`: empty exactly when there is no cast; otherwise it opens with
   * the first cast's declaration and closes with the last one's.
   */
  function GetCasts<W>(st: Status<W>): (r: string)
    ensures r == "" <==> st.casts == []
    ensures st.casts != [] ==> StartsWith(r, CastLine(st.casts[0])) && EndsWith(r, CastLine(st.casts[|st.casts| - 1]))
  {
    var lines := CastLines(st.casts);
    if lines == [] then "" else JoinEnds("\n    ", lines); Join("\n    ", lines)
  }

  /** `text` with `line` added as its last line under `sep`. */
  function AppendLine(text: string, sep: string, line: string, wasEmpty: bool): string
  {
    if wasEmpty then line else text + sep + line
  }

  /** A new attribute adds its declaration at the end. */
  lemma AddAttrDeclares<W>(st: Status<W>, ty: string, name: string)
    requires AddAttr(st, ty, name).Ok?
    ensures GetAttrs(AddAttr(st, ty, name).value) == AppendLine(GetAttrs(st), "\n  ", ty + " " + name + ";", st.attrs == [])
  {
    var attrs' := st.attrs + [(name, ty)];
    assert attrs'[..|attrs'| - 1] == st.attrs;
    assert AttrLines(attrs') == AttrLines(st.attrs) + [ty + " " + name + ";"];
    JoinSnoc("\n  ", AttrLines(st.attrs), ty + " " + name + ";");
  }

  /** A new attribute adds its destroy call at the end exactly when its type is a descriptor. */
  lemma AddAttrDestroys<W>(st: Status<W>, ty: string, name: string)
    requires AddAttr(st, ty, name).Ok?
    ensures GetDestructors(AddAttr(st, ty, name).value) ==
      if EndsWith(ty, DescriptorSuffix)
      then AppendLine(GetDestructors(st), "\n    ", DestroyLine((name, ty)), DestroyLines(st.attrs) == [])
      else GetDestructors(st)
  {
    var st' := AddAttr(st, ty, name).value;
    var lines := DestroyLines(st.attrs);
    DestroyLinesSnoc(st.attrs, (name, ty));
    assert st'.attrs == st.attrs + [(name, ty)];
    if IsDescriptor((name, ty)) {
      JoinSnoc("\n    ", lines, DestroyLine((name, ty)));
    } else {
      assert lines + [] == lines;
      assert DestroyLines(st'.attrs) == lines;
    }
  }

  /** A cast of a new name adds its declaration at the end; a cast of a known name rewrites its own line only. */
  lemma AddCastEmits<W>(st: Status<W>, ty: string, name: string, value: string)
    requires UniqueKeys(st.casts)
    ensures var lines, lines' := CastLines(st.casts), CastLines(AddCast(st, ty, name, value).casts);
      && (!HasKey(st.casts, name) ==>
            GetCasts(AddCast(st, ty, name, value)) == AppendLine(GetCasts(st), "\n    ", CastLine((name, (ty, value))), st.casts == []))
      && (HasKey(st.casts, name) ==>
            |lines'| == |lines|
            && forall i :: 0 <= i < |lines| ==>
                 lines'[i] == if st.casts[i].0 == name then CastLine((name, (ty, value))) else lines[i])
  {
    var casts' := Put(st.casts, name, (ty, value));
    PutKeys(st.casts, name, (ty, value));
    if !HasKey(st.casts, name) {
      assert casts'[..|casts'| - 1] == st.casts;
      JoinSnoc("\n    ", CastLines(st.casts), CastLine((name, (ty, value))));
    } else {
      forall i | 0 <= i < |st.casts| && st.casts[i].0 == name ensures casts'[i] == (name, (ty, value)) {
        PutPlace(st.casts, name, (ty, value), i);
      }
    }
  }

  /** Under unique keys, the item of an existing key is where the new value goes. */
  lemma {:induction false} PutPlace<V>(d: Dict<V>, k: string, v: V, i: nat)
    requires UniqueKeys(d) && i < |d| && d[i].0 == k
    ensures Put(d, k, v)[i] == (k, v)
    decreases |d|
  {
    if i > 0 {
      assert d[0].0 != k;
      PutPlace(d[1..], k, v, i - 1);
    }
  }

  // ---------------------------------------------------------------------------
  // Shape wrappers
  // ---------------------------------------------------------------------------

  /** An entry of a flatten list: an index, or a symbolic bound such as `<last>`. */
  datatype Bound = Index(n: int) | Symbol(s: string)

  /** Python's `str` of a flatten entry. */
  function BoundText(b: Bound): string
  {
    match b
    case Index(n) => IntToString(n)
    case Symbol(s) => s
  }

  /**
   * The wrapper classes: a plain `ShapeWrapper` (which says whether strides
   * are needed), `CUDNNFilter`, `CUDNNTensor` and the two output variants
   * made by `CUDNNOutput`.
   */
  datatype Kind = Shape(needStride: bool) | Filter | Tensor | OutputFilter | OutputTensor

  /** A wrapper; `ptr` is unused by a plain shape wrapper, and an empty flatten list stands for `None` too. */
  datatype Wrapper = Wrapper(kind: Kind, name: string, ptr: string, tensor: string, flatten: seq<Bound>)

  predicate NeedStride(k: Kind)
  {
    match k
    case Shape(s) => s
    case Filter => false
    case OutputFilter => false
    case Tensor => true
    case OutputTensor => true
  }

  predicate IsOutput(k: Kind)
  {
    k.OutputFilter? || k.OutputTensor?
  }

  /** The state a wrapper method leaves: the emitted lines, the status and the wrapper. */
  datatype Step<W> = Step(lines: seq<string>, status: Status<W>, wrapper: Wrapper)

  /** `ShapeWrapper.add_cast`: the tensor becomes the name after its first `->`, cast from the old text. */
  function ShapeAddCast<W>(st: Status<W>, w: Wrapper): (r: Result<Step<W>, CodegenError>)
    ensures r.Ok? <==> Find(w.tensor, Arrow).Some?
    ensures r.Ok? ==>
      var k := Find(w.tensor, Arrow).value;
      var rest := w.tensor[k + 2..];
      && r.value.wrapper == w.(tensor := Split(rest, Arrow)[0])
      && r.value.status == AddCast(st, "DLTensor*", r.value.wrapper.tensor, w.tensor)
      && r.value.lines == []
    ensures r.Err? ==> r.error == NoArrow(w.tensor)
  {
    match Find(w.tensor, Arrow)
    case None => Err(NoArrow(w.tensor))
    case Some(k) =>
      var parts := Split(w.tensor, Arrow);
      assert parts == [w.tensor[..k]] + Split(w.tensor[k + 2..], Arrow);
      var name := parts[1];
      Ok(Step([], AddCast(st, "DLTensor*", name, w.tensor), w.(tensor := name)))
  }

  /** For `a->b` where `a` holds no arrow and `b` holds none, the shape cast names `b`. */
  lemma ShapeAddCastNames<W>(st: Status<W>, w: Wrapper, a: string, b: string)
    requires w.tensor == a + Arrow + b
    requires forall k :: 0 <= k < |a| ==> !OccursAt(a + Arrow, Arrow, k)
    requires forall k :: 0 <= k <= |b| ==> !OccursAt(b, Arrow, k)
    ensures ShapeAddCast(st, w).Ok? && ShapeAddCast(st, w).value.wrapper.tensor == b
  {
    FindAfter(a, Arrow, b);
    SplitAbsent(b, Arrow);
  }

  /**
   * `CUDNNOutput`'s `add_cast`: `cv->out` becomes `out`, and `tv->fields[i]`
   * becomes `out` followed by the number `i`, read after dropping trailing
   * `]`s; anything else fails.
   */
  function OutputAddCast<W>(st: Status<W>, w: Wrapper): (r: Result<Step<W>, CodegenError>)
    ensures w.tensor == "cv->out" ==> r == Ok(Step([], AddCast(st, "DLTensor*", "out", "cv->out"), w.(tensor := "out")))
    ensures w.tensor != "cv->out" && !StartsWith(w.tensor, FieldsPrefix) ==> r == Err(UnknownOutput(w.tensor))
    ensures w.tensor != "cv->out" && StartsWith(w.tensor, FieldsPrefix) ==>
      var text := RStrip(w.tensor[|FieldsPrefix|..], ']');
      match ParseInt(text)
      case None => r == Err(NotAnIndex(text))
      case Some(idx) =>
        r == Ok(Step([], AddCast(st, "DLTensor*", "out" + IntToString(idx), w.tensor), w.(tensor := "out" + IntToString(idx))))
  {
    if w.tensor == "cv->out" then
      Ok(Step([], AddCast(st, "DLTensor*", "out", "cv->out"), w.(tensor := "out")))
    else if StartsWith(w.tensor, FieldsPrefix) then
      var text := RStrip(w.tensor[|FieldsPrefix|..], ']');
      match ParseInt(text) {
        case None => Err(NotAnIndex(text))
        case Some(idx) =>
          var name := "out" + IntToString(idx);
          Ok(Step([], AddCast(st, "DLTensor*", name, w.tensor), w.(tensor := name)))
      }
    else Err(UnknownOutput(w.tensor))
  }

  /** The text of the `i`-th output field takes the field branch, and its stripped index is `i`'s numeral. */
  lemma OutputFieldText(w: Wrapper, i: nat)
    requires w.tensor == FieldsPrefix + NatToString(i) + "]"
    ensures w.tensor != "cv->out" && StartsWith(w.tensor, FieldsPrefix)
    ensures RStrip(w.tensor[|FieldsPrefix|..], ']') == NatToString(i)
  {
    var digits := NatToString(i);
    assert w.tensor != "cv->out" by {
      assert w.tensor[0] == 't';
    }
    assert w.tensor[..|FieldsPrefix|] == FieldsPrefix;
    assert w.tensor[|FieldsPrefix|..] == digits + seq(1, _ => ']');
    assert digits[|digits| - 1] != ']' by {
      assert IsDigit(digits[|digits| - 1]);
    }
    RStripRun(digits, ']', 1);
  }

  /** The `i`-th output field is cast to `out` followed by `i`, and its cast records the field. */
  lemma OutputFieldCast<W>(st: Status<W>, w: Wrapper, i: nat)
    requires w.tensor == FieldsPrefix + NatToString(i) + "]"
    ensures OutputAddCast(st, w).Ok?
    ensures OutputAddCast(st, w).value.wrapper.tensor == "out" + NatToString(i)
    ensures Get(OutputAddCast(st, w).value.status.casts, "out" + NatToString(i)) == Some(("DLTensor*", w.tensor))
  {
    OutputFieldText(w, i);
    NatRoundTrip(i);
    assert ParseInt(NatToString(i)) == Some(i as int);
    var name := "out" + NatToString(i);
    assert OutputAddCast(st, w) == Ok(Step([], AddCast(st, "DLTensor*", name, w.tensor), w.(tensor := name)));
    PutGet(st.casts, name, ("DLTensor*", w.tensor));
  }

  /**
   * The `add_cast` of the wrapper's own class.  Every class changes only the
   * wrapper's tensor, records the new tensor as a `DLTensor*` cast of the old
   * text, and emits no line.
   */
  function AddCastOf<W>(st: Status<W>, w: Wrapper): (r: Result<Step<W>, CodegenError>)
    ensures r.Ok? ==> r.value.wrapper == w.(tensor := r.value.wrapper.tensor)
    ensures r.Ok? ==> r.value.status == AddCast(st, "DLTensor*", r.value.wrapper.tensor, w.tensor)
    ensures r.Ok? ==> r.value.lines == []
  {
    if IsOutput(w.kind) then OutputAddCast(st, w) else ShapeAddCast(st, w)
  }

  /** The loop body's template: the product of the dimensions `from` to `to` of the tensor. */
  function ProductBlock(name: string, tensor: string, dim: nat, from: string, to: string): string
  {
    var d := NatToString(dim);
    "int prod_" + name + "_" + d + " = 1;\n"
    + "      for (int i = " + from + "; i < " + to + " && i < " + tensor + "->ndim; ++i) {\n"
    + "        prod_" + name + "_" + d + " *= " + tensor + "->shape[i];\n"
    + "      }\n"
    + "      shape_" + name + ".push_back(prod_" + name + "_" + d + ");"
  }

  /** One iteration's block: its number and the texts of its lower and (unreplaced) upper bound. */
  datatype Block = Block(dim: nat, from: string, to: string)

  /**
   * The flatten loop from entry `i` on, `from` holding the previous entry's
   * text once there is one: a block for each entry after the first.
   */
  function FlattenLoop(texts: seq<string>, i: nat, from: Option<string>): seq<Block>
    requires i <= |texts|
    decreases |texts| - i
  {
    if i == |texts| then []
    else
      (match from { case Some(f) => [Block(i, f, texts[i])] case None => [] })
      + FlattenLoop(texts, i + 1, Some(texts[i]))
  }

  lemma {:induction false} FlattenLoopFrom(texts: seq<string>, i: nat)
    requires 0 < i <= |texts|
    ensures var r := FlattenLoop(texts, i, Some(texts[i - 1]));
      |r| == |texts| - i && forall j :: 0 <= j < |r| ==> r[j] == Block(i + j, texts[i + j - 1], texts[i + j])
    decreases |texts| - i
  {
    if i < |texts| {
      FlattenLoopFrom(texts, i + 1);
      var rest := FlattenLoop(texts, i + 1, Some(texts[i]));
      var r := FlattenLoop(texts, i, Some(texts[i - 1]));
      assert r == [Block(i, texts[i - 1], texts[i])] + rest;
      forall j | 1 <= j < |r| ensures r[j] == rest[j - 1] {
      }
    }
  }

  /**
   * A flatten list of `k` entries gives `k - 1` blocks; block `j` (numbered
   * from 1) runs from entry `j - 1` up to entry `j`.
   */
  lemma FlattenLoopCorrect(texts: seq<string>)
    ensures var r := FlattenLoop(texts, 0, None);
      && |r| == (if texts == [] then 0 else |texts| - 1)
      && forall j :: 0 <= j < |r| ==> r[j] == Block(j + 1, texts[j], texts[j + 1])
  {
    if texts != [] {
      FlattenLoopFrom(texts, 1);
    }
  }

  /** The loop body's template, with `<last>` in the upper bound read as the tensor's rank. */
  function BlockText(name: string, tensor: string, b: Block): string
  {
    ProductBlock(name, tensor, b.dim, b.from, ReplaceAll(b.to, LastMarker, tensor + "->ndim"))
  }

  function BlockTexts(name: string, tensor: string, bs: seq<Block>): (r: seq<string>)
    ensures |r| == |bs| && forall j :: 0 <= j < |bs| ==> r[j] == BlockText(name, tensor, bs[j])
  {
    if bs == [] then [] else [BlockText(name, tensor, bs[0])] + BlockTexts(name, tensor, bs[1..])
  }

  function Texts(flatten: seq<Bound>): (r: seq<string>)
    ensures |r| == |flatten| && forall i :: 0 <= i < |flatten| ==> r[i] == BoundText(flatten[i])
  {
    if flatten == [] then [] else [BoundText(flatten[0])] + Texts(flatten[1..])
  }

  /** The shape, padding and stride declarations of `ShapeWrapper.normalize`, after the cast. */
  function ShapeLines(w: Wrapper): seq<string>
  {
    (if w.flatten != []
     then ["std::vector<int> shape_" + w.name + ";"] + BlockTexts(w.name, w.tensor, FlattenLoop(Texts(w.flatten), 0, None))
     else ["std::vector<int> shape_" + w.name + "(GetShape<int>(*" + w.tensor + "));"])
    + ["std::vector<int> padded_" + w.name + "(PadDims<int, int>(shape_" + w.name + ", 4));"]
    + (if NeedStride(w.kind) then ["std::vector<int> stride_" + w.name + "(Shape2Strides<int, int>(padded_" + w.name + "));"] else [])
  }

  /** `ShapeWrapper.normalize`: the class's cast, then the declarations. */
  function ShapeNormalize<W>(st: Status<W>, w: Wrapper): (r: Result<Step<W>, CodegenError>)
    ensures r.Ok? <==> AddCastOf(st, w).Ok?
    ensures r.Ok? ==> r.value.status == AddCastOf(st, w).value.status && r.value.wrapper == AddCastOf(st, w).value.wrapper
  {
    match AddCastOf(st, w)
    case Err(e) => Err(e)
    case Ok(cast) => Ok(Step(ShapeLines(cast.wrapper), cast.status, cast.wrapper))
  }

  /**
   * With a non-empty flatten list the declarations are the shape vector,
   * one product block per entry after the first, the padding and, when the
   * class needs it, the strides.
   */
  lemma ShapeLinesFlatten(w: Wrapper)
    requires w.flatten != []
    ensures var lines, k := ShapeLines(w), |w.flatten|;
      && |lines| == k + 1 + (if NeedStride(w.kind) then 1 else 0)
      && lines[0] == "std::vector<int> shape_" + w.name + ";"
      && (forall j :: 1 <= j < k ==>
            lines[j] == BlockText(w.name, w.tensor, Block(j, BoundText(w.flatten[j - 1]), BoundText(w.flatten[j]))))
      && lines[k] == "std::vector<int> padded_" + w.name + "(PadDims<int, int>(shape_" + w.name + ", 4));"
      && (NeedStride(w.kind) ==> lines[k + 1] == "std::vector<int> stride_" + w.name + "(Shape2Strides<int, int>(padded_" + w.name + "));")
  {
    FlattenLoopCorrect(Texts(w.flatten));
  }

  function DescriptorArgs(w: Wrapper): seq<string>
  {
    if w.kind.Filter? || w.kind.OutputFilter? then
      [w.name, "CUDNNDType(" + w.tensor + "->dtype)", "CUDNN_TENSOR_NCHW",
       "static_cast<int>(padded_" + w.name + ".size())", "BeginPtr(padded_" + w.name + ")"]
    else
      [w.name, "CUDNNDType(" + w.tensor + "->dtype)",
       "static_cast<int>(padded_" + w.name + ".size())", "BeginPtr(padded_" + w.name + ")",
       "BeginPtr(stride_" + w.name + ")"]
  }

  /** The descriptor type, and the word naming it in the api, of a filter or a tensor. */
  function DescriptorWord(k: Kind): string
  {
    if k.Filter? || k.OutputFilter? then "Filter" else "Tensor"
  }

  /**
   * `CUDNNFilter.normalize` and `CUDNNTensor.normalize`: the shape lines,
   * then the descriptor's create and set calls; the descriptor becomes an
   * attribute and the pointer a hard-coded symbol for the tensor's data.  A
   * filter records the attribute first, a tensor the symbol first.
   */
  function DescriptorNormalize<W>(st: Status<W>, w: Wrapper): (r: Result<Step<W>, CodegenError>)
    requires !w.kind.Shape?
    ensures AddCastOf(st, w).Err? ==> r == Err(AddCastOf(st, w).error)
    ensures r.Ok? ==> AddCastOf(st, w).Ok? && r.value.wrapper == AddCastOf(st, w).value.wrapper
    ensures r.Ok? ==> r.value.status.casts == AddCastOf(st, w).value.status.casts
  {
    match ShapeNormalize(st, w)
    case Err(e) => Err(e)
    case Ok(base) =>
      var w' := base.wrapper;
      var word := DescriptorWord(w.kind);
      var lines := base.lines
        + [CallCudnnApi("cudnnCreate" + word + "Descriptor", "&" + w'.name),
           CallCudnnApi("Set" + word + "NdDescriptor", Join(", ", DescriptorArgs(w')))];
      var attrType := CudnnPrefix + word + DescriptorSuffix;
      var data := w'.tensor + "->data";
      if word == "Filter" then
        match AddAttr(base.status, attrType, w'.name) {
          case Err(e) => Err(e)
          case Ok(st1) =>
            match SetHardcode(st1, w'.ptr, data) {
              case Err(e) => Err(e)
              case Ok(st2) => Ok(Step(lines, st2, w'))
            }
        }
      else
        match SetHardcode(base.status, w'.ptr, data) {
          case Err(e) => Err(e)
          case Ok(st1) =>
            match AddAttr(st1, attrType, w'.name) {
              case Err(e) => Err(e)
              case Ok(st2) => Ok(Step(lines, st2, w'))
            }
        }
  }

  /** The lines with which an output requests the memory of its tensor `t`. */
  function RequestMemoryLines(t: string): seq<string>
  {
    ["auto bytes_of_" + t + " = BytesCompactTensor(*" + t + ");",
     "RequestMemory(&" + t + "->data, cv->ctx, bytes_of_" + t + ");"]
  }

  /**
   * `normalize` of every wrapper class: the class's own cast comes first and
   * its failure is the failure of the whole; the wrapper leaves as the cast
   * made it, with no further cast recorded; an output's last two lines
   * request the memory of its tensor.
   */
  function Normalize<W>(st: Status<W>, w: Wrapper): (r: Result<Step<W>, CodegenError>)
    ensures AddCastOf(st, w).Err? ==> r == Err(AddCastOf(st, w).error)
    ensures r.Ok? ==> AddCastOf(st, w).Ok? && r.value.wrapper == AddCastOf(st, w).value.wrapper
    ensures r.Ok? ==> r.value.status.casts == AddCastOf(st, w).value.status.casts
    ensures r.Ok? && IsOutput(w.kind) ==>
      var lines := r.value.lines;
      |lines| >= 2 && lines[|lines| - 2..] == RequestMemoryLines(r.value.wrapper.tensor)
  {
    if w.kind.Shape? then ShapeNormalize(st, w)
    else match DescriptorNormalize(st, w) {
      case Err(e) => Err(e)
      case Ok(step) =>
        if IsOutput(w.kind) then Ok(step.(lines := step.lines + RequestMemoryLines(step.wrapper.tensor)))
        else Ok(step)
    }
  }

  /**
   * A filter or tensor normalizes exactly when its cast succeeds, its pointer
   * is not yet hard-coded and its name is not yet an attribute; then the
   * descriptor is the last attribute, it gets a destroy call, and the
   * pointer stands for the cast tensor's data.
   */
  lemma DescriptorNormalizeCorrect<W>(st: Status<W>, w: Wrapper)
    requires !w.kind.Shape?
    ensures var cast := AddCastOf(st, w);
      Normalize(st, w).Ok? <==>
        cast.Ok? && !HasKey(cast.value.status.symbols, w.ptr) && !HasKey(cast.value.status.attrs, w.name)
    ensures Normalize(st, w).Ok? ==>
      var step, cast := Normalize(st, w).value, AddCastOf(st, w).value;
      var attrType := CudnnPrefix + DescriptorWord(w.kind) + DescriptorSuffix;
      && step.wrapper == cast.wrapper
      && step.status.attrs == cast.status.attrs + [(w.name, attrType)]
      && step.status.symbols == cast.status.symbols + [(w.ptr, cast.wrapper.tensor + "->data")]
      && step.status.casts == cast.status.casts
      && GetDestructors(step.status) ==
           AppendLine(GetDestructors(cast.status), "\n    ",
                      CallCudnnApi("Destroy" + DescriptorWord(w.kind) + "Descriptor", w.name),
                      DestroyLines(cast.status.attrs) == [])
  {
    var cast := AddCastOf(st, w);
    if Normalize(st, w).Ok? {
      var step := Normalize(st, w).value;
      var word := DescriptorWord(w.kind);
      var attrType := CudnnPrefix + word + DescriptorSuffix;
      assert cast.value.wrapper.name == w.name && cast.value.wrapper.ptr == w.ptr;
      StripRoundTrip(word);
      assert EndsWith(attrType, DescriptorSuffix) by {
        assert attrType[|attrType| - 12..] == DescriptorSuffix;
      }
      var before := if word == "Filter" then cast.value.status else SetHardcode(cast.value.status, w.ptr, cast.value.wrapper.tensor + "->data").value;
      assert before.attrs == cast.value.status.attrs;
      AddAttrDestroys(before, attrType, w.name);
    }
  }

  /** A plain shape wrapper's cast of `cv->x` names `x` and records it as a cast of `cv->x`. */
  lemma ShapeCastExample<W>(st: Status<W>)
    ensures var w := Wrapper(Shape(true), "x", "", "cv->x", []);
      && Normalize(st, w).Ok?
      && Normalize(st, w).value.wrapper == w.(tensor := "x")
      && Normalize(st, w).value.status == AddCast(st, "DLTensor*", "x", "cv->x")
      && |Normalize(st, w).value.lines| == 3
  {
    var w := Wrapper(Shape(true), "x", "", "cv->x", []);
    var s := "cv" + Arrow;
    assert s == ['c', 'v', '-', '>'] && Arrow[0] == '-';
    forall k | 0 <= k < 2 ensures !OccursAt(s, Arrow, k) {
      assert s[k..k + 2][0] == s[k] != Arrow[0];
    }
    assert w.tensor == "cv" + Arrow + "x";
    ShapeAddCastNames(st, w, "cv", "x");
  }
}
