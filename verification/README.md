# A verified model of six pieces of mnm

This project models six small cores of the mnm deep-learning compiler and
proves properties about each of them:

- **Multi-stream schedule verification** (`ScheduleVerifier`, `ScheduleTheory`,
  `SchedulePrograms` and eleven verdict modules). A scheduled function body is
  a straight let-chain:
  - `set_stream(device, stream)` selects the stream of every later instruction;
  - `add_event(e)` marks a point on the current stream;
  - `wait_event(e)` makes the current stream wait for the latest mark of `e`;
  - compute calls and tuple constructions read earlier let vars and function
    parameters.

  The verifier works in two passes:
  1. One extraction pass resolves every read to the position of its binding
     and records each instruction's stream.
  2. One simulation pass keeps:
     - a vector clock per stream (for each stream, the latest position of that
       stream known to be complete);
     - an event table from event id to the marking stream, its position and
       its clock.

  It reports every read whose producer is neither earlier on the same stream
  nor ordered before it by add/wait pairs.

  The two regression programs (three joined branches; two stacked blocks) are
  Dafny values parameterised by the set of removed events. Each expected
  verdict is proved in its own module, down to the exact hazards reported.
- **Device names and breadth-first search** (`CoreUtils`). This covers:
  - the table from device names to contexts;
  - the inverse mask used to print a context;
  - the queue and visited-set traversal `bfs`.
- **Let-variable renaming** (`RenameVars`, over the expression fragment in `Ir`).
- **In-place update** (`InplaceUpdate`). It is built from three parts:
  - the visitor's binding and one-step simplification maps;
  - the sharing map `vmap`;
  - the rewriter that drops and replaces mapped variables.
- **Bounded enums** (`EnumBase`). The range-checked constructor, the tables
  built by `collect`, `c_str`, `plain`, equality and `ENUM_DEF_ATTR`.
- **cuDNN code-generation bookkeeping** (`DefCudnn`, with the Python string
  operations it needs in `Text`). This covers:
  - the `Status` dictionaries with their no-overwrite rules, and the
    declarations, destructors and casts they emit;
  - the shape wrapper's `add_cast` and flatten loop;
  - the filter, tensor and output wrappers' `normalize`.

Python dictionaries keep insertion order. They are modelled as sequences of
key/value pairs (`DefCudnn.Dict`). Relay variables are compared by identity,
so they are modelled by any type with equality.

## Model

| member | source | states |
|---|---|---|
| SimpleBranchesAllEvents.Verdict | tests/python/tools/test_schedule_verifier.py:50-83 | with events 0 and 1 kept, the three-branch program verifies |
| SimpleBranchesWithoutEvent0.Verdict | tests/python/tools/test_schedule_verifier.py:50-81 | without event 0, exactly one hazard is reported: the tuple `x_13` on stream 2 reads `x_3` of stream 0 |
| SimpleBranchesWithoutEvent1.Verdict | tests/python/tools/test_schedule_verifier.py:50-81 | without event 1, exactly one hazard is reported: the tuple reads `x_7` of stream 1 |
| SimpleBranchesWithoutEvents.Verdict | tests/python/tools/test_schedule_verifier.py:50-81 | without either event, both foreign branches read by the tuple are reported, in operand order |
| StackedBlocksAllEvents.Verdict | tests/python/tools/test_schedule_verifier.py:86-140 | with all five events kept, the stacked blocks verify. This includes event 2, whose one mark is waited on by streams 1 and 0 |
| StackedBlocksWithoutEvent0.Verdict | tests/python/tools/test_schedule_verifier.py:86-138 | without event 0, the only hazard is the first join reading `x_2` of stream 0 |
| StackedBlocksWithoutEvent1.Verdict | tests/python/tools/test_schedule_verifier.py:86-138 | without event 1, the only hazard is the first join reading `x_5` of stream 1 |
| StackedBlocksWithoutEvent2.Verdict | tests/python/tools/test_schedule_verifier.py:86-138 | without event 2, both re-entered streams read the first join `x_12` unordered |
| StackedBlocksWithoutEvent3.Verdict | tests/python/tools/test_schedule_verifier.py:86-138 | without event 3, the only hazard is the second join reading `x_15` of stream 2 |
| StackedBlocksWithoutEvent4.Verdict | tests/python/tools/test_schedule_verifier.py:86-138 | without event 4, the only hazard is the second join reading `x_19` of stream 1 |
| StackedBlocksWithoutEvents.Verdict | tests/python/tools/test_schedule_verifier.py:86-138 | without any event, all six cross-stream reads are reported in program order |
| SchedulePrograms.ExtractReplays | tests/python/tools/test_schedule_verifier.py:24-43 | when every position advances as a given graph says, extraction from any point yields exactly that graph |
| SchedulePrograms.ResolveSmall | tests/python/tools/test_schedule_verifier.py:39-43 | resolving at most three operands concatenates the positions of the let vars among them; parameters and constants contribute nothing |
| ScheduleVerifier.Resolve | tests/python/tools/test_schedule_verifier.py:24-43 | resolution succeeds iff every let var read is bound. Then each resolved position is that var's binding; otherwise the error names an unbound var that is read |
| ScheduleVerifier.Join | tests/python/tools/test_schedule_verifier.py:36-37 | the join of two clocks sees, for each stream, the later of what either clock sees |
| ScheduleVerifier.Merge | tests/python/tools/test_schedule_verifier.py:36-37 | waiting on a mark makes the waiter see the mark's own position and everything the marking stream saw |
| ScheduleVerifier.Extract | tests/python/tools/test_schedule_verifier.py:24-43 | extraction gives one node per instruction, each reading only earlier positions, and fails only on an unbound read; `ScheduleTheory.ExtractCorrect` states the rest |
| ScheduleVerifier.Step | tests/python/tools/test_schedule_verifier.py:30-43 | one step fails iff it is a wait on an event with no mark, naming that position and event. Otherwise it keeps every hazard found so far, and only a call or tuple adds any; `ScheduleTheory.StepCorrect` states which |
| ScheduleVerifier.Simulate | tests/python/tools/test_schedule_verifier.py:30-43 | the only way the pass can fail is `UnknownEvent` at a position of the program; `ScheduleTheory.SimulateCorrect` states when and which hazards it returns |
| ScheduleVerifier.Verify | tests/python/tools/test_schedule_verifier.py:79-83 | a malformed-program error comes exactly from extraction, an unknown event names a position of the program, and an execution-order error never has an empty list; `ScheduleTheory.VerifyCorrect` states the full iff |
| ScheduleTheory.ExtractCorrect | tests/python/tools/test_schedule_verifier.py:24-43 | extraction succeeds iff every read let var is bound earlier. On success each node carries the stream in effect and the positions of the latest bindings it reads; on failure the error names the first unbound read |
| ScheduleTheory.StreamPersists | tests/python/tools/test_schedule_verifier.py:30-31 | a `set_stream` decides the stream of every later instruction up to the next `set_stream` |
| ScheduleTheory.HappensBeforeTransitive | tests/python/tools/test_schedule_verifier.py:33-37 | the order that program order and add/wait pairs induce is transitive |
| ScheduleTheory.KnownByGrows | tests/python/tools/test_schedule_verifier.py:33-37 | once a stream knows a position is complete, it keeps knowing it |
| ScheduleTheory.ReadHazardsCorrect | tests/python/tools/test_schedule_verifier.py:24-43 | the clock check of one reader reports exactly its reads whose producer does not happen before it |
| ScheduleTheory.StepCorrect | tests/python/tools/test_schedule_verifier.py:30-43 | one simulation step keeps the clocks and event table meaningful. It fails only at a wait on a never-added event, and appends exactly the reader's unordered reads |
| ScheduleTheory.SimulateCorrect | tests/python/tools/test_schedule_verifier.py:30-43 | simulation succeeds iff every wait has an earlier add. It then reports exactly the unordered reads in program order; otherwise it names the first unbound wait |
| ScheduleTheory.VerifyCorrect | tests/python/tools/test_schedule_verifier.py:79-83 | verification succeeds iff extraction succeeds, every wait is bound and every read is ordered after its producer. An execution-order error lists all unordered reads and never an empty list |
| ScheduleTheory.HazardsFromEmpty | tests/python/tools/test_schedule_verifier.py:79-83 | no hazard is reported iff every read is ordered after its producer |
| ScheduleTheory.UnorderedReadReported | tests/python/tools/test_schedule_verifier.py:72-81 | every read not ordered after its producer appears among the reported hazards, tuple constructions included |
| ScheduleTheory.IntraStreamReadsAreSafe | tests/python/tools/test_schedule_verifier.py:54-67 | a bound program whose every let-var read stays on one stream verifies with no hazard. Parameter reads are never checked |
| ScheduleTheory.CrossStreamReadNeedsEvents | tests/python/tools/test_schedule_verifier.py:79-81 | without any wait, every cross-stream read is reported |
| ScheduleTheory.MergeIdempotent | tests/python/tools/test_schedule_verifier.py:36-37 | waiting twice on the same mark is the same as waiting once |
| ScheduleTheory.MergeCommutes | tests/python/tools/test_schedule_verifier.py:121-127 | waits on two marks may be taken in either order |
| ScheduleTheory.StepGrowsClocks | tests/python/tools/test_schedule_verifier.py:30-43 | no step makes a stream forget a position it knew to be complete |
| CoreUtils.IdUnder | python/mnm/_core/core_utils.py:46-50 | a name denotes, under one alias, at most one id, and that id is below 128; `CoreUtils.IdUnderCorrect` states which names |
| CoreUtils.IdUnderCorrect | python/mnm/_core/core_utils.py:46-50 | a name denotes id k under an alias iff it is the bare alias with k = 0, or `alias(k)` with k < 128 |
| CoreUtils.KeysDisjoint | python/mnm/_core/core_utils.py:24-50 | no name denotes a context under two aliases, so later table entries never overwrite earlier ones |
| CoreUtils.Str2Ctx | python/mnm/_core/core_utils.py:69-70 | a name outside the table fails with that name |
| CoreUtils.Str2CtxMatchesTable | python/mnm/_core/core_utils.py:24-70 | `str2ctx` yields a context iff the name is in the table with that context |
| CoreUtils.Ctx2Str | python/mnm/_core/core_utils.py:57-66 | the bare mask name for id 0 with type 1 or 3; otherwise the mask name, then `(`, the decimal id (with its sign) and `)`. A type with no name (0, or a Python index out of range) fails |
| CoreUtils.Ctx2StrIdReadsBack | python/mnm/_core/core_utils.py:62-66 | for every id, including negative ids and ids of 128 or more, the text between the parentheses of a rendered name parses back to that id |
| CoreUtils.NameRoundTrip | python/mnm/_core/core_utils.py:24-70 | for types 1, 2 and 4 to 11 and ids below 128, parsing the printed name gives back the context |
| CoreUtils.PinnedNotRoundTrip | python/mnm/_core/core_utils.py:57-70 | `cpu_pinned` is printed but cannot be parsed back |
| CoreUtils.Bfs | python/mnm/_core/core_utils.py:73-87 | non-recursive mode pops exactly the sources in order. Recursive mode pops all sources first, then each node at most once, and only nodes reached through a non-`None` successor; the popped set is closed under successors. The order is first in, first out: nodes come in the order of the earliest popped node listing them, and nodes first listed by the same node come in its `on_next` order |
| CoreUtils.LevelOrderExample | python/mnm/_core/core_utils.py:79-87 | on the tree 0→[1,2], 1→[3], 2→[4] the order 0,1,2,3,4 is first in, first out and the depth-first order 0,1,3,2,4 is not |
| CoreUtils.Discover | python/mnm/_core/core_utils.py:84-87 | scanning one node's successors keeps the queue as a prefix, leaves every successor visited, and grows the visited set by exactly the nodes it enqueues |
| CoreUtils.BfsComplete | python/mnm/_core/core_utils.py:81-87 | every node reachable from the sources is popped |
| CoreUtils.BfsSound | python/mnm/_core/core_utils.py:81-87 | every popped node is reachable from the sources |
| RenameVars.NamedMap | src/pass/rename_vars.cc:18-21 | the initial map has exactly the named variables as keys, each mapped to a fresh variable named by one of its keys |
| RenameVars.RenameChecks | src/pass/rename_vars.cc:24-34 | the rewrite fails iff a walk finds a let binding an already-mapped variable or an occurrence of an unmapped one, and with the same error |
| RenameVars.RenameNumbers | src/pass/rename_vars.cc:31-36 | let-bound variables are renamed `a1`, `a2`, … in pre-order, and the counter grows by the number of lets |
| RenameVars.RenameUses | src/pass/rename_vars.cc:24-25 | every occurrence becomes the variable its original is mapped to |
| RenameVars.RenameShape | src/pass/rename_vars.cc:33 | the result has the same tree as the input; only variables change |
| RenameVars.RenameVars | src/pass/rename_vars.cc:40-42 | the pass fails iff the replay of its events from the named variables fails, with the same error, and on success keeps the tree's shape; `RenameVars.RenameVarsCorrect` states the names it gives |
| RenameVars.RenameVarsCorrect | src/pass/rename_vars.cc:16-42 | the pass succeeds iff no variable is bound twice (or bound while named) and none is used unbound. On success: binders are `a1..an`; named uses become their key; other uses become the `a` name of their binder; the tree is unchanged |
| RenameVars.GeneratedNamesDistinct | src/pass/rename_vars.cc:31 | distinct counter values give distinct names |
| InplaceUpdate.Record | src/pass/inplace_update.cc:25-47 | recording a let succeeds exactly when, with the let's variable recorded, a projection's tuple is a variable whose simplification is bound and, if that binding is a tuple literal, the projected field exists and is a variable; a non-variable tuple is `NotAVar`. On success the variable maps to its binding and to its one-step simplification |
| InplaceUpdate.RecordFromCorrect | src/pass/inplace_update.cc:43-48 | the first walk succeeds exactly when each let is recordable in the state the lets before it leave; otherwise it fails with the error of the first let that is not |
| InplaceUpdate.RecordFailures | src/pass/inplace_update.cc:25-29 | a projection of a parameter fails on the missing binding, a projected non-variable field is `NotAVar`, and an index past the tuple's end is `FieldOutOfRange` |
| InplaceUpdate.RecordCorrect | src/pass/inplace_update.cc:43-48 | after the first walk over distinct lets, each variable's binding and simplification are those of its own let |
| InplaceUpdate.SimplifyOneStep | src/pass/inplace_update.cc:32-33 | a variable bound to a variable simplifies to it in one step only, not transitively |
| InplaceUpdate.SimplifyProjection | src/pass/inplace_update.cc:25-29 | a projection of a tuple literal simplifies to the projected field |
| InplaceUpdate.Share | src/pass/inplace_update.cc:51-59 | a sharing variable is accepted iff its simplified variable is bound and, when that binding is a call, the call's first argument is bound to `alloc_storage`. A call then maps the simplified variable to the partner and the storage to undefined; any other binding leaves the map alone |
| InplaceUpdate.ShareFrom | src/pass/inplace_update.cc:49-61 | with no variable that may share, the second walk leaves the map as it was |
| InplaceUpdate.ShareFromCorrect | src/pass/inplace_update.cc:49-61 | from a sound and complete map, the rest of the second walk succeeds iff every remaining sharing let passes the checks, and the map stays sound and complete |
| InplaceUpdate.Visit | src/pass/inplace_update.cc:35-62 | a failing first walk is the visitor's failure, and with no variable that may share the map is empty; `InplaceUpdate.VisitCorrect` states the map in general |
| InplaceUpdate.VisitCorrect | src/pass/inplace_update.cc:49-61 | the second walk succeeds iff every sharing let passes that check. The map then holds exactly the partners and undefined storages those lets require |
| InplaceUpdate.Rewrite | src/pass/inplace_update.cc:76-97 | the rewriter fails only at an occurrence of a variable mapped to undefined, and names it; `InplaceUpdate.RewriteCorrect` states the result |
| InplaceUpdate.RewriteCorrect | src/pass/inplace_update.cc:78-97 | the rewrite drops mapped lets with their values. It fails at the first occurrence of an undefined variable; otherwise its variable events are the walk's with each mapped occurrence replaced by its partner, and its shape (operators, node kinds, arities, indices) is the input's with the mapped lets dropped |
| InplaceUpdate.RewriteShape | src/pass/inplace_update.cc:78-83 | apart from variables, a successful rewrite is the input with the lets of mapped variables replaced by their bodies |
| InplaceUpdate.RewriteDropsMappedLets | src/pass/inplace_update.cc:78-81 | no let of a mapped variable survives the rewrite |
| InplaceUpdate.RewriteEmptyIdentity | src/pass/inplace_update.cc:96 | with an empty map the rewrite is the identity |
| InplaceUpdate.RewriteFunction | src/pass/inplace_update.cc:99-103 | the rewrite succeeds iff both walks do. Parameters, return type, type parameters and attributes are kept |
| InplaceUpdate.NoSharingUnchanged | src/pass/inplace_update.cc:99-103 | a function with no sharing variable is left unchanged |
| InplaceUpdate.InplaceUpdateModule | src/pass/inplace_update.cc:112-118 | every function is rewritten under its own global. If any rewrite fails, the error is the set of failing globals |
| InplaceUpdate.InplaceExample | src/pass/inplace_update.cc:49-97 | an `add` whose output may share with its input reads the input in place, and the storage and tensor lets disappear |
| EnumBase.Collect | include/mnm/enum_base.h:5-31 | the table of n constants has n entries, entry i from constant i |
| EnumBase.Make | include/mnm/enum_base.h:40-42 | construction succeeds iff 0 ≤ v < numel, keeping v |
| EnumBase.Default | include/mnm/enum_base.h:77-78 | the default constructor succeeds iff the default value is in range |
| EnumBase.FromPlain | include/mnm/enum_base.h:79-80 | the plain-value constructor succeeds iff the converted value is in range |
| EnumBase.CStr | include/mnm/enum_base.h:46-49 | `c_str()` is the name of the value's own constant |
| EnumBase.Plain | include/mnm/enum_base.h:50-54 | `plain()` is the plain value of the value's own constant |
| EnumBase.Equal | include/mnm/enum_base.h:89-91 | two values are equal iff they are the same value |
| EnumBase.NotEqual | include/mnm/enum_base.h:92-94 | `!=` is the negation of `==` |
| EnumBase.EqualConstant | include/mnm/enum_base.h:81-84 | comparison with a constant holds iff the value is that constant |
| EnumBase.NotEqualConstant | include/mnm/enum_base.h:85-88 | `!=` with a constant is the negation of `==` |
| EnumBase.Attr | include/mnm/enum_base.h:111-115 | `ENUM_DEF_ATTR` returns an element of the attribute list; `EnumBase.AttrInEntryOrder` states which |
| EnumBase.AttrInEntryOrder | include/mnm/enum_base.h:111-115 | an attribute list written in entry order gives each constant its own attribute |
| EnumBase.MadeValuesLookUp | include/mnm/enum_base.h:40-54 | whatever the constructor accepts, `c_str()` and `plain()` look up in bounds |
| EnumBase.EqualByName | include/mnm/enum_base.h:46-94 | with distinct names, two values are equal iff their names are |
| EnumBase.MakeRoundTrip | include/mnm/enum_base.h:40-43 | constructing from a valid value's integer gives that value back |
| DefCudnn.StripTypeCommons | scripts/src_codegen/def_cudnn.py:8-9 | drops the first 5 and last 12 characters; a string of at most 17 characters becomes empty |
| DefCudnn.StripRoundTrip | scripts/src_codegen/def_cudnn.py:8-9 | stripping `cudnn` + m + `Descriptor_t` gives m back |
| DefCudnn.CallCudnnApi | scripts/src_codegen/def_cudnn.py:11-12 | the call text is `CUDNN_CALL(` + api + `(args));` when the api name starts with `cudnn`, and has `cudnn` put before the api name otherwise; so it always starts with `CUDNN_CALL(cudnn` and ends with the argument list |
| DefCudnn.CallCudnnApiPrefixOnce | scripts/src_codegen/def_cudnn.py:11-12 | the `cudnn` prefix is added only when missing, so writing it explicitly changes nothing |
| DefCudnn.PutGet | scripts/src_codegen/def_cudnn.py:32-33 | after a store, a key reads its new value and every other key is unaffected |
| DefCudnn.PutKeys | scripts/src_codegen/def_cudnn.py:32-33 | a store keeps every existing key in its insertion position |
| DefCudnn.AddAttr | scripts/src_codegen/def_cudnn.py:24-26 | adding an attribute succeeds iff the name is new, and appends it; a duplicate is an error naming it |
| DefCudnn.AddWrapper | scripts/src_codegen/def_cudnn.py:28-30 | adding a wrapper succeeds iff the key is new, and appends it |
| DefCudnn.AddCast | scripts/src_codegen/def_cudnn.py:32-33 | a cast changes only the casts; `DefCudnn.StatusOperationsKeepWellFormed` and `DefCudnn.AddCastEmits` state the new entry and its line |
| DefCudnn.SetHardcode | scripts/src_codegen/def_cudnn.py:35-39 | setting a hardcoded symbol succeeds iff the key is new. Otherwise the error reports the key, its existing value and the refused one |
| DefCudnn.StatusOperationsKeepWellFormed | scripts/src_codegen/def_cudnn.py:24-39 | every status operation keeps keys unique, and a cast is last-writer-wins |
| DefCudnn.GetAttrs | scripts/src_codegen/def_cudnn.py:47-48 | the declarations are empty iff there is no attribute, and otherwise open with the first attribute's and close with the last one's |
| DefCudnn.GetDestructors | scripts/src_codegen/def_cudnn.py:42-45 | the destructors are empty iff no attribute has a descriptor type, and otherwise open with the destroy call of a descriptor attribute |
| DefCudnn.GetCasts | scripts/src_codegen/def_cudnn.py:50-52 | the cast declarations are empty iff there is no cast, and otherwise open with the first cast's and close with the last one's |
| DefCudnn.AddAttrDeclares | scripts/src_codegen/def_cudnn.py:47-48 | a new attribute appends its declaration to the emitted declarations, in insertion order |
| DefCudnn.AddAttrDestroys | scripts/src_codegen/def_cudnn.py:42-45 | a new descriptor attribute appends its destroy call; any other attribute emits nothing |
| DefCudnn.DestroyLines | scripts/src_codegen/def_cudnn.py:42-45 | every destroy line comes from a descriptor attribute, and every descriptor attribute has one |
| DefCudnn.AddCastEmits | scripts/src_codegen/def_cudnn.py:32-33 | a new cast appends its line. Re-casting a name replaces that line in place and keeps the others |
| DefCudnn.ShapeAddCast | scripts/src_codegen/def_cudnn.py:63-67 | succeeds iff the tensor contains `->`. The wrapper is then renamed to `split('->')[1]`, the text between the first arrow and the next one (or the end), with a `DLTensor*` cast from the old text; otherwise the assertion fails |
| DefCudnn.ShapeAddCastNames | scripts/src_codegen/def_cudnn.py:63-67 | for `a->b` with no arrow in `b`, the tensor becomes `b` |
| DefCudnn.OutputAddCast | scripts/src_codegen/def_cudnn.py:141-150 | `cv->out` becomes `out`. `tv->fields[i]` becomes `out` + i when the stripped index parses, and fails otherwise; any other tensor is an error |
| DefCudnn.OutputFieldCast | scripts/src_codegen/def_cudnn.py:145-148 | `tv->fields[i]` casts to `out` + i and records the original expression under that name |
| DefCudnn.AddCastOf | scripts/src_codegen/def_cudnn.py:63-67 | whichever class's `add_cast` runs, it changes only the wrapper's tensor, records the new tensor as a `DLTensor*` cast of the old text and emits no line |
| DefCudnn.FlattenLoopCorrect | scripts/src_codegen/def_cudnn.py:80-86 | a flatten list of k bounds yields k−1 blocks; block j+1 spans from bound j to bound j+1 |
| DefCudnn.ShapeLinesFlatten | scripts/src_codegen/def_cudnn.py:71-92 | a flattened shape declares the vector, then the k−1 product blocks with `<last>` replaced by `ndim`, then the padding and, for tensors, the strides |
| DefCudnn.ShapeNormalize | scripts/src_codegen/def_cudnn.py:69-70 | normalising a shape fails exactly when its cast does, and keeps the cast's status and wrapper |
| DefCudnn.DescriptorNormalize | scripts/src_codegen/def_cudnn.py:101-131 | a filter or tensor fails when its cast does; on success the wrapper is the cast's and no further cast is recorded |
| DefCudnn.Normalize | scripts/src_codegen/def_cudnn.py:69-156 | every class's cast fails the whole normalisation; on success the wrapper is the cast's, no further cast is recorded, and an output's last two lines request its tensor's memory; `DefCudnn.DescriptorNormalizeCorrect` states the status |
| DefCudnn.DescriptorNormalizeCorrect | scripts/src_codegen/def_cudnn.py:101-156 | a filter or tensor normalises iff its cast succeeds, its pointer is not hardcoded and its name is no attribute. Then it adds the descriptor attribute, hardcodes the pointer to the tensor's data and emits one more destroy call |
| DefCudnn.ShapeCastExample | scripts/src_codegen/def_cudnn.py:63-93 | a shape `cv->x` without flattening renames its tensor to `x`, records the cast and emits three lines |
| Text.PySlice | scripts/src_codegen/def_cudnn.py:9 | Python slicing with negative and out-of-range bounds clamped |
| Text.Split | scripts/src_codegen/def_cudnn.py:65 | `str.split` always yields at least one piece |
| Text.SplitJoin | scripts/src_codegen/def_cudnn.py:65 | joining the pieces of a split with the separator gives the string back |
| Text.SplitFirst | scripts/src_codegen/def_cudnn.py:65 | the first piece is the text before the first separator |
| Text.JoinSnoc | scripts/src_codegen/def_cudnn.py:45-52 | joining one more part adds the separator only when there were parts before |
| Text.RStrip | scripts/src_codegen/def_cudnn.py:146 | `rstrip` removes exactly the trailing run of the character |
| Text.ParseInt | scripts/src_codegen/def_cudnn.py:146 | a string parses iff it is digits with an optional sign; digits parse to their value, `+` keeps it and `-` negates it |
| Text.LeadingZero | scripts/src_codegen/def_cudnn.py:146 | a leading zero does not change the value of a digit string |
| Text.ParseIntSigns | scripts/src_codegen/def_cudnn.py:146 | for any digit run, a leading `0` or `+` parses to the same value and a leading `-` to its negation |
| Text.ParseIntExamples | scripts/src_codegen/def_cudnn.py:146-148 | `007` parses to 7, `+3` to 3 and `-0` to 0, so `tv->fields[07]` names `out7`; empty text, a bare sign and a trailing bracket do not parse |
| Text.IntRoundTrip | scripts/src_codegen/def_cudnn.py:146-147 | parsing a printed integer gives it back |
| Text.ParseNatRoundTrip | scripts/src_codegen/def_cudnn.py:146-147 | a parsed canonical numeral prints back to itself |

## Left out

- The schedule verifier's implementation is not part of this model. Only its
  regression tests are, so its algorithm is a design here:
  - A wait merges the clock of the stream that made the mark. Ordering is
    therefore transitive across several add/wait hops. No test exercises that.
  - A wait on an event never added is an `UnknownEvent` error. No test
    exercises that either.
  - Hazards are listed in program order, each reader's in operand order.
- Building Relay IR with the scope builder, and drawing the dataflow graph, are
  left out: they are external library calls and rendering.
- The let list behind the in-place visitor (`let_list.h`) is not part of this
  model. It is modelled as the function body's outer chain of lets.
- Expression-mutator memoisation and Relay node kinds other than variables,
  lets, calls, tuples and projections are left out. A `let`'s value is
  rewritten before its body; the C++ leaves that argument order unspecified.
- InplaceUpdate.Record: where the C++ would index past the end of a tuple,
  the model returns `FieldOutOfRange`. The C++ does not check that case.
- InplaceUpdate.Share: where the C++ would read the first argument of a call
  with no arguments (`cn->args[0]`), the model returns `NoArgs`. The C++ does
  not check that case.
- InplaceUpdate.InplaceUpdateModule: the error of a failing module is the set
  of failing globals. The C++ aborts at the first, in map order, which is
  unspecified.
- Ir.Expr: a call's callee is an operator name. In Relay the callee is an
  expression, and both mutators visit it before the arguments, so a call
  through a variable would be renamed by the renaming pass (or fail on an
  unknown variable) and replaced by the in-place rewriter. Calls through
  variables are not expressible in this model.
- EnumBase.Make: the underlying value and the stored value are both unbounded
  integers. The C++ constructor first converts its `_underlying` argument to
  `int` and range-checks the converted value; a narrowing conversion of a
  wider underlying type is not modelled.
- CoreUtils.Bfs: needs a finite set that bounds every reachable node (a ghost
  parameter), because the Python loop terminates only on finite graphs.
  Callbacks `on_pop`/`on_next` are a returned pop order and a successor
  function.
- RenameVars.NamedMap: the iteration order of the named-variable map is a
  parameter (a sequence of pairs), because the map's order is unspecified.
- DefCudnn.OutputAddCast: the index parser accepts an optional sign and ASCII
  digits only. Python's `int()` also accepts surrounding whitespace,
  underscores between digits and non-ASCII Unicode decimal digits.
- Text.ParseInt: models `int()` on ASCII digits with an optional sign only;
  whitespace, underscores and non-ASCII Unicode decimal digits are rejected
  where Python accepts them.
- EnumBase.Attr: its contract states only that the result is in the list; the
  exact element is stated by `EnumBase.AttrInEntryOrder`.
- The descriptor, algorithm and dispatch generators of the cuDNN script are left
  out (from `CUDNNDescriptor` on). They produce large template text that
  depends on API metadata and helpers that are not part of this model.
  `Status`'s `schema` and `cudnn_apis` fields are not modelled either.
- Python reflection helpers in `core_utils.py` (`register_node`, `set_module`,
  `get_func_name`, `get_bound_args`) are left out.
- The other context files are left out: the JIT transform glue, IR type
  aliases, schema declarations, the gradient registration, FFI lookups and
  the ndarray test.
