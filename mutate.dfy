/**
 * The pod mutator: a PodMutation (a metadata and spec template plus a merge
 * strategy) that turns a pod into a path-sorted JSON patch, the ignore
 * rules that exempt pods, and the PodMutator whose Review maps every
 * admission request to exactly one response and one pods-reviewed record.
 */
module Mutate {
  import opened Kube
  import opened JsonPatch
  import opened External

  /** The only resource reviewed: core v1 pods. */
  const ResourcePod := GroupVersionResource("", "v1", "pods")

  const NonPodMessage := "cannot review non-pod resource"
  const DecodeFailedMessage := "cannot decode object as a pod"
  const PatchFailedMessage := "cannot patch pod"

  const MetadataMergeFailed := "cannot inject pod metadata"
  const SpecMergeFailed := "cannot inject pod spec"
  const EncodeOriginalFailed := "cannot encode original pod as JSON"
  const EncodePatchedFailed := "cannot encode patched pod as JSON"
  const CreatePatchFailed := "cannot create patch"
  const MarshalFailed := "cannot encode patch as JSON"

  /** The `result` tag of a pods-reviewed record: "mutated", "ignored" or "error". */
  datatype ResultTag = TagMutated | TagIgnored | TagError

  /** One pods-reviewed count with its kind, namespace, name and result tags. */
  datatype Measurement = Measurement(kind: GroupVersionKind, namespace: string, name: string, result: ResultTag)

  // ---------------------------------------------------------------------
  // PodMutation and Patch

  datatype PodMutationStrategy = PodMutationStrategy(overwrite: bool, append: bool)
  datatype PodMutationTemplate = PodMutationTemplate(meta: ObjectMeta, spec: PodSpec)
  datatype PodMutationSpec = PodMutationSpec(strategy: PodMutationStrategy, template: PodMutationTemplate)
  datatype PodMutation = PodMutation(typeMeta: TypeMeta, meta: ObjectMeta, spec: PodMutationSpec)

  /** The merge options a strategy turns into: override for Overwrite, then append-slice for Append. */
  function MergeOptions(s: PodMutationStrategy): (mo: seq<MergeOption>)
    ensures WithOverride in mo <==> s.overwrite
    ensures WithAppendSlice in mo <==> s.append
    ensures |mo| == (if s.overwrite then 1 else 0) + (if s.append then 1 else 0)
    ensures s.overwrite ==> mo[0] == WithOverride
  {
    (if s.overwrite then [WithOverride] else []) + (if s.append then [WithAppendSlice] else [])
  }

  /**
   * The pod after merging the template into a copy of `original`: metadata
   * first, then the spec. Only metadata and spec can change.
   */
  function Merged(m: PodMutation, original: Pod, lib: Library): (r: Result<Pod>)
    ensures var mo := MergeOptions(m.spec.strategy);
      var meta := lib.mergeMeta(original.meta, m.spec.template.meta, mo);
      var spec := lib.mergeSpec(original.spec, m.spec.template.spec, mo);
      && (r.Err? <==> meta.Err? || spec.Err?)
      && (meta.Err? ==> r == Err(Wrap("cannot inject pod metadata", meta.error)))
      && (meta.Ok? && spec.Err? ==> r == Err(Wrap("cannot inject pod spec", spec.error)))
      && (r.Ok? ==>
            && r.value.meta == meta.value
            && r.value.spec == spec.value
            && r.value.typeMeta == original.typeMeta
            && r.value.status == original.status)
  {
    var mo := MergeOptions(m.spec.strategy);
    match lib.mergeMeta(original.meta, m.spec.template.meta, mo)
    case Err(e) => Err(Wrap(MetadataMergeFailed, e))
    case Ok(meta) =>
      match lib.mergeSpec(original.spec, m.spec.template.spec, mo)
      case Err(e) => Err(Wrap(SpecMergeFailed, e))
      case Ok(spec) => Ok(original.(meta := meta, spec := spec))
  }

  /**
   * The diff Patch computes before sorting: the operations from the encoded
   * original to the encoded merged pod, or the wrapped error of the first
   * step that failed.
   */
  function Diff(m: PodMutation, original: Pod, lib: Library): (r: Result<seq<Operation>>)
  {
    match Merged(m, original, lib)
    case Err(e) => Err(e)
    case Ok(injected) =>
      match lib.encode(original)
      case Err(e) => Err(Wrap(EncodeOriginalFailed, e))
      case Ok(ob) =>
        match lib.encode(injected)
        case Err(e) => Err(Wrap(EncodePatchedFailed, e))
        case Ok(pb) =>
          match lib.createPatch(ob, pb)
          case Err(e) => Err(Wrap(CreatePatchFailed, e))
          case Ok(ops) => Ok(ops)
  }

  /** The final encoding of the sorted operations. */
  function EncodePatch(lib: Library, ops: seq<Operation>): (r: Result<Bytes>)
  {
    match lib.marshal(ops)
    case Err(e) => Err(Wrap(MarshalFailed, e))
    case Ok(b) => Ok(b)
  }

  /**
   * PodMutation.Patch: merge the template into a deep copy of the pod, diff
   * the original against the copy, sort the operations by path and encode
   * them. `ops` is the sorted sequence that was encoded.
   */
  method Patch(m: PodMutation, original: Pod, lib: Library) returns (r: Result<Bytes>, ghost ops: seq<Operation>)
    ensures Diff(m, original, lib).Err? ==> r == Err(Diff(m, original, lib).error)
    ensures Diff(m, original, lib).Ok? ==>
      && SortedByPath(ops)
      && multiset(ops) == multiset(Diff(m, original, lib).value)
      && r == EncodePatch(lib, ops)
  {
    ops := [];
    var injected := original;

    var mo: seq<MergeOption> := [];
    if m.spec.strategy.overwrite {
      mo := mo + [WithOverride];
    }
    if m.spec.strategy.append {
      mo := mo + [WithAppendSlice];
    }
    assert mo == MergeOptions(m.spec.strategy);

    var meta := lib.mergeMeta(injected.meta, m.spec.template.meta, mo);
    if meta.Err? {
      return Err(Wrap(MetadataMergeFailed, meta.error)), ops;
    }
    injected := injected.(meta := meta.value);
    var spec := lib.mergeSpec(injected.spec, m.spec.template.spec, mo);
    if spec.Err? {
      return Err(Wrap(SpecMergeFailed, spec.error)), ops;
    }
    injected := injected.(spec := spec.value);
    assert Merged(m, original, lib) == Ok(injected);

    var ob := lib.encode(original);
    if ob.Err? {
      return Err(Wrap(EncodeOriginalFailed, ob.error)), ops;
    }
    var pb := lib.encode(injected);
    if pb.Err? {
      return Err(Wrap(EncodePatchedFailed, pb.error)), ops;
    }
    var patch := lib.createPatch(ob.value, pb.value);
    if patch.Err? {
      return Err(Wrap(CreatePatchFailed, patch.error)), ops;
    }
    var d := patch.value;
    var a := new Operation[|d|](i requires 0 <= i < |d| => d[i]);
    assert a[..] == d;
    SortByPath(a);
    ops := a[..];
    var b := lib.marshal(a[..]);
    if b.Err? {
      return Err(Wrap(MarshalFailed, b.error)), ops;
    }
    return Ok(b.value), ops;
  }

  /**
   * A failed metadata merge decides the outcome: the spec merge, the
   * encoder and the diff are never reached.
   */
  lemma MetadataMergeFailureIsFinal(m: PodMutation, original: Pod, lib: Library, other: Library)
    requires lib.mergeMeta(original.meta, m.spec.template.meta, MergeOptions(m.spec.strategy)).Err?
    requires other.mergeMeta == lib.mergeMeta
    ensures Diff(m, original, lib) == Diff(m, original, other)
    ensures Diff(m, original, lib) ==
      Err(Wrap("cannot inject pod metadata",
               lib.mergeMeta(original.meta, m.spec.template.meta, MergeOptions(m.spec.strategy)).error))
  {
  }

  /** A failed spec merge decides the outcome: the encoder and the diff are never reached. */
  lemma SpecMergeFailureIsFinal(m: PodMutation, original: Pod, lib: Library, other: Library)
    requires lib.mergeMeta(original.meta, m.spec.template.meta, MergeOptions(m.spec.strategy)).Ok?
    requires lib.mergeSpec(original.spec, m.spec.template.spec, MergeOptions(m.spec.strategy)).Err?
    requires other.mergeMeta == lib.mergeMeta && other.mergeSpec == lib.mergeSpec
    ensures Diff(m, original, lib) == Diff(m, original, other)
    ensures Diff(m, original, lib) ==
      Err(Wrap("cannot inject pod spec",
               lib.mergeSpec(original.spec, m.spec.template.spec, MergeOptions(m.spec.strategy)).error))
  {
  }

  /**
   * Once the merges succeed, the original pod is encoded first and then
   * the merged copy; the diff runs from the original's encoding to the
   * copy's, so the original is the "before" document.
   */
  lemma DiffRunsFromOriginalToMerged(m: PodMutation, original: Pod, lib: Library)
    requires Merged(m, original, lib).Ok?
    ensures lib.encode(original).Err? ==>
      Diff(m, original, lib) == Err(Wrap("cannot encode original pod as JSON", lib.encode(original).error))
    ensures lib.encode(original).Ok? && lib.encode(Merged(m, original, lib).value).Err? ==>
      Diff(m, original, lib) ==
      Err(Wrap("cannot encode patched pod as JSON", lib.encode(Merged(m, original, lib).value).error))
    ensures lib.encode(original).Ok? && lib.encode(Merged(m, original, lib).value).Ok? ==>
      var d := lib.createPatch(lib.encode(original).value, lib.encode(Merged(m, original, lib).value).value);
      Diff(m, original, lib) == if d.Ok? then d else Err(Wrap("cannot create patch", d.error))
  {
  }

  /**
   * The no-op test: a template the merges leave without effect gives an
   * empty patch, provided the diff of a document with itself is empty.
   * `ops` is any sequence meeting Patch's postcondition.
   */
  lemma NoOpMutationHasEmptyPatch(m: PodMutation, original: Pod, lib: Library, ops: seq<Operation>)
    requires lib.mergeMeta(original.meta, m.spec.template.meta, MergeOptions(m.spec.strategy)) == Ok(original.meta)
    requires lib.mergeSpec(original.spec, m.spec.template.spec, MergeOptions(m.spec.strategy)) == Ok(original.spec)
    requires lib.encode(original).Ok?
    requires lib.createPatch(lib.encode(original).value, lib.encode(original).value) == Ok([])
    requires Diff(m, original, lib).Ok? ==>
      SortedByPath(ops) && multiset(ops) == multiset(Diff(m, original, lib).value)
    ensures Diff(m, original, lib) == Ok([])
    ensures ops == []
  {
    assert Merged(m, original, lib) == Ok(original);
    assert |ops| == |multiset(ops)|;
  }

  /** The appended container, the only operation of the append test's diff. */
  const AddContainer := Operation(Add, "/spec/containers/1",
    Some("{\"image\":\"extracool:somehowmorecool\",\"name\":\"coolercontainer\",\"resources\":{}}"))

  /**
   * The append test: when the diff is the single container add, Patch
   * encodes exactly that operation.
   */
  lemma AppendPatchIsSingleAdd(m: PodMutation, original: Pod, lib: Library, ops: seq<Operation>)
    requires Diff(m, original, lib) == Ok([AddContainer])
    requires Diff(m, original, lib).Ok? ==>
      SortedByPath(ops) && multiset(ops) == multiset(Diff(m, original, lib).value)
    ensures ops == [AddContainer]
  {
    assert |ops| == |multiset(ops)| == 1;
    assert ops[0] in multiset(ops);
  }

  /**
   * The overwrite test: the diff yields the dnsPolicy replace before the
   * dnsConfig add; Patch encodes the add first.
   */
  lemma OverwriteSortsDnsConfigFirst(m: PodMutation, original: Pod, lib: Library, ops: seq<Operation>)
    requires Diff(m, original, lib) == Ok([ReplaceDnsPolicy, AddDnsConfig])
    requires Diff(m, original, lib).Ok? ==>
      SortedByPath(ops) && multiset(ops) == multiset(Diff(m, original, lib).value)
    ensures ops == [AddDnsConfig, ReplaceDnsPolicy]
  {
    DnsConfigBeforeDnsPolicy();
    SortedPairOrder(AddDnsConfig, ReplaceDnsPolicy, ops);
  }

  /** Two operations whose paths are ordered come out of the sort in path order. */
  lemma SortedPairOrder(x: Operation, y: Operation, ops: seq<Operation>)
    requires PathLess(x.path, y.path)
    requires SortedByPath(ops)
    requires multiset(ops) == multiset([y, x])
    ensures ops == [x, y]
  {
    PathLessAsymmetric(x.path, y.path);
    PathLessIrreflexive(x.path);
    var want := [x, y];
    assert SortedByPath(want);
    assert UniquePaths(want);
    assert multiset(want) == multiset([y, x]);
    SortedPermutationUnique(want, ops);
  }

  /**
   * Running Patch twice on the same inputs gives the same operations
   * whenever no two different operations of the diff share a path.
   */
  lemma SortedPatchIsDeterministic(d: seq<Operation>, ops1: seq<Operation>, ops2: seq<Operation>)
    requires UniquePaths(d)
    requires SortedByPath(ops1) && multiset(ops1) == multiset(d)
    requires SortedByPath(ops2) && multiset(ops2) == multiset(d)
    ensures ops1 == ops2
  {
    assert forall o :: o in ops1 <==> o in multiset(d);
    SortedPermutationUnique(ops1, ops2);
  }

  // ---------------------------------------------------------------------
  // Ignore rules

  /** The ignore functions the program builds. */
  datatype IgnoreFunc =
    | IgnorePodsInHostNetwork
    | IgnorePodsWithAnnotation(key: string, value: string)
    | IgnorePodsWithoutAnnotation(key: string, value: string)

  /** Whether an ignore function exempts a pod from mutation. */
  function Ignore(f: IgnoreFunc, p: Pod): (ignored: bool)
    ensures f.IgnorePodsInHostNetwork? ==> (ignored <==> p.spec.hostNetwork)
    ensures f.IgnorePodsWithAnnotation? ==>
      (ignored <==>
        || (f.key in p.meta.annotations && p.meta.annotations[f.key] == f.value)
        || (f.key !in p.meta.annotations && f.value == ""))
    ensures f.IgnorePodsWithoutAnnotation? ==>
      (ignored <==>
        && (f.key in p.meta.annotations ==> p.meta.annotations[f.key] != f.value)
        && (f.key !in p.meta.annotations ==> f.value != ""))
  {
    match f
    case IgnorePodsInHostNetwork => p.spec.hostNetwork
    case IgnorePodsWithAnnotation(k, v) => GetAnnotation(p, k) == v
    case IgnorePodsWithoutAnnotation(k, v) => GetAnnotation(p, k) != v
  }

  /** The first ignore function, in list order, that exempts the pod. */
  function FirstMatch(ignore: seq<IgnoreFunc>, p: Pod): (k: Option<nat>)
    ensures k.Some? ==>
      && k.value < |ignore|
      && Ignore(ignore[k.value], p)
      && forall j :: 0 <= j < k.value ==> !Ignore(ignore[j], p)
    ensures k.None? ==> forall j :: 0 <= j < |ignore| ==> !Ignore(ignore[j], p)
  {
    if ignore == [] then None
    else if Ignore(ignore[0], p) then Some(0)
    else match FirstMatch(ignore[1..], p)
      case None => None
      case Some(k) => Some(k + 1)
  }

  /** Ignore functions after the first match are never consulted. */
  lemma LaterIgnoreFuncsIrrelevant(ignore: seq<IgnoreFunc>, rest: seq<IgnoreFunc>, p: Pod)
    requires FirstMatch(ignore, p).Some?
    ensures FirstMatch(ignore + rest, p) == FirstMatch(ignore, p)
  {
    var k := FirstMatch(ignore, p).value;
    assert (ignore + rest)[k] == ignore[k];
    assert forall j :: 0 <= j < k ==> (ignore + rest)[j] == ignore[j];
  }

  // ---------------------------------------------------------------------
  // Configuration

  /** A logger handle; what is logged is not modelled. */
  datatype Logger = NopLogger | ProvidedLogger(id: nat)

  datatype PodMutatorOption = WithLogger(l: Logger) | WithIgnoreFuncs(fns: seq<IgnoreFunc>)

  /** The configurable fields of a PodMutator. */
  datatype Settings = Settings(logger: Logger, ignore: seq<IgnoreFunc>)

  function ApplyOption(s: Settings, o: PodMutatorOption): Settings {
    match o
    case WithLogger(l) => s.(logger := l)
    case WithIgnoreFuncs(fns) => s.(ignore := fns)
  }

  /** The settings after applying the options in order to the defaults. */
  function Configure(mo: seq<PodMutatorOption>): Settings
    decreases |mo|
  {
    if mo == [] then Settings(NopLogger, [])
    else ApplyOption(Configure(mo[..|mo| - 1]), mo[|mo| - 1])
  }

  /** The last WithIgnoreFuncs option decides the ignore functions. */
  lemma {:induction false} LastIgnoreFuncsWins(mo: seq<PodMutatorOption>, k: nat)
    requires k < |mo| && mo[k].WithIgnoreFuncs?
    requires forall j :: k < j < |mo| ==> mo[j].WithLogger?
    ensures Configure(mo).ignore == mo[k].fns
  {
    if k < |mo| - 1 {
      var init := mo[..|mo| - 1];
      assert init[k] == mo[k];
      assert forall j :: k < j < |init| ==> init[j] == mo[j];
      LastIgnoreFuncsWins(init, k);
    }
  }

  /** Without a WithIgnoreFuncs option no pod is ignored. */
  lemma {:induction false} NoIgnoreFuncsByDefault(mo: seq<PodMutatorOption>)
    requires forall j :: 0 <= j < |mo| ==> mo[j].WithLogger?
    ensures Configure(mo).ignore == []
  {
    if mo != [] {
      var init := mo[..|mo| - 1];
      assert forall j :: 0 <= j < |init| ==> init[j] == mo[j];
      NoIgnoreFuncsByDefault(init);
    }
  }

  /** The last WithLogger option decides the logger. */
  lemma {:induction false} LastLoggerWins(mo: seq<PodMutatorOption>, k: nat)
    requires k < |mo| && mo[k].WithLogger?
    requires forall j :: k < j < |mo| ==> mo[j].WithIgnoreFuncs?
    ensures Configure(mo).logger == mo[k].l
  {
    if k < |mo| - 1 {
      var init := mo[..|mo| - 1];
      assert init[k] == mo[k];
      assert forall j :: k < j < |init| ==> init[j] == mo[j];
      LastLoggerWins(init, k);
    }
  }

  /** Without a WithLogger option the logger is the no-op logger. */
  lemma {:induction false} NopLoggerByDefault(mo: seq<PodMutatorOption>)
    requires forall j :: 0 <= j < |mo| ==> mo[j].WithIgnoreFuncs?
    ensures Configure(mo).logger == NopLogger
  {
    if mo != [] {
      var init := mo[..|mo| - 1];
      assert forall j :: 0 <= j < |init| ==> init[j] == mo[j];
      NopLoggerByDefault(init);
    }
  }

  // ---------------------------------------------------------------------
  // Review

  /** A failure response carrying only a failure status. */
  function AdmissionError(message: string, reason: StatusReason): (r: AdmissionResponse)
    ensures IsRejected(r)
    ensures r.result.value.reason == reason && r.result.value.message == message
  {
    AdmissionResponse("", false, Some(Status(StatusFailure, reason, message)), [], None)
  }

  /** The Patcher interface: a patch for a pod, or an error. */
  type Patcher = Pod -> Result<Bytes>

  /**
   * What one review decides: the response, the result tag it records and
   * the pod handed to the Patcher (None when the Patcher is not called).
   */
  datatype Verdict = Verdict(response: AdmissionResponse, result: ResultTag, patched: Option<Pod>)

  /**
   * The review of one request: resource check, decode, ignore functions in
   * order, then the Patcher; the first exit taken decides the verdict.
   */
  function Decide(ignore: seq<IgnoreFunc>, p: Patcher, decode: Decoder<Pod>, ar: AdmissionRequest): (v: Verdict)
    ensures v.patched.Some? <==>
      && ar.resource == ResourcePod
      && decode(ar.raw).Ok?
      && FirstMatch(ignore, decode(ar.raw).value).None?
    ensures v.patched.Some? ==> v.patched.value == decode(ar.raw).value
    ensures v.result == TagError <==> IsRejected(v.response)
    ensures v.result == TagIgnored <==> IsAllowedUnmodified(v.response)
    ensures v.result == TagMutated <==> IsAllowedWithPatch(v.response)
  {
    if ar.resource != ResourcePod then
      Verdict(AdmissionError(NonPodMessage, ReasonInvalid), TagError, None)
    else match decode(ar.raw)
      case Err(e) =>
        Verdict(AdmissionError(Wrap(DecodeFailedMessage, e), ReasonInvalid), TagError, None)
      case Ok(pod) =>
        if FirstMatch(ignore, pod).Some? then
          Verdict(AllowedOnly, TagIgnored, None)
        else match p(pod)
          case Err(e) =>
            Verdict(AdmissionError(Wrap(PatchFailedMessage, e), ReasonInternalError), TagError, Some(pod))
          case Ok(patch) =>
            Verdict(AdmissionResponse(ar.uid, true, None, patch, Some(JSONPatch)), TagMutated, Some(pod))
  }

  lemma NonPodResourceRejected(ignore: seq<IgnoreFunc>, p: Patcher, decode: Decoder<Pod>, ar: AdmissionRequest)
    requires ar.resource != GroupVersionResource("", "v1", "pods")
    ensures var v := Decide(ignore, p, decode, ar);
      && v.response.result == Some(Status("Failure", ReasonInvalid, "cannot review non-pod resource"))
      && !v.response.allowed
      && v.result == TagError
      && v.patched == None
  {
  }

  lemma UndecodablePodRejected(ignore: seq<IgnoreFunc>, p: Patcher, decode: Decoder<Pod>, ar: AdmissionRequest)
    requires ar.resource == ResourcePod && decode(ar.raw).Err?
    ensures var v := Decide(ignore, p, decode, ar);
      && v.response.result ==
         Some(Status("Failure", ReasonInvalid, Wrap("cannot decode object as a pod", decode(ar.raw).error)))
      && !v.response.allowed
      && v.result == TagError
      && v.patched == None
  {
  }

  /** The first matching ignore function admits the pod unmodified, whatever follows it. */
  lemma IgnoredPodAllowedUnmodified(
    ignore: seq<IgnoreFunc>, rest: seq<IgnoreFunc>, p: Patcher, decode: Decoder<Pod>, ar: AdmissionRequest, k: nat)
    requires ar.resource == ResourcePod && decode(ar.raw).Ok?
    requires k < |ignore| && Ignore(ignore[k], decode(ar.raw).value)
    ensures var v := Decide(ignore + rest, p, decode, ar);
      && v.response == AdmissionResponse("", true, None, [], None)
      && v.result == TagIgnored
      && v.patched == None
  {
    var pod := decode(ar.raw).value;
    assert FirstMatch(ignore, pod).Some?;
    LaterIgnoreFuncsIrrelevant(ignore, rest, pod);
  }

  lemma PatchFailureIsInternalError(ignore: seq<IgnoreFunc>, p: Patcher, decode: Decoder<Pod>, ar: AdmissionRequest)
    requires ar.resource == ResourcePod && decode(ar.raw).Ok?
    requires FirstMatch(ignore, decode(ar.raw).value).None?
    requires p(decode(ar.raw).value).Err?
    ensures var v := Decide(ignore, p, decode, ar);
      && v.response.result ==
         Some(Status("Failure", ReasonInternalError, Wrap("cannot patch pod", p(decode(ar.raw).value).error)))
      && !v.response.allowed
      && v.result == TagError
  {
  }

  lemma PatchedPodAllowedWithPatch(ignore: seq<IgnoreFunc>, p: Patcher, decode: Decoder<Pod>, ar: AdmissionRequest)
    requires ar.resource == ResourcePod && decode(ar.raw).Ok?
    requires FirstMatch(ignore, decode(ar.raw).value).None?
    requires p(decode(ar.raw).value).Ok?
    ensures var v := Decide(ignore, p, decode, ar);
      && v.response.allowed
      && v.response.uid == ar.uid
      && v.response.patch == p(decode(ar.raw).value).value
      && v.response.patchType == Some(JSONPatch)
      && v.response.result == None
      && v.result == TagMutated
  {
  }

  /** When the review exits before the Patcher, the Patcher has no influence on it. */
  lemma PatcherNotConsultedBeforeChecksPass(
    ignore: seq<IgnoreFunc>, p: Patcher, q: Patcher, decode: Decoder<Pod>, ar: AdmissionRequest)
    requires Decide(ignore, p, decode, ar).patched.None?
    ensures Decide(ignore, p, decode, ar) == Decide(ignore, q, decode, ar)
  {
  }

  /** Reviews pod admission requests and patches pods through a Patcher. */
  class PodMutator {
    var l: Logger
    var p: Patcher
    var ignore: seq<IgnoreFunc>

    /** The pods-reviewed records, in the order they were made. */
    ghost var reviewed: seq<Measurement>
    /** The pods handed to the Patcher, in order. */
    ghost var patched: seq<Pod>

    /** NewPodMutator: the no-op logger and no ignore functions, then each option in order. */
    constructor (p: Patcher, mo: seq<PodMutatorOption>)
      ensures this.p == p
      ensures Settings(l, ignore) == Configure(mo)
      ensures reviewed == [] && patched == []
    {
      this.p := p;
      l := NopLogger;
      ignore := [];
      reviewed := [];
      patched := [];
      new;
      for i := 0 to |mo|
        invariant this.p == p
        invariant Settings(l, ignore) == Configure(mo[..i])
        invariant reviewed == [] && patched == []
      {
        Apply(mo[i]);
        assert mo[..i + 1][..i] == mo[..i];
      }
      assert mo[..|mo|] == mo;
    }

    /** One option applied to this mutator. */
    method Apply(o: PodMutatorOption)
      modifies this`l, this`ignore
      ensures Settings(l, ignore) == ApplyOption(old(Settings(l, ignore)), o)
    {
      match o
      case WithLogger(lg) =>
        l := lg;
      case WithIgnoreFuncs(fns) =>
        ignore := fns;
    }

    /**
     * Review one admission request: the response is the one Decide gives;
     * exactly one pods-reviewed record is made, tagged with the exit taken;
     * the Patcher is called only after every check has passed.
     */
    method Review(ar: AdmissionRequest, decode: Decoder<Pod>) returns (rsp: AdmissionResponse)
      modifies this`reviewed, this`patched
      ensures var v := Decide(ignore, p, decode, ar);
        && rsp == v.response
        && reviewed == old(reviewed) + [Measurement(ar.kind, ar.namespace, ar.name, v.result)]
        && patched == old(patched) + (if v.patched.Some? then [v.patched.value] else [])
    {
      if ar.resource != ResourcePod {
        reviewed := reviewed + [Measurement(ar.kind, ar.namespace, ar.name, TagError)];
        return AdmissionError(NonPodMessage, ReasonInvalid);
      }

      var decoded := decode(ar.raw);
      if decoded.Err? {
        reviewed := reviewed + [Measurement(ar.kind, ar.namespace, ar.name, TagError)];
        return AdmissionError(Wrap(DecodeFailedMessage, decoded.error), ReasonInvalid);
      }
      var pod := decoded.value;

      for i := 0 to |ignore|
        invariant forall j :: 0 <= j < i ==> !Ignore(ignore[j], pod)
      {
        if Ignore(ignore[i], pod) {
          reviewed := reviewed + [Measurement(ar.kind, ar.namespace, ar.name, TagIgnored)];
          return AllowedOnly;
        }
      }

      patched := patched + [pod];
      var patch := p(pod);
      if patch.Err? {
        reviewed := reviewed + [Measurement(ar.kind, ar.namespace, ar.name, TagError)];
        return AdmissionError(Wrap(PatchFailedMessage, patch.error), ReasonInternalError);
      }

      reviewed := reviewed + [Measurement(ar.kind, ar.namespace, ar.name, TagMutated)];
      return AdmissionResponse(ar.uid, true, None, patch.value, Some(JSONPatch));
    }
  }
}
