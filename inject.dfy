/**
 * The earlier revision of the pod review pipeline: a PodInjection and the
 * PodInjector. It differs from the mutator in four ways: the patch keeps
 * the diff's own order, the non-pod rejection has its own message, no
 * pods-reviewed record is made, and a successful response carries no UID.
 */
module Inject {
  import opened Kube
  import opened JsonPatch
  import opened External

  const ResourcePod := GroupVersionResource("", "v1", "pods")

  const NonPodMessage := "not reviewing unexpected non-pod resource"
  const DecodeFailedMessage := "cannot decode object as a pod"
  const PatchFailedMessage := "cannot patch pod"

  const MetadataMergeFailed := "cannot inject pod metadata"
  const SpecMergeFailed := "cannot inject pod spec"
  const EncodeOriginalFailed := "cannot encode original pod as JSON"
  const EncodePatchedFailed := "cannot encode patched pod as JSON"
  const CreatePatchFailed := "cannot create patch"
  const MarshalFailed := "cannot encode patch as JSON"

  // ---------------------------------------------------------------------
  // PodInjection and Patch

  datatype InjectionStrategy = InjectionStrategy(overwrite: bool, append: bool)

  /** What is injected: metadata and a pod spec, merged under a strategy. */
  datatype PodInjection = PodInjection(meta: ObjectMeta, spec: PodSpec, strategy: InjectionStrategy)

  function MergeOptions(s: InjectionStrategy): (mo: seq<MergeOption>)
    ensures WithOverride in mo <==> s.overwrite
    ensures WithAppendSlice in mo <==> s.append
    ensures |mo| == (if s.overwrite then 1 else 0) + (if s.append then 1 else 0)
    ensures s.overwrite ==> mo[0] == WithOverride
  {
    (if s.overwrite then [WithOverride] else []) + (if s.append then [WithAppendSlice] else [])
  }

  /** The pod after merging the injection into a copy of `original`: metadata, then spec. */
  function Merged(s: PodInjection, original: Pod, lib: Library): (r: Result<Pod>)
    ensures var mo := MergeOptions(s.strategy);
      var meta := lib.mergeMeta(original.meta, s.meta, mo);
      var spec := lib.mergeSpec(original.spec, s.spec, mo);
      && (r.Err? <==> meta.Err? || spec.Err?)
      && (meta.Err? ==> r == Err(Wrap("cannot inject pod metadata", meta.error)))
      && (meta.Ok? && spec.Err? ==> r == Err(Wrap("cannot inject pod spec", spec.error)))
      && (r.Ok? ==>
            && r.value.meta == meta.value
            && r.value.spec == spec.value
            && r.value.typeMeta == original.typeMeta
            && r.value.status == original.status)
  {
    var mo := MergeOptions(s.strategy);
    match lib.mergeMeta(original.meta, s.meta, mo)
    case Err(e) => Err(Wrap(MetadataMergeFailed, e))
    case Ok(meta) =>
      match lib.mergeSpec(original.spec, s.spec, mo)
      case Err(e) => Err(Wrap(SpecMergeFailed, e))
      case Ok(spec) => Ok(original.(meta := meta, spec := spec))
  }

  /** The operations from the encoded original to the encoded merged pod, or the first error. */
  function Diff(s: PodInjection, original: Pod, lib: Library): (r: Result<seq<Operation>>)
  {
    match Merged(s, original, lib)
    case Err(e) => Err(e)
    case Ok(injected) =>
      match lib.encode(original)
      case Err(e) => Err(Wrap(EncodeOriginalFailed, e))
      case Ok(ob) =>
        match lib.encode(injected)
        case Err(e) => Err(Wrap(EncodePatchedFailed, e))
        case Ok(pb) =>
          match lib.createPatch(ob, pb)
          case Err(e) => Err(Wrap(CreatePatchFailed, e))
          case Ok(ops) => Ok(ops)
  }

  /**
   * PodInjection.Patch: merge into a deep copy, diff the original against
   * it and encode the operations in the order the diff produced them.
   */
  method Patch(s: PodInjection, original: Pod, lib: Library) returns (r: Result<Bytes>)
    ensures Diff(s, original, lib).Err? ==> r == Err(Diff(s, original, lib).error)
    ensures Diff(s, original, lib).Ok? ==>
      r == match lib.marshal(Diff(s, original, lib).value)
           case Err(e) => Err(Wrap("cannot encode patch as JSON", e))
           case Ok(b) => Ok(b)
  {
    var injected := original;

    var mo: seq<MergeOption> := [];
    if s.strategy.overwrite {
      mo := mo + [WithOverride];
    }
    if s.strategy.append {
      mo := mo + [WithAppendSlice];
    }
    assert mo == MergeOptions(s.strategy);

    var meta := lib.mergeMeta(injected.meta, s.meta, mo);
    if meta.Err? {
      return Err(Wrap(MetadataMergeFailed, meta.error));
    }
    injected := injected.(meta := meta.value);
    var spec := lib.mergeSpec(injected.spec, s.spec, mo);
    if spec.Err? {
      return Err(Wrap(SpecMergeFailed, spec.error));
    }
    injected := injected.(spec := spec.value);
    assert Merged(s, original, lib) == Ok(injected);

    var ob := lib.encode(original);
    if ob.Err? {
      return Err(Wrap(EncodeOriginalFailed, ob.error));
    }
    var pb := lib.encode(injected);
    if pb.Err? {
      return Err(Wrap(EncodePatchedFailed, pb.error));
    }
    var patch := lib.createPatch(ob.value, pb.value);
    if patch.Err? {
      return Err(Wrap(CreatePatchFailed, patch.error));
    }
    var b := lib.marshal(patch.value);
    if b.Err? {
      return Err(Wrap(MarshalFailed, b.error));
    }
    return Ok(b.value);
  }

  /** A failed metadata merge decides the outcome before the spec merge runs. */
  lemma MetadataMergeFailureIsFinal(s: PodInjection, original: Pod, lib: Library, other: Library)
    requires lib.mergeMeta(original.meta, s.meta, MergeOptions(s.strategy)).Err?
    requires other.mergeMeta == lib.mergeMeta
    ensures Diff(s, original, lib) == Diff(s, original, other)
    ensures Diff(s, original, lib) ==
      Err(Wrap("cannot inject pod metadata", lib.mergeMeta(original.meta, s.meta, MergeOptions(s.strategy)).error))
  {
  }

  /**
   * The overwrite test's patch, in the diff's order (the dnsPolicy replace
   * first), is not ordered by path: this revision does not sort.
   */
  lemma OverwritePatchIsNotPathSorted()
    ensures !SortedByPath([ReplaceDnsPolicy, AddDnsConfig])
  {
    DnsConfigBeforeDnsPolicy();
    var s := [ReplaceDnsPolicy, AddDnsConfig];
    assert s[0] == ReplaceDnsPolicy && s[1] == AddDnsConfig;
    assert !PathLeq(s[0], s[1]);
  }

  // ---------------------------------------------------------------------
  // Ignore rules

  datatype IgnoreFunc =
    | IgnorePodsInHostNetwork
    | IgnorePodsWithAnnotation(key: string, value: string)

  function Ignore(f: IgnoreFunc, p: Pod): (ignored: bool)
    ensures f.IgnorePodsInHostNetwork? ==> (ignored <==> p.spec.hostNetwork)
    ensures f.IgnorePodsWithAnnotation? ==>
      (ignored <==>
        || (f.key in p.meta.annotations && p.meta.annotations[f.key] == f.value)
        || (f.key !in p.meta.annotations && f.value == ""))
  {
    match f
    case IgnorePodsInHostNetwork => p.spec.hostNetwork
    case IgnorePodsWithAnnotation(k, v) => GetAnnotation(p, k) == v
  }

  function FirstMatch(ignore: seq<IgnoreFunc>, p: Pod): (k: Option<nat>)
    ensures k.Some? ==>
      && k.value < |ignore|
      && Ignore(ignore[k.value], p)
      && forall j :: 0 <= j < k.value ==> !Ignore(ignore[j], p)
    ensures k.None? ==> forall j :: 0 <= j < |ignore| ==> !Ignore(ignore[j], p)
  {
    if ignore == [] then None
    else if Ignore(ignore[0], p) then Some(0)
    else match FirstMatch(ignore[1..], p)
      case None => None
      case Some(k) => Some(k + 1)
  }

  // ---------------------------------------------------------------------
  // Configuration

  datatype Logger = NopLogger | ProvidedLogger(id: nat)

  datatype PodInjectorOption = WithLogger(l: Logger) | WithIgnoreFuncs(fns: seq<IgnoreFunc>)

  datatype Settings = Settings(logger: Logger, ignore: seq<IgnoreFunc>)

  function ApplyOption(s: Settings, o: PodInjectorOption): Settings {
    match o
    case WithLogger(l) => s.(logger := l)
    case WithIgnoreFuncs(fns) => s.(ignore := fns)
  }

  function Configure(io: seq<PodInjectorOption>): Settings
    decreases |io|
  {
    if io == [] then Settings(NopLogger, [])
    else ApplyOption(Configure(io[..|io| - 1]), io[|io| - 1])
  }

  // ---------------------------------------------------------------------
  // Review

  function AdmissionError(message: string, reason: StatusReason): (r: AdmissionResponse)
    ensures IsRejected(r)
    ensures r.result.value.reason == reason && r.result.value.message == message
  {
    AdmissionResponse("", false, Some(Status(StatusFailure, reason, message)), [], None)
  }

  type Patcher = Pod -> Result<Bytes>

  /** The response of one review and the pod handed to the Patcher, if any. */
  datatype Verdict = Verdict(response: AdmissionResponse, patched: Option<Pod>)

  function Decide(ignore: seq<IgnoreFunc>, p: Patcher, decode: Decoder<Pod>, ar: AdmissionRequest): (v: Verdict)
    ensures v.patched.Some? <==>
      && ar.resource == ResourcePod
      && decode(ar.raw).Ok?
      && FirstMatch(ignore, decode(ar.raw).value).None?
    ensures v.patched.Some? ==> v.patched.value == decode(ar.raw).value
    ensures IsRejected(v.response) || IsAllowedUnmodified(v.response) || IsAllowedWithPatch(v.response)
    ensures v.response.uid == ""
  {
    if ar.resource != ResourcePod then
      Verdict(AdmissionError(NonPodMessage, ReasonInvalid), None)
    else match decode(ar.raw)
      case Err(e) =>
        Verdict(AdmissionError(Wrap(DecodeFailedMessage, e), ReasonInvalid), None)
      case Ok(pod) =>
        if FirstMatch(ignore, pod).Some? then
          Verdict(AllowedOnly, None)
        else match p(pod)
          case Err(e) =>
            Verdict(AdmissionError(Wrap(PatchFailedMessage, e), ReasonInternalError), Some(pod))
          case Ok(patch) =>
            Verdict(AdmissionResponse("", true, None, patch, Some(JSONPatch)), Some(pod))
  }

  lemma NonPodResourceRejected(ignore: seq<IgnoreFunc>, p: Patcher, decode: Decoder<Pod>, ar: AdmissionRequest)
    requires ar.resource != GroupVersionResource("", "v1", "pods")
    ensures var v := Decide(ignore, p, decode, ar);
      && v.response.result == Some(Status("Failure", ReasonInvalid, "not reviewing unexpected non-pod resource"))
      && !v.response.allowed
      && v.patched == None
  {
  }

  lemma UndecodablePodRejected(ignore: seq<IgnoreFunc>, p: Patcher, decode: Decoder<Pod>, ar: AdmissionRequest)
    requires ar.resource == ResourcePod && decode(ar.raw).Err?
    ensures var v := Decide(ignore, p, decode, ar);
      && v.response.result ==
         Some(Status("Failure", ReasonInvalid, Wrap("cannot decode object as a pod", decode(ar.raw).error)))
      && !v.response.allowed
      && v.patched == None
  {
  }

  /** The first matching ignore function admits the pod unmodified; the Patcher is not called. */
  lemma IgnoredPodAllowedUnmodified(
    ignore: seq<IgnoreFunc>, p: Patcher, decode: Decoder<Pod>, ar: AdmissionRequest, k: nat)
    requires ar.resource == ResourcePod && decode(ar.raw).Ok?
    requires k < |ignore| && Ignore(ignore[k], decode(ar.raw).value)
    ensures var v := Decide(ignore, p, decode, ar);
      && v.response == AdmissionResponse("", true, None, [], None)
      && v.patched == None
  {
  }

  lemma PatchFailureIsInternalError(ignore: seq<IgnoreFunc>, p: Patcher, decode: Decoder<Pod>, ar: AdmissionRequest)
    requires ar.resource == ResourcePod && decode(ar.raw).Ok?
    requires FirstMatch(ignore, decode(ar.raw).value).None?
    requires p(decode(ar.raw).value).Err?
    ensures var v := Decide(ignore, p, decode, ar);
      && v.response.result ==
         Some(Status("Failure", ReasonInternalError, Wrap("cannot patch pod", p(decode(ar.raw).value).error)))
      && !v.response.allowed
  {
  }

  /** A patched pod is allowed with the Patcher's bytes; the request UID is not copied. */
  lemma PatchedPodAllowedWithPatch(ignore: seq<IgnoreFunc>, p: Patcher, decode: Decoder<Pod>, ar: AdmissionRequest)
    requires ar.resource == ResourcePod && decode(ar.raw).Ok?
    requires FirstMatch(ignore, decode(ar.raw).value).None?
    requires p(decode(ar.raw).value).Ok?
    ensures var v := Decide(ignore, p, decode, ar);
      && v.response.allowed
      && v.response.uid == ""
      && v.response.patch == p(decode(ar.raw).value).value
      && v.response.patchType == Some(JSONPatch)
      && v.response.result == None
  {
  }

  /** Approves and patches pod admission requests. */
  class PodInjector {
    var l: Logger
    var p: Patcher
    var ignore: seq<IgnoreFunc>

    /** The pods handed to the Patcher, in order. */
    ghost var patched: seq<Pod>

    /** NewPodInjector: the no-op logger and no ignore functions, then each option in order. */
    constructor (p: Patcher, io: seq<PodInjectorOption>)
      ensures this.p == p
      ensures Settings(l, ignore) == Configure(io)
      ensures patched == []
    {
      this.p := p;
      l := NopLogger;
      ignore := [];
      patched := [];
      new;
      for i := 0 to |io|
        invariant this.p == p
        invariant Settings(l, ignore) == Configure(io[..i])
        invariant patched == []
      {
        Apply(io[i]);
        assert io[..i + 1][..i] == io[..i];
      }
      assert io[..|io|] == io;
    }

    method Apply(o: PodInjectorOption)
      modifies this`l, this`ignore
      ensures Settings(l, ignore) == ApplyOption(old(Settings(l, ignore)), o)
    {
      match o
      case WithLogger(lg) =>
        l := lg;
      case WithIgnoreFuncs(fns) =>
        ignore := fns;
    }

    /** Review one admission request; the Patcher is called only after every check passed. */
    method Review(ar: AdmissionRequest, decode: Decoder<Pod>) returns (rsp: AdmissionResponse)
      modifies this`patched
      ensures var v := Decide(ignore, p, decode, ar);
        && rsp == v.response
        && patched == old(patched) + (if v.patched.Some? then [v.patched.value] else [])
    {
      if ar.resource != ResourcePod {
        return AdmissionError(NonPodMessage, ReasonInvalid);
      }

      var decoded := decode(ar.raw);
      if decoded.Err? {
        return AdmissionError(Wrap(DecodeFailedMessage, decoded.error), ReasonInvalid);
      }
      var pod := decoded.value;

      for i := 0 to |ignore|
        invariant forall j :: 0 <= j < i ==> !Ignore(ignore[j], pod)
      {
        if Ignore(ignore[i], pod) {
          return AllowedOnly;
        }
      }

      patched := patched + [pod];
      var patch := p(pod);
      if patch.Err? {
        return AdmissionError(Wrap(PatchFailedMessage, patch.error), ReasonInternalError);
      }

      return AdmissionResponse("", true, None, patch.value, Some(JSONPatch));
    }
  }
}
