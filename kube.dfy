/**
 * The slice of the Kubernetes API that the admission webhook reads and
 * writes: a simplified pod, the admission request/response/review envelope,
 * the status object carried by a rejection, and the error-message format of
 * the errors package the webhook wraps its failures with.
 */
module Kube {

  /** Raw bytes, as carried in request bodies, raw objects and patches. */
  type Bytes = seq<bv8>

  datatype Option<+T> = None | Some(value: T)

  /** The (value, error) pair of a Go call; an error is its message. */
  datatype Result<+T> = Ok(value: T) | Err(error: string)

  /**
   * The message of an error wrapped with a context message: the context,
   * a colon and a space, then the cause.
   */
  function Wrap(context: string, cause: string): (msg: string)
    ensures |msg| == |context| + 2 + |cause|
    ensures msg[..|context|] == context
    ensures msg[|context|..|context| + 2] == ": "
    ensures msg[|context| + 2..] == cause
  {
    context + ": " + cause
  }

  datatype GroupVersionResource = GroupVersionResource(group: string, version: string, resource: string)
  datatype GroupVersionKind = GroupVersionKind(group: string, version: string, kind: string)

  datatype TypeMeta = TypeMeta(kind: string, apiVersion: string)

  datatype ObjectMeta = ObjectMeta(
    name: string,
    namespace: string,
    labels: map<string, string>,
    annotations: map<string, string>)

  datatype Container = Container(name: string, image: string, command: seq<string>, args: seq<string>)

  datatype PodDNSConfig = PodDNSConfig(nameservers: seq<string>)

  datatype PodSpec = PodSpec(
    hostNetwork: bool,
    dnsPolicy: string,
    dnsConfig: Option<PodDNSConfig>,
    containers: seq<Container>)

  datatype PodStatus = PodStatus(phase: string)

  datatype Pod = Pod(typeMeta: TypeMeta, meta: ObjectMeta, spec: PodSpec, status: PodStatus)

  /**
   * The value of annotation `key` on a pod. Indexing a Go map with a missing
   * key yields the zero value, so a missing annotation reads as "".
   */
  function GetAnnotation(p: Pod, key: string): (v: string)
    ensures key in p.meta.annotations ==> v == p.meta.annotations[key]
    ensures key !in p.meta.annotations ==> v == ""
  {
    if key in p.meta.annotations then p.meta.annotations[key] else ""
  }

  datatype StatusReason = ReasonInvalid | ReasonInternalError

  const StatusFailure := "Failure"

  datatype Status = Status(status: string, reason: StatusReason, message: string)

  datatype PatchType = JSONPatch

  datatype AdmissionRequest = AdmissionRequest(
    uid: string,
    kind: GroupVersionKind,
    resource: GroupVersionResource,
    name: string,
    namespace: string,
    raw: Bytes)

  /** An empty `patch` stands for the absent (nil) patch. */
  datatype AdmissionResponse = AdmissionResponse(
    uid: string,
    allowed: bool,
    result: Option<Status>,
    patch: Bytes,
    patchType: Option<PatchType>)

  datatype AdmissionReview = AdmissionReview(
    request: Option<AdmissionRequest>,
    response: Option<AdmissionResponse>)

  /** The response `{Allowed: true}`: every other field at its zero value. */
  const AllowedOnly := AdmissionResponse("", true, None, [], None)

  /** A rejection: only `Result` is set, to a failure status. */
  predicate IsRejected(r: AdmissionResponse) {
    && !r.allowed
    && r.result.Some?
    && r.result.value.status == StatusFailure
    && r.uid == ""
    && r.patch == []
    && r.patchType == None
  }

  /** The pod is admitted as it is. */
  predicate IsAllowedUnmodified(r: AdmissionResponse) {
    r == AllowedOnly
  }

  /** The pod is admitted with a JSON patch. */
  predicate IsAllowedWithPatch(r: AdmissionResponse) {
    r.allowed && r.result == None && r.patchType == Some(JSONPatch)
  }
}
