/**
 * The foreign code the mutation engine depends on, seen only at its
 * interface: the deep-merge library's options and merge calls, the pod
 * serializer, and the JSON Patch library's diff and encoder. Each is a
 * function value supplied by the caller; none of their internals is modelled.
 */
module External {
  import opened Kube
  import opened JsonPatch

  /** Options of the deep-merge call: let the template overwrite set fields, append to slices. */
  datatype MergeOption = WithOverride | WithAppendSlice

  datatype Library = Library(
    /** Merge a metadata template into metadata. */
    mergeMeta: (ObjectMeta, ObjectMeta, seq<MergeOption>) -> Result<ObjectMeta>,
    /** Merge a pod-spec template into a pod spec. */
    mergeSpec: (PodSpec, PodSpec, seq<MergeOption>) -> Result<PodSpec>,
    /** Encode a pod as JSON. */
    encode: Pod -> Result<Bytes>,
    /** Diff two JSON documents into RFC 6902 operations. */
    createPatch: (Bytes, Bytes) -> Result<seq<Operation>>,
    /** Encode operations as a JSON array. */
    marshal: seq<Operation> -> Result<Bytes>)

  /** Decoding raw bytes with the Kubernetes serializer. */
  type Decoder<T> = Bytes -> Result<T>
}
