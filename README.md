# Legion's pod admission webhook, modelled in Dafny

Legion is a Kubernetes mutating admission webhook. The API server posts an
`AdmissionReview` for every pod created. Legion answers in one of three ways:

- it rejects the request;
- it admits the pod unchanged;
- it admits the pod with an RFC 6902 JSON patch.

The patch is computed from a `PodMutation`: a metadata template and a pod-spec
template, merged into a copy of the pod under a strategy (`overwrite`,
`append`). The patch is then the diff from the original pod to the merged
copy, with its operations sorted by path. Before patching, a `PodMutator`
checks three things in order: the resource is `v1/pods`, the raw object
decodes as a pod, and none of its ignore functions exempts the pod. Each
review records one "pods reviewed" measurement, tagged `mutated`, `ignored`
or `error`. The HTTP handler `AdmissionReviewWebhook` reads the body,
decodes the review and passes its request to the reviewer. Any failure on
the way is answered with `400 Bad Request`.

The earlier revision of the engine, `PodInjection`/`PodInjector`
(`inject.go`), is modelled in its own module. It differs from the current one
in four ways:

- it does not sort the patch;
- it uses another message for non-pod resources;
- it records no measurement;
- it does not copy the request UID into a successful response.

Modules:

- `Kube` (kube.dfy): the pod, the admission envelope, the failure status, and
  the `errors.Wrap` message format.
- `JsonPatch` (jsonpatch.dfy): patch operations, Go's string order on paths,
  and the in-place sort by path, proved sorted and a permutation. It also
  proves that the sorted order is unique when no two different operations
  share a path.
- `External` (external.dfy): the foreign libraries the engine calls. These
  are the deep merge, the pod serializer, the JSON Patch diff and the JSON
  encoder, each a caller-supplied function value.
- `Mutate` (mutate.dfy): `PodMutation.Patch`, the ignore functions, the
  mutator options, and the `PodMutator` class with its `Review` method.
  `Decide` is the function that specifies `Review`.
- `Inject` (inject.dfy): the earlier revision, built the same way.
- `Webhook` (webhook.dfy): the handler as the function `Handle`, and `Serve`,
  the handler running with a `PodMutator` as its reviewer.

Two ghost logs on the classes stand for effects the source only performs:

- `reviewed`: the measurements recorded by `stats.Record`.
- `patched`: the pods handed to the Patcher.

## Model

| member | source | states |
|---|---|---|
| Kube.Wrap | internal/kubernetes/mutate.go:135-137 | a wrapped error's message is the context, then ": ", then the cause, and nothing else |
| Kube.GetAnnotation | internal/kubernetes/mutate.go:184 | reading a missing annotation gives "", the zero value of a Go map lookup; a present one gives its value |
| JsonPatch.PathLessIrreflexive | internal/kubernetes/mutate.go:154 | no path sorts before itself |
| JsonPatch.PathLessTransitive | internal/kubernetes/mutate.go:154 | the path order used by the sort is transitive |
| JsonPatch.PathLessTotal | internal/kubernetes/mutate.go:154 | of any two different paths, one sorts before the other |
| JsonPatch.PathLessAsymmetric | internal/kubernetes/mutate.go:154 | two paths are never each before the other |
| JsonPatch.PathLessAtFirstDifference | internal/kubernetes/mutate.go:154 | paths with a common prefix are ordered by the characters at the first position where they differ |
| JsonPatch.PathLeqTransitive | internal/kubernetes/mutate.go:154 | "not after" is transitive, so pairwise sortedness chains |
| JsonPatch.SortByPath | internal/kubernetes/mutate.go:154 | after the in-place sort, no operation's path is less than that of an earlier one, and the array holds the same multiset of operations |
| JsonPatch.SortedPermutationUnique | internal/kubernetes/mutate.go:154 | two sorted arrangements of the same operations are equal when no two different operations share a path |
| Mutate.MergeOptions | internal/kubernetes/mutate.go:128-134 | override is among the options iff Overwrite is set, and append-slice iff Append is set; there are no others, and override comes first |
| Mutate.Merged | internal/kubernetes/mutate.go:135-140 | merging fails iff the metadata merge or the spec merge fails; a failed metadata merge gives "cannot inject pod metadata: " plus its cause, and otherwise a failed spec merge gives "cannot inject pod spec: " plus its cause; on success the copy's metadata and spec are what the two merges returned, and its type metadata and status are the original's |
| Mutate.Patch | internal/kubernetes/mutate.go:124-160 | every failing step returns that step's wrapped error; on success the encoded operations are sorted by path and are a permutation of the diff from the original to the merged copy |
| Mutate.MetadataMergeFailureIsFinal | internal/kubernetes/mutate.go:135-137 | a failed metadata merge decides the result, "cannot inject pod metadata: " plus the cause, whatever the later steps would do |
| Mutate.SpecMergeFailureIsFinal | internal/kubernetes/mutate.go:138-140 | once metadata merges, a failed spec merge decides the result, "cannot inject pod spec: " plus the cause, whatever the later steps would do |
| Mutate.DiffRunsFromOriginalToMerged | internal/kubernetes/mutate.go:142-153 | the original is encoded first and the merged copy second, each failure with its own message; the diff runs from the original's encoding to the copy's |
| Mutate.NoOpMutationHasEmptyPatch | internal/kubernetes/mutate_test.go:59-64 | a template the merges leave without effect gives an empty diff, and the operations Patch encodes are then empty, given that the diff of a document with itself is empty |
| Mutate.AppendPatchIsSingleAdd | internal/kubernetes/mutate_test.go:77-94 | when the diff is the single container add at /spec/containers/1, the operations Patch encodes are exactly that add |
| Mutate.OverwriteSortsDnsConfigFirst | internal/kubernetes/mutate_test.go:95-110 | when the diff is the dnsPolicy replace followed by the dnsConfig add, Patch encodes the dnsConfig add first |
| Mutate.SortedPairOrder | internal/kubernetes/mutate.go:154 | any two operations with ordered paths come out of the sort in that order |
| JsonPatch.DnsConfigBeforeDnsPolicy | internal/kubernetes/mutate_test.go:109 | "/spec/dnsConfig" sorts before "/spec/dnsPolicy" |
| Mutate.SortedPatchIsDeterministic | internal/kubernetes/mutate.go:154 | when no two different operations of the diff share a path, every sorted arrangement of it is the same sequence, so Patch's output is determined |
| Mutate.Ignore | internal/kubernetes/mutate.go:172-194 | host-network pods are ignored iff hostNetwork is set; with-annotation ignores iff the annotation equals the value, a missing one counting as ""; without-annotation ignores exactly when with-annotation does not |
| Mutate.FirstMatch | internal/kubernetes/mutate.go:251-258 | the index found is that of the first ignore function that exempts the pod; none is found iff no function exempts it |
| Mutate.LaterIgnoreFuncsIrrelevant | internal/kubernetes/mutate.go:251-258 | ignore functions after the first match do not change the outcome |
| Mutate.LastIgnoreFuncsWins | internal/kubernetes/mutate.go:206-219 | options are applied in order, so the last WithIgnoreFuncs decides the ignore functions |
| Mutate.NoIgnoreFuncsByDefault | internal/kubernetes/mutate.go:214-219 | without a WithIgnoreFuncs option the mutator has no ignore functions |
| Mutate.LastLoggerWins | internal/kubernetes/mutate.go:199-219 | options are applied in order, so the last WithLogger decides the logger |
| Mutate.NopLoggerByDefault | internal/kubernetes/mutate.go:214-219 | without a WithLogger option the logger is the no-op logger |
| Mutate.AdmissionError | internal/kubernetes/mutate.go:280-288 | a rejection is not allowed and carries only a Failure status with the given reason and message: no UID and no patch |
| Mutate.Decide | internal/kubernetes/mutate.go:223-278 | the Patcher is called iff the resource is v1/pods, the object decodes and no ignore function matches, and it is called with the decoded pod; the error tag goes with a rejection, the ignored tag with a bare allow, and the mutated tag with an allow carrying a JSON patch |
| Mutate.NonPodResourceRejected | internal/kubernetes/mutate.go:234-240 | a non-pod resource is rejected as Invalid with "cannot review non-pod resource", tagged error, and the Patcher is not called |
| Mutate.UndecodablePodRejected | internal/kubernetes/mutate.go:242-249 | an undecodable object is rejected as Invalid with "cannot decode object as a pod: " plus the cause, tagged error |
| Mutate.IgnoredPodAllowedUnmodified | internal/kubernetes/mutate.go:251-258 | a pod that any ignore function matches is allowed with no other field set and tagged ignored, whatever ignore functions follow, and the Patcher is not called |
| Mutate.PatchFailureIsInternalError | internal/kubernetes/mutate.go:260-267 | a Patcher error is a rejection with reason InternalError and "cannot patch pod: " plus the cause, tagged error |
| Mutate.PatchedPodAllowedWithPatch | internal/kubernetes/mutate.go:269-277 | a patched pod is allowed with the request's UID, the Patcher's bytes and the JSONPatch type, with no status, tagged mutated |
| Mutate.PatcherNotConsultedBeforeChecksPass | internal/kubernetes/mutate.go:234-258 | when the review stops before the Patcher, replacing the Patcher changes nothing |
| Mutate.PodMutator.constructor | internal/kubernetes/mutate.go:213-220 | the new mutator keeps the Patcher, and its logger and ignore functions are the defaults with each option applied in order |
| Mutate.PodMutator.Apply | internal/kubernetes/mutate.go:196-211 | WithLogger sets only the logger and WithIgnoreFuncs sets only the ignore functions |
| Mutate.PodMutator.Review | internal/kubernetes/mutate.go:222-278 | the response is the one Decide gives; exactly one measurement is appended, with the request's kind, namespace and name and the verdict's tag; a pod is logged as patched iff the Patcher is called |
| Inject.MergeOptions | internal/kubernetes/inject.go:73-79 | override is among the options iff Overwrite is set, and append-slice iff Append is set; override comes first |
| Inject.Merged | internal/kubernetes/inject.go:80-85 | merging fails iff either merge fails; a failed metadata merge gives "cannot inject pod metadata: " plus its cause, and otherwise a failed spec merge gives "cannot inject pod spec: " plus its cause; on success the copy's metadata and spec are what the two merges returned, and its type metadata and status are kept |
| Inject.Patch | internal/kubernetes/inject.go:68-104 | every failing step returns its wrapped error; on success the bytes are the encoding of the diff's operations in the diff's own order, unsorted |
| Inject.MetadataMergeFailureIsFinal | internal/kubernetes/inject.go:80-82 | a failed metadata merge decides the result, "cannot inject pod metadata: " plus the cause |
| Inject.OverwritePatchIsNotPathSorted | internal/kubernetes/inject_test.go:88-97 | the overwrite test's patch, dnsPolicy replace before dnsConfig add, is not in path order |
| Inject.Ignore | internal/kubernetes/inject.go:121-135 | host-network pods are ignored iff hostNetwork is set; with-annotation ignores iff the annotation equals the value, a missing one counting as "" |
| Inject.FirstMatch | internal/kubernetes/inject.go:183-188 | the index found is that of the first ignore function that matches; none is found iff none matches |
| Inject.AdmissionError | internal/kubernetes/inject.go:204-212 | a rejection carries only a Failure status with the given reason and message |
| Inject.Decide | internal/kubernetes/inject.go:164-202 | the Patcher is called iff the resource is v1/pods, the object decodes and no ignore function matches, and it is called with the decoded pod; each response is a rejection, a bare allow or an allow with a JSON patch, and never carries a UID |
| Inject.NonPodResourceRejected | internal/kubernetes/inject.go:170-174 | a non-pod resource is rejected as Invalid with "not reviewing unexpected non-pod resource" |
| Inject.UndecodablePodRejected | internal/kubernetes/inject.go:176-181 | an undecodable object is rejected as Invalid with "cannot decode object as a pod: " plus the cause |
| Inject.IgnoredPodAllowedUnmodified | internal/kubernetes/inject.go:183-188 | a pod that any ignore function matches is allowed with no other field set, and the Patcher is not called |
| Inject.PatchFailureIsInternalError | internal/kubernetes/inject.go:190-195 | a Patcher error is a rejection with reason InternalError and "cannot patch pod: " plus the cause |
| Inject.PatchedPodAllowedWithPatch | internal/kubernetes/inject.go:197-201 | a patched pod is allowed with the Patcher's bytes and the JSONPatch type, with an empty UID |
| Inject.PodInjector.constructor | internal/kubernetes/inject.go:154-161 | the new injector keeps the Patcher, and its settings are the defaults with each option applied in order |
| Inject.PodInjector.Apply | internal/kubernetes/inject.go:137-152 | each option sets only its own field |
| Inject.PodInjector.Review | internal/kubernetes/inject.go:163-202 | the response is the one Decide gives, and a pod is logged as patched iff the Patcher is called |
| Webhook.Handle | internal/kubernetes/webhook.go:34-56 | the request is reviewed iff the body reads, is non-empty, decodes and holds a request; the answer then carries only the reviewer's response to that request; every other outcome is a 400 |
| Webhook.UnreadableBodyRejected | internal/kubernetes/webhook.go:36-40 | a body that cannot be read gives 400 with "cannot read request body: " plus the cause |
| Webhook.EmptyBodyRejected | internal/kubernetes/webhook.go:41-44 | an empty body gives 400 with "cannot parse empty request body" |
| Webhook.UndecodableBodyRejected | internal/kubernetes/webhook.go:45-49 | an undecodable body gives 400 with "cannot decode request body as admission review: " plus the cause |
| Webhook.ReviewWithoutRequestRejected | internal/kubernetes/webhook.go:50-53 | a review without a request gives 400 with "admission review must contain a request" |
| Webhook.ReviewerIrrelevantOnBadRequest | internal/kubernetes/webhook.go:36-53 | when the handler answers 400, the reviewer has no influence on the answer |
| Webhook.ResponseIsReviewersAlone | internal/kubernetes/webhook.go:54 | a valid review is answered with the reviewer's response to its request, and with no request |
| Webhook.Serve | internal/kubernetes/webhook.go:34-56 | serving with a PodMutator gives Handle's answer with Decide as the reviewer; a reviewed request appends exactly one measurement (the request's kind, namespace and name, and the verdict's tag) and logs the patched pod iff the Patcher is called; a rejected request changes neither log |

## Left out

- Logging: the zap logger is kept only as a setting. What it logs, and at which level, is not modelled.
- Metrics: the OpenCensus tags and `stats.Record` become the ghost `reviewed` log of measurements. Views and exporters are not modelled.
- The request kind tag: the model records the GroupVersionKind itself, not its `String()` rendering.
- Foreign libraries: mergo's merge semantics, the Kubernetes serializer, the JSON Patch diff and `json.Marshal` are function values supplied by the caller. What they compute is not modelled, so the patch tests are stated in terms of the diff's operations rather than the exact bytes. The path order of `jsonpatch.ByPath` is also foreign code. The model takes its Less to be Go's `<` on the operations' paths, as `JsonPatch.PathLess`.
- Mutate.NoOpMutationHasEmptyPatch: takes as hypotheses, rather than proving, that the merges have no effect and that the self-diff is empty, since both are properties of the foreign libraries.
- JsonPatch.SortByPath: `sort.Sort`'s actual algorithm is not modelled. An insertion sort stands in, and only what `sort.Sort` promises is stated: the result is sorted and is a permutation of the input. The arrangement of operations with equal paths is left open, as `sort.Sort` is not stable.
- Mutate.Patch: the sorted operations are returned as a ghost value beside the bytes, because the bytes are an abstract function of them.
- Go pointers and deep copies: pods and responses are values, so `DeepCopyInto`, aliasing and nil pointers (other than the optional request) are not modelled. An empty patch stands for a nil one.
- Ignore functions: only the three constructors the program defines are modelled. Arbitrary closures, as the tests build them, are not.
- The order in which the command line builds the ignore-function list (from the iteration of a Go map) and the rest of `cmd/legion/legion.go` are not part of this model.
- `DecodePodMutation` and `scheme.go` are not part of this model.
- `http.Error`'s trailing newline and content headers, and the encoding of the response review, are not modelled. The webhook's answer is the review value.
- The `Reviewer` interface in `inject.go` takes a whole `AdmissionReview`, while `PodInjector.Review` and the `Reviewer` of `webhook.go` take the request. The webhook is modelled with the request form, which is what the current engine implements. The two files also declare the same names in one Go package, so they cannot be built together; they are kept apart as two modules.
- The `InjectionStatusDone` and `InjectionDisabled` annotation constants of `inject.go` are not used by any modelled operation.
- Inject: the injector's option lemmas (last option wins) are stated only for the mutator, whose options behave the same way.
