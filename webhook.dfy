/**
 * The HTTP admission review webhook: read the request body, decode it as
 * an AdmissionReview, hand its request to a Reviewer and answer with a
 * review that carries only the Reviewer's response. Each of the four
 * checks before that answers 400 Bad Request with its own message.
 */
module Webhook {
  import opened Kube
  import opened External
  import Mutate

  const StatusBadRequest := 400

  const ReadFailedMessage := "cannot read request body"
  const EmptyBodyMessage := "cannot parse empty request body"
  const DecodeFailedMessage := "cannot decode request body as admission review"
  const NoRequestMessage := "admission review must contain a request"

  /** What the handler writes: an HTTP error, or an encoded admission review. */
  datatype Outcome = BadRequest(code: int, message: string) | Reviewed(review: AdmissionReview)

  /** A Reviewer reviews admission requests. */
  type Reviewer = AdmissionRequest -> AdmissionResponse

  /**
   * The handler AdmissionReviewWebhook returns, for one request whose body
   * reads as `body` (an error when reading fails).
   */
  function Handle(body: Result<Bytes>, decode: Decoder<AdmissionReview>, r: Reviewer): (o: Outcome)
    ensures o.Reviewed? <==>
      && body.Ok?
      && |body.value| > 0
      && decode(body.value).Ok?
      && decode(body.value).value.request.Some?
    ensures o.Reviewed? ==>
      && o.review.request == None
      && o.review.response == Some(r(decode(body.value).value.request.value))
    ensures o.BadRequest? ==> o.code == StatusBadRequest
  {
    match body
    case Err(e) => BadRequest(StatusBadRequest, Wrap(ReadFailedMessage, e))
    case Ok(b) =>
      if |b| == 0 then BadRequest(StatusBadRequest, EmptyBodyMessage)
      else match decode(b)
        case Err(e) => BadRequest(StatusBadRequest, Wrap(DecodeFailedMessage, e))
        case Ok(ar) =>
          match ar.request
          case None => BadRequest(StatusBadRequest, NoRequestMessage)
          case Some(req) => Reviewed(AdmissionReview(None, Some(r(req))))
  }

  lemma UnreadableBodyRejected(body: Result<Bytes>, decode: Decoder<AdmissionReview>, r: Reviewer)
    requires body.Err?
    ensures Handle(body, decode, r) == BadRequest(400, Wrap("cannot read request body", body.error))
  {
  }

  lemma EmptyBodyRejected(decode: Decoder<AdmissionReview>, r: Reviewer)
    ensures Handle(Ok([]), decode, r) == BadRequest(400, "cannot parse empty request body")
  {
  }

  /** An undecodable body is rejected with the decoder's error wrapped; the decoder sees the body as read. */
  lemma UndecodableBodyRejected(b: Bytes, decode: Decoder<AdmissionReview>, r: Reviewer)
    requires |b| > 0 && decode(b).Err?
    ensures Handle(Ok(b), decode, r) ==
      BadRequest(400, Wrap("cannot decode request body as admission review", decode(b).error))
  {
  }

  lemma ReviewWithoutRequestRejected(b: Bytes, decode: Decoder<AdmissionReview>, r: Reviewer)
    requires |b| > 0 && decode(b).Ok? && decode(b).value.request.None?
    ensures Handle(Ok(b), decode, r) == BadRequest(400, "admission review must contain a request")
  {
  }

  /**
   * The Reviewer is not consulted unless all four checks pass: two
   * reviewers give the same rejection.
   */
  lemma ReviewerIrrelevantOnBadRequest(body: Result<Bytes>, decode: Decoder<AdmissionReview>, r1: Reviewer, r2: Reviewer)
    requires Handle(body, decode, r1).BadRequest?
    ensures Handle(body, decode, r2) == Handle(body, decode, r1)
  {
  }

  /**
   * A review that passes the checks is answered by the Reviewer's response
   * alone, whatever else the incoming review carried.
   */
  lemma ResponseIsReviewersAlone(b: Bytes, decode: Decoder<AdmissionReview>, r: Reviewer, req: AdmissionRequest)
    requires |b| > 0 && decode(b).Ok? && decode(b).value.request == Some(req)
    ensures Handle(Ok(b), decode, r) == Reviewed(AdmissionReview(None, Some(r(req))))
  {
  }

  /**
   * The webhook serving one request with a PodMutator as its Reviewer.
   * When the request reaches the mutator, exactly the mutator's
   * pods-reviewed record for it is made and the pod it patches is logged;
   * when the webhook rejects it first, neither log changes.
   */
  method Serve(m: Mutate.PodMutator, body: Result<Bytes>, decode: Decoder<AdmissionReview>, decodePod: Decoder<Pod>)
    returns (o: Outcome)
    modifies m`reviewed, m`patched
    ensures var ignore, p := m.ignore, m.p;
      o == Handle(body, decode, (req: AdmissionRequest) => Mutate.Decide(ignore, p, decodePod, req).response)
    ensures o.Reviewed? ==>
      var req := decode(body.value).value.request.value;
      var v := Mutate.Decide(m.ignore, m.p, decodePod, req);
      && m.reviewed == old(m.reviewed) + [Mutate.Measurement(req.kind, req.namespace, req.name, v.result)]
      && m.patched == old(m.patched) + (if v.patched.Some? then [v.patched.value] else [])
    ensures o.BadRequest? ==> m.reviewed == old(m.reviewed) && m.patched == old(m.patched)
  {
    if body.Err? {
      return BadRequest(StatusBadRequest, Wrap(ReadFailedMessage, body.error));
    }
    var b := body.value;
    if |b| == 0 {
      return BadRequest(StatusBadRequest, EmptyBodyMessage);
    }
    var ar := decode(b);
    if ar.Err? {
      return BadRequest(StatusBadRequest, Wrap(DecodeFailedMessage, ar.error));
    }
    if ar.value.request.None? {
      return BadRequest(StatusBadRequest, NoRequestMessage);
    }
    var rsp := m.Review(ar.value.request.value, decodePod);
    return Reviewed(AdmissionReview(None, Some(rsp)));
  }
}
