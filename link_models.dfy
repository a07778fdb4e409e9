/**
 * Message schemas of the link protocol: the rejection reason codes with
 * their wire strings, the outbound link request and the inbound callback
 * records, with the defaults their optional fields take.
 */
module LinkModels {
  import opened Common

  /** Reasons the ID mapper gives for rejecting one link reference. */
  datatype LinkReasonCode =
    | RjctReferenceIdInvalid
    | RjctReferenceIdDuplicate
    | RjctTimestampInvalid
    | RjctIdInvalid
    | RjctFaInvalid
    | RjctNameInvalid
    | RjctMobileNumberInvalid
    | RjctUnknownRetry
    | RjctOtherError

  /** Every reason-code string is in the rejection namespace. */
  predicate RejectionString(s: string) {
    |s| > 5 && s[..5] == "rjct."
  }

  /** The wire string of a reason code. */
  function LinkCodeValue(c: LinkReasonCode): (s: string)
    ensures RejectionString(s)
  {
    match c
    case RjctReferenceIdInvalid => "rjct.reference_id.invalid"
    case RjctReferenceIdDuplicate => "rjct.reference_id.duplicate"
    case RjctTimestampInvalid => "rjct.timestamp.invalid"
    case RjctIdInvalid => "rjct.id.invalid"
    case RjctFaInvalid => "rjct.fa.invalid"
    case RjctNameInvalid => "rjct.name.invalid"
    case RjctMobileNumberInvalid => "rjct.mobile_number.invalid"
    case RjctUnknownRetry => "rjct.unknown.retry"
    case RjctOtherError => "rjct.other.error"
  }

  /** Lookup of a code by its wire string; None where the enumeration has no such value. */
  function LinkCodeFromValue(s: string): (r: Option<LinkReasonCode>)
    ensures r.Some? ==> LinkCodeValue(r.value) == s
    ensures r.None? ==> forall c :: LinkCodeValue(c) != s
  {
    if s == "rjct.reference_id.invalid" then Some(RjctReferenceIdInvalid)
    else if s == "rjct.reference_id.duplicate" then Some(RjctReferenceIdDuplicate)
    else if s == "rjct.timestamp.invalid" then Some(RjctTimestampInvalid)
    else if s == "rjct.id.invalid" then Some(RjctIdInvalid)
    else if s == "rjct.fa.invalid" then Some(RjctFaInvalid)
    else if s == "rjct.name.invalid" then Some(RjctNameInvalid)
    else if s == "rjct.mobile_number.invalid" then Some(RjctMobileNumberInvalid)
    else if s == "rjct.unknown.retry" then Some(RjctUnknownRetry)
    else if s == "rjct.other.error" then Some(RjctOtherError)
    else None
  }

  /** Decoding the wire string of a code gives back that code. */
  lemma LinkCodeRoundTrip(c: LinkReasonCode)
    ensures LinkCodeFromValue(LinkCodeValue(c)) == Some(c)
  {
  }

  /** Distinct codes have distinct wire strings. */
  lemma LinkCodeValueInjective(c1: LinkReasonCode, c2: LinkReasonCode)
    ensures LinkCodeValue(c1) == LinkCodeValue(c2) ==> c1 == c2
  {
    LinkCodeRoundTrip(c1);
    LinkCodeRoundTrip(c2);
  }

  /** One outbound link item: reference id and timestamp, id and financial address required. */
  datatype SingleLinkRequest = SingleLinkRequest(
    referenceId: string,
    timestamp: Timestamp,
    id: string,
    fa: string,
    name: Option<string> := None,
    phoneNumber: Option<string> := None)

  datatype LinkRequest = LinkRequest(transactionId: string, linkRequest: seq<SingleLinkRequest>)

  /** The outbound request body: signature, header and message, nothing else. */
  datatype LinkHttpRequest = LinkHttpRequest(signature: string, header: MsgHeader, message: LinkRequest)

  /** One callback item: the reason code is absent and the reason message empty unless given. */
  datatype SingleLinkCallbackRequest = SingleLinkCallbackRequest(
    referenceId: string,
    timestamp: Timestamp,
    fa: string,
    status: RequestStatus,
    statusReasonCode: Option<LinkReasonCode> := None,
    statusReasonMessage: Option<string> := Some(""))

  datatype LinkCallbackRequest = LinkCallbackRequest(
    transactionId: string,
    correlationId: Option<string> := Some(""),
    linkResponse: seq<SingleLinkCallbackRequest>)

  datatype LinkCallbackHttpRequest = LinkCallbackHttpRequest(
    signature: string,
    header: MsgCallbackHeader,
    message: LinkCallbackRequest)

  /** The optional fields of the link records take their declared defaults. */
  lemma LinkRecordDefaults(refId: string, ts: Timestamp, id: string, fa: string, st: RequestStatus,
                           txnId: string, items: seq<SingleLinkCallbackRequest>)
    ensures SingleLinkRequest(refId, ts, id, fa).name == None
    ensures SingleLinkRequest(refId, ts, id, fa).phoneNumber == None
    ensures SingleLinkCallbackRequest(refId, ts, fa, st).statusReasonCode == None
    ensures SingleLinkCallbackRequest(refId, ts, fa, st).statusReasonMessage == Some("")
    ensures LinkCallbackRequest(txnId, linkResponse := items).correlationId == Some("")
  {
  }
}
