/**
 * Message schemas of the update protocol: the rejection reason codes with
 * their wire strings, the outbound update request and the inbound callback
 * records, with the defaults their optional fields take.
 */
module UpdateModels {
  import opened Common
  import LinkModels

  /** Reasons the ID mapper gives for rejecting one update reference. */
  datatype UpdateReasonCode =
    | RjctReferenceIdInvalid
    | RjctReferenceIdDuplicate
    | RjctTimestampInvalid
    | RjctBeneficiaryNameInvalid

  function UpdateCodeValue(c: UpdateReasonCode): (s: string)
    ensures LinkModels.RejectionString(s)
  {
    match c
    case RjctReferenceIdInvalid => "rjct.reference_id.invalid"
    case RjctReferenceIdDuplicate => "rjct.reference_id.duplicate"
    case RjctTimestampInvalid => "rjct.timestamp.invalid"
    case RjctBeneficiaryNameInvalid => "rjct.beneficiary_name.invalid"
  }

  /** Lookup of a code by its wire string; None where the enumeration has no such value. */
  function UpdateCodeFromValue(s: string): (r: Option<UpdateReasonCode>)
    ensures r.Some? ==> UpdateCodeValue(r.value) == s
    ensures r.None? ==> forall c :: UpdateCodeValue(c) != s
  {
    if s == "rjct.reference_id.invalid" then Some(RjctReferenceIdInvalid)
    else if s == "rjct.reference_id.duplicate" then Some(RjctReferenceIdDuplicate)
    else if s == "rjct.timestamp.invalid" then Some(RjctTimestampInvalid)
    else if s == "rjct.beneficiary_name.invalid" then Some(RjctBeneficiaryNameInvalid)
    else None
  }

  lemma UpdateCodeRoundTrip(c: UpdateReasonCode)
    ensures UpdateCodeFromValue(UpdateCodeValue(c)) == Some(c)
  {
  }

  lemma UpdateCodeValueInjective(c1: UpdateReasonCode, c2: UpdateReasonCode)
    ensures UpdateCodeValue(c1) == UpdateCodeValue(c2) ==> c1 == c2
  {
    UpdateCodeRoundTrip(c1);
    UpdateCodeRoundTrip(c2);
  }

  /**
   * The three codes the two enumerations share have the same wire strings,
   * and the remaining update code is not a link code.
   */
  lemma SharedCodesAgree()
    ensures UpdateCodeValue(RjctReferenceIdInvalid) == LinkModels.LinkCodeValue(LinkModels.RjctReferenceIdInvalid)
    ensures UpdateCodeValue(RjctReferenceIdDuplicate) == LinkModels.LinkCodeValue(LinkModels.RjctReferenceIdDuplicate)
    ensures UpdateCodeValue(RjctTimestampInvalid) == LinkModels.LinkCodeValue(LinkModels.RjctTimestampInvalid)
    ensures LinkModels.LinkCodeFromValue(UpdateCodeValue(RjctBeneficiaryNameInvalid)) == None
  {
  }

  datatype SingleUpdateRequest = SingleUpdateRequest(
    referenceId: string,
    timestamp: Timestamp,
    id: string,
    fa: string,
    name: Option<string> := None,
    phoneNumber: Option<string> := None,
    additionalInfo: Option<AdditionalInfo> := None,
    locale: string := "eng")

  datatype UpdateRequest = UpdateRequest(transactionId: string, updateRequest: seq<SingleUpdateRequest>)

  datatype UpdateHttpRequest = UpdateHttpRequest(signature: string, header: MsgHeader, message: UpdateRequest)

  datatype SingleUpdateCallbackRequest = SingleUpdateCallbackRequest(
    referenceId: string,
    timestamp: Timestamp,
    id: Option<string> := Some(""),
    status: RequestStatus,
    statusReasonCode: Option<UpdateReasonCode> := None,
    statusReasonMessage: Option<string> := Some(""),
    additionalInfo: Option<AdditionalInfo> := None,
    locale: string := "eng")

  datatype UpdateCallbackRequest = UpdateCallbackRequest(
    transactionId: string,
    correlationId: Option<string> := Some(""),
    updateResponse: seq<SingleUpdateCallbackRequest>)

  datatype UpdateCallbackHttpRequest = UpdateCallbackHttpRequest(
    signature: string,
    header: MsgCallbackHeader,
    message: UpdateCallbackRequest)

  /** The optional fields of the update records take their declared defaults. */
  lemma UpdateRecordDefaults(refId: string, ts: Timestamp, id: string, fa: string, st: RequestStatus,
                             txnId: string, items: seq<SingleUpdateCallbackRequest>)
    ensures var u := SingleUpdateRequest(refId, ts, id, fa);
      u.name == None && u.phoneNumber == None && u.additionalInfo == None && u.locale == "eng"
    ensures var cb := SingleUpdateCallbackRequest(refId, ts, status := st);
      cb.id == Some("") && cb.statusReasonCode == None && cb.statusReasonMessage == Some("")
      && cb.additionalInfo == None && cb.locale == "eng"
    ensures UpdateCallbackRequest(txnId, updateResponse := items).correlationId == Some("")
  {
  }
}
