/**
 * Message schemas of the resolve protocol. The module that declares them
 * is not part of this model: the fields are the ones the resolve engine
 * sets, and the identifying fields of an item are assumed to default to
 * absent.
 */
module ResolveModels {
  import opened Common

  datatype SingleResolveRequest = SingleResolveRequest(
    referenceId: string,
    timestamp: Timestamp,
    id: Option<string> := None,
    fa: Option<string> := None)

  datatype ResolveRequest = ResolveRequest(transactionId: string, resolveRequest: seq<SingleResolveRequest>)

  datatype ResolveHttpRequest = ResolveHttpRequest(signature: string, header: MsgHeader, message: ResolveRequest)
}
