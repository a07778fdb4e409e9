/**
 * The status model shared by the link and resolve engines: the request
 * status enumeration, the mapping a caller submits, one reference's status
 * record, the aggregate transaction status (a mutable object, since the
 * dispatch task changes it in place) and the snapshot of it that the
 * durable store holds.
 *
 * The source module that declares these types is not part of this model;
 * the fields below are the ones the engines read and write.
 */
module Common {

  datatype Option<+T> = None | Some(value: T)

  /** Lifecycle of a transaction: received, pending, then success or rejection. */
  datatype RequestStatus = Rcvd | Pdng | Succ | Rjct

  predicate IsTerminal(s: RequestStatus) {
    s == Succ || s == Rjct
  }

  /** Acknowledgement in the external endpoint's synchronous reply. */
  datatype Ack = ACK | NACK

  /**
   * What one HTTP exchange with the external endpoint ended in: a 2xx reply
   * whose body parsed and carries an acknowledgement, a non-2xx reply
   * (raised by the client's status check), a read timeout, or any other
   * failure (connection error, body that does not parse).
   */
  datatype HttpOutcome =
    | Response(ack: Ack)
    | ErrorStatus(code: NonSuccessStatus)
    | ReadTimeout
    | OtherError

  /** An HTTP status code outside 2xx, the ones the client's status check raises for. */
  type NonSuccessStatus = c: int | !(200 <= c < 300) witness 500

  /** Opaque timestamp value (the engines only copy it). */
  type Timestamp = string

  /** The input unit: identity reference, financial address, name, phone. */
  datatype MapperValue = MapperValue(
    id: Option<string>,
    fa: Option<string>,
    name: Option<string>,
    phoneNumber: Option<string>)

  /** Python truthiness of an optional string: present and non-empty. */
  predicate Truthy(s: Option<string>) {
    s.Some? && s.value != ""
  }

  /** One reference's status record: its reference id, a copy of the mapping and its status. */
  datatype SingleTxnRefStatus = SingleTxnRefStatus(
    referenceId: string,
    status: RequestStatus,
    id: Option<string>,
    fa: Option<string>,
    name: Option<string>,
    phoneNumber: Option<string>)

  /** The record the builders create for one mapping under a fresh reference id. */
  function RefStatusFor(m: MapperValue, referenceId: string): SingleTxnRefStatus {
    SingleTxnRefStatus(referenceId, Rcvd, m.id, m.fa, m.name, m.phoneNumber)
  }

  /**
   * The refs map a builder fills: for each mapping, in input order, the
   * entry `ids[j] -> RefStatusFor(ms[j], ids[j])` (a later id overwrites an
   * equal earlier one).
   */
  function RefsFor(ms: seq<MapperValue>, ids: seq<string>): map<string, SingleTxnRefStatus>
    requires |ids| == |ms|
    decreases |ms|
  {
    if |ms| == 0 then map[]
    else RefsFor(ms[..|ms| - 1], ids[..|ms| - 1])[ids[|ms| - 1] := RefStatusFor(ms[|ms| - 1], ids[|ms| - 1])]
  }

  /** Every entry of a built refs map is received and keyed by its own reference id. */
  lemma {:induction false} RefsForKeyedByOwnId(ms: seq<MapperValue>, ids: seq<string>)
    requires |ids| == |ms|
    ensures forall k :: k in RefsFor(ms, ids) ==> RefsFor(ms, ids)[k].referenceId == k && RefsFor(ms, ids)[k].status == Rcvd
    ensures forall k :: k in RefsFor(ms, ids) <==> exists j :: 0 <= j < |ms| && ids[j] == k
    decreases |ms|
  {
    if |ms| > 0 {
      var n := |ms| - 1;
      RefsForKeyedByOwnId(ms[..n], ids[..n]);
      forall k | k in RefsFor(ms, ids) ensures exists j :: 0 <= j < |ms| && ids[j] == k {
        if k != ids[n] {
          assert k in RefsFor(ms[..n], ids[..n]);
          var j :| 0 <= j < |ms[..n]| && ids[..n][j] == k;
          assert ids[j] == k;
        }
      }
      forall k | exists j :: 0 <= j < |ms| && ids[j] == k ensures k in RefsFor(ms, ids) {
        var j :| 0 <= j < |ms| && ids[j] == k;
        if j < n { assert ids[..n][j] == k; }
      }
    }
  }

  /**
   * With pairwise-distinct ids the refs map has exactly one entry per
   * mapping, and the entry under `ids[j]` is built from `ms[j]`.
   */
  lemma {:induction false} RefsForOnePerMapping(ms: seq<MapperValue>, ids: seq<string>)
    requires |ids| == |ms| && Distinct(ids)
    ensures |RefsFor(ms, ids)| == |ms|
    ensures forall j :: 0 <= j < |ms| ==> ids[j] in RefsFor(ms, ids) && RefsFor(ms, ids)[ids[j]] == RefStatusFor(ms[j], ids[j])
    decreases |ms|
  {
    if |ms| > 0 {
      var n := |ms| - 1;
      assert Distinct(ids[..n]);
      RefsForOnePerMapping(ms[..n], ids[..n]);
      RefsForKeyedByOwnId(ms[..n], ids[..n]);
      assert ids[n] !in RefsFor(ms[..n], ids[..n]);
      forall j | 0 <= j < |ms|
        ensures ids[j] in RefsFor(ms, ids) && RefsFor(ms, ids)[ids[j]] == RefStatusFor(ms[j], ids[j])
      {
        if j < n {
          assert ids[..n][j] == ids[j] && ms[..n][j] == ms[j];
        }
      }
    }
  }

  /** The errors the engines raise to their callers. */
  datatype AppError =
    | ValidationError      // a record could not be built from the input
    | MaxRetriesLinking    // G2P-MAP-100
    | MaxRetriesResolving  // G2P-MAP-101

  /** The error code a raised error carries; a validation error carries none. */
  function Code(e: AppError): (c: Option<string>)
    ensures e.MaxRetriesLinking? <==> c == Some("G2P-MAP-100")
    ensures e.MaxRetriesResolving? <==> c == Some("G2P-MAP-101")
    ensures e.ValidationError? <==> c.None?
  {
    match e
    case ValidationError => None
    case MaxRetriesLinking => Some("G2P-MAP-100")
    case MaxRetriesResolving => Some("G2P-MAP-101")
  }

  datatype Result<+T> = Ok(value: T) | Err(error: AppError)

  /**
   * The serialised form of a transaction status, as the durable store
   * holds it. The completion continuation is not part of it.
   */
  datatype TxnRecord = TxnRecord(
    txnId: string,
    status: RequestStatus,
    refs: map<string, SingleTxnRefStatus>)

  /** Every status in the refs replaced by `s`, all other fields kept. */
  function SetAllRefs(refs: map<string, SingleTxnRefStatus>, s: RequestStatus): (r: map<string, SingleTxnRefStatus>)
    ensures r.Keys == refs.Keys
    ensures forall k :: k in r ==> r[k].status == s && r[k].(status := refs[k].status) == refs[k]
  {
    map k | k in refs :: refs[k].(status := s)
  }

  /** The aggregate status and every reference's status equal `s`. */
  predicate AllStatus(rec: TxnRecord, s: RequestStatus) {
    rec.status == s && forall k :: k in rec.refs ==> rec.refs[k].status == s
  }

  /**
   * The operation "change all statuses": aggregate and every reference set
   * to `s` together; transaction id and reference ids kept.
   */
  function ChangeAll(rec: TxnRecord, s: RequestStatus): (r: TxnRecord)
    ensures AllStatus(r, s)
    ensures r.txnId == rec.txnId && r.refs.Keys == rec.refs.Keys
    ensures forall k :: k in r.refs ==> r.refs[k].(status := rec.refs[k].status) == rec.refs[k]
  {
    TxnRecord(rec.txnId, s, SetAllRefs(rec.refs, s))
  }

  /**
   * A completion continuation registered on a transaction: one supplied by
   * the caller (opaque here), or the one the synchronous resolve wrapper
   * registers, which copies the completed status into `target`.
   */
  datatype Continuation =
    | CallerSupplied(name: string)
    | CopyInto(target: TxnStatus)

  /** The live, in-memory aggregate status of one transaction. */
  class TxnStatus {
    var txnId: string
    var status: RequestStatus
    var refs: map<string, SingleTxnRefStatus>
    var callableOnComplete: Option<Continuation>

    constructor (txnId: string, status: RequestStatus, refs: map<string, SingleTxnRefStatus>, callableOnComplete: Option<Continuation>)
      ensures this.txnId == txnId && this.status == status && this.refs == refs
      ensures this.callableOnComplete == callableOnComplete
    {
      this.txnId := txnId;
      this.status := status;
      this.refs := refs;
      this.callableOnComplete := callableOnComplete;
    }

    /** A fresh object holding a stored record (deserialisation). */
    constructor FromRecord(rec: TxnRecord)
      ensures Record() == rec && callableOnComplete == None
    {
      txnId := rec.txnId;
      status := rec.status;
      refs := rec.refs;
      callableOnComplete := None;
    }

    /** The serialised snapshot of this object. */
    function Record(): TxnRecord
      reads this
    {
      TxnRecord(txnId, status, refs)
    }

    /**
     * Assumed behaviour of the status model's change_all_status: the
     * aggregate and every reference's status become `s`, in place.
     */
    method ChangeAllStatus(s: RequestStatus)
      modifies this
      ensures Record() == ChangeAll(old(Record()), s)
      ensures callableOnComplete == old(callableOnComplete)
    {
      status := s;
      refs := SetAllRefs(refs, s);
    }
  }

  /**
   * The message header of an outbound request. The module that declares
   * it is not part of this model; these are the fields the builders set.
   */
  datatype MsgHeader = MsgHeader(
    messageId: string,
    messageTs: Timestamp,
    action: string,
    senderId: string,
    senderUri: string,
    totalCount: nat)

  /** Header of an inbound callback; its module is not part of this model, so it is kept opaque. */
  datatype MsgCallbackHeader = MsgCallbackHeader(raw: string)

  /** Additional beneficiary information of an update; opaque here. */
  datatype AdditionalInfo = AdditionalInfo(raw: string)

  /** Settings the engines read; loading them is out of scope. */
  datatype MapperConfig = MapperConfig(
    senderId: string,
    linkSenderUrl: string,
    resolveSenderUrl: string,
    queueLinkName: string,
    signature: string)

  /** The random ids a build consumes, in the order they are drawn. */
  datatype FreshIds = FreshIds(txn: string, refs: seq<string>, message: string)

  /** Values drawn independently at random are pairwise distinct and non-empty. */
  predicate Distinct(ids: seq<string>) {
    forall i, j :: 0 <= i < j < |ids| ==> ids[i] != ids[j]
  }

  predicate WellFormedIds(ids: FreshIds, count: nat) {
    |ids.refs| == count && Distinct(ids.refs) && ids.txn != ""
  }
}
