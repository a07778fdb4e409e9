/**
 * The resolve transaction engine: it builds a transaction and its
 * outbound resolve request, records the live status object in the
 * process-local transaction table and schedules the dispatch; its
 * synchronous wrapper registers a continuation and waits until that
 * continuation has filled in the transaction id.
 *
 * The table holds object references: the entry and the object returned to
 * the caller are one object, so what the dispatch task later writes into
 * it is seen through both.
 */
module ResolveService {
  import opened Common
  import opened ResolveModels
  import LinkService

  // ---------------------------------------------------------------- builder

  /**
   * One resolve item: the id when the mapping has a non-empty one, else
   * the financial address when that is non-empty, else neither (the item
   * is still sent).
   */
  function ResolveItemFor(m: MapperValue, referenceId: string, now: Timestamp): (r: SingleResolveRequest)
    ensures r.referenceId == referenceId && r.timestamp == now
    ensures Truthy(m.id) ==> r.id == m.id && r.fa == None
    ensures !Truthy(m.id) && Truthy(m.fa) ==> r.id == None && r.fa == m.fa
    ensures !Truthy(m.id) && !Truthy(m.fa) ==> r.id == None && r.fa == None
  {
    var item := SingleResolveRequest(referenceId, now);
    if Truthy(m.id) then item.(id := m.id)
    else if Truthy(m.fa) then item.(fa := m.fa)
    else item
  }

  /** The resolve items of a batch, in input order. */
  function ResolveItems(ms: seq<MapperValue>, ids: seq<string>, now: Timestamp): seq<SingleResolveRequest>
    requires |ids| == |ms|
    decreases |ms|
  {
    if |ms| == 0 then []
    else ResolveItems(ms[..|ms| - 1], ids[..|ms| - 1], now) + [ResolveItemFor(ms[|ms| - 1], ids[|ms| - 1], now)]
  }

  /** Item j is built from mapping j under reference id j: one item per mapping, none dropped. */
  lemma {:induction false} ResolveItemsAt(ms: seq<MapperValue>, ids: seq<string>, now: Timestamp)
    requires |ids| == |ms|
    ensures |ResolveItems(ms, ids, now)| == |ms|
    ensures forall j :: 0 <= j < |ms| ==> ResolveItems(ms, ids, now)[j] == ResolveItemFor(ms[j], ids[j], now)
    decreases |ms|
  {
    if |ms| > 0 {
      var n := |ms| - 1;
      ResolveItemsAt(ms[..n], ids[..n], now);
      forall j | 0 <= j < n ensures ResolveItems(ms, ids, now)[j] == ResolveItemFor(ms[j], ids[j], now) {
        assert ms[..n][j] == ms[j] && ids[..n][j] == ids[j];
      }
    }
  }

  datatype ResolveBatch = ResolveBatch(refs: map<string, SingleTxnRefStatus>, items: seq<SingleResolveRequest>)

  /** The builder loop: one ref status and one resolve item per mapping. */
  method BuildResolveBatch(ms: seq<MapperValue>, ids: seq<string>, now: Timestamp) returns (b: ResolveBatch)
    requires |ids| == |ms|
    ensures b.refs == RefsFor(ms, ids) && b.items == ResolveItems(ms, ids, now)
  {
    var refs: map<string, SingleTxnRefStatus> := map[];
    var items: seq<SingleResolveRequest> := [];
    var i := 0;
    while i < |ms|
      invariant 0 <= i <= |ms|
      invariant refs == RefsFor(ms[..i], ids[..i])
      invariant items == ResolveItems(ms[..i], ids[..i], now)
    {
      assert ms[..i + 1][..i] == ms[..i] && ids[..i + 1][..i] == ids[..i];
      refs := refs[ids[i] := RefStatusFor(ms[i], ids[i])];
      var item := SingleResolveRequest(ids[i], now);
      if Truthy(ms[i].id) {
        item := item.(id := ms[i].id);
      } else if Truthy(ms[i].fa) {
        item := item.(fa := ms[i].fa);
      }
      items := items + [item];
      i := i + 1;
    }
    assert ms[..i] == ms && ids[..i] == ids;
    b := ResolveBatch(refs, items);
  }

  /**
   * The outbound request of a non-empty batch: a "resolve" request under the
   * freshly drawn message and transaction ids, counting and carrying one
   * item per mapping in input order.
   */
  function ResolveHttpRequestFor(cfg: MapperConfig, ms: seq<MapperValue>, ids: FreshIds, now: Timestamp): (r: ResolveHttpRequest)
    requires |ids.refs| == |ms|
    ensures r.signature == cfg.signature
    ensures r.header.action == "resolve" && r.header.messageId == ids.message && r.header.messageTs == now
    ensures r.header.senderId == cfg.senderId && r.header.senderUri == cfg.resolveSenderUrl
    ensures r.header.totalCount == |ms| == |r.message.resolveRequest|
    ensures r.message.transactionId == ids.txn
    ensures forall j :: 0 <= j < |ms| ==> r.message.resolveRequest[j] == ResolveItemFor(ms[j], ids.refs[j], now)
  {
    ResolveItemsAt(ms, ids.refs, now);
    ResolveHttpRequest(
      cfg.signature,
      MsgHeader(ids.message, now, "resolve", cfg.senderId, cfg.resolveSenderUrl, |ms|),
      ResolveModels.ResolveRequest(ids.txn, ResolveItems(ms, ids.refs, now)))
  }

  /**
   * The outbound request is a "resolve" request whose total count is the
   * batch size, whose transaction id is the freshly drawn one, and whose
   * items follow the input order with the id/address choice of
   * `ResolveItemFor`.
   */
  lemma ResolveHttpRequestShape(cfg: MapperConfig, ms: seq<MapperValue>, ids: FreshIds, now: Timestamp)
    requires WellFormedIds(ids, |ms|)
    ensures var req := ResolveHttpRequestFor(cfg, ms, ids, now);
      && req.signature == cfg.signature
      && req.header.action == "resolve"
      && req.header.totalCount == |ms|
      && req.message.transactionId == ids.txn
      && |req.message.resolveRequest| == |ms|
      && forall j :: 0 <= j < |ms| ==>
           && req.message.resolveRequest[j].referenceId == ids.refs[j]
           && req.message.resolveRequest[j].referenceId in RefsFor(ms, ids.refs)
           && (Truthy(ms[j].id) ==> req.message.resolveRequest[j].id == ms[j].id)
           && (!Truthy(ms[j].id) && Truthy(ms[j].fa) ==> req.message.resolveRequest[j].fa == ms[j].fa)
  {
    ResolveItemsAt(ms, ids.refs, now);
    RefsForOnePerMapping(ms, ids.refs);
  }

  // ------------------------------------------------------ dispatch outcome

  /** The resolve outcome rule: ACK gives `pdng`; a negative ACK and every failure, timeouts included, give `rjct`. */
  function ResolveDispatchRule(o: HttpOutcome): (r: RequestStatus)
    ensures r == Pdng <==> o == Response(ACK)
    ensures r == Rjct <==> o != Response(ACK)
  {
    match o
    case Response(ack) => if ack != ACK then Rjct else Pdng
    case _ => Rjct
  }

  /** The resolve rule differs from the link rule only on a read timeout, which it rejects. */
  lemma ResolveRuleVersusLinkRule(o: HttpOutcome)
    ensures o.ReadTimeout? ==> LinkService.LinkDispatchRule(o) == None && ResolveDispatchRule(o) == Rjct
    ensures !o.ReadTimeout? ==> LinkService.LinkDispatchRule(o) == Some(ResolveDispatchRule(o))
  {
  }

  /** The scheduled dispatch task; it changes only `txn`, always through "change all statuses". */
  method StartResolveProcess(request: ResolveHttpRequest, txn: TxnStatus, o: HttpOutcome)
    modifies txn
    ensures txn.Record() == ChangeAll(old(txn.Record()), ResolveDispatchRule(o))
    ensures txn.callableOnComplete == old(txn.callableOnComplete)
  {
    txn.ChangeAllStatus(ResolveDispatchRule(o));
  }

  // ----------------------------------------------------------- wait mode

  /**
   * The continuation the synchronous wrapper registers: it copies the
   * delivered status, transaction id and continuation into `target`; the
   * refs are assigned to themselves, so the target keeps its own.
   */
  method WaitForCallback(target: TxnStatus, delivered: TxnStatus)
    modifies target
    ensures target.status == old(delivered.status)
    ensures target.txnId == old(delivered.txnId)
    ensures target.refs == old(target.refs)
    ensures target.callableOnComplete == old(delivered.callableOnComplete)
  {
    target.status := delivered.status;
    target.txnId := delivered.txnId;
    target.refs := target.refs;
    target.callableOnComplete := delivered.callableOnComplete;
  }

  /** Some delivery happened during one of the first n sleeps. */
  function DeliveredWithin(deliveries: seq<bool>, n: int): bool
    decreases n
  {
    if n <= 0 then false
    else DeliveredWithin(deliveries, n - 1) || (n - 1 < |deliveries| && deliveries[n - 1])
  }

  lemma {:induction false} DeliveredWithinMeans(deliveries: seq<bool>, n: int)
    ensures DeliveredWithin(deliveries, n) <==> exists i :: 0 <= i < n && i < |deliveries| && deliveries[i]
    decreases n
  {
    if n > 0 {
      DeliveredWithinMeans(deliveries, n - 1);
    }
  }

  /** What the synchronous wrapper ends in: it returns nothing, or raises. */
  datatype Completion = ReturnedNone | Raised(error: AppError)

  /**
   * The result of the synchronous wrapper: it returns once the registered
   * continuation was invoked within the budget, which needs a queued, that
   * is non-empty, batch; otherwise G2P-MAP-101.
   */
  function SyncResolveOutcome(batchSize: nat, deliveries: seq<bool>, maxRetries: int): (r: Completion)
    ensures r == ReturnedNone <==> batchSize > 0 && exists i :: 0 <= i < maxRetries && i < |deliveries| && deliveries[i]
    ensures r != ReturnedNone ==> r == Raised(MaxRetriesResolving)
  {
    DeliveredWithinMeans(deliveries, maxRetries);
    if batchSize > 0 && DeliveredWithin(deliveries, maxRetries) then ReturnedNone else Raised(MaxRetriesResolving)
  }

  // ------------------------------------------------------------- service

  /** The resolve service and its process-local transaction table (never evicted). */
  class MapperResolveService {
    const cfg: MapperConfig
    var transactionQueue: map<string, TxnStatus>

    constructor (cfg: MapperConfig)
      ensures this.cfg == cfg && transactionQueue == map[]
    {
      this.cfg := cfg;
      transactionQueue := map[];
    }

    /**
     * Builds the transaction under a fresh id with one `rcvd` ref per
     * mapping and the given continuation. An empty batch returns `succ`,
     * is not recorded and schedules nothing; otherwise the table gains
     * exactly this transaction (the returned object itself) and the
     * dispatch of `scheduled` is left to the background task.
     */
    method ResolveRequest(ms: seq<MapperValue>, callback: Option<Continuation>, ids: FreshIds, now: Timestamp)
      returns (txn: TxnStatus, scheduled: Option<ResolveHttpRequest>)
      requires WellFormedIds(ids, |ms|)
      modifies this
      ensures fresh(txn)
      ensures txn.txnId == ids.txn && txn.refs == RefsFor(ms, ids.refs) && txn.callableOnComplete == callback
      ensures |ms| == 0 ==>
        txn.status == Succ && transactionQueue == old(transactionQueue) && scheduled == None
      ensures |ms| > 0 ==>
        && txn.status == Rcvd
        && transactionQueue == old(transactionQueue)[ids.txn := txn]
        && scheduled == Some(ResolveHttpRequestFor(cfg, ms, ids, now))
    {
      var batch := BuildResolveBatch(ms, ids.refs, now);
      txn := new TxnStatus(ids.txn, Rcvd, batch.refs, callback);
      if |ms| == 0 {
        txn.status := Succ;
        return txn, None;
      }
      transactionQueue := transactionQueue[ids.txn := txn];
      var header := MsgHeader(ids.message, now, "resolve", cfg.senderId, cfg.resolveSenderUrl, |ms|);
      scheduled := Some(ResolveHttpRequest(cfg.signature, header, ResolveModels.ResolveRequest(ids.txn, batch.items)));
    }

    /**
     * The synchronous wrapper. It registers `WaitForCallback` on a blank
     * status, submits the batch, then sleeps at most `maxRetries` times
     * while that status has no transaction id. `deliveries[i]` says that
     * during sleep i the callback handler invoked the continuation of the
     * queued transaction with that transaction. Returns nothing once the id
     * is set, else raises G2P-MAP-101.
     */
    method ResolveRequestSync(ms: seq<MapperValue>, maxRetries: int, ids: FreshIds, now: Timestamp, deliveries: seq<bool>)
      returns (r: Completion, sleeps: nat)
      requires WellFormedIds(ids, |ms|)
      requires ids.txn !in transactionQueue
      modifies this
      ensures r == SyncResolveOutcome(|ms|, deliveries, maxRetries)
      ensures r.Raised? ==> sleeps == (if maxRetries < 0 then 0 else maxRetries)
      ensures r == ReturnedNone ==>
        && 0 < sleeps <= maxRetries && sleeps - 1 < |deliveries| && deliveries[sleeps - 1]
        && !DeliveredWithin(deliveries, sleeps - 1)
      ensures |ms| == 0 ==> transactionQueue == old(transactionQueue)
      ensures |ms| > 0 ==>
        && ids.txn in transactionQueue
        && transactionQueue == old(transactionQueue)[ids.txn := transactionQueue[ids.txn]]
        && fresh(transactionQueue[ids.txn])
    {
      var txn := new TxnStatus("", Rcvd, map[], None);
      var entry, _ := ResolveRequest(ms, Some(CopyInto(txn)), ids, now);
      var retry: nat := 0;
      while txn.txnId == "" && retry < maxRetries
        invariant maxRetries >= 0 ==> retry <= maxRetries
        invariant maxRetries < 0 ==> retry == 0
        invariant |ms| == 0 ==> transactionQueue == old(transactionQueue) && ids.txn !in transactionQueue
        invariant |ms| > 0 ==> transactionQueue == old(transactionQueue)[ids.txn := entry]
        invariant entry != txn && entry.txnId == ids.txn && entry.callableOnComplete == Some(CopyInto(txn))
        invariant txn.txnId != "" <==> |ms| > 0 && DeliveredWithin(deliveries, retry)
        invariant txn.txnId != "" ==>
          retry > 0 && retry - 1 < |deliveries| && deliveries[retry - 1] && !DeliveredWithin(deliveries, retry - 1)
        decreases maxRetries - retry
      {
        // One sleep, during which the callback handler may run.
        if retry < |deliveries| && deliveries[retry] && ids.txn in transactionQueue {
          var queued := transactionQueue[ids.txn];
          match queued.callableOnComplete
          case Some(CopyInto(target)) =>
            WaitForCallback(target, queued);
          case _ =>
        }
        retry := retry + 1;
      }
      sleeps := retry;
      if txn.txnId == "" {
        r := Raised(MaxRetriesResolving);
      } else {
        r := ReturnedNone;
      }
    }
  }

  /**
   * The table entry and the returned object are one object: after the
   * background dispatch runs on the returned object, the table shows the
   * same outcome.
   */
  method DispatchSeenThroughTable(svc: MapperResolveService, ms: seq<MapperValue>, ids: FreshIds, now: Timestamp, o: HttpOutcome)
      returns (txn: TxnStatus)
    requires WellFormedIds(ids, |ms|) && |ms| > 0
    modifies svc
    ensures ids.txn in svc.transactionQueue && svc.transactionQueue[ids.txn] == txn
    ensures txn.status == ResolveDispatchRule(o)
    ensures AllStatus(svc.transactionQueue[ids.txn].Record(), ResolveDispatchRule(o))
  {
    var scheduled;
    txn, scheduled := svc.ResolveRequest(ms, None, ids, now);
    StartResolveProcess(scheduled.value, txn, o);
  }
}
