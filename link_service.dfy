/**
 * The link transaction engine: it builds a transaction and its outbound
 * link request from a batch of mappings, stores the initial status in the
 * durable store, dispatches the request and, in wait mode, polls the store
 * until the status there is terminal or the retry budget is spent.
 *
 * The durable store is the `store` map of the service object. What other
 * writers (the callback handler of another process) put into it while the
 * engine polls is the `writes` parameter: `writes[k]`, when present, is
 * written to the transaction's key just before the engine's read number k.
 * The dispatch changes only the in-memory status object and never the store.
 */
module LinkService {
  import opened Common
  import opened LinkModels

  // ---------------------------------------------------------------- builder

  /** A link item needs both the id and the financial address as strings. */
  predicate Linkable(m: MapperValue) {
    m.id.Some? && m.fa.Some?
  }

  function LinkItemFor(m: MapperValue, referenceId: string, now: Timestamp): SingleLinkRequest
    requires Linkable(m)
  {
    SingleLinkRequest(referenceId, now, m.id.value, m.fa.value)
  }

  /** The link items of a batch, in input order. */
  function LinkItems(ms: seq<MapperValue>, ids: seq<string>, now: Timestamp): seq<SingleLinkRequest>
    requires |ids| == |ms| && forall j :: 0 <= j < |ms| ==> Linkable(ms[j])
    decreases |ms|
  {
    if |ms| == 0 then []
    else LinkItems(ms[..|ms| - 1], ids[..|ms| - 1], now) + [LinkItemFor(ms[|ms| - 1], ids[|ms| - 1], now)]
  }

  /** Item j of a batch carries mapping j's id and address under reference id j. */
  lemma {:induction false} LinkItemsAt(ms: seq<MapperValue>, ids: seq<string>, now: Timestamp)
    requires |ids| == |ms| && forall j :: 0 <= j < |ms| ==> Linkable(ms[j])
    ensures |LinkItems(ms, ids, now)| == |ms|
    ensures forall j :: 0 <= j < |ms| ==> LinkItems(ms, ids, now)[j] == LinkItemFor(ms[j], ids[j], now)
    decreases |ms|
  {
    if |ms| > 0 {
      var n := |ms| - 1;
      LinkItemsAt(ms[..n], ids[..n], now);
      forall j | 0 <= j < n ensures LinkItems(ms, ids, now)[j] == LinkItemFor(ms[j], ids[j], now) {
        assert ms[..n][j] == ms[j] && ids[..n][j] == ids[j];
      }
    }
  }

  /** What the builder loop produces: the refs map and the link items. */
  datatype LinkBatch = LinkBatch(refs: map<string, SingleTxnRefStatus>, items: seq<SingleLinkRequest>)

  /**
   * The builder loop as a function: a mapping without an id or an address
   * makes the link item's validation fail, which aborts the whole build.
   */
  function LinkBatchFor(ms: seq<MapperValue>, ids: seq<string>, now: Timestamp): Result<LinkBatch>
    requires |ids| == |ms|
  {
    if forall j :: 0 <= j < |ms| ==> Linkable(ms[j])
    then Ok(LinkBatch(RefsFor(ms, ids), LinkItems(ms, ids, now)))
    else Err(ValidationError)
  }

  /** The builder loop: one ref status and one link item per mapping. */
  method BuildLinkBatch(ms: seq<MapperValue>, ids: seq<string>, now: Timestamp) returns (r: Result<LinkBatch>)
    requires |ids| == |ms|
    ensures r == LinkBatchFor(ms, ids, now)
  {
    var refs: map<string, SingleTxnRefStatus> := map[];
    var items: seq<SingleLinkRequest> := [];
    var i := 0;
    while i < |ms|
      invariant 0 <= i <= |ms|
      invariant forall j :: 0 <= j < i ==> Linkable(ms[j])
      invariant refs == RefsFor(ms[..i], ids[..i])
      invariant items == LinkItems(ms[..i], ids[..i], now)
    {
      assert ms[..i + 1][..i] == ms[..i] && ids[..i + 1][..i] == ids[..i];
      refs := refs[ids[i] := RefStatusFor(ms[i], ids[i])];
      if !Linkable(ms[i]) {
        return Err(ValidationError);
      }
      items := items + [LinkItemFor(ms[i], ids[i], now)];
      i := i + 1;
    }
    assert ms[..i] == ms && ids[..i] == ids;
    r := Ok(LinkBatch(refs, items));
  }

  /** A supplied non-empty transaction id is kept; an absent or empty one is replaced by the fresh id. */
  function ChooseTxnId(supplied: Option<string>, freshId: string): (t: string)
    ensures Truthy(supplied) ==> t == supplied.value
    ensures !Truthy(supplied) ==> t == freshId
  {
    if Truthy(supplied) then supplied.value else freshId
  }

  /** What the builder returns: the outbound request (absent for an empty batch) and the initial status. */
  datatype LinkBuild = LinkBuild(request: Option<LinkHttpRequest>, record: TxnRecord)

  /**
   * The builder as a function of its inputs and the random ids it draws.
   * A build that succeeds starts the transaction at `rcvd` under the chosen
   * id, and has an outbound "link" request, under that id and the fresh
   * message id, exactly when the batch is non-empty.
   */
  function NewLinkRequest(cfg: MapperConfig, ms: seq<MapperValue>, txnId: Option<string>, ids: FreshIds, now: Timestamp): (r: Result<LinkBuild>)
    requires |ids.refs| == |ms|
    ensures r.Err? ==> r.error == ValidationError
    ensures r.Ok? ==> r.value.record.txnId == ChooseTxnId(txnId, ids.txn) && r.value.record.status == Rcvd
    ensures r.Ok? ==> (r.value.request.None? <==> |ms| == 0)
    ensures r.Ok? && r.value.request.Some? ==>
      var req := r.value.request.value;
      && req.signature == cfg.signature
      && req.header.action == "link" && req.header.messageId == ids.message && req.header.messageTs == now
      && req.header.senderId == cfg.senderId && req.header.senderUri == cfg.linkSenderUrl
      && req.header.totalCount == |ms|
      && req.message.transactionId == r.value.record.txnId
  {
    match LinkBatchFor(ms, ids.refs, now)
    case Err(e) => Err(e)
    case Ok(batch) =>
      var t := ChooseTxnId(txnId, ids.txn);
      var header := MsgHeader(ids.message, now, "link", cfg.senderId, cfg.linkSenderUrl, |ms|);
      Ok(LinkBuild(
        if |ms| == 0 then None else Some(LinkHttpRequest(cfg.signature, header, LinkRequest(t, batch.items))),
        TxnRecord(t, Rcvd, batch.refs)))
  }

  /** The build fails exactly when some mapping lacks its id or its address. */
  lemma NewLinkRequestFails(cfg: MapperConfig, ms: seq<MapperValue>, txnId: Option<string>, ids: FreshIds, now: Timestamp)
    requires |ids.refs| == |ms|
    ensures NewLinkRequest(cfg, ms, txnId, ids, now).Err?
        <==> exists j :: 0 <= j < |ms| && !Linkable(ms[j])
    ensures NewLinkRequest(cfg, ms, txnId, ids, now).Err? ==> NewLinkRequest(cfg, ms, txnId, ids, now).error == ValidationError
  {
  }

  /**
   * The initial status: the chosen transaction id, aggregate `rcvd`, and
   * with distinct fresh ids exactly one `rcvd` ref per mapping, keyed by
   * its own reference id and copied from that mapping.
   */
  lemma NewLinkRequestStatus(cfg: MapperConfig, ms: seq<MapperValue>, txnId: Option<string>, ids: FreshIds, now: Timestamp)
    requires WellFormedIds(ids, |ms|)
    requires NewLinkRequest(cfg, ms, txnId, ids, now).Ok?
    ensures var rec := NewLinkRequest(cfg, ms, txnId, ids, now).value.record;
      && rec.txnId == ChooseTxnId(txnId, ids.txn)
      && rec.status == Rcvd
      && |rec.refs| == |ms|
      && (forall k :: k in rec.refs ==> rec.refs[k].referenceId == k && rec.refs[k].status == Rcvd)
      && (forall j :: 0 <= j < |ms| ==> ids.refs[j] in rec.refs && rec.refs[ids.refs[j]] == RefStatusFor(ms[j], ids.refs[j]))
  {
    RefsForKeyedByOwnId(ms, ids.refs);
    RefsForOnePerMapping(ms, ids.refs);
  }

  /**
   * The outbound request is absent exactly for an empty batch; otherwise it
   * is a "link" request whose total count is the batch size, whose
   * transaction id is the status's, and whose item j, in input order,
   * carries mapping j's id and address under the reference id of ref j.
   */
  lemma NewLinkRequestMessage(cfg: MapperConfig, ms: seq<MapperValue>, txnId: Option<string>, ids: FreshIds, now: Timestamp)
    requires WellFormedIds(ids, |ms|)
    requires NewLinkRequest(cfg, ms, txnId, ids, now).Ok?
    ensures var b := NewLinkRequest(cfg, ms, txnId, ids, now).value;
      && (b.request.None? <==> |ms| == 0)
      && (b.request.Some? ==>
            && b.request.value.signature == cfg.signature
            && b.request.value.header.action == "link"
            && b.request.value.header.totalCount == |ms|
            && b.request.value.message.transactionId == b.record.txnId
            && |b.request.value.message.linkRequest| == |ms|
            && forall j :: 0 <= j < |ms| ==>
                 var item := b.request.value.message.linkRequest[j];
                 && Some(item.id) == ms[j].id && Some(item.fa) == ms[j].fa
                 && item.referenceId == ids.refs[j]
                 && item.referenceId in b.record.refs
                 && b.record.refs[item.referenceId] == RefStatusFor(ms[j], item.referenceId))
  {
    if |ms| > 0 {
      LinkItemsAt(ms, ids.refs, now);
      RefsForOnePerMapping(ms, ids.refs);
    }
  }

  // ------------------------------------------------------ dispatch outcome

  /**
   * The outcome rule shared by both dispatch forms: ACK gives `pdng`, a
   * negative ACK gives `rjct`, a read timeout leaves the status alone
   * (None), and every other failure gives `rjct`.
   */
  function LinkDispatchRule(o: HttpOutcome): (r: Option<RequestStatus>)
    ensures r.None? <==> o.ReadTimeout?
    ensures r == Some(Pdng) <==> o == Response(ACK)
    ensures r == Some(Rjct) <==> (!o.ReadTimeout? && o != Response(ACK))
  {
    match o
    case Response(ack) => if ack != ACK then Some(Rjct) else Some(Pdng)
    case ReadTimeout => None
    case _ => Some(Rjct)
  }

  /** The status after a link dispatch that ended in `o`. */
  function AfterLinkDispatch(rec: TxnRecord, o: HttpOutcome): (r: TxnRecord)
    ensures r.txnId == rec.txnId && r.refs.Keys == rec.refs.Keys
    ensures o.ReadTimeout? ==> r == rec
    ensures o == Response(ACK) ==> AllStatus(r, Pdng)
    ensures !o.ReadTimeout? && o != Response(ACK) ==> AllStatus(r, Rjct)
  {
    match LinkDispatchRule(o)
    case None => rec
    case Some(s) => ChangeAll(rec, s)
  }

  /** The background form of the dispatch task; it changes only `txn`. */
  method StartLinkProcess(request: LinkHttpRequest, txn: TxnStatus, o: HttpOutcome)
    modifies txn
    ensures txn.Record() == AfterLinkDispatch(old(txn.Record()), o)
    ensures txn.callableOnComplete == old(txn.callableOnComplete)
  {
    match LinkDispatchRule(o)
    case None =>
    case Some(s) => txn.ChangeAllStatus(s);
  }

  /** The blocking form of the dispatch task: the same rule, the same single object changed. */
  method StartLinkProcessSync(request: LinkHttpRequest, txn: TxnStatus, o: HttpOutcome)
    modifies txn
    ensures txn.Record() == AfterLinkDispatch(old(txn.Record()), o)
    ensures txn.callableOnComplete == old(txn.callableOnComplete)
  {
    var s := LinkDispatchRule(o);
    if s.Some? {
      txn.ChangeAllStatus(s.value);
    }
  }

  // ------------------------------------------------------------ poll loop

  /**
   * The record at the transaction's key when the engine reads it for the
   * k-th time: the latest other writer's record written at or before that
   * read, or the initial record.
   */
  function Observed(init: TxnRecord, writes: seq<Option<TxnRecord>>, k: nat): (r: TxnRecord)
    ensures k < |writes| && writes[k].Some? ==> r == writes[k].value
    ensures (forall j :: 0 <= j <= k && j < |writes| ==> writes[j].None?) ==> r == init
    ensures r == init ||
      exists j :: 0 <= j <= k && j < |writes| && writes[j] == Some(r) &&
        forall j' :: j < j' <= k && j' < |writes| ==> writes[j'].None?
    decreases k
  {
    if k < |writes| && writes[k].Some? then writes[k].value
    else if k == 0 then init
    else Observed(init, writes, k - 1)
  }

  /** The poll loop from read number k on. */
  function PollFrom(init: TxnRecord, writes: seq<Option<TxnRecord>>, k: nat, maxRetries: int): (r: Result<TxnRecord>)
    ensures r.Err? ==> r.error == MaxRetriesLinking
    ensures r.Ok? ==> IsTerminal(r.value.status)
    decreases maxRetries - k
  {
    if k >= maxRetries then Err(MaxRetriesLinking)
    else if IsTerminal(Observed(init, writes, k).status) then Ok(Observed(init, writes, k))
    else PollFrom(init, writes, k + 1, maxRetries)
  }

  function Poll(init: TxnRecord, writes: seq<Option<TxnRecord>>, maxRetries: int): Result<TxnRecord> {
    PollFrom(init, writes, 0, maxRetries)
  }

  /**
   * From read k on, the poll gives up only if no read in the budget is
   * terminal, and otherwise returns read `i`, the first terminal one.
   */
  lemma {:induction false} PollFromFirstTerminal(init: TxnRecord, writes: seq<Option<TxnRecord>>, k: nat, maxRetries: int)
      returns (i: int)
    ensures PollFrom(init, writes, k, maxRetries).Err? ==>
      forall j :: k <= j < maxRetries ==> !IsTerminal(Observed(init, writes, j).status)
    ensures PollFrom(init, writes, k, maxRetries).Ok? ==>
      && k <= i < maxRetries
      && PollFrom(init, writes, k, maxRetries).value == Observed(init, writes, i)
      && forall j :: k <= j < i ==> !IsTerminal(Observed(init, writes, j).status)
    decreases maxRetries - k
  {
    i := k;
    if k < maxRetries && !IsTerminal(Observed(init, writes, k).status) {
      i := PollFromFirstTerminal(init, writes, k + 1, maxRetries);
      assert PollFrom(init, writes, k, maxRetries) == PollFrom(init, writes, k + 1, maxRetries);
    }
  }

  /**
   * The wait loop gives up with G2P-MAP-100 exactly when none of the first
   * `maxRetries` reads is terminal; otherwise it returns the first
   * terminal record it read.
   */
  lemma PollFirstTerminal(init: TxnRecord, writes: seq<Option<TxnRecord>>, maxRetries: int)
    ensures Poll(init, writes, maxRetries).Err? <==>
      forall i :: 0 <= i < maxRetries ==> !IsTerminal(Observed(init, writes, i).status)
    ensures Poll(init, writes, maxRetries).Err? ==> Poll(init, writes, maxRetries).error == MaxRetriesLinking
    ensures Poll(init, writes, maxRetries).Ok? ==>
      exists i :: 0 <= i < maxRetries
        && Poll(init, writes, maxRetries).value == Observed(init, writes, i)
        && IsTerminal(Observed(init, writes, i).status)
        && forall i' :: 0 <= i' < i ==> !IsTerminal(Observed(init, writes, i').status)
  {
    var i := PollFromFirstTerminal(init, writes, 0, maxRetries);
  }

  /** No other writer wrote the key. */
  predicate NoOtherWriter(writes: seq<Option<TxnRecord>>) {
    forall k :: 0 <= k < |writes| ==> writes[k].None?
  }

  /** Without another writer every read sees the initial record. */
  lemma {:induction false} ObservedWithoutWriter(init: TxnRecord, writes: seq<Option<TxnRecord>>, k: nat)
    requires NoOtherWriter(writes)
    ensures Observed(init, writes, k) == init
    decreases k
  {
    if k > 0 {
      ObservedWithoutWriter(init, writes, k - 1);
    }
  }

  /**
   * Since the dispatch does not write the store, a wait whose initial
   * record is not terminal and which no other writer serves always ends in
   * G2P-MAP-100, whatever the dispatch outcome was.
   */
  lemma PollWithoutWriterGivesUp(init: TxnRecord, writes: seq<Option<TxnRecord>>, maxRetries: int)
    requires NoOtherWriter(writes) && !IsTerminal(init.status)
    ensures Poll(init, writes, maxRetries) == Err(MaxRetriesLinking)
  {
    forall i | 0 <= i < maxRetries ensures !IsTerminal(Observed(init, writes, i).status) {
      ObservedWithoutWriter(init, writes, i);
    }
    PollFirstTerminal(init, writes, maxRetries);
  }

  // ------------------------------------------------------------- service

  /** The link service, with the durable store it writes and polls. */
  class MapperLinkService {
    const cfg: MapperConfig
    var store: map<string, TxnRecord>

    constructor (cfg: MapperConfig, store: map<string, TxnRecord>)
      ensures this.cfg == cfg && this.store == store
    {
      this.cfg := cfg;
      this.store := store;
    }

    /** The store key of a transaction. */
    function Key(txnId: string): string
      reads this
    {
      cfg.queueLinkName + txnId
    }

    /**
     * The builder: a fresh status object holding the initial record and
     * the outbound request, or the validation error.
     */
    method GetNewLinkRequest(ms: seq<MapperValue>, txnId: Option<string>, ids: FreshIds, now: Timestamp)
      returns (r: Result<LinkHttpRequestAndStatus>)
      requires |ids.refs| == |ms|
      ensures NewLinkRequest(cfg, ms, txnId, ids, now).Err? ==> r == Err(ValidationError)
      ensures NewLinkRequest(cfg, ms, txnId, ids, now).Ok? ==>
        && r.Ok? && fresh(r.value.txn)
        && r.value.request == NewLinkRequest(cfg, ms, txnId, ids, now).value.request
        && r.value.txn.Record() == NewLinkRequest(cfg, ms, txnId, ids, now).value.record
        && r.value.txn.callableOnComplete == None
    {
      var t := ChooseTxnId(txnId, ids.txn);
      var batch := BuildLinkBatch(ms, ids.refs, now);
      if batch.Err? {
        return Err(batch.error);
      }
      var txn := new TxnStatus(t, Rcvd, batch.value.refs, None);
      var request := None;
      if |ms| > 0 {
        var header := MsgHeader(ids.message, now, "link", cfg.senderId, cfg.linkSenderUrl, |ms|);
        request := Some(LinkHttpRequest(cfg.signature, header, LinkModels.LinkRequest(t, batch.value.items)));
      }
      r := Ok(LinkHttpRequestAndStatus(request, txn));
    }

    /**
     * The wait loop: at most `maxRetries` reads of `key`, each preceded by
     * whatever another writer put there; returns the first terminal record,
     * or G2P-MAP-100 once the budget is spent. A non-positive budget reads
     * nothing. Only the key itself can have changed.
     */
    method WaitForTerminal(key: string, maxRetries: int, writes: seq<Option<TxnRecord>>)
      returns (r: Result<TxnRecord>, readCount: nat)
      requires key in store
      modifies this
      ensures r == Poll(old(store[key]), writes, maxRetries)
      ensures readCount <= (if maxRetries < 0 then 0 else maxRetries)
      ensures r.Err? ==> readCount == (if maxRetries < 0 then 0 else maxRetries)
      ensures r.Ok? ==> readCount > 0 && r.value == Observed(old(store[key]), writes, readCount - 1)
      ensures key in store && store[key] == (if readCount == 0 then old(store[key]) else Observed(old(store[key]), writes, readCount - 1))
      ensures forall k :: k != key ==> (k in store <==> k in old(store)) && (k in store ==> store[k] == old(store)[k])
    {
      var init := store[key];
      var retry: nat := 0;
      while retry < maxRetries
        invariant maxRetries >= 0 ==> retry <= maxRetries
        invariant maxRetries < 0 ==> retry == 0
        invariant key in store && store[key] == (if retry == 0 then init else Observed(init, writes, retry - 1))
        invariant Poll(init, writes, maxRetries) == PollFrom(init, writes, retry, maxRetries)
        invariant forall k :: k != key ==> (k in store <==> k in old(store)) && (k in store ==> store[k] == old(store)[k])
        decreases maxRetries - retry
      {
        if retry < |writes| && writes[retry].Some? {
          store := store[key := writes[retry].value];
        }
        var rec := store[key];
        assert rec == Observed(init, writes, retry);
        if IsTerminal(rec.status) {
          return Ok(rec), retry + 1;
        }
        retry := retry + 1;
      }
      r, readCount := Err(MaxRetriesLinking), retry;
    }

    /**
     * The cooperative entry point. The initial record is stored under the
     * transaction's key; an empty batch then returns `succ` with no
     * dispatch (the stored copy stays `rcvd`); without waiting, the
     * dispatch is only scheduled (`scheduled` is the request the
     * background task will send) and the returned object is still the
     * builder's `rcvd` one; when waiting, the dispatch runs and the result
     * is whatever the poll loop reads from the store.
     */
    method LinkRequest(ms: seq<MapperValue>, txnId: Option<string>, waitForResponse: bool, maxRetries: int,
                       ids: FreshIds, now: Timestamp, o: HttpOutcome, writes: seq<Option<TxnRecord>>)
      returns (r: Result<TxnStatus>, scheduled: Option<LinkHttpRequest>)
      requires WellFormedIds(ids, |ms|)
      modifies this
      ensures NewLinkRequest(cfg, ms, txnId, ids, now).Err? ==>
        r == Err(ValidationError) && store == old(store) && scheduled == None
      ensures NewLinkRequest(cfg, ms, txnId, ids, now).Ok? ==>
        var b := NewLinkRequest(cfg, ms, txnId, ids, now).value;
        && Key(b.record.txnId) in store
        && (forall k :: k != Key(b.record.txnId) ==> (k in store <==> k in old(store)) && (k in store ==> store[k] == old(store)[k]))
        && (|ms| == 0 ==>
              && r.Ok? && fresh(r.value) && r.value.Record() == b.record.(status := Succ)
              && store == old(store)[Key(b.record.txnId) := b.record]
              && scheduled == None)
        && (|ms| > 0 && !waitForResponse ==>
              && r.Ok? && fresh(r.value) && r.value.Record() == b.record
              && store == old(store)[Key(b.record.txnId) := b.record]
              && scheduled == b.request)
        && (|ms| > 0 && waitForResponse ==>
              && scheduled == None
              && (r.Err? <==> Poll(b.record, writes, maxRetries).Err?)
              && (r.Err? ==> r.error == MaxRetriesLinking)
              && (r.Ok? ==> fresh(r.value) && r.value.Record() == Poll(b.record, writes, maxRetries).value))
    {
      scheduled := None;
      var built := GetNewLinkRequest(ms, txnId, ids, now);
      if built.Err? {
        return Err(built.error), None;
      }
      var txn := built.value.txn;
      var key := Key(txn.txnId);
      store := store[key := txn.Record()];
      if |ms| == 0 {
        txn.status := Succ;
        return Ok(txn), None;
      }
      if !waitForResponse {
        // The dispatch is only scheduled: the caller gets the object before it runs.
        return Ok(txn), built.value.request;
      }
      StartLinkProcess(built.value.request.value, txn, o);
      var polled, _ := WaitForTerminal(key, maxRetries, writes);
      if polled.Err? {
        return Err(polled.error), None;
      }
      var res := new TxnStatus.FromRecord(polled.value);
      r := Ok(res);
    }

    /**
     * The blocking entry point. As the cooperative one, except that the
     * dispatch runs before the wait flag is looked at, so without waiting
     * the returned object already carries the dispatch outcome.
     */
    method LinkRequestSync(ms: seq<MapperValue>, txnId: Option<string>, waitForResponse: bool, maxRetries: int,
                           ids: FreshIds, now: Timestamp, o: HttpOutcome, writes: seq<Option<TxnRecord>>)
      returns (r: Result<TxnStatus>)
      requires WellFormedIds(ids, |ms|)
      modifies this
      ensures NewLinkRequest(cfg, ms, txnId, ids, now).Err? ==>
        r == Err(ValidationError) && store == old(store)
      ensures NewLinkRequest(cfg, ms, txnId, ids, now).Ok? ==>
        var b := NewLinkRequest(cfg, ms, txnId, ids, now).value;
        && Key(b.record.txnId) in store
        && (forall k :: k != Key(b.record.txnId) ==> (k in store <==> k in old(store)) && (k in store ==> store[k] == old(store)[k]))
        && (|ms| == 0 ==>
              && r.Ok? && fresh(r.value) && r.value.Record() == b.record.(status := Succ)
              && store == old(store)[Key(b.record.txnId) := b.record])
        && (|ms| > 0 && !waitForResponse ==>
              && r.Ok? && fresh(r.value) && r.value.Record() == AfterLinkDispatch(b.record, o)
              && store == old(store)[Key(b.record.txnId) := b.record])
        && (|ms| > 0 && waitForResponse ==>
              && (r.Err? <==> Poll(b.record, writes, maxRetries).Err?)
              && (r.Err? ==> r.error == MaxRetriesLinking)
              && (r.Ok? ==> fresh(r.value) && r.value.Record() == Poll(b.record, writes, maxRetries).value))
    {
      var built := GetNewLinkRequest(ms, txnId, ids, now);
      if built.Err? {
        return Err(built.error);
      }
      var txn := built.value.txn;
      var key := Key(txn.txnId);
      store := store[key := txn.Record()];
      if |ms| == 0 {
        txn.status := Succ;
        return Ok(txn);
      }
      StartLinkProcessSync(built.value.request.value, txn, o);
      if !waitForResponse {
        return Ok(txn);
      }
      var polled, _ := WaitForTerminal(key, maxRetries, writes);
      if polled.Err? {
        return Err(polled.error);
      }
      var res := new TxnStatus.FromRecord(polled.value);
      r := Ok(res);
    }
  }

  /** The builder's two results. */
  datatype LinkHttpRequestAndStatus = LinkHttpRequestAndStatus(request: Option<LinkHttpRequest>, txn: TxnStatus)

  /**
   * Both entry points, when waiting on a non-empty batch that no other
   * writer serves, give up with G2P-MAP-100 even after an ACK: the store
   * still holds the initial `rcvd` record.
   */
  method WaitWithoutWriterGivesUp(svc: MapperLinkService, ms: seq<MapperValue>, txnId: Option<string>, maxRetries: int,
                                  ids: FreshIds, now: Timestamp, writes: seq<Option<TxnRecord>>)
      returns (r: Result<TxnStatus>, rSync: Result<TxnStatus>)
    requires WellFormedIds(ids, |ms|) && |ms| > 0 && forall j :: 0 <= j < |ms| ==> Linkable(ms[j])
    requires NoOtherWriter(writes)
    modifies svc
    ensures r == Err(MaxRetriesLinking) && rSync == Err(MaxRetriesLinking)
  {
    var b := NewLinkRequest(svc.cfg, ms, txnId, ids, now).value;
    PollWithoutWriterGivesUp(b.record, writes, maxRetries);
    var scheduled;
    r, scheduled := svc.LinkRequest(ms, txnId, true, maxRetries, ids, now, Response(ACK), writes);
    rSync := svc.LinkRequestSync(ms, txnId, true, maxRetries, ids, now, Response(ACK), writes);
  }
}
