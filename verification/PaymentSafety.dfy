/**
 * Safety of the whole interleaved system with the deduplicating ledger: marker soundness
 * under lost updates, no credit without confirmation, at most one credit per payment.
 */
module PaymentSafety {
  import opened Prelude
  import opened Payments
  import opened PaymentMachine
  import opened PaymentTable

  // ---------- The invariant ----------

  /** Some webhook read a status for this row that maps to COMPLETED. */
  ghost predicate Confirmed(s: State, id: nat) {
    exists r | r in s.log.readings :: r.id == id && MapClipStatus(r.status) == Completed
  }

  /** Some delivered callback names this row's alias with a matching amount and currency. */
  ghost predicate Vouched(s: State, t: Terms) {
    exists cb | cb in s.log.callbacks :: t.orderId == Some(cb.alias) && CallbackMatches(cb, t)
  }

  ghost predicate Proven(s: State, id: nat, t: Terms) {
    if t.provider == Clip then Confirmed(s, id) else Vouched(s, t)
  }

  /** A COMPLETED marker in a stored or locally held payload is backed by the ledger. */
  ghost predicate PayloadOk(s: State, t: Terms, p: Payload) {
    HasCompletedTopup(p) ==>
      && StoredMarker(p).value.externalTransactionId == t.key
      && StoredMarker(p).value.amount == CreditAmount(t)
      && LedgerHas(s.ledger, t.key)
  }

  ghost predicate RowOk(s: State, id: nat, row: PaymentRow) {
    PayloadOk(s, row.terms, row.payload) && (row.status == Completed ==> Proven(s, id, row.terms))
  }

  ghost predicate Holds(s: State, id: nat, t: Terms) {
    id in s.rows && s.rows[id].terms == t
  }

  ghost predicate ReqOk(t: Terms, req: TopupRequest) {
    req.key == t.key && req.amount == CreditAmount(t)
  }

  ghost predicate SnapOk(s: State, snap: Snapshot) {
    && Holds(s, snap.id, snap.row.terms)
    && snap.row.terms.provider == Clip
    && PayloadOk(s, snap.row.terms, snap.row.payload)
  }

  ghost predicate JobOk(s: State, snap: Snapshot, job: Job) {
    && (JobStatus(job) == Completed ==> Confirmed(s, snap.id))
    && (!job.Confirm? ==> ReqOk(snap.row.terms, job.req))
    && (job.Credited? || job.Duplicate? ==> LedgerHas(s.ledger, snap.row.terms.key))
  }

  ghost predicate WebhookOk(s: State, w: WebhookPc) {
    match w
    case WQuery(_, _, snap) => SnapOk(s, snap)
    case WMergeRead(d, job) => SnapOk(s, d.snap) && JobOk(s, d.snap, job)
    case WMergeWrite(d, job, read) => SnapOk(s, d.snap) && JobOk(s, d.snap, job) && PayloadOk(s, d.snap.row.terms, read)
    case WTopup(d, req) => SnapOk(s, d.snap) && ReqOk(d.snap.row.terms, req) && Confirmed(s, d.snap.id)
    case WNotices(d, req) => SnapOk(s, d.snap) && ReqOk(d.snap.row.terms, req) && Confirmed(s, d.snap.id)
    case _ => true
  }

  ghost predicate SipOk(s: State, id: nat, t: Terms, cb: SipCallback) {
    && Holds(s, id, t)
    && t.provider == Sip && t.orderId == Some(cb.alias)
    && CallbackMatches(cb, t) && cb in s.log.callbacks
  }

  ghost predicate CallbackOk(s: State, b: CallbackPc) {
    match b
    case BFind(cb) => cb in s.log.callbacks
    case BReject(_, _, _) => true
    case BCompleteRead(id, t, cb) => SipOk(s, id, t, cb)
    case BCompleteWrite(id, t, cb, read) => SipOk(s, id, t, cb) && PayloadOk(s, t, read)
    case BTxnFind(id, t, cb) => SipOk(s, id, t, cb)
    case BTxnCreate(id, t, cb) => SipOk(s, id, t, cb)
    case BRefetch(id, t, cb) => SipOk(s, id, t, cb)
    case BTopup(id, t, cb, req) => SipOk(s, id, t, cb) && ReqOk(t, req)
    case BMergeRead(id, t, cb, req) => SipOk(s, id, t, cb) && ReqOk(t, req) && LedgerHas(s.ledger, t.key)
    case BMergeWrite(id, t, cb, req, read) =>
      SipOk(s, id, t, cb) && ReqOk(t, req) && LedgerHas(s.ledger, t.key) && PayloadOk(s, t, read)
    case BNotices(_) => true
  }

  ghost predicate PcOk(s: State, pc: Pc) {
    match pc
    case InWebhook(w) => WebhookOk(s, w)
    case InCallback(b) => CallbackOk(s, b)
    case _ => true
  }

  /** The entry credits the payment `id`, with the amount fixed at creation, and that payment was proven paid. */
  ghost predicate EntryFor(s: State, req: TopupRequest, id: nat) {
    id in s.rows && ReqOk(s.rows[id].terms, req) && Proven(s, id, s.rows[id].terms)
  }

  ghost predicate EntryOk(s: State, req: TopupRequest) {
    exists id :: EntryFor(s, req, id)
  }

  ghost predicate DistinctKeys(ledger: seq<TopupRequest>) {
    forall i, j | 0 <= i < j < |ledger| :: ledger[i].key != ledger[j].key
  }

  ghost predicate RowsOk(s: State) {
    forall id | id in s.rows :: RowOk(s, id, s.rows[id])
  }

  ghost predicate PcsOk(s: State) {
    forall h | h in s.handlers :: PcOk(s, s.handlers[h])
  }

  ghost predicate LedgerOk(s: State) {
    DistinctKeys(s.ledger) && forall k | 0 <= k < |s.ledger| :: EntryOk(s, s.ledger[k])
  }

  ghost predicate Safe(s: State) {
    TableInv(s) && RowsOk(s) && PcsOk(s) && LedgerOk(s)
  }

  // ---------- Growth keeps every fact ----------

  lemma ProvenGrows(s: State, s': State, id: nat, t: Terms)
    requires Grows(s, s') && Proven(s, id, t)
    ensures Proven(s', id, t)
  {
  }

  lemma PcGrows(s: State, s': State, pc: Pc)
    requires Grows(s, s') && PcOk(s, pc)
    ensures PcOk(s', pc)
  {
  }

  lemma EntryGrows(s: State, s': State, req: TopupRequest)
    requires Grows(s, s') && EntryOk(s, req)
    ensures EntryOk(s', req)
  {
    var id :| EntryFor(s, req, id);
    ProvenGrows(s, s', id, s.rows[id].terms);
    assert EntryFor(s', req, id);
  }

  // ---------- Every turn is safe ----------

  ghost predicate EffectSafe(s: State, e: Effect) {
    match e
    case Update(id, row) => RowOk(s, id, row)
    case Insert(id, row) => RowOk(s, id, row)
    case SendTopup(req, o) => Credits(o) ==> !LedgerHas(s.ledger, req.key) && EntryOk(s, req)
    case _ => true
  }

  /** The turn's effect keeps the invariant, and the handler's next locals are backed by the state it leaves. */
  ghost predicate TurnSound(s: State, h: nat, t: Turn) {
    t.Turn? ==> EffectSafe(s, t.effect) && PcOk(Act(s, h, t.effect), t.pc)
  }

  lemma ProcessSafe(s: State, h: nat, p: ProcessPc, a: Answer)
    requires RowsOk(s)
    ensures TurnSound(s, h, NextProcess(s, p, a))
  {
  }

  lemma VerifySafe(s: State, h: nat, v: VerifyPc, a: Answer)
    requires RowsOk(s)
    ensures TurnSound(s, h, NextVerify(s, v, a))
  {
  }

  lemma QrSafe(s: State, h: nat, q: QrPc, a: Answer)
    requires RowsOk(s)
    ensures TurnSound(s, h, NextQr(s, q, a))
  {
  }

  /** The stored marker after a webhook merge is backed by the ledger, even when `read` is stale. */
  lemma MergeSafe(s: State, row: PaymentRow, d: Delivery, job: Job, read: Payload)
    requires SnapOk(s, d.snap) && JobOk(s, d.snap, job) && PayloadOk(s, d.snap.row.terms, read)
    requires row.terms == d.snap.row.terms
    ensures RowOk(s, d.snap.id, MergeUpdate(row, JobStatus(job), read, JobParams(d, job)))
  {
    MergeMarker(read, JobParams(d, job));
  }

  /** Both ways out of a merge carry locals that the ledger and the provider readings back. */
  lemma AfterMergeOk(s: State, d: Delivery, job: Job)
    requires SnapOk(s, d.snap) && JobOk(s, d.snap, job)
    ensures WebhookOk(s, AfterMerge(d, job)) && WebhookOk(s, MergeError(d, job))
  {
  }

  lemma MergeWriteSafe(s: State, h: nat, d: Delivery, job: Job, read: Payload, a: Answer)
    requires WebhookOk(s, WMergeWrite(d, job, read))
    ensures TurnSound(s, h, NextWebhook(s, WMergeWrite(d, job, read), a, true))
  {
    var t := NextWebhook(s, WMergeWrite(d, job, read), a, true);
    if t.Turn? {
      MergeSafe(s, s.rows[d.snap.id], d, job, read);
      AfterMergeOk(s, d, job);
      ActGrows(s, h, InWebhook(WMergeWrite(d, job, read)), t.effect);
      PcGrows(s, Act(s, h, t.effect), t.pc);
    }
  }

  lemma TopupSafe(s: State, h: nat, d: Delivery, req: TopupRequest, a: Answer)
    requires WebhookOk(s, WTopup(d, req))
    ensures TurnSound(s, h, NextWebhook(s, WTopup(d, req), a, true))
  {
    var t := NextWebhook(s, WTopup(d, req), a, true);
    if t.Turn? {
      assert EntryFor(s, req, d.snap.id);
      ActGrows(s, h, InWebhook(WTopup(d, req)), t.effect);
      PcGrows(s, Act(s, h, t.effect), InWebhook(WTopup(d, req)));
    }
  }

  lemma QuerySafe(s: State, h: nat, hook: string, lock: string, snap: Snapshot, a: Answer)
    requires SnapOk(s, snap)
    ensures TurnSound(s, h, NextWebhook(s, WQuery(hook, lock, snap), a, true))
  {
    var t := NextWebhook(s, WQuery(hook, lock, snap), a, true);
    if t.Turn? {
      assert t.effect.r in Act(s, h, t.effect).log.readings;
    }
  }

  lemma RereadSafe(s: State, h: nat, w: WebhookPc, a: Answer)
    requires RowsOk(s) && w.WReread?
    ensures TurnSound(s, h, NextWebhook(s, w, a, true))
  {
  }

  lemma MergeReadSafe(s: State, h: nat, w: WebhookPc, a: Answer)
    requires RowsOk(s) && WebhookOk(s, w) && w.WMergeRead?
    ensures TurnSound(s, h, NextWebhook(s, w, a, true))
  {
  }

  lemma LockTurnSafe(s: State, h: nat, w: WebhookPc, a: Answer)
    requires w.WFind? || w.WLock? || w.WNotices? || w.WReceipt? || w.WRelease?
    ensures TurnSound(s, h, NextWebhook(s, w, a, true))
  {
  }

  lemma WebhookSafe(s: State, h: nat, w: WebhookPc, a: Answer)
    requires RowsOk(s) && WebhookOk(s, w)
    ensures TurnSound(s, h, NextWebhook(s, w, a, true))
  {
    match w
    case WMergeWrite(d, job, read) => MergeWriteSafe(s, h, d, job, read, a);
    case WTopup(d, req) => TopupSafe(s, h, d, req, a);
    case WQuery(hook, lock, snap) => QuerySafe(s, h, hook, lock, snap, a);
    case WReread(_, _, _) => RereadSafe(s, h, w, a);
    case WMergeRead(_, _) => MergeReadSafe(s, h, w, a);
    case _ => LockTurnSafe(s, h, w, a);
  }

  /** The row fetched again by alias is the row that was completed, because aliases are unique. */
  lemma RefetchSafe(s: State, h: nat, id: nat, t: Terms, cb: SipCallback, a: Answer)
    requires UniqueAliases(s) && SipOk(s, id, t, cb)
    ensures TurnSound(s, h, NextCallback(s, BRefetch(id, t, cb), a, true))
  {
    if a.Found? && IsSip(s, a.id, cb.alias) {
      assert SameAlias(s, id, a.id);
    }
  }

  lemma SipTopupSafe(s: State, h: nat, id: nat, t: Terms, cb: SipCallback, req: TopupRequest, a: Answer)
    requires CallbackOk(s, BTopup(id, t, cb, req))
    ensures TurnSound(s, h, NextCallback(s, BTopup(id, t, cb, req), a, true))
  {
    var turn := NextCallback(s, BTopup(id, t, cb, req), a, true);
    if turn.Turn? {
      assert EntryFor(s, req, id);
      ActGrows(s, h, InCallback(BTopup(id, t, cb, req)), turn.effect);
      PcGrows(s, Act(s, h, turn.effect), InCallback(BTopup(id, t, cb, req)));
    }
  }

  lemma CompleteSafe(s: State, h: nat, b: CallbackPc, a: Answer)
    requires b.BCompleteWrite? && CallbackOk(s, b)
    ensures TurnSound(s, h, NextCallback(s, b, a, true))
  {
    assert Vouched(s, b.terms);
    assert StoredMarker(b.read + map[Callback := CallbackValue(b.cb)]) == StoredMarker(b.read);
  }

  /** A callback that passes the validations vouches for the row it found. */
  lemma FindSafe(s: State, h: nat, cb: SipCallback, a: Answer)
    requires cb in s.log.callbacks
    ensures TurnSound(s, h, NextCallback(s, BFind(cb), a, true))
  {
  }

  lemma SipReadSafe(s: State, h: nat, b: CallbackPc, a: Answer)
    requires RowsOk(s) && CallbackOk(s, b) && (b.BCompleteRead? || b.BMergeRead?)
    ensures TurnSound(s, h, NextCallback(s, b, a, true))
  {
  }

  lemma MarkerSafe(s: State, h: nat, b: CallbackPc, a: Answer)
    requires b.BMergeWrite? && CallbackOk(s, b)
    ensures TurnSound(s, h, NextCallback(s, b, a, true))
  {
    MergeMarker(b.read, MarkerOnly(b.req));
  }

  lemma RejectSafe(s: State, h: nat, b: CallbackPc, a: Answer)
    requires RowsOk(s) && b.BReject?
    ensures TurnSound(s, h, NextCallback(s, b, a, true))
  {
  }

  lemma RecordSafe(s: State, h: nat, b: CallbackPc, a: Answer)
    requires CallbackOk(s, b) && (b.BTxnFind? || b.BTxnCreate? || b.BNotices?)
    ensures TurnSound(s, h, NextCallback(s, b, a, true))
  {
  }

  lemma CallbackSafe(s: State, h: nat, b: CallbackPc, a: Answer)
    requires RowsOk(s) && UniqueAliases(s) && CallbackOk(s, b)
    ensures TurnSound(s, h, NextCallback(s, b, a, true))
  {
    match b
    case BFind(cb) => FindSafe(s, h, cb, a);
    case BCompleteRead(_, _, _) => SipReadSafe(s, h, b, a);
    case BMergeRead(_, _, _, _) => SipReadSafe(s, h, b, a);
    case BCompleteWrite(_, _, _, _) => CompleteSafe(s, h, b, a);
    case BMergeWrite(_, _, _, _, _) => MarkerSafe(s, h, b, a);
    case BRefetch(id, t, cb) => RefetchSafe(s, h, id, t, cb, a);
    case BTopup(id, t, cb, req) => SipTopupSafe(s, h, id, t, cb, req, a);
    case BReject(_, _, _) => RejectSafe(s, h, b, a);
    case _ => RecordSafe(s, h, b, a);
  }

  lemma ThrowSafe(s: State, pc: Pc)
    requires PcOk(s, pc) && Rejecting(pc).Turn?
    ensures PcOk(s, Rejecting(pc).pc)
  {
  }

  lemma TurnSafe(s: State, h: nat, pc: Pc, a: Answer)
    requires RowsOk(s) && UniqueAliases(s) && PcOk(s, pc)
    ensures TurnSound(s, h, Next(s, pc, a, true))
  {
    if a == Throws {
      if Rejecting(pc).Turn? {
        ThrowSafe(s, pc);
      }
    } else {
      match pc
      case InProcess(p) => ProcessSafe(s, h, p, a);
      case InVerify(v) => VerifySafe(s, h, v, a);
      case InWebhook(w) => WebhookSafe(s, h, w, a);
      case InQr(q) => QrSafe(s, h, q, a);
      case InCallback(b) => CallbackSafe(s, h, b, a);
      case _ =>
    }
  }

  // ---------- Every step is safe ----------

  lemma LedgerSafe(s: State, h: nat, pc: Pc, e: Effect)
    requires LedgerOk(s) && EffectSafe(s, e) && Fits(s, pc, e)
    ensures LedgerOk(Act(s, h, e))
  {
    var s1 := Act(s, h, e);
    ActGrows(s, h, pc, e);
    forall k | 0 <= k < |s1.ledger|
      ensures EntryOk(s1, s1.ledger[k])
    {
      EntryGrows(s, s1, s1.ledger[k]);
    }
  }

  lemma RowsSafe(s: State, h: nat, pc: Pc, e: Effect)
    requires RowsOk(s) && EffectSafe(s, e) && Fits(s, pc, e)
    ensures RowsOk(Act(s, h, e))
  {
    var s1 := Act(s, h, e);
    ActGrows(s, h, pc, e);
    forall id | id in s1.rows
      ensures RowOk(s1, id, s1.rows[id])
    {
      assert RowOk(s, id, s1.rows[id]);
      if s1.rows[id].status == Completed {
        ProvenGrows(s, s1, id, s1.rows[id].terms);
      }
    }
  }

  lemma PcsSafe(s: State, s': State, h: nat)
    requires PcsOk(s) && Grows(s, s')
    requires h in s'.handlers && s'.handlers == s.handlers[h := s'.handlers[h]] && PcOk(s', s'.handlers[h])
    ensures PcsOk(s')
  {
    forall g | g in s'.handlers
      ensures PcOk(s', s'.handlers[g])
    {
      if g != h {
        PcGrows(s, s', s.handlers[g]);
      }
    }
  }

  /** Changing only program counters and callback deliveries keeps rows and ledger in order. */
  lemma SameTables(s: State, s': State)
    requires RowsOk(s) && LedgerOk(s) && Grows(s, s') && s'.rows == s.rows && s'.ledger == s.ledger
    ensures RowsOk(s') && LedgerOk(s')
  {
    forall id | id in s'.rows && s'.rows[id].status == Completed
      ensures Proven(s', id, s'.rows[id].terms)
    {
      assert RowOk(s, id, s.rows[id]);
      ProvenGrows(s, s', id, s.rows[id].terms);
    }
    forall k | 0 <= k < |s'.ledger|
      ensures EntryOk(s', s'.ledger[k])
    {
      EntryGrows(s, s', s'.ledger[k]);
    }
  }

  lemma SafeStep(s: State, l: Label, s': State)
    requires Safe(s) && Step(s, l, s', true)
    ensures Safe(s')
  {
    TableStep(s, l, s', true);
    match l
    case Start(h, pc) =>
      SameTables(s, s');
      PcsSafe(s, s', h);
    case Move(h, a) =>
      var pc := s.handlers[h];
      var t := Next(s, pc, a, true);
      TurnFits(s, pc, a, true);
      assert PcOk(s, pc);
      TurnSafe(s, h, pc, a);
      var s1 := Act(s, h, t.effect);
      ActGrows(s, h, pc, t.effect);
      LedgerSafe(s, h, pc, t.effect);
      RowsSafe(s, h, pc, t.effect);
      SameTables(s1, s');
      PcGrows(s1, s', t.pc);
      PcsSafe(s, s', h);
  }
}
