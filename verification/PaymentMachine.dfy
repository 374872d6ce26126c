/**
 * The payment backend as a transition system.  Any number of request handlers run
 * interleaved; each `await` of the source is one turn, answered by the environment, and
 * every await may reject, before or after its effect took place.
 */
module PaymentMachine {
  import opened Prelude
  import opened Payments

  // ---------- Handlers ----------

  /** `lockedPayment`: the row as read under the lock, with the joined user records. */
  datatype Snapshot = Snapshot(id: nat, row: PaymentRow, links: UserLinks)

  /** Which of the four webhook merges is being written. */
  datatype Job =
    | Confirm(status: Status)            // before the top-up
    | Credited(req: TopupRequest)        // after a successful top-up
    | Duplicate(req: TopupRequest)       // after a 409 from the ledger
    | TopupFailed(req: TopupRequest)     // after any other error

  /** The locals of a webhook delivery once the provider has answered. */
  datatype Delivery = Delivery(lock: string, snap: Snapshot, reply: ProviderReply, hook: string)

  datatype ProcessPc =
    | PRead(id: nat)
    | PSubmit(id: nat)
    | PCharge(id: nat)
    | PRecord(id: nat, reply: ProviderReply)

  datatype VerifyPc =
    | VRead(id: nat)
    | VQuery(id: nat, providerId: string)
    | VRecord(id: nat, reply: ProviderReply)

  datatype WebhookPc =
    | WFind(providerId: string, hook: string)
    | WLock(providerId: string, hook: string, lock: string)
    | WReread(providerId: string, hook: string, lock: string)
    | WQuery(hook: string, lock: string, snap: Snapshot)
    | WMergeRead(d: Delivery, job: Job)
    | WMergeWrite(d: Delivery, job: Job, read: Payload)
    | WTopup(d: Delivery, req: TopupRequest)
    | WNotices(d: Delivery, req: TopupRequest)
    | WReceipt(lock: string)
    | WRelease(lock: string)

  datatype QrPc =
    | QFind(terms: Terms)
    | QInsert(terms: Terms)
    | QToken(id: nat, terms: Terms)
    | QPost(id: nat, terms: Terms, retry: bool)
    | QRefresh(id: nat, terms: Terms)
    | QSave(id: nat, terms: Terms, qr: QrObject)

  datatype CallbackPc =
    | BFind(cb: SipCallback)
    | BReject(id: nat, cb: SipCallback, reason: string)
    | BCompleteRead(id: nat, terms: Terms, cb: SipCallback)
    | BCompleteWrite(id: nat, terms: Terms, cb: SipCallback, read: Payload)
    | BTxnFind(id: nat, terms: Terms, cb: SipCallback)
    | BTxnCreate(id: nat, terms: Terms, cb: SipCallback)
    | BRefetch(id: nat, terms: Terms, cb: SipCallback)
    | BTopup(id: nat, terms: Terms, cb: SipCallback, req: TopupRequest)
    | BMergeRead(id: nat, terms: Terms, cb: SipCallback, req: TopupRequest)
    | BMergeWrite(id: nat, terms: Terms, cb: SipCallback, req: TopupRequest, read: Payload)
    | BNotices(cb: SipCallback)

  /** Where a handler stands: the await it is about to issue, with its local variables. */
  datatype Pc =
    | InCreate(terms: Terms)
    | InProcess(p: ProcessPc)
    | InVerify(v: VerifyPc)
    | InWebhook(w: WebhookPc)
    | InQr(q: QrPc)
    | InCallback(b: CallbackPc)
    | Done

  // ---------- The environment ----------

  datatype LedgerOutcome =
    | Accepted               // 2xx, the wallet was credited
    | AcceptedThenError      // credited, but the answer was lost
    | Rejected               // any error without effect
    | Conflict               // 409

  datatype Answer =
    | Returns
    | Throws
    | ThrowsAfter
    | Absent
    | Found(id: nat, links: UserLinks)
    | Granted
    | Refused
    | Replies(reply: ProviderReply)
    | Ledger(outcome: LedgerOutcome)
    | Inserts(id: nat)
    | InsertsThenThrows(id: nat)
    | FreshAlias(alias: string)
    | CachedToken
    | QrCreated(qr: QrObject)
    | Unauthorized

  datatype SipCall = Refresh | Post(key: string, alias: string)

  /** A charge the card provider answered: the row it was made for and the id it was given. */
  datatype Charge = Charge(id: nat, providerId: string)

  /** A provider status read by a webhook on behalf of a row. */
  datatype Reading = Reading(id: nat, status: Option<string>)

  /** What has happened so far at the boundary of the system. */
  datatype Log = Log(
    readings: set<Reading>,
    callbacks: set<SipCallback>,
    acquired: multiset<nat>,
    released: multiset<nat>,
    topups: multiset<string>,
    charges: multiset<nat>,
    issued: set<Charge>,
    sip: map<nat, seq<SipCall>>)

  datatype State = State(
    rows: map<nat, PaymentRow>,
    locks: map<string, nat>,
    ledger: seq<TopupRequest>,
    transactions: seq<Transaction>,
    aliases: set<string>,
    handlers: map<nat, Pc>,
    log: Log)

  /** What one await does to the shared state. */
  datatype Effect =
    | NoEffect
    | Update(id: nat, row: PaymentRow)
    | Insert(id: nat, row: PaymentRow)
    | SendTopup(req: TopupRequest, outcome: LedgerOutcome)
    | TakeLock(lock: string)
    | DropLock(lock: string, freed: bool)
    | AddTransaction(t: Transaction)
    | ReadStatus(r: Reading)
    | AnswerCharge(charge: Charge)
    | CallSip(c: SipCall)
    | DrawAlias(alias: string)

  /** A turn of a handler: the effect of its await and the await that follows. */
  datatype Turn = Stuck | Turn(effect: Effect, pc: Pc)

  predicate LedgerHas(ledger: seq<TopupRequest>, key: string) {
    exists k | 0 <= k < |ledger| :: ledger[k].key == key
  }

  /** A deduplicating ledger answers 409 exactly to keys it holds; a naive one credits every request it accepts. */
  predicate LedgerAllows(dedup: bool, ledger: seq<TopupRequest>, key: string, o: LedgerOutcome) {
    if !dedup then o.Accepted? || o.Rejected?
    else if LedgerHas(ledger, key) then o.Rejected? || o.Conflict?
    else !o.Conflict?
  }

  predicate Credits(o: LedgerOutcome) {
    o.Accepted? || o.AcceptedThenError?
  }

  function SipCalls(s: State, h: nat): seq<SipCall> {
    if h in s.log.sip then s.log.sip[h] else []
  }

  /** The state after handler `h` caused `e`. */
  function Act(s: State, h: nat, e: Effect): State {
    match e
    case NoEffect => s
    case Update(id, row) => s.(rows := s.rows[id := row])
    case Insert(id, row) => s.(rows := s.rows[id := row])
    case SendTopup(req, o) =>
      s.(ledger := if Credits(o) then s.ledger + [req] else s.ledger,
      log := s.log.(topups := s.log.topups + multiset{req.key}))
    case TakeLock(lock) =>
      s.(locks := s.locks[lock := h], log := s.log.(acquired := s.log.acquired + multiset{h}))
    case DropLock(lock, freed) =>
      s.(locks := if freed && lock in s.locks && s.locks[lock] == h then s.locks - {lock} else s.locks,
      log := s.log.(released := s.log.released + multiset{h}))
    case AddTransaction(t) => s.(transactions := s.transactions + [t])
    case ReadStatus(r) => s.(log := s.log.(readings := s.log.readings + {r}))
    case AnswerCharge(c) =>
      s.(log := s.log.(charges := s.log.charges + multiset{c.id}, issued := s.log.issued + {c}))
    case CallSip(c) => s.(log := s.log.(sip := s.log.sip[h := SipCalls(s, h) + [c]]))
    case DrawAlias(alias) => s.(aliases := s.aliases + {alias})
  }

  // ---------- Table constraints ----------

  predicate KeyFree(s: State, key: string) {
    forall id | id in s.rows :: s.rows[id].terms.key != key
  }

  predicate ProviderIdFree(s: State, self: nat, row: PaymentRow) {
    row.providerPaymentId.Some? ==>
      forall id | id in s.rows && id != self ::
        !(s.rows[id].terms.provider == row.terms.provider && s.rows[id].providerPaymentId == row.providerPaymentId)
  }

  predicate IsClip(s: State, id: nat, providerId: string) {
    id in s.rows && s.rows[id].terms.provider == Clip && s.rows[id].providerPaymentId == Some(providerId)
  }

  predicate IsSip(s: State, id: nat, alias: string) {
    id in s.rows && s.rows[id].terms.provider == Sip && s.rows[id].terms.orderId == Some(alias)
  }

  /** One UPDATE: it commits, or commits and loses the answer, unless a unique index refuses it. */
  function Writing(s: State, id: nat, row: PaymentRow, a: Answer, next: Pc, failed: Pc): Turn {
    if id !in s.rows || !ProviderIdFree(s, id, row) then Stuck
    else if a == Returns then Turn(Update(id, row), next)
    else if a == ThrowsAfter then Turn(Update(id, row), failed)
    else Stuck
  }

  // ---------- createPayment ----------

  function NewRow(t: Terms): PaymentRow {
    PaymentRow(t, Pending, None, map[])
  }

  function NextCreate(s: State, t: Terms, a: Answer): Turn {
    if (a.Inserts? || a.InsertsThenThrows?) && a.id !in s.rows && KeyFree(s, t.key)
    then Turn(Insert(a.id, NewRow(t)), Done)
    else Stuck
  }

  // ---------- processPayment ----------

  function NextProcess(s: State, pc: ProcessPc, a: Answer): Turn {
    match pc
    case PRead(id) =>
      if a != Returns then Stuck
      else if id in s.rows && s.rows[id].status == Pending then Turn(NoEffect, InProcess(PSubmit(id)))
      else Turn(NoEffect, Done)
    case PSubmit(id) =>
      if id !in s.rows then Stuck
      else Writing(s, id, StatusUpdate(s.rows[id], Pending, None), a, InProcess(PCharge(id)), Done)
    case PCharge(id) =>
      if a.Replies? then Turn(AnswerCharge(Charge(id, a.reply.id)), InProcess(PRecord(id, a.reply))) else Stuck
    case PRecord(id, reply) =>
      if id !in s.rows then Stuck
      else Writing(s, id, StatusUpdate(s.rows[id], MapClipStatusBeforeWebhook(reply.status), Some(reply)), a, Done, Done)
  }

  // ---------- verifyPaymentStatus ----------

  function NextVerify(s: State, pc: VerifyPc, a: Answer): Turn {
    match pc
    case VRead(id) =>
      if a != Returns then Stuck
      else if id in s.rows && s.rows[id].providerPaymentId.GetOr("") != "" then
        Turn(NoEffect, InVerify(VQuery(id, s.rows[id].providerPaymentId.GetOr(""))))
      else Turn(NoEffect, Done)
    case VQuery(id, _) =>
      if a.Replies? then Turn(NoEffect, InVerify(VRecord(id, a.reply))) else Stuck
    case VRecord(id, reply) =>
      if id !in s.rows then Stuck
      else Writing(s, id, StatusUpdate(s.rows[id], MapClipStatusBeforeWebhook(reply.status), Some(reply)), a, Done, Done)
  }

  // ---------- handleClipWebhook ----------

  function JobStatus(job: Job): Status {
    if job.Confirm? then job.status else Completed
  }

  function JobMarker(job: Job): Option<TopupMarker> {
    match job
    case Confirm(_) => None
    case Credited(req) => Some(BuildTopupMarker(req, Completed))
    case Duplicate(req) => Some(BuildTopupMarker(req, Completed))
    case TopupFailed(req) => Some(BuildTopupMarker(req, Failed))
  }

  function JobParams(d: Delivery, job: Job): MergeParams {
    MergeParams(Some(d.reply), Some(d.hook), JobMarker(job))
  }

  /** Control flow after a merge committed. */
  function AfterMerge(d: Delivery, job: Job): WebhookPc {
    match job
    case Confirm(st) =>
      if st != Completed then WReceipt(d.lock)
      else if HasCompletedTopup(d.snap.row.payload) then WRelease(d.lock)
      else
        var req := BuildTopupRequest(d.snap.row.terms, d.snap.links);
        if req.None? then WRelease(d.lock) else WTopup(d, req.value)
    case Credited(req) => WNotices(d, req)
    case Duplicate(_) => WRelease(d.lock)
    case TopupFailed(_) => WRelease(d.lock)
  }

  /** Control flow when a merge rejects: inside the top-up `try` it leads to the failure marker. */
  function MergeError(d: Delivery, job: Job): WebhookPc {
    if job.Credited? then WMergeRead(d, TopupFailed(job.req)) else WRelease(d.lock)
  }

  /** The merge that follows the ledger's answer: the `try` body or one of the two `catch` arms. */
  function AfterTopup(req: TopupRequest, o: LedgerOutcome): Job {
    if o.Accepted? then Credited(req) else if o.Conflict? then Duplicate(req) else TopupFailed(req)
  }

  function NextWebhook(s: State, pc: WebhookPc, a: Answer, dedup: bool): Turn {
    match pc
    case WFind(pid, hook) =>
      if a.Found? && IsClip(s, a.id, pid) then Turn(NoEffect, InWebhook(WLock(pid, hook, s.rows[a.id].terms.key)))
      else if a == Absent && (forall id | id in s.rows :: !IsClip(s, id, pid)) then Turn(NoEffect, Done)
      else Stuck
    case WLock(pid, hook, lock) =>
      if a == Granted && lock !in s.locks then Turn(TakeLock(lock), InWebhook(WReread(pid, hook, lock)))
      else if a == Refused then Turn(NoEffect, Done)
      else Stuck
    case WReread(pid, hook, lock) =>
      if a.Found? && IsClip(s, a.id, pid) then
        Turn(NoEffect, InWebhook(WQuery(hook, lock, Snapshot(a.id, s.rows[a.id], a.links))))
      else if a == Absent && (forall id | id in s.rows :: !IsClip(s, id, pid)) then
        Turn(NoEffect, InWebhook(WRelease(lock)))
      else Stuck
    case WQuery(hook, lock, snap) =>
      if a.Replies? then
        Turn(ReadStatus(Reading(snap.id, a.reply.status)),
             InWebhook(WMergeRead(Delivery(lock, snap, a.reply, hook), Confirm(MapClipStatus(a.reply.status)))))
      else Stuck
    case WMergeRead(d, job) =>
      if a == Returns && d.snap.id in s.rows then
        Turn(NoEffect, InWebhook(WMergeWrite(d, job, s.rows[d.snap.id].payload)))
      else Stuck
    case WMergeWrite(d, job, read) =>
      if d.snap.id !in s.rows then Stuck
      else Writing(s, d.snap.id, MergeUpdate(s.rows[d.snap.id], JobStatus(job), read, JobParams(d, job)), a,
                   InWebhook(AfterMerge(d, job)), InWebhook(MergeError(d, job)))
    case WTopup(d, req) =>
      if a.Ledger? && LedgerAllows(dedup, s.ledger, req.key, a.outcome) then
        Turn(SendTopup(req, a.outcome), InWebhook(WMergeRead(d, AfterTopup(req, a.outcome))))
      else Stuck
    case WNotices(d, _) =>
      if a == Returns then Turn(NoEffect, InWebhook(WRelease(d.lock))) else Stuck
    case WReceipt(lock) =>
      if a == Returns then Turn(NoEffect, InWebhook(WRelease(lock))) else Stuck
    case WRelease(lock) =>
      if a == Returns || a == ThrowsAfter then Turn(DropLock(lock, true), Done)
      else if a == Refused then Turn(DropLock(lock, false), Done)
      else Stuck
  }

  // ---------- createSipQr ----------

  function NextQr(s: State, pc: QrPc, a: Answer): Turn {
    match pc
    case QFind(t) =>
      if a.Found? && a.id in s.rows && s.rows[a.id].terms.key == t.key then Turn(NoEffect, Done)
      else if a.FreshAlias? && a.alias !in s.aliases && KeyFree(s, t.key) then
        Turn(DrawAlias(a.alias), InQr(QInsert(t.(orderId := Some(a.alias)))))
      else Stuck
    case QInsert(t) =>
      if (a.Inserts? || a.InsertsThenThrows?) && a.id !in s.rows && KeyFree(s, t.key)
      then Turn(Insert(a.id, NewRow(t)), if a.Inserts? then InQr(QToken(a.id, t)) else Done)
      else Stuck
    case QToken(id, t) =>
      if a == CachedToken then Turn(NoEffect, InQr(QPost(id, t, false)))
      else if a == Returns then Turn(CallSip(Refresh), InQr(QPost(id, t, false)))
      else Stuck
    case QPost(id, t, retry) =>
      var post := CallSip(Post(t.key, t.orderId.GetOr("")));
      if a.QrCreated? then Turn(post, InQr(QSave(id, t, a.qr)))
      else if a == Unauthorized && !retry then Turn(post, InQr(QRefresh(id, t)))
      else if a == Unauthorized || a == Refused then Turn(post, Done)
      else Stuck
    case QRefresh(id, t) =>
      if a == Returns then Turn(CallSip(Refresh), InQr(QPost(id, t, true))) else Stuck
    case QSave(id, t, qr) =>
      if id !in s.rows then Stuck
      else Writing(s, id, SaveQrUpdate(s.rows[id], qr), a, Done, Done)
  }

  // ---------- handleSipCallback ----------

  function TopupReference(alias: string): string {
    "QRBMSC-" + alias
  }

  predicate HasTransaction(s: State, reference: string) {
    exists k | 0 <= k < |s.transactions| :: s.transactions[k].reference == reference
  }

  /** The validations between the first read and the completion write. */
  function AfterFind(id: nat, row: PaymentRow, cb: SipCallback): Pc {
    if row.status == Completed then Done
    else if AmountMismatch(cb, row.terms) then InCallback(BReject(id, cb, "amount_mismatch"))
    else if CurrencyMismatch(cb, row.terms) then InCallback(BReject(id, cb, "currency_mismatch"))
    else InCallback(BCompleteRead(id, row.terms, cb))
  }

  function NextCallback(s: State, pc: CallbackPc, a: Answer, dedup: bool): Turn {
    match pc
    case BFind(cb) =>
      if a.Found? && IsSip(s, a.id, cb.alias) then Turn(NoEffect, AfterFind(a.id, s.rows[a.id], cb))
      else if a == Absent && (forall id | id in s.rows :: !IsSip(s, id, cb.alias)) then Turn(NoEffect, Done)
      else Stuck
    case BReject(id, cb, reason) =>
      if id !in s.rows then Stuck
      else Writing(s, id, MarkFailedUpdate(s.rows[id], reason), a, Done, Done)
    case BCompleteRead(id, t, cb) =>
      if a == Returns && id in s.rows then Turn(NoEffect, InCallback(BCompleteWrite(id, t, cb, s.rows[id].payload)))
      else Stuck
    case BCompleteWrite(id, t, cb, read) =>
      if id !in s.rows then Stuck
      else Writing(s, id, CompleteSipUpdate(s.rows[id], read, cb), a, InCallback(BTxnFind(id, t, cb)), Done)
    case BTxnFind(id, t, cb) =>
      if a != Returns then Stuck
      else if HasTransaction(s, TopupReference(cb.alias)) then Turn(NoEffect, InCallback(BRefetch(id, t, cb)))
      else Turn(NoEffect, InCallback(BTxnCreate(id, t, cb)))
    case BTxnCreate(id, t, cb) =>
      if a == Returns || a == ThrowsAfter then
        Turn(AddTransaction(Transaction(TopupReference(cb.alias), t.userId, CreditAmount(t))),
             if a == Returns then InCallback(BRefetch(id, t, cb)) else Done)
      else Stuck
    case BRefetch(_, _, cb) =>
      if a.Found? && IsSip(s, a.id, cb.alias) then
        var req := BuildTopupRequest(s.rows[a.id].terms, a.links);
        Turn(NoEffect, if req.None? then Done else InCallback(BTopup(a.id, s.rows[a.id].terms, cb, req.value)))
      else Stuck
    case BTopup(id, t, cb, req) =>
      if a.Ledger? && LedgerAllows(dedup, s.ledger, req.key, a.outcome) then
        Turn(SendTopup(req, a.outcome), if a.outcome.Accepted? then InCallback(BMergeRead(id, t, cb, req)) else Done)
      else Stuck
    case BMergeRead(id, t, cb, req) =>
      if a == Returns && id in s.rows then Turn(NoEffect, InCallback(BMergeWrite(id, t, cb, req, s.rows[id].payload)))
      else Stuck
    case BMergeWrite(id, t, cb, req, read) =>
      if id !in s.rows then Stuck
      else Writing(s, id, MergeUpdate(s.rows[id], Completed, read, MarkerOnly(req)), a, InCallback(BNotices(cb)), Done)
    case BNotices(_) =>
      if a == Returns then Turn(NoEffect, Done) else Stuck
  }

  function MarkerOnly(req: TopupRequest): MergeParams {
    MergeParams(None, None, Some(BuildTopupMarker(req, Completed)))
  }

  // ---------- Rejected awaits ----------

  /** Where a rejected await of the webhook leads: its `catch` and `finally` blocks. */
  function OnThrow(pc: WebhookPc): Pc {
    match pc
    case WFind(_, _) => Done
    case WLock(_, _, _) => Done
    case WReread(_, _, lock) => InWebhook(WRelease(lock))
    case WQuery(_, lock, _) => InWebhook(WRelease(lock))
    case WMergeRead(d, job) => InWebhook(MergeError(d, job))
    case WMergeWrite(d, job, _) => InWebhook(MergeError(d, job))
    case WTopup(d, req) => InWebhook(WMergeRead(d, TopupFailed(req)))
    case WNotices(d, req) => InWebhook(WMergeRead(d, TopupFailed(req)))
    case WReceipt(lock) => InWebhook(WRelease(lock))
    case WRelease(_) => Done
  }

  /** Awaits whose rejection is one of their own answers, because the attempt itself is logged. */
  predicate AnswersOnly(pc: Pc) {
    match pc
    case InWebhook(w) => w.WTopup? || w.WRelease?
    case InQr(q) => q.QPost?
    case InCallback(b) => b.BTopup?
    case _ => false
  }

  function Rejecting(pc: Pc): Turn {
    if pc.Done? || AnswersOnly(pc) then Stuck
    else Turn(NoEffect, if pc.InWebhook? then OnThrow(pc.w) else Done)
  }

  function Next(s: State, pc: Pc, a: Answer, dedup: bool): Turn {
    if a == Throws then Rejecting(pc)
    else
      match pc
      case InCreate(t) => NextCreate(s, t, a)
      case InProcess(p) => NextProcess(s, p, a)
      case InVerify(v) => NextVerify(s, v, a)
      case InWebhook(w) => NextWebhook(s, w, a, dedup)
      case InQr(q) => NextQr(s, q, a)
      case InCallback(b) => NextCallback(s, b, a, dedup)
      case Done => Stuck
  }

  // ---------- Runs ----------

  datatype Label = Start(h: nat, pc: Pc) | Move(h: nat, a: Answer)

  /** Initial program counters, with the terms each creator stores. */
  predicate IsStart(pc: Pc) {
    match pc
    case InCreate(t) => t.provider == Clip && t.orderId == None && t.netAmountMxn.Some?
    case InQr(q) => q.QFind? && q.terms.provider == Sip && q.terms.orderId == None && q.terms.netAmount == 0 && q.terms.netAmountMxn.Some?
    case InProcess(p) => p.PRead?
    case InVerify(v) => v.VRead?
    case InWebhook(w) => w.WFind?
    case InCallback(b) => b.BFind?
    case Done => false
  }

  function Delivered(pc: Pc): set<SipCallback> {
    if pc.InCallback? then {pc.b.cb} else {}
  }

  function Begin(s: State, h: nat, pc: Pc): State {
    s.(handlers := s.handlers[h := pc], log := s.log.(callbacks := s.log.callbacks + Delivered(pc)))
  }

  function Take(s: State, h: nat, t: Turn): State
    requires t.Turn?
  {
    var s1 := Act(s, h, t.effect);
    s1.(handlers := s1.handlers[h := t.pc])
  }

  predicate Step(s: State, l: Label, s': State, dedup: bool) {
    match l
    case Start(h, pc) => h !in s.handlers && IsStart(pc) && s' == Begin(s, h, pc)
    case Move(h, a) =>
      && h in s.handlers
      && var t := Next(s, s.handlers[h], a, dedup);
         t.Turn? && s' == Take(s, h, t)
  }

  const EmptyLog := Log({}, {}, multiset{}, multiset{}, multiset{}, multiset{}, {}, map[])

  const InitState := State(map[], map[], [], [], {}, map[], EmptyLog)

  predicate Run(states: seq<State>, labels: seq<Label>, dedup: bool) {
    && |states| == |labels| + 1
    && states[0] == InitState
    && forall i {:trigger labels[i]} | 0 <= i < |labels| :: Step(states[i], labels[i], states[i + 1], dedup)
  }
}
