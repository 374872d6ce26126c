/**
 * Which row a provider payment id belongs to.  With a provider that never reuses an id and
 * answers a query with the id it was asked about, the row a webhook re-reads under its lock is
 * the row whose key names that lock.
 */
module ChargeBindings {
  import opened Payments
  import opened PaymentMachine
  import opened PaymentTable

  /** A charge gets an id no charge had before; a query is answered about the id it names. */
  ghost predicate Honest(s: State, l: Label) {
    l.Move? && l.h in s.handlers && l.a.Replies? ==>
      match s.handlers[l.h]
      case InProcess(p) => p.PCharge? ==> forall c | c in s.log.issued :: c.providerId != l.a.reply.id
      case InVerify(v) => v.VQuery? ==> l.a.reply.id == v.providerId
      case _ => true
  }

  ghost predicate IdsOnce(s: State) {
    forall c, c' | c in s.log.issued && c' in s.log.issued && c.providerId == c'.providerId :: c == c'
  }

  /** On a Clip row only ids issued for that row appear. */
  ghost predicate IdFits(s: State, id: nat, t: Terms, pid: string) {
    t.provider == Clip ==> Charge(id, pid) in s.log.issued
  }

  ghost predicate RowBound(s: State, id: nat, row: PaymentRow) {
    row.providerPaymentId.Some? ==> IdFits(s, id, row.terms, row.providerPaymentId.value)
  }

  ghost predicate RowsBound(s: State) {
    forall id | id in s.rows :: RowBound(s, id, s.rows[id])
  }

  ghost predicate Bound(s: State, id: nat, pid: string, lock: string) {
    id in s.rows && s.rows[id].terms.provider == Clip && s.rows[id].terms.key == lock && Charge(id, pid) in s.log.issued
  }

  ghost predicate LockFits(s: State, pid: string, lock: string) {
    exists id :: Bound(s, id, pid, lock)
  }

  ghost predicate OnRow(s: State, snap: Snapshot, lock: string) {
    && snap.id in s.rows && s.rows[snap.id].terms == snap.row.terms
    && snap.row.terms.provider == Clip && snap.row.terms.key == lock
  }

  ghost predicate JobFits(job: Job, lock: string) {
    job.Confirm? || job.req.key == lock
  }

  ghost predicate WebhookBound(s: State, w: WebhookPc) {
    match w
    case WFind(_, _) => true
    case WLock(pid, _, lock) => LockFits(s, pid, lock)
    case WReread(pid, _, lock) => LockFits(s, pid, lock)
    case WQuery(_, lock, snap) => OnRow(s, snap, lock)
    case WMergeRead(d, job) => OnRow(s, d.snap, d.lock) && JobFits(job, d.lock)
    case WMergeWrite(d, job, _) => OnRow(s, d.snap, d.lock) && JobFits(job, d.lock)
    case WTopup(d, req) => OnRow(s, d.snap, d.lock) && req.key == d.lock
    case WNotices(d, req) => OnRow(s, d.snap, d.lock) && req.key == d.lock
    case WReceipt(_) => true
    case WRelease(_) => true
  }

  ghost predicate OnSip(s: State, id: nat) {
    id in s.rows && s.rows[id].terms.provider == Sip
  }

  ghost predicate SipTerms(s: State, id: nat, t: Terms) {
    OnSip(s, id) && s.rows[id].terms == t
  }

  ghost predicate CallbackBound(s: State, b: CallbackPc) {
    match b
    case BFind(_) => true
    case BReject(id, _, _) => OnSip(s, id)
    case BCompleteRead(id, _, _) => OnSip(s, id)
    case BCompleteWrite(id, _, _, _) => OnSip(s, id)
    case BTopup(id, t, _, req) => SipTerms(s, id, t) && req.key == t.key
    case BMergeRead(id, _, _, _) => OnSip(s, id)
    case BMergeWrite(id, _, _, _, _) => OnSip(s, id)
    case _ => true
  }

  ghost predicate QrBound(s: State, q: QrPc) {
    match q
    case QFind(t) => t.provider == Sip
    case QInsert(t) => t.provider == Sip
    case QToken(id, _) => OnSip(s, id)
    case QPost(id, _, _) => OnSip(s, id)
    case QRefresh(id, _) => OnSip(s, id)
    case QSave(id, _, _) => OnSip(s, id)
  }

  /** `Some` rows need not exist for a process handler, so its facts are conditional. */
  ghost predicate PcBound(s: State, pc: Pc) {
    match pc
    case InProcess(p) => p.PRecord? ==> Charge(p.id, p.reply.id) in s.log.issued
    case InVerify(v) =>
      && (v.VQuery? ==> v.id in s.rows && IdFits(s, v.id, s.rows[v.id].terms, v.providerId))
      && (v.VRecord? ==> v.id in s.rows && IdFits(s, v.id, s.rows[v.id].terms, v.reply.id))
    case InWebhook(w) => WebhookBound(s, w)
    case InQr(q) => QrBound(s, q)
    case InCallback(b) => CallbackBound(s, b)
    case InCreate(_) => true
    case Done => true
  }

  ghost predicate PcsBound(s: State) {
    forall h | h in s.handlers :: PcBound(s, s.handlers[h])
  }

  ghost predicate BindInv(s: State) {
    IdsOnce(s) && RowsBound(s) && PcsBound(s)
  }

  // ---------- Growth ----------

  ghost predicate Issues(s: State, s': State) {
    Grows(s, s') && s.log.issued <= s'.log.issued
  }

  lemma PcBoundGrows(s: State, s': State, pc: Pc)
    requires Issues(s, s') && PcBound(s, pc)
    ensures PcBound(s', pc)
  {
    if pc.InWebhook? && (pc.w.WLock? || pc.w.WReread?) {
      var id :| Bound(s, id, pc.w.providerId, pc.w.lock);
      assert Bound(s', id, pc.w.providerId, pc.w.lock);
    }
  }

  lemma ActIssues(s: State, h: nat, pc: Pc, e: Effect)
    requires Fits(s, pc, e)
    ensures Issues(s, Act(s, h, e))
  {
    ActGrows(s, h, pc, e);
  }

  // ---------- Every turn ----------

  ghost predicate TurnBound(s: State, h: nat, t: Turn) {
    t.Turn? ==>
      && ((t.effect.Update? || t.effect.Insert?) ==> RowBound(s, t.effect.id, t.effect.row))
      && PcBound(Act(s, h, t.effect), t.pc)
  }

  lemma ProcessBound(s: State, h: nat, p: ProcessPc, a: Answer)
    requires RowsBound(s) && PcBound(s, InProcess(p))
    ensures TurnBound(s, h, NextProcess(s, p, a))
  {
  }

  lemma VerifyBound(s: State, h: nat, v: VerifyPc, a: Answer)
    requires RowsBound(s) && PcBound(s, InVerify(v)) && (v.VQuery? && a.Replies? ==> a.reply.id == v.providerId)
    ensures TurnBound(s, h, NextVerify(s, v, a))
  {
  }

  lemma QrWriteBound(s: State, h: nat, q: QrPc, a: Answer)
    requires RowsBound(s) && QrBound(s, q) && (q.QInsert? || q.QSave?)
    ensures TurnBound(s, h, NextQr(s, q, a))
  {
  }

  lemma QrTurnBound(s: State, h: nat, q: QrPc, a: Answer)
    requires RowsBound(s) && QrBound(s, q)
    ensures TurnBound(s, h, NextQr(s, q, a))
  {
    if q.QInsert? || q.QSave? {
      QrWriteBound(s, h, q, a);
    }
  }

  lemma CallbackWriteBound(s: State, h: nat, b: CallbackPc, a: Answer, dedup: bool)
    requires RowsBound(s) && CallbackBound(s, b) && (b.BReject? || b.BCompleteWrite? || b.BMergeWrite?)
    ensures TurnBound(s, h, NextCallback(s, b, a, dedup))
  {
  }

  lemma CallbackTopupBound(s: State, h: nat, b: CallbackPc, a: Answer, dedup: bool)
    requires CallbackBound(s, b) && (b.BRefetch? || b.BTopup?)
    ensures TurnBound(s, h, NextCallback(s, b, a, dedup))
  {
  }

  lemma CallbackTurnBound(s: State, h: nat, b: CallbackPc, a: Answer, dedup: bool)
    requires RowsBound(s) && CallbackBound(s, b)
    ensures TurnBound(s, h, NextCallback(s, b, a, dedup))
  {
    if b.BReject? || b.BCompleteWrite? || b.BMergeWrite? {
      CallbackWriteBound(s, h, b, a, dedup);
    } else if b.BRefetch? || b.BTopup? {
      CallbackTopupBound(s, h, b, a, dedup);
    }
  }

  /** Re-reading by provider id under the lock reaches the row the lock is named after. */
  lemma RereadBound(s: State, h: nat, w: WebhookPc, a: Answer, dedup: bool)
    requires IdsOnce(s) && RowsBound(s) && WebhookBound(s, w) && (w.WReread? || w.WFind?)
    ensures TurnBound(s, h, NextWebhook(s, w, a, dedup))
  {
    if a.Found? && IsClip(s, a.id, w.providerId) {
      assert RowBound(s, a.id, s.rows[a.id]);
      if w.WFind? {
        assert Bound(s, a.id, w.providerId, s.rows[a.id].terms.key);
      } else {
        var id :| Bound(s, id, w.providerId, w.lock);
        assert Charge(id, w.providerId) == Charge(a.id, w.providerId);
      }
    }
  }

  lemma MergeBound(s: State, h: nat, w: WebhookPc, a: Answer, dedup: bool)
    requires RowsBound(s) && WebhookBound(s, w) && (w.WMergeWrite? || w.WMergeRead? || w.WTopup?)
    ensures TurnBound(s, h, NextWebhook(s, w, a, dedup))
  {
  }

  lemma LockBound(s: State, h: nat, w: WebhookPc, a: Answer, dedup: bool)
    requires RowsBound(s) && WebhookBound(s, w) && w.WLock?
    ensures TurnBound(s, h, NextWebhook(s, w, a, dedup))
  {
    var t := NextWebhook(s, w, a, dedup);
    if t.Turn? {
      ActIssues(s, h, InWebhook(w), t.effect);
      PcBoundGrows(s, Act(s, h, t.effect), InWebhook(WReread(w.providerId, w.hook, w.lock)));
    }
  }

  lemma PlainBound(s: State, h: nat, w: WebhookPc, a: Answer, dedup: bool)
    requires RowsBound(s) && WebhookBound(s, w) && (w.WQuery? || w.WNotices? || w.WReceipt? || w.WRelease?)
    ensures TurnBound(s, h, NextWebhook(s, w, a, dedup))
  {
  }

  lemma WebhookTurnBound(s: State, h: nat, w: WebhookPc, a: Answer, dedup: bool)
    requires IdsOnce(s) && RowsBound(s) && WebhookBound(s, w)
    ensures TurnBound(s, h, NextWebhook(s, w, a, dedup))
  {
    match w
    case WFind(_, _) => RereadBound(s, h, w, a, dedup);
    case WReread(_, _, _) => RereadBound(s, h, w, a, dedup);
    case WMergeRead(_, _) => MergeBound(s, h, w, a, dedup);
    case WMergeWrite(_, _, _) => MergeBound(s, h, w, a, dedup);
    case WTopup(_, _) => MergeBound(s, h, w, a, dedup);
    case WLock(_, _, _) => LockBound(s, h, w, a, dedup);
    case _ => PlainBound(s, h, w, a, dedup);
  }

  lemma RejectBound(s: State, pc: Pc)
    requires PcBound(s, pc) && Rejecting(pc).Turn?
    ensures PcBound(s, Rejecting(pc).pc)
  {
  }

  lemma NextBound(s: State, h: nat, pc: Pc, a: Answer, dedup: bool)
    requires IdsOnce(s) && RowsBound(s) && PcBound(s, pc)
    requires pc.InVerify? && pc.v.VQuery? && a.Replies? ==> a.reply.id == pc.v.providerId
    ensures TurnBound(s, h, Next(s, pc, a, dedup))
  {
    if a == Throws {
      if Rejecting(pc).Turn? {
        RejectBound(s, pc);
      }
    } else {
      match pc
      case InProcess(p) => ProcessBound(s, h, p, a);
      case InVerify(v) => VerifyBound(s, h, v, a);
      case InWebhook(w) => WebhookTurnBound(s, h, w, a, dedup);
      case InQr(q) => QrTurnBound(s, h, q, a);
      case InCallback(b) => CallbackTurnBound(s, h, b, a, dedup);
      case _ =>
    }
  }

  // ---------- Every step ----------

  lemma BindTake(s: State, h: nat, t: Turn)
    requires BindInv(s) && h in s.handlers && t.Turn? && Fits(s, s.handlers[h], t.effect) && TurnBound(s, h, t)
    requires IdsOnce(Act(s, h, t.effect))
    ensures BindInv(Take(s, h, t))
  {
    var s1, s' := Act(s, h, t.effect), Take(s, h, t);
    ActIssues(s, h, s.handlers[h], t.effect);
    forall id | id in s'.rows
      ensures RowBound(s', id, s'.rows[id])
    {
      assert RowBound(s, id, s'.rows[id]);
    }
    forall g | g in s'.handlers
      ensures PcBound(s', s'.handlers[g])
    {
      if g != h {
        PcBoundGrows(s, s', s.handlers[g]);
      } else {
        PcBoundGrows(s1, s', t.pc);
      }
    }
  }

  lemma IdsStayOnce(s: State, h: nat, a: Answer, dedup: bool)
    requires IdsOnce(s) && h in s.handlers && Honest(s, Move(h, a)) && Next(s, s.handlers[h], a, dedup).Turn?
    ensures IdsOnce(Act(s, h, Next(s, s.handlers[h], a, dedup).effect))
  {
    var e := Next(s, s.handlers[h], a, dedup).effect;
    if e.AnswerCharge? {
      OnlyProcessCharges(s, s.handlers[h], a, dedup);
    }
  }

  lemma OnlyProcessCharges(s: State, pc: Pc, a: Answer, dedup: bool)
    requires Next(s, pc, a, dedup).Turn? && Next(s, pc, a, dedup).effect.AnswerCharge?
    ensures pc.InProcess? && pc.p.PCharge? && a.Replies?
    ensures Next(s, pc, a, dedup).effect.charge == Charge(pc.p.id, a.reply.id)
  {
    TurnFits(s, pc, a, dedup);
  }

  lemma BindStep(s: State, l: Label, s': State, dedup: bool)
    requires TableInv(s) && BindInv(s) && Step(s, l, s', dedup) && Honest(s, l)
    ensures BindInv(s')
  {
    match l
    case Start(h, pc) =>
      forall g | g in s'.handlers
        ensures PcBound(s', s'.handlers[g])
      {
        if g != h {
          PcBoundGrows(s, s', s.handlers[g]);
        }
      }
      forall id | id in s'.rows
        ensures RowBound(s', id, s'.rows[id])
      {
        assert RowBound(s, id, s.rows[id]);
      }
    case Move(h, a) =>
      var pc := s.handlers[h];
      assert PcBound(s, pc);
      TurnFits(s, pc, a, dedup);
      NextBound(s, h, pc, a, dedup);
      IdsStayOnce(s, h, a, dedup);
      BindTake(s, h, Next(s, pc, a, dedup));
  }
}
