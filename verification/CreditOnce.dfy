/**
 * The named lock and the stored marker suffice without ledger deduplication: with a ledger that
 * credits every request it accepts, no process or verify write on a credited payment, and nothing
 * throwing after a successful top-up, each Clip payment is credited at most once.
 */
module CreditOnce {
  import opened Prelude
  import opened Payments
  import opened PaymentMachine
  import opened PaymentTable
  import opened LockProtocol
  import opened ChargeBindings

  // ---------- What is assumed of a run ----------

  ghost predicate Commits(a: Answer) {
    a == Returns || a == ThrowsAfter
  }

  ghost predicate IsCredited(s: State, id: nat) {
    id in s.rows && LedgerHas(s.ledger, s.rows[id].terms.key)
  }

  ghost predicate AfterCredit(w: WebhookPc) {
    w.WNotices? || ((w.WMergeRead? || w.WMergeWrite?) && w.job.Credited?)
  }

  /** No process or verify write lands on a credited payment, and no await after a successful top-up rejects. */
  ghost predicate Careful(s: State, l: Label) {
    l.Move? && l.h in s.handlers ==>
      match s.handlers[l.h]
      case InProcess(p) => (p.PSubmit? || p.PRecord?) && Commits(l.a) ==> !IsCredited(s, p.id)
      case InVerify(v) => v.VRecord? && Commits(l.a) ==> !IsCredited(s, v.id)
      case InWebhook(w) => AfterCredit(w) ==> l.a != Throws && l.a != ThrowsAfter
      case _ => true
  }

  // ---------- The invariant ----------

  /** Whoever reads this payload learns of a credit that has happened. */
  ghost predicate Fresh(s: State, key: string, p: Payload) {
    LedgerHas(s.ledger, key) ==> HasCompletedTopup(p)
  }

  ghost predicate JobKnows(s: State, d: Delivery, job: Job) {
    && (job.Confirm? ==> Fresh(s, d.lock, d.snap.row.payload))
    && (job.TopupFailed? ==> !LedgerHas(s.ledger, d.lock))
  }

  ghost predicate Knows(s: State, w: WebhookPc) {
    match w
    case WQuery(_, lock, snap) => Fresh(s, lock, snap.row.payload)
    case WMergeRead(d, job) => JobKnows(s, d, job)
    case WMergeWrite(d, job, read) => JobKnows(s, d, job) && (job.Confirm? ==> Fresh(s, d.lock, read))
    case WTopup(d, _) => !LedgerHas(s.ledger, d.lock)
    case _ => true
  }

  ghost predicate PcKnows(s: State, pc: Pc) {
    pc.InWebhook? ==> Knows(s, pc.w)
  }

  /** Handler `h` has credited `key` and is about to store the marker. */
  ghost predicate Crediting(s: State, h: nat, key: string) {
    && h in s.handlers && s.handlers[h].InWebhook?
    && (s.handlers[h].w.WMergeRead? || s.handlers[h].w.WMergeWrite?)
    && s.handlers[h].w.job.Credited? && s.handlers[h].w.d.lock == key
  }

  ghost predicate Recorded(s: State, row: PaymentRow) {
    Fresh(s, row.terms.key, row.payload) || exists h :: Crediting(s, h, row.terms.key)
  }

  ghost predicate IsClipRow(s: State, id: nat) {
    id in s.rows && s.rows[id].terms.provider == Clip
  }

  ghost predicate RowsRecorded(s: State) {
    forall id | IsClipRow(s, id) :: Recorded(s, s.rows[id])
  }

  ghost predicate PcsKnow(s: State) {
    forall h | h in s.handlers :: PcKnows(s, s.handlers[h])
  }

  ghost predicate Twice(ledger: seq<TopupRequest>, key: string) {
    exists j, k | 0 <= j < k < |ledger| :: ledger[j].key == key && ledger[k].key == key
  }

  ghost predicate ClipOnce(s: State) {
    forall id | IsClipRow(s, id) :: !Twice(s.ledger, s.rows[id].terms.key)
  }

  ghost predicate OwnedKey(s: State, key: string) {
    exists id :: id in s.rows && s.rows[id].terms.key == key
  }

  ghost predicate EntriesOwned(s: State) {
    forall key | LedgerHas(s.ledger, key) :: OwnedKey(s, key)
  }

  ghost predicate CreditInv(s: State) {
    RowsRecorded(s) && PcsKnow(s) && ClipOnce(s) && EntriesOwned(s)
  }

  ghost predicate Base(s: State) {
    TableInv(s) && LockInv(s) && BindInv(s)
  }

  // ---------- Who may credit a key ----------

  ghost predicate CreditsKey(e: Effect, key: string) {
    e.SendTopup? && Credits(e.outcome) && e.req.key == key
  }

  lemma LedgerChange(s: State, h: nat, e: Effect, key: string)
    ensures LedgerHas(Act(s, h, e).ledger, key) <==> LedgerHas(s.ledger, key) || CreditsKey(e, key)
  {
    if e.SendTopup? {
      LedgerAppend(s.ledger, e.req, key);
    }
  }

  /** A turn credits a Clip payment's key only from inside that key's critical section. */
  lemma CreditsOwnLock(s: State, h: nat, e: Effect, id: nat)
    requires TableInv(s) && PcsBound(s) && h in s.handlers && Fits(s, s.handlers[h], e)
    requires IsClipRow(s, id) && CreditsKey(e, s.rows[id].terms.key)
    ensures s.handlers[h].InWebhook? && s.handlers[h].w.WTopup? && s.handlers[h].w.d.lock == s.rows[id].terms.key
  {
    assert PcBound(s, s.handlers[h]);
  }

  /** While `g` is in the critical section of a Clip payment, nobody else credits it. */
  lemma NobodyElseCredits(s: State, h: nat, e: Effect, g: nat, id: nat)
    requires Base(s) && h in s.handlers && Fits(s, s.handlers[h], e)
    requires g in s.handlers && g != h && IsClipRow(s, id) && LockOf(s.handlers[g]) == Some(s.rows[id].terms.key)
    ensures !CreditsKey(e, s.rows[id].terms.key)
  {
    if CreditsKey(e, s.rows[id].terms.key) {
      CreditsOwnLock(s, h, e, id);
    }
  }

  /** The lock holder that is not itself crediting finds its row's payload up to date. */
  lemma HolderReadsFresh(s: State, h: nat, id: nat)
    requires LockInv(s) && RowsRecorded(s) && h in s.handlers && IsClipRow(s, id)
    requires LockOf(s.handlers[h]) == Some(s.rows[id].terms.key) && !Crediting(s, h, s.rows[id].terms.key)
    ensures Fresh(s, s.rows[id].terms.key, s.rows[id].payload)
  {
    var key := s.rows[id].terms.key;
    assert Recorded(s, s.rows[id]);
    assert forall g | Crediting(s, g, key) :: g == h;
  }

  // ---------- The moving handler ----------

  ghost predicate SameLedgerFor(s: State, s': State, key: string) {
    LedgerHas(s'.ledger, key) <==> LedgerHas(s.ledger, key)
  }

  lemma RereadKnows(s: State, h: nat, a: Answer)
    requires Base(s) && CreditInv(s) && h in s.handlers && s.handlers[h].InWebhook? && s.handlers[h].w.WReread?
    requires NextWebhook(s, s.handlers[h].w, a, false).Turn?
    ensures PcKnows(s, NextWebhook(s, s.handlers[h].w, a, false).pc)
  {
    var w := s.handlers[h].w;
    var t := NextWebhook(s, w, a, false);
    assert PcBound(s, s.handlers[h]);
    RereadBound(s, h, w, a, false);
    if t.pc.InWebhook? && t.pc.w.WQuery? {
      assert OnRow(s, t.pc.w.snap, w.lock);
      HolderReadsFresh(s, h, a.id);
    }
  }

  lemma MergeReadKnows(s: State, h: nat, a: Answer)
    requires Base(s) && CreditInv(s) && h in s.handlers && s.handlers[h].InWebhook? && s.handlers[h].w.WMergeRead?
    requires NextWebhook(s, s.handlers[h].w, a, false).Turn?
    ensures PcKnows(s, NextWebhook(s, s.handlers[h].w, a, false).pc)
  {
    var w := s.handlers[h].w;
    assert PcBound(s, s.handlers[h]) && PcKnows(s, s.handlers[h]);
    if w.job.Confirm? {
      HolderReadsFresh(s, h, w.d.snap.id);
    }
  }

  lemma OtherTurnKnows(s: State, h: nat, w: WebhookPc, a: Answer)
    requires Knows(s, w) && !w.WReread? && !w.WMergeRead? && !w.WTopup?
    requires AfterCredit(w) ==> a != Throws && a != ThrowsAfter
    requires NextWebhook(s, w, a, false).Turn?
    ensures PcKnows(s, NextWebhook(s, w, a, false).pc)
  {
  }

  lemma TopupKnows(s: State, h: nat, w: WebhookPc, a: Answer)
    requires w.WTopup? && Knows(s, w) && w.req.key == w.d.lock && NextWebhook(s, w, a, false).Turn?
    ensures var t := NextWebhook(s, w, a, false); PcKnows(Act(s, h, t.effect), t.pc)
  {
    LedgerChange(s, h, NextWebhook(s, w, a, false).effect, w.d.lock);
  }

  lemma RejectKnows(s: State, w: WebhookPc)
    requires Knows(s, w) && !AfterCredit(w) && Rejecting(InWebhook(w)).Turn?
    ensures PcKnows(s, Rejecting(InWebhook(w)).pc)
  {
  }

  lemma KnowsSame(s: State, s': State, pc: Pc)
    requires PcKnows(s, pc) && s'.ledger == s.ledger
    ensures PcKnows(s', pc)
  {
  }

  lemma OwnKnows(s: State, h: nat, a: Answer)
    requires Base(s) && CreditInv(s) && h in s.handlers && Careful(s, Move(h, a))
    requires Next(s, s.handlers[h], a, false).Turn?
    ensures var t := Next(s, s.handlers[h], a, false); PcKnows(Act(s, h, t.effect), t.pc)
  {
    var pc := s.handlers[h];
    var t := Next(s, pc, a, false);
    assert PcKnows(s, pc) && PcBound(s, pc);
    TurnFits(s, pc, a, false);
    if pc.InWebhook? {
      ActGrows(s, h, pc, t.effect);
      if a == Throws {
        RejectKnows(s, pc.w);
      } else if pc.w.WTopup? {
        TopupKnows(s, h, pc.w, a);
      } else {
        if pc.w.WReread? {
          RereadKnows(s, h, a);
        } else if pc.w.WMergeRead? {
          MergeReadKnows(s, h, a);
        } else {
          OtherTurnKnows(s, h, pc.w, a);
        }
        KnowsSame(s, Act(s, h, t.effect), t.pc);
      }
    }
  }

  // ---------- The other handlers ----------

  /** The row a webhook has read, once it is past the re-read. */
  function SnapOf(w: WebhookPc): Option<Snapshot> {
    match w
    case WQuery(_, _, snap) => Some(snap)
    case WMergeRead(d, _) => Some(d.snap)
    case WMergeWrite(d, _, _) => Some(d.snap)
    case WTopup(d, _) => Some(d.snap)
    case WNotices(d, _) => Some(d.snap)
    case _ => None
  }

  lemma KnowsKept(s: State, s': State, w: WebhookPc)
    requires Knows(s, w) && WebhookLock(w).Some? && SameLedgerFor(s, s', WebhookLock(w).value)
    ensures Knows(s', w)
  {
  }

  lemma OtherKnows(s: State, h: nat, e: Effect, g: nat)
    requires Base(s) && PcsKnow(s) && h in s.handlers && Fits(s, s.handlers[h], e) && g in s.handlers && g != h
    ensures PcKnows(Act(s, h, e), s.handlers[g])
  {
    var pc := s.handlers[g];
    assert PcKnows(s, pc) && PcBound(s, pc);
    if pc.InWebhook? && SnapOf(pc.w).Some? {
      var id, lock := SnapOf(pc.w).value.id, WebhookLock(pc.w).value;
      assert OnRow(s, SnapOf(pc.w).value, lock);
      NobodyElseCredits(s, h, e, g, id);
      LedgerChange(s, h, e, lock);
      KnowsKept(s, Act(s, h, e), pc.w);
    }
  }

  // ---------- Rows ----------

  lemma ProcessUpdates(s: State, h: nat, a: Answer)
    requires h in s.handlers && (s.handlers[h].InProcess? || s.handlers[h].InVerify?) && Careful(s, Move(h, a))
    requires Next(s, s.handlers[h], a, false).Turn? && Next(s, s.handlers[h], a, false).effect.Update?
    ensures !IsCredited(s, Next(s, s.handlers[h], a, false).effect.id)
  {
  }

  lemma MergeRecords(s: State, w: WebhookPc, a: Answer)
    requires w.WMergeWrite? && Knows(s, w) && WebhookBound(s, w)
    requires NextWebhook(s, w, a, false).Turn?
    ensures var e := NextWebhook(s, w, a, false).effect;
            e.Update? && e.id == w.d.snap.id && Fresh(s, e.row.terms.key, e.row.payload)
  {
    MergeMarker(w.read, JobParams(w.d, w.job));
  }

  /** Whatever a turn writes into a Clip row, the row still tells of any credit. */
  lemma UpdateRecords(s: State, h: nat, a: Answer)
    requires Base(s) && CreditInv(s) && h in s.handlers && Careful(s, Move(h, a))
    requires Next(s, s.handlers[h], a, false).Turn? && Next(s, s.handlers[h], a, false).effect.Update?
    ensures var e := Next(s, s.handlers[h], a, false).effect;
            e.row.terms.provider == Clip ==> Fresh(s, e.row.terms.key, e.row.payload)
  {
    var pc := s.handlers[h];
    assert PcKnows(s, pc) && PcBound(s, pc);
    TurnFits(s, pc, a, false);
    match pc
    case InProcess(_) => ProcessUpdates(s, h, a);
    case InVerify(_) => ProcessUpdates(s, h, a);
    case InWebhook(w) =>
      WebhookUpdates(s, w, a);
      MergeRecords(s, w, a);
    case InQr(q) => QrUpdates(s, q, a);
    case InCallback(b) => CallbackUpdates(s, b, a);
    case _ =>
  }

  lemma WebhookUpdates(s: State, w: WebhookPc, a: Answer)
    requires NextWebhook(s, w, a, false).Turn? && NextWebhook(s, w, a, false).effect.Update?
    ensures w.WMergeWrite?
  {
  }

  lemma QrUpdates(s: State, q: QrPc, a: Answer)
    requires QrBound(s, q) && NextQr(s, q, a).Turn? && NextQr(s, q, a).effect.Update?
    ensures NextQr(s, q, a).effect.row.terms.provider == Sip
  {
  }

  lemma CallbackUpdates(s: State, b: CallbackPc, a: Answer)
    requires CallbackBound(s, b) && NextCallback(s, b, a, false).Turn? && NextCallback(s, b, a, false).effect.Update?
    ensures NextCallback(s, b, a, false).effect.row.terms.provider == Sip
  {
  }

  /** A crediting handler stays one until its own write stores the marker. */
  lemma CreditingMoves(s: State, h: nat, a: Answer, key: string)
    requires Crediting(s, h, key) && Careful(s, Move(h, a)) && Next(s, s.handlers[h], a, false).Turn?
    ensures var t := Next(s, s.handlers[h], a, false);
            || Crediting(Take(s, h, t), h, key)
            || (s.handlers[h].w.WMergeWrite? && t.effect.Update? && t.effect.id == s.handlers[h].w.d.snap.id)
  {
  }

  lemma AcceptedCredits(s: State, h: nat, a: Answer, key: string)
    requires h in s.handlers && s.handlers[h].InWebhook? && s.handlers[h].w.WTopup? && s.handlers[h].w.d.lock == key
    requires Next(s, s.handlers[h], a, false).Turn? && CreditsKey(Next(s, s.handlers[h], a, false).effect, key)
    ensures Crediting(Take(s, h, Next(s, s.handlers[h], a, false)), h, key)
  {
  }

  lemma RecordedKept(s: State, h: nat, t: Turn, row: PaymentRow)
    requires h in s.handlers && t.Turn? && Recorded(s, row)
    requires CreditsKey(t.effect, row.terms.key) || Crediting(s, h, row.terms.key) ==>
               Crediting(Take(s, h, t), h, row.terms.key)
    ensures Recorded(Take(s, h, t), row)
  {
    var key, s' := row.terms.key, Take(s, h, t);
    LedgerChange(s, h, t.effect, key);
    if g :| Crediting(s, g, key) {
      assert Crediting(s', g, key);
    }
  }

  lemma OldRowRecorded(s: State, h: nat, a: Answer, id: nat)
    requires Base(s) && CreditInv(s) && h in s.handlers && Careful(s, Move(h, a)) && IsClipRow(s, id)
    requires Next(s, s.handlers[h], a, false).Turn?
    requires var e := Next(s, s.handlers[h], a, false).effect; e.Update? ==> e.id != id
    ensures var s' := Take(s, h, Next(s, s.handlers[h], a, false)); Recorded(s', s.rows[id])
  {
    var t, key := Next(s, s.handlers[h], a, false), s.rows[id].terms.key;
    assert PcBound(s, s.handlers[h]);
    TurnFits(s, s.handlers[h], a, false);
    if CreditsKey(t.effect, key) {
      CreditsOwnLock(s, h, t.effect, id);
      AcceptedCredits(s, h, a, key);
    } else if Crediting(s, h, key) {
      CreditingMoves(s, h, a, key);
    }
    RecordedKept(s, h, t, s.rows[id]);
  }

  lemma NewRowRecorded(s: State, h: nat, id: nat, row: PaymentRow)
    requires EntriesOwned(s) && KeyFree(s, row.terms.key)
    ensures !LedgerHas(Act(s, h, Insert(id, row)).ledger, row.terms.key)
  {
  }

  lemma RowStaysRecorded(s: State, h: nat, a: Answer, id: nat)
    requires Base(s) && CreditInv(s) && h in s.handlers && Careful(s, Move(h, a))
    requires Next(s, s.handlers[h], a, false).Turn? && IsClipRow(Take(s, h, Next(s, s.handlers[h], a, false)), id)
    ensures var s' := Take(s, h, Next(s, s.handlers[h], a, false)); Recorded(s', s'.rows[id])
  {
    var t := Next(s, s.handlers[h], a, false);
    var s' := Take(s, h, t);
    TurnFits(s, s.handlers[h], a, false);
    if t.effect.Update? && t.effect.id == id {
      WrittenRowRecorded(s, h, a, id);
    } else if t.effect.Insert? && t.effect.id == id {
      NewRowRecorded(s, h, id, t.effect.row);
      assert Fresh(s', s'.rows[id].terms.key, s'.rows[id].payload);
    } else {
      UnwrittenRow(s, h, t.effect, id);
      OldRowRecorded(s, h, a, id);
    }
  }

  lemma UnwrittenRow(s: State, h: nat, e: Effect, id: nat)
    requires id in Act(s, h, e).rows && !((e.Update? || e.Insert?) && e.id == id)
    ensures id in s.rows && Act(s, h, e).rows[id] == s.rows[id]
  {
  }

  lemma WrittenRowRecorded(s: State, h: nat, a: Answer, id: nat)
    requires Base(s) && CreditInv(s) && h in s.handlers && Careful(s, Move(h, a)) && Next(s, s.handlers[h], a, false).Turn?
    requires var e := Next(s, s.handlers[h], a, false).effect; e.Update? && e.id == id && IsClipRow(Act(s, h, e), id)
    ensures var s' := Take(s, h, Next(s, s.handlers[h], a, false)); Recorded(s', s'.rows[id])
  {
    var s' := Take(s, h, Next(s, s.handlers[h], a, false));
    TurnFits(s, s.handlers[h], a, false);
    UpdateRecords(s, h, a);
    assert Fresh(s', s'.rows[id].terms.key, s'.rows[id].payload);
  }

  lemma RowsStayRecorded(s: State, h: nat, a: Answer)
    requires Base(s) && CreditInv(s) && h in s.handlers && Careful(s, Move(h, a))
    requires Next(s, s.handlers[h], a, false).Turn?
    ensures RowsRecorded(Take(s, h, Next(s, s.handlers[h], a, false)))
  {
    var t := Next(s, s.handlers[h], a, false);
    var s' := Take(s, h, t);
    forall id | IsClipRow(s', id)
      ensures Recorded(s', s'.rows[id])
    {
      RowStaysRecorded(s, h, a, id);
    }
  }

  // ---------- The ledger ----------

  lemma TwiceAppend(ledger: seq<TopupRequest>, req: TopupRequest, key: string)
    requires Twice(ledger + [req], key) && !Twice(ledger, key)
    ensures req.key == key && LedgerHas(ledger, key)
  {
    var all := ledger + [req];
    var j, k :| 0 <= j < k < |all| && all[j].key == key && all[k].key == key;
    assert all[j] == ledger[j];
    assert k == |ledger|;
  }

  lemma TwiceHas(ledger: seq<TopupRequest>, key: string)
    ensures Twice(ledger, key) ==> LedgerHas(ledger, key)
  {
  }

  lemma LedgerStaysOnce(s: State, h: nat, e: Effect)
    requires Base(s) && CreditInv(s) && h in s.handlers && Fits(s, s.handlers[h], e)
    ensures ClipOnce(Act(s, h, e)) && EntriesOwned(Act(s, h, e))
  {
    var s1 := Act(s, h, e);
    assert PcBound(s, s.handlers[h]) && PcKnows(s, s.handlers[h]);
    forall id | IsClipRow(s1, id)
      ensures !Twice(s1.ledger, s1.rows[id].terms.key)
    {
      var key := s1.rows[id].terms.key;
      if id !in s.rows {
        NewRowRecorded(s, h, id, e.row);
        TwiceHas(s1.ledger, key);
      } else if Twice(s1.ledger, key) {
        assert IsClipRow(s, id);
        TwiceAppend(s.ledger, e.req, key);
        CreditsOwnLock(s, h, e, id);
      }
    }
    forall key | LedgerHas(s1.ledger, key)
      ensures OwnedKey(s1, key)
    {
      LedgerChange(s, h, e, key);
      OwnedStays(s, h, e, key);
    }
  }

  lemma OwnedStays(s: State, h: nat, e: Effect, key: string)
    requires PcsBound(s) && EntriesOwned(s) && h in s.handlers && Fits(s, s.handlers[h], e)
    requires LedgerHas(s.ledger, key) || CreditsKey(e, key)
    ensures OwnedKey(Act(s, h, e), key)
  {
    assert PcBound(s, s.handlers[h]);
    ActGrows(s, h, s.handlers[h], e);
    if LedgerHas(s.ledger, key) {
      var id :| id in s.rows && s.rows[id].terms.key == key;
    } else if s.handlers[h].InWebhook? {
      assert s.rows[s.handlers[h].w.d.snap.id].terms.key == key;
    } else {
      assert s.rows[s.handlers[h].b.id].terms.key == key;
    }
  }

  // ---------- Every step ----------

  lemma CreditMove(s: State, h: nat, a: Answer)
    requires Base(s) && CreditInv(s) && h in s.handlers && Careful(s, Move(h, a))
    requires Next(s, s.handlers[h], a, false).Turn?
    ensures CreditInv(Take(s, h, Next(s, s.handlers[h], a, false)))
  {
    var t := Next(s, s.handlers[h], a, false);
    var s1, s' := Act(s, h, t.effect), Take(s, h, t);
    TurnFits(s, s.handlers[h], a, false);
    RowsStayRecorded(s, h, a);
    LedgerStaysOnce(s, h, t.effect);
    OwnKnows(s, h, a);
    forall g | g in s'.handlers
      ensures PcKnows(s', s'.handlers[g])
    {
      if g != h {
        OtherKnows(s, h, t.effect, g);
      }
      KnowsSame(s1, s', s'.handlers[g]);
    }
    TablesOnly(s1, s');
  }

  lemma TablesOnly(s: State, s': State)
    requires ClipOnce(s) && EntriesOwned(s) && s'.rows == s.rows && s'.ledger == s.ledger
    ensures ClipOnce(s') && EntriesOwned(s')
  {
    forall id | IsClipRow(s', id)
      ensures !Twice(s'.ledger, s'.rows[id].terms.key)
    {
      assert IsClipRow(s, id);
    }
    forall key | LedgerHas(s'.ledger, key)
      ensures OwnedKey(s', key)
    {
      var id :| id in s.rows && s.rows[id].terms.key == key;
      assert id in s'.rows;
    }
  }

  lemma CreditStart(s: State, h: nat, pc: Pc)
    requires CreditInv(s) && h !in s.handlers && IsStart(pc)
    ensures CreditInv(Begin(s, h, pc))
  {
    var s' := Begin(s, h, pc);
    forall id | IsClipRow(s', id)
      ensures Recorded(s', s'.rows[id])
    {
      assert IsClipRow(s, id);
      if g :| Crediting(s, g, s.rows[id].terms.key) {
        assert Crediting(s', g, s.rows[id].terms.key);
      }
    }
    forall g | g in s'.handlers
      ensures PcKnows(s', s'.handlers[g])
    {
      if g != h {
        KnowsSame(s, s', s.handlers[g]);
      }
    }
    TablesOnly(s, s');
  }

  lemma CreditStep(s: State, l: Label, s': State)
    requires Base(s) && CreditInv(s) && Step(s, l, s', false) && Honest(s, l) && Careful(s, l)
    ensures Base(s') && CreditInv(s')
  {
    TableStep(s, l, s', false);
    LockStep(s, l, s', false);
    BindStep(s, l, s', false);
    match l
    case Start(h, pc) => CreditStart(s, h, pc);
    case Move(h, a) => CreditMove(s, h, a);
  }

  ghost predicate CarefulRun(states: seq<State>, labels: seq<Label>) {
    && Run(states, labels, false)
    && forall i {:trigger labels[i]} | 0 <= i < |labels| :: Honest(states[i], labels[i]) && Careful(states[i], labels[i])
  }

  lemma CreditInit()
    ensures Base(InitState) && CreditInv(InitState)
  {
  }

  lemma CreditNext(states: seq<State>, labels: seq<Label>, i: nat)
    requires CarefulRun(states, labels) && i < |labels| && Base(states[i]) && CreditInv(states[i])
    ensures Base(states[i + 1]) && CreditInv(states[i + 1])
  {
    CreditStep(states[i], labels[i], states[i + 1]);
  }

  lemma {:induction false} CreditAlways(states: seq<State>, labels: seq<Label>, i: nat)
    requires CarefulRun(states, labels) && i < |states|
    ensures Base(states[i]) && CreditInv(states[i])
  {
    if i == 0 {
      CreditInit();
    } else {
      CreditAlways(states, labels, i - 1);
      CreditNext(states, labels, i - 1);
    }
  }

  /**
   * However many webhook deliveries interleave, and however the provider's status changes between
   * them, a ledger that never deduplicates accepts at most one top-up for each Clip payment.
   */
  lemma LockAndMarkerSuffice(states: seq<State>, labels: seq<Label>, i: nat, id: nat, j: nat, k: nat)
    requires CarefulRun(states, labels) && i < |states|
    requires id in states[i].rows && states[i].rows[id].terms.provider == Clip
    requires j < |states[i].ledger| && k < |states[i].ledger|
    requires states[i].ledger[j].key == states[i].rows[id].terms.key == states[i].ledger[k].key
    ensures j == k
  {
    CreditAlways(states, labels, i);
    assert IsClipRow(states[i], id);
    assert !Twice(states[i].ledger, states[i].rows[id].terms.key);
  }
}
