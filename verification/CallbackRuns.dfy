/**
 * SIP callbacks taken one at a time per alias, each possibly aborted at any await, among any
 * other activity that does not write card statuses into SIP rows.
 */
module CallbackRuns {
  import opened Prelude
  import opened Payments
  import opened PaymentMachine
  import opened PaymentTable
  import opened PaymentSafety

  // ---------- What is assumed of a run ----------

  ghost predicate LiveFor(s: State, h: nat, alias: string) {
    h in s.handlers && s.handlers[h].InCallback? && s.handlers[h].b.cb.alias == alias
  }

  ghost predicate OnSipRow(s: State, id: nat) {
    id in s.rows && s.rows[id].terms.provider == Sip
  }

  /** A callback is delivered only when none for its alias is running; process and verify leave SIP rows alone. */
  ghost predicate OneAtATime(s: State, l: Label) {
    match l
    case Start(_, pc) => pc.InCallback? ==> forall g :: !LiveFor(s, g, pc.b.cb.alias)
    case Move(h, _) =>
      h in s.handlers ==>
        && (s.handlers[h].InProcess? ==> !OnSipRow(s, s.handlers[h].p.id))
        && (s.handlers[h].InVerify? ==> !OnSipRow(s, s.handlers[h].v.id))
  }

  // ---------- The invariant ----------

  ghost predicate OneLive(s: State) {
    forall g, h, alias | LiveFor(s, g, alias) && LiveFor(s, h, alias) :: g == h
  }

  ghost predicate RowOnce(s: State, id: nat) {
    OnSipRow(s, id) ==>
      && s.log.topups[s.rows[id].terms.key] <= 1
      && (s.log.topups[s.rows[id].terms.key] == 1 ==> s.rows[id].status == Completed)
  }

  ghost predicate NotToppedUp(s: State, id: nat, cb: SipCallback) {
    IsSip(s, id, cb.alias) && s.log.topups[s.rows[id].terms.key] == 0
  }

  /** What a running callback knows: its row is not completed yet, or it completed it and has not topped up. */
  ghost predicate CallbackKnows(s: State, b: CallbackPc) {
    match b
    case BFind(_) => true
    case BReject(id, cb, _) => NotToppedUp(s, id, cb) && s.rows[id].status != Completed
    case BCompleteRead(id, _, cb) => NotToppedUp(s, id, cb) && s.rows[id].status != Completed
    case BCompleteWrite(id, _, cb, _) => NotToppedUp(s, id, cb) && s.rows[id].status != Completed
    case BTxnFind(id, _, cb) => NotToppedUp(s, id, cb) && s.rows[id].status == Completed
    case BTxnCreate(id, _, cb) =>
      NotToppedUp(s, id, cb) && s.rows[id].status == Completed && !HasTransaction(s, TopupReference(cb.alias))
    case BRefetch(id, _, cb) => NotToppedUp(s, id, cb) && s.rows[id].status == Completed
    case BTopup(id, _, cb, _) => NotToppedUp(s, id, cb) && s.rows[id].status == Completed
    case BMergeRead(id, _, cb, _) => IsSip(s, id, cb.alias)
    case BMergeWrite(id, _, cb, _, _) => IsSip(s, id, cb.alias)
    case BNotices(_) => true
  }

  ghost predicate PcsSeq(s: State) {
    forall h | h in s.handlers && s.handlers[h].InCallback? :: CallbackKnows(s, s.handlers[h].b)
  }

  ghost predicate RowsSeq(s: State) {
    forall id | id in s.rows :: RowOnce(s, id)
  }

  ghost predicate RecordsRow(s: State, t: Transaction, id: nat) {
    && OnSipRow(s, id) && s.rows[id].terms.orderId.Some?
    && t == Transaction(TopupReference(s.rows[id].terms.orderId.value), s.rows[id].terms.userId, CreditAmount(s.rows[id].terms))
  }

  ghost predicate RecordsSome(s: State, t: Transaction) {
    exists id :: RecordsRow(s, t, id)
  }

  ghost predicate TransactionsSeq(s: State) {
    && (forall j, k | 0 <= j < k < |s.transactions| :: s.transactions[j].reference != s.transactions[k].reference)
    && (forall k | 0 <= k < |s.transactions| :: RecordsSome(s, s.transactions[k]))
  }

  /** Only known keys were ever sent to the ledger. */
  ghost predicate TopupsOwned(s: State) {
    forall key | key in s.log.topups :: exists id :: id in s.rows && s.rows[id].terms.key == key
  }

  ghost predicate SeqInv(s: State) {
    OneLive(s) && PcsSeq(s) && RowsSeq(s) && TransactionsSeq(s) && TopupsOwned(s)
  }

  /** Distinct aliases never share a transaction reference. */
  lemma ReferenceInjective(a: string, b: string)
    ensures TopupReference(a) == TopupReference(b) <==> a == b
  {
    assert TopupReference(a)[7..] == a && TopupReference(b)[7..] == b;
  }

  // ---------- A turn leaves the rows of other aliases alone ----------

  /** Status, top-up count and transaction of SIP row `id` as callbacks see them. */
  ghost predicate Untouched(s: State, s': State, id: nat) {
    && OnSipRow(s, id) && OnSipRow(s', id)
    && s'.rows[id].terms == s.rows[id].terms
    && s'.rows[id].status == s.rows[id].status
    && s'.log.topups[s.rows[id].terms.key] == s.log.topups[s.rows[id].terms.key]
    && (s.rows[id].terms.orderId.Some? ==>
          (HasTransaction(s', TopupReference(s.rows[id].terms.orderId.value))
           <==> HasTransaction(s, TopupReference(s.rows[id].terms.orderId.value))))
  }

  ghost predicate SameSip(s: State, e: Effect, id: nat)
    requires id in s.rows
  {
    && (e.Update? && e.id == id ==> e.row.status == s.rows[id].status)
    && (e.SendTopup? ==> e.req.key != s.rows[id].terms.key)
    && !e.AddTransaction?
  }

  lemma SameSipUntouched(s: State, h: nat, pc: Pc, e: Effect, id: nat)
    requires Fits(s, pc, e) && OnSipRow(s, id) && SameSip(s, e, id)
    ensures Untouched(s, Act(s, h, e), id)
  {
  }

  lemma QrSame(s: State, q: QrPc, a: Answer, id: nat)
    requires OnSipRow(s, id) && NextQr(s, q, a).Turn?
    ensures SameSip(s, NextQr(s, q, a).effect, id)
  {
  }

  lemma WebhookTopupSame(s: State, d: Delivery, req: TopupRequest, a: Answer, id: nat)
    requires UniqueKeys(s) && SnapOk(s, d.snap) && ReqOk(d.snap.row.terms, req) && OnSipRow(s, id)
    requires NextWebhook(s, WTopup(d, req), a, true).Turn?
    ensures SameSip(s, NextWebhook(s, WTopup(d, req), a, true).effect, id)
  {
  }

  lemma WebhookMergeSame(s: State, d: Delivery, job: Job, read: Payload, a: Answer, id: nat)
    requires SnapOk(s, d.snap) && OnSipRow(s, id) && NextWebhook(s, WMergeWrite(d, job, read), a, true).Turn?
    ensures SameSip(s, NextWebhook(s, WMergeWrite(d, job, read), a, true).effect, id)
  {
  }

  lemma WebhookSame(s: State, w: WebhookPc, a: Answer, id: nat)
    requires UniqueKeys(s) && WebhookOk(s, w) && OnSipRow(s, id) && NextWebhook(s, w, a, true).Turn?
    ensures SameSip(s, NextWebhook(s, w, a, true).effect, id)
  {
    match w
    case WTopup(d, req) => WebhookTopupSame(s, d, req, a, id);
    case WMergeWrite(d, job, read) => WebhookMergeSame(s, d, job, read, a, id);
    case _ =>
  }

  lemma ProcessSame(s: State, h: nat, a: Answer, id: nat)
    requires h in s.handlers && (s.handlers[h].InProcess? || s.handlers[h].InVerify?) && OneAtATime(s, Move(h, a))
    requires OnSipRow(s, id) && Next(s, s.handlers[h], a, true).Turn?
    ensures SameSip(s, Next(s, s.handlers[h], a, true).effect, id)
  {
  }

  lemma NonCallbackUntouched(s: State, h: nat, a: Answer, id: nat)
    requires Safe(s) && h in s.handlers && !s.handlers[h].InCallback? && OneAtATime(s, Move(h, a)) && OnSipRow(s, id)
    requires Next(s, s.handlers[h], a, true).Turn?
    ensures Untouched(s, Act(s, h, Next(s, s.handlers[h], a, true).effect), id)
  {
    var pc := s.handlers[h];
    assert PcOk(s, pc);
    TurnFits(s, pc, a, true);
    if a != Throws {
      match pc
      case InQr(q) => QrSame(s, q, a, id);
      case InWebhook(w) => WebhookSame(s, w, a, id);
      case InProcess(_) => ProcessSame(s, h, a, id);
      case InVerify(_) => ProcessSame(s, h, a, id);
      case _ =>
    }
    SameSipUntouched(s, h, pc, Next(s, pc, a, true).effect, id);
  }

  // ---------- The turn of a callback ----------

  /** A callback only ever touches the row, the key and the transaction of its own alias. */
  ghost predicate OwnEffect(s: State, b: CallbackPc, e: Effect) {
    && (e.Update? ==> IsSip(s, e.id, b.cb.alias))
    && (e.SendTopup? ==> b.BTopup? && IsSip(s, b.id, b.cb.alias) && e.req.key == s.rows[b.id].terms.key)
    && (e.AddTransaction? ==> e.t.reference == TopupReference(b.cb.alias))
    && !e.Insert?
  }

  lemma WriteEffect(s: State, b: CallbackPc, a: Answer)
    requires CallbackKnows(s, b) && NextCallback(s, b, a, true).Turn? && (b.BReject? || b.BCompleteWrite? || b.BMergeWrite?)
    ensures OwnEffect(s, b, NextCallback(s, b, a, true).effect)
  {
  }

  lemma CallbackEffect(s: State, b: CallbackPc, a: Answer)
    requires CallbackOk(s, b) && CallbackKnows(s, b) && NextCallback(s, b, a, true).Turn?
    ensures OwnEffect(s, b, NextCallback(s, b, a, true).effect)
  {
    if b.BReject? || b.BCompleteWrite? || b.BMergeWrite? {
      WriteEffect(s, b, a);
    }
  }

  lemma CallbackKeepsAlias(s: State, b: CallbackPc, a: Answer)
    requires NextCallback(s, b, a, true).Turn? && NextCallback(s, b, a, true).pc.InCallback?
    ensures NextCallback(s, b, a, true).pc.b.cb == b.cb
  {
  }

  lemma AddsOnly(s: State, h: nat, t: Transaction, reference: string)
    requires t.reference != reference
    ensures HasTransaction(Act(s, h, AddTransaction(t)), reference) <==> HasTransaction(s, reference)
  {
    var s1 := Act(s, h, AddTransaction(t));
    if HasTransaction(s, reference) {
      var k :| 0 <= k < |s.transactions| && s.transactions[k].reference == reference;
      assert s1.transactions[k].reference == reference;
    }
  }

  lemma OtherAliasUntouched(s: State, h: nat, b: CallbackPc, e: Effect, id: nat)
    requires UniqueKeys(s) && OwnEffect(s, b, e) && Fits(s, InCallback(b), e) && OnSipRow(s, id)
    requires s.rows[id].terms.orderId != Some(b.cb.alias)
    ensures Untouched(s, Act(s, h, e), id)
  {
    if e.AddTransaction? && s.rows[id].terms.orderId.Some? {
      ReferenceInjective(s.rows[id].terms.orderId.value, b.cb.alias);
      AddsOnly(s, h, e.t, TopupReference(s.rows[id].terms.orderId.value));
    }
  }

  ghost predicate StaysCompleted(s: State, s': State, id: nat) {
    OnSipRow(s, id) && s.rows[id].status == Completed ==> OnSipRow(s', id) && s'.rows[id].status == Completed
  }

  /** The callback's own row stays at one top-up, and what it knows next holds. */
  ghost predicate OwnTurnOk(s: State, h: nat, b: CallbackPc, t: Turn) {
    t.Turn? ==>
      var s1 := Act(s, h, t.effect);
      && (t.pc.InCallback? ==> CallbackKnows(s1, t.pc.b))
      && (t.effect.Update? ==> RowOnce(s1, t.effect.id) && StaysCompleted(s, s1, t.effect.id))
      && (t.effect.SendTopup? ==> b.BTopup? && RowOnce(s1, b.id))
  }

  lemma FindTurn(s: State, h: nat, cb: SipCallback, a: Answer)
    requires RowsSeq(s)
    ensures OwnTurnOk(s, h, BFind(cb), NextCallback(s, BFind(cb), a, true))
  {
    if a.Found? && IsSip(s, a.id, cb.alias) {
      assert RowOnce(s, a.id);
    }
  }

  lemma WriteTurn(s: State, h: nat, b: CallbackPc, a: Answer)
    requires (b.BReject? || b.BCompleteWrite? || b.BMergeWrite?) && CallbackKnows(s, b)
    requires IsSip(s, b.id, b.cb.alias) && RowOnce(s, b.id)
    ensures OwnTurnOk(s, h, b, NextCallback(s, b, a, true))
  {
  }

  lemma RefetchTurn(s: State, h: nat, b: CallbackPc, a: Answer)
    requires b.BRefetch? && CallbackKnows(s, b) && UniqueAliases(s)
    ensures OwnTurnOk(s, h, b, NextCallback(s, b, a, true))
  {
    if a.Found? && IsSip(s, a.id, b.cb.alias) {
      assert SameAlias(s, b.id, a.id);
    }
  }

  lemma TopupTurn(s: State, h: nat, b: CallbackPc, a: Answer)
    requires b.BTopup? && CallbackKnows(s, b) && CallbackOk(s, b)
    ensures OwnTurnOk(s, h, b, NextCallback(s, b, a, true))
  {
  }

  lemma OwnTurn(s: State, h: nat, b: CallbackPc, a: Answer)
    requires RowsSeq(s) && UniqueAliases(s) && CallbackOk(s, b) && CallbackKnows(s, b)
    ensures OwnTurnOk(s, h, b, NextCallback(s, b, a, true))
  {
    match b
    case BFind(cb) => FindTurn(s, h, cb, a);
    case BReject(id, _, _) => assert RowOnce(s, id); WriteTurn(s, h, b, a);
    case BCompleteWrite(id, _, _, _) => assert RowOnce(s, id); WriteTurn(s, h, b, a);
    case BMergeWrite(id, _, _, _, _) => assert RowOnce(s, id); WriteTurn(s, h, b, a);
    case BRefetch(_, _, _) => RefetchTurn(s, h, b, a);
    case BTopup(_, _, _, _) => TopupTurn(s, h, b, a);
    case _ =>
  }

  // ---------- Every step ----------

  lemma KnowsKept(s: State, s': State, b: CallbackPc)
    requires CallbackKnows(s, b) && (!b.BFind? && !b.BNotices? ==> Untouched(s, s', b.id))
    ensures CallbackKnows(s', b)
  {
  }

  /** Another alias's callback keeps what it knows. */
  lemma OtherKnows(s: State, h: nat, a: Answer, g: nat)
    requires Safe(s) && SeqInv(s) && h in s.handlers && OneAtATime(s, Move(h, a)) && Next(s, s.handlers[h], a, true).Turn?
    requires g in s.handlers && g != h && s.handlers[g].InCallback?
    ensures CallbackKnows(Act(s, h, Next(s, s.handlers[h], a, true).effect), s.handlers[g].b)
  {
    var e, b := Next(s, s.handlers[h], a, true).effect, s.handlers[g].b;
    assert CallbackKnows(s, b);
    if !b.BFind? && !b.BNotices? {
      RowTouched(s, h, a, b.id);
      assert LiveFor(s, g, b.cb.alias);
      assert !LiveFor(s, h, b.cb.alias);
    }
    KnowsKept(s, Act(s, h, e), b);
  }

  /** A turn leaves a SIP row untouched unless it belongs to a callback for that row's alias. */
  lemma RowTouched(s: State, h: nat, a: Answer, id: nat)
    requires Safe(s) && SeqInv(s) && h in s.handlers && OneAtATime(s, Move(h, a)) && Next(s, s.handlers[h], a, true).Turn?
    requires OnSipRow(s, id)
    ensures Untouched(s, Act(s, h, Next(s, s.handlers[h], a, true).effect), id)
            || (s.rows[id].terms.orderId.Some? && LiveFor(s, h, s.rows[id].terms.orderId.value))
  {
    var pc := s.handlers[h];
    var e := Next(s, pc, a, true).effect;
    if !pc.InCallback? {
      NonCallbackUntouched(s, h, a, id);
    } else if s.rows[id].terms.orderId != Some(pc.b.cb.alias) {
      assert PcOk(s, pc) && CallbackKnows(s, pc.b);
      TurnFits(s, pc, a, true);
      if a != Throws {
        CallbackEffect(s, pc.b, a);
      }
      OtherAliasUntouched(s, h, pc.b, e, id);
    }
  }

  lemma OwnRowEffect(s: State, h: nat, b: CallbackPc, t: Turn, id: nat)
    requires UniqueAliases(s) && RowOnce(s, id) && IsSip(s, id, b.cb.alias)
    requires t.Turn? && OwnEffect(s, b, t.effect) && OwnTurnOk(s, h, b, t)
    ensures var s1 := Act(s, h, t.effect); RowOnce(s1, id) && StaysCompleted(s, s1, id)
  {
    if t.effect.Update? {
      assert SameAlias(s, id, t.effect.id);
    } else if t.effect.SendTopup? {
      assert SameAlias(s, id, b.id);
    }
  }

  lemma OwnRow(s: State, h: nat, a: Answer, id: nat)
    requires Safe(s) && SeqInv(s) && h in s.handlers && s.handlers[h].InCallback? && Next(s, s.handlers[h], a, true).Turn?
    requires IsSip(s, id, s.handlers[h].b.cb.alias)
    ensures var s1 := Act(s, h, Next(s, s.handlers[h], a, true).effect); RowOnce(s1, id) && StaysCompleted(s, s1, id)
  {
    var b := s.handlers[h].b;
    assert PcOk(s, s.handlers[h]) && CallbackKnows(s, b) && RowOnce(s, id);
    if a != Throws {
      CallbackEffect(s, b, a);
      OwnTurn(s, h, b, a);
      OwnRowEffect(s, h, b, NextCallback(s, b, a, true), id);
    }
  }

  lemma RowStays(s: State, h: nat, a: Answer, id: nat)
    requires Safe(s) && SeqInv(s) && h in s.handlers && OneAtATime(s, Move(h, a)) && Next(s, s.handlers[h], a, true).Turn?
    requires OnSipRow(s, id)
    ensures var s1 := Act(s, h, Next(s, s.handlers[h], a, true).effect); RowOnce(s1, id) && StaysCompleted(s, s1, id)
  {
    RowTouched(s, h, a, id);
    assert RowOnce(s, id);
    if s.rows[id].terms.orderId.Some? && LiveFor(s, h, s.rows[id].terms.orderId.value) {
      OwnRow(s, h, a, id);
    }
  }

  lemma NewRowOnce(s: State, h: nat, id: nat, row: PaymentRow)
    requires TopupsOwned(s) && id !in s.rows && KeyFree(s, row.terms.key)
    ensures RowOnce(Act(s, h, Insert(id, row)), id)
  {
  }

  ghost predicate KeyOwned(s: State, key: string) {
    exists id :: id in s.rows && s.rows[id].terms.key == key
  }

  lemma OwnedGrows(s: State, s': State, key: string)
    requires Grows(s, s') && KeyOwned(s, key)
    ensures KeyOwned(s', key)
  {
    var id :| id in s.rows && s.rows[id].terms.key == key;
    assert id in s'.rows;
  }

  lemma SentKeyOwned(s: State, pc: Pc, e: Effect)
    requires PcOk(s, pc) && Fits(s, pc, e) && e.SendTopup?
    ensures KeyOwned(s, e.req.key)
  {
    if pc.InWebhook? {
      assert pc.w.d.snap.id in s.rows;
    } else {
      assert pc.b.id in s.rows;
    }
  }

  lemma OwnedTopups(s: State, h: nat, pc: Pc, e: Effect)
    requires TopupsOwned(s) && PcOk(s, pc) && Fits(s, pc, e)
    ensures TopupsOwned(Act(s, h, e))
  {
    var s1 := Act(s, h, e);
    ActGrows(s, h, pc, e);
    forall key | key in s1.log.topups
      ensures KeyOwned(s1, key)
    {
      if key !in s.log.topups {
        SentKeyOwned(s, pc, e);
      }
      OwnedGrows(s, s1, key);
    }
  }

  lemma RecordsGrow(s: State, s': State, t: Transaction)
    requires Grows(s, s') && RecordsSome(s, t)
    ensures RecordsSome(s', t)
  {
    var id :| RecordsRow(s, t, id);
    assert RecordsRow(s', t, id);
  }

  lemma CreateTurn(s: State, b: CallbackPc, a: Answer)
    requires b.BTxnCreate? && CallbackOk(s, b) && CallbackKnows(s, b) && NextCallback(s, b, a, true).Turn?
    ensures var e := NextCallback(s, b, a, true).effect;
            e.AddTransaction? && RecordsRow(s, e.t, b.id) && !HasTransaction(s, e.t.reference)
  {
  }

  lemma TransactionsAct(s: State, h: nat, pc: Pc, e: Effect)
    requires TransactionsSeq(s) && Fits(s, pc, e)
    requires e.AddTransaction? ==> RecordsSome(s, e.t) && !HasTransaction(s, e.t.reference)
    ensures TransactionsSeq(Act(s, h, e))
  {
    var s1 := Act(s, h, e);
    ActGrows(s, h, pc, e);
    forall k | 0 <= k < |s1.transactions|
      ensures RecordsSome(s1, s1.transactions[k])
    {
      assert RecordsSome(s, s1.transactions[k]);
      RecordsGrow(s, s1, s1.transactions[k]);
    }
  }

  lemma TransactionsStay(s: State, h: nat, a: Answer)
    requires Safe(s) && SeqInv(s) && h in s.handlers && Next(s, s.handlers[h], a, true).Turn?
    ensures TransactionsSeq(Act(s, h, Next(s, s.handlers[h], a, true).effect))
  {
    var pc := s.handlers[h];
    var e := Next(s, pc, a, true).effect;
    TurnFits(s, pc, a, true);
    if e.AddTransaction? {
      assert PcOk(s, pc) && CallbackKnows(s, pc.b);
      CreateTurn(s, pc.b, a);
      assert RecordsSome(s, e.t);
    }
    TransactionsAct(s, h, pc, e);
  }

  lemma LiveStays(s: State, h: nat, a: Answer)
    requires OneLive(s) && h in s.handlers && Next(s, s.handlers[h], a, true).Turn?
    ensures OneLive(Take(s, h, Next(s, s.handlers[h], a, true)))
  {
    var t := Next(s, s.handlers[h], a, true);
    var s' := Take(s, h, t);
    TurnFits(s, s.handlers[h], a, true);
    if a != Throws && t.pc.InCallback? {
      CallbackKeepsAlias(s, s.handlers[h].b, a);
    }
    forall f, g, alias | LiveFor(s', f, alias) && LiveFor(s', g, alias)
      ensures f == g
    {
      assert LiveFor(s, f, alias) && LiveFor(s, g, alias);
    }
  }

  lemma OwnKnows(s: State, h: nat, a: Answer)
    requires Safe(s) && SeqInv(s) && h in s.handlers && Next(s, s.handlers[h], a, true).Turn?
    ensures var t := Next(s, s.handlers[h], a, true);
            t.pc.InCallback? ==> CallbackKnows(Act(s, h, t.effect), t.pc.b)
  {
    var pc := s.handlers[h];
    TurnFits(s, pc, a, true);
    if pc.InCallback? && a != Throws {
      assert PcOk(s, pc) && CallbackKnows(s, pc.b);
      OwnTurn(s, h, pc.b, a);
    }
  }

  lemma SameRows(s: State, s': State)
    requires s'.rows == s.rows && s'.log.topups == s.log.topups && s'.transactions == s.transactions && RowsSeq(s)
    ensures RowsSeq(s')
  {
    forall id | id in s'.rows
      ensures RowOnce(s', id)
    {
      assert RowOnce(s, id);
    }
  }

  lemma SameTransactions(s: State, s': State)
    requires s'.rows == s.rows && s'.transactions == s.transactions && TransactionsSeq(s)
    ensures TransactionsSeq(s')
  {
    forall k | 0 <= k < |s'.transactions|
      ensures RecordsSome(s', s'.transactions[k])
    {
      assert RecordsSome(s, s.transactions[k]);
      var id :| RecordsRow(s, s.transactions[k], id);
      assert RecordsRow(s', s'.transactions[k], id);
    }
  }

  lemma SameTopups(s: State, s': State)
    requires s'.rows == s.rows && s'.log.topups == s.log.topups && TopupsOwned(s)
    ensures TopupsOwned(s')
  {
    forall key | key in s'.log.topups
      ensures exists id :: id in s'.rows && s'.rows[id].terms.key == key
    {
      var id :| id in s.rows && s.rows[id].terms.key == key;
      assert id in s'.rows;
    }
  }

  lemma SameKnows(s: State, s': State, b: CallbackPc)
    requires s'.rows == s.rows && s'.log.topups == s.log.topups && s'.transactions == s.transactions && CallbackKnows(s, b)
    ensures CallbackKnows(s', b)
  {
  }

  /** Program counters do not enter the row and transaction facts. */
  lemma SameBooks(s: State, s': State)
    requires s'.rows == s.rows && s'.log.topups == s.log.topups && s'.transactions == s.transactions
    requires RowsSeq(s) && TransactionsSeq(s) && TopupsOwned(s)
    ensures RowsSeq(s') && TransactionsSeq(s') && TopupsOwned(s')
  {
    SameRows(s, s');
    SameTransactions(s, s');
    SameTopups(s, s');
  }

  lemma SeqMove(s: State, h: nat, a: Answer)
    requires Safe(s) && SeqInv(s) && h in s.handlers && OneAtATime(s, Move(h, a)) && Next(s, s.handlers[h], a, true).Turn?
    ensures SeqInv(Take(s, h, Next(s, s.handlers[h], a, true)))
  {
    var pc := s.handlers[h];
    var t := Next(s, pc, a, true);
    var s1, s' := Act(s, h, t.effect), Take(s, h, t);
    assert PcOk(s, pc);
    TurnFits(s, pc, a, true);
    LiveStays(s, h, a);
    OwnedTopups(s, h, pc, t.effect);
    TransactionsStay(s, h, a);
    RowsMove(s, h, a);
    SameBooks(s1, s');
    OwnKnows(s, h, a);
    forall g | g in s'.handlers && s'.handlers[g].InCallback?
      ensures CallbackKnows(s', s'.handlers[g].b)
    {
      if g != h {
        OtherKnows(s, h, a, g);
      }
      SameKnows(s1, s', s'.handlers[g].b);
    }
  }

  lemma RowsMove(s: State, h: nat, a: Answer)
    requires Safe(s) && SeqInv(s) && h in s.handlers && OneAtATime(s, Move(h, a)) && Next(s, s.handlers[h], a, true).Turn?
    ensures RowsSeq(Act(s, h, Next(s, s.handlers[h], a, true).effect))
  {
    var e := Next(s, s.handlers[h], a, true).effect;
    var s1 := Act(s, h, e);
    TurnFits(s, s.handlers[h], a, true);
    forall id | id in s1.rows
      ensures RowOnce(s1, id)
    {
      if id !in s.rows {
        NewRowOnce(s, h, id, e.row);
      } else if OnSipRow(s, id) {
        RowStays(s, h, a, id);
      }
    }
  }

  lemma SeqStart(s: State, h: nat, pc: Pc)
    requires SeqInv(s) && h !in s.handlers && IsStart(pc) && OneAtATime(s, Start(h, pc))
    ensures SeqInv(Begin(s, h, pc))
  {
    var s' := Begin(s, h, pc);
    SameBooks(s, s');
    forall g | g in s'.handlers && s'.handlers[g].InCallback?
      ensures CallbackKnows(s', s'.handlers[g].b)
    {
      if g != h {
        SameKnows(s, s', s'.handlers[g].b);
      }
    }
    forall f, g, alias | LiveFor(s', f, alias) && LiveFor(s', g, alias)
      ensures f == g
    {
      assert f == h || LiveFor(s, f, alias);
      assert g == h || LiveFor(s, g, alias);
    }
  }

  lemma SeqStep(s: State, l: Label, s': State)
    requires Safe(s) && SeqInv(s) && Step(s, l, s', true) && OneAtATime(s, l)
    ensures SeqInv(s')
  {
    match l
    case Start(h, pc) => SeqStart(s, h, pc);
    case Move(h, a) => SeqMove(s, h, a);
  }

  // ---------- Theorems ----------

  ghost predicate SequentialRun(states: seq<State>, labels: seq<Label>) {
    && Run(states, labels, true)
    && forall i {:trigger labels[i]} | 0 <= i < |labels| :: OneAtATime(states[i], labels[i])
  }

  lemma {:induction false} SeqAlways(states: seq<State>, labels: seq<Label>, i: nat)
    requires SequentialRun(states, labels) && i < |states|
    ensures Safe(states[i]) && SeqInv(states[i])
  {
    if i > 0 {
      SeqAlways(states, labels, i - 1);
      SafeStep(states[i - 1], labels[i - 1], states[i]);
      SeqStep(states[i - 1], labels[i - 1], states[i]);
    }
  }

  lemma CompletedStep(s: State, l: Label, s': State, id: nat)
    requires Safe(s) && SeqInv(s) && Step(s, l, s', true) && OneAtATime(s, l) && OnSipRow(s, id)
    ensures StaysCompleted(s, s', id) && OnSipRow(s', id) && s'.rows[id].terms == s.rows[id].terms
  {
    TableStep(s, l, s', true);
    if l.Move? {
      RowStays(s, l.h, l.a, id);
    }
  }

  ghost predicate SipCompleted(s: State, id: nat) {
    OnSipRow(s, id) && s.rows[id].status == Completed
  }

  lemma CompletedNext(states: seq<State>, labels: seq<Label>, j: nat, id: nat)
    requires SequentialRun(states, labels) && 0 < j < |states| && SipCompleted(states[j - 1], id)
    ensures SipCompleted(states[j], id)
  {
    SeqAlways(states, labels, j - 1);
    CompletedStep(states[j - 1], labels[j - 1], states[j], id);
  }

  lemma {:induction false} Persists(states: seq<State>, i: nat, j: nat, id: nat)
    requires i <= j < |states| && SipCompleted(states[i], id)
    requires forall k | 0 < k < |states| && SipCompleted(states[k - 1], id) :: SipCompleted(states[k], id)
    ensures SipCompleted(states[j], id)
    decreases j
  {
    if i < j {
      Persists(states, i, j - 1, id);
    }
  }

  /** COMPLETED is absorbing for a SIP payment. */
  lemma CompletedAbsorbing(states: seq<State>, labels: seq<Label>, i: nat, j: nat, id: nat)
    requires SequentialRun(states, labels) && i <= j < |states| && SipCompleted(states[i], id)
    ensures SipCompleted(states[j], id)
  {
    forall k | 0 < k < |states| && SipCompleted(states[k - 1], id)
      ensures SipCompleted(states[k], id)
    {
      CompletedNext(states, labels, k, id);
    }
    Persists(states, i, j, id);
  }

  /** The ledger is asked at most once to credit a SIP payment, and only once the payment is COMPLETED. */
  lemma TopupAtMostOnce(states: seq<State>, labels: seq<Label>, i: nat, id: nat)
    requires SequentialRun(states, labels) && i < |states| && OnSipRow(states[i], id)
    ensures states[i].log.topups[states[i].rows[id].terms.key] <= 1
    ensures states[i].log.topups[states[i].rows[id].terms.key] == 1 ==> states[i].rows[id].status == Completed
  {
    SeqAlways(states, labels, i);
    assert RowOnce(states[i], id);
  }

  /** One transaction per alias reference; it belongs to that alias's payment, and its amount is the amount credited. */
  lemma OneTransactionPerAlias(states: seq<State>, labels: seq<Label>, i: nat, id: nat, alias: string, j: nat)
    requires SequentialRun(states, labels) && i < |states| && IsSip(states[i], id, alias)
    requires j < |states[i].transactions| && states[i].transactions[j].reference == TopupReference(alias)
    ensures forall k | 0 <= k < |states[i].transactions| && states[i].transactions[k].reference == TopupReference(alias) :: k == j
    ensures states[i].transactions[j].userId == states[i].rows[id].terms.userId
    ensures states[i].transactions[j].amount == CreditAmount(states[i].rows[id].terms)
    ensures forall k | 0 <= k < |states[i].ledger| && states[i].ledger[k].key == states[i].rows[id].terms.key ::
              states[i].ledger[k].amount == states[i].transactions[j].amount
  {
    SeqAlways(states, labels, i);
    var s := states[i];
    assert RecordsSome(s, s.transactions[j]);
    var x :| RecordsRow(s, s.transactions[j], x);
    ReferenceInjective(s.rows[x].terms.orderId.value, alias);
    assert SameAlias(s, x, id);
    forall k | 0 <= k < |s.ledger| && s.ledger[k].key == s.rows[id].terms.key
      ensures s.ledger[k].amount == CreditAmount(s.rows[id].terms)
    {
      assert EntryOk(s, s.ledger[k]);
      var y :| EntryFor(s, s.ledger[k], y);
      assert y == id;
    }
  }
}
