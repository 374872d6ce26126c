/**
 * What every turn of every handler keeps about the payments table: unique keys, unique
 * order ids, and terms that never change once a row exists.
 */
module PaymentTable {
  import opened Prelude
  import opened Payments
  import opened PaymentMachine

  // ---------- The table invariant ----------

  ghost predicate UniqueKeys(s: State) {
    forall i, j | i in s.rows && j in s.rows && s.rows[i].terms.key == s.rows[j].terms.key :: i == j
  }

  ghost predicate SameAlias(s: State, i: nat, j: nat) {
    && i in s.rows && j in s.rows
    && s.rows[i].terms.orderId.Some? && s.rows[i].terms.orderId == s.rows[j].terms.orderId
  }

  ghost predicate UniqueAliases(s: State) {
    forall i, j | SameAlias(s, i, j) :: i == j
  }

  ghost predicate AliasesKnown(s: State) {
    forall id | id in s.rows && s.rows[id].terms.orderId.Some? :: s.rows[id].terms.orderId.value in s.aliases
  }

  ghost predicate Inserting(s: State, h: nat, alias: Option<string>) {
    h in s.handlers && s.handlers[h].InQr? && s.handlers[h].q.QInsert? && s.handlers[h].q.terms.orderId == alias
  }

  /** A handler about to insert holds an alias that no row and no other handler has. */
  ghost predicate PendingAlias(s: State, h: nat, t: Terms) {
    && t.provider == Sip
    && t.orderId.Some?
    && t.orderId.value in s.aliases
    && (forall id | id in s.rows :: s.rows[id].terms.orderId != t.orderId)
    && (forall g | Inserting(s, g, t.orderId) :: g == h)
  }

  ghost predicate CreatorOk(s: State, h: nat, pc: Pc) {
    match pc
    case InCreate(t) => t.provider == Clip && t.orderId == None
    case InQr(q) => (q.QFind? ==> q.terms.provider == Sip) && (q.QInsert? ==> PendingAlias(s, h, q.terms))
    case _ => true
  }

  ghost predicate TableInv(s: State) {
    && UniqueKeys(s)
    && UniqueAliases(s)
    && AliasesKnown(s)
    && forall h | h in s.handlers :: CreatorOk(s, h, s.handlers[h])
  }

  // ---------- Effects ----------

  /** What the effect of any turn respects, whoever takes it. */
  ghost predicate Fits(s: State, pc: Pc, e: Effect) {
    match e
    case Update(id, row) => id in s.rows && row.terms == s.rows[id].terms
    case Insert(id, row) =>
      && id !in s.rows && KeyFree(s, row.terms.key) && row == NewRow(row.terms)
      && (pc == InCreate(row.terms) || pc == InQr(QInsert(row.terms)))
    case SendTopup(req, _) =>
      || (pc.InWebhook? && pc.w.WTopup? && pc.w.req == req)
      || (pc.InCallback? && pc.b.BTopup? && pc.b.req == req)
    case DrawAlias(alias) => alias !in s.aliases && pc.InQr? && pc.q.QFind?
    case ReadStatus(_) => pc.InWebhook? && pc.w.WQuery?
    case AnswerCharge(_) => pc.InProcess? && pc.p.PCharge?
    case CallSip(_) => pc.InQr?
    case AddTransaction(_) => pc.InCallback? && pc.b.BTxnCreate?
    case _ => true
  }

  /** A handler stays in its own service, and a creating program counter is only reached by drawing an alias. */
  ghost predicate NextPcFits(pc: Pc, e: Effect, pc': Pc) {
    && !pc'.InCreate?
    && (pc'.InProcess? ==> pc.InProcess?)
    && (pc'.InVerify? ==> pc.InVerify?)
    && (pc'.InWebhook? ==> pc.InWebhook?)
    && (pc'.InCallback? ==> pc.InCallback?)
    && (pc'.InQr? ==> pc.InQr?)
    && (pc'.InQr? ==> !pc'.q.QFind? && (pc'.q.QInsert? ==>
                                          pc.InQr? && pc.q.QFind? && e.DrawAlias? && pc'.q.terms == pc.q.terms.(orderId := Some(e.alias))))
  }

  ghost predicate TurnOk(s: State, pc: Pc, t: Turn) {
    t.Turn? ==> Fits(s, pc, t.effect) && NextPcFits(pc, t.effect, t.pc)
  }

  lemma ProcessFits(s: State, p: ProcessPc, a: Answer)
    ensures TurnOk(s, InProcess(p), NextProcess(s, p, a))
  {
  }

  lemma VerifyFits(s: State, v: VerifyPc, a: Answer)
    ensures TurnOk(s, InVerify(v), NextVerify(s, v, a))
  {
  }

  lemma WebhookFits(s: State, w: WebhookPc, a: Answer, dedup: bool)
    ensures TurnOk(s, InWebhook(w), NextWebhook(s, w, a, dedup))
  {
  }

  lemma QrFits(s: State, q: QrPc, a: Answer)
    ensures TurnOk(s, InQr(q), NextQr(s, q, a))
  {
  }

  lemma CallbackFits(s: State, b: CallbackPc, a: Answer, dedup: bool)
    ensures TurnOk(s, InCallback(b), NextCallback(s, b, a, dedup))
  {
  }

  lemma TurnFits(s: State, pc: Pc, a: Answer, dedup: bool)
    ensures TurnOk(s, pc, Next(s, pc, a, dedup))
  {
    match pc
    case InProcess(p) => ProcessFits(s, p, a);
    case InVerify(v) => VerifyFits(s, v, a);
    case InWebhook(w) => WebhookFits(s, w, a, dedup);
    case InQr(q) => QrFits(s, q, a);
    case InCallback(b) => CallbackFits(s, b, a, dedup);
    case InCreate(_) =>
    case Done =>
  }

  /** Rows are never deleted and their terms never change; the ledger and the logs only grow. */
  ghost predicate Grows(s: State, s': State) {
    && (forall id | id in s.rows :: id in s'.rows && s'.rows[id].terms == s.rows[id].terms)
    && (forall key :: LedgerHas(s.ledger, key) ==> LedgerHas(s'.ledger, key))
    && s.log.readings <= s'.log.readings
    && s.log.callbacks <= s'.log.callbacks
    && s.aliases <= s'.aliases
  }

  /** Appending an entry adds exactly its key. */
  lemma LedgerAppend(ledger: seq<TopupRequest>, req: TopupRequest, key: string)
    ensures LedgerHas(ledger + [req], key) <==> LedgerHas(ledger, key) || req.key == key
  {
    if LedgerHas(ledger, key) {
      var k :| 0 <= k < |ledger| && ledger[k].key == key;
      assert (ledger + [req])[k].key == key;
    }
    if req.key == key {
      assert (ledger + [req])[|ledger|].key == key;
    }
  }

  lemma ActGrows(s: State, h: nat, pc: Pc, e: Effect)
    requires Fits(s, pc, e)
    ensures Grows(s, Act(s, h, e))
    ensures !e.SendTopup? ==> Act(s, h, e).ledger == s.ledger
    ensures e.SendTopup? && Credits(e.outcome) ==> LedgerHas(Act(s, h, e).ledger, e.req.key)
    ensures Act(s, h, e).handlers == s.handlers
  {
    if e.SendTopup? {
      forall key
        ensures LedgerHas(s.ledger, key) ==> LedgerHas(Act(s, h, e).ledger, key)
      {
        LedgerAppend(s.ledger, e.req, key);
      }
      LedgerAppend(s.ledger, e.req, e.req.key);
    }
  }

  // ---------- Every step keeps the table invariant ----------

  /** Another handler's pending alias survives a turn of `h`. */
  lemma OthersKeep(s: State, h: nat, t: Turn, g: nat)
    requires TableInv(s) && h in s.handlers && t.Turn? && g in s.handlers && g != h
    requires Fits(s, s.handlers[h], t.effect) && NextPcFits(s.handlers[h], t.effect, t.pc)
    ensures CreatorOk(Take(s, h, t), g, s.handlers[g])
  {
    var pc, s' := s.handlers[h], Take(s, h, t);
    assert CreatorOk(s, g, s.handlers[g]) && CreatorOk(s, h, pc);
    if s.handlers[g].InQr? && s.handlers[g].q.QInsert? {
      var alias := s.handlers[g].q.terms.orderId;
      assert Inserting(s, g, alias);
      forall f | Inserting(s', f, alias)
        ensures f == g
      {
        if f != h {
          assert Inserting(s, f, alias);
        }
      }
    }
  }

  lemma OwnKeeps(s: State, h: nat, t: Turn)
    requires TableInv(s) && h in s.handlers && t.Turn?
    requires Fits(s, s.handlers[h], t.effect) && NextPcFits(s.handlers[h], t.effect, t.pc)
    ensures CreatorOk(Take(s, h, t), h, t.pc)
  {
    var s' := Take(s, h, t);
    assert CreatorOk(s, h, s.handlers[h]);
    if t.pc.InQr? && t.pc.q.QInsert? {
      var alias := t.effect.alias;
      forall f | Inserting(s', f, Some(alias))
        ensures f == h
      {
        assert f == h || CreatorOk(s, f, s.handlers[f]);
      }
    }
  }

  lemma RowsKeep(s: State, h: nat, t: Turn)
    requires TableInv(s) && h in s.handlers && t.Turn?
    requires Fits(s, s.handlers[h], t.effect)
    ensures var s' := Take(s, h, t); UniqueKeys(s') && UniqueAliases(s') && AliasesKnown(s')
  {
    var s' := Take(s, h, t);
    assert CreatorOk(s, h, s.handlers[h]);
    forall i, j | SameAlias(s', i, j)
      ensures i == j
    {
      if !(t.effect.Insert? && (i == t.effect.id || j == t.effect.id)) {
        assert SameAlias(s, i, j);
      }
    }
  }

  lemma StartKeeps(s: State, h: nat, pc: Pc)
    requires TableInv(s) && h !in s.handlers && IsStart(pc)
    ensures TableInv(Begin(s, h, pc)) && Grows(s, Begin(s, h, pc))
  {
    var s' := Begin(s, h, pc);
    forall g | g in s'.handlers
      ensures CreatorOk(s', g, s'.handlers[g])
    {
      if g != h {
        assert CreatorOk(s, g, s.handlers[g]);
        if s.handlers[g].InQr? && s.handlers[g].q.QInsert? {
          forall f | Inserting(s', f, s.handlers[g].q.terms.orderId)
            ensures f == g
          {
            assert Inserting(s, f, s.handlers[g].q.terms.orderId);
          }
        }
      }
    }
    forall i, j | SameAlias(s', i, j)
      ensures i == j
    {
      assert SameAlias(s, i, j);
    }
  }

  /** Unique keys and order ids survive every step; terms are immutable; ledger and logs only grow. */
  lemma TableStep(s: State, l: Label, s': State, dedup: bool)
    requires TableInv(s) && Step(s, l, s', dedup)
    ensures TableInv(s') && Grows(s, s')
  {
    match l
    case Start(h, pc) =>
      StartKeeps(s, h, pc);
    case Move(h, a) =>
      var pc := s.handlers[h];
      var t := Next(s, pc, a, dedup);
      TurnFits(s, pc, a, dedup);
      ActGrows(s, h, pc, t.effect);
      RowsKeep(s, h, t);
      OwnKeeps(s, h, t);
      forall g | g in s'.handlers
        ensures CreatorOk(s', g, s'.handlers[g])
      {
        if g != h {
          OthersKeep(s, h, t, g);
        }
      }
  }
}
