/** Whole payments: any run can go on by one complete card or QR payment, from its creation to the credit. */
module Lifecycle {
  import opened Prelude
  import opened Payments
  import opened PaymentMachine
  import opened PaymentSafety
  import opened PaymentTheorems
  import opened Undisturbed
  import opened UndisturbedSip

  /** A request arrives. */
  lemma Launch(tr: Trace, h: nat, pc: Pc, dedup: bool) returns (tr': Trace)
    requires IsRun(tr, dedup) && h !in Last(tr).handlers && IsStart(pc)
    ensures IsRun(tr', dedup) && tr'.states == tr.states + [Begin(Last(tr), h, pc)] && tr'.labels == tr.labels + [Start(h, pc)]
  {
    tr' := Trace(tr.states + [Begin(Last(tr), h, pc)], tr.labels + [Start(h, pc)]);
  }

  /** One request served from start to end with nobody else moving. */
  ghost predicate Visit(tr: Trace, tr': Trace, h: nat, pc: Pc, answers: seq<Answer>, dedup: bool)
    requires tr.states != []
  {
    && IsRun(tr', dedup) && tr.states + [Begin(Last(tr), h, pc)] <= tr'.states
    && tr'.labels == tr.labels + [Start(h, pc)] + Moves(h, answers)
  }

  lemma MoveKeepsHandlers(s: State, h: nat, a: Answer, s': State, dedup: bool)
    requires Step(s, Move(h, a), s', dedup)
    ensures s'.handlers.Keys == s.handlers.Keys
  {
    var t := Next(s, s.handlers[h], a, dedup);
    assert Act(s, h, t.effect).handlers == s.handlers;
  }

  /** Moves start no handler. */
  lemma {:induction false} HandlersStay(tr: Trace, tr': Trace, h: nat, answers: seq<Answer>, dedup: bool, i: nat)
    requires IsRun(tr, dedup) && Continues(tr, tr', h, answers, dedup) && |tr.labels| <= i <= |tr'.labels|
    ensures tr'.states[i].handlers.Keys == Last(tr).handlers.Keys
    decreases i
  {
    if i > |tr.labels| {
      HandlersStay(tr, tr', h, answers, dedup, i - 1);
      assert tr'.labels[i - 1] == Move(h, answers[i - 1 - |tr.labels|]);
      MoveKeepsHandlers(tr'.states[i - 1], h, answers[i - 1 - |tr.labels|], tr'.states[i], dedup);
    }
  }

  lemma NoNewHandler(tr: Trace, tr': Trace, h: nat, answers: seq<Answer>, dedup: bool)
    requires IsRun(tr, dedup) && Continues(tr, tr', h, answers, dedup)
    ensures Last(tr').handlers.Keys == Last(tr).handlers.Keys
  {
    HandlersStay(tr, tr', h, answers, dedup, |tr'.labels|);
  }

  /** A key no row has was never credited by a deduplicating ledger. */
  lemma UnknownKeyUncredited(tr: Trace, key: string)
    requires IsRun(tr, true) && KeyFree(Last(tr), key)
    ensures !LedgerHas(Last(tr).ledger, key)
  {
    AlwaysSafe(tr.states, tr.labels, |tr.labels|);
    assert forall k | 0 <= k < |Last(tr).ledger| :: EntryOk(Last(tr), Last(tr).ledger[k]);
  }

  // ---------- A card payment ----------

  lemma Created(tr: Trace, h: nat, id: nat, t: Terms, dedup: bool) returns (tr': Trace)
    requires IsRun(tr, dedup) && h !in Last(tr).handlers && IsStart(InCreate(t)) && id !in Last(tr).rows && KeyFree(Last(tr), t.key)
    ensures Visit(tr, tr', h, InCreate(t), [Inserts(id)], dedup)
    ensures var s, s' := Last(tr), Last(tr');
            && s'.rows == s.rows[id := NewRow(t)] && s'.ledger == s.ledger && s'.transactions == s.transactions && s'.locks == s.locks
            && s'.handlers == s.handlers[h := Done] && s'.log.charges == s.log.charges && s'.log.issued == s.log.issued
  {
    var tr1 := Launch(tr, h, InCreate(t), dedup);
    assert KeyFree(Last(tr1), t.key);
    tr' := Play(tr1, h, Inserts(id), Turn(Insert(id, NewRow(t)), Done), dedup);
  }

  ghost predicate IdUnused(s: State, pid: string) {
    forall id | id in s.rows :: s.rows[id].providerPaymentId != Some(pid)
  }

  function ProcessAnswers(reply: ProviderReply): seq<Answer> {
    ([Returns] + [Returns]) + ([Replies(reply)] + [Returns])
  }

  /** A PENDING payment is processed: one charge, and the row holds the reply. */
  lemma Processed(tr: Trace, h: nat, id: nat, reply: ProviderReply, dedup: bool) returns (tr': Trace)
    requires IsRun(tr, dedup) && h !in Last(tr).handlers && id in Last(tr).rows && Last(tr).rows[id].status == Pending
    requires reply.id != "" && IdUnused(Last(tr), reply.id)
    ensures Visit(tr, tr', h, InProcess(PRead(id)), ProcessAnswers(reply), dedup)
    ensures var s, s' := Last(tr), Last(tr');
            && s'.rows == s.rows[id := PaymentRow(s.rows[id].terms, MapClipStatusBeforeWebhook(reply.status), Some(reply.id), ReplyPayload(reply))]
            && s'.ledger == s.ledger && s'.transactions == s.transactions && s'.locks == s.locks
            && h in s'.handlers && s'.handlers[h] == Done && s'.handlers.Keys == s.handlers.Keys + {h}
            && s'.log.charges == s.log.charges + multiset{id} && s'.log.issued == s.log.issued + {Charge(id, reply.id)}
  {
    var row := Last(tr).rows[id];
    var tr1 := Launch(tr, h, InProcess(PRead(id)), dedup);
    assert ProviderIdFree(Last(tr1), id, StatusUpdate(row, Processing, Some(reply)));
    tr' := ProcessCharges(tr1, h, id, reply, dedup);
    NoNewHandler(tr1, tr', h, ProcessAnswers(reply), dedup);
  }

  lemma Confirmed(tr: Trace, h: nat, id: nat, reply: ProviderReply, pid: string, hook: string, links: UserLinks, dedup: bool) returns (tr': Trace)
    requires IsRun(tr, dedup) && h !in Last(tr).handlers && IsClip(Last(tr), id, pid) && Last(tr).rows[id].terms.key !in Last(tr).locks
    requires MapClipStatus(reply.status) == Completed
    requires !HasCompletedTopup(Last(tr).rows[id].payload) && BuildTopupRequest(Last(tr).rows[id].terms, links).Some?
    requires dedup ==> !LedgerHas(Last(tr).ledger, Last(tr).rows[id].terms.key)
    ensures Visit(tr, tr', h, InWebhook(WFind(pid, hook)), Crediting(id, links, reply), dedup)
    ensures var s, s' := Last(tr), Last(tr');
            && id in s'.rows && s'.rows == s.rows[id := s'.rows[id]] && CreditRecorded(s.rows[id], s'.rows[id], reply)
            && s'.ledger == s.ledger + [BuildTopupRequest(s.rows[id].terms, links).value]
            && s'.transactions == s.transactions && s'.locks == s.locks
            && h in s'.handlers && s'.handlers[h] == Done && s'.handlers.Keys == s.handlers.Keys + {h}
  {
    var tr1 := Launch(tr, h, InWebhook(WFind(pid, hook)), dedup);
    tr' := WebhookCredits(tr1, h, id, pid, hook, links, reply, dedup);
    NoNewHandler(tr1, tr', h, Crediting(id, links, reply), dedup);
  }

  /** What a whole card payment needs: new ids, an unused key and provider id, an approval, and a wallet to credit. */
  ghost predicate CardReady(s: State, g: nat, h: nat, w: nat, id: nat, t: Terms, reply: ProviderReply, links: UserLinks, dedup: bool) {
    && g != h && h != w && w != g && g !in s.handlers && h !in s.handlers && w !in s.handlers
    && IsStart(InCreate(t)) && id !in s.rows && KeyFree(s, t.key) && t.key !in s.locks
    && reply.id != "" && MapClipStatus(reply.status) == Completed && IdUnused(s, reply.id)
    && BuildTopupRequest(t, links).Some? && (!dedup ==> !LedgerHas(s.ledger, t.key))
  }

  /**
   * Any run can be followed by a whole card payment: created, charged with an approval, confirmed by a webhook.
   * The ledger gains exactly the net amount fixed at creation, and the row ends COMPLETED and marked.
   */
  lemma CardPayment(tr: Trace, g: nat, h: nat, w: nat, id: nat, t: Terms, reply: ProviderReply, hook: string, links: UserLinks, dedup: bool)
    returns (tr1: Trace, tr2: Trace, tr': Trace)
    requires IsRun(tr, dedup) && CardReady(Last(tr), g, h, w, id, t, reply, links, dedup)
    ensures Visit(tr, tr1, g, InCreate(t), [Inserts(id)], dedup)
    ensures Visit(tr1, tr2, h, InProcess(PRead(id)), ProcessAnswers(reply), dedup)
    ensures Visit(tr2, tr', w, InWebhook(WFind(reply.id, hook)), Crediting(id, links, reply), dedup)
    ensures Last(tr1).handlers == Last(tr).handlers[g := Done] && Last(tr1).log.issued == Last(tr).log.issued
    ensures h in Last(tr2).handlers && Last(tr2).handlers[h] == Done && w in Last(tr').handlers && Last(tr').handlers[w] == Done
    ensures Last(tr2).ledger == Last(tr).ledger && Last(tr1).rows == Last(tr).rows[id := NewRow(t)]
    ensures var s, s' := Last(tr), Last(tr');
            && id in s'.rows && s'.rows == s.rows[id := s'.rows[id]] && CreditRecorded(PaymentRow(t, Processing, Some(reply.id), ReplyPayload(reply)), s'.rows[id], reply)
            && s'.ledger == s.ledger + [BuildTopupRequest(t, links).value] && s'.ledger[|s.ledger|].amount == CreditAmount(t)
            && s'.transactions == s.transactions && s'.locks == s.locks
  {
    if dedup {
      UnknownKeyUncredited(tr, t.key);
    }
    tr1 := Created(tr, g, id, t, dedup);
    assert IdUnused(Last(tr1), reply.id);
    tr2 := Processed(tr1, h, id, reply, dedup);
    var row := PaymentRow(t, Processing, Some(reply.id), ReplyPayload(reply));
    Overwrites(Last(tr).rows, id, NewRow(t), row);
    tr' := Confirmed(tr2, w, id, reply, reply.id, hook, links, dedup);
    Overwrites(Last(tr).rows, id, row, Last(tr').rows[id]);
  }

  // ---------- A QR payment ----------

  lemma Requested(tr: Trace, h: nat, id: nat, t: Terms, alias: string, qr: QrObject, dedup: bool) returns (tr': Trace)
    requires IsRun(tr, dedup) && h !in Last(tr).handlers && IsStart(InQr(QFind(t))) && id !in Last(tr).rows && KeyFree(Last(tr), t.key)
    requires alias !in Last(tr).aliases && IdUnused(Last(tr), qr.idQr)
    ensures Visit(tr, tr', h, InQr(QFind(t)), QrAnswers(id, alias, qr), dedup)
    ensures var s, s' := Last(tr), Last(tr');
            && s'.rows == s.rows[id := PaymentRow(t.(orderId := Some(alias)), Pending, Some(qr.idQr), QrPayload(qr))]
            && s'.ledger == s.ledger && s'.transactions == s.transactions
            && h in s'.handlers && s'.handlers[h] == Done && s'.handlers.Keys == s.handlers.Keys + {h}
  {
    var tr1 := Launch(tr, h, InQr(QFind(t)), dedup);
    assert KeyFree(Last(tr1), t.key) && ProviderIdFree(Last(tr1), id, SaveQrUpdate(NewRow(t), qr));
    tr' := QrIssued(tr1, h, id, t, alias, qr, dedup);
    NoNewHandler(tr1, tr', h, QrAnswers(id, alias, qr), dedup);
  }

  lemma PaidFor(tr: Trace, h: nat, id: nat, cb: SipCallback, links: UserLinks, dedup: bool) returns (tr': Trace)
    requires IsRun(tr, dedup) && h !in Last(tr).handlers && Payable(Last(tr), id, cb, links)
    requires dedup ==> !LedgerHas(Last(tr).ledger, Last(tr).rows[id].terms.key)
    ensures Visit(tr, tr', h, InCallback(BFind(cb)), CallbackAnswers(id, links), dedup)
    ensures var s, s', t := Last(tr), Last(tr'), Last(tr).rows[id].terms;
            && id in s'.rows && s'.rows == s.rows[id := s'.rows[id]] && PaidByCallback(s.rows[id], s'.rows[id], cb)
            && s'.ledger == s.ledger + [BuildTopupRequest(t, links).value]
            && s'.transactions == s.transactions + [Transaction(TopupReference(cb.alias), t.userId, CreditAmount(t))]
            && h in s'.handlers && s'.handlers[h] == Done
  {
    var tr1 := Launch(tr, h, InCallback(BFind(cb)), dedup);
    assert !HasTransaction(Last(tr1), TopupReference(cb.alias));
    tr' := CallbackCredits(tr1, h, id, cb, links, dedup);
  }

  /** What a whole QR payment needs: new ids, an unused key, alias and QR id, an agreeing callback and a wallet. */
  ghost predicate QrReady(s: State, g: nat, h: nat, id: nat, t: Terms, alias: string, qr: QrObject, cb: SipCallback, links: UserLinks, dedup: bool) {
    && g != h && g !in s.handlers && h !in s.handlers
    && IsStart(InQr(QFind(t))) && id !in s.rows && KeyFree(s, t.key)
    && alias !in s.aliases && IdUnused(s, qr.idQr) && !HasTransaction(s, TopupReference(alias))
    && cb.alias == alias && CallbackMatches(cb, t) && BuildTopupRequest(t, links).Some?
    && (!dedup ==> !LedgerHas(s.ledger, t.key))
  }

  /**
   * Any run can be followed by a whole QR payment: requested under a new key and alias, paid by a callback that
   * agrees with it.  One transaction and one credit follow, both of the net amount fixed at creation.
   */
  lemma QrPayment(tr: Trace, g: nat, h: nat, id: nat, t: Terms, alias: string, qr: QrObject, cb: SipCallback, links: UserLinks, dedup: bool)
    returns (tr1: Trace, tr': Trace)
    requires IsRun(tr, dedup) && QrReady(Last(tr), g, h, id, t, alias, qr, cb, links, dedup)
    ensures Visit(tr, tr1, g, InQr(QFind(t)), QrAnswers(id, alias, qr), dedup)
    ensures Visit(tr1, tr', h, InCallback(BFind(cb)), CallbackAnswers(id, links), dedup)
    ensures g in Last(tr1).handlers && Last(tr1).handlers[g] == Done && h in Last(tr').handlers && Last(tr').handlers[h] == Done
    ensures var s, s' := Last(tr), Last(tr');
            && id in s'.rows && s'.rows == s.rows[id := s'.rows[id]] && s'.rows[id].status == Completed
            && s'.rows[id].terms == t.(orderId := Some(alias)) && HasCompletedTopup(s'.rows[id].payload)
            && s'.ledger == s.ledger + [BuildTopupRequest(t, links).value] && s'.ledger[|s.ledger|].amount == CreditAmount(t)
            && s'.transactions == s.transactions + [Transaction(TopupReference(alias), t.userId, CreditAmount(t))]
  {
    if dedup {
      UnknownKeyUncredited(tr, t.key);
    }
    tr1 := Requested(tr, g, id, t, alias, qr, dedup);
    var row := Last(tr1).rows[id];
    assert BuildTopupRequest(row.terms, links) == BuildTopupRequest(t, links);
    tr' := PaidFor(tr1, h, id, cb, links, dedup);
    Overwrites(Last(tr).rows, id, row, Last(tr').rows[id]);
  }
}
