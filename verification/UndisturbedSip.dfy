/** What the QR request, the SIP callback and a card charge achieve when nothing interferes. */
module UndisturbedSip {
  import opened Prelude
  import opened Payments
  import opened PaymentMachine
  import opened Undisturbed

  /** The shared tables are these, and handler `h` stands at `pc`. */
  ghost predicate Holds(s: State, h: nat, pc: Pc, rows: map<nat, PaymentRow>, ledger: seq<TopupRequest>, transactions: seq<Transaction>) {
    s.rows == rows && s.ledger == ledger && s.transactions == transactions && h in s.handlers && s.handlers[h] == pc
  }

  ghost predicate Stands(tr: Trace, h: nat, pc: Pc, dedup: bool) {
    IsRun(tr, dedup) && h in Last(tr).handlers && Last(tr).handlers[h] == pc
  }

  // ---------- The SIP callback ----------

  lemma FindAndRead(tr: Trace, h: nat, id: nat, cb: SipCallback, links: UserLinks, dedup: bool) returns (tr': Trace)
    requires Stands(tr, h, InCallback(BFind(cb)), dedup) && IsSip(Last(tr), id, cb.alias)
    requires Last(tr).rows[id].status != Completed && CallbackMatches(cb, Last(tr).rows[id].terms)
    ensures Continues(tr, tr', h, [Found(id, links)] + [Returns], dedup)
    ensures var s := Last(tr);
            Holds(Last(tr'), h, InCallback(BCompleteWrite(id, s.rows[id].terms, cb, s.rows[id].payload)), s.rows, s.ledger, s.transactions)
  {
    var row := Last(tr).rows[id];
    var tr1 := Play(tr, h, Found(id, links), Turn(NoEffect, InCallback(BCompleteRead(id, row.terms, cb))), dedup);
    tr' := Play(tr1, h, Returns, Turn(NoEffect, InCallback(BCompleteWrite(id, row.terms, cb, row.payload))), dedup);
    Chain(tr, tr1, tr', h, [Found(id, links)], [Returns], dedup);
  }

  lemma CompleteAndLook(tr: Trace, h: nat, id: nat, cb: SipCallback, dedup: bool) returns (tr': Trace)
    requires IsRun(tr, dedup)
    requires id in Last(tr).rows
    requires Stands(tr, h, InCallback(BCompleteWrite(id, Last(tr).rows[id].terms, cb, Last(tr).rows[id].payload)), dedup)
    requires !HasTransaction(Last(tr), TopupReference(cb.alias))
    ensures Continues(tr, tr', h, [Returns] + [Returns], dedup)
    ensures var s, row := Last(tr), Last(tr).rows[id];
            Holds(Last(tr'), h, InCallback(BTxnCreate(id, row.terms, cb)), s.rows[id := CompleteSipUpdate(row, row.payload, cb)],
                  s.ledger, s.transactions)
  {
    var row := Last(tr).rows[id];
    var done := CompleteSipUpdate(row, row.payload, cb);
    IdFree(tr, id, dedup);
    assert ProviderIdFree(Last(tr), id, done);
    var tr1 := Play(tr, h, Returns, Turn(Update(id, done), InCallback(BTxnFind(id, row.terms, cb))), dedup);
    assert !HasTransaction(Last(tr1), TopupReference(cb.alias));
    tr' := Play(tr1, h, Returns, Turn(NoEffect, InCallback(BTxnCreate(id, row.terms, cb))), dedup);
    Chain(tr, tr1, tr', h, [Returns], [Returns], dedup);
  }

  lemma Record(tr: Trace, h: nat, id: nat, terms: Terms, cb: SipCallback, dedup: bool) returns (tr': Trace)
    requires Stands(tr, h, InCallback(BTxnCreate(id, terms, cb)), dedup)
    ensures Continues(tr, tr', h, [Returns], dedup)
    ensures var s := Last(tr);
            Holds(Last(tr'), h, InCallback(BRefetch(id, terms, cb)), s.rows, s.ledger,
                  s.transactions + [Transaction(TopupReference(cb.alias), terms.userId, CreditAmount(terms))])
  {
    var record := AddTransaction(Transaction(TopupReference(cb.alias), terms.userId, CreditAmount(terms)));
    tr' := Play(tr, h, Returns, Turn(record, InCallback(BRefetch(id, terms, cb))), dedup);
  }

  lemma RecordAndRefetch(tr: Trace, h: nat, id: nat, cb: SipCallback, links: UserLinks, req: TopupRequest, dedup: bool)
    returns (tr': Trace)
    requires IsRun(tr, dedup)
    requires IsSip(Last(tr), id, cb.alias) && Stands(tr, h, InCallback(BTxnCreate(id, Last(tr).rows[id].terms, cb)), dedup)
    requires BuildTopupRequest(Last(tr).rows[id].terms, links) == Some(req)
    ensures Continues(tr, tr', h, [Returns] + [Found(id, links)], dedup)
    ensures var s, terms := Last(tr), Last(tr).rows[id].terms;
            Holds(Last(tr'), h, InCallback(BTopup(id, terms, cb, req)), s.rows, s.ledger,
                  s.transactions + [Transaction(TopupReference(cb.alias), terms.userId, CreditAmount(terms))])
  {
    var terms := Last(tr).rows[id].terms;
    var tr1 := Record(tr, h, id, terms, cb, dedup);
    tr' := Play(tr1, h, Found(id, links), Turn(NoEffect, InCallback(BTopup(id, terms, cb, req))), dedup);
    Chain(tr, tr1, tr', h, [Returns], [Found(id, links)], dedup);
  }

  lemma Send(tr: Trace, h: nat, id: nat, terms: Terms, cb: SipCallback, req: TopupRequest, dedup: bool) returns (tr': Trace)
    requires Stands(tr, h, InCallback(BTopup(id, terms, cb, req)), dedup)
    requires dedup ==> !LedgerHas(Last(tr).ledger, req.key)
    ensures Continues(tr, tr', h, [Ledger(Accepted)], dedup)
    ensures var s := Last(tr);
            Holds(Last(tr'), h, InCallback(BMergeRead(id, terms, cb, req)), s.rows, s.ledger + [req], s.transactions)
  {
    tr' := Play(tr, h, Ledger(Accepted), Turn(SendTopup(req, Accepted), InCallback(BMergeRead(id, terms, cb, req))), dedup);
  }

  lemma SendAndRead(tr: Trace, h: nat, id: nat, terms: Terms, cb: SipCallback, req: TopupRequest, dedup: bool) returns (tr': Trace)
    requires IsRun(tr, dedup)
    requires id in Last(tr).rows && Stands(tr, h, InCallback(BTopup(id, terms, cb, req)), dedup)
    requires dedup ==> !LedgerHas(Last(tr).ledger, req.key)
    ensures Continues(tr, tr', h, [Ledger(Accepted)] + [Returns], dedup)
    ensures var s := Last(tr);
            Holds(Last(tr'), h, InCallback(BMergeWrite(id, terms, cb, req, s.rows[id].payload)), s.rows, s.ledger + [req], s.transactions)
  {
    var tr1 := Send(tr, h, id, terms, cb, req, dedup);
    tr' := Play(tr1, h, Returns, Turn(NoEffect, InCallback(BMergeWrite(id, terms, cb, req, Last(tr).rows[id].payload))), dedup);
    Chain(tr, tr1, tr', h, [Ledger(Accepted)], [Returns], dedup);
  }

  lemma MarkAndNotify(tr: Trace, h: nat, id: nat, terms: Terms, cb: SipCallback, req: TopupRequest, dedup: bool) returns (tr': Trace)
    requires IsRun(tr, dedup)
    requires id in Last(tr).rows && Stands(tr, h, InCallback(BMergeWrite(id, terms, cb, req, Last(tr).rows[id].payload)), dedup)
    ensures Continues(tr, tr', h, [Returns] + [Returns], dedup)
    ensures var s, row := Last(tr), Last(tr).rows[id];
            Holds(Last(tr'), h, Done, s.rows[id := MergeUpdate(row, Completed, row.payload, MarkerOnly(req))], s.ledger, s.transactions)
  {
    var row := Last(tr).rows[id];
    var marked := MergeUpdate(row, Completed, row.payload, MarkerOnly(req));
    IdFree(tr, id, dedup);
    assert ProviderIdFree(Last(tr), id, marked);
    var tr1 := Play(tr, h, Returns, Turn(Update(id, marked), InCallback(BNotices(cb))), dedup);
    tr' := Play(tr1, h, Returns, Turn(NoEffect, Done), dedup);
    Chain(tr, tr1, tr', h, [Returns], [Returns], dedup);
  }

  function Completing(id: nat, links: UserLinks): seq<Answer> {
    (([Found(id, links)] + [Returns]) + ([Returns] + [Returns])) + ([Returns] + [Found(id, links)])
  }

  function CallbackAnswers(id: nat, links: UserLinks): seq<Answer> {
    Completing(id, links) + (([Ledger(Accepted)] + [Returns]) + ([Returns] + [Returns]))
  }

  /** What a matching callback finds: its open row, no transaction yet, and a wallet to credit. */
  ghost predicate Payable(s: State, id: nat, cb: SipCallback, links: UserLinks) {
    && IsSip(s, id, cb.alias) && s.rows[id].status != Completed
    && CallbackMatches(cb, s.rows[id].terms) && !HasTransaction(s, TopupReference(cb.alias))
    && BuildTopupRequest(s.rows[id].terms, links).Some?
  }

  lemma UpToTopup(tr: Trace, h: nat, id: nat, cb: SipCallback, links: UserLinks, dedup: bool) returns (tr': Trace)
    requires Stands(tr, h, InCallback(BFind(cb)), dedup) && Payable(Last(tr), id, cb, links)
    ensures Continues(tr, tr', h, Completing(id, links), dedup)
    ensures var s, row := Last(tr), Last(tr).rows[id];
            Holds(Last(tr'), h, InCallback(BTopup(id, row.terms, cb, BuildTopupRequest(row.terms, links).value)),
                  s.rows[id := CompleteSipUpdate(row, row.payload, cb)], s.ledger,
                  s.transactions + [Transaction(TopupReference(cb.alias), row.terms.userId, CreditAmount(row.terms))])
  {
    var row := Last(tr).rows[id];
    var tr1 := FindAndRead(tr, h, id, cb, links, dedup);
    var tr2 := CompleteAndLook(tr1, h, id, cb, dedup);
    Chain(tr, tr1, tr2, h, [Found(id, links)] + [Returns], [Returns] + [Returns], dedup);
    tr' := RecordAndRefetch(tr2, h, id, cb, links, BuildTopupRequest(row.terms, links).value, dedup);
    Chain(tr, tr2, tr', h, ([Found(id, links)] + [Returns]) + ([Returns] + [Returns]), [Returns] + [Found(id, links)], dedup);
  }

  lemma CreditAndMark(tr: Trace, h: nat, id: nat, terms: Terms, cb: SipCallback, req: TopupRequest, dedup: bool) returns (tr': Trace)
    requires IsRun(tr, dedup)
    requires id in Last(tr).rows && Stands(tr, h, InCallback(BTopup(id, terms, cb, req)), dedup)
    requires dedup ==> !LedgerHas(Last(tr).ledger, req.key)
    ensures Continues(tr, tr', h, ([Ledger(Accepted)] + [Returns]) + ([Returns] + [Returns]), dedup)
    ensures var s, row := Last(tr), Last(tr).rows[id];
            Holds(Last(tr'), h, Done, s.rows[id := MergeUpdate(row, Completed, row.payload, MarkerOnly(req))], s.ledger + [req], s.transactions)
  {
    var row := Last(tr).rows[id];
    var tr1 := SendAndRead(tr, h, id, terms, cb, req, dedup);
    tr' := MarkAndNotify(tr1, h, id, terms, cb, req, dedup);
    Chain(tr, tr1, tr', h, [Ledger(Accepted)] + [Returns], [Returns] + [Returns], dedup);
  }

  /** COMPLETED, marked with the amount fixed at creation, holding the callback, otherwise the same row. */
  ghost predicate PaidByCallback(row: PaymentRow, row': PaymentRow, cb: SipCallback) {
    && row'.terms == row.terms && row'.providerPaymentId == row.providerPaymentId
    && row'.status == Completed && HasCompletedTopup(row'.payload)
    && StoredMarker(row'.payload).value.amount == CreditAmount(row.terms)
    && StoredMarker(row'.payload).value.externalTransactionId == row.terms.key
    && Callback in row'.payload && row'.payload[Callback] == CallbackValue(cb)
  }

  lemma PaidRow(row: PaymentRow, cb: SipCallback, links: UserLinks, req: TopupRequest)
    requires BuildTopupRequest(row.terms, links) == Some(req)
    ensures var completed := CompleteSipUpdate(row, row.payload, cb);
            PaidByCallback(row, MergeUpdate(completed, Completed, completed.payload, MarkerOnly(req)), cb)
  {
  }

  /**
   * A matching callback on an open payment completes it, records one transaction and one credit of the same
   * amount, the one fixed at creation, and leaves every other row alone.
   */
  lemma CallbackCredits(tr: Trace, h: nat, id: nat, cb: SipCallback, links: UserLinks, dedup: bool) returns (tr': Trace)
    requires Stands(tr, h, InCallback(BFind(cb)), dedup) && Payable(Last(tr), id, cb, links)
    requires dedup ==> !LedgerHas(Last(tr).ledger, Last(tr).rows[id].terms.key)
    ensures Continues(tr, tr', h, CallbackAnswers(id, links), dedup)
    ensures var s, s', terms := Last(tr), Last(tr'), Last(tr).rows[id].terms;
            && id in s'.rows && PaidByCallback(s.rows[id], s'.rows[id], cb)
            && Holds(s', h, Done, s.rows[id := s'.rows[id]], s.ledger + [BuildTopupRequest(terms, links).value],
                     s.transactions + [Transaction(TopupReference(cb.alias), terms.userId, CreditAmount(terms))])
  {
    var row := Last(tr).rows[id];
    var completed, req := CompleteSipUpdate(row, row.payload, cb), BuildTopupRequest(row.terms, links).value;
    var tr1 := UpToTopup(tr, h, id, cb, links, dedup);
    tr' := CreditAndMark(tr1, h, id, row.terms, cb, req, dedup);
    Chain(tr, tr1, tr', h, Completing(id, links), ([Ledger(Accepted)] + [Returns]) + ([Returns] + [Returns]), dedup);
    PaidRow(row, cb, links, req);
    Overwrites(Last(tr).rows, id, completed, Last(tr').rows[id]);
  }

  lemma Disagree(tr: Trace, h: nat, id: nat, cb: SipCallback, links: UserLinks, reason: string, dedup: bool) returns (tr': Trace)
    requires Stands(tr, h, InCallback(BFind(cb)), dedup) && IsSip(Last(tr), id, cb.alias)
    requires Last(tr).rows[id].status != Completed && !CallbackMatches(cb, Last(tr).rows[id].terms)
    requires reason == if AmountMismatch(cb, Last(tr).rows[id].terms) then "amount_mismatch" else "currency_mismatch"
    ensures Continues(tr, tr', h, [Found(id, links)], dedup)
    ensures var s := Last(tr); Holds(Last(tr'), h, InCallback(BReject(id, cb, reason)), s.rows, s.ledger, s.transactions)
  {
    tr' := Play(tr, h, Found(id, links), Turn(NoEffect, InCallback(BReject(id, cb, reason))), dedup);
  }

  lemma Fail(tr: Trace, h: nat, id: nat, cb: SipCallback, reason: string, dedup: bool) returns (tr': Trace)
    requires Stands(tr, h, InCallback(BReject(id, cb, reason)), dedup) && id in Last(tr).rows
    ensures Continues(tr, tr', h, [Returns], dedup)
    ensures var s := Last(tr); Holds(Last(tr'), h, Done, s.rows[id := MarkFailedUpdate(s.rows[id], reason)], s.ledger, s.transactions)
  {
    var row := MarkFailedUpdate(Last(tr).rows[id], reason);
    IdFree(tr, id, dedup);
    assert ProviderIdFree(Last(tr), id, row);
    tr' := Play(tr, h, Returns, Turn(Update(id, row), Done), dedup);
  }

  /** A callback that disagrees on amount or currency fails the payment and touches nothing else; the amount is checked first. */
  lemma MismatchFails(tr: Trace, h: nat, id: nat, cb: SipCallback, links: UserLinks, dedup: bool) returns (tr': Trace)
    requires Stands(tr, h, InCallback(BFind(cb)), dedup) && IsSip(Last(tr), id, cb.alias)
    requires Last(tr).rows[id].status != Completed
    requires !CallbackMatches(cb, Last(tr).rows[id].terms)
    ensures Continues(tr, tr', h, [Found(id, links)] + [Returns], dedup)
    ensures var s, s' := Last(tr), Last(tr');
            && id in s'.rows && Holds(s', h, Done, s.rows[id := s'.rows[id]], s.ledger, s.transactions)
            && s'.rows[id].terms == s.rows[id].terms && s'.rows[id].status == Failed
            && s'.rows[id].payload == map[Reason := Text(if AmountMismatch(cb, s.rows[id].terms) then "amount_mismatch" else "currency_mismatch")]
  {
    var row := Last(tr).rows[id];
    var reason := if AmountMismatch(cb, row.terms) then "amount_mismatch" else "currency_mismatch";
    var tr1 := Disagree(tr, h, id, cb, links, reason, dedup);
    tr' := Fail(tr1, h, id, cb, reason, dedup);
    Chain(tr, tr1, tr', h, [Found(id, links)], [Returns], dedup);
  }

  // ---------- The QR request ----------

  lemma DrawAndInsert(tr: Trace, h: nat, id: nat, terms: Terms, alias: string, dedup: bool) returns (tr': Trace)
    requires Stands(tr, h, InQr(QFind(terms)), dedup) && id !in Last(tr).rows && KeyFree(Last(tr), terms.key)
    requires alias !in Last(tr).aliases
    ensures Continues(tr, tr', h, [FreshAlias(alias)] + [Inserts(id)], dedup)
    ensures var s, t := Last(tr), terms.(orderId := Some(alias));
            Holds(Last(tr'), h, InQr(QToken(id, t)), s.rows[id := NewRow(t)], s.ledger, s.transactions)
    ensures Last(tr').log.sip == Last(tr).log.sip
  {
    var t := terms.(orderId := Some(alias));
    var tr1 := Play(tr, h, FreshAlias(alias), Turn(DrawAlias(alias), InQr(QInsert(t))), dedup);
    assert KeyFree(Last(tr1), t.key);
    tr' := Play(tr1, h, Inserts(id), Turn(Insert(id, NewRow(t)), InQr(QToken(id, t))), dedup);
    Chain(tr, tr1, tr', h, [FreshAlias(alias)], [Inserts(id)], dedup);
  }

  lemma PostAlias(tr: Trace, h: nat, id: nat, terms: Terms, qr: QrObject, dedup: bool) returns (tr': Trace)
    requires Stands(tr, h, InQr(QPost(id, terms, false)), dedup)
    ensures Continues(tr, tr', h, [QrCreated(qr)], dedup)
    ensures var s := Last(tr); Holds(Last(tr'), h, InQr(QSave(id, terms, qr)), s.rows, s.ledger, s.transactions)
    ensures SipCalls(Last(tr'), h) == SipCalls(Last(tr), h) + [Post(terms.key, terms.orderId.GetOr(""))]
  {
    var post := CallSip(Post(terms.key, terms.orderId.GetOr("")));
    tr' := Play(tr, h, QrCreated(qr), Turn(post, InQr(QSave(id, terms, qr))), dedup);
  }

  lemma PostAndSave(tr: Trace, h: nat, id: nat, terms: Terms, qr: QrObject, dedup: bool) returns (tr': Trace)
    requires Stands(tr, h, InQr(QPost(id, terms, false)), dedup) && id in Last(tr).rows
    requires ProviderIdFree(Last(tr), id, SaveQrUpdate(Last(tr).rows[id], qr))
    ensures Continues(tr, tr', h, [QrCreated(qr)] + [Returns], dedup)
    ensures var s := Last(tr); Holds(Last(tr'), h, Done, s.rows[id := SaveQrUpdate(s.rows[id], qr)], s.ledger, s.transactions)
    ensures SipCalls(Last(tr'), h) == SipCalls(Last(tr), h) + [Post(terms.key, terms.orderId.GetOr(""))]
  {
    var row := SaveQrUpdate(Last(tr).rows[id], qr);
    var tr1 := PostAlias(tr, h, id, terms, qr, dedup);
    assert ProviderIdFree(Last(tr1), id, row);
    tr' := Play(tr1, h, Returns, Turn(Update(id, row), Done), dedup);
    Chain(tr, tr1, tr', h, [QrCreated(qr)], [Returns], dedup);
  }

  function QrAnswers(id: nat, alias: string, qr: QrObject): seq<Answer> {
    (([FreshAlias(alias)] + [Inserts(id)]) + [CachedToken]) + ([QrCreated(qr)] + [Returns])
  }

  /** A new QR request stores one PENDING row under its key and alias, posts that alias once, and saves the QR. */
  lemma QrIssued(tr: Trace, h: nat, id: nat, terms: Terms, alias: string, qr: QrObject, dedup: bool) returns (tr': Trace)
    requires Stands(tr, h, InQr(QFind(terms)), dedup) && id !in Last(tr).rows && KeyFree(Last(tr), terms.key)
    requires alias !in Last(tr).aliases
    requires ProviderIdFree(Last(tr), id, SaveQrUpdate(NewRow(terms), qr))
    ensures Continues(tr, tr', h, QrAnswers(id, alias, qr), dedup)
    ensures var s, row := Last(tr), PaymentRow(terms.(orderId := Some(alias)), Pending, Some(qr.idQr), QrPayload(qr));
            Holds(Last(tr'), h, Done, s.rows[id := row], s.ledger, s.transactions)
    ensures SipCalls(Last(tr'), h) == SipCalls(Last(tr), h) + [Post(terms.key, alias)]
  {
    var t := terms.(orderId := Some(alias));
    var tr1 := DrawAndInsert(tr, h, id, terms, alias, dedup);
    var tr2 := Play(tr1, h, CachedToken, Turn(NoEffect, InQr(QPost(id, t, false))), dedup);
    Chain(tr, tr1, tr2, h, [FreshAlias(alias)] + [Inserts(id)], [CachedToken], dedup);
    assert ProviderIdFree(Last(tr2), id, SaveQrUpdate(NewRow(t), qr));
    tr' := PostAndSave(tr2, h, id, t, qr, dedup);
    Chain(tr, tr2, tr', h, ([FreshAlias(alias)] + [Inserts(id)]) + [CachedToken], [QrCreated(qr)] + [Returns], dedup);
    Overwrites(Last(tr).rows, id, NewRow(t), SaveQrUpdate(NewRow(t), qr));
  }

  // ---------- The card charge ----------

  lemma ReadAndSubmit(tr: Trace, h: nat, id: nat, dedup: bool) returns (tr': Trace)
    requires Stands(tr, h, InProcess(PRead(id)), dedup) && id in Last(tr).rows && Last(tr).rows[id].status == Pending
    ensures Continues(tr, tr', h, [Returns] + [Returns], dedup)
    ensures var s := Last(tr);
            Holds(Last(tr'), h, InProcess(PCharge(id)), s.rows[id := StatusUpdate(s.rows[id], Pending, None)], s.ledger, s.transactions)
    ensures Last(tr').log.charges == Last(tr).log.charges && Last(tr').log.issued == Last(tr).log.issued && Last(tr').locks == Last(tr).locks
  {
    var row := StatusUpdate(Last(tr).rows[id], Pending, None);
    var tr1 := Play(tr, h, Returns, Turn(NoEffect, InProcess(PSubmit(id))), dedup);
    IdFree(tr1, id, dedup);
    assert ProviderIdFree(Last(tr1), id, row);
    tr' := Play(tr1, h, Returns, Turn(Update(id, row), InProcess(PCharge(id))), dedup);
    Chain(tr, tr1, tr', h, [Returns], [Returns], dedup);
  }

  lemma ChargeCard(tr: Trace, h: nat, id: nat, reply: ProviderReply, dedup: bool) returns (tr': Trace)
    requires Stands(tr, h, InProcess(PCharge(id)), dedup)
    ensures Continues(tr, tr', h, [Replies(reply)], dedup)
    ensures var s := Last(tr); Holds(Last(tr'), h, InProcess(PRecord(id, reply)), s.rows, s.ledger, s.transactions)
    ensures Last(tr').log.charges == Last(tr).log.charges + multiset{id} && Last(tr').locks == Last(tr).locks
    ensures Last(tr').log.issued == Last(tr).log.issued + {Charge(id, reply.id)}
  {
    tr' := Play(tr, h, Replies(reply), Turn(AnswerCharge(Charge(id, reply.id)), InProcess(PRecord(id, reply))), dedup);
  }

  lemma ChargeAndRecord(tr: Trace, h: nat, id: nat, reply: ProviderReply, dedup: bool) returns (tr': Trace)
    requires Stands(tr, h, InProcess(PCharge(id)), dedup) && id in Last(tr).rows
    requires ProviderIdFree(Last(tr), id, StatusUpdate(Last(tr).rows[id], MapClipStatusBeforeWebhook(reply.status), Some(reply)))
    ensures Continues(tr, tr', h, [Replies(reply)] + [Returns], dedup)
    ensures var s := Last(tr);
            Holds(Last(tr'), h, Done, s.rows[id := StatusUpdate(s.rows[id], MapClipStatusBeforeWebhook(reply.status), Some(reply))],
                  s.ledger, s.transactions)
    ensures Last(tr').log.charges == Last(tr).log.charges + multiset{id} && Last(tr').locks == Last(tr).locks
    ensures Last(tr').log.issued == Last(tr).log.issued + {Charge(id, reply.id)}
  {
    var row := StatusUpdate(Last(tr).rows[id], MapClipStatusBeforeWebhook(reply.status), Some(reply));
    var tr1 := ChargeCard(tr, h, id, reply, dedup);
    assert ProviderIdFree(Last(tr1), id, row);
    tr' := Play(tr1, h, Returns, Turn(Update(id, row), Done), dedup);
    Chain(tr, tr1, tr', h, [Replies(reply)], [Returns], dedup);
  }

  /**
   * Processing a PENDING payment charges it once and records the provider's id and answer; an approved charge
   * leaves it PROCESSING, and no money is credited.
   */
  lemma ProcessCharges(tr: Trace, h: nat, id: nat, reply: ProviderReply, dedup: bool) returns (tr': Trace)
    requires Stands(tr, h, InProcess(PRead(id)), dedup) && id in Last(tr).rows && Last(tr).rows[id].status == Pending
    requires reply.id != ""
    requires ProviderIdFree(Last(tr), id, StatusUpdate(Last(tr).rows[id], Processing, Some(reply)))
    ensures Continues(tr, tr', h, ([Returns] + [Returns]) + ([Replies(reply)] + [Returns]), dedup)
    ensures var s, s' := Last(tr), Last(tr');
            && id in s'.rows && Holds(s', h, Done, s.rows[id := s'.rows[id]], s.ledger, s.transactions)
            && s'.log.charges == s.log.charges + multiset{id} && s'.locks == s.locks && s'.log.issued == s.log.issued + {Charge(id, reply.id)}
            && s'.rows[id] == PaymentRow(s.rows[id].terms, s'.rows[id].status, Some(reply.id), ReplyPayload(reply))
            && s'.rows[id].status == (if MapClipStatus(reply.status) == Completed then Processing else MapClipStatus(reply.status))
  {
    var submitted := StatusUpdate(Last(tr).rows[id], Pending, None);
    var recorded := StatusUpdate(submitted, MapClipStatusBeforeWebhook(reply.status), Some(reply));
    var tr1 := ReadAndSubmit(tr, h, id, dedup);
    assert ProviderIdFree(Last(tr1), id, recorded);
    tr' := ChargeAndRecord(tr1, h, id, reply, dedup);
    Chain(tr, tr1, tr', h, [Returns] + [Returns], [Replies(reply)] + [Returns], dedup);
    Overwrites(Last(tr).rows, id, submitted, recorded);
  }
}
