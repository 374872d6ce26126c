/** Runs in which a guarantee fails: a second answered charge, and a second credit from a ledger that never deduplicates. */
module SecondCharge {
  import opened Prelude
  import opened Payments
  import opened PaymentMachine
  import opened ChargeOnce
  import opened Undisturbed
  import opened UndisturbedSip
  import opened Lifecycle
  import opened GoodRuns

  // ---------- A second charge is possible whenever a reply reopened the payment ----------

  /** After the write, the payment is PENDING and only a webhook's last awaits may be left. */
  lemma ReopenedState(s: State, l: Label, s': State, id: nat, dedup: bool)
    requires OrderInv(s) && Step(s, l, s', dedup) && Reopens(s, l, id)
    ensures id in s'.rows && s'.rows[id].status == Pending
    ensures AlmostOver(s'.handlers[l.h])
    ensures forall g | g in s'.handlers && g != l.h :: s'.handlers[g] == Done
  {
    var t := Next(s, s.handlers[l.h], l.a, dedup);
    assert JobFits(s.handlers[l.h]);
    ReopeningTurn(s, s.handlers[l.h], l.a, id, dedup);
    assert Act(s, l.h, t.effect).handlers == s.handlers;
  }

  ghost predicate AlmostOver(pc: Pc) {
    pc == Done || (pc.InWebhook? && (pc.w.WReceipt? || pc.w.WRelease?))
  }

  lemma ReopeningTurn(s: State, pc: Pc, a: Answer, id: nat, dedup: bool)
    requires WritesUnknown(pc, id) && JobFits(pc) && (a == Returns || a == ThrowsAfter) && Next(s, pc, a, dedup).Turn?
    ensures var t := Next(s, pc, a, dedup);
            t.effect.Update? && t.effect.id == id && t.effect.row.status == Pending && AlmostOver(t.pc)
  {
  }

  lemma Released(tr: Trace, h: nat, dedup: bool) returns (tr': Trace)
    requires IsRun(tr, dedup) && h in Last(tr).handlers && Last(tr).handlers[h].InWebhook? && Last(tr).handlers[h].w.WRelease?
    ensures Continues(tr, tr', h, [Returns], dedup)
    ensures Last(tr').rows == Last(tr).rows && Last(tr').log.charges == Last(tr).log.charges
    ensures Last(tr').handlers == Last(tr).handlers[h := Done]
  {
    tr' := Play(tr, h, Returns, Turn(DropLock(Last(tr).handlers[h].w.lock, true), Done), dedup);
  }

  lemma Receipted(tr: Trace, h: nat, dedup: bool) returns (tr': Trace)
    requires IsRun(tr, dedup) && h in Last(tr).handlers && Last(tr).handlers[h].InWebhook? && Last(tr).handlers[h].w.WReceipt?
    ensures Continues(tr, tr', h, [Returns], dedup)
    ensures Last(tr').rows == Last(tr).rows && Last(tr').log.charges == Last(tr).log.charges
    ensures Last(tr').handlers == Last(tr).handlers[h := InWebhook(WRelease(Last(tr).handlers[h].w.lock))]
  {
    tr' := Play(tr, h, Returns, Turn(NoEffect, InWebhook(WRelease(Last(tr).handlers[h].w.lock))), dedup);
  }

  lemma MoveOrderly(tr: Trace, tr': Trace, h: nat, a: Answer, dedup: bool)
    requires OrderlyRun(tr.states, tr.labels, dedup) && Continues(tr, tr', h, [a], dedup) && a != Throws
    ensures OrderlyRun(tr'.states, tr'.labels, dedup)
  {
    assert Moves(h, [a]) == [Move(h, a)];
    forall i | 0 <= i < |tr'.labels|
      ensures Orderly(tr'.states[i], tr'.labels[i])
    {
      if i < |tr.labels| {
        assert tr'.labels[i] == tr.labels[i] && tr'.states[i] == tr.states[i];
      }
    }
  }

  /** Whatever is left of the last handler runs to its end without touching rows or charges. */
  lemma Finish(tr: Trace, h: nat, dedup: bool) returns (tr': Trace)
    requires OrderlyRun(tr.states, tr.labels, dedup) && h in Last(tr).handlers
    requires AlmostOver(Last(tr).handlers[h])
    ensures OrderlyRun(tr'.states, tr'.labels, dedup) && tr.states <= tr'.states
    ensures Last(tr').rows == Last(tr).rows && Last(tr').log.charges == Last(tr).log.charges
    ensures Last(tr').handlers == Last(tr).handlers[h := Done]
  {
    if Last(tr).handlers[h] == Done {
      tr' := tr;
    } else {
      var tr1 := tr;
      if Last(tr).handlers[h].w.WReceipt? {
        tr1 := Receipted(tr, h, dedup);
        MoveOrderly(tr, tr1, h, Returns, dedup);
      }
      tr' := Released(tr1, h, dedup);
      MoveOrderly(tr1, tr', h, Returns, dedup);
    }
  }

  /** From an idle orderly run, processing a PENDING payment makes one more answered charge of it. */
  lemma ChargeAgain(tr: Trace, g: nat, id: nat, reply: ProviderReply, dedup: bool) returns (tr': Trace)
    requires OrderlyRun(tr.states, tr.labels, dedup) && Idle(Last(tr)) && g !in Last(tr).handlers
    requires id in Last(tr).rows && Last(tr).rows[id].status == Pending
    requires reply.id != "" && IdUnused(Last(tr), reply.id)
    ensures OrderlyRun(tr'.states, tr'.labels, dedup) && Idle(Last(tr')) && tr.states <= tr'.states
    ensures Last(tr').log.charges == Last(tr).log.charges + multiset{id} && Last(tr').handlers.Keys == Last(tr).handlers.Keys + {g}
    ensures Last(tr').rows == Last(tr).rows[id := PaymentRow(Last(tr).rows[id].terms, MapClipStatusBeforeWebhook(reply.status), Some(reply.id), ReplyPayload(reply))]
  {
    tr' := Processed(tr, g, id, reply, dedup);
    ProcessIsCalm(reply);
    OrderlyVisit(tr, tr', g, InProcess(PRead(id)), ProcessAnswers(reply), dedup);
  }

  /**
   * The converse of `ChargeOnce.SecondChargeNeedsReopening`: whenever an orderly run has just recorded a reply of
   * `id` that maps to PENDING, by process, verify or webhook, it can go on orderly to one more answered charge of `id`.
   */
  lemma ReopenedCanBeCharged(tr: Trace, g: nat, id: nat, reply: ProviderReply, dedup: bool) returns (tr': Trace)
    requires OrderlyRun(tr.states, tr.labels, dedup) && tr.labels != []
    requires Reopens(tr.states[|tr.labels| - 1], tr.labels[|tr.labels| - 1], id)
    requires g !in Last(tr).handlers && reply.id != "" && IdUnused(Last(tr), reply.id)
    ensures OrderlyRun(tr'.states, tr'.labels, dedup) && tr.states <= tr'.states
    ensures Last(tr').log.charges[id] == Last(tr).log.charges[id] + 1
  {
    var n := |tr.labels| - 1;
    var h := tr.labels[n].h;
    OrderAlways(tr.states, tr.labels, dedup, n);
    ReopenedState(tr.states[n], tr.labels[n], Last(tr), id, dedup);
    var tr1 := Finish(tr, h, dedup);
    assert IdUnused(Last(tr1), reply.id);
    tr' := ChargeAgain(tr1, g, id, reply, dedup);
  }

  lemma CreatedOrderly(tr: Trace, f: nat, id: nat, t: Terms, dedup: bool) returns (tr': Trace)
    requires OrderlyRun(tr.states, tr.labels, dedup) && Idle(Last(tr)) && f !in Last(tr).handlers
    requires IsStart(InCreate(t)) && id !in Last(tr).rows && KeyFree(Last(tr), t.key)
    ensures OrderlyRun(tr'.states, tr'.labels, dedup) && Idle(Last(tr')) && tr.states <= tr'.states
    ensures Last(tr').rows == Last(tr).rows[id := NewRow(t)] && Last(tr').log.charges == Last(tr).log.charges
    ensures Last(tr').handlers.Keys == Last(tr).handlers.Keys + {f}
  {
    tr' := Created(tr, f, id, t, dedup);
    OrderlyVisit(tr, tr', f, InCreate(t), [Inserts(id)], dedup);
  }

  lemma StillUnused(s: State, s': State, id: nat, row: PaymentRow, pid: string)
    requires IdUnused(s, pid) && s'.rows == s.rows[id := row] && row.providerPaymentId != Some(pid)
    ensures IdUnused(s', pid)
  {
  }

  lemma TwoCharges(tr: Trace, g: nat, h: nat, id: nat, first: ProviderReply, second: ProviderReply, dedup: bool) returns (tr': Trace)
    requires OrderlyRun(tr.states, tr.labels, dedup) && Idle(Last(tr)) && g != h && g !in Last(tr).handlers && h !in Last(tr).handlers
    requires id in Last(tr).rows && Last(tr).rows[id].status == Pending
    requires first.id != "" && second.id != "" && first.id != second.id && IdUnused(Last(tr), first.id) && IdUnused(Last(tr), second.id)
    requires MapClipStatus(first.status) == Pending
    ensures OrderlyRun(tr'.states, tr'.labels, dedup) && tr.states <= tr'.states
    ensures Last(tr').log.charges[id] == Last(tr).log.charges[id] + 2
  {
    var tr1 := ChargeAgain(tr, g, id, first, dedup);
    StillUnused(Last(tr), Last(tr1), id, Last(tr1).rows[id], second.id);
    tr' := ChargeAgain(tr1, h, id, second, dedup);
  }

  /** After any idle orderly run: a payment created, charged with a reply that maps to PENDING, and charged again. */
  lemma ChargedTwice(tr: Trace, f: nat, g: nat, h: nat, id: nat, t: Terms, first: ProviderReply, second: ProviderReply, dedup: bool)
    returns (tr': Trace)
    requires OrderlyRun(tr.states, tr.labels, dedup) && Idle(Last(tr)) && f != g && g != h && h != f
    requires f !in Last(tr).handlers && g !in Last(tr).handlers && h !in Last(tr).handlers
    requires IsStart(InCreate(t)) && id !in Last(tr).rows && KeyFree(Last(tr), t.key)
    requires first.id != "" && second.id != "" && first.id != second.id && IdUnused(Last(tr), first.id) && IdUnused(Last(tr), second.id)
    requires MapClipStatus(first.status) == Pending
    ensures OrderlyRun(tr'.states, tr'.labels, dedup) && tr.states <= tr'.states
    ensures Last(tr').log.charges[id] == Last(tr).log.charges[id] + 2
  {
    var tr1 := CreatedOrderly(tr, f, id, t, dedup);
    assert IdUnused(Last(tr1), first.id) && IdUnused(Last(tr1), second.id);
    tr' := TwoCharges(tr1, g, h, id, first, second, dedup);
  }

  /** The same from nothing with the status `refunded`: an orderly run in which one payment is charged twice. */
  lemma RefundedIsChargedTwice(t: Terms, dedup: bool) returns (tr: Trace)
    requires IsStart(InCreate(t))
    ensures OrderlyRun(tr.states, tr.labels, dedup) && tr.states != [] && Last(tr).log.charges[0] == 2
  {
    var start := EmptyRun();
    RefundedIsUnknown();
    tr := ChargedTwice(start, 0, 1, 2, 0, t, ProviderReply("p", Some("refunded")), ProviderReply("q", Some("refunded")), dedup);
  }

  // ---------- A second credit once the marker is erased ----------

  lemma ReadAndQuery(tr: Trace, h: nat, id: nat, pid: string, reply: ProviderReply, dedup: bool) returns (tr': Trace)
    requires IsRun(tr, dedup) && id in Last(tr).rows && Last(tr).rows[id].providerPaymentId == Some(pid) && pid != ""
    requires Stands(tr, h, InVerify(VRead(id)), dedup)
    ensures Continues(tr, tr', h, [Returns] + [Replies(reply)], dedup)
    ensures var s := Last(tr); Holds(Last(tr'), h, InVerify(VRecord(id, reply)), s.rows, s.ledger, s.transactions)
    ensures Last(tr').locks == Last(tr).locks
  {
    var tr1 := Play(tr, h, Returns, Turn(NoEffect, InVerify(VQuery(id, pid))), dedup);
    tr' := Play(tr1, h, Replies(reply), Turn(NoEffect, InVerify(VRecord(id, reply))), dedup);
    Chain(tr, tr1, tr', h, [Returns], [Replies(reply)], dedup);
  }

  lemma RecordVerified(tr: Trace, h: nat, id: nat, reply: ProviderReply, dedup: bool) returns (tr': Trace)
    requires Stands(tr, h, InVerify(VRecord(id, reply)), dedup) && id in Last(tr).rows
    requires ProviderIdFree(Last(tr), id, StatusUpdate(Last(tr).rows[id], MapClipStatusBeforeWebhook(reply.status), Some(reply)))
    ensures Continues(tr, tr', h, [Returns], dedup)
    ensures var s := Last(tr);
            Holds(Last(tr'), h, Done, s.rows[id := StatusUpdate(s.rows[id], MapClipStatusBeforeWebhook(reply.status), Some(reply))], s.ledger, s.transactions)
    ensures Last(tr').locks == Last(tr).locks
  {
    var row := StatusUpdate(Last(tr).rows[id], MapClipStatusBeforeWebhook(reply.status), Some(reply));
    tr' := Play(tr, h, Returns, Turn(Update(id, row), Done), dedup);
  }

  function VerifyAnswers(reply: ProviderReply): seq<Answer> {
    ([Returns] + [Replies(reply)]) + [Returns]
  }

  /** Verifying a payment stores whatever id the provider answers with and replaces the whole payload. */
  lemma Verified(tr: Trace, h: nat, id: nat, pid: string, reply: ProviderReply, dedup: bool) returns (tr': Trace)
    requires IsRun(tr, dedup) && h !in Last(tr).handlers && IsClip(Last(tr), id, pid) && pid != "" && reply.id != ""
    requires ProviderIdFree(Last(tr), id, StatusUpdate(Last(tr).rows[id], MapClipStatusBeforeWebhook(reply.status), Some(reply)))
    ensures Visit(tr, tr', h, InVerify(VRead(id)), VerifyAnswers(reply), dedup)
    ensures var s, s' := Last(tr), Last(tr');
            && s'.rows == s.rows[id := PaymentRow(s.rows[id].terms, MapClipStatusBeforeWebhook(reply.status), Some(reply.id), ReplyPayload(reply))]
            && s'.ledger == s.ledger && s'.transactions == s.transactions && s'.locks == s.locks
            && s'.handlers.Keys == s.handlers.Keys + {h}
  {
    var row := StatusUpdate(Last(tr).rows[id], MapClipStatusBeforeWebhook(reply.status), Some(reply));
    var tr1 := Launch(tr, h, InVerify(VRead(id)), dedup);
    var tr2 := ReadAndQuery(tr1, h, id, pid, reply, dedup);
    assert ProviderIdFree(Last(tr2), id, row);
    tr' := RecordVerified(tr2, h, id, reply, dedup);
    Chain(tr1, tr2, tr', h, [Returns] + [Replies(reply)], [Returns], dedup);
    NoNewHandler(tr1, tr', h, VerifyAnswers(reply), dedup);
  }

  /** Verifying a payment leaves no stored marker, and touches nothing else. */
  lemma VerifyErasesMarker(tr: Trace, h: nat, id: nat, reply: ProviderReply, dedup: bool) returns (tr': Trace)
    requires IsRun(tr, dedup) && h !in Last(tr).handlers && IsClip(Last(tr), id, reply.id) && reply.id != ""
    ensures Visit(tr, tr', h, InVerify(VRead(id)), VerifyAnswers(reply), dedup)
    ensures var s, s' := Last(tr), Last(tr');
            && s'.rows == s.rows[id := PaymentRow(s.rows[id].terms, MapClipStatusBeforeWebhook(reply.status), Some(reply.id), ReplyPayload(reply))]
            && !HasCompletedTopup(s'.rows[id].payload) && s'.ledger == s.ledger && s'.transactions == s.transactions && s'.locks == s.locks
            && s'.handlers.Keys == s.handlers.Keys + {h}
  {
    IdFree(tr, id, dedup);
    assert ProviderIdFree(Last(tr), id, StatusUpdate(Last(tr).rows[id], MapClipStatusBeforeWebhook(reply.status), Some(reply)));
    tr' := Verified(tr, h, id, reply.id, reply, dedup);
  }

  /**
   * Why the lock theorem needs its assumption: with a ledger that never deduplicates, a card payment, then a verify,
   * which erases the marker, then a redelivered webhook, credit one payment twice.
   */
  lemma ErasedMarkerCreditsTwice(tr: Trace, g: nat, h: nat, w: nat, v: nat, x: nat, id: nat, t: Terms, reply: ProviderReply,
                                 hook: string, links: UserLinks) returns (tr': Trace)
    requires IsRun(tr, false) && CardReady(Last(tr), g, h, w, id, t, reply, links, false)
    requires v != x && v !in Last(tr).handlers && x !in Last(tr).handlers && g != v && g != x && h != v && h != x && w != v && w != x
    ensures IsRun(tr', false) && id in Last(tr').rows && Last(tr').rows[id].terms == t
    ensures var req := BuildTopupRequest(t, links).value;
            Last(tr').ledger == Last(tr).ledger + [req] + [req] && req.key == t.key
  {
    var tr1 := Credited(tr, g, h, w, id, t, reply, hook, links, false);
    var tr2 := VerifyErasesMarker(tr1, v, id, reply, false);
    tr' := Confirmed(tr2, x, id, reply, reply.id, hook, links, false);
  }

  /** The card payment with what the next visitor needs to know. */
  lemma Credited(tr: Trace, g: nat, h: nat, w: nat, id: nat, t: Terms, reply: ProviderReply, hook: string, links: UserLinks, dedup: bool)
    returns (tr': Trace)
    requires IsRun(tr, dedup) && CardReady(Last(tr), g, h, w, id, t, reply, links, dedup)
    ensures IsRun(tr', dedup) && Last(tr').handlers.Keys == Last(tr).handlers.Keys + {g, h, w}
    ensures IsClip(Last(tr'), id, reply.id) && Last(tr').rows[id].terms == t
    ensures Last(tr').ledger == Last(tr).ledger + [BuildTopupRequest(t, links).value] && Last(tr').locks == Last(tr).locks
  {
    var tr1, tr2;
    tr1, tr2, tr' := CardPayment(tr, g, h, w, id, t, reply, hook, links, dedup);
    VisitKeys(tr1, tr2, h, InProcess(PRead(id)), ProcessAnswers(reply), dedup);
    VisitKeys(tr2, tr', w, InWebhook(WFind(reply.id, hook)), Crediting(id, links, reply), dedup);
  }

  lemma VisitKeys(tr: Trace, tr': Trace, h: nat, pc: Pc, answers: seq<Answer>, dedup: bool)
    requires IsRun(tr, dedup) && Visit(tr, tr', h, pc, answers, dedup)
    ensures Last(tr').handlers.Keys == Last(tr).handlers.Keys + {h}
  {
    VisitKeeps(tr, tr', h, pc, answers, dedup, |tr'.labels|);
  }
}
