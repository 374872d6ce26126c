/**
 * The runs the restricted theorems speak of are not empty: whole card and QR payments, served one request after
 * another, are orderly, careful and sequential, and they end in a credit.
 */
module GoodRuns {
  import opened Payments
  import opened PaymentMachine
  import opened PaymentTable
  import opened Undisturbed
  import opened UndisturbedSip
  import opened Lifecycle
  import ChargeOnce
  import ChargeBindings
  import CreditOnce
  import CallbackRuns

  // ---------- Inside a visit ----------

  lemma VisitLabel(tr: Trace, tr': Trace, h: nat, pc: Pc, answers: seq<Answer>, dedup: bool, i: nat)
    requires IsRun(tr, dedup) && Visit(tr, tr', h, pc, answers, dedup) && i < |tr'.labels|
    ensures i < |tr.labels| ==> tr'.labels[i] == tr.labels[i] && tr'.states[i] == tr.states[i]
    ensures i == |tr.labels| ==> tr'.labels[i] == Start(h, pc) && tr'.states[i] == Last(tr)
    ensures i > |tr.labels| ==> i - |tr.labels| - 1 < |answers| && tr'.labels[i] == Move(h, answers[i - |tr.labels| - 1])
    ensures tr'.states[|tr.labels| + 1] == Begin(Last(tr), h, pc)
  {
    var prefix := tr.states + [Begin(Last(tr), h, pc)];
    assert prefix[|tr.labels| + 1] == Begin(Last(tr), h, pc);
    assert i <= |tr.labels| ==> prefix[i] == tr.states[i];
  }

  lemma ActKeeps(s: State, h: nat, pc: Pc, e: Effect)
    requires Fits(s, pc, e)
    ensures var s1 := Act(s, h, e);
            && s1.handlers == s.handlers && s.ledger <= s1.ledger
            && forall id | id in s.rows :: id in s1.rows && s1.rows[id].terms == s.rows[id].terms
  {
  }

  lemma MoveStep(s: State, h: nat, a: Answer, s': State, dedup: bool)
    requires Step(s, Move(h, a), s', dedup)
    ensures s'.handlers == s.handlers[h := Next(s, s.handlers[h], a, dedup).pc]
    ensures s.ledger <= s'.ledger && forall id | id in s.rows :: id in s'.rows && s'.rows[id].terms == s.rows[id].terms
  {
    var t := Next(s, s.handlers[h], a, dedup);
    TurnFits(s, s.handlers[h], a, dedup);
    ActKeeps(s, h, s.handlers[h], t.effect);
  }

  /** Since `s` only `h` moved, nothing left the ledger, and rows kept their terms. */
  ghost predicate Kept(s: State, s': State, h: nat) {
    && h in s'.handlers && s'.handlers == s.handlers[h := s'.handlers[h]] && s.ledger <= s'.ledger
    && forall id | id in s.rows :: id in s'.rows && s'.rows[id].terms == s.rows[id].terms
  }

  lemma KeptMove(s0: State, s: State, h: nat, a: Answer, s': State, dedup: bool)
    requires Kept(s0, s, h) && Step(s, Move(h, a), s', dedup)
    ensures Kept(s0, s', h)
  {
    MoveStep(s, h, a, s', dedup);
  }

  lemma {:induction false} KeptInduction(states: seq<State>, s0: State, h: nat, from: nat, i: nat)
    requires from <= i < |states| && Kept(s0, states[from], h)
    requires forall k | from <= k < i && Kept(s0, states[k], h) :: Kept(s0, states[k + 1], h)
    ensures Kept(s0, states[i], h)
    decreases i
  {
    if from < i {
      KeptInduction(states, s0, h, from, i - 1);
    }
  }

  lemma VisitMove(tr: Trace, tr': Trace, h: nat, pc: Pc, answers: seq<Answer>, dedup: bool, k: nat)
    requires IsRun(tr, dedup) && Visit(tr, tr', h, pc, answers, dedup) && |tr.labels| < k < |tr'.labels|
    ensures k - |tr.labels| - 1 < |answers| && Step(tr'.states[k], Move(h, answers[k - |tr.labels| - 1]), tr'.states[k + 1], dedup)
  {
    VisitLabel(tr, tr', h, pc, answers, dedup, k);
  }

  lemma VisitKeeps(tr: Trace, tr': Trace, h: nat, pc: Pc, answers: seq<Answer>, dedup: bool, i: nat)
    requires IsRun(tr, dedup) && Visit(tr, tr', h, pc, answers, dedup) && |tr.labels| < i <= |tr'.labels|
    ensures Kept(Last(tr), tr'.states[i], h)
  {
    VisitLabel(tr, tr', h, pc, answers, dedup, |tr.labels|);
    forall k | |tr.labels| + 1 <= k < i && Kept(Last(tr), tr'.states[k], h)
      ensures Kept(Last(tr), tr'.states[k + 1], h)
    {
      VisitMove(tr, tr', h, pc, answers, dedup, k);
      KeptMove(Last(tr), tr'.states[k], h, answers[k - |tr.labels| - 1], tr'.states[k + 1], dedup);
    }
    KeptInduction(tr'.states, Last(tr), h, |tr.labels| + 1, i);
  }

  lemma {:induction false} LedgerInduction(states: seq<State>, i: nat, j: nat)
    requires i <= j < |states| && forall k | i <= k < j :: states[k].ledger <= states[k + 1].ledger
    ensures states[i].ledger <= states[j].ledger
    decreases j
  {
    if i < j {
      LedgerInduction(states, i, j - 1);
      var k := j - 1;
      assert states[k].ledger <= states[k + 1].ledger;
    }
  }

  lemma LedgerLater(tr: Trace, tr': Trace, h: nat, pc: Pc, answers: seq<Answer>, dedup: bool, i: nat, j: nat)
    requires IsRun(tr, dedup) && Visit(tr, tr', h, pc, answers, dedup) && |tr.labels| < i <= j <= |tr'.labels|
    ensures tr'.states[i].ledger <= tr'.states[j].ledger
  {
    forall k | i <= k < j
      ensures tr'.states[k].ledger <= tr'.states[k + 1].ledger
    {
      VisitMove(tr, tr', h, pc, answers, dedup, k);
      MoveStep(tr'.states[k], h, answers[k - |tr.labels| - 1], tr'.states[k + 1], dedup);
    }
    LedgerInduction(tr'.states, i, j);
  }

  /** A visitor stays in its service; a process visit keeps its payment and has charged nothing before the answer. */
  ghost predicate InService(s0: State, s: State, h: nat, pc: Pc) {
    && h in s.handlers
    && var now := s.handlers[h];
       && (now.InVerify? ==> pc.InVerify? && now.v.id == pc.v.id)
       && (now.InProcess? ==> pc.InProcess? && now.p.id == pc.p.id && (!now.p.PRecord? ==> s.log.issued == s0.log.issued))
  }

  lemma ServiceMove(s0: State, s: State, h: nat, a: Answer, s': State, pc: Pc, dedup: bool)
    requires Step(s, Move(h, a), s', dedup) && InService(s0, s, h, pc)
    ensures InService(s0, s', h, pc)
  {
    TurnFits(s, s.handlers[h], a, dedup);
  }

  lemma {:induction false} ServiceStays(tr: Trace, tr': Trace, h: nat, pc: Pc, answers: seq<Answer>, dedup: bool, i: nat)
    requires IsRun(tr, dedup) && Visit(tr, tr', h, pc, answers, dedup) && |tr.labels| < i <= |tr'.labels|
    ensures InService(Last(tr), tr'.states[i], h, pc)
    decreases i
  {
    VisitLabel(tr, tr', h, pc, answers, dedup, i - 1);
    if i > |tr.labels| + 1 {
      ServiceStays(tr, tr', h, pc, answers, dedup, i - 1);
      ServiceMove(Last(tr), tr'.states[i - 1], h, answers[i - |tr.labels| - 2], tr'.states[i], pc, dedup);
    }
  }

  lemma VisitIdle(tr: Trace, tr': Trace, h: nat, pc: Pc, answers: seq<Answer>, dedup: bool)
    requires IsRun(tr, dedup) && Visit(tr, tr', h, pc, answers, dedup) && ChargeOnce.Idle(Last(tr))
    requires h in Last(tr').handlers && Last(tr').handlers[h] == Done
    ensures ChargeOnce.Idle(Last(tr'))
  {
    VisitKeeps(tr, tr', h, pc, answers, dedup, |tr'.labels|);
  }

  // ---------- Orderly, sequential and careful visits ----------

  lemma VisitOrderly(tr: Trace, tr': Trace, h: nat, pc: Pc, answers: seq<Answer>, dedup: bool)
    requires ChargeOnce.OrderlyRun(tr.states, tr.labels, dedup) && Visit(tr, tr', h, pc, answers, dedup)
    requires ChargeOnce.Idle(Last(tr)) && Throws !in answers
    ensures ChargeOnce.OrderlyRun(tr'.states, tr'.labels, dedup)
  {
    forall i | 0 <= i < |tr'.labels|
      ensures ChargeOnce.Orderly(tr'.states[i], tr'.labels[i])
    {
      VisitLabel(tr, tr', h, pc, answers, dedup, i);
    }
  }

  lemma VisitSequential(tr: Trace, tr': Trace, h: nat, pc: Pc, answers: seq<Answer>)
    requires CallbackRuns.SequentialRun(tr.states, tr.labels) && Visit(tr, tr', h, pc, answers, true)
    requires ChargeOnce.Idle(Last(tr)) && !pc.InVerify?
    requires pc.InProcess? ==> pc.p.id in Last(tr).rows && Last(tr).rows[pc.p.id].terms.provider == Clip
    ensures CallbackRuns.SequentialRun(tr'.states, tr'.labels)
  {
    forall i | 0 <= i < |tr'.labels|
      ensures CallbackRuns.OneAtATime(tr'.states[i], tr'.labels[i])
    {
      VisitLabel(tr, tr', h, pc, answers, true, i);
      if i > |tr.labels| {
        VisitKeeps(tr, tr', h, pc, answers, true, i);
        ServiceStays(tr, tr', h, pc, answers, true, i);
      }
    }
  }

  /** What a careful visit needs: no rejected await, and for a charge, an uncredited payment and a new provider id. */
  ghost predicate CarefulVisit(tr: Trace, tr': Trace, pc: Pc, answers: seq<Answer>)
    requires tr.states != [] && tr'.states != []
  {
    && !pc.InVerify? && Calm(answers)
    && (pc.InProcess? ==>
          && pc.p.id in Last(tr).rows && !LedgerHas(Last(tr').ledger, Last(tr).rows[pc.p.id].terms.key)
          && forall a, c | a in answers && a.Replies? && c in Last(tr).log.issued :: c.providerId != a.reply.id)
  }

  lemma PrefixHas(a: seq<TopupRequest>, b: seq<TopupRequest>, key: string)
    requires a <= b && LedgerHas(a, key)
    ensures LedgerHas(b, key)
  {
    var k :| 0 <= k < |a| && a[k].key == key;
    assert b[k].key == key;
  }

  /** A payment uncredited at the end of a visit is uncredited throughout it. */
  lemma UncreditedDuring(tr: Trace, tr': Trace, h: nat, pc: Pc, answers: seq<Answer>, i: nat, id: nat)
    requires IsRun(tr, false) && Visit(tr, tr', h, pc, answers, false) && |tr.labels| < i <= |tr'.labels|
    requires id in Last(tr).rows && !LedgerHas(Last(tr').ledger, Last(tr).rows[id].terms.key)
    ensures !CreditOnce.IsCredited(tr'.states[i], id)
  {
    VisitKeeps(tr, tr', h, pc, answers, false, i);
    LedgerLater(tr, tr', h, pc, answers, false, i, |tr'.labels|);
    var key := Last(tr).rows[id].terms.key;
    if LedgerHas(tr'.states[i].ledger, key) {
      PrefixHas(tr'.states[i].ledger, Last(tr').ledger, key);
    }
  }

  lemma CarefulMove(tr: Trace, tr': Trace, h: nat, pc: Pc, answers: seq<Answer>, i: nat)
    requires IsRun(tr, false) && Visit(tr, tr', h, pc, answers, false) && CarefulVisit(tr, tr', pc, answers) && |tr.labels| < i < |tr'.labels|
    ensures CreditOnce.Careful(tr'.states[i], tr'.labels[i]) && ChargeBindings.Honest(tr'.states[i], tr'.labels[i])
  {
    VisitLabel(tr, tr', h, pc, answers, false, i);
    ServiceStays(tr, tr', h, pc, answers, false, i);
    assert answers[i - |tr.labels| - 1] in answers;
    if pc.InProcess? {
      UncreditedDuring(tr, tr', h, pc, answers, i, pc.p.id);
    }
  }

  lemma VisitCareful(tr: Trace, tr': Trace, h: nat, pc: Pc, answers: seq<Answer>)
    requires CreditOnce.CarefulRun(tr.states, tr.labels) && Visit(tr, tr', h, pc, answers, false) && CarefulVisit(tr, tr', pc, answers)
    ensures CreditOnce.CarefulRun(tr'.states, tr'.labels)
  {
    forall i | 0 <= i < |tr'.labels|
      ensures CreditOnce.Careful(tr'.states[i], tr'.labels[i]) && ChargeBindings.Honest(tr'.states[i], tr'.labels[i])
    {
      VisitLabel(tr, tr', h, pc, answers, false, i);
      if i > |tr.labels| {
        CarefulMove(tr, tr', h, pc, answers, i);
      }
    }
  }

  // ---------- Whole payments ----------

  ghost predicate Calm(answers: seq<Answer>) {
    Throws !in answers && ThrowsAfter !in answers
  }

  lemma ProcessIsCalm(reply: ProviderReply)
    ensures Calm(ProcessAnswers(reply)) && forall a | a in ProcessAnswers(reply) && a.Replies? :: a.reply == reply
  {
  }

  lemma CreditingIsCalm(id: nat, links: UserLinks, reply: ProviderReply)
    ensures Calm(Crediting(id, links, reply))
  {
    assert Calm(ToMarker(id, links, reply, Accepted));
  }

  /** An orderly visit that ends leaves the run orderly and idle. */
  lemma OrderlyVisit(tr: Trace, tr': Trace, h: nat, pc: Pc, answers: seq<Answer>, dedup: bool)
    requires ChargeOnce.OrderlyRun(tr.states, tr.labels, dedup) && Visit(tr, tr', h, pc, answers, dedup)
    requires ChargeOnce.Idle(Last(tr)) && Calm(answers) && h in Last(tr').handlers && Last(tr').handlers[h] == Done
    ensures ChargeOnce.OrderlyRun(tr'.states, tr'.labels, dedup) && ChargeOnce.Idle(Last(tr')) && tr.states <= tr'.states
  {
    VisitOrderly(tr, tr', h, pc, answers, dedup);
    VisitIdle(tr, tr', h, pc, answers, dedup);
    assert tr.states <= tr.states + [Begin(Last(tr), h, pc)];
  }

  /** The empty run satisfies every restriction. */
  lemma EmptyRun() returns (tr: Trace)
    ensures tr.states != [] && Last(tr) == InitState
    ensures forall dedup :: ChargeOnce.OrderlyRun(tr.states, tr.labels, dedup)
    ensures CreditOnce.CarefulRun(tr.states, tr.labels) && CallbackRuns.SequentialRun(tr.states, tr.labels)
    ensures ChargeOnce.Idle(Last(tr))
  {
    tr := Trace([InitState], []);
  }

  /** After any idle orderly run, a whole card payment is orderly and ends credited. */
  lemma OrderlyCardPayment(tr: Trace, g: nat, h: nat, w: nat, id: nat, t: Terms, reply: ProviderReply, hook: string, links: UserLinks, dedup: bool)
    returns (tr': Trace)
    requires ChargeOnce.OrderlyRun(tr.states, tr.labels, dedup) && ChargeOnce.Idle(Last(tr))
    requires CardReady(Last(tr), g, h, w, id, t, reply, links, dedup)
    ensures ChargeOnce.OrderlyRun(tr'.states, tr'.labels, dedup) && ChargeOnce.Idle(Last(tr')) && tr.states <= tr'.states
    ensures Last(tr').ledger == Last(tr).ledger + [BuildTopupRequest(t, links).value]
  {
    var tr1, tr2;
    tr1, tr2, tr' := CardPayment(tr, g, h, w, id, t, reply, hook, links, dedup);
    ProcessIsCalm(reply);
    CreditingIsCalm(id, links, reply);
    OrderlyVisit(tr, tr1, g, InCreate(t), [Inserts(id)], dedup);
    OrderlyVisit(tr1, tr2, h, InProcess(PRead(id)), ProcessAnswers(reply), dedup);
    OrderlyVisit(tr2, tr', w, InWebhook(WFind(reply.id, hook)), Crediting(id, links, reply), dedup);
  }

  /** After any careful run, a whole card payment with a new provider id is careful and ends credited. */
  lemma CarefulCardPayment(tr: Trace, g: nat, h: nat, w: nat, id: nat, t: Terms, reply: ProviderReply, hook: string, links: UserLinks)
    returns (tr': Trace)
    requires CreditOnce.CarefulRun(tr.states, tr.labels) && CardReady(Last(tr), g, h, w, id, t, reply, links, false)
    requires forall c | c in Last(tr).log.issued :: c.providerId != reply.id
    ensures CreditOnce.CarefulRun(tr'.states, tr'.labels) && tr.states <= tr'.states
    ensures Last(tr').ledger == Last(tr).ledger + [BuildTopupRequest(t, links).value]
  {
    var tr1, tr2;
    tr1, tr2, tr' := CardPayment(tr, g, h, w, id, t, reply, hook, links, false);
    ProcessIsCalm(reply);
    CreditingIsCalm(id, links, reply);
    VisitCareful(tr, tr1, g, InCreate(t), [Inserts(id)]);
    VisitCareful(tr1, tr2, h, InProcess(PRead(id)), ProcessAnswers(reply));
    VisitCareful(tr2, tr', w, InWebhook(WFind(reply.id, hook)), Crediting(id, links, reply));
  }

  /** After any idle sequential run, a whole QR payment is sequential and ends credited. */
  lemma SequentialQrPayment(tr: Trace, g: nat, h: nat, id: nat, t: Terms, alias: string, qr: QrObject, cb: SipCallback, links: UserLinks)
    returns (tr': Trace)
    requires CallbackRuns.SequentialRun(tr.states, tr.labels) && ChargeOnce.Idle(Last(tr))
    requires QrReady(Last(tr), g, h, id, t, alias, qr, cb, links, true)
    ensures CallbackRuns.SequentialRun(tr'.states, tr'.labels) && ChargeOnce.Idle(Last(tr')) && tr.states <= tr'.states
    ensures Last(tr').ledger == Last(tr).ledger + [BuildTopupRequest(t, links).value]
  {
    var tr1;
    tr1, tr' := QrPayment(tr, g, h, id, t, alias, qr, cb, links, true);
    VisitSequential(tr, tr1, g, InQr(QFind(t)), QrAnswers(id, alias, qr));
    VisitIdle(tr, tr1, g, InQr(QFind(t)), QrAnswers(id, alias, qr), true);
    VisitSequential(tr1, tr', h, InCallback(BFind(cb)), CallbackAnswers(id, links));
    VisitIdle(tr1, tr', h, InCallback(BFind(cb)), CallbackAnswers(id, links), true);
  }
}
