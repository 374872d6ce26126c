/**
 * The main results about every run of the payment system with the deduplicating ledger,
 * for any number of interleaved handlers and any failures.
 */
module PaymentTheorems {
  import opened Prelude
  import opened Payments
  import opened PaymentMachine
  import opened PaymentTable
  import opened PaymentSafety

  lemma {:induction false} AlwaysSafe(states: seq<State>, labels: seq<Label>, i: nat)
    requires Run(states, labels, true) && i < |states|
    ensures Safe(states[i])
  {
    if i > 0 {
      AlwaysSafe(states, labels, i - 1);
      SafeStep(states[i - 1], labels[i - 1], states[i]);
    }
  }

  // ---------- Marker soundness ----------

  /** A COMPLETED top-up marker stored in any row at any moment has a ledger entry under that row's key, with its amount. */
  lemma MarkerSoundness(states: seq<State>, labels: seq<Label>, i: nat, id: nat) returns (k: nat)
    requires Run(states, labels, true) && i < |states| && id in states[i].rows
    requires HasCompletedTopup(states[i].rows[id].payload)
    ensures k < |states[i].ledger|
    ensures states[i].ledger[k].key == states[i].rows[id].terms.key
    ensures states[i].ledger[k].amount == StoredMarker(states[i].rows[id].payload).value.amount
  {
    AlwaysSafe(states, labels, i);
    var s := states[i];
    assert RowOk(s, id, s.rows[id]);
    k :| 0 <= k < |s.ledger| && s.ledger[k].key == s.rows[id].terms.key;
    assert EntryOk(s, s.ledger[k]);
    var id' :| EntryFor(s, s.ledger[k], id');
    assert id' == id;
  }

  // ---------- No credit without confirmation ----------

  predicate ApprovedStatus(status: Option<string>) {
    status.Some? && (Lower(status.value) == "approved" || Lower(status.value) == "succeeded" || Lower(status.value) == "completed")
  }

  /** A webhook, holding row `id` as read under its lock, is told by the provider that the payment is approved. */
  ghost predicate ApprovalStep(s: State, l: Label, id: nat) {
    && l.Move? && l.h in s.handlers && l.a.Replies? && ApprovedStatus(l.a.reply.status)
    && s.handlers[l.h].InWebhook? && s.handlers[l.h].w.WQuery? && s.handlers[l.h].w.snap.id == id
  }

  /** A callback for the alias of `t`, agreeing with its amount and currency where it gives them, is delivered. */
  ghost predicate VouchingStep(l: Label, t: Terms) {
    && l.Start? && l.pc.InCallback? && l.pc.b.BFind?
    && t.orderId == Some(l.pc.b.cb.alias) && CallbackMatches(l.pc.b.cb, t)
  }

  ghost predicate Happened(states: seq<State>, labels: seq<Label>, i: nat, id: nat, t: Terms)
    requires i <= |labels| < |states|
  {
    exists j | 0 <= j < i ::
      if t.provider == Clip then ApprovalStep(states[j], labels[j], id) else VouchingStep(labels[j], t)
  }

  lemma ReadingEffect(s: State, h: nat, e: Effect, r: Reading)
    requires r in Act(s, h, e).log.readings && r !in s.log.readings
    ensures e == ReadStatus(r)
  {
  }

  lemma ReadingOnlyByWebhook(s: State, l: Label, s': State, dedup: bool, r: Reading)
    requires Step(s, l, s', dedup) && r in s'.log.readings && r !in s.log.readings
    ensures l.Move? && l.h in s.handlers && l.a.Replies? && l.a.reply.status == r.status
    ensures s.handlers[l.h].InWebhook? && s.handlers[l.h].w.WQuery? && s.handlers[l.h].w.snap.id == r.id
  {
    var t := Next(s, s.handlers[l.h], l.a, dedup);
    ReadingEffect(s, l.h, t.effect, r);
    ReadStatusOnlyByQuery(s, s.handlers[l.h], l.a, dedup);
  }

  lemma ReadStatusOnlyByQuery(s: State, pc: Pc, a: Answer, dedup: bool)
    requires Next(s, pc, a, dedup).Turn? && Next(s, pc, a, dedup).effect.ReadStatus?
    ensures pc.InWebhook? && pc.w.WQuery? && a.Replies?
    ensures Next(s, pc, a, dedup).effect.r == Reading(pc.w.snap.id, a.reply.status)
  {
    TurnFits(s, pc, a, dedup);
  }

  lemma {:induction false} ReadingHappened(states: seq<State>, labels: seq<Label>, i: nat, r: Reading) returns (j: nat)
    requires Run(states, labels, true) && i < |states| && r in states[i].log.readings
    requires MapClipStatus(r.status) == Completed
    ensures j < i && ApprovalStep(states[j], labels[j], r.id)
  {
    if r in states[i - 1].log.readings {
      j := ReadingHappened(states, labels, i - 1, r);
    } else {
      j := i - 1;
      ReadingOnlyByWebhook(states[j], labels[j], states[i], true, r);
    }
  }

  lemma CallbackOnlyByDelivery(s: State, l: Label, s': State, dedup: bool, cb: SipCallback)
    requires Step(s, l, s', dedup) && cb in s'.log.callbacks && cb !in s.log.callbacks
    ensures l.Start? && l.pc == InCallback(BFind(cb))
  {
  }

  lemma {:induction false} DeliveryHappened(states: seq<State>, labels: seq<Label>, i: nat, cb: SipCallback) returns (j: nat)
    requires Run(states, labels, true) && i < |states| && cb in states[i].log.callbacks
    ensures j < i && labels[j].Start? && labels[j].pc == InCallback(BFind(cb))
  {
    if cb in states[i - 1].log.callbacks {
      j := DeliveryHappened(states, labels, i - 1, cb);
    } else {
      j := i - 1;
      CallbackOnlyByDelivery(states[j], labels[j], states[i], true, cb);
    }
  }

  lemma ProvenHappened(states: seq<State>, labels: seq<Label>, i: nat, id: nat, t: Terms)
    requires Run(states, labels, true) && i < |states| && Proven(states[i], id, t)
    ensures Happened(states, labels, i, id, t)
  {
    var s := states[i];
    if t.provider == Clip {
      var r :| r in s.log.readings && r.id == id && MapClipStatus(r.status) == Completed;
      var j := ReadingHappened(states, labels, i, r);
    } else {
      var cb :| cb in s.log.callbacks && t.orderId == Some(cb.alias) && CallbackMatches(cb, t);
      var j := DeliveryHappened(states, labels, i, cb);
    }
  }

  /**
   * A row is COMPLETED, or credited, only after a webhook read an approved status for it (Clip)
   * or a matching callback named its alias (SIP).
   */
  lemma NoCreditWithoutConfirmation(states: seq<State>, labels: seq<Label>, i: nat, id: nat)
    requires Run(states, labels, true) && i < |states| && id in states[i].rows
    requires states[i].rows[id].status == Completed || LedgerHas(states[i].ledger, states[i].rows[id].terms.key)
    ensures Happened(states, labels, i, id, states[i].rows[id].terms)
  {
    AlwaysSafe(states, labels, i);
    var s := states[i];
    assert RowOk(s, id, s.rows[id]);
    if LedgerHas(s.ledger, s.rows[id].terms.key) {
      var k :| 0 <= k < |s.ledger| && s.ledger[k].key == s.rows[id].terms.key;
      assert EntryOk(s, s.ledger[k]);
      var id' :| EntryFor(s, s.ledger[k], id');
      assert id' == id;
    }
    ProvenHappened(states, labels, i, id, s.rows[id].terms);
  }

  // ---------- Refinement of one-shot credits ----------

  /** The specification: payments fall due with a fixed amount, and each is credited at most once. */
  datatype Accounts = Accounts(due: map<nat, int>, paid: set<nat>, total: int)

  ghost predicate Opens(a: Accounts, a': Accounts, id: nat) {
    id !in a.due && id in a'.due && a' == a.(due := a.due[id := a'.due[id]])
  }

  ghost predicate Pays(a: Accounts, a': Accounts, id: nat) {
    id in a.due && id !in a.paid && a' == a.(paid := a.paid + {id}, total := a.total + a.due[id])
  }

  ghost predicate AccountsStep(a: Accounts, a': Accounts) {
    a' == a || (exists id :: Opens(a, a', id)) || (exists id :: Pays(a, a', id))
  }

  ghost predicate AccountsRun(accounts: seq<Accounts>) {
    && |accounts| > 0
    && accounts[0] == Accounts(map[], {}, 0)
    && forall i | 0 <= i < |accounts| - 1 :: AccountsStep(accounts[i], accounts[i + 1])
  }

  ghost function CreditedIds(s: State): set<nat> {
    set id | id in s.rows && LedgerHas(s.ledger, s.rows[id].terms.key)
  }

  function LedgerTotal(ledger: seq<TopupRequest>): int {
    if ledger == [] then 0 else LedgerTotal(ledger[..|ledger| - 1]) + ledger[|ledger| - 1].amount
  }

  ghost function Abstract(s: State): Accounts {
    Accounts(map id | id in s.rows :: CreditAmount(s.rows[id].terms), CreditedIds(s), LedgerTotal(s.ledger))
  }

  lemma InsertOpens(s: State, h: nat, id: nat, row: PaymentRow)
    requires Safe(s) && id !in s.rows && KeyFree(s, row.terms.key)
    ensures Opens(Abstract(s), Abstract(Act(s, h, Insert(id, row))), id)
  {
    assert !LedgerHas(s.ledger, row.terms.key);
    assert CreditedIds(Act(s, h, Insert(id, row))) == CreditedIds(s);
  }

  lemma CreditPays(s: State, h: nat, req: TopupRequest, o: LedgerOutcome)
    requires Safe(s) && EffectSafe(s, SendTopup(req, o)) && Credits(o)
    ensures exists id :: Pays(Abstract(s), Abstract(Act(s, h, SendTopup(req, o))), id)
  {
    var s' := Act(s, h, SendTopup(req, o));
    var id :| EntryFor(s, req, id);
    forall x | x in s.rows
      ensures x in CreditedIds(s') <==> x in CreditedIds(s) || x == id
    {
      LedgerAppend(s.ledger, req, s.rows[x].terms.key);
    }
    assert s'.ledger[..|s'.ledger| - 1] == s.ledger;
    assert Pays(Abstract(s), Abstract(s'), id);
  }

  lemma SameAccounts(s: State, s': State)
    requires s'.ledger == s.ledger && s'.rows.Keys == s.rows.Keys
    requires forall id | id in s.rows :: s'.rows[id].terms == s.rows[id].terms
    ensures Abstract(s') == Abstract(s)
  {
    assert CreditedIds(s') == CreditedIds(s);
  }

  lemma EffectRefines(s: State, h: nat, pc: Pc, e: Effect)
    requires Safe(s) && Fits(s, pc, e) && EffectSafe(s, e)
    ensures AccountsStep(Abstract(s), Abstract(Act(s, h, e)))
  {
    if e.Insert? {
      InsertOpens(s, h, e.id, e.row);
    } else if e.SendTopup? && Credits(e.outcome) {
      CreditPays(s, h, e.req, e.outcome);
    } else {
      SameAccounts(s, Act(s, h, e));
    }
  }

  /** Every step of the system is a step of the specification, or invisible to it. */
  lemma StepRefines(s: State, l: Label, s': State)
    requires Safe(s) && Step(s, l, s', true)
    ensures AccountsStep(Abstract(s), Abstract(s'))
  {
    match l
    case Start(h, pc) =>
      SameAccounts(s, s');
    case Move(h, a) =>
      var pc := s.handlers[h];
      var t := Next(s, pc, a, true);
      assert PcOk(s, pc);
      TurnFits(s, pc, a, true);
      TurnSafe(s, h, pc, a);
      EffectRefines(s, h, pc, t.effect);
      SameAccounts(Act(s, h, t.effect), s');
  }

  lemma RunStepRefines(states: seq<State>, labels: seq<Label>, i: nat)
    requires Run(states, labels, true) && i < |labels|
    ensures AccountsStep(Abstract(states[i]), Abstract(states[i + 1]))
  {
    AlwaysSafe(states, labels, i);
    StepRefines(states[i], labels[i], states[i + 1]);
  }

  /** Every run of the system, seen through its accounts, is a run of the specification. */
  lemma RunRefines(states: seq<State>, labels: seq<Label>)
    requires Run(states, labels, true)
    ensures AccountsRun(seq(|states|, i requires 0 <= i < |states| => Abstract(states[i])))
  {
    var accounts := seq(|states|, i requires 0 <= i < |states| => Abstract(states[i]));
    assert accounts[0] == Accounts(map[], {}, 0);
    forall i | 0 <= i < |accounts| - 1
      ensures AccountsStep(accounts[i], accounts[i + 1])
    {
      RunStepRefines(states, labels, i);
    }
  }

  // ---------- Money conservation ----------

  ghost function SumDue(due: map<nat, int>, ids: set<nat>): int
    requires ids <= due.Keys
  {
    if ids == {} then 0
    else
      var id :| id in ids;
      due[id] + SumDue(due, ids - {id})
  }

  lemma {:induction false} SumDueAdd(due: map<nat, int>, ids: set<nat>, id: nat)
    requires ids <= due.Keys && id in ids
    ensures SumDue(due, ids) == due[id] + SumDue(due, ids - {id})
  {
    var first :| first in ids && SumDue(due, ids) == due[first] + SumDue(due, ids - {first});
    if first != id {
      SumDueAdd(due, ids - {first}, id);
      SumDueAdd(due, ids - {id}, first);
      assert ids - {first} - {id} == ids - {id} - {first};
    }
  }

  lemma {:induction false} SumDueSame(due: map<nat, int>, due': map<nat, int>, ids: set<nat>)
    requires ids <= due.Keys && ids <= due'.Keys
    requires forall id | id in ids :: due[id] == due'[id]
    ensures SumDue(due, ids) == SumDue(due', ids)
  {
    if ids != {} {
      var id :| id in ids;
      SumDueAdd(due, ids, id);
      SumDueAdd(due', ids, id);
      SumDueSame(due, due', ids - {id});
    }
  }

  ghost predicate Balanced(a: Accounts) {
    a.paid <= a.due.Keys && a.total == SumDue(a.due, a.paid)
  }

  lemma AccountsStepBalanced(a: Accounts, a': Accounts)
    requires Balanced(a) && AccountsStep(a, a')
    ensures Balanced(a')
  {
    if a' != a {
      if id :| Opens(a, a', id) {
        SumDueSame(a.due, a'.due, a.paid);
      } else {
        var id :| Pays(a, a', id);
        SumDueAdd(a'.due, a'.paid, id);
        assert a'.paid - {id} == a.paid;
      }
    }
  }

  lemma {:induction false} AccountsBalanced(accounts: seq<Accounts>, i: nat)
    requires AccountsRun(accounts) && i < |accounts|
    ensures Balanced(accounts[i])
  {
    if i > 0 {
      AccountsBalanced(accounts, i - 1);
      AccountsStepBalanced(accounts[i - 1], accounts[i]);
    }
  }

  /**
   * At every moment the ledger holds at most one entry per payment, each for the amount fixed at
   * creation, and the money credited is the sum of those amounts over the credited payments.
   */
  lemma OneShotCredit(states: seq<State>, labels: seq<Label>, i: nat)
    requires Run(states, labels, true) && i < |states|
    ensures var s := states[i];
            && (forall j, k | 0 <= j < |s.ledger| && 0 <= k < |s.ledger| && s.ledger[j].key == s.ledger[k].key :: j == k)
            && (forall k | 0 <= k < |s.ledger| ::
                  exists id :: id in s.rows && s.rows[id].terms.key == s.ledger[k].key
                               && CreditAmount(s.rows[id].terms) == s.ledger[k].amount)
            && CreditedIds(s) <= s.rows.Keys
            && LedgerTotal(s.ledger) == SumDue(map id | id in s.rows :: CreditAmount(s.rows[id].terms), CreditedIds(s))
  {
    AlwaysSafe(states, labels, i);
    RunRefines(states, labels);
    var accounts := seq(|states|, n requires 0 <= n < |states| => Abstract(states[n]));
    AccountsBalanced(accounts, i);
    var s := states[i];
    forall k | 0 <= k < |s.ledger|
      ensures exists id :: id in s.rows && s.rows[id].terms.key == s.ledger[k].key
                           && CreditAmount(s.rows[id].terms) == s.ledger[k].amount
    {
      assert EntryOk(s, s.ledger[k]);
      var id :| EntryFor(s, s.ledger[k], id);
    }
  }
}
