/**
 * A SIP payment that is COMPLETED but was never credited: which callback steps leave one behind, and that none
 * of them is ever made good, because a later callback ends at the COMPLETED check.
 */
module Stranded {
  import opened Prelude
  import opened Payments
  import opened PaymentMachine
  import opened PaymentTable
  import opened PaymentSafety
  import opened CallbackRuns

  /** Between completing the row and the ledger's answer. */
  ghost predicate WorksFor(pc: Pc, id: nat) {
    pc.InCallback? && (pc.b.BTxnFind? || pc.b.BTxnCreate? || pc.b.BRefetch? || pc.b.BTopup?) && pc.b.id == id
  }

  ghost predicate NoWorker(s: State, id: nat) {
    forall h | h in s.handlers :: !WorksFor(s.handlers[h], id)
  }

  /** COMPLETED without a credit, and no callback is on its way to the ledger. */
  ghost predicate IsStranded(s: State, id: nat) {
    SipCompleted(s, id) && !LedgerHas(s.ledger, s.rows[id].terms.key) && NoWorker(s, id)
  }

  /**
   * The answers that end a callback after it completed row `id` and before a credit: the completion write or the
   * transaction lookup or insert rejects, the refetch rejects or finds no wallet, or the ledger does not credit.
   */
  ghost predicate Abandons(s: State, pc: Pc, a: Answer, id: nat) {
    pc.InCallback? &&
    match pc.b
    case BCompleteWrite(i, _, _, _) => i == id && a == ThrowsAfter
    case BTxnFind(i, _, _) => i == id && a == Throws
    case BTxnCreate(i, _, _) => i == id && (a == Throws || a == ThrowsAfter)
    case BRefetch(i, _, _) =>
      i == id && (a == Throws || (a.Found? && a.id in s.rows && BuildTopupRequest(s.rows[a.id].terms, a.links).None?))
    case BTopup(i, _, _, _) => i == id && a.Ledger? && !Credits(a.outcome)
    case _ => false
  }

  ghost predicate AbandonStep(s: State, l: Label, id: nat) {
    l.Move? && l.h in s.handlers && Abandons(s, s.handlers[l.h], l.a, id)
  }

  // ---------- Every credit was sent ----------

  ghost predicate LedgerSent(s: State) {
    forall k | 0 <= k < |s.ledger| :: s.ledger[k].key in s.log.topups
  }

  lemma ActSent(s: State, h: nat, e: Effect)
    requires LedgerSent(s)
    ensures LedgerSent(Act(s, h, e))
  {
  }

  lemma SentStep(s: State, l: Label, s': State, dedup: bool)
    requires LedgerSent(s) && Step(s, l, s', dedup)
    ensures LedgerSent(s')
  {
    if l.Move? {
      ActSent(s, l.h, Next(s, s.handlers[l.h], l.a, dedup).effect);
    }
  }

  ghost predicate StrandInv(s: State) {
    Safe(s) && SeqInv(s) && LedgerSent(s)
  }

  lemma {:induction false} SentAlways(states: seq<State>, labels: seq<Label>, dedup: bool, i: nat)
    requires Run(states, labels, dedup) && i < |states|
    ensures LedgerSent(states[i])
  {
    if i > 0 {
      SentAlways(states, labels, dedup, i - 1);
      SentStep(states[i - 1], labels[i - 1], states[i], dedup);
    }
  }

  lemma StrandAlways(states: seq<State>, labels: seq<Label>, i: nat)
    requires SequentialRun(states, labels) && i < |states|
    ensures StrandInv(states[i])
  {
    SeqAlways(states, labels, i);
    SentAlways(states, labels, true, i);
  }

  // ---------- One turn of the row's own callback ----------

  ghost predicate SamePayment(b: CallbackPc, id: nat) {
    b.BFind? || b.BNotices? || b.id == id
  }

  lemma AliasIsRow(s: State, b: CallbackPc, id: nat)
    requires UniqueAliases(s) && CallbackKnows(s, b) && IsSip(s, id, b.cb.alias)
    ensures SamePayment(b, id)
  {
    if !b.BFind? && !b.BNotices? {
      assert SameAlias(s, b.id, id);
    }
  }

  /** Work on a row begins with completing it, reaches the ledger, and ends credited or abandoned. */
  ghost predicate WorkTurn(s: State, s1: State, pc: Pc, a: Answer, pc': Pc, id: nat)
    requires id in s.rows
  {
    var key := s.rows[id].terms.key;
    && (WorksFor(pc', id) ==> WorksFor(pc, id) || s.rows[id].status != Completed)
    && (LedgerHas(s1.ledger, key) ==> LedgerHas(s.ledger, key) || WorksFor(pc, id))
    && (WorksFor(pc, id) && !WorksFor(pc', id) && !Abandons(s, pc, a, id) ==> LedgerHas(s1.ledger, key))
    && (SipCompleted(s1, id) && !SipCompleted(s, id) ==> WorksFor(pc', id) || Abandons(s, pc, a, id) || LedgerHas(s.ledger, key))
  }

  lemma OwnWork(s: State, h: nat, b: CallbackPc, a: Answer, id: nat)
    requires UniqueAliases(s) && CallbackOk(s, b) && CallbackKnows(s, b) && IsSip(s, id, b.cb.alias) && SamePayment(b, id)
    requires NextCallback(s, b, a, true).Turn?
    ensures var t := NextCallback(s, b, a, true); WorkTurn(s, Act(s, h, t.effect), InCallback(b), a, t.pc, id)
  {
    if b.BTopup? && Credits(a.outcome) {
      LedgerAppend(s.ledger, b.req, s.rows[id].terms.key);
    }
    if b.BRefetch? && a.Found? && IsSip(s, a.id, b.cb.alias) {
      assert SameAlias(s, a.id, id);
    }
  }

  lemma OwnThrow(s: State, h: nat, pc: Pc, id: nat)
    requires pc.InCallback? && CallbackKnows(s, pc.b) && id in s.rows && Rejecting(pc).Turn?
    ensures WorkTurn(s, Act(s, h, Rejecting(pc).effect), pc, Throws, Rejecting(pc).pc, id)
  {
  }

  /** An abandoning turn leaves the completed row without a credit. */
  lemma AbandonTurn(s: State, h: nat, pc: Pc, a: Answer, id: nat)
    requires PcOk(s, pc) && pc.InCallback? && CallbackKnows(s, pc.b) && UniqueAliases(s) && LedgerSent(s)
    requires Abandons(s, pc, a, id) && Next(s, pc, a, true).Turn?
    ensures var t := Next(s, pc, a, true);
            t.pc == Done && SipCompleted(Act(s, h, t.effect), id) && !LedgerHas(Act(s, h, t.effect).ledger, s.rows[id].terms.key)
    ensures id in s.rows && s.rows[id].terms.orderId == Some(pc.b.cb.alias)
  {
  }

  // ---------- Every step ----------

  /** What a move that is not the row's own callback leaves alone. */
  lemma ForeignMove(s: State, h: nat, a: Answer, id: nat)
    requires StrandInv(s) && h in s.handlers && OneAtATime(s, Move(h, a)) && Next(s, s.handlers[h], a, true).Turn? && OnSipRow(s, id)
    requires !(s.rows[id].terms.orderId.Some? && LiveFor(s, h, s.rows[id].terms.orderId.value))
    ensures var t := Next(s, s.handlers[h], a, true);
            var s1 := Act(s, h, t.effect);
            && Untouched(s, s1, id) && !WorksFor(t.pc, id) && !WorksFor(s.handlers[h], id)
            && (LedgerHas(s1.ledger, s.rows[id].terms.key) <==> LedgerHas(s.ledger, s.rows[id].terms.key))
  {
    var pc := s.handlers[h];
    var t := Next(s, pc, a, true);
    RowTouched(s, h, a, id);
    ForeignLedger(s, h, t.effect, id);
    TurnFits(s, pc, a, true);
    OwnKnows(s, h, a);
    if pc.InCallback? {
      assert CallbackKnows(s, pc.b);
      if a != Throws && t.pc.InCallback? {
        CallbackKeepsAlias(s, pc.b, a);
        ForeignWork(Act(s, h, t.effect), t.pc.b, id);
      }
    }
  }

  lemma ForeignWork(s: State, b: CallbackPc, id: nat)
    requires CallbackKnows(s, b) && OnSipRow(s, id) && s.rows[id].terms.orderId != Some(b.cb.alias)
    ensures !WorksFor(InCallback(b), id)
  {
  }

  lemma ForeignLedger(s: State, h: nat, e: Effect, id: nat)
    requires Untouched(s, Act(s, h, e), id)
    ensures LedgerHas(Act(s, h, e).ledger, s.rows[id].terms.key) <==> LedgerHas(s.ledger, s.rows[id].terms.key)
  {
    if e.SendTopup? {
      assert e.req.key != s.rows[id].terms.key by {
        assert Act(s, h, e).log.topups == s.log.topups + multiset{e.req.key};
      }
      if Credits(e.outcome) {
        LedgerAppend(s.ledger, e.req, s.rows[id].terms.key);
      }
    }
  }

  lemma WorkersAfter(s: State, h: nat, t: Turn, id: nat)
    requires h in s.handlers && t.Turn?
    ensures NoWorker(Take(s, h, t), id) <==> !WorksFor(t.pc, id) && forall g | g in s.handlers && g != h :: !WorksFor(s.handlers[g], id)
  {
    var s' := Take(s, h, t);
    assert s'.handlers == s.handlers[h := t.pc] && s'.handlers[h] == t.pc;
    if NoWorker(s', id) {
      forall g | g in s.handlers && g != h
        ensures !WorksFor(s.handlers[g], id)
      {
        assert s'.handlers[g] == s.handlers[g];
      }
    }
    if !WorksFor(t.pc, id) && forall g | g in s.handlers && g != h :: !WorksFor(s.handlers[g], id) {
      forall g | g in s'.handlers
        ensures !WorksFor(s'.handlers[g], id)
      {
        assert g == h || s'.handlers[g] == s.handlers[g];
      }
    }
  }

  lemma OwnMove(s: State, h: nat, a: Answer, id: nat)
    requires StrandInv(s) && h in s.handlers && Next(s, s.handlers[h], a, true).Turn? && OnSipRow(s, id)
    requires s.rows[id].terms.orderId.Some? && LiveFor(s, h, s.rows[id].terms.orderId.value)
    ensures var t := Next(s, s.handlers[h], a, true); WorkTurn(s, Act(s, h, t.effect), s.handlers[h], a, t.pc, id)
  {
    var pc := s.handlers[h];
    assert PcOk(s, pc) && CallbackKnows(s, pc.b);
    AliasIsRow(s, pc.b, id);
    if a != Throws {
      OwnWork(s, h, pc.b, a, id);
    } else {
      OwnThrow(s, h, pc, id);
    }
  }

  lemma NobodyElse(s: State, h: nat, id: nat)
    requires SeqInv(s) && h in s.handlers && id in s.rows && s.rows[id].terms.orderId.Some? && LiveFor(s, h, s.rows[id].terms.orderId.value)
    ensures forall g | g in s.handlers && g != h :: !WorksFor(s.handlers[g], id)
  {
    forall g | g in s.handlers && g != h
      ensures !WorksFor(s.handlers[g], id)
    {
      if WorksFor(s.handlers[g], id) {
        assert CallbackKnows(s, s.handlers[g].b);
        assert LiveFor(s, g, s.rows[id].terms.orderId.value);
      }
    }
  }

  ghost predicate OwnTurnOf(s: State, h: nat, id: nat) {
    id in s.rows && s.rows[id].terms.orderId.Some? && LiveFor(s, h, s.rows[id].terms.orderId.value)
  }

  /** A stranded payment stays stranded. */
  lemma StrandedMove(s: State, h: nat, a: Answer, id: nat)
    requires StrandInv(s) && h in s.handlers && OneAtATime(s, Move(h, a)) && Next(s, s.handlers[h], a, true).Turn? && IsStranded(s, id)
    ensures IsStranded(Take(s, h, Next(s, s.handlers[h], a, true)), id)
  {
    var t := Next(s, s.handlers[h], a, true);
    WorkersAfter(s, h, t, id);
    StrandedTurn(s, h, a, id);
  }

  /** The turn adds no worker and no credit, whoever takes it. */
  lemma StrandedTurn(s: State, h: nat, a: Answer, id: nat)
    requires StrandInv(s) && h in s.handlers && OneAtATime(s, Move(h, a)) && Next(s, s.handlers[h], a, true).Turn? && IsStranded(s, id)
    ensures var t := Next(s, s.handlers[h], a, true);
            var s1 := Act(s, h, t.effect);
            SipCompleted(s1, id) && s1.rows[id].terms == s.rows[id].terms && !LedgerHas(s1.ledger, s.rows[id].terms.key) && !WorksFor(t.pc, id)
  {
    StrandedRow(s, h, a, id);
    assert !WorksFor(s.handlers[h], id);
    if OwnTurnOf(s, h, id) {
      OwnMove(s, h, a, id);
    } else {
      ForeignMove(s, h, a, id);
    }
  }

  lemma StrandedRow(s: State, h: nat, a: Answer, id: nat)
    requires StrandInv(s) && h in s.handlers && OneAtATime(s, Move(h, a)) && Next(s, s.handlers[h], a, true).Turn? && SipCompleted(s, id)
    ensures var s1 := Act(s, h, Next(s, s.handlers[h], a, true).effect); SipCompleted(s1, id) && s1.rows[id].terms == s.rows[id].terms
  {
    TurnFits(s, s.handlers[h], a, true);
    ActGrows(s, h, s.handlers[h], Next(s, s.handlers[h], a, true).effect);
    RowStays(s, h, a, id);
  }

  /** A payment becomes stranded only by an abandoning step of its own callback. */
  lemma StrandedOnlyBy(s: State, h: nat, a: Answer, id: nat)
    requires StrandInv(s) && h in s.handlers && OneAtATime(s, Move(h, a)) && Next(s, s.handlers[h], a, true).Turn? && !IsStranded(s, id)
    requires IsStranded(Take(s, h, Next(s, s.handlers[h], a, true)), id)
    ensures Abandons(s, s.handlers[h], a, id)
  {
    var t := Next(s, s.handlers[h], a, true);
    TurnFits(s, s.handlers[h], a, true);
    ActGrows(s, h, s.handlers[h], t.effect);
    WorkersAfter(s, h, t, id);
    assert id in s.rows;
    if OwnTurnOf(s, h, id) {
      OwnMove(s, h, a, id);
      NobodyElse(s, h, id);
    } else {
      ForeignMove(s, h, a, id);
    }
  }

  /** An abandoning step strands the payment. */
  lemma AbandonStrands(s: State, h: nat, a: Answer, id: nat)
    requires StrandInv(s) && h in s.handlers && Next(s, s.handlers[h], a, true).Turn? && Abandons(s, s.handlers[h], a, id)
    ensures IsStranded(Take(s, h, Next(s, s.handlers[h], a, true)), id)
  {
    var t := Next(s, s.handlers[h], a, true);
    assert PcOk(s, s.handlers[h]) && CallbackKnows(s, s.handlers[h].b);
    AbandonTurn(s, h, s.handlers[h], a, id);
    NobodyElse(s, h, id);
    WorkersAfter(s, h, t, id);
    TurnFits(s, s.handlers[h], a, true);
    ActGrows(s, h, s.handlers[h], t.effect);
  }

  lemma StartKeeps(s: State, h: nat, pc: Pc, id: nat)
    requires h !in s.handlers && IsStart(pc)
    ensures IsStranded(Begin(s, h, pc), id) <==> IsStranded(s, id)
  {
    var s' := Begin(s, h, pc);
    assert forall g | g in s.handlers :: s'.handlers[g] == s.handlers[g];
  }

  /** One step: stranded afterwards exactly when stranded before or abandoned now. */
  lemma StrandStep(s: State, l: Label, s': State, id: nat)
    requires StrandInv(s) && Step(s, l, s', true) && OneAtATime(s, l)
    ensures IsStranded(s', id) <==> IsStranded(s, id) || AbandonStep(s, l, id)
  {
    match l
    case Start(h, pc) => StartKeeps(s, h, pc, id);
    case Move(h, a) =>
      if IsStranded(s, id) {
        StrandedMove(s, h, a, id);
      } else if Abandons(s, s.handlers[h], a, id) {
        AbandonStrands(s, h, a, id);
      } else if IsStranded(s', id) {
        StrandedOnlyBy(s, h, a, id);
      }
  }

  // ---------- Every run ----------

  lemma RunStrandStep(states: seq<State>, labels: seq<Label>, i: nat, id: nat)
    requires SequentialRun(states, labels) && i < |labels|
    ensures IsStranded(states[i + 1], id) <==> IsStranded(states[i], id) || AbandonStep(states[i], labels[i], id)
  {
    StrandAlways(states, labels, i);
    StrandStep(states[i], labels[i], states[i + 1], id);
  }

  lemma {:induction false} Accumulates(states: seq<State>, labels: seq<Label>, i: nat, id: nat)
    requires i < |states| && i <= |labels| < |states| && !IsStranded(states[0], id)
    requires forall k | 0 <= k < |labels| :: IsStranded(states[k + 1], id) <==> IsStranded(states[k], id) || AbandonStep(states[k], labels[k], id)
    ensures IsStranded(states[i], id) <==> exists j | 0 <= j < i :: AbandonStep(states[j], labels[j], id)
  {
    if i > 0 {
      Accumulates(states, labels, i - 1, id);
      assert IsStranded(states[i - 1 + 1], id) <==> IsStranded(states[i - 1], id) || AbandonStep(states[i - 1], labels[i - 1], id);
    }
  }

  /**
   * In every sequential run, a COMPLETED SIP payment with no callback on its way to the ledger is credited if and
   * only if no step of the run so far abandoned it.
   */
  lemma CompletedIsCreditedUnlessAbandoned(states: seq<State>, labels: seq<Label>, i: nat, id: nat)
    requires SequentialRun(states, labels) && i < |states| && SipCompleted(states[i], id) && NoWorker(states[i], id)
    ensures LedgerHas(states[i].ledger, states[i].rows[id].terms.key) <==>
            !exists j | 0 <= j < i :: AbandonStep(states[j], labels[j], id)
  {
    forall k | 0 <= k < |labels|
      ensures IsStranded(states[k + 1], id) <==> IsStranded(states[k], id) || AbandonStep(states[k], labels[k], id)
    {
      RunStrandStep(states, labels, k, id);
    }
    Accumulates(states, labels, i, id);
  }

  lemma {:induction false} Lasts(states: seq<State>, labels: seq<Label>, i: nat, j: nat, id: nat)
    requires i <= j < |states| && j <= |labels| < |states| && IsStranded(states[i], id)
    requires forall k | 0 <= k < |labels| :: IsStranded(states[k + 1], id) <==> IsStranded(states[k], id) || AbandonStep(states[k], labels[k], id)
    ensures IsStranded(states[j], id)
    decreases j
  {
    if i < j {
      Lasts(states, labels, i, j - 1, id);
      var k := j - 1;
      assert IsStranded(states[k + 1], id);
    }
  }

  /** A stranded payment is never credited later: no callback retries the top-up. */
  lemma StrandedForever(states: seq<State>, labels: seq<Label>, i: nat, j: nat, id: nat)
    requires SequentialRun(states, labels) && i <= j < |states| && IsStranded(states[i], id)
    ensures IsStranded(states[j], id)
    ensures !LedgerHas(states[j].ledger, states[j].rows[id].terms.key)
  {
    forall k | 0 <= k < |labels|
      ensures IsStranded(states[k + 1], id) <==> IsStranded(states[k], id) || AbandonStep(states[k], labels[k], id)
    {
      RunStrandStep(states, labels, k, id);
    }
    Lasts(states, labels, i, j, id);
  }
}
