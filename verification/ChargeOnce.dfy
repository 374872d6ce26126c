/**
 * Handlers taken one at a time, with every provider reply to a charge recorded: a payment receives a second answered
 * charge only after a reply recorded for it carried a status the mapping does not know.
 */
module ChargeOnce {
  import opened Prelude
  import opened Payments
  import opened PaymentMachine
  import opened PaymentTable

  // ---------- What is assumed of a run ----------

  ghost predicate Idle(s: State) {
    forall g | g in s.handlers :: s.handlers[g] == Done
  }

  /** A request starts when no other is running, and the reply to a charge gets recorded. */
  ghost predicate Orderly(s: State, l: Label) {
    match l
    case Start(_, _) => Idle(s)
    case Move(h, a) => h in s.handlers && s.handlers[h].InProcess? && s.handlers[h].p.PRecord? ==> a != Throws
  }

  ghost predicate OrderlyRun(states: seq<State>, labels: seq<Label>, dedup: bool) {
    && Run(states, labels, dedup)
    && forall i {:trigger labels[i]} | 0 <= i < |labels| :: Orderly(states[i], labels[i])
  }

  /** The handler is about to write a reply about `id` whose status maps to PENDING. */
  ghost predicate WritesUnknown(pc: Pc, id: nat) {
    match pc
    case InProcess(p) => p.PRecord? && p.id == id && MapClipStatus(p.reply.status) == Pending
    case InVerify(v) => v.VRecord? && v.id == id && MapClipStatus(v.reply.status) == Pending
    case InWebhook(w) => w.WMergeWrite? && w.job.Confirm? && w.d.snap.id == id && MapClipStatus(w.d.reply.status) == Pending
    case _ => false
  }

  /** The step records a reply about `id` whose status maps to PENDING. */
  ghost predicate Reopens(s: State, l: Label, id: nat) {
    l.Move? && l.h in s.handlers && (l.a == Returns || l.a == ThrowsAfter) && WritesUnknown(s.handlers[l.h], id)
  }

  ghost predicate NotReopened(states: seq<State>, labels: seq<Label>, i: nat, id: nat)
    requires i <= |labels| && i <= |states|
  {
    forall j {:trigger labels[j]} | 0 <= j < i :: !Reopens(states[j], labels[j], id)
  }

  // ---------- One handler at a time ----------

  ghost predicate OneRunning(s: State) {
    forall g, h | g in s.handlers && h in s.handlers && s.handlers[g] != Done && s.handlers[h] != Done :: g == h
  }

  /** A webhook's first merge writes the status its provider reply maps to. */
  ghost predicate JobFits(pc: Pc) {
    pc.InWebhook? && (pc.w.WMergeRead? || pc.w.WMergeWrite?) && pc.w.job.Confirm? ==>
      pc.w.job.status == MapClipStatus(pc.w.d.reply.status)
  }

  ghost predicate OrderInv(s: State) {
    OneRunning(s) && forall h | h in s.handlers :: JobFits(s.handlers[h])
  }

  lemma WebhookJobFits(s: State, w: WebhookPc, a: Answer, dedup: bool)
    requires JobFits(InWebhook(w)) && NextWebhook(s, w, a, dedup).Turn?
    ensures JobFits(NextWebhook(s, w, a, dedup).pc)
  {
  }

  lemma NextJobFits(s: State, pc: Pc, a: Answer, dedup: bool)
    requires JobFits(pc) && Next(s, pc, a, dedup).Turn?
    ensures JobFits(Next(s, pc, a, dedup).pc)
  {
    TurnFits(s, pc, a, dedup);
    if pc.InWebhook? && a != Throws {
      WebhookJobFits(s, pc.w, a, dedup);
    }
  }

  lemma OrderTake(s: State, h: nat, t: Turn)
    requires OrderInv(s) && h in s.handlers && s.handlers[h] != Done && t.Turn? && JobFits(t.pc)
    ensures OrderInv(Take(s, h, t))
  {
    assert Act(s, h, t.effect).handlers == s.handlers;
  }

  lemma OrderStep(s: State, l: Label, s': State, dedup: bool)
    requires OrderInv(s) && Step(s, l, s', dedup) && Orderly(s, l)
    ensures OrderInv(s')
  {
    if l.Move? {
      NextJobFits(s, s.handlers[l.h], l.a, dedup);
      OrderTake(s, l.h, Next(s, s.handlers[l.h], l.a, dedup));
    }
  }

  lemma {:induction false} OrderAlways(states: seq<State>, labels: seq<Label>, dedup: bool, i: nat)
    requires OrderlyRun(states, labels, dedup) && i < |states|
    ensures OrderInv(states[i])
  {
    if i > 0 {
      OrderAlways(states, labels, dedup, i - 1);
      OrderStep(states[i - 1], labels[i - 1], states[i], dedup);
    }
  }

  // ---------- What holds of one payment after `r` reopenings ----------

  ghost predicate PcSolo(s: State, pc: Pc, id: nat, r: nat) {
    pc.InProcess? && pc.p.id == id && !pc.p.PRead? ==>
      id in s.rows && (pc.p.PSubmit? || pc.p.PCharge? ==> s.log.charges[id] <= r)
  }

  /** The reply to a charge of `id` has been received and is about to be written. */
  ghost predicate Recording(pc: Pc, id: nat) {
    pc.InProcess? && pc.p.PRecord? && pc.p.id == id
  }

  ghost predicate Settled(s: State, id: nat, r: nat) {
    && s.log.charges[id] <= r + 1
    && (s.log.charges[id] == r + 1 ==>
          && id in s.rows
          && (s.rows[id].status != Pending || exists h :: h in s.handlers && Recording(s.handlers[h], id)))
  }

  ghost predicate SoloInv(s: State, id: nat, r: nat) {
    Settled(s, id, r) && forall h | h in s.handlers :: PcSolo(s, s.handlers[h], id, r)
  }

  /** What a turn that does not reopen `id` does to it. */
  ghost predicate SoloTurn(s: State, pc: Pc, t: Turn, id: nat) {
    t.Turn? ==>
      && (t.effect.Update? && t.effect.id == id && t.effect.row.status == Pending ==>
            (pc.InProcess? && pc.p.PSubmit? && pc.p.id == id) || (id in s.rows && s.rows[id].status == Pending && !Recording(pc, id)))
      && (t.effect.Update? && Recording(pc, id) ==> t.effect.id == id && t.effect.row.status != Pending)
      && (t.effect.AnswerCharge? ==> pc.InProcess? && pc.p.PCharge? && t.effect.charge.id == pc.p.id && Recording(t.pc, pc.p.id))
  }

  lemma WebhookSolo(s: State, w: WebhookPc, a: Answer, dedup: bool, id: nat)
    requires JobFits(InWebhook(w)) && !WritesUnknown(InWebhook(w), id)
    ensures SoloTurn(s, InWebhook(w), NextWebhook(s, w, a, dedup), id)
  {
  }

  lemma CallbackSolo(s: State, b: CallbackPc, a: Answer, dedup: bool, id: nat)
    ensures SoloTurn(s, InCallback(b), NextCallback(s, b, a, dedup), id)
  {
  }

  lemma QrSolo(s: State, q: QrPc, a: Answer, id: nat)
    ensures SoloTurn(s, InQr(q), NextQr(s, q, a), id)
  {
  }

  lemma ProcessSolo(s: State, p: ProcessPc, a: Answer, id: nat)
    requires !WritesUnknown(InProcess(p), id)
    ensures SoloTurn(s, InProcess(p), NextProcess(s, p, a), id)
  {
  }

  lemma ProcessKnows(s: State, h: nat, p: ProcessPc, a: Answer, id: nat, r: nat)
    requires PcSolo(s, InProcess(p), id, r) && NextProcess(s, p, a).Turn?
    requires Settled(s, id, r) && (p.PRead? ==> forall g | g in s.handlers :: !Recording(s.handlers[g], id))
    ensures PcSolo(Act(s, h, NextProcess(s, p, a).effect), NextProcess(s, p, a).pc, id, r)
  {
  }

  lemma VerifySolo(s: State, v: VerifyPc, a: Answer, id: nat)
    requires !WritesUnknown(InVerify(v), id)
    ensures SoloTurn(s, InVerify(v), NextVerify(s, v, a), id)
  {
  }

  /** Only an answered write reopens. */
  lemma UpdateCommits(s: State, pc: Pc, a: Answer, dedup: bool, id: nat)
    requires WritesUnknown(pc, id) && a != Returns && a != ThrowsAfter && Next(s, pc, a, dedup).Turn?
    ensures Next(s, pc, a, dedup).effect == NoEffect
  {
  }

  lemma NextSolo(s: State, h: nat, a: Answer, dedup: bool, id: nat)
    requires OrderInv(s) && h in s.handlers && !Reopens(s, Move(h, a), id) && Next(s, s.handlers[h], a, dedup).Turn?
    ensures SoloTurn(s, s.handlers[h], Next(s, s.handlers[h], a, dedup), id)
  {
    var pc := s.handlers[h];
    assert JobFits(pc);
    if WritesUnknown(pc, id) {
      UpdateCommits(s, pc, a, dedup, id);
    } else if a != Throws {
      match pc
      case InProcess(p) => ProcessSolo(s, p, a, id);
      case InVerify(v) => VerifySolo(s, v, a, id);
      case InWebhook(w) => WebhookSolo(s, w, a, dedup, id);
      case InQr(q) => QrSolo(s, q, a, id);
      case InCallback(b) => CallbackSolo(s, b, a, dedup, id);
      case _ =>
    }
  }

  lemma NextKnows(s: State, h: nat, a: Answer, dedup: bool, id: nat, r: nat)
    requires OneRunning(s) && SoloInv(s, id, r) && h in s.handlers && Next(s, s.handlers[h], a, dedup).Turn?
    ensures var t := Next(s, s.handlers[h], a, dedup); PcSolo(Act(s, h, t.effect), t.pc, id, r)
  {
    var pc := s.handlers[h];
    TurnFits(s, pc, a, dedup);
    if a != Throws && pc.InProcess? {
      assert PcSolo(s, pc, id, r);
      ProcessKnows(s, h, pc.p, a, id, r);
    }
  }

  // ---------- Every step ----------

  lemma SettledTake(s: State, h: nat, t: Turn, id: nat, r: nat)
    requires OneRunning(s) && SoloInv(s, id, r) && h in s.handlers && s.handlers[h] != Done && t.Turn?
    requires Fits(s, s.handlers[h], t.effect) && SoloTurn(s, s.handlers[h], t, id)
    requires Recording(s.handlers[h], id) ==> t.effect.Update?
    ensures Settled(Take(s, h, t), id, r)
  {
    var pc, s' := s.handlers[h], Take(s, h, t);
    assert PcSolo(s, pc, id, r);
    if s'.log.charges[id] == r + 1 {
      if t.effect.AnswerCharge? && t.effect.charge.id == id {
        assert Recording(s'.handlers[h], id);
      } else if s.rows[id].status == Pending {
        var g :| g in s.handlers && Recording(s.handlers[g], id);
        assert g == h;
      }
    }
  }

  lemma PcsTake(s: State, h: nat, t: Turn, id: nat, r: nat)
    requires OneRunning(s) && h in s.handlers && s.handlers[h] != Done && t.Turn? && PcSolo(Act(s, h, t.effect), t.pc, id, r)
    ensures forall g | g in Take(s, h, t).handlers :: PcSolo(Take(s, h, t), Take(s, h, t).handlers[g], id, r)
  {
    var s' := Take(s, h, t);
    forall g | g in s'.handlers
      ensures PcSolo(s', s'.handlers[g], id, r)
    {
      assert g == h || s.handlers[g] == Done;
    }
  }

  lemma SoloStart(s: State, h: nat, pc: Pc, id: nat, r: nat)
    requires SoloInv(s, id, r) && h !in s.handlers && IsStart(pc) && Idle(s)
    ensures SoloInv(Begin(s, h, pc), id, r)
  {
  }

  lemma RecordingWrites(s: State, pc: Pc, a: Answer, dedup: bool, id: nat)
    requires Recording(pc, id) && a != Throws && Next(s, pc, a, dedup).Turn?
    ensures Next(s, pc, a, dedup).effect.Update?
  {
  }

  lemma SoloStep(s: State, l: Label, s': State, dedup: bool, id: nat, r: nat)
    requires OrderInv(s) && SoloInv(s, id, r) && Step(s, l, s', dedup) && Orderly(s, l) && !Reopens(s, l, id)
    ensures SoloInv(s', id, r)
  {
    match l
    case Start(h, pc) => SoloStart(s, h, pc, id, r);
    case Move(h, a) =>
      var pc := s.handlers[h];
      var t := Next(s, pc, a, dedup);
      TurnFits(s, pc, a, dedup);
      NextSolo(s, h, a, dedup, id);
      NextKnows(s, h, a, dedup, id, r);
      if Recording(pc, id) {
        RecordingWrites(s, pc, a, dedup, id);
      }
      SettledTake(s, h, t, id, r);
      PcsTake(s, h, t, id, r);
  }

  /** The reopening write makes no charge, so it only raises the bound. */
  lemma ReopenWrites(s: State, pc: Pc, a: Answer, dedup: bool, id: nat)
    requires WritesUnknown(pc, id) && Next(s, pc, a, dedup).Turn?
    ensures !Next(s, pc, a, dedup).effect.AnswerCharge? && !Next(s, pc, a, dedup).pc.InProcess?
  {
  }

  lemma ReopenStep(s: State, l: Label, s': State, dedup: bool, id: nat, r: nat)
    requires OrderInv(s) && SoloInv(s, id, r) && Step(s, l, s', dedup) && Reopens(s, l, id)
    ensures SoloInv(s', id, r + 1)
  {
    var t := Next(s, s.handlers[l.h], l.a, dedup);
    ReopenWrites(s, s.handlers[l.h], l.a, dedup, id);
    TurnFits(s, s.handlers[l.h], l.a, dedup);
    PcsTake(s, l.h, t, id, r + 1);
  }

  // ---------- Theorems ----------

  /** How often a reply of `id` that maps to PENDING was recorded in the first `i` steps. */
  ghost function Reopenings(states: seq<State>, labels: seq<Label>, i: nat, id: nat): nat
    requires i <= |labels| && i <= |states|
  {
    if i == 0 then 0
    else Reopenings(states, labels, i - 1, id) + if Reopens(states[i - 1], labels[i - 1], id) then 1 else 0
  }

  lemma SoloNext(states: seq<State>, labels: seq<Label>, dedup: bool, i: nat, id: nat, r: nat)
    requires OrderlyRun(states, labels, dedup) && i < |labels| && SoloInv(states[i], id, r)
    ensures SoloInv(states[i + 1], id, if Reopens(states[i], labels[i], id) then r + 1 else r)
  {
    OrderAlways(states, labels, dedup, i);
    if Reopens(states[i], labels[i], id) {
      ReopenStep(states[i], labels[i], states[i + 1], dedup, id, r);
    } else {
      SoloStep(states[i], labels[i], states[i + 1], dedup, id, r);
    }
  }

  ghost predicate SoloAt(states: seq<State>, labels: seq<Label>, i: nat, id: nat)
    requires i <= |labels| && i < |states|
  {
    SoloInv(states[i], id, Reopenings(states, labels, i, id))
  }

  lemma {:induction false} SoloInduction(states: seq<State>, labels: seq<Label>, i: nat, id: nat)
    requires i <= |labels| && i < |states| && SoloAt(states, labels, 0, id)
    requires forall k | 0 <= k < i && SoloAt(states, labels, k, id) :: SoloAt(states, labels, k + 1, id)
    ensures SoloAt(states, labels, i, id)
  {
    if i > 0 {
      SoloInduction(states, labels, i - 1, id);
    }
  }

  lemma SoloAlways(states: seq<State>, labels: seq<Label>, dedup: bool, i: nat, id: nat)
    requires OrderlyRun(states, labels, dedup) && i < |states|
    ensures SoloAt(states, labels, i, id)
  {
    forall k | 0 <= k < i && SoloAt(states, labels, k, id)
      ensures SoloAt(states, labels, k + 1, id)
    {
      SoloNext(states, labels, dedup, k, id, Reopenings(states, labels, k, id));
    }
    SoloInduction(states, labels, i, id);
  }

  /** In every orderly run a payment has at most one answered charge more than it was reopened. */
  lemma ChargesBounded(states: seq<State>, labels: seq<Label>, dedup: bool, i: nat, id: nat)
    requires OrderlyRun(states, labels, dedup) && i < |states|
    ensures states[i].log.charges[id] <= 1 + Reopenings(states, labels, i, id)
  {
    SoloAlways(states, labels, dedup, i, id);
  }

  lemma {:induction false} NoReopenings(states: seq<State>, labels: seq<Label>, i: nat, id: nat)
    requires i <= |labels| && i <= |states|
    ensures NotReopened(states, labels, i, id) <==> Reopenings(states, labels, i, id) == 0
  {
    if i > 0 {
      NoReopenings(states, labels, i - 1, id);
      assert labels[i - 1] == labels[i - 1];
    }
  }

  /** Until a reply recorded for it maps to PENDING, a payment has at most one answered charge. */
  lemma AtMostOneAnsweredCharge(states: seq<State>, labels: seq<Label>, dedup: bool, i: nat, id: nat)
    requires OrderlyRun(states, labels, dedup) && i < |states| && NotReopened(states, labels, i, id)
    ensures states[i].log.charges[id] <= 1
  {
    NoReopenings(states, labels, i, id);
    ChargesBounded(states, labels, dedup, i, id);
  }

  /** A second answered charge of a payment follows a recorded reply of that payment that maps to PENDING. */
  lemma SecondChargeNeedsReopening(states: seq<State>, labels: seq<Label>, dedup: bool, i: nat, id: nat) returns (j: nat)
    requires OrderlyRun(states, labels, dedup) && i < |states| && states[i].log.charges[id] >= 2
    ensures j < i && Reopens(states[j], labels[j], id)
  {
    if NotReopened(states, labels, i, id) {
      AtMostOneAnsweredCharge(states, labels, dedup, i, id);
    }
    j :| 0 <= j < i && Reopens(states[j], labels[j], id);
  }

  /** Once every reopening has been used up and the request is over, the payment is out of PENDING, so processPayment refuses it. */
  lemma ProcessRefusedAfterCharge(states: seq<State>, labels: seq<Label>, dedup: bool, i: nat, id: nat, h: nat)
    requires OrderlyRun(states, labels, dedup) && i < |labels| && states[i].log.charges[id] > Reopenings(states, labels, i, id)
    requires h in states[i].handlers && states[i].handlers[h] == InProcess(PRead(id)) && labels[i] == Move(h, Returns)
    ensures id in states[i].rows && states[i].rows[id].status != Pending
    ensures states[i + 1].handlers[h] == Done && states[i + 1].rows == states[i].rows
  {
    OrderAlways(states, labels, dedup, i);
    SoloAlways(states, labels, dedup, i, id);
  }

  /** With more answered charges than reopenings, a payment is in PENDING only while the answer is still being written. */
  lemma NeverPendingAgain(states: seq<State>, labels: seq<Label>, dedup: bool, i: nat, id: nat)
    requires OrderlyRun(states, labels, dedup) && i < |states| && states[i].log.charges[id] > Reopenings(states, labels, i, id)
    requires forall h | h in states[i].handlers :: !Recording(states[i].handlers[h], id)
    ensures id in states[i].rows && states[i].rows[id].status != Pending
  {
    SoloAlways(states, labels, dedup, i, id);
  }

  /** A status the mapping does not know. */
  lemma RefundedIsUnknown()
    ensures MapClipStatus(Some("refunded")) == Pending
  {
    assert Lower("refunded") == "refunded";
  }
}
