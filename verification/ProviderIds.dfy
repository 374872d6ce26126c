/** The unique index on provider payment ids: every write respects it, so in every run no two rows share an id. */
module ProviderIds {
  import opened Payments
  import opened PaymentMachine
  import opened PaymentTable

  ghost predicate IdsUnique(s: State) {
    forall id | id in s.rows :: ProviderIdFree(s, id, s.rows[id])
  }

  /** A turn writes a row only if no other row of that provider has its id. */
  ghost predicate Guarded(s: State, t: Turn) {
    t.Turn? && t.effect.Update? ==> ProviderIdFree(s, t.effect.id, t.effect.row)
  }

  lemma ProcessGuarded(s: State, p: ProcessPc, a: Answer)
    ensures Guarded(s, NextProcess(s, p, a))
  {
  }

  lemma VerifyGuarded(s: State, v: VerifyPc, a: Answer)
    ensures Guarded(s, NextVerify(s, v, a))
  {
  }

  lemma QrGuarded(s: State, q: QrPc, a: Answer)
    ensures Guarded(s, NextQr(s, q, a))
  {
  }

  lemma WebhookGuarded(s: State, w: WebhookPc, a: Answer, dedup: bool)
    ensures Guarded(s, NextWebhook(s, w, a, dedup))
  {
  }

  lemma CallbackGuarded(s: State, b: CallbackPc, a: Answer, dedup: bool)
    ensures Guarded(s, NextCallback(s, b, a, dedup))
  {
  }

  lemma NextGuarded(s: State, pc: Pc, a: Answer, dedup: bool)
    ensures Guarded(s, Next(s, pc, a, dedup))
  {
    if a != Throws {
      match pc
      case InProcess(p) => ProcessGuarded(s, p, a);
      case InVerify(v) => VerifyGuarded(s, v, a);
      case InWebhook(w) => WebhookGuarded(s, w, a, dedup);
      case InQr(q) => QrGuarded(s, q, a);
      case InCallback(b) => CallbackGuarded(s, b, a, dedup);
      case _ =>
    }
  }

  lemma ActKeepsIds(s: State, h: nat, pc: Pc, e: Effect)
    requires IdsUnique(s) && Fits(s, pc, e) && (e.Update? ==> ProviderIdFree(s, e.id, e.row))
    ensures IdsUnique(Act(s, h, e))
  {
    var s1 := Act(s, h, e);
    if e.Update? || e.Insert? {
      WriteKeepsIds(s, s1, e.id, e.row);
    } else {
      SameRowsKeepIds(s, s1);
    }
  }

  lemma WriteKeepsIds(s: State, s': State, id: nat, row: PaymentRow)
    requires IdsUnique(s) && ProviderIdFree(s, id, row) && s'.rows == s.rows[id := row]
    ensures IdsUnique(s')
  {
    forall i | i in s'.rows
      ensures ProviderIdFree(s', i, s'.rows[i])
    {
      assert i != id ==> ProviderIdFree(s, i, s.rows[i]);
    }
  }

  lemma SameRowsKeepIds(s: State, s': State)
    requires IdsUnique(s) && s'.rows == s.rows
    ensures IdsUnique(s')
  {
    forall i | i in s'.rows
      ensures ProviderIdFree(s', i, s'.rows[i])
    {
      assert ProviderIdFree(s, i, s.rows[i]);
    }
  }

  lemma IdsStep(s: State, l: Label, s': State, dedup: bool)
    requires IdsUnique(s) && Step(s, l, s', dedup)
    ensures IdsUnique(s')
  {
    match l
    case Start(_, _) => SameRowsKeepIds(s, s');
    case Move(h, a) =>
      var t := Next(s, s.handlers[h], a, dedup);
      TurnFits(s, s.handlers[h], a, dedup);
      NextGuarded(s, s.handlers[h], a, dedup);
      ActKeepsIds(s, h, s.handlers[h], t.effect);
      SameRowsKeepIds(Act(s, h, t.effect), s');
  }

  lemma {:induction false} IdsInduction(states: seq<State>, i: nat)
    requires i < |states| && IdsUnique(states[0])
    requires forall k | 0 <= k < i && IdsUnique(states[k]) :: IdsUnique(states[k + 1])
    ensures IdsUnique(states[i])
  {
    if i > 0 {
      IdsInduction(states, i - 1);
    }
  }

  lemma IdsNext(states: seq<State>, labels: seq<Label>, dedup: bool, k: nat)
    requires Run(states, labels, dedup) && k < |labels| && IdsUnique(states[k])
    ensures IdsUnique(states[k + 1])
  {
    IdsStep(states[k], labels[k], states[k + 1], dedup);
  }

  /** In every run, no two rows of one provider share a provider payment id. */
  lemma IdsAlways(states: seq<State>, labels: seq<Label>, dedup: bool, i: nat)
    requires Run(states, labels, dedup) && i < |states|
    ensures IdsUnique(states[i])
  {
    forall k | 0 <= k < i && IdsUnique(states[k])
      ensures IdsUnique(states[k + 1])
    {
      IdsNext(states, labels, dedup, k);
    }
    IdsInduction(states, i);
  }
}
