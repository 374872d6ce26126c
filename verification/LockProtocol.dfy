/**
 * The named payment lock, in every run: at most one webhook per key is between acquire and
 * release, and whoever acquires releases exactly once on every way out.
 */
module LockProtocol {
  import opened Prelude
  import opened PaymentMachine

  /** The lock a handler holds at this point of the webhook's `try` block. */
  function LockOf(pc: Pc): Option<string> {
    match pc
    case InWebhook(w) => WebhookLock(w)
    case _ => None
  }

  function WebhookLock(w: WebhookPc): Option<string> {
    match w
    case WFind(_, _) => None
    case WLock(_, _, _) => None
    case WReread(_, _, lock) => Some(lock)
    case WQuery(_, lock, _) => Some(lock)
    case WMergeRead(d, _) => Some(d.lock)
    case WMergeWrite(d, _, _) => Some(d.lock)
    case WTopup(d, _) => Some(d.lock)
    case WNotices(d, _) => Some(d.lock)
    case WReceipt(lock) => Some(lock)
    case WRelease(lock) => Some(lock)
  }

  ghost predicate Owns(s: State, h: nat, lock: string) {
    lock in s.locks && s.locks[lock] == h
  }

  /** Acquired and not yet released inside the critical section; balanced outside it. */
  ghost predicate Counts(s: State, h: nat, pc: Pc) {
    if LockOf(pc).Some? then s.log.acquired[h] == 1 && s.log.released[h] == 0
    else if pc.Done? then s.log.acquired[h] == s.log.released[h] <= 1
    else s.log.acquired[h] == 0 && s.log.released[h] == 0
  }

  ghost predicate LockInv(s: State) {
    && (forall h | h in s.handlers :: Counts(s, h, s.handlers[h]))
    && (forall h | h in s.handlers && LockOf(s.handlers[h]).Some? :: Owns(s, h, LockOf(s.handlers[h]).value))
    && (forall h: nat | h !in s.handlers :: s.log.acquired[h] == 0 && s.log.released[h] == 0)
  }

  /** How a turn may move through the critical section. */
  ghost predicate LockTurn(s: State, pc: Pc, t: Turn) {
    t.Turn? ==>
      if t.effect.TakeLock? then
        LockOf(pc) == None && !pc.Done? && t.effect.lock !in s.locks && LockOf(t.pc) == Some(t.effect.lock)
      else if t.effect.DropLock? then LockOf(pc) == Some(t.effect.lock) && t.pc == Done
      else LockOf(t.pc) == LockOf(pc) && !pc.Done? && (t.pc.Done? ==> LockOf(pc) == None)
  }

  lemma WebhookLockTurn(s: State, w: WebhookPc, a: Answer, dedup: bool)
    ensures LockTurn(s, InWebhook(w), NextWebhook(s, w, a, dedup))
  {
  }

  lemma CallbackLockTurn(s: State, b: CallbackPc, a: Answer, dedup: bool)
    ensures LockTurn(s, InCallback(b), NextCallback(s, b, a, dedup))
  {
  }

  lemma QrLockTurn(s: State, q: QrPc, a: Answer)
    ensures LockTurn(s, InQr(q), NextQr(s, q, a))
  {
  }

  lemma RejectLockTurn(s: State, pc: Pc)
    ensures LockTurn(s, pc, Rejecting(pc))
  {
  }

  lemma NextLockTurn(s: State, pc: Pc, a: Answer, dedup: bool)
    ensures LockTurn(s, pc, Next(s, pc, a, dedup))
  {
    if a == Throws {
      RejectLockTurn(s, pc);
    } else {
      match pc
      case InWebhook(w) => WebhookLockTurn(s, w, a, dedup);
      case InCallback(b) => CallbackLockTurn(s, b, a, dedup);
      case InQr(q) => QrLockTurn(s, q, a);
      case _ =>
    }
  }

  lemma OwnLocks(s: State, h: nat, pc: Pc, t: Turn)
    requires Counts(s, h, pc) && (LockOf(pc).Some? ==> Owns(s, h, LockOf(pc).value))
    requires t.Turn? && LockTurn(s, pc, t)
    ensures var s1 := Act(s, h, t.effect);
            Counts(s1, h, t.pc) && (LockOf(t.pc).Some? ==> Owns(s1, h, LockOf(t.pc).value))
  {
    var s1, e := Act(s, h, t.effect), t.effect;
    if e.TakeLock? {
      assert s1.log.acquired[h] == s.log.acquired[h] + 1 && s1.log.released == s.log.released;
    } else if e.DropLock? {
      assert s1.log.released[h] == s.log.released[h] + 1 && s1.log.acquired == s.log.acquired;
    } else {
      assert s1.log.released == s.log.released && s1.log.acquired == s.log.acquired && s1.locks == s.locks;
    }
  }

  lemma OtherLocks(s: State, h: nat, e: Effect, g: nat)
    requires g != h && (e.TakeLock? ==> e.lock !in s.locks)
    ensures var s1 := Act(s, h, e);
            && s1.log.acquired[g] == s.log.acquired[g] && s1.log.released[g] == s.log.released[g]
            && forall lock | Owns(s, g, lock) :: Owns(s1, g, lock)
  {
  }

  lemma OthersKeepLocks(s: State, h: nat, t: Turn, g: nat)
    requires h in s.handlers && t.Turn? && (t.effect.TakeLock? ==> t.effect.lock !in s.locks) && g != h
    requires g in s.handlers ==> Counts(s, g, s.handlers[g])
    requires g in s.handlers && LockOf(s.handlers[g]).Some? ==> Owns(s, g, LockOf(s.handlers[g]).value)
    requires g !in s.handlers ==> s.log.acquired[g] == 0 && s.log.released[g] == 0
    ensures var s' := Take(s, h, t);
            && (g in s'.handlers ==> Counts(s', g, s'.handlers[g]))
            && (g in s'.handlers && LockOf(s'.handlers[g]).Some? ==> Owns(s', g, LockOf(s'.handlers[g]).value))
            && (g !in s'.handlers ==> s'.log.acquired[g] == 0 && s'.log.released[g] == 0)
  {
    OtherLocks(s, h, t.effect, g);
    assert Act(s, h, t.effect).handlers == s.handlers;
  }

  lemma TakeKeepsLocks(s: State, h: nat, t: Turn)
    requires LockInv(s) && h in s.handlers && t.Turn? && LockTurn(s, s.handlers[h], t)
    ensures LockInv(Take(s, h, t))
  {
    var s' := Take(s, h, t);
    OwnLocks(s, h, s.handlers[h], t);
    forall g: nat
      ensures g in s'.handlers ==> Counts(s', g, s'.handlers[g])
      ensures g in s'.handlers && LockOf(s'.handlers[g]).Some? ==> Owns(s', g, LockOf(s'.handlers[g]).value)
      ensures g !in s'.handlers ==> s'.log.acquired[g] == 0 && s'.log.released[g] == 0
    {
      if g != h {
        OthersKeepLocks(s, h, t, g);
      }
    }
  }

  lemma LockStep(s: State, l: Label, s': State, dedup: bool)
    requires LockInv(s) && Step(s, l, s', dedup)
    ensures LockInv(s')
  {
    match l
    case Start(h, pc) =>
      forall g | g in s'.handlers
        ensures Counts(s', g, s'.handlers[g])
      {
        if g != h {
          assert Counts(s, g, s.handlers[g]);
        }
      }
    case Move(h, a) =>
      NextLockTurn(s, s.handlers[h], a, dedup);
      TakeKeepsLocks(s, h, Next(s, s.handlers[h], a, dedup));
  }

  lemma NoLocksAtFirst()
    ensures LockInv(InitState)
  {
  }

  lemma {:induction false} LocksAlways(states: seq<State>, labels: seq<Label>, dedup: bool, i: nat)
    requires Run(states, labels, dedup) && i < |states|
    ensures LockInv(states[i])
  {
    if i == 0 {
      NoLocksAtFirst();
    } else {
      LocksAlways(states, labels, dedup, i - 1);
      LockStep(states[i - 1], labels[i - 1], states[i], dedup);
    }
  }

  /** Two webhooks are never inside the critical section of one key together. */
  lemma MutualExclusion(states: seq<State>, labels: seq<Label>, dedup: bool, i: nat, g: nat, h: nat)
    requires Run(states, labels, dedup) && i < |states| && g in states[i].handlers && h in states[i].handlers
    requires LockOf(states[i].handlers[g]).Some? && LockOf(states[i].handlers[g]) == LockOf(states[i].handlers[h])
    ensures g == h
  {
    LocksAlways(states, labels, dedup, i);
  }

  /** An acquirer has not released while inside, and has released exactly once when it is done, however it ended. */
  lemma ReleasedExactlyOnce(states: seq<State>, labels: seq<Label>, dedup: bool, i: nat, h: nat)
    requires Run(states, labels, dedup) && i < |states| && h in states[i].handlers
    requires states[i].log.acquired[h] > 0
    ensures states[i].log.acquired[h] == 1
    ensures states[i].log.released[h] == if states[i].handlers[h].Done? then 1 else 0
    ensures !states[i].handlers[h].Done? ==> LockOf(states[i].handlers[h]).Some?
  {
    LocksAlways(states, labels, dedup, i);
    assert Counts(states[i], h, states[i].handlers[h]);
  }
}
