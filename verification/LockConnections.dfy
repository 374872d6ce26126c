/** The payment machine's lock is the database's named lock when every handler has a connection of its own. */
module LockConnections {
  import opened PaymentMachine
  import opened LockProtocol
  import NamedLock

  /** The machine's lock table as the database holds it, handler `h` using connection `h`. */
  ghost function AsNamed(locks: map<string, nat>): NamedLock.Locks {
    map name | name in locks :: NamedLock.Held(locks[name], 1)
  }

  /** Only handlers that acquired hold anything; one whose release was lost still does. */
  ghost predicate HoldersAcquired(s: State) {
    forall name | name in s.locks :: s.log.acquired[s.locks[name]] > 0
  }

  lemma ActKeepsHolders(s: State, h: nat, e: Effect)
    requires HoldersAcquired(s)
    ensures HoldersAcquired(Act(s, h, e))
  {
  }

  lemma {:induction false} HoldersAlways(states: seq<State>, labels: seq<Label>, dedup: bool, i: nat)
    requires Run(states, labels, dedup) && i < |states|
    ensures HoldersAcquired(states[i])
  {
    if i > 0 {
      HoldersAlways(states, labels, dedup, i - 1);
      var s, l := states[i - 1], labels[i - 1];
      if l.Move? {
        ActKeepsHolders(s, l.h, Next(s, s.handlers[l.h], l.a, dedup).effect);
      }
    }
  }

  ghost predicate AtLock(s: State, h: nat, name: string) {
    h in s.handlers && s.handlers[h].InWebhook? && s.handlers[h].w.WLock? && s.handlers[h].w.lock == name
  }

  /** In every run, a webhook about to lock can be granted the lock exactly when the database would grant it. */
  lemma GrantedExactly(states: seq<State>, labels: seq<Label>, dedup: bool, i: nat, h: nat, name: string)
    requires Run(states, labels, dedup) && i < |states| && AtLock(states[i], h, name)
    ensures Next(states[i], states[i].handlers[h], Granted, dedup).Turn? <==> NamedLock.Grants(AsNamed(states[i].locks), name, h)
  {
    HoldersAlways(states, labels, dedup, i);
    LocksAlways(states, labels, dedup, i);
    assert Counts(states[i], h, states[i].handlers[h]);
  }

  /** What a turn does to the locks, as an operation of the database. */
  ghost predicate IsLockOp(s: State, h: nat, e: Effect, locks': map<string, nat>) {
    match e
    case TakeLock(name) =>
      NamedLock.Grants(AsNamed(s.locks), name, h) && AsNamed(locks') == NamedLock.Apply(AsNamed(s.locks), NamedLock.Get(name, h))
    case DropLock(name, freed) =>
      freed ==> AsNamed(locks') == NamedLock.Apply(AsNamed(s.locks), NamedLock.Free(name, h))
    case _ => locks' == s.locks
  }

  lemma ActIsLockOp(s: State, h: nat, e: Effect)
    requires e.TakeLock? ==> e.lock !in s.locks
    ensures IsLockOp(s, h, e, Act(s, h, e).locks)
  {
    var s1 := Act(s, h, e);
    if e.TakeLock? {
      assert AsNamed(s1.locks) == AsNamed(s.locks)[e.lock := NamedLock.Held(h, 1)];
    } else if e.DropLock? && e.freed && e.lock in s.locks && s.locks[e.lock] == h {
      assert AsNamed(s1.locks) == AsNamed(s.locks) - {e.lock};
    }
  }

  /** In every run, each turn changes the locks by the database operation it issues, on its own connection. */
  lemma LocksRefine(states: seq<State>, labels: seq<Label>, dedup: bool, i: nat)
    requires Run(states, labels, dedup) && i < |labels| && labels[i].Move?
    ensures var s, h := states[i], labels[i].h;
            h in s.handlers && IsLockOp(s, h, Next(s, s.handlers[h], labels[i].a, dedup).effect, states[i + 1].locks)
  {
    var s, h, a := states[i], labels[i].h, labels[i].a;
    var t := Next(s, s.handlers[h], a, dedup);
    NextLockTurn(s, s.handlers[h], a, dedup);
    ActIsLockOp(s, h, t.effect);
  }
}
