/**
 * The database's named locks as `GET_LOCK` and `RELEASE_LOCK` keep them: held by a connection, re-entrant for that
 * connection, and freed once it has released as often as it acquired.
 */
module NamedLock {
  datatype Held = Held(connection: nat, depth: nat)

  type Locks = map<string, Held>

  datatype LockOp = Get(name: string, connection: nat) | Free(name: string, connection: nat)

  predicate HeldBy(locks: Locks, name: string, c: nat) {
    name in locks && locks[name].connection == c
  }

  /** `GET_LOCK` answers 1 without waiting. */
  predicate Grants(locks: Locks, name: string, c: nat) {
    name !in locks || HeldBy(locks, name, c)
  }

  function Apply(locks: Locks, op: LockOp): Locks {
    match op
    case Get(name, c) =>
      if name !in locks then locks[name := Held(c, 1)]
      else if HeldBy(locks, name, c) then locks[name := Held(c, locks[name].depth + 1)]
      else locks
    case Free(name, c) =>
      if !HeldBy(locks, name, c) then locks
      else if locks[name].depth <= 1 then locks - {name}
      else locks[name := Held(c, locks[name].depth - 1)]
  }

  function ApplyAll(locks: Locks, ops: seq<LockOp>): Locks {
    if ops == [] then locks else Apply(ApplyAll(locks, ops[..|ops| - 1]), ops[|ops| - 1])
  }

  /** How much deeper `c` is in `name` after these operations than before. */
  function Entered(ops: seq<LockOp>, name: string, c: nat): int {
    if ops == [] then 0
    else
      var last := ops[|ops| - 1];
      Entered(ops[..|ops| - 1], name, c) + if last == Get(name, c) then 1 else if last == Free(name, c) then -1 else 0
  }

  /**
   * Whoever else asks in between, a holder that has not yet released as often as it acquired still holds the name,
   * at exactly that depth, and every other connection is refused.
   */
  lemma {:induction false} HeldUntilFreed(locks: Locks, ops: seq<LockOp>, name: string, c: nat)
    requires HeldBy(locks, name, c) && locks[name].depth >= 1
    requires forall n | 0 <= n <= |ops| :: locks[name].depth + Entered(ops[..n], name, c) >= 1
    ensures HeldBy(ApplyAll(locks, ops), name, c)
    ensures ApplyAll(locks, ops)[name].depth == locks[name].depth + Entered(ops, name, c)
    ensures forall d: nat | d != c :: !Grants(ApplyAll(locks, ops), name, d)
  {
    assert ops[..|ops|] == ops;
    if ops != [] {
      var before := ops[..|ops| - 1];
      assert forall n | 0 <= n <= |before| :: before[..n] == ops[..n];
      HeldUntilFreed(locks, before, name, c);
    }
  }

  /** Acquired on a free name and released once, the name is free again, whatever others tried meanwhile. */
  lemma FreedByHolder(locks: Locks, ops: seq<LockOp>, name: string, c: nat)
    requires name !in locks && forall k | 0 <= k < |ops| :: ops[k] != Get(name, c) && ops[k] != Free(name, c)
    ensures name !in Apply(ApplyAll(Apply(locks, Get(name, c)), ops), Free(name, c))
  {
    forall n | 0 <= n <= |ops|
      ensures Entered(ops[..n], name, c) == 0
    {
      OthersDoNotEnter(ops[..n], name, c);
    }
    assert ops[..|ops|] == ops;
    HeldUntilFreed(Apply(locks, Get(name, c)), ops, name, c);
  }

  lemma {:induction false} OthersDoNotEnter(ops: seq<LockOp>, name: string, c: nat)
    requires forall k | 0 <= k < |ops| :: ops[k] != Get(name, c) && ops[k] != Free(name, c)
    ensures Entered(ops, name, c) == 0
  {
    if ops != [] {
      OthersDoNotEnter(ops[..|ops| - 1], name, c);
    }
  }
}
