/** How many physical cards a user may come to own: exactly which operations give a second one. */
module PhysicalCards {
  import opened Prelude
  import opened Cards

  ghost predicate IsPhysicalOf(t: Table, id: nat, user: UserId) {
    id in t && t[id].owner == Some(user) && t[id].kind == Physical
  }

  ghost predicate AtMostOne(t: Table, user: UserId) {
    forall i, j | IsPhysicalOf(t, i, user) && IsPhysicalOf(t, j, user) :: i == j
  }

  /** A physical card the existing-card query does not look at: PENDING or BLOCKED (no operation writes EXPIRED). */
  ghost predicate OwnsUnseen(t: Table, user: UserId) {
    exists id :: IsPhysicalOf(t, id, user) && t[id].status != Active && t[id].status != Inactive
  }

  /** The request goes through: the user passes the query, and inventory or a new order supplies a card. */
  ghost predicate Supplies(t: Table, op: Op)
    requires op.RequestPhysical?
  {
    && !HasPhysical(t, op.user)
    && if op.pick in t && Available(t[op.pick]) then true
       else NoneAvailable(t) && op.ordered && CanInsert(t, op.newId, Ordered(op.user, op.identifier))
  }

  function Ordered(user: UserId, identifier: string): Card {
    Card(identifier, Some(user), Physical, Pending, None, true)
  }

  /** The identifier names a physical card that nobody owns. */
  ghost predicate NamesFreePhysical(t: Table, identifier: string) {
    exists id :: id in t && t[id].identifier == identifier && t[id].owner == None && t[id].kind == Physical
  }

  /**
   * The two guards that let a second card through: a supplied request of a user who owns an unseen card, and an
   * assignment, which looks at no other card, to a user who owns any physical card.
   */
  ghost predicate GivesSecond(t: Table, op: Op, user: UserId) {
    match op
    case RequestPhysical(u, _, _, _, _) => u == user && OwnsUnseen(t, user) && Supplies(t, op)
    case Assign(u, identifier) => u == user && OwnsPhysical(t, user) && NamesFreePhysical(t, identifier)
    case _ => false
  }

  // ---------- One operation ----------

  /** Nobody gains a physical card. */
  ghost predicate NoGain(t: Table, t': Table) {
    forall id, user | IsPhysicalOf(t', id, user) :: IsPhysicalOf(t, id, user)
  }

  lemma NoticeGivesNothing(t: Table, n: Notice)
    requires NoticeApplied(t, n).Some?
    ensures NoGain(t, NoticeApplied(t, n).value)
  {
  }

  lemma {:induction false} NoticesGiveNothing(t: Table, ns: seq<Notice>)
    ensures NoGain(t, NoticesApplied(t, ns))
  {
    if ns != [] && NoticeApplied(t, ns[0]).Some? {
      NoticeGivesNothing(t, ns[0]);
      NoticesGiveNothing(NoticeApplied(t, ns[0]).value, ns[1..]);
    }
  }

  lemma OthersGiveNothing(t: Table, op: Op)
    requires !op.RequestPhysical? && !op.Assign? && !op.RequestForUser?
    ensures NoGain(t, Apply(t, op))
  {
    if op.BulkNotice? {
      NoticesGiveNothing(t, op.notices);
    }
  }

  /** Giving `user` the card `id` keeps the bound exactly when they own none. */
  lemma GiftKeeps(t: Table, id: nat, c: Card, user: UserId)
    requires AtMostOne(t, user) && (id in t ==> t[id].owner == None)
    ensures AtMostOne(t[id := c], user) <==> !(c.owner == Some(user) && c.kind == Physical && OwnsPhysical(t, user))
  {
    var t' := t[id := c];
    assert forall i | i != id :: IsPhysicalOf(t', i, user) <==> IsPhysicalOf(t, i, user);
    if OwnsPhysical(t, user) {
      var i :| i in t && t[i].owner == Some(user) && t[i].kind == Physical;
      assert IsPhysicalOf(t, i, user) && i != id && IsPhysicalOf(t', i, user);
      assert IsPhysicalOf(t', id, user) <==> c.owner == Some(user) && c.kind == Physical;
    } else {
      assert forall i :: !IsPhysicalOf(t, i, user);
    }
  }

  lemma UnseenIsAll(t: Table, user: UserId)
    requires !HasPhysical(t, user)
    ensures OwnsUnseen(t, user) <==> OwnsPhysical(t, user)
  {
    if OwnsPhysical(t, user) {
      var id :| id in t && t[id].owner == Some(user) && t[id].kind == Physical;
      assert IsPhysicalOf(t, id, user);
    }
  }

  lemma RequestGift(t: Table, op: Op, user: UserId)
    requires op.RequestPhysical? && AtMostOne(t, user)
    ensures AtMostOne(Apply(t, op), user) <==> !GivesSecond(t, op, user)
  {
    if Supplies(t, op) {
      UnseenIsAll(t, op.user);
      if op.pick in t && Available(t[op.pick]) {
        GiftKeeps(t, op.pick, t[op.pick].(owner := Some(op.user)), user);
      } else {
        GiftKeeps(t, op.newId, Ordered(op.user, op.identifier), user);
      }
    } else {
      assert Apply(t, op) == t;
    }
  }

  lemma AssignGift(t: Table, op: Op, user: UserId)
    requires TableOk(t) && op.Assign? && AtMostOne(t, user)
    ensures AtMostOne(Apply(t, op), user) <==> !GivesSecond(t, op, user)
  {
    if IdentifierFree(t, op.identifier) {
      assert !NamesFreePhysical(t, op.identifier);
    } else {
      var id := IdOf(t, op.identifier);
      assert NamesFreePhysical(t, op.identifier) <==> t[id].owner == None && t[id].kind == Physical;
      if t[id].owner == None {
        GiftKeeps(t, id, t[id].(owner := Some(op.user)), user);
      }
    }
  }

  lemma ScriptGift(t: Table, op: Op, user: UserId)
    requires op.RequestForUser? && AtMostOne(t, user)
    ensures AtMostOne(Apply(t, op), user)
  {
    var c := Card(op.identifier, Some(op.user), Physical, Inactive, None, true);
    if !OwnsPhysical(t, op.user) && CanInsert(t, op.newId, c) {
      GiftKeeps(t, op.newId, c, user);
    }
  }

  /** A user with at most one physical card has at most one after any operation, exactly unless a guard above held. */
  lemma OneStaysExactly(t: Table, op: Op, user: UserId)
    requires TableOk(t) && AtMostOne(t, user)
    ensures AtMostOne(Apply(t, op), user) <==> !GivesSecond(t, op, user)
  {
    if op.RequestPhysical? {
      RequestGift(t, op, user);
    } else if op.Assign? {
      AssignGift(t, op, user);
    } else if op.RequestForUser? {
      ScriptGift(t, op, user);
    } else {
      OthersGiveNothing(t, op);
    }
  }

  // ---------- Every run ----------

  /** Over a whole run, a user never had two physical cards if and only if no operation met one of the two guards. */
  lemma {:induction false} OnePhysicalCardExactly(tables: seq<Table>, ops: seq<Op>, n: nat, user: UserId)
    requires Run(tables, ops) && n < |tables|
    ensures (forall j | 0 <= j <= n :: AtMostOne(tables[j], user)) <==>
            forall k | 0 <= k < n :: !GivesSecond(tables[k], ops[k], user)
  {
    if n > 0 {
      OnePhysicalCardExactly(tables, ops, n - 1, user);
      AlwaysOk(tables, ops, n - 1);
      assert tables[n] == Apply(tables[n - 1], ops[n - 1]);
      if AtMostOne(tables[n - 1], user) {
        OneStaysExactly(tables[n - 1], ops[n - 1], user);
      }
    }
  }

  /** Two ordered requests in a row: the first card is PENDING, so the second request does not see it. */
  lemma TwoRequestsTwoCards(user: UserId) returns (tables: seq<Table>, ops: seq<Op>)
    ensures Run(tables, ops) && |ops| == 2 && forall k | 0 <= k < 2 :: ops[k].RequestPhysical? && ops[k].user == user
    ensures !AtMostOne(tables[2], user)
  {
    var t1: Table := map[0 := Ordered(user, "a")];
    var t2: Table := t1[1 := Ordered(user, "b")];
    tables := [map[], t1, t2];
    ops := [RequestPhysical(user, 0, 0, "a", true), RequestPhysical(user, 0, 1, "b", true)];
    assert "a"[0] != "b"[0];
    assert Apply(map[], ops[0]) == t1;
    assert Apply(t1, ops[1]) == t2;
    assert IsPhysicalOf(t2, 0, user) && IsPhysicalOf(t2, 1, user);
  }

  /** An assignment gives a second card even to a user whose INACTIVE card the query would have seen. */
  lemma AssignedSecondCard(user: UserId) returns (tables: seq<Table>, ops: seq<Op>)
    ensures Run(tables, ops) && |ops| == 3 && ops[2].Assign? && ops[2].user == user
    ensures HasPhysical(tables[2], user) && AtMostOne(tables[2], user) && !AtMostOne(tables[3], user)
  {
    var mine, spare := Card("a", Some(user), Physical, Inactive, None, true), Card("b", None, Physical, Inactive, None, true);
    var t1: Table := map[0 := mine];
    var t2: Table := t1[1 := spare];
    var t3: Table := t2[1 := spare.(owner := Some(user))];
    tables := [map[], t1, t2, t3];
    ops := [RequestForUser(user, 0, "a"), StockInventory(1, "b"), Assign(user, "b")];
    assert "a"[0] != "b"[0];
    assert Apply(map[], ops[0]) == t1;
    assert Apply(t1, ops[1]) == t2;
    assert t2[1].identifier == "b" && t2[0].identifier == "a";
    assert IdOf(t2, "b") == 1;
    assert Apply(t2, ops[2]) == t3;
    assert IsPhysicalOf(t3, 0, user) && IsPhysicalOf(t3, 1, user);
  }
}
