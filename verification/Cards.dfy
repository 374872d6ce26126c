/**
 * The card table and the operations that write it, each taken as one step.  The route
 * middleware that checks ownership is part of the operations it guards.
 */
module Cards {
  import opened Prelude

  datatype CardStatus = Active | Blocked | Inactive | Expired | Pending

  datatype CardType = Virtual | Physical

  /** User ids are autoincrement keys, so a stored owner is never falsy. */
  type UserId = u: nat | 1 <= u witness 1

  datatype Card = Card(
    identifier: string,
    owner: Option<UserId>,
    kind: CardType,
    status: CardStatus,
    prosperaId: Option<nat>,
    inBatch: bool)

  type Table = map<nat, Card>

  // ---------- Unique columns ----------

  predicate ProsperaIdFree(t: Table, self: nat, pid: nat) {
    forall id | id in t && id != self :: t[id].prosperaId != Some(pid)
  }

  predicate IdentifierFree(t: Table, identifier: string) {
    forall id | id in t :: t[id].identifier != identifier
  }

  predicate CanInsert(t: Table, id: nat, c: Card) {
    id !in t && IdentifierFree(t, c.identifier) && (c.prosperaId.Some? ==> ProsperaIdFree(t, id, c.prosperaId.value))
  }

  function Inserted(t: Table, id: nat, c: Card): Table {
    if CanInsert(t, id, c) then t[id := c] else t
  }

  // ---------- Operations ----------

  /** Requests with the environment's answers; a `None` or `false` answer is a failed backoffice call. */
  datatype Op =
    | Activate(user: UserId, id: nat, hasWallet: bool, issued: Option<nat>)
    | Stop(user: UserId, id: nat, accepted: bool)
    | Unstop(user: UserId, id: nat, accepted: bool)
    | CreateVirtual(user: UserId, newId: nat, identifier: string, issued: Option<nat>)
    | RequestPhysical(user: UserId, pick: nat, newId: nat, identifier: string, ordered: bool)
    | Assign(user: UserId, identifier: string)
    | Unlink(user: UserId, id: nat, retired: bool)
    | BulkNotice(notices: seq<Notice>)
    // scripts
    | StockInventory(newId: nat, identifier: string)
    | RequestForUser(user: UserId, newId: nat, identifier: string)
    | ScriptActivate(id: nat, issued: Option<nat>)

  /** One card of a bulk-order notification; a missing or zero `card_id` is skipped. */
  datatype Notice = Notice(identifier: string, cardId: Option<nat>)

  predicate OwnedBy(t: Table, id: nat, user: UserId) {
    id in t && t[id].owner == Some(user)
  }

  predicate HasPhysical(t: Table, user: UserId) {
    exists id | id in t :: t[id].owner == Some(user) && t[id].kind == Physical && (t[id].status == Active || t[id].status == Inactive)
  }

  predicate OwnsPhysical(t: Table, user: UserId) {
    exists id | id in t :: t[id].owner == Some(user) && t[id].kind == Physical
  }

  predicate Available(c: Card) {
    c.owner == None && c.kind == Physical && (c.status == Pending || c.status == Inactive)
  }

  predicate NoneAvailable(t: Table) {
    forall id | id in t :: !Available(t[id])
  }

  function Activated(t: Table, id: nat, pid: nat): Table
    requires id in t
  {
    if ProsperaIdFree(t, id, pid) then t[id := t[id].(prosperaId := Some(pid), status := Active)] else t
  }

  function WithStatus(t: Table, id: nat, status: CardStatus): Table
    requires id in t
  {
    t[id := t[id].(status := status)]
  }

  function AssignedTo(t: Table, id: nat, user: UserId): Table
    requires id in t
  {
    t[id := t[id].(owner := Some(user))]
  }

  ghost function IdOf(t: Table, identifier: string): (id: nat)
    requires !IdentifierFree(t, identifier)
    ensures id in t && t[id].identifier == identifier
  {
    var id :| id in t && t[id].identifier == identifier;
    id
  }

  /** One UPDATE by identifier; None is a unique-index violation. */
  ghost function NoticeApplied(t: Table, n: Notice): Option<Table> {
    if n.cardId.GetOr(0) == 0 || IdentifierFree(t, n.identifier) then Some(t)
    else
      var id := IdOf(t, n.identifier);
      if ProsperaIdFree(t, id, n.cardId.value) then Some(t[id := t[id].(prosperaId := n.cardId)]) else None
  }

  /** The notification loop stops at the first rejected update; earlier updates stay. */
  ghost function NoticesApplied(t: Table, ns: seq<Notice>): Table {
    if ns == [] then t
    else
      var next := NoticeApplied(t, ns[0]);
      if next.None? then t else NoticesApplied(next.value, ns[1..])
  }

  /** The table after one operation; a refused operation leaves it as it was. */
  ghost function Apply(t: Table, op: Op): Table {
    match op
    case Activate(user, id, hasWallet, issued) =>
      if OwnedBy(t, id, user) && hasWallet && t[id].inBatch && issued.Some? then Activated(t, id, issued.value) else t
    case Stop(user, id, accepted) =>
      if OwnedBy(t, id, user) && t[id].prosperaId.Some? && accepted then WithStatus(t, id, Blocked) else t
    case Unstop(user, id, accepted) =>
      if OwnedBy(t, id, user) && t[id].prosperaId.Some? && accepted then WithStatus(t, id, Active) else t
    case CreateVirtual(user, newId, identifier, issued) =>
      if issued.Some? then Inserted(t, newId, Card(identifier, Some(user), Virtual, Active, issued, false)) else t
    case RequestPhysical(user, pick, newId, identifier, ordered) =>
      if HasPhysical(t, user) then t
      else if pick in t && Available(t[pick]) then AssignedTo(t, pick, user)
      else if NoneAvailable(t) && ordered then Inserted(t, newId, Card(identifier, Some(user), Physical, Pending, None, true))
      else t
    case Assign(user, identifier) =>
      if IdentifierFree(t, identifier) || t[IdOf(t, identifier)].owner.Some? then t
      else AssignedTo(t, IdOf(t, identifier), user)
    case Unlink(user, id, retired) =>
      if OwnedBy(t, id, user) && t[id].prosperaId.Some? && retired then t[id := t[id].(owner := None, status := Inactive)] else t
    case BulkNotice(notices) => NoticesApplied(t, notices)
    case StockInventory(newId, identifier) =>
      Inserted(t, newId, Card(identifier, None, Physical, Inactive, None, true))
    case RequestForUser(user, newId, identifier) =>
      if OwnsPhysical(t, user) then t
      else Inserted(t, newId, Card(identifier, Some(user), Physical, Inactive, None, true))
    case ScriptActivate(id, issued) =>
      if id in t && t[id].owner.Some? && t[id].kind == Physical && t[id].status == Inactive && t[id].inBatch && issued.Some?
      then Activated(t, id, issued.value) else t
  }

  // ---------- The invariant of every run ----------

  ghost predicate Usable(c: Card) {
    c.status == Active || c.status == Blocked ==> c.owner.Some? && c.prosperaId.Some?
  }

  ghost predicate IdentifiersUnique(t: Table) {
    forall i, j | i in t && j in t && t[i].identifier == t[j].identifier :: i == j
  }

  ghost predicate ProsperaIdsUnique(t: Table) {
    forall i, j | i in t && j in t && t[i].prosperaId.Some? && t[i].prosperaId == t[j].prosperaId :: i == j
  }

  ghost predicate TableOk(t: Table) {
    IdentifiersUnique(t) && ProsperaIdsUnique(t) && forall id | id in t :: Usable(t[id])
  }

  /** The card did not change hands: same owner, or taken by a user while it had none. */
  ghost predicate NotTakenOver(c: Card, c': Card) {
    c'.identifier == c.identifier && (c.owner.Some? ==> c'.owner == c.owner)
  }

  ghost predicate KeepsOwners(t: Table, t': Table) {
    forall id | id in t :: id in t' && NotTakenOver(t[id], t'[id])
  }

  /** This step unlinked card `id`: the backoffice retired it and it is left without an owner, INACTIVE. */
  ghost predicate Unlinks(t: Table, op: Op, t': Table, id: nat) {
    op.Unlink? && op.retired && op.id == id && OwnedBy(t, id, op.user) && id in t' && t'[id].owner == None && t'[id].status == Inactive
  }

  lemma NoticeKeeps(t: Table, n: Notice)
    requires TableOk(t) && NoticeApplied(t, n).Some?
    ensures TableOk(NoticeApplied(t, n).value) && KeepsOwners(t, NoticeApplied(t, n).value)
  {
  }

  lemma {:induction false} NoticesKeep(t: Table, ns: seq<Notice>)
    requires TableOk(t)
    ensures TableOk(NoticesApplied(t, ns)) && KeepsOwners(t, NoticesApplied(t, ns))
  {
    if ns != [] && NoticeApplied(t, ns[0]).Some? {
      NoticeKeeps(t, ns[0]);
      NoticesKeep(NoticeApplied(t, ns[0]).value, ns[1..]);
    }
  }

  lemma InsertKeeps(t: Table, id: nat, c: Card)
    requires TableOk(t) && Usable(c)
    ensures TableOk(Inserted(t, id, c)) && KeepsOwners(t, Inserted(t, id, c))
  {
  }

  lemma ActivateKeeps(t: Table, id: nat, pid: nat)
    requires TableOk(t) && id in t && t[id].owner.Some?
    ensures TableOk(Activated(t, id, pid)) && KeepsOwners(t, Activated(t, id, pid))
  {
  }

  lemma RowKeeps(t: Table, id: nat, c: Card)
    requires TableOk(t) && id in t && c.identifier == t[id].identifier && c.prosperaId == t[id].prosperaId && Usable(c)
    ensures TableOk(t[id := c])
  {
  }

  /** The table stays in order, no row disappears, and only an unlink takes an owner off a card. */
  ghost predicate StepOk(t: Table, op: Op, t': Table) {
    && TableOk(t')
    && forall id | id in t :: id in t' && (NotTakenOver(t[id], t'[id]) || Unlinks(t, op, t', id))
  }

  lemma RowStep(t: Table, op: Op, id: nat, c: Card)
    requires TableOk(t) && id in t && c.identifier == t[id].identifier && c.prosperaId == t[id].prosperaId && Usable(c)
    requires NotTakenOver(t[id], c) || Unlinks(t, op, t[id := c], id)
    ensures StepOk(t, op, t[id := c])
  {
    RowKeeps(t, id, c);
  }

  lemma LifecycleKeeps(t: Table, op: Op)
    requires TableOk(t) && (op.Stop? || op.Unstop? || op.Unlink?)
    ensures StepOk(t, op, Apply(t, op))
  {
    if OwnedBy(t, op.id, op.user) && t[op.id].prosperaId.Some? {
      match op
      case Stop(_, id, _) => RowStep(t, op, id, t[id].(status := Blocked));
      case Unstop(_, id, _) => RowStep(t, op, id, t[id].(status := Active));
      case Unlink(_, id, retired) =>
        if retired { RowStep(t, op, id, t[id].(owner := None, status := Inactive)); }
    }
  }

  lemma ActivateOpKeeps(t: Table, op: Op)
    requires TableOk(t) && (op.Activate? || op.ScriptActivate?)
    ensures StepOk(t, op, Apply(t, op))
  {
    if op.id in t && t[op.id].owner.Some? && op.issued.Some? {
      ActivateKeeps(t, op.id, op.issued.value);
    }
  }

  lemma InsertOpKeeps(t: Table, op: Op)
    requires TableOk(t) && (op.CreateVirtual? || op.StockInventory? || op.RequestForUser?)
    ensures StepOk(t, op, Apply(t, op))
  {
    match op
    case CreateVirtual(user, newId, identifier, issued) =>
      if issued.Some? { InsertKeeps(t, newId, Card(identifier, Some(user), Virtual, Active, issued, false)); }
    case StockInventory(newId, identifier) =>
      InsertKeeps(t, newId, Card(identifier, None, Physical, Inactive, None, true));
    case RequestForUser(user, newId, identifier) =>
      InsertKeeps(t, newId, Card(identifier, Some(user), Physical, Inactive, None, true));
  }

  lemma AssignKeeps(t: Table, op: Op)
    requires TableOk(t) && (op.Assign? || op.RequestPhysical?)
    ensures StepOk(t, op, Apply(t, op))
  {
    match op
    case RequestPhysical(user, pick, newId, identifier, _) =>
      if pick in t && Available(t[pick]) {
        RowStep(t, op, pick, t[pick].(owner := Some(user)));
      } else {
        InsertKeeps(t, newId, Card(identifier, Some(user), Physical, Pending, None, true));
      }
    case Assign(user, identifier) =>
      if !IdentifierFree(t, identifier) {
        var id := IdOf(t, identifier);
        if t[id].owner.None? {
          RowStep(t, op, id, t[id].(owner := Some(user)));
        }
      }
  }

  lemma ApplyKeeps(t: Table, op: Op)
    requires TableOk(t)
    ensures StepOk(t, op, Apply(t, op))
  {
    if op.BulkNotice? {
      NoticesKeep(t, op.notices);
    } else if op.Assign? || op.RequestPhysical? {
      AssignKeeps(t, op);
    } else if op.CreateVirtual? || op.StockInventory? || op.RequestForUser? {
      InsertOpKeeps(t, op);
    } else if op.Activate? || op.ScriptActivate? {
      ActivateOpKeeps(t, op);
    } else {
      LifecycleKeeps(t, op);
    }
  }

  // ---------- Runs ----------

  ghost predicate Run(tables: seq<Table>, ops: seq<Op>) {
    && |tables| == |ops| + 1
    && tables[0] == map[]
    && forall i {:trigger ops[i]} | 0 <= i < |ops| :: tables[i + 1] == Apply(tables[i], ops[i])
  }

  lemma {:induction false} AlwaysOk(tables: seq<Table>, ops: seq<Op>, i: nat)
    requires Run(tables, ops) && i < |tables|
    ensures TableOk(tables[i])
  {
    if i > 0 {
      AlwaysOk(tables, ops, i - 1);
      ApplyKeeps(tables[i - 1], ops[i - 1]);
    }
  }

  /** In every reachable table an ACTIVE or BLOCKED card has an owner and a prospera id. */
  lemma ActiveCardsAreUsable(tables: seq<Table>, ops: seq<Op>, i: nat, id: nat)
    requires Run(tables, ops) && i < |tables| && id in tables[i]
    requires tables[i][id].status == Active || tables[i][id].status == Blocked
    ensures tables[i][id].owner.Some? && tables[i][id].prosperaId.Some?
  {
    AlwaysOk(tables, ops, i);
  }

  /** A card passes from one user to another only through an unlink that retired it. */
  lemma {:induction false} ChangesHandsOnlyByUnlink(tables: seq<Table>, ops: seq<Op>, i: nat, j: nat, id: nat)
    requires Run(tables, ops) && i <= j < |tables| && id in tables[i] && tables[i][id].owner.Some?
    ensures id in tables[j]
    ensures tables[j][id].owner == tables[i][id].owner || exists k | i <= k < j :: Unlinks(tables[k], ops[k], tables[k + 1], id)
    decreases j
  {
    if i < j {
      ChangesHandsOnlyByUnlink(tables, ops, i, j - 1, id);
      AlwaysOk(tables, ops, j - 1);
      ApplyKeeps(tables[j - 1], ops[j - 1]);
      if tables[j - 1][id].owner == tables[i][id].owner && !NotTakenOver(tables[j - 1][id], tables[j][id]) {
        assert Unlinks(tables[j - 1], ops[j - 1], tables[j - 1 + 1], id);
      }
    }
  }

  // ---------- The debit lookup ----------

  /** The search for a user's ACTIVE card, in listing order. */
  function FirstActive(cards: seq<Card>): Option<Card> {
    if cards == [] then None
    else if cards[0].status == Active then Some(cards[0])
    else FirstActive(cards[1..])
  }

  /** The search finds a card exactly when one is ACTIVE, and then the first such card. */
  lemma {:induction false} FirstActiveFound(cards: seq<Card>)
    ensures FirstActive(cards).Some? <==> exists k | 0 <= k < |cards| :: cards[k].status == Active
    ensures FirstActive(cards).Some? ==>
              exists k | 0 <= k < |cards| ::
                FirstActive(cards) == Some(cards[k]) && cards[k].status == Active && forall j | 0 <= j < k :: cards[j].status != Active
  {
    if cards != [] && cards[0].status != Active {
      var rest := cards[1..];
      FirstActiveFound(rest);
      if FirstActive(rest).Some? {
        var k :| 0 <= k < |rest| && FirstActive(rest) == Some(rest[k]) && rest[k].status == Active
                 && forall j | 0 <= j < k :: rest[j].status != Active;
        assert cards[k + 1] == rest[k];
        assert forall j | 1 <= j < k + 1 :: cards[j] == rest[j - 1];
      } else {
        assert forall j | 1 <= j < |cards| :: cards[j] == rest[j - 1];
      }
    }
  }

  /** Whatever order the user's cards are listed in, the debit lookup fails only for want of an ACTIVE card. */
  lemma DebitLookupFindsProsperaId(tables: seq<Table>, ops: seq<Op>, i: nat, listing: seq<nat>)
    requires Run(tables, ops) && i < |tables| && forall k | 0 <= k < |listing| :: listing[k] in tables[i]
    ensures var cards := seq(|listing|, k requires 0 <= k < |listing| => tables[i][listing[k]]);
            && (FirstActive(cards).Some? <==> exists k | 0 <= k < |listing| :: tables[i][listing[k]].status == Active)
            && (FirstActive(cards).Some? ==> FirstActive(cards).value.prosperaId.Some?)
  {
    AlwaysOk(tables, ops, i);
    var cards := seq(|listing|, k requires 0 <= k < |listing| => tables[i][listing[k]]);
    FirstActiveFound(cards);
    if k :| 0 <= k < |listing| && tables[i][listing[k]].status == Active {
      assert cards[k].status == Active;
    }
  }

  // ---------- The service and its table ----------

  class CardTable {
    var cards: Table

    ghost predicate Valid()
      reads this
    {
      TableOk(cards)
    }

    constructor ()
      ensures Valid() && cards == map[]
    {
      cards := map[];
    }

    method ActivateCard(user: UserId, id: nat, hasWallet: bool, issued: Option<nat>) returns (ok: bool)
      requires Valid()
      modifies this
      ensures Valid() && cards == Apply(old(cards), Activate(user, id, hasWallet, issued))
      ensures ok ==> OwnedBy(cards, id, user) && cards[id].status == Active && cards[id].prosperaId == issued
      ensures !ok ==> cards == old(cards)
    {
      ApplyKeeps(cards, Activate(user, id, hasWallet, issued));
      ok := false;
      if id !in cards || cards[id].owner != Some(user) || !hasWallet || !cards[id].inBatch || issued.None? {
        return;
      }
      ok := ProsperaIdFree(cards, id, issued.value);
      if ok {
        cards := cards[id := cards[id].(prosperaId := issued, status := Active)];
      }
    }

    method StopCard(user: UserId, id: nat, accepted: bool) returns (ok: bool)
      requires Valid()
      modifies this
      ensures Valid() && cards == Apply(old(cards), Stop(user, id, accepted))
      ensures ok <==> OwnedBy(old(cards), id, user) && old(cards)[id].prosperaId.Some? && accepted
    {
      ApplyKeeps(cards, Stop(user, id, accepted));
      ok := id in cards && cards[id].owner == Some(user) && cards[id].prosperaId.Some? && accepted;
      if ok {
        cards := cards[id := cards[id].(status := Blocked)];
      }
    }

    method UnstopCard(user: UserId, id: nat, accepted: bool) returns (ok: bool)
      requires Valid()
      modifies this
      ensures Valid() && cards == Apply(old(cards), Unstop(user, id, accepted))
      ensures ok <==> OwnedBy(old(cards), id, user) && old(cards)[id].prosperaId.Some? && accepted
    {
      ApplyKeeps(cards, Unstop(user, id, accepted));
      ok := id in cards && cards[id].owner == Some(user) && cards[id].prosperaId.Some? && accepted;
      if ok {
        cards := cards[id := cards[id].(status := Active)];
      }
    }

    method CreateVirtualCard(user: UserId, newId: nat, identifier: string, issued: Option<nat>) returns (ok: bool)
      requires Valid()
      modifies this
      ensures Valid() && cards == Apply(old(cards), CreateVirtual(user, newId, identifier, issued))
      ensures ok ==> newId !in old(cards) && OwnedBy(cards, newId, user) && cards[newId].status == Active
    {
      ApplyKeeps(cards, CreateVirtual(user, newId, identifier, issued));
      var c := Card(identifier, Some(user), Virtual, Active, issued, false);
      ok := issued.Some? && CanInsert(cards, newId, c);
      if ok {
        cards := cards[newId := c];
      }
    }

    /** An inventory card is assigned before the delivery address is checked, so a rejected address keeps it assigned. */
    method RequestPhysicalCard(user: UserId, pick: nat, newId: nat, identifier: string, addressOk: bool, ordered: bool)
      returns (ok: bool)
      requires Valid()
      modifies this
      ensures Valid() && cards == Apply(old(cards), RequestPhysical(user, pick, newId, identifier, addressOk && ordered))
      ensures HasPhysical(old(cards), user) ==> !ok && cards == old(cards)
      ensures !ok && cards != old(cards) ==> !addressOk && pick in old(cards) && Available(old(cards)[pick]) && OwnedBy(cards, pick, user)
    {
      ApplyKeeps(cards, RequestPhysical(user, pick, newId, identifier, addressOk && ordered));
      ok := false;
      if HasPhysical(cards, user) {
        return;
      }
      if pick in cards && Available(cards[pick]) {
        cards := cards[pick := cards[pick].(owner := Some(user))];
        ok := addressOk;
      } else if NoneAvailable(cards) && addressOk && ordered {
        var c := Card(identifier, Some(user), Physical, Pending, None, true);
        ok := CanInsert(cards, newId, c);
        if ok {
          cards := cards[newId := c];
        }
      }
    }

    method AssignCard(user: UserId, identifier: string) returns (ok: bool)
      requires Valid()
      modifies this
      ensures Valid() && cards == Apply(old(cards), Assign(user, identifier))
      ensures ok <==> exists id :: id in old(cards) && old(cards)[id].identifier == identifier && old(cards)[id].owner == None
    {
      ApplyKeeps(cards, Assign(user, identifier));
      if IdentifierFree(cards, identifier) {
        return false;
      }
      var id :| id in cards && cards[id].identifier == identifier;
      ok := cards[id].owner.None?;
      if ok {
        cards := cards[id := cards[id].(owner := Some(user))];
      }
    }

    method UnlinkCard(user: UserId, id: nat, retired: bool) returns (ok: bool)
      requires Valid()
      modifies this
      ensures Valid() && cards == Apply(old(cards), Unlink(user, id, retired))
      ensures ok <==> Unlinks(old(cards), Unlink(user, id, retired), cards, id)
    {
      ApplyKeeps(cards, Unlink(user, id, retired));
      ok := id in cards && cards[id].owner == Some(user) && cards[id].prosperaId.Some? && retired;
      if ok {
        cards := cards[id := cards[id].(owner := None, status := Inactive)];
      }
    }

    /** The loop of the bulk-order webhook. */
    method HandleBulkOrderCardNotification(notices: seq<Notice>)
      requires Valid()
      modifies this
      ensures Valid() && cards == Apply(old(cards), BulkNotice(notices))
    {
      var i := 0;
      while i < |notices|
        invariant 0 <= i <= |notices|
        invariant Valid()
        invariant NoticesApplied(cards, notices[i..]) == NoticesApplied(old(cards), notices)
      {
        var n := notices[i];
        assert notices[i..][0] == n && notices[i..][1..] == notices[i + 1..];
        if n.cardId.GetOr(0) != 0 && !IdentifierFree(cards, n.identifier) {
          var id :| id in cards && cards[id].identifier == n.identifier;
          assert id == IdOf(cards, n.identifier);
          if !ProsperaIdFree(cards, id, n.cardId.value) {
            return;
          }
          NoticeKeeps(cards, n);
          cards := cards[id := cards[id].(prosperaId := n.cardId)];
        }
        i := i + 1;
      }
    }
  }
}
