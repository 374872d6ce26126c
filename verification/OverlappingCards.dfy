/**
 * The card requests with their awaits apart.  Each reads the card, waits, and writes by id without looking again:
 * stop, unstop, activate and unlink are checked by the route and once more by the service; assignments and requests
 * for a physical card look for one to give; the scripts list first and write later.
 */
module OverlappingCards {
  import opened Prelude
  import opened Cards

  /** What a request on one card writes once the backoffice has agreed. */
  datatype Job = Stopping | Unstopping | Activating | Unlinking

  /** `Checked` remembers the owner the request was let through for. */
  datatype Call =
    | Asked(user: UserId, id: nat, job: Job)
    | Admitted(user: UserId, id: nat, job: Job)
    | Checked(user: UserId, id: nat, job: Job)
    | Listing(id: nat)
    | Looking(user: UserId, identifier: string)
    | Requesting(user: UserId, identifier: string)
    | Eligible(user: UserId, identifier: string)
    | Surveying(user: UserId, identifier: string)
    | Seen(user: UserId, id: nat)
    | Inserting(card: Card)
    | Over

  datatype World = World(cards: Table, calls: map<nat, Call>)

  /**
   * `Go` is the next await of a request: refused, it ends the request; otherwise `pick` is the card a lookup answers
   * with, the id of a new row or the prospera id the backoffice issued.
   */
  datatype Event =
    | Begin(h: nat, c: Call)
    | Go(h: nat, ok: bool, pick: nat)
    | Other(op: Op)

  predicate Fresh(c: Call) {
    c.Asked? || c.Listing? || c.Looking? || c.Requesting? || c.Surveying?
  }

  /** The service's own check, after the route's. */
  predicate Passes(c: Card, job: Job) {
    match job
    case Stopping => c.prosperaId.Some?
    case Unstopping => c.prosperaId.Some?
    case Activating => c.owner.Some? && c.inBatch
    case Unlinking => c.owner.Some? && c.prosperaId.Some?
  }

  predicate Activatable(c: Card) {
    c.owner.Some? && c.kind == Physical && c.status == Inactive && c.inBatch
  }

  /** A request that only reads moves on or ends. */
  function Read(t: Table, c: Call, pick: nat): Call {
    match c
    case Asked(user, id, job) => if OwnedBy(t, id, user) then Admitted(user, id, job) else Over
    case Admitted(user, id, job) => if id in t && Passes(t[id], job) then Checked(user, id, job) else Over
    case Listing(id) => if id in t && Activatable(t[id]) then Checked(t[id].owner.value, id, Activating) else Over
    case Looking(user, identifier) =>
      if pick in t && t[pick].identifier == identifier && t[pick].owner == None then Seen(user, pick) else Over
    case Requesting(user, identifier) => if HasPhysical(t, user) then Over else Eligible(user, identifier)
    case Eligible(user, identifier) =>
      if pick in t && Available(t[pick]) then Seen(user, pick)
      else if NoneAvailable(t) then Inserting(Card(identifier, Some(user), Physical, Pending, None, true))
      else Over
    case Surveying(user, identifier) =>
      if OwnsPhysical(t, user) then Over else Inserting(Card(identifier, Some(user), Physical, Inactive, None, true))
    case _ => Over
  }

  function JobDone(t: Table, id: nat, job: Job, pick: nat): Table
    requires id in t
  {
    match job
    case Stopping => WithStatus(t, id, Blocked)
    case Unstopping => WithStatus(t, id, Active)
    case Activating => Activated(t, id, pick)
    case Unlinking => t[id := t[id].(owner := None, status := Inactive)]
  }

  function Written(t: Table, c: Call, pick: nat): Table {
    match c
    case Checked(_, id, job) => if id in t then JobDone(t, id, job, pick) else t
    case Seen(user, id) => if id in t then AssignedTo(t, id, user) else t
    case Inserting(card) => Inserted(t, pick, card)
    case _ => t
  }

  /** The operations that write without having looked at a card; a notification is any number of one-card notices. */
  predicate SingleWrite(op: Op) {
    op.CreateVirtual? || op.BulkNotice? || op.StockInventory?
  }

  ghost function Happen(w: World, e: Event): World {
    match e
    case Begin(h, c) => if h !in w.calls && Fresh(c) then w.(calls := w.calls[h := c]) else w
    case Go(h, ok, pick) =>
      if h !in w.calls then w
      else if !ok then w.(calls := w.calls[h := Over])
      else World(Written(w.cards, w.calls[h], pick), w.calls[h := Read(w.cards, w.calls[h], pick)])
    case Other(op) => if SingleWrite(op) then w.(cards := Apply(w.cards, op)) else w
  }

  ghost predicate IsRun(worlds: seq<World>, events: seq<Event>) {
    && |worlds| == |events| + 1
    && worlds[0] == World(map[], map[])
    && forall i {:trigger events[i]} | 0 <= i < |events| :: worlds[i + 1] == Happen(worlds[i], events[i])
  }

  // ---------- The writes ----------

  predicate Goes(w: World, e: Event) {
    e.Go? && e.ok && e.h in w.calls
  }

  predicate UnlinkWrite(w: World, e: Event, id: nat) {
    Goes(w, e) && w.calls[e.h].Checked? && w.calls[e.h].id == id && id in w.cards && w.calls[e.h].job == Unlinking
  }

  /** Stop, unstop or activate writes BLOCKED or ACTIVE; an activation may be refused by the index on prospera ids. */
  predicate StatusWrite(w: World, e: Event, id: nat) {
    && Goes(w, e) && w.calls[e.h].Checked? && w.calls[e.h].id == id && id in w.cards && w.calls[e.h].job != Unlinking
    && (w.calls[e.h].job == Activating ==> ProsperaIdFree(w.cards, id, e.pick))
  }

  predicate GiveWrite(w: World, e: Event, id: nat) {
    Goes(w, e) && w.calls[e.h].Seen? && w.calls[e.h].id == id && id in w.cards
  }

  predicate Shown(c: Card) {
    c.status == Active || c.status == Blocked
  }

  /** What an event does to a card that is there. */
  ghost predicate RowMoves(w: World, e: Event, id: nat, c: Card, c': Card) {
    && (c.prosperaId.Some? ==> c'.prosperaId.Some?)
    && if UnlinkWrite(w, e, id) then c'.owner == None && c'.status == Inactive
       else if StatusWrite(w, e, id) then c'.owner == c.owner && Shown(c') && (w.calls[e.h].job == Activating ==> c'.prosperaId.Some?)
       else if GiveWrite(w, e, id) then c'.owner == Some(w.calls[e.h].user) && c'.status == c.status
       else c'.owner == c.owner && c'.status == c.status
  }

  /** Same owner and status, and a prospera id stays one. */
  ghost predicate SameFace(c: Card, c': Card) {
    c'.owner == c.owner && c'.status == c.status && (c.prosperaId.Some? ==> c'.prosperaId.Some?)
  }

  lemma {:induction false} NoticesKeepFaces(t: Table, ns: seq<Notice>, id: nat)
    ensures id in NoticesApplied(t, ns) <==> id in t
    ensures id in t ==> SameFace(t[id], NoticesApplied(t, ns)[id])
  {
    if ns != [] && NoticeApplied(t, ns[0]).Some? {
      NoticesKeepFaces(NoticeApplied(t, ns[0]).value, ns[1..], id);
    }
  }

  lemma SingleWriteKeeps(t: Table, op: Op, id: nat)
    requires SingleWrite(op)
    ensures id in t ==> id in Apply(t, op) && SameFace(t[id], Apply(t, op)[id])
    ensures id !in t && id in Apply(t, op) ==> Usable(Apply(t, op)[id])
  {
    if op.BulkNotice? {
      NoticesKeepFaces(t, op.notices, id);
    }
  }

  /** One event on one card: rows stay, and a new row is usable. */
  lemma EventOnCard(w: World, e: Event, id: nat)
    ensures id in w.cards ==> id in Happen(w, e).cards && RowMoves(w, e, id, w.cards[id], Happen(w, e).cards[id])
    ensures id !in w.cards && id in Happen(w, e).cards && CallsOk(w) ==> Usable(Happen(w, e).cards[id])
  {
    if e.Other? && SingleWrite(e.op) {
      SingleWriteKeeps(w.cards, e.op, id);
    }
  }

  // ---------- What every interleaving keeps ----------

  ghost predicate CallOk(t: Table, c: Call) {
    match c
    case Admitted(_, id, _) => id in t
    case Checked(_, id, job) => id in t && (job == Stopping || job == Unstopping ==> t[id].prosperaId.Some?)
    case Seen(_, id) => id in t
    case Inserting(card) => !Shown(card)
    case _ => true
  }

  ghost predicate CallsOk(w: World) {
    forall h | h in w.calls :: CallOk(w.cards, w.calls[h])
  }

  ghost predicate IssuedAll(t: Table) {
    forall id | id in t && Shown(t[id]) :: t[id].prosperaId.Some?
  }

  lemma CallStays(w: World, e: Event, c: Call)
    requires CallOk(w.cards, c)
    ensures CallOk(Happen(w, e).cards, c)
  {
    if c.Admitted? || c.Checked? || c.Seen? {
      EventOnCard(w, e, c.id);
    }
  }

  lemma CallsStay(w: World, e: Event)
    requires CallsOk(w)
    ensures CallsOk(Happen(w, e))
  {
    var w' := Happen(w, e);
    forall h | h in w'.calls
      ensures CallOk(w'.cards, w'.calls[h])
    {
      if h in w.calls && w'.calls[h] == w.calls[h] {
        CallStays(w, e, w.calls[h]);
      } else if Goes(w, e) {
        CallStays(w, e, Read(w.cards, w.calls[h], e.pick));
      }
    }
  }

  lemma IssuedStays(w: World, e: Event)
    requires CallsOk(w) && IssuedAll(w.cards)
    ensures IssuedAll(Happen(w, e).cards)
  {
    forall id | id in Happen(w, e).cards && Shown(Happen(w, e).cards[id])
      ensures Happen(w, e).cards[id].prosperaId.Some?
    {
      EventOnCard(w, e, id);
      assert StatusWrite(w, e, id) ==> CallOk(w.cards, w.calls[e.h]);
    }
  }

  lemma {:induction false} AlwaysInOrder(worlds: seq<World>, events: seq<Event>, n: nat)
    requires IsRun(worlds, events) && n < |worlds|
    ensures CallsOk(worlds[n]) && IssuedAll(worlds[n].cards)
  {
    if n > 0 {
      AlwaysInOrder(worlds, events, n - 1);
      CallsStay(worlds[n - 1], events[n - 1]);
      IssuedStays(worlds[n - 1], events[n - 1]);
    }
  }

  /** Whatever the interleaving, an ACTIVE or BLOCKED card has a prospera id. */
  lemma StillIssued(worlds: seq<World>, events: seq<Event>, n: nat, id: nat)
    requires IsRun(worlds, events) && n < |worlds| && id in worlds[n].cards && Shown(worlds[n].cards[id])
    ensures worlds[n].cards[id].prosperaId.Some?
  {
    AlwaysInOrder(worlds, events, n);
  }

  // ---------- When a card stays usable ----------

  ghost predicate AllUsable(t: Table) {
    forall id | id in t :: Usable(t[id])
  }

  /** A status lands on a card without an owner. */
  predicate OrphanWrite(w: World, e: Event) {
    Goes(w, e) && w.calls[e.h].Checked? && StatusWrite(w, e, w.calls[e.h].id) && w.cards[w.calls[e.h].id].owner == None
  }

  lemma UsableKept(w: World, e: Event, id: nat)
    requires CallsOk(w) && AllUsable(w.cards) && !OrphanWrite(w, e) && id in Happen(w, e).cards
    ensures Usable(Happen(w, e).cards[id])
  {
    EventOnCard(w, e, id);
    assert StatusWrite(w, e, id) ==> CallOk(w.cards, w.calls[e.h]);
  }

  /** One event keeps all cards usable exactly when it is no orphan write. */
  lemma UsableKeptExactly(w: World, e: Event)
    requires CallsOk(w) && AllUsable(w.cards)
    ensures AllUsable(Happen(w, e).cards) <==> !OrphanWrite(w, e)
  {
    if OrphanWrite(w, e) {
      EventOnCard(w, e, w.calls[e.h].id);
    } else {
      forall id | id in Happen(w, e).cards
        ensures Usable(Happen(w, e).cards[id])
      {
        UsableKept(w, e, id);
      }
    }
  }

  /** The request was let through for this card and has not written yet. */
  predicate InFlight(w: World, h: nat, id: nat) {
    h in w.calls && (w.calls[h].Admitted? || w.calls[h].Checked?) && w.calls[h].id == id
  }

  ghost predicate OwnerlessFrom(worlds: seq<World>, j: nat, n: nat, id: nat)
    requires n < |worlds|
  {
    forall m | j <= m <= n :: id in worlds[m].cards && worlds[m].cards[id].owner == None
  }

  /** While the request was in flight an unlink took the card's owner, and nobody was given the card up to `n`. */
  ghost predicate UnlinkedSince(worlds: seq<World>, events: seq<Event>, n: nat, h: nat, id: nat)
    requires n < |worlds| == |events| + 1
  {
    exists j | 0 <= j < n :: InFlight(worlds[j], h, id) && UnlinkWrite(worlds[j], events[j], id) && OwnerlessFrom(worlds, j + 1, n, id)
  }

  /** A request enters its flight only while the card has an owner, and without touching a card. */
  lemma Enters(w: World, e: Event, h: nat, id: nat)
    requires InFlight(Happen(w, e), h, id) && !InFlight(w, h, id)
    ensures id in w.cards && w.cards[id].owner == Some(Happen(w, e).calls[h].user) && Happen(w, e).cards == w.cards
  {
  }

  lemma OwnerLost(w: World, e: Event, id: nat)
    requires id in w.cards && w.cards[id].owner.Some? && id in Happen(w, e).cards && Happen(w, e).cards[id].owner == None
    ensures UnlinkWrite(w, e, id)
  {
    EventOnCard(w, e, id);
  }

  lemma {:induction false} OwnerlessFlight(worlds: seq<World>, events: seq<Event>, n: nat, h: nat, id: nat)
    requires IsRun(worlds, events) && n < |worlds|
    requires InFlight(worlds[n], h, id) && id in worlds[n].cards && worlds[n].cards[id].owner == None
    ensures UnlinkedSince(worlds, events, n, h, id)
  {
    var w, e := worlds[n - 1], events[n - 1];
    if !InFlight(w, h, id) {
      Enters(w, e, h, id);
      assert false;
    }
    AlwaysInOrder(worlds, events, n - 1);
    assert CallOk(w.cards, w.calls[h]);
    if w.cards[id].owner == None {
      OwnerlessFlight(worlds, events, n - 1, h, id);
      var j :| 0 <= j < n - 1 && InFlight(worlds[j], h, id) && UnlinkWrite(worlds[j], events[j], id) && OwnerlessFrom(worlds, j + 1, n - 1, id);
      assert OwnerlessFrom(worlds, j + 1, n, id);
    } else {
      OwnerLost(w, e, id);
      assert OwnerlessFrom(worlds, n - 1 + 1, n, id);
    }
  }

  /** Step `k` writes a status on a card whose owner an unlink took after the request was let through, with nobody given it since. */
  ghost predicate LateStatus(worlds: seq<World>, events: seq<Event>, k: nat)
    requires k < |events| < |worlds| == |events| + 1
  {
    var w, e := worlds[k], events[k];
    Goes(w, e) && w.calls[e.h].Checked? && StatusWrite(w, e, w.calls[e.h].id) && UnlinkedSince(worlds, events, k, e.h, w.calls[e.h].id)
  }

  lemma OrphanedByUnlink(worlds: seq<World>, events: seq<Event>, k: nat)
    requires IsRun(worlds, events) && k < |events|
    ensures OrphanWrite(worlds[k], events[k]) <==> LateStatus(worlds, events, k)
  {
    if OrphanWrite(worlds[k], events[k]) {
      OwnerlessFlight(worlds, events, k, events[k].h, worlds[k].calls[events[k].h].id);
    }
  }

  ghost predicate UsableUpTo(worlds: seq<World>, n: nat)
    requires n < |worlds|
  {
    forall j | 0 <= j <= n :: AllUsable(worlds[j].cards)
  }

  ghost predicate NoLateStatus(worlds: seq<World>, events: seq<Event>, n: nat)
    requires n <= |events| && |worlds| == |events| + 1
  {
    forall k | 0 <= k < n :: !LateStatus(worlds, events, k)
  }

  lemma UsableStep(worlds: seq<World>, events: seq<Event>, k: nat)
    requires IsRun(worlds, events) && k < |events| && AllUsable(worlds[k].cards)
    ensures AllUsable(worlds[k + 1].cards) <==> !LateStatus(worlds, events, k)
  {
    AlwaysInOrder(worlds, events, k);
    UsableKeptExactly(worlds[k], events[k]);
    OrphanedByUnlink(worlds, events, k);
  }

  lemma {:induction false} NoneLate(worlds: seq<World>, events: seq<Event>, n: nat)
    requires IsRun(worlds, events) && n < |worlds| && NoLateStatus(worlds, events, n)
    ensures AllUsable(worlds[n].cards)
  {
    if n > 0 {
      NoneLate(worlds, events, n - 1);
      UsableStep(worlds, events, n - 1);
    }
  }

  /** Over a whole run, with any interleaving, every ACTIVE or BLOCKED card stayed usable if and only if no status was written late. */
  lemma UsableExactly(worlds: seq<World>, events: seq<Event>, n: nat)
    requires IsRun(worlds, events) && n < |worlds|
    ensures UsableUpTo(worlds, n) <==> NoLateStatus(worlds, events, n)
  {
    if NoLateStatus(worlds, events, n) {
      forall j | 0 <= j <= n
        ensures AllUsable(worlds[j].cards)
      {
        NoneLate(worlds, events, j);
      }
    } else {
      var k :| 0 <= k < n && LateStatus(worlds, events, k);
      if UsableUpTo(worlds, n) {
        UsableStep(worlds, events, k);
      }
    }
  }

  // ---------- When a card changes hands ----------

  /** The unlink of the owner it takes the card from. */
  predicate OwnUnlink(w: World, e: Event, id: nat) {
    UnlinkWrite(w, e, id) && w.cards[id].owner == Some(w.calls[e.h].user)
  }

  /** An unlink that takes the card from somebody it was not let through for. */
  predicate StaleUnlink(w: World, e: Event, id: nat) {
    UnlinkWrite(w, e, id) && w.cards[id].owner.Some? && w.cards[id].owner != Some(w.calls[e.h].user)
  }

  /** A request writes its user over another owner, given after the request looked. */
  predicate StaleGive(w: World, e: Event, id: nat) {
    GiveWrite(w, e, id) && w.cards[id].owner.Some? && w.cards[id].owner != Some(w.calls[e.h].user)
  }

  predicate TakenAway(w: World, e: Event, id: nat) {
    OwnUnlink(w, e, id) || StaleUnlink(w, e, id) || StaleGive(w, e, id)
  }

  lemma OwnerStep(worlds: seq<World>, events: seq<Event>, k: nat, id: nat)
    requires IsRun(worlds, events) && k < |events| && id in worlds[k].cards
    ensures id in worlds[k + 1].cards
    ensures worlds[k].cards[id].owner.Some? ==> (worlds[k + 1].cards[id].owner == worlds[k].cards[id].owner <==> !TakenAway(worlds[k], events[k], id))
  {
    EventOnCard(worlds[k], events[k], id);
  }

  ghost predicate KeptThrough(worlds: seq<World>, i: nat, j: nat, id: nat)
    requires i <= j < |worlds| && id in worlds[i].cards
  {
    forall m | i <= m <= j :: id in worlds[m].cards && worlds[m].cards[id].owner == worlds[i].cards[id].owner
  }

  ghost predicate NeverTaken(worlds: seq<World>, events: seq<Event>, i: nat, j: nat, id: nat)
    requires j <= |events| < |worlds|
  {
    forall k {:trigger events[k]} | i <= k < j :: !TakenAway(worlds[k], events[k], id)
  }

  /**
   * Under any interleaving an owner kept the card from `i` to `j` if and only if, in between, there was no unlink of
   * theirs, no unlink let through for an earlier owner and no gift to somebody who looked before they had it.
   */
  lemma {:induction false} KeptExactly(worlds: seq<World>, events: seq<Event>, i: nat, j: nat, id: nat)
    requires IsRun(worlds, events) && i <= j < |worlds| && id in worlds[i].cards && worlds[i].cards[id].owner.Some?
    ensures KeptThrough(worlds, i, j, id) <==> NeverTaken(worlds, events, i, j, id)
    decreases j
  {
    if i < j {
      KeptExactly(worlds, events, i, j - 1, id);
      if KeptThrough(worlds, i, j - 1, id) {
        OwnerStep(worlds, events, j - 1, id);
      }
    }
  }

  /** If the card of a request in flight is no longer the user's it was let through for, a write took it meanwhile. */
  lemma {:induction false} LostInFlight(worlds: seq<World>, events: seq<Event>, n: nat, h: nat, id: nat)
    requires IsRun(worlds, events) && n < |worlds| && InFlight(worlds[n], h, id) && id in worlds[n].cards
    requires worlds[n].cards[id].owner != Some(worlds[n].calls[h].user)
    ensures exists j | 0 <= j < n :: InFlight(worlds[j], h, id) && TakenAway(worlds[j], events[j], id)
  {
    if !InFlight(worlds[n - 1], h, id) {
      Enters(worlds[n - 1], events[n - 1], h, id);
      assert false;
    }
    AlwaysInOrder(worlds, events, n - 1);
    assert CallOk(worlds[n - 1].cards, worlds[n - 1].calls[h]);
    OwnerStep(worlds, events, n - 1, id);
    if worlds[n - 1].cards[id].owner != Some(worlds[n - 1].calls[h].user) {
      LostInFlight(worlds, events, n - 1, h, id);
    }
  }

  // ---------- Runs that fail ----------

  lemma Extend(worlds: seq<World>, events: seq<Event>, e: Event, w: World) returns (worlds': seq<World>, events': seq<Event>)
    requires IsRun(worlds, events) && Happen(worlds[|events|], e) == w
    ensures IsRun(worlds', events') && events' == events + [e] && worlds' == worlds + [w]
  {
    worlds', events' := worlds + [w], events + [e];
  }

  /** After any run in which a status request and an unlink of one card are both about to write, the card can end ACTIVE or BLOCKED with no owner. */
  lemma CanOutliveUnlink(worlds: seq<World>, events: seq<Event>, g: nat, h: nat, id: nat, pick: nat)
    returns (worlds': seq<World>, events': seq<Event>)
    requires IsRun(worlds, events) && {g, h} <= worlds[|events|].calls.Keys
    requires var calls := worlds[|events|].calls;
             && calls[g].Checked? && calls[g].id == id && calls[g].job == Unlinking
             && calls[h].Checked? && calls[h].id == id && calls[h].job != Unlinking
             && (calls[h].job == Activating ==> ProsperaIdFree(worlds[|events|].cards, id, pick))
    ensures IsRun(worlds', events') && events' == events + [Go(g, true, 0), Go(h, true, pick)] && worlds <= worlds'
    ensures var c := worlds'[|events'|].cards; id in c && Shown(c[id]) && c[id].owner == None
    ensures LateStatus(worlds', events', |events| + 1)
  {
    var n, w := |events|, worlds[|events|];
    AlwaysInOrder(worlds, events, n);
    assert CallOk(w.cards, w.calls[g]) && CallOk(w.cards, w.calls[h]);
    var w1 := Happen(w, Go(g, true, 0));
    var w2 := Happen(w1, Go(h, true, pick));
    EventOnCard(w, Go(g, true, 0), id);
    EventOnCard(w1, Go(h, true, pick), id);
    worlds', events' := Extend(worlds, events, Go(g, true, 0), w1);
    worlds', events' := Extend(worlds', events', Go(h, true, pick), w2);
    assert worlds'[n + 1] == w1 && events'[n + 1] == Go(h, true, pick) && OrphanWrite(w1, events'[n + 1]);
    OrphanedByUnlink(worlds', events', n + 1);
  }

  /** After any run a new assignment of an ownerless card can come to the point where it is about to write. */
  lemma Sees(worlds: seq<World>, events: seq<Event>, h: nat, u: UserId, id: nat) returns (worlds': seq<World>, events': seq<Event>)
    requires IsRun(worlds, events) && id in worlds[|events|].cards && worlds[|events|].cards[id].owner == None && h !in worlds[|events|].calls
    ensures IsRun(worlds', events') && events' == events + [Begin(h, Looking(u, worlds[|events|].cards[id].identifier)), Go(h, true, id)]
    ensures worlds'[|events'|] == worlds[|events|].(calls := worlds[|events|].calls[h := Seen(u, id)])
  {
    var t, calls := worlds[|events|].cards, worlds[|events|].calls;
    worlds', events' := Extend(worlds, events, Begin(h, Looking(u, t[id].identifier)), World(t, calls[h := Looking(u, t[id].identifier)]));
    worlds', events' := Extend(worlds', events', Go(h, true, id), World(t, calls[h := Seen(u, id)]));
  }

  ghost predicate Linked(w: World, u: UserId, id: nat) {
    OwnedBy(w.cards, id, u) && w.cards[id].prosperaId.Some?
  }

  /** After any run a new request by the owner of an issued card can come to the point where it is about to write. */
  lemma LetThrough(worlds: seq<World>, events: seq<Event>, h: nat, u: UserId, id: nat, job: Job)
    returns (worlds': seq<World>, events': seq<Event>)
    requires IsRun(worlds, events) && Linked(worlds[|events|], u, id) && h !in worlds[|events|].calls && job != Activating
    ensures IsRun(worlds', events') && events' == events + [Begin(h, Asked(u, id, job)), Go(h, true, 0), Go(h, true, 0)]
    ensures worlds'[|events'|] == worlds[|events|].(calls := worlds[|events|].calls[h := Checked(u, id, job)])
  {
    var t, calls := worlds[|events|].cards, worlds[|events|].calls;
    worlds', events' := Extend(worlds, events, Begin(h, Asked(u, id, job)), World(t, calls[h := Asked(u, id, job)]));
    worlds', events' := Extend(worlds', events', Go(h, true, 0), World(t, calls[h := Admitted(u, id, job)]));
    worlds', events' := Extend(worlds', events', Go(h, true, 0), World(t, calls[h := Checked(u, id, job)]));
  }

  /** After any run with an issued card of some user, a stop or unstop of theirs can outlive an unlink of theirs. */
  lemma CanBeOrphaned(worlds: seq<World>, events: seq<Event>, g: nat, h: nat, u: UserId, id: nat, job: Job)
    returns (worlds': seq<World>, events': seq<Event>)
    requires IsRun(worlds, events) && Linked(worlds[|events|], u, id) && (job == Stopping || job == Unstopping)
    requires g != h && g !in worlds[|events|].calls && h !in worlds[|events|].calls
    ensures IsRun(worlds', events') && events <= events' && |events'| == |events| + 8 && LateStatus(worlds', events', |events'| - 1)
    ensures var c := worlds'[|events'|].cards; id in c && Shown(c[id]) && c[id].owner == None
  {
    worlds', events' := LetThrough(worlds, events, h, u, id, job);
    worlds', events' := LetThrough(worlds', events', g, u, id, Unlinking);
    worlds', events' := CanOutliveUnlink(worlds', events', g, h, id, 0);
  }

  function Own(u: UserId, pid: nat): Card {
    Card("a", Some(u), Virtual, Active, Some(pid), false)
  }

  lemma Issued(u: UserId, pid: nat) returns (worlds: seq<World>, events: seq<Event>)
    ensures IsRun(worlds, events) && events == [Other(CreateVirtual(u, 0, "a", Some(pid)))] && worlds[1] == World(map[0 := Own(u, pid)], map[])
  {
    worlds, events := Extend([World(map[], map[])], [], Other(CreateVirtual(u, 0, "a", Some(pid))), World(map[0 := Own(u, pid)], map[]));
  }

  /** From nothing: a card is issued, a stop of it is checked, an unlink goes through, and the stop then writes on a card that is nobody's. */
  lemma StopOutlivesUnlink(u: UserId, pid: nat, job: Job) returns (worlds: seq<World>, events: seq<Event>)
    requires job == Stopping || job == Unstopping
    ensures IsRun(worlds, events) && |events| == 9 && LateStatus(worlds, events, 8)
    ensures 0 in worlds[9].cards && Shown(worlds[9].cards[0]) && worlds[9].cards[0].owner == None
  {
    worlds, events := Issued(u, pid);
    worlds, events := CanBeOrphaned(worlds, events, 1, 0, u, 0, job);
  }

  /** Every request begun on an existing card is this user's. */
  ghost predicate AskedOnlyBy(events: seq<Event>, u: UserId) {
    forall k | 0 <= k < |events| && events[k].Begin? && events[k].c.Asked? :: events[k].c.user == u
  }

  lemma BothUnlink(u: UserId, pid: nat) returns (worlds: seq<World>, events: seq<Event>)
    ensures IsRun(worlds, events) && |events| == 8 && AskedOnlyBy(events, u)
    ensures worlds[8] == World(map[0 := Own(u, pid).(owner := None, status := Inactive)], map[0 := Over, 1 := Checked(u, 0, Unlinking)])
  {
    worlds, events := Issued(u, pid);
    worlds, events := LetThrough(worlds, events, 0, u, 0, Unlinking);
    worlds, events := LetThrough(worlds, events, 1, u, 0, Unlinking);
    worlds, events := Extend(worlds, events, Go(0, true, 0), Happen(worlds[7], Go(0, true, 0)));
  }

  /** Two unlinks by one user side by side, and an assignment between their writes: the second takes the card from its new owner. */
  lemma UnlinkTakesFromNewOwner(u: UserId, v: UserId, pid: nat) returns (worlds: seq<World>, events: seq<Event>)
    requires u != v
    ensures IsRun(worlds, events) && |events| == 12 && AskedOnlyBy(events, u)
    ensures 0 in worlds[11].cards && worlds[11].cards[0].owner == Some(v) && StaleUnlink(worlds[11], events[11], 0)
    ensures 0 in worlds[12].cards && worlds[12].cards[0].owner == None
  {
    worlds, events := BothUnlink(u, pid);
    worlds, events := Sees(worlds, events, 2, v, 0);
    worlds, events := Extend(worlds, events, Go(2, true, 0), Happen(worlds[10], Go(2, true, 0)));
    worlds, events := Extend(worlds, events, Go(1, true, 0), Happen(worlds[11], Go(1, true, 0)));
  }

  ghost predicate NoUnlink(events: seq<Event>) {
    forall k | 0 <= k < |events| && events[k].Begin? && events[k].c.Asked? :: events[k].c.job != Unlinking
  }

  lemma BothSee(u: UserId, v: UserId) returns (worlds: seq<World>, events: seq<Event>)
    ensures IsRun(worlds, events) && |events| == 5 && NoUnlink(events)
    ensures worlds[5] == World(map[0 := Card("a", None, Physical, Inactive, None, true)], map[0 := Seen(u, 0), 1 := Seen(v, 0)])
  {
    var spare := Card("a", None, Physical, Inactive, None, true);
    worlds, events := Extend([World(map[], map[])], [], Other(StockInventory(0, "a")), World(map[0 := spare], map[]));
    worlds, events := Sees(worlds, events, 0, u, 0);
    worlds, events := Sees(worlds, events, 1, v, 0);
  }

  /** Two assignments that look side by side: the card is first one user's and then the other's, with no unlink. */
  lemma TwoAssignmentsSideBySide(u: UserId, v: UserId) returns (worlds: seq<World>, events: seq<Event>)
    ensures IsRun(worlds, events) && |events| == 7 && NoUnlink(events)
    ensures 0 in worlds[6].cards && worlds[6].cards[0].owner == Some(u)
    ensures 0 in worlds[7].cards && worlds[7].cards[0].owner == Some(v)
  {
    worlds, events := BothSee(u, v);
    worlds, events := Extend(worlds, events, Go(0, true, 0), Happen(worlds[5], Go(0, true, 0)));
    worlds, events := Extend(worlds, events, Go(1, true, 0), Happen(worlds[6], Go(1, true, 0)));
  }

  /** After any run a new request by a user without a card can find any available one and be about to write. */
  lemma FindsCard(worlds: seq<World>, events: seq<Event>, h: nat, u: UserId, id: nat) returns (worlds': seq<World>, events': seq<Event>)
    requires IsRun(worlds, events) && h !in worlds[|events|].calls && !HasPhysical(worlds[|events|].cards, u)
    requires id in worlds[|events|].cards && Available(worlds[|events|].cards[id])
    ensures IsRun(worlds', events') && |events'| == |events| + 3
    ensures worlds'[|events'|] == worlds[|events|].(calls := worlds[|events|].calls[h := Seen(u, id)])
  {
    var t, calls := worlds[|events|].cards, worlds[|events|].calls;
    worlds', events' := Extend(worlds, events, Begin(h, Requesting(u, "b")), World(t, calls[h := Requesting(u, "b")]));
    worlds', events' := Extend(worlds', events', Go(h, true, id), World(t, calls[h := Eligible(u, "b")]));
    worlds', events' := Extend(worlds', events', Go(h, true, id), World(t, calls[h := Seen(u, id)]));
  }

  /** Two requests by one user without a card, side by side, give them two physical cards; after any run with two cards in stock. */
  lemma TwoCardsSideBySide(worlds: seq<World>, events: seq<Event>, g: nat, h: nat, u: UserId, i: nat, j: nat)
    returns (worlds': seq<World>, events': seq<Event>)
    requires IsRun(worlds, events) && g != h && g !in worlds[|events|].calls && h !in worlds[|events|].calls
    requires var t := worlds[|events|].cards; i != j && i in t && j in t && Available(t[i]) && Available(t[j]) && !HasPhysical(t, u)
    ensures IsRun(worlds', events') && |events'| == |events| + 8
    ensures var t := worlds'[|events'|].cards; OwnedBy(t, i, u) && OwnedBy(t, j, u) && t[i].kind == Physical && t[j].kind == Physical
  {
    worlds', events' := FindsCard(worlds, events, g, u, i);
    worlds', events' := FindsCard(worlds', events', h, u, j);
    worlds', events' := Extend(worlds', events', Go(g, true, 0), Happen(worlds'[|events'|], Go(g, true, 0)));
    worlds', events' := Extend(worlds', events', Go(h, true, 0), Happen(worlds'[|events'|], Go(h, true, 0)));
  }
}
