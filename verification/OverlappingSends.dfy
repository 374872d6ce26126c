/**
 * What a send does to other users when tokens move while it waits: `sendToUser` switches a dead token off by its
 * text, whoever has registered it since the listing.
 */
module OverlappingSends {
  import opened Prelude
  import opened PushRegistry
  import opened OverlappingTokens

  /** A send for this user listed the token and has not dealt with it yet. */
  predicate Pending(w: World, h: nat, user: nat, token: string) {
    && h in w.calls
    && match w.calls[h]
       case Sending(u, tokens) => u == user && token in tokens
       case Retiring(u, dead, rest) => u == user && (token == dead || token in rest)
       case _ => false
  }

  /** The token is on a row of somebody else. */
  predicate Elsewhere(t: Devices, token: string, user: nat) {
    exists id | id in t :: t[id].token == token && t[id].userId != user
  }

  predicate RetireWrite(w: World, e: Event) {
    e.Go? && e.h in w.calls && w.calls[e.h].Retiring?
  }

  /** A user other than the one the send is for loses an active row. */
  ghost predicate Hurts(w: World, e: Event) {
    RetireWrite(w, e) && exists v | v != w.calls[e.h].user :: ActiveIds(Happen(w, e).devices, v) != ActiveIds(w.devices, v)
  }

  /** The token about to be switched off is on an active row of somebody else. */
  predicate Misplaced(w: World, e: Event) {
    && RetireWrite(w, e)
    && exists id | id in w.devices :: w.devices[id].token == w.calls[e.h].token && w.devices[id].userId != w.calls[e.h].user && w.devices[id].active
  }

  /** One step: a send costs another user a row exactly when the token is on an active row of theirs. */
  lemma HurtsExactly(w: World, e: Event)
    requires TokensUnique(w.devices)
    ensures Hurts(w, e) <==> Misplaced(w, e)
  {
    if RetireWrite(w, e) && HasToken(w.devices, w.calls[e.h].token) {
      var t, id := w.devices, ByToken(w.devices, w.calls[e.h].token);
      var v := t[id].userId;
      assert Happen(w, e).devices == t[id := t[id].(active := false)];
      assert ActiveIds(Happen(w, e).devices, v) == ActiveIds(t, v) - {id};
      assert forall u | u != v :: ActiveIds(Happen(w, e).devices, u) == ActiveIds(t, u);
      assert t[id].active <==> id in ActiveIds(t, v);
    }
  }

  // ---------- How the token got there ----------

  /** A registration writes the token for somebody else. */
  ghost predicate Claims(w: World, e: Event, token: string, user: nat) {
    && e.Go? && e.h in w.calls && (w.calls[e.h].Known? || w.calls[e.h].Unknown?) && WriteOf(w.devices, w.calls[e.h], e.id).Write?
    && w.calls[e.h].r.token == token && w.calls[e.h].r.userId != user
  }

  lemma MovesOnlyByClaim(w: World, e: Event, token: string, user: nat)
    requires !Elsewhere(w.devices, token, user) && Elsewhere(Happen(w, e).devices, token, user)
    ensures Claims(w, e, token, user)
  {
    var t' := Happen(w, e).devices;
    var id :| id in t' && t'[id].token == token && t'[id].userId != user;
    var write := WriteOf(w.devices, w.calls[e.h], e.id);
    assert write.id == id;
  }

  /** A token becomes pending by a listing, while it is on a row of the user. */
  lemma BecomesPending(w: World, e: Event, h: nat, user: nat, token: string)
    requires TokensUnique(w.devices) && Pending(Happen(w, e), h, user, token) && !Pending(w, h, user, token)
    ensures Happen(w, e).devices == w.devices && !Elsewhere(w.devices, token, user)
  {
    assert e.Finds? && e.h == h;
    var ids := e.ids;
    var k :| 0 <= k < |ids| && TokensOf(w.devices, ids)[k] == token;
    assert ids[k] in ActiveIds(w.devices, user);
  }

  ghost predicate ElsewhereFrom(worlds: seq<World>, j: nat, n: nat, token: string, user: nat)
    requires n < |worlds|
  {
    forall m | j <= m <= n :: Elsewhere(worlds[m].devices, token, user)
  }

  /** While the send had the token pending somebody else registered it, and it was not the user's again up to `n`. */
  ghost predicate ClaimedSince(worlds: seq<World>, events: seq<Event>, n: nat, h: nat, token: string, user: nat)
    requires n < |worlds| == |events| + 1
  {
    exists j | 0 <= j < n ::
      Pending(worlds[j], h, user, token) && Claims(worlds[j], events[j], token, user) && ElsewhereFrom(worlds, j + 1, n, token, user)
  }

  lemma {:induction false} PendingElsewhere(worlds: seq<World>, events: seq<Event>, n: nat, h: nat, token: string, user: nat)
    requires IsRun(worlds, events) && n < |worlds| && Pending(worlds[n], h, user, token) && Elsewhere(worlds[n].devices, token, user)
    ensures ClaimedSince(worlds, events, n, h, token, user)
  {
    var w, e := worlds[n - 1], events[n - 1];
    TokensAlwaysUnique(worlds, events, n - 1);
    if !Pending(w, h, user, token) {
      BecomesPending(w, e, h, user, token);
      assert false;
    }
    if Elsewhere(w.devices, token, user) {
      PendingElsewhere(worlds, events, n - 1, h, token, user);
      var j :| 0 <= j < n - 1 && Pending(worlds[j], h, user, token) && Claims(worlds[j], events[j], token, user)
               && ElsewhereFrom(worlds, j + 1, n - 1, token, user);
      assert ElsewhereFrom(worlds, j + 1, n, token, user);
    } else {
      MovesOnlyByClaim(w, e, token, user);
      assert ElsewhereFrom(worlds, n - 1 + 1, n, token, user);
    }
  }

  /** Step `k` switches off an active row whose token somebody else registered after the send had listed it. */
  ghost predicate LateRetire(worlds: seq<World>, events: seq<Event>, k: nat)
    requires k < |events| && |worlds| == |events| + 1
  {
    var w, e := worlds[k], events[k];
    Misplaced(w, e) && ClaimedSince(worlds, events, k, e.h, w.calls[e.h].token, w.calls[e.h].user)
  }

  /** In every run, a send costs another user a row if and only if that row got the token after the send had listed it. */
  lemma OthersLoseExactly(worlds: seq<World>, events: seq<Event>, k: nat)
    requires IsRun(worlds, events) && k < |events|
    ensures Hurts(worlds[k], events[k]) <==> LateRetire(worlds, events, k)
  {
    TokensAlwaysUnique(worlds, events, k);
    HurtsExactly(worlds[k], events[k]);
    if Misplaced(worlds[k], events[k]) {
      var c := worlds[k].calls[events[k].h];
      PendingElsewhere(worlds, events, k, events[k].h, c.token, c.user);
    }
  }

  // ---------- A run in which another user loses a row ----------

  const DEAD: SendOutcome := Rejected(Some("messaging/registration-token-not-registered"))

  /** One user's token is registered, listed by a send to them, and answered dead. */
  lemma AnsweredDead(r: Registration) returns (worlds: seq<World>, events: seq<Event>)
    requires r.deviceId == None
    ensures IsRun(worlds, events) && |events| == 6
    ensures worlds[6] == World(map[0 := Created(r)], map[0 := Over, 1 := Retiring(r.userId, r.token, [])])
  {
    worlds, events := Registered(r);
    var t := worlds[3].devices;
    worlds, events := Extend(worlds, events, BeginSend(1, r.userId), World(t, map[0 := Over, 1 := Notifying(r.userId)]));
    ListsOne(t, r);
    worlds, events := Extend(worlds, events, Finds(1, [0]), World(t, map[0 := Over, 1 := Sending(r.userId, [r.token])]));
    assert [r.token][1..] == [];
    worlds, events := Extend(worlds, events, Answers(1, DEAD), World(t, map[0 := Over, 1 := Retiring(r.userId, r.token, [])]));
  }

  lemma Registered(r: Registration) returns (worlds: seq<World>, events: seq<Event>)
    requires r.deviceId == None
    ensures IsRun(worlds, events) && |events| == 3 && worlds[3] == World(map[0 := Created(r)], map[0 := Over])
  {
    worlds, events := Extend([World(map[], map[])], [], Begin(0, r), World(map[], map[0 := Asked(r)]));
    worlds, events := Extend(worlds, events, Go(0, 0), World(map[], map[0 := Unknown(r)]));
    FirstWrite(r, map[0 := Unknown(r)]);
    worlds, events := Extend(worlds, events, Go(0, 0), World(map[0 := Created(r)], map[0 := Over]));
  }

  lemma ListsOne(t: Devices, r: Registration)
    requires t == map[0 := Created(r)]
    ensures Lists(t, r.userId, [0]) && TokensOf(t, [0]) == [r.token]
  {
    assert ActiveIds(t, r.userId) == {0};
    assert [0][0] == 0;
  }

  /** The token is registered to another user after the answer and before the write: that user's row is switched off. */
  lemma AnotherUserLoses(r: Registration, q: Registration) returns (worlds: seq<World>, events: seq<Event>)
    requires r.deviceId == None && q.deviceId == None && q.token == r.token && q.userId != r.userId
    ensures IsRun(worlds, events) && |events| == 10 && Hurts(worlds[9], events[9])
    ensures ActiveIds(worlds[9].devices, q.userId) == {0} && ActiveIds(worlds[10].devices, q.userId) == {}
  {
    worlds, events := AnsweredDead(r);
    var t, calls := worlds[6].devices, worlds[6].calls;
    worlds, events := Extend(worlds, events, Begin(2, q), World(t, calls[2 := Asked(q)]));
    worlds, events := Extend(worlds, events, Go(2, 0), World(t, calls[2 := Unknown(q)]));
    ClaimWrite(r, q, t);
    worlds, events := Extend(worlds, events, Go(2, 0), World(t[0 := Claimed(t[0], q)], calls[2 := Over]));
    TakesRow(worlds[9], r.userId, q.userId, r.token);
    worlds, events := Extend(worlds, events, Go(1, 0), Happen(worlds[9], Go(1, 0)));
  }

  lemma TakesRow(w: World, user: nat, other: nat, token: string)
    requires w.devices.Keys == {0} && w.devices[0].token == token && w.devices[0].userId == other && w.devices[0].active
    requires 1 in w.calls && w.calls[1] == Retiring(user, token, []) && other != user
    ensures Hurts(w, Go(1, 0)) && ActiveIds(w.devices, other) == {0} && ActiveIds(Happen(w, Go(1, 0)).devices, other) == {}
  {
    var t := w.devices;
    assert 0 in t && HasToken(t, token) && ByToken(t, token) == 0;
    assert Happen(w, Go(1, 0)).devices == t[0 := t[0].(active := false)];
    assert TokensUnique(t) && Misplaced(w, Go(1, 0));
    HurtsExactly(w, Go(1, 0));
  }

  lemma ClaimWrite(r: Registration, q: Registration, t: Devices)
    requires t == map[0 := Created(r)] && r.deviceId == None && q.deviceId == None && q.token == r.token
    ensures WriteOf(t, Unknown(q), 0) == Write(0, Claimed(t[0], q))
  {
    assert HasToken(t, q.token) by { assert t[0].token == q.token; }
  }
}
