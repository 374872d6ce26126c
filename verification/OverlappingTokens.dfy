/**
 * `upsertDeviceToken` and `sendToUser` with their awaits apart.  A registration looks up its device first and writes
 * later; only tokens and (user, device) pairs are guarded by indexes, so device ids depend on the lookup still being
 * true.  A send lists the user's tokens first and switches off the dead ones, by token, as the answers come.
 */
module OverlappingTokens {
  import opened PushRegistry

  /**
   * A registration about to look up its device, to write over the row it found, or to upsert by token; a send about
   * to list, to offer its next token, or to switch a dead one off.
   */
  datatype Call =
    | Asked(r: Registration)
    | Known(r: Registration, id: nat)
    | Unknown(r: Registration)
    | Notifying(user: nat)
    | Sending(user: nat, tokens: seq<string>)
    | Retiring(user: nat, token: string, rest: seq<string>)
    | Over

  datatype World = World(devices: Devices, calls: map<nat, Call>)

  /** `id` is the row a lookup answers with, or the id a new row gets. */
  datatype Event =
    | Begin(h: nat, r: Registration)
    | Go(h: nat, id: nat)
    | BeginSend(h: nat, user: nat)
    | Finds(h: nat, ids: seq<nat>)
    | Answers(h: nat, outcome: SendOutcome)

  /** The tokens of the rows found, in the order found. */
  ghost function TokensOf(t: Devices, ids: seq<nat>): seq<string>
    requires forall k | 0 <= k < |ids| :: ids[k] in t
  {
    seq(|ids|, k requires 0 <= k < |ids| => t[ids[k]].token)
  }

  ghost function Listed(t: Devices, c: Call, ids: seq<nat>): Call {
    if c.Notifying? && Lists(t, c.user, ids) && (forall k | 0 <= k < |ids| :: ids[k] in t) then Sending(c.user, TokensOf(t, ids)) else c
  }

  function Answered(c: Call, outcome: SendOutcome): Call {
    if !c.Sending? || c.tokens == [] then c
    else if IsDead(outcome) then Retiring(c.user, c.tokens[0], c.tokens[1..])
    else Sending(c.user, c.tokens[1..])
  }

  /** Switching a token off that no row has any more throws, and ends the send. */
  ghost function RetireTurn(w: World, h: nat): World
    requires h in w.calls && w.calls[h].Retiring?
  {
    var c := w.calls[h];
    if HasToken(w.devices, c.token)
    then World(Deactivate(w.devices, c.token).value, w.calls[h := Sending(c.user, c.rest)])
    else w.(calls := w.calls[h := Over])
  }

  ghost function Looked(t: Devices, r: Registration, id: nat): Call {
    if !Named(r.deviceId) || !HasDevice(t, r.deviceId) then Unknown(r)
    else if id in t && t[id].deviceId == r.deviceId then Known(r, id)
    else Asked(r)
  }

  /** The row an upsert by token writes, and where. */
  ghost function Target(t: Devices, r: Registration, newId: nat): nat {
    if HasToken(t, r.token) then ByToken(t, r.token) else newId
  }

  ghost function Upserted(t: Devices, r: Registration, newId: nat): Device {
    if HasToken(t, r.token) then Claimed(t[ByToken(t, r.token)], r) else Created(r)
  }

  /** Whether the write a call is about to make goes through, to which row and with what. */
  datatype Write = NoWrite | Write(id: nat, d: Device)

  ghost function WriteOf(t: Devices, c: Call, id: nat): Write {
    match c
    case Known(r, at) => if at in t && Fits(t, at, Rotated(t[at], r)) then Write(at, Rotated(t[at], r)) else NoWrite
    case Unknown(r) =>
      var target := Target(t, r, id);
      if (target in t ==> HasToken(t, r.token)) && Fits(t, target, Upserted(t, r, id)) then Write(target, Upserted(t, r, id)) else NoWrite
    case _ => NoWrite
  }

  ghost function Happen(w: World, e: Event): World {
    match e
    case Begin(h, r) => if h in w.calls then w else w.(calls := w.calls[h := Asked(r)])
    case Go(h, id) =>
      if h !in w.calls then w
      else if w.calls[h].Asked? then w.(calls := w.calls[h := Looked(w.devices, w.calls[h].r, id)])
      else if w.calls[h].Known? || w.calls[h].Unknown? then
        var write := WriteOf(w.devices, w.calls[h], id);
        World(if write.NoWrite? then w.devices else w.devices[write.id := write.d], w.calls[h := Over])
      else if w.calls[h].Retiring? then RetireTurn(w, h)
      else w
    case BeginSend(h, user) => if h in w.calls then w else w.(calls := w.calls[h := Notifying(user)])
    case Finds(h, ids) => if h in w.calls then w.(calls := w.calls[h := Listed(w.devices, w.calls[h], ids)]) else w
    case Answers(h, outcome) => if h in w.calls then w.(calls := w.calls[h := Answered(w.calls[h], outcome)]) else w
  }

  ghost predicate IsRun(worlds: seq<World>, events: seq<Event>) {
    && |worlds| == |events| + 1
    && worlds[0] == World(map[], map[])
    && forall i {:trigger events[i]} | 0 <= i < |events| :: worlds[i + 1] == Happen(worlds[i], events[i])
  }

  /** A first registration of a device is written although another row has got that device since the lookup. */
  ghost predicate LateUpsert(w: World, e: Event) {
    && e.Go? && e.h in w.calls && w.calls[e.h].Unknown? && Named(w.calls[e.h].r.deviceId)
    && var write := WriteOf(w.devices, w.calls[e.h], e.id);
       write.Write? && exists i :: i in w.devices && i != write.id && w.devices[i].deviceId == w.calls[e.h].r.deviceId
  }

  lemma WriteKeepsTokens(t: Devices, id: nat, d: Device)
    requires TokensUnique(t) && Fits(t, id, d)
    ensures TokensUnique(t[id := d])
  {
  }

  /** Whatever the interleaving, one event keeps tokens unique. */
  lemma TokensKept(w: World, e: Event)
    requires TokensUnique(w.devices)
    ensures TokensUnique(Happen(w, e).devices)
  {
    if e.Go? && e.h in w.calls && WriteOf(w.devices, w.calls[e.h], e.id).Write? {
      var write := WriteOf(w.devices, w.calls[e.h], e.id);
      WriteKeepsTokens(w.devices, write.id, write.d);
    }
  }

  /** A write keeps device ids unique exactly when no other row has the named id it writes. */
  lemma WriteKeepsDevices(t: Devices, id: nat, d: Device)
    requires DevicesUnique(t)
    ensures DevicesUnique(t[id := d]) <==> !(Named(d.deviceId) && exists i :: i in t && i != id && t[i].deviceId == d.deviceId)
  {
    if i :| Named(d.deviceId) && i in t && i != id && t[i].deviceId == d.deviceId {
      assert t[id := d][i].deviceId == t[id := d][id].deviceId;
    }
  }

  lemma KnownKeepsDevices(t: Devices, r: Registration, at: nat)
    requires DevicesUnique(t) && at in t
    ensures DevicesUnique(t[at := Rotated(t[at], r)])
  {
    WriteKeepsDevices(t, at, Rotated(t[at], r));
  }

  /** An upsert writes the named device of the registration, or keeps the device its row already had. */
  lemma UpsertDevice(t: Devices, r: Registration, newId: nat)
    requires DevicesUnique(t) && (Target(t, r, newId) in t ==> HasToken(t, r.token))
    ensures var id, d := Target(t, r, newId), Upserted(t, r, newId);
            DevicesUnique(t[id := d]) <==> !(Named(r.deviceId) && exists i :: i in t && i != id && t[i].deviceId == r.deviceId)
  {
    WriteKeepsDevices(t, Target(t, r, newId), Upserted(t, r, newId));
  }

  /** One event: device ids stay unique exactly unless it is a late upsert. */
  lemma DevicesKeptExactly(w: World, e: Event)
    requires DevicesUnique(w.devices)
    ensures DevicesUnique(Happen(w, e).devices) <==> !LateUpsert(w, e)
  {
    if e.Go? && e.h in w.calls {
      var c := w.calls[e.h];
      if c.Known? && c.id in w.devices {
        KnownKeepsDevices(w.devices, c.r, c.id);
      } else if c.Unknown? && WriteOf(w.devices, c, e.id).Write? {
        UpsertDevice(w.devices, c.r, e.id);
      }
    }
  }

  lemma {:induction false} TokensAlwaysUnique(worlds: seq<World>, events: seq<Event>, n: nat)
    requires IsRun(worlds, events) && n < |worlds|
    ensures TokensUnique(worlds[n].devices)
  {
    if n > 0 {
      TokensAlwaysUnique(worlds, events, n - 1);
      TokensKept(worlds[n - 1], events[n - 1]);
    }
  }

  lemma StepExactly(worlds: seq<World>, events: seq<Event>, k: nat)
    requires IsRun(worlds, events) && k < |events| && DevicesUnique(worlds[k].devices)
    ensures DevicesUnique(worlds[k + 1].devices) <==> !LateUpsert(worlds[k], events[k])
  {
    DevicesKeptExactly(worlds[k], events[k]);
  }

  ghost predicate UniqueUpTo(worlds: seq<World>, n: nat)
    requires n < |worlds|
  {
    forall j | 0 <= j <= n :: DevicesUnique(worlds[j].devices)
  }

  ghost predicate NoLateUpsert(worlds: seq<World>, events: seq<Event>, n: nat)
    requires n <= |events| < |worlds|
  {
    forall k {:trigger events[k]} | 0 <= k < n :: !LateUpsert(worlds[k], events[k])
  }

  lemma {:induction false} NoneLate(worlds: seq<World>, events: seq<Event>, n: nat)
    requires IsRun(worlds, events) && n < |worlds| && NoLateUpsert(worlds, events, n)
    ensures DevicesUnique(worlds[n].devices)
  {
    if n > 0 {
      NoneLate(worlds, events, n - 1);
      StepExactly(worlds, events, n - 1);
    }
  }

  /** Over a whole run, with any interleaving, device ids stayed unique if and only if no late upsert happened. */
  lemma DevicesUniqueExactly(worlds: seq<World>, events: seq<Event>, n: nat)
    requires IsRun(worlds, events) && n < |worlds|
    ensures UniqueUpTo(worlds, n) <==> NoLateUpsert(worlds, events, n)
  {
    if NoLateUpsert(worlds, events, n) {
      forall j | 0 <= j <= n
        ensures DevicesUnique(worlds[j].devices)
      {
        NoneLate(worlds, events, j);
      }
    } else {
      var k :| 0 <= k < n && LateUpsert(worlds[k], events[k]);
      if UniqueUpTo(worlds, n) {
        StepExactly(worlds, events, k);
      }
    }
  }

  lemma Extend(worlds: seq<World>, events: seq<Event>, e: Event, w: World) returns (worlds': seq<World>, events': seq<Event>)
    requires IsRun(worlds, events) && Happen(worlds[|events|], e) == w
    ensures IsRun(worlds', events') && events' == events + [e] && worlds' == worlds + [w]
  {
    worlds', events' := worlds + [w], events + [e];
  }

  lemma BothLook(r: Registration, q: Registration) returns (worlds: seq<World>, events: seq<Event>)
    requires Named(r.deviceId) && q.deviceId == r.deviceId
    ensures IsRun(worlds, events) && |events| == 4 && worlds[4] == World(map[], map[0 := Unknown(r), 1 := Unknown(q)])
  {
    worlds, events := [World(map[], map[])], [];
    worlds, events := Extend(worlds, events, Begin(0, r), World(map[], map[0 := Asked(r)]));
    worlds, events := Extend(worlds, events, Begin(1, q), World(map[], map[0 := Asked(r), 1 := Asked(q)]));
    worlds, events := Extend(worlds, events, Go(0, 0), World(map[], map[0 := Unknown(r), 1 := Asked(q)]));
    worlds, events := Extend(worlds, events, Go(1, 0), World(map[], map[0 := Unknown(r), 1 := Unknown(q)]));
  }

  lemma FirstWrite(r: Registration, calls: map<nat, Call>)
    requires 0 in calls && calls[0] == Unknown(r)
    ensures Happen(World(map[], calls), Go(0, 0)) == World(map[0 := Created(r)], calls[0 := Over])
  {
    assert !HasToken(map[], r.token);
  }

  lemma SecondWrite(r: Registration, q: Registration, calls: map<nat, Call>)
    requires 1 in calls && calls[1] == Unknown(q) && r.userId != q.userId && r.token != q.token
    ensures Happen(World(map[0 := Created(r)], calls), Go(1, 1)) == World(map[0 := Created(r), 1 := Created(q)], calls[1 := Over])
  {
    var t: Devices := map[0 := Created(r)];
    assert !HasToken(t, q.token) && Fits(t, 1, Created(q));
    assert t[1 := Created(q)] == map[0 := Created(r), 1 := Created(q)];
  }

  /** Two users register one device for the first time side by side, with different tokens: two rows get its id. */
  lemma TwoRowsOneDevice(r: Registration, q: Registration) returns (worlds: seq<World>, events: seq<Event>)
    requires Named(r.deviceId) && q.deviceId == r.deviceId && r.userId != q.userId && r.token != q.token
    ensures IsRun(worlds, events) && |events| == 6 && !DevicesUnique(worlds[6].devices)
  {
    worlds, events := BothLook(r, q);
    var calls := worlds[4].calls;
    FirstWrite(r, calls);
    worlds, events := Extend(worlds, events, Go(0, 0), World(map[0 := Created(r)], calls[0 := Over]));
    SecondWrite(r, q, calls[0 := Over]);
    worlds, events := Extend(worlds, events, Go(1, 1), World(map[0 := Created(r), 1 := Created(q)], calls[0 := Over][1 := Over]));
    assert worlds[6].devices[0].deviceId == worlds[6].devices[1].deviceId;
  }
}
