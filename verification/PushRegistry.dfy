/** Push device tokens: the three-case upsert over two keys, and the notifier that retires dead tokens. */
module PushRegistry {
  import opened Prelude

  datatype Platform = Android | Ios

  datatype Device = Device(userId: nat, deviceId: Option<string>, token: string, platform: Platform, active: bool)

  type Devices = map<nat, Device>

  // ---------- Constraints ----------

  predicate TokenFree(t: Devices, self: nat, token: string) {
    forall id | id in t && id != self :: t[id].token != token
  }

  /** The schema's unique (user, device) index; a null device never collides. */
  predicate UserDeviceFree(t: Devices, self: nat, d: Device) {
    d.deviceId.Some? ==> forall id | id in t && id != self :: !(t[id].userId == d.userId && t[id].deviceId == d.deviceId)
  }

  predicate Fits(t: Devices, self: nat, d: Device) {
    TokenFree(t, self, d.token) && UserDeviceFree(t, self, d)
  }

  function Put(t: Devices, id: nat, d: Device): Option<Devices> {
    if Fits(t, id, d) then Some(t[id := d]) else None
  }

  /** An empty device id is falsy and is treated like a missing one by the branches, though it is stored. */
  predicate Named(deviceId: Option<string>) {
    deviceId.Some? && deviceId.value != ""
  }

  predicate HasDevice(t: Devices, deviceId: Option<string>) {
    exists id | id in t :: t[id].deviceId == deviceId
  }

  predicate HasToken(t: Devices, token: string) {
    exists id | id in t :: t[id].token == token
  }

  ghost function ByDevice(t: Devices, deviceId: Option<string>): (id: nat)
    requires HasDevice(t, deviceId)
    ensures id in t && t[id].deviceId == deviceId
  {
    var id :| id in t && t[id].deviceId == deviceId;
    id
  }

  ghost function ByToken(t: Devices, token: string): (id: nat)
    requires HasToken(t, token)
    ensures id in t && t[id].token == token
  {
    var id :| id in t && t[id].token == token;
    id
  }

  // ---------- Operations ----------

  datatype Registration = Registration(userId: nat, token: string, platform: Platform, deviceId: Option<string>)

  /** The row a registration writes over the row it found by device. */
  function Rotated(d: Device, r: Registration): Device {
    d.(token := r.token, userId := r.userId, active := true)
  }

  /** The row a registration writes over the row it found by token. */
  function Claimed(d: Device, r: Registration): Device {
    d.(userId := r.userId, deviceId := if Named(r.deviceId) then r.deviceId else d.deviceId, active := true)
  }

  function Created(r: Registration): Device {
    Device(r.userId, r.deviceId, r.token, r.platform, true)
  }

  /** `upsertDeviceToken`; None is a unique-index violation, which changes nothing. */
  ghost function Register(t: Devices, newId: nat, r: Registration): Option<Devices>
    requires newId !in t
  {
    if Named(r.deviceId) && HasDevice(t, r.deviceId) then
      var id := ByDevice(t, r.deviceId);
      Put(t, id, Rotated(t[id], r))
    else if HasToken(t, r.token) then
      var id := ByToken(t, r.token);
      Put(t, id, Claimed(t[id], r))
    else Put(t, newId, Created(r))
  }

  /** `deactivateToken`; None when no row has the token. */
  ghost function Deactivate(t: Devices, token: string): Option<Devices> {
    if HasToken(t, token) then
      var id := ByToken(t, token);
      Some(t[id := t[id].(active := false)])
    else None
  }

  // ---------- The invariant ----------

  ghost predicate TokensUnique(t: Devices) {
    forall i, j | i in t && j in t && t[i].token == t[j].token :: i == j
  }

  /** Stronger than the schema: a non-empty device id appears once in the whole table. */
  ghost predicate DevicesUnique(t: Devices) {
    forall i, j | i in t && j in t && Named(t[i].deviceId) && t[i].deviceId == t[j].deviceId :: i == j
  }

  ghost predicate RegistryOk(t: Devices) {
    TokensUnique(t) && DevicesUnique(t)
  }

  lemma PutKeeps(t: Devices, id: nat, d: Device)
    requires RegistryOk(t) && Fits(t, id, d)
    requires Named(d.deviceId) ==> forall i | i in t && i != id :: t[i].deviceId != d.deviceId
    ensures RegistryOk(t[id := d])
  {
  }

  /** Which row a successful registration wrote, and with what. */
  lemma RegisterWrites(t: Devices, newId: nat, r: Registration) returns (id: nat)
    requires RegistryOk(t) && newId !in t && Register(t, newId, r).Some?
    ensures var t' := Register(t, newId, r).value;
            && id in t' && t' == t[id := t'[id]] && Fits(t, id, t'[id])
            && t'[id].userId == r.userId && t'[id].token == r.token && t'[id].active
            && (Named(r.deviceId) ==> t'[id].deviceId == r.deviceId)
            && (Named(t'[id].deviceId) ==> forall i | i in t && i != id :: t[i].deviceId != t'[id].deviceId)
  {
    if Named(r.deviceId) && HasDevice(t, r.deviceId) {
      id := ByDevice(t, r.deviceId);
    } else if HasToken(t, r.token) {
      id := ByToken(t, r.token);
    } else {
      id := newId;
    }
  }

  lemma RegisterKeeps(t: Devices, newId: nat, r: Registration)
    requires RegistryOk(t) && newId !in t && Register(t, newId, r).Some?
    ensures RegistryOk(Register(t, newId, r).value)
  {
    var id := RegisterWrites(t, newId, r);
    PutKeeps(t, id, Register(t, newId, r).value[id]);
  }

  /** A successful registration leaves exactly one row for the token: active, and owned by that user. */
  lemma RegisterOwnsToken(t: Devices, newId: nat, r: Registration) returns (id: nat)
    requires RegistryOk(t) && newId !in t && Register(t, newId, r).Some?
    ensures var t' := Register(t, newId, r).value;
            && id in t' && t'[id].token == r.token && t'[id].active && t'[id].userId == r.userId
            && (forall i | i in t' && t'[i].token == r.token :: i == id)
            && (forall i | i in t && i != id :: i in t' && t'[i] == t[i])
  {
    id := RegisterWrites(t, newId, r);
    RegisterKeeps(t, newId, r);
  }

  /** Repeating a successful registration succeeds and changes nothing (timestamps aside). */
  lemma RegisterIdempotent(t: Devices, newId: nat, newerId: nat, r: Registration)
    requires RegistryOk(t) && newId !in t && Register(t, newId, r).Some? && newerId !in Register(t, newId, r).value
    ensures Register(Register(t, newId, r).value, newerId, r) == Register(t, newId, r)
  {
    var t' := Register(t, newId, r).value;
    var id := RegisterWrites(t, newId, r);
    RegisterKeeps(t, newId, r);
    assert HasToken(t', r.token);
    assert Fits(t', id, t'[id]);
    if Named(r.deviceId) {
      assert HasDevice(t', r.deviceId);
      assert ByDevice(t', r.deviceId) == id;
      assert Rotated(t'[id], r) == t'[id];
    } else {
      assert ByToken(t', r.token) == id;
      assert Claimed(t'[id], r) == t'[id];
    }
    assert t'[id := t'[id]] == t';
  }

  /** The user already has a row stored under the empty device id, other than the one holding this token. */
  ghost predicate EmptyDeviceTaken(t: Devices, r: Registration) {
    exists id | id in t :: t[id].userId == r.userId && t[id].deviceId == Some("") && t[id].token != r.token
  }

  /**
   * Exactly when a registration is refused by a unique index: the device is known and the token sits on
   * another row, or the row to be written carries the empty device id and the user already has such a row.
   */
  lemma RegisterRefused(t: Devices, newId: nat, r: Registration)
    requires RegistryOk(t) && newId !in t
    ensures Register(t, newId, r).None? <==>
            if Named(r.deviceId) && HasDevice(t, r.deviceId) then
              HasToken(t, r.token) && t[ByToken(t, r.token)].deviceId != r.deviceId
            else
              && !Named(r.deviceId)
              && (if HasToken(t, r.token) then t[ByToken(t, r.token)].deviceId else r.deviceId) == Some("")
              && EmptyDeviceTaken(t, r)
  {
  }

  // ---------- Runs ----------

  datatype Op = Registers(newId: nat, r: Registration) | Deactivates(token: string)

  ghost function Apply(t: Devices, op: Op): Devices {
    match op
    case Registers(newId, r) =>
      if newId !in t && Register(t, newId, r).Some? then Register(t, newId, r).value else t
    case Deactivates(token) => Deactivate(t, token).GetOr(t)
  }

  ghost function ApplyAll(t: Devices, ops: seq<Op>): Devices {
    if ops == [] then t else Apply(ApplyAll(t, ops[..|ops| - 1]), ops[|ops| - 1])
  }

  /** After any history, no two rows share a token or a non-empty device id. */
  lemma {:induction false} RegistryAlwaysOk(ops: seq<Op>)
    ensures RegistryOk(ApplyAll(map[], ops))
  {
    if ops != [] {
      var before, op := ApplyAll(map[], ops[..|ops| - 1]), ops[|ops| - 1];
      RegistryAlwaysOk(ops[..|ops| - 1]);
      if op.Registers? && op.newId !in before && Register(before, op.newId, op.r).Some? {
        RegisterKeeps(before, op.newId, op.r);
      }
    }
  }

  // ---------- Sending ----------

  datatype SendOutcome = Delivered | Rejected(code: Option<string>)

  predicate IsDead(o: SendOutcome) {
    o.Rejected? && (o.code == Some("messaging/invalid-registration-token") || o.code == Some("messaging/registration-token-not-registered"))
  }

  /** How many of the first `n` sends were delivered. */
  function CountDelivered(os: seq<SendOutcome>, n: nat): nat
    requires n <= |os|
  {
    if n == 0 then 0 else CountDelivered(os, n - 1) + if os[n - 1].Delivered? then 1 else 0
  }

  /** How many of the first `n` sends hit a dead token. */
  function CountDead(os: seq<SendOutcome>, n: nat): nat
    requires n <= |os|
  {
    if n == 0 then 0 else CountDead(os, n - 1) + if IsDead(os[n - 1]) then 1 else 0
  }

  ghost function ActiveIds(t: Devices, userId: nat): set<nat> {
    set id | id in t && t[id].userId == userId && t[id].active
  }

  /** A listing of exactly the user's active rows, in whatever order the database returns them. */
  ghost predicate Lists(t: Devices, userId: nat, ids: seq<nat>) {
    && (forall i, j | 0 <= i < j < |ids| :: ids[i] != ids[j])
    && (set k | 0 <= k < |ids| :: ids[k]) == ActiveIds(t, userId)
  }

  /** The rows among the first `n` listed whose token turned out dead. */
  ghost function DeadIds(ids: seq<nat>, os: seq<SendOutcome>, n: nat): set<nat>
    requires n <= |ids| == |os|
  {
    set k | 0 <= k < n && IsDead(os[k]) :: ids[k]
  }

  class Registry {
    var devices: Devices
    var nextId: nat

    ghost predicate Valid()
      reads this
    {
      RegistryOk(devices) && forall id | id in devices :: id < nextId
    }

    constructor ()
      ensures Valid() && devices == map[]
    {
      devices, nextId := map[], 0;
    }

    method Write(id: nat, d: Device) returns (ok: bool)
      modifies this`devices
      ensures ok <==> Fits(old(devices), id, d)
      ensures devices == if ok then old(devices)[id := d] else old(devices)
    {
      ok := Fits(devices, id, d);
      if ok {
        devices := devices[id := d];
      }
    }

    method UpsertDeviceToken(r: Registration) returns (ok: bool)
      requires Valid()
      modifies this
      ensures Valid()
      ensures ok <==> Register(old(devices), old(nextId), r).Some?
      ensures devices == Register(old(devices), old(nextId), r).GetOr(old(devices))
    {
      if Register(devices, nextId, r).Some? {
        RegisterKeeps(devices, nextId, r);
      }
      if Named(r.deviceId) && HasDevice(devices, r.deviceId) {
        var id :| id in devices && devices[id].deviceId == r.deviceId;
        ok := Write(id, Rotated(devices[id], r));
        return;
      }
      if HasToken(devices, r.token) {
        var id :| id in devices && devices[id].token == r.token;
        ok := Write(id, Claimed(devices[id], r));
      } else {
        ok := Write(nextId, Created(r));
        if ok {
          nextId := nextId + 1;
        }
      }
    }

    method DeactivateToken(token: string) returns (ok: bool)
      requires Valid()
      modifies this`devices
      ensures Valid()
      ensures ok <==> HasToken(old(devices), token)
      ensures devices == Deactivate(old(devices), token).GetOr(old(devices))
    {
      ok := HasToken(devices, token);
      if ok {
        var id :| id in devices && devices[id].token == token;
        devices := devices[id := devices[id].(active := false)];
      }
    }

    /** The catch branch: the row is looked up again by its token, which finds that row and no other. */
    method RetireRow(id: nat)
      requires Valid() && id in devices
      modifies this`devices
      ensures Valid()
      ensures devices == Retired(old(devices), {id})
    {
      RetireOne(devices, id);
      var ok := DeactivateToken(devices[id].token);
    }

    /** Sending to a user: `found` is what the query returned, `outcomes` what Firebase answered to each. */
    method SendToUser(userId: nat, found: seq<nat>, outcomes: seq<SendOutcome>) returns (sent: nat, deactivated: nat)
      requires Valid() && Lists(devices, userId, found) && |outcomes| == |found|
      modifies this`devices
      ensures Valid()
      ensures devices == Retired(old(devices), DeadIds(found, outcomes, |found|))
      ensures sent == CountDelivered(outcomes, |outcomes|) && deactivated == CountDead(outcomes, |outcomes|)
      ensures sent + deactivated <= |found|
    {
      ListedKnown(devices, userId, found);
      sent, deactivated := SendToRows(found, outcomes);
    }

    /** The send loop. */
    method SendToRows(found: seq<nat>, outcomes: seq<SendOutcome>) returns (sent: nat, deactivated: nat)
      requires Valid() && |outcomes| == |found| && forall k | 0 <= k < |found| :: found[k] in devices
      modifies this`devices
      ensures Valid()
      ensures devices == Retired(old(devices), DeadIds(found, outcomes, |found|))
      ensures sent == CountDelivered(outcomes, |outcomes|) && deactivated == CountDead(outcomes, |outcomes|)
      ensures sent + deactivated <= |found|
    {
      sent, deactivated := 0, 0;
      var i := 0;
      ghost var before := devices;
      RetireNone(before, found, outcomes);
      while i < |found|
        invariant 0 <= i <= |found|
        invariant Valid() && devices == Retired(before, DeadIds(found, outcomes, i))
        invariant sent == CountDelivered(outcomes, i) && deactivated == CountDead(outcomes, i)
        invariant sent + deactivated <= i
      {
        RetireNext(before, found, outcomes, i);
        if outcomes[i].Delivered? {
          sent := sent + 1;
        } else if IsDead(outcomes[i]) {
          RetireRow(found[i]);
          deactivated := deactivated + 1;
        }
        i := i + 1;
      }
    }
  }

  /** The table with the given rows switched off and everything else as it was. */
  ghost function Retired(t: Devices, dead: set<nat>): Devices {
    map id | id in t :: if id in dead then t[id].(active := false) else t[id]
  }

  lemma ListedKnown(t: Devices, userId: nat, ids: seq<nat>)
    requires Lists(t, userId, ids)
    ensures forall k | 0 <= k < |ids| :: ids[k] in t
  {
    assert forall k | 0 <= k < |ids| :: ids[k] in ActiveIds(t, userId);
  }

  lemma RetireNone(t: Devices, ids: seq<nat>, os: seq<SendOutcome>)
    requires |ids| == |os|
    ensures Retired(t, DeadIds(ids, os, 0)) == t
  {
  }

  lemma RetireOne(t: Devices, id: nat)
    requires TokensUnique(t) && id in t
    ensures Deactivate(t, t[id].token) == Some(Retired(t, {id}))
  {
    assert HasToken(t, t[id].token);
    assert ByToken(t, t[id].token) == id;
    assert t[id := t[id].(active := false)] == Retired(t, {id});
  }

  lemma DeadStep(ids: seq<nat>, os: seq<SendOutcome>, n: nat)
    requires n < |ids| == |os|
    ensures DeadIds(ids, os, n + 1) == DeadIds(ids, os, n) + if IsDead(os[n]) then {ids[n]} else {}
  {
  }

  /** One turn of the send loop: a dead answer retires one more row, any other answer none. */
  lemma RetireNext(t: Devices, ids: seq<nat>, os: seq<SendOutcome>, n: nat)
    requires n < |ids| == |os|
    ensures Retired(t, DeadIds(ids, os, n + 1)) ==
            if IsDead(os[n]) then Retired(Retired(t, DeadIds(ids, os, n)), {ids[n]}) else Retired(t, DeadIds(ids, os, n))
  {
    DeadStep(ids, os, n);
  }

  /** After a send, the user's active rows are the ones found minus exactly the dead ones; nobody else lost one. */
  lemma SendRetiresExactlyTheDead(t: Devices, userId: nat, found: seq<nat>, outcomes: seq<SendOutcome>)
    requires Lists(t, userId, found) && |outcomes| == |found|
    ensures var dead := DeadIds(found, outcomes, |found|);
            && ActiveIds(Retired(t, dead), userId) == ActiveIds(t, userId) - dead
            && (forall other | other != userId :: ActiveIds(Retired(t, dead), other) == ActiveIds(t, other))
  {
    ListedKnown(t, userId, found);
    assert forall id | id in DeadIds(found, outcomes, |found|) :: id in ActiveIds(t, userId);
  }
}
