/**
 * `verifyChallenge` with its awaits apart: any number of verifications interleave between reading the challenge,
 * reading the credential and marking the challenge used, and each may be cut short.
 */
module OverlappingLogins {
  import opened Biometric

  /** Where a verification stands: about to read the challenge, to read the credential, to mark the challenge. */
  datatype Verification =
    | Asked(id: string, deviceId: string, signature: string)
    | Unspent(id: string, deviceId: string, signature: string, text: string)
    | Accepted(id: string, userId: nat)
    | Over

  /** `logins` counts, per challenge, the verifications that accepted a signature and marked it used. */
  datatype World = World(tables: Tables, verifications: map<nat, Verification>, logins: multiset<string>)

  datatype Event =
    | Begin(h: nat, id: string, deviceId: string, signature: string)
    | Go(h: nat, now: int)
    | Abort(h: nat)
    | Other(op: Op)

  function AfterChallenge(t: Tables, v: Verification, now: int): Verification
    requires v.Asked?
  {
    if v.id in t.challenges && t.challenges[v.id].deviceId == v.deviceId && !t.challenges[v.id].used && now <= t.challenges[v.id].expiresAt
    then Unspent(v.id, v.deviceId, v.signature, t.challenges[v.id].text) else Over
  }

  function AfterCredential(t: Tables, v: Verification, accepts: Accepts): Verification
    requires v.Unspent?
  {
    var credential := ActiveCredential(t, v.deviceId);
    if credential.Some? && accepts(credential.value.key, v.text, v.signature) then Accepted(v.id, credential.value.userId) else Over
  }

  function Moved(w: World, h: nat, v: Verification): World {
    w.(verifications := w.verifications[h := v])
  }

  /** Marking an unknown challenge throws; otherwise it is used, whoever else marked it before. */
  function Marked(w: World, h: nat, id: string): World {
    if id !in w.tables.challenges then Moved(w, h, Over)
    else Moved(w.(tables := w.tables.(challenges := w.tables.challenges[id := w.tables.challenges[id].(used := true)]),
                  logins := w.logins + multiset{id}), h, Over)
  }

  function Turn(w: World, h: nat, now: int, accepts: Accepts): World
    requires h in w.verifications
  {
    match w.verifications[h]
    case Asked(_, _, _) => Moved(w, h, AfterChallenge(w.tables, w.verifications[h], now))
    case Unspent(_, _, _, _) => Moved(w, h, AfterCredential(w.tables, w.verifications[h], accepts))
    case Accepted(id, _) => Marked(w, h, id)
    case Over => w
  }

  /** One event; one that cannot happen changes nothing.  Enrolments and new challenges are single writes. */
  function Happen(w: World, e: Event, accepts: Accepts): World {
    match e
    case Begin(h, id, deviceId, signature) =>
      if h in w.verifications then w else Moved(w, h, Asked(id, deviceId, signature))
    case Go(h, now) => if h in w.verifications then Turn(w, h, now, accepts) else w
    case Abort(h) => if h in w.verifications then Moved(w, h, Over) else w
    case Other(op) => if op.Verify? then w else w.(tables := Apply(w.tables, op, accepts))
  }

  const EMPTY: World := World(Tables(map[], map[]), map[], multiset{})

  function At(events: seq<Event>, n: nat, accepts: Accepts): World
    requires n <= |events|
  {
    if n == 0 then EMPTY else Happen(At(events, n - 1, accepts), events[n - 1], accepts)
  }

  // ---------- Overlaps ----------

  predicate Holds(v: Verification, id: string) {
    (v.Unspent? || v.Accepted?) && v.id == id
  }

  /** The verifications that have read the challenge unspent and not yet marked it. */
  function Holders(w: World, id: string): set<nat> {
    set h | h in w.verifications && Holds(w.verifications[h], id)
  }

  /** A verification reads the challenge unspent while another one already has. */
  predicate Overlaps(w: World, e: Event, id: string) {
    && e.Go? && e.h in w.verifications && w.verifications[e.h].Asked? && w.verifications[e.h].id == id
    && AfterChallenge(w.tables, w.verifications[e.h], e.now).Unspent? && Holders(w, id) != {}
  }

  function CountOverlaps(events: seq<Event>, n: nat, accepts: Accepts, id: string): nat
    requires n <= |events|
  {
    if n == 0 then 0
    else CountOverlaps(events, n - 1, accepts, id) + if Overlaps(At(events, n - 1, accepts), events[n - 1], id) then 1 else 0
  }

  /** Holders and logins together are at most one more than the overlaps, and a login leaves the challenge used. */
  ghost predicate Bounded(w: World, id: string, r: nat) {
    && |Holders(w, id)| + w.logins[id] <= 1 + r
    && (w.logins[id] > 0 ==> id in w.tables.challenges && w.tables.challenges[id].used)
  }

  lemma HoldersMove(w: World, h: nat, v: Verification, id: string)
    ensures Holders(Moved(w, h, v), id) == Holders(w, id) - {h} + if Holds(v, id) then {h} else {}
  {
  }

  lemma ReadBounded(w: World, h: nat, now: int, id: string, r: nat)
    requires Bounded(w, id, r) && h in w.verifications && w.verifications[h].Asked?
    ensures Bounded(Moved(w, h, AfterChallenge(w.tables, w.verifications[h], now)), id, if Overlaps(w, Go(h, now), id) then r + 1 else r)
  {
    var v := AfterChallenge(w.tables, w.verifications[h], now);
    HoldersMove(w, h, v, id);
    assert h !in Holders(w, id) && Holders(w, id) - {h} == Holders(w, id);
    if Holds(v, id) {
      assert w.logins[id] == 0;
      assert |Holders(w, id) + {h}| == |Holders(w, id)| + 1;
    }
  }

  lemma CheckBounded(w: World, h: nat, accepts: Accepts, id: string, r: nat)
    requires Bounded(w, id, r) && h in w.verifications && w.verifications[h].Unspent?
    ensures Bounded(Moved(w, h, AfterCredential(w.tables, w.verifications[h], accepts)), id, r)
  {
    var v := AfterCredential(w.tables, w.verifications[h], accepts);
    HoldersMove(w, h, v, id);
    Shrinks(w, h, v, id);
  }

  /** A step that does not begin to hold leaves no more holders. */
  lemma Shrinks(w: World, h: nat, v: Verification, id: string)
    requires h in w.verifications && (Holds(v, id) ==> Holds(w.verifications[h], id))
    ensures Holders(Moved(w, h, v), id) <= Holders(w, id) && |Holders(Moved(w, h, v), id)| <= |Holders(w, id)|
  {
    SmallerSet(Holders(Moved(w, h, v), id), Holders(w, id));
  }

  lemma SmallerSet(a: set<nat>, b: set<nat>)
    requires a <= b
    ensures |a| <= |b|
  {
    assert b == a + (b - a);
  }

  lemma MarkBounded(w: World, h: nat, id: string, other: string, r: nat)
    requires Bounded(w, id, r) && h in w.verifications && w.verifications[h].Accepted? && w.verifications[h].id == other
    ensures Bounded(Marked(w, h, other), id, r)
  {
    HoldersMove(w, h, Over, id);
    assert Holders(Marked(w, h, other), id) == Holders(w, id) - {h};
    if other == id {
      assert h in Holders(w, id);
      assert |Holders(w, id) - {h}| == |Holders(w, id)| - 1;
    } else {
      SmallerSet(Holders(w, id) - {h}, Holders(w, id));
    }
  }

  lemma TurnBounded(w: World, h: nat, now: int, accepts: Accepts, id: string, r: nat)
    requires Bounded(w, id, r) && h in w.verifications
    ensures Bounded(Turn(w, h, now, accepts), id, if Overlaps(w, Go(h, now), id) then r + 1 else r)
  {
    match w.verifications[h]
    case Asked(_, _, _) => ReadBounded(w, h, now, id, r);
    case Unspent(_, _, _, _) => CheckBounded(w, h, accepts, id, r);
    case Accepted(other, _) => MarkBounded(w, h, id, other, r);
    case Over =>
  }

  lemma EventBounded(w: World, e: Event, accepts: Accepts, id: string, r: nat)
    requires Bounded(w, id, r)
    ensures Bounded(Happen(w, e, accepts), id, if Overlaps(w, e, id) then r + 1 else r)
  {
    match e
    case Begin(h, i, d, s) => if h !in w.verifications { HoldersMove(w, h, Asked(i, d, s), id); SmallerSet(Holders(w, id) - {h}, Holders(w, id)); }
    case Go(h, now) => if h in w.verifications { TurnBounded(w, h, now, accepts, id, r); }
    case Abort(h) => if h in w.verifications { Shrinks(w, h, Over, id); }
    case Other(op) =>
      assert Holders(Happen(w, e, accepts), id) == Holders(w, id);
      if w.logins[id] > 0 && !op.Verify? { ChallengeStep(w.tables, op, accepts, id); }
  }

  lemma {:induction false} BoundedAlways(events: seq<Event>, n: nat, accepts: Accepts, id: string)
    requires n <= |events|
    ensures Bounded(At(events, n, accepts), id, CountOverlaps(events, n, accepts, id))
  {
    if n == 0 {
      assert Holders(EMPTY, id) == {};
    } else {
      BoundedAlways(events, n - 1, accepts, id);
      EventBounded(At(events, n - 1, accepts), events[n - 1], accepts, id, CountOverlaps(events, n - 1, accepts, id));
    }
  }

  /** Under any interleaving, a challenge logs in at most once more than verifications of it overlapped. */
  lemma LoginsBounded(events: seq<Event>, n: nat, accepts: Accepts, id: string)
    requires n <= |events|
    ensures At(events, n, accepts).logins[id] <= 1 + CountOverlaps(events, n, accepts, id)
  {
    BoundedAlways(events, n, accepts, id);
  }

  // ---------- Every holder can still log in ----------

  lemma Next(events: seq<Event>, n: nat, accepts: Accepts)
    requires n < |events|
    ensures At(events, n + 1, accepts) == Happen(At(events, n, accepts), events[n], accepts)
  {
  }

  lemma {:induction false} Prefix(events: seq<Event>, more: seq<Event>, n: nat, accepts: Accepts)
    requires n <= |events|
    ensures At(events + more, n, accepts) == At(events, n, accepts)
  {
    if n > 0 {
      Prefix(events, more, n - 1, accepts);
    }
  }

  function After(events: seq<Event>, accepts: Accepts): World {
    At(events, |events|, accepts)
  }

  lemma OneMore(events: seq<Event>, e: Event, accepts: Accepts)
    ensures After(events + [e], accepts) == Happen(After(events, accepts), e, accepts)
  {
    Prefix(events, [e], |events|, accepts);
    assert (events + [e])[|events|] == e;
  }

  /** The verification holds the challenge, and its signature stands under the device's credential. */
  predicate Ready(w: World, h: nat, id: string, accepts: Accepts) {
    && h in w.verifications && Holds(w.verifications[h], id) && id in w.tables.challenges
    && (w.verifications[h].Unspent? ==> AfterCredential(w.tables, w.verifications[h], accepts).Accepted?)
  }

  function ReadyOnes(w: World, id: string, accepts: Accepts): set<nat> {
    set h | h in w.verifications && Ready(w, h, id, accepts)
  }

  lemma StaysReady(w: World, h: nat, v: Verification, g: nat, id: string, accepts: Accepts)
    requires g != h
    ensures Ready(Moved(w, h, v), g, id, accepts) <==> Ready(w, g, id, accepts)
  {
  }

  /** Marking changes no credential, so the others stay as they are. */
  lemma MarkStaysReady(w: World, h: nat, other: string, g: nat, id: string, accepts: Accepts)
    requires g != h
    ensures Ready(Marked(w, h, other), g, id, accepts) <==> Ready(w, g, id, accepts)
  {
  }

  lemma Accepting(events: seq<Event>, h: nat, id: string, accepts: Accepts) returns (more: seq<Event>)
    requires Ready(After(events, accepts), h, id, accepts)
    ensures events <= more && h in After(more, accepts).verifications && After(more, accepts).verifications[h].Accepted?
    ensures After(more, accepts).logins == After(events, accepts).logins
    ensures ReadyOnes(After(more, accepts), id, accepts) == ReadyOnes(After(events, accepts), id, accepts)
  {
    var w := After(events, accepts);
    if w.verifications[h].Accepted? {
      return events;
    }
    more := events + [Go(h, 0)];
    OneMore(events, Go(h, 0), accepts);
    var v := AfterCredential(w.tables, w.verifications[h], accepts);
    forall g | g != h
      ensures Ready(Moved(w, h, v), g, id, accepts) <==> Ready(w, g, id, accepts)
    {
      StaysReady(w, h, v, g, id, accepts);
    }
  }

  /** After any run, a verification that is ready logs in next, and leaves the other ready ones ready. */
  lemma HolderLogsIn(events: seq<Event>, h: nat, id: string, accepts: Accepts) returns (more: seq<Event>)
    requires Ready(After(events, accepts), h, id, accepts)
    ensures events <= more && After(more, accepts).logins[id] == After(events, accepts).logins[id] + 1
    ensures ReadyOnes(After(more, accepts), id, accepts) == ReadyOnes(After(events, accepts), id, accepts) - {h}
  {
    var before := Accepting(events, h, id, accepts);
    var w := After(before, accepts);
    assert h in ReadyOnes(w, id, accepts);
    more := before + [Go(h, 0)];
    OneMore(before, Go(h, 0), accepts);
    forall g | g != h
      ensures Ready(Marked(w, h, id), g, id, accepts) <==> Ready(w, g, id, accepts)
    {
      MarkStaysReady(w, h, id, g, id, accepts);
    }
  }

  /** After any run, every verification that is ready can still log in: as many further logins as there are such verifications. */
  lemma {:induction false} AllReadyLogIn(events: seq<Event>, id: string, accepts: Accepts) returns (more: seq<Event>)
    ensures events <= more
    ensures After(more, accepts).logins[id] == After(events, accepts).logins[id] + |ReadyOnes(After(events, accepts), id, accepts)|
    decreases |ReadyOnes(After(events, accepts), id, accepts)|
  {
    var ready := ReadyOnes(After(events, accepts), id, accepts);
    if ready == {} {
      return events;
    }
    var h :| h in ready;
    more := HolderLogsIn(events, h, id, accepts);
    more := AllReadyLogIn(more, id, accepts);
  }

  /** An overlap costs a login: after a read that overlapped, with both signatures standing, two further logins can follow. */
  lemma OverlapLogsInTwice(events: seq<Event>, e: Event, g: nat, id: string, accepts: Accepts) returns (more: seq<Event>)
    requires Overlaps(After(events, accepts), e, id) && g in Holders(After(events, accepts), id)
    requires Ready(After(events + [e], accepts), g, id, accepts) && Ready(After(events + [e], accepts), e.h, id, accepts)
    ensures events + [e] <= more && After(more, accepts).logins[id] >= After(events, accepts).logins[id] + 2
  {
    OneMore(events, e, accepts);
    var w := After(events + [e], accepts);
    SmallerSet({g, e.h}, ReadyOnes(w, id, accepts));
    more := AllReadyLogIn(events + [e], id, accepts);
  }

  // ---------- An overlap that logs in twice, from nothing ----------

  /** Enrol, issue, and let two verifications take their turns side by side. */
  function SideBySide(userId: nat, deviceId: string, key: Key, id: string, text: string, signature: string): seq<Event> {
    [Other(Enroll(userId, deviceId, key)), Other(Issue(deviceId, id, text, 0)),
     Begin(0, id, deviceId, signature), Begin(1, id, deviceId, signature), Go(0, 0), Go(1, 0), Go(0, 0), Go(1, 0), Go(0, 0), Go(1, 0)]
  }

  function Enrolled(userId: nat, deviceId: string, key: Key, id: string, text: string): Tables {
    Tables(map[deviceId := Credential(userId, key, false)], map[id := Challenge(deviceId, text, StoredExpiry(0), false)])
  }

  lemma BothAsk(userId: nat, deviceId: string, key: Key, id: string, text: string, signature: string, accepts: Accepts)
    ensures At(SideBySide(userId, deviceId, key, id, text, signature), 4, accepts)
            == World(Enrolled(userId, deviceId, key, id, text), map[0 := Asked(id, deviceId, signature), 1 := Asked(id, deviceId, signature)], multiset{})
  {
    var events := SideBySide(userId, deviceId, key, id, text, signature);
    Next(events, 0, accepts);
    Next(events, 1, accepts);
    assert At(events, 2, accepts) == World(Enrolled(userId, deviceId, key, id, text), map[], multiset{});
    Next(events, 2, accepts);
    Next(events, 3, accepts);
  }

  lemma BothRead(userId: nat, deviceId: string, key: Key, id: string, text: string, signature: string, accepts: Accepts)
    ensures var v := Unspent(id, deviceId, signature, text);
            At(SideBySide(userId, deviceId, key, id, text, signature), 6, accepts)
            == World(Enrolled(userId, deviceId, key, id, text), map[0 := v, 1 := v], multiset{})
  {
    var events := SideBySide(userId, deviceId, key, id, text, signature);
    BothAsk(userId, deviceId, key, id, text, signature, accepts);
    Next(events, 4, accepts);
    Next(events, 5, accepts);
  }

  lemma BothAccept(userId: nat, deviceId: string, key: Key, id: string, text: string, signature: string, accepts: Accepts)
    requires accepts(key, text, signature)
    ensures At(SideBySide(userId, deviceId, key, id, text, signature), 8, accepts)
            == World(Enrolled(userId, deviceId, key, id, text), map[0 := Accepted(id, userId), 1 := Accepted(id, userId)], multiset{})
  {
    var events := SideBySide(userId, deviceId, key, id, text, signature);
    BothRead(userId, deviceId, key, id, text, signature, accepts);
    Next(events, 6, accepts);
    Next(events, 7, accepts);
  }

  /** Two verifications of one challenge that read it side by side both log in. */
  lemma TwoLoginsSideBySide(userId: nat, deviceId: string, key: Key, id: string, text: string, signature: string, accepts: Accepts)
    requires accepts(key, text, signature)
    ensures At(SideBySide(userId, deviceId, key, id, text, signature), 10, accepts).logins[id] == 2
  {
    var events := SideBySide(userId, deviceId, key, id, text, signature);
    BothAccept(userId, deviceId, key, id, text, signature, accepts);
    Next(events, 8, accepts);
    Next(events, 9, accepts);
  }
}
