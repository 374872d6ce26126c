/** Biometric login: enrolled device keys, one-time challenges, and the check that consumes them. */
module Biometric {
  import opened Prelude

  type Key = string

  datatype Credential = Credential(userId: nat, key: Key, revoked: bool)

  datatype Challenge = Challenge(deviceId: string, text: string, expiresAt: int, used: bool)

  datatype Tables = Tables(credentials: map<string, Credential>, challenges: map<string, Challenge>)

  /** Signature verification, taken as given. */
  type Accepts = (Key, string, string) -> bool

  datatype Refusal = InvalidChallenge | AlreadyUsed | Expired | NotEnrolled | InvalidSignature

  datatype Verdict = Verified(userId: nat) | Refused(why: Refusal)

  /** Ninety seconds from now, as a column with whole seconds stores it. */
  function StoredExpiry(now: int): (t: int)
    ensures now + 89500 <= t <= now + 90500
  {
    (now + 90000 + 500) / 1000 * 1000
  }

  function ActiveCredential(t: Tables, deviceId: string): Option<Credential> {
    if deviceId in t.credentials && !t.credentials[deviceId].revoked then Some(t.credentials[deviceId]) else None
  }

  /** The checks of `verifyChallenge`, in its order. */
  function Check(t: Tables, id: string, deviceId: string, signature: string, now: int, accepts: Accepts): Verdict {
    if id !in t.challenges || t.challenges[id].deviceId != deviceId then Refused(InvalidChallenge)
    else if t.challenges[id].used then Refused(AlreadyUsed)
    else if now > t.challenges[id].expiresAt then Refused(Expired)
    else if ActiveCredential(t, deviceId).None? then Refused(NotEnrolled)
    else
      var credential := ActiveCredential(t, deviceId).value;
      if accepts(credential.key, t.challenges[id].text, signature) then Verified(credential.userId)
      else Refused(InvalidSignature)
  }

  // ---------- Operations ----------

  datatype Op =
    | Enroll(userId: nat, deviceId: string, key: Key)
    | Issue(deviceId: string, id: string, text: string, now: int)
    | Verify(id: string, deviceId: string, signature: string, now: int)
    | Revoke(deviceId: string)

  predicate CanIssue(t: Tables, deviceId: string, id: string) {
    ActiveCredential(t, deviceId).Some? && id !in t.challenges
  }

  /** The tables after an operation; one that throws leaves them as they were. */
  function Apply(t: Tables, op: Op, accepts: Accepts): Tables {
    match op
    case Enroll(userId, deviceId, key) =>
      t.(credentials := t.credentials[deviceId := Credential(userId, key, false)])
    case Issue(deviceId, id, text, now) =>
      if CanIssue(t, deviceId, id) then
        t.(challenges := t.challenges[id := Challenge(deviceId, text, StoredExpiry(now), false)])
      else t
    case Verify(id, deviceId, signature, now) =>
      if Check(t, id, deviceId, signature, now, accepts).Verified? then
        t.(challenges := t.challenges[id := t.challenges[id].(used := true)])
      else t
    case Revoke(deviceId) =>
      if deviceId in t.credentials then
        t.(credentials := t.credentials[deviceId := t.credentials[deviceId].(revoked := true)])
      else t
  }

  class BiometricAuth {
    var credentials: map<string, Credential>
    var challenges: map<string, Challenge>

    function Contents(): Tables
      reads this
    {
      Tables(credentials, challenges)
    }

    constructor ()
      ensures Contents() == Tables(map[], map[])
    {
      credentials, challenges := map[], map[];
    }

    method EnrollDevice(userId: nat, deviceId: string, key: Key, ghost accepts: Accepts)
      modifies this
      ensures Contents() == Apply(old(Contents()), Enroll(userId, deviceId, key), accepts)
    {
      credentials := credentials[deviceId := Credential(userId, key, false)];
    }

    method CreateChallenge(deviceId: string, id: string, text: string, now: int, ghost accepts: Accepts) returns (ok: bool)
      modifies this
      ensures Contents() == Apply(old(Contents()), Issue(deviceId, id, text, now), accepts)
      ensures ok <==> CanIssue(old(Contents()), deviceId, id)
    {
      if ActiveCredential(Contents(), deviceId).None? {
        return false;
      }
      if id in challenges {
        return false;
      }
      challenges := challenges[id := Challenge(deviceId, text, StoredExpiry(now), false)];
      ok := true;
    }

    method VerifyChallenge(id: string, deviceId: string, signature: string, now: int, accepts: Accepts) returns (v: Verdict)
      modifies this
      ensures Contents() == Apply(old(Contents()), Verify(id, deviceId, signature, now), accepts)
      ensures v == Check(old(Contents()), id, deviceId, signature, now, accepts)
    {
      if id !in challenges || challenges[id].deviceId != deviceId {
        return Refused(InvalidChallenge);
      }
      var challenge := challenges[id];
      if challenge.used {
        return Refused(AlreadyUsed);
      }
      if now > challenge.expiresAt {
        return Refused(Expired);
      }
      var credential := ActiveCredential(Contents(), deviceId);
      if credential.None? {
        return Refused(NotEnrolled);
      }
      if !accepts(credential.value.key, challenge.text, signature) {
        return Refused(InvalidSignature);
      }
      challenges := challenges[id := challenge.(used := true)];
      return Verified(credential.value.userId);
    }
  }

  // ---------- Runs ----------

  function After(ops: seq<Op>, n: nat, accepts: Accepts): Tables
    requires n <= |ops|
  {
    if n == 0 then Tables(map[], map[]) else Apply(After(ops, n - 1, accepts), ops[n - 1], accepts)
  }

  /** The `n`-th operation logs a user in. */
  predicate Succeeds(ops: seq<Op>, n: nat, accepts: Accepts) {
    && n < |ops| && ops[n].Verify?
    && Check(After(ops, n, accepts), ops[n].id, ops[n].deviceId, ops[n].signature, ops[n].now, accepts).Verified?
  }

  function LoggedIn(ops: seq<Op>, n: nat, accepts: Accepts): nat
    requires Succeeds(ops, n, accepts)
  {
    Check(After(ops, n, accepts), ops[n].id, ops[n].deviceId, ops[n].signature, ops[n].now, accepts).userId
  }

  /** The `m`-th operation issues this challenge. */
  predicate Issues(ops: seq<Op>, m: nat, id: string, accepts: Accepts) {
    && m < |ops| && ops[m].Issue? && ops[m].id == id
    && CanIssue(After(ops, m, accepts), ops[m].deviceId, id)
  }

  lemma ChallengeStep(t: Tables, op: Op, accepts: Accepts, id: string)
    requires id in t.challenges
    ensures id in Apply(t, op, accepts).challenges
    ensures Apply(t, op, accepts).challenges[id] == t.challenges[id] ||
            Apply(t, op, accepts).challenges[id] == t.challenges[id].(used := true)
  {
  }

  lemma {:induction false} UsedForGood(ops: seq<Op>, m: nat, n: nat, accepts: Accepts, id: string)
    requires m <= n <= |ops| && id in After(ops, m, accepts).challenges && After(ops, m, accepts).challenges[id].used
    ensures id in After(ops, n, accepts).challenges && After(ops, n, accepts).challenges[id].used
  {
    if m < n {
      UsedForGood(ops, m, n - 1, accepts, id);
      ChallengeStep(After(ops, n - 1, accepts), ops[n - 1], accepts, id);
    }
  }

  /** In any run, each challenge accounts for at most one login. */
  lemma OneLoginPerChallenge(ops: seq<Op>, m: nat, n: nat, accepts: Accepts)
    requires Succeeds(ops, m, accepts) && Succeeds(ops, n, accepts) && ops[m].id == ops[n].id
    ensures m == n
  {
    if m < n {
      UsedForGood(ops, m + 1, n, accepts, ops[m].id);
    } else if n < m {
      UsedForGood(ops, n + 1, m, accepts, ops[n].id);
    }
  }

  /** Every stored challenge was issued by an earlier operation, and still says what that operation wrote. */
  lemma {:induction false} ChallengeOrigin(ops: seq<Op>, n: nat, accepts: Accepts, id: string) returns (m: nat)
    requires n <= |ops| && id in After(ops, n, accepts).challenges
    ensures m < n && Issues(ops, m, id, accepts)
    ensures var c := After(ops, n, accepts).challenges[id];
            c.deviceId == ops[m].deviceId && c.text == ops[m].text && c.expiresAt == StoredExpiry(ops[m].now)
  {
    var before := After(ops, n - 1, accepts);
    if id in before.challenges {
      m := ChallengeOrigin(ops, n - 1, accepts, id);
      ChallengeStep(before, ops[n - 1], accepts, id);
    } else {
      m := n - 1;
    }
  }

  /** Nothing between `e` and `n` enrolled or revoked the device. */
  predicate Untouched(ops: seq<Op>, e: nat, n: nat, deviceId: string)
    requires n <= |ops|
  {
    forall i | e < i < n && (ops[i].Enroll? || ops[i].Revoke?) :: ops[i].deviceId != deviceId
  }

  /** An active credential is the device's latest enrolment, not revoked since. */
  lemma {:induction false} CredentialOrigin(ops: seq<Op>, n: nat, accepts: Accepts, deviceId: string) returns (e: nat)
    requires n <= |ops| && ActiveCredential(After(ops, n, accepts), deviceId).Some?
    ensures e < n && Untouched(ops, e, n, deviceId)
    ensures var c := ActiveCredential(After(ops, n, accepts), deviceId).value;
            ops[e] == Enroll(c.userId, deviceId, c.key)
  {
    if ops[n - 1].Enroll? && ops[n - 1].deviceId == deviceId {
      e := n - 1;
    } else {
      e := CredentialOrigin(ops, n - 1, accepts, deviceId);
    }
  }

  /**
   * Every login follows a challenge issued to the same device, comes no later than its stored expiry (within
   * half a second of ninety), and returns the user of the device's latest enrolment, whose key accepted the
   * signature over that challenge.
   */
  lemma LoginProvenance(ops: seq<Op>, n: nat, accepts: Accepts) returns (m: nat, e: nat)
    requires Succeeds(ops, n, accepts)
    ensures m < n && Issues(ops, m, ops[n].id, accepts) && ops[m].deviceId == ops[n].deviceId
    ensures ops[n].now <= StoredExpiry(ops[m].now) <= ops[m].now + 90500
    ensures e < n && ops[e].Enroll? && ops[e].deviceId == ops[n].deviceId && Untouched(ops, e, n, ops[n].deviceId)
    ensures LoggedIn(ops, n, accepts) == ops[e].userId && accepts(ops[e].key, ops[m].text, ops[n].signature)
  {
    m := ChallengeOrigin(ops, n, accepts, ops[n].id);
    e := CredentialOrigin(ops, n, accepts, ops[n].deviceId);
  }

  /** A challenge id is issued at most once, so the challenge behind a login is unique. */
  lemma IssuedOnce(ops: seq<Op>, m: nat, n: nat, accepts: Accepts, id: string)
    requires Issues(ops, m, id, accepts) && Issues(ops, n, id, accepts)
    ensures m == n
  {
    if m < n {
      StaysKnown(ops, m + 1, n, accepts, id);
    } else if n < m {
      StaysKnown(ops, n + 1, m, accepts, id);
    }
  }

  lemma {:induction false} StaysKnown(ops: seq<Op>, m: nat, n: nat, accepts: Accepts, id: string)
    requires m <= n <= |ops| && id in After(ops, m, accepts).challenges
    ensures id in After(ops, n, accepts).challenges
  {
    if m < n {
      StaysKnown(ops, m, n - 1, accepts, id);
      ChallengeStep(After(ops, n - 1, accepts), ops[n - 1], accepts, id);
    }
  }

  // ---------- Nothing else is refused ----------

  lemma {:induction false} UsedByLogin(ops: seq<Op>, n: nat, accepts: Accepts, id: string) returns (k: nat)
    requires n <= |ops| && id in After(ops, n, accepts).challenges && After(ops, n, accepts).challenges[id].used
    ensures k < n && Succeeds(ops, k, accepts) && ops[k].id == id
  {
    var before := After(ops, n - 1, accepts);
    if id in before.challenges && before.challenges[id].used {
      k := UsedByLogin(ops, n - 1, accepts, id);
    } else {
      k := n - 1;
    }
  }

  lemma {:induction false} EnrolmentStands(ops: seq<Op>, e: nat, n: nat, accepts: Accepts)
    requires e < n <= |ops| && ops[e].Enroll? && Untouched(ops, e, n, ops[e].deviceId)
    ensures ActiveCredential(After(ops, n, accepts), ops[e].deviceId) == Some(Credential(ops[e].userId, ops[e].key, false))
  {
    if e < n - 1 {
      EnrolmentStands(ops, e, n - 1, accepts);
      assert After(ops, n, accepts).credentials[ops[e].deviceId] == After(ops, n - 1, accepts).credentials[ops[e].deviceId];
    }
  }

  /**
   * The other direction of `LoginProvenance`: with an unspent challenge for the device, in time, and a standing
   * enrolment whose key accepts the signature, the login succeeds and returns that enrolment's user.
   */
  lemma LoginGranted(ops: seq<Op>, m: nat, e: nat, n: nat, accepts: Accepts)
    requires n < |ops| && ops[n].Verify? && m < n && e < n
    requires Issues(ops, m, ops[n].id, accepts) && ops[m].deviceId == ops[n].deviceId
    requires ops[n].now <= StoredExpiry(ops[m].now)
    requires ops[e].Enroll? && ops[e].deviceId == ops[n].deviceId && Untouched(ops, e, n, ops[e].deviceId)
    requires accepts(ops[e].key, ops[m].text, ops[n].signature)
    requires forall k | 0 <= k < n && Succeeds(ops, k, accepts) :: ops[k].id != ops[n].id
    ensures Succeeds(ops, n, accepts) && LoggedIn(ops, n, accepts) == ops[e].userId
  {
    var id := ops[n].id;
    StaysKnown(ops, m + 1, n, accepts, id);
    var origin := ChallengeOrigin(ops, n, accepts, id);
    IssuedOnce(ops, origin, m, accepts, id);
    EnrolmentStands(ops, e, n, accepts);
    if After(ops, n, accepts).challenges[id].used {
      var k := UsedByLogin(ops, n, accepts, id);
      assert false;
    }
  }
}
