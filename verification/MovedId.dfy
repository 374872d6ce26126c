/**
 * Why the lock theorem also needs an honest provider: when verify is answered with another payment's id, the id moves
 * to another row, a delivery rereads a row whose key it does not hold, and a careful run credits that row twice.
 */
module MovedId {
  import opened Prelude
  import opened Payments
  import opened PaymentMachine
  import opened Undisturbed
  import opened Lifecycle
  import opened GoodRuns
  import opened SecondCharge
  import CreditOnce

  /** Every step so far kept the assumption on process, verify and rejected awaits. */
  ghost predicate CarefulSteps(tr: Trace) {
    IsRun(tr, false) && forall i {:trigger tr.labels[i]} | 0 <= i < |tr.labels| :: CreditOnce.Careful(tr.states[i], tr.labels[i])
  }

  // ---------- Careful pieces ----------

  lemma LaunchCareful(tr: Trace, h: nat, pc: Pc) returns (tr': Trace)
    requires CarefulSteps(tr) && h !in Last(tr).handlers && IsStart(pc)
    ensures CarefulSteps(tr') && tr.states <= tr'.states && Last(tr') == Begin(Last(tr), h, pc)
  {
    tr' := Launch(tr, h, pc, false);
    assert forall i | 0 <= i < |tr.labels| :: tr'.labels[i] == tr.labels[i] && tr'.states[i] == tr.states[i];
  }

  lemma MoveCareful(tr: Trace, tr': Trace, h: nat, a: Answer)
    requires CarefulSteps(tr) && Continues(tr, tr', h, [a], false) && a != Throws && a != ThrowsAfter
    requires h in Last(tr).handlers && Last(tr).handlers[h].InWebhook?
    ensures CarefulSteps(tr')
  {
    assert Moves(h, [a]) == [Move(h, a)];
    forall i | 0 <= i < |tr'.labels|
      ensures CreditOnce.Careful(tr'.states[i], tr'.labels[i])
    {
      if i < |tr.labels| {
        assert tr'.labels[i] == tr.labels[i] && tr'.states[i] == tr.states[i];
      }
    }
  }

  /** A calm visit by a webhook, or a verify of a payment that stays uncredited, is careful. */
  lemma VisitIsCareful(tr: Trace, tr': Trace, h: nat, pc: Pc, answers: seq<Answer>)
    requires CarefulSteps(tr) && Visit(tr, tr', h, pc, answers, false) && Calm(answers) && (pc.InWebhook? || pc.InVerify?)
    requires pc.InVerify? ==> pc.v.id in Last(tr).rows && !LedgerHas(Last(tr').ledger, Last(tr).rows[pc.v.id].terms.key)
    ensures CarefulSteps(tr')
  {
    forall i | 0 <= i < |tr'.labels|
      ensures CreditOnce.Careful(tr'.states[i], tr'.labels[i])
    {
      VisitLabel(tr, tr', h, pc, answers, false, i);
      if i > |tr.labels| {
        CalmMove(tr, tr', h, pc, answers, i);
      }
    }
  }

  lemma CalmMove(tr: Trace, tr': Trace, h: nat, pc: Pc, answers: seq<Answer>, i: nat)
    requires IsRun(tr, false) && Visit(tr, tr', h, pc, answers, false) && Calm(answers) && (pc.InWebhook? || pc.InVerify?)
    requires pc.InVerify? ==> pc.v.id in Last(tr).rows && !LedgerHas(Last(tr').ledger, Last(tr).rows[pc.v.id].terms.key)
    requires |tr.labels| < i < |tr'.labels|
    ensures CreditOnce.Careful(tr'.states[i], tr'.labels[i])
  {
    VisitLabel(tr, tr', h, pc, answers, false, i);
    ServiceStays(tr, tr', h, pc, answers, false, i);
    assert answers[i - |tr.labels| - 1] in answers;
    if pc.InVerify? {
      UncreditedDuring(tr, tr', h, pc, answers, i, pc.v.id);
    }
  }

  lemma VerifyIsCalm(reply: ProviderReply)
    ensures Calm(VerifyAnswers(reply))
  {
  }

  /** A verify of an uncredited payment while handler `w` waits. */
  lemma VerifyWhile(tr: Trace, w: nat, h: nat, id: nat, pid: string, reply: ProviderReply) returns (tr': Trace)
    requires CarefulSteps(tr) && w in Last(tr).handlers && h !in Last(tr).handlers
    requires IsClip(Last(tr), id, pid) && pid != "" && reply.id != "" && !LedgerHas(Last(tr).ledger, Last(tr).rows[id].terms.key)
    requires ProviderIdFree(Last(tr), id, StatusUpdate(Last(tr).rows[id], MapClipStatusBeforeWebhook(reply.status), Some(reply)))
    ensures CarefulSteps(tr')
    ensures var s, s' := Last(tr), Last(tr');
            && s'.rows == s.rows[id := PaymentRow(s.rows[id].terms, MapClipStatusBeforeWebhook(reply.status), Some(reply.id), ReplyPayload(reply))]
            && s'.ledger == s.ledger && s'.locks == s.locks && s'.handlers.Keys == s.handlers.Keys + {h}
            && s'.handlers[w] == s.handlers[w]
  {
    tr' := Verified(tr, h, id, pid, reply, false);
    VerifyIsCalm(reply);
    VisitIsCareful(tr, tr', h, InVerify(VRead(id)), VerifyAnswers(reply));
    VisitKeeps(tr, tr', h, InVerify(VRead(id)), VerifyAnswers(reply), false, |tr'.labels|);
  }

  // ---------- The run ----------

  /** Two uncredited payments with their own ids, a third id nobody has, and free locks. */
  ghost predicate MoveReady(s: State, a: nat, b: nat, p: string, q: string, r: string, links: UserLinks) {
    && a != b && IsClip(s, a, p) && IsClip(s, b, q) && p != "" && q != "" && r != "" && IdUnused(s, r)
    && (forall id | id in s.rows && id != a :: s.rows[id].providerPaymentId != Some(p))
    && s.rows[a].terms.key != s.rows[b].terms.key && s.rows[a].terms.key !in s.locks && s.rows[b].terms.key !in s.locks
    && !LedgerHas(s.ledger, s.rows[a].terms.key) && !LedgerHas(s.ledger, s.rows[b].terms.key)
    && BuildTopupRequest(s.rows[b].terms, links).Some?
  }

  /** What the first delivery has in hand: the lock of `a` and the row of `b`. */
  ghost predicate Misplaced(s: State, w: nat, a: nat, b: nat, d: Delivery) {
    && w in s.handlers && s.handlers[w] == InWebhook(WMergeRead(d, Confirm(Completed)))
    && b in s.rows && d.snap.id == b && d.snap.row == s.rows[b] && !HasCompletedTopup(d.snap.row.payload)
    && a in s.rows && s.rows[a].terms.key == d.lock
  }

  /** A delivery for `p` arrives and finds `a`. */
  lemma FindsRow(tr: Trace, w: nat, a: nat, p: string, hook: string, links: UserLinks) returns (tr': Trace)
    requires CarefulSteps(tr) && w !in Last(tr).handlers && IsClip(Last(tr), a, p)
    ensures CarefulSteps(tr')
    ensures var s, s' := Last(tr), Last(tr');
            && s'.handlers == s.handlers[w := InWebhook(WLock(p, hook, s.rows[a].terms.key))]
            && s'.rows == s.rows && s'.ledger == s.ledger && s'.locks == s.locks
  {
    var tr1 := LaunchCareful(tr, w, InWebhook(WFind(p, hook)));
    tr' := Find(tr1, w, a, p, hook, links, false);
    MoveCareful(tr1, tr', w, Found(a, links));
  }

  /** The row a verify writes when the provider answers `id` without a status. */
  function Renamed(row: PaymentRow, id: string): PaymentRow {
    PaymentRow(row.terms, Pending, Some(id), ReplyPayload(ProviderReply(id, None)))
  }

  lemma RenameRow(tr: Trace, w: nat, h: nat, id: nat, pid: string, newPid: string) returns (tr': Trace)
    requires CarefulSteps(tr) && w in Last(tr).handlers && h !in Last(tr).handlers
    requires IsClip(Last(tr), id, pid) && pid != "" && newPid != "" && !LedgerHas(Last(tr).ledger, Last(tr).rows[id].terms.key)
    requires forall other | other in Last(tr).rows && other != id :: Last(tr).rows[other].providerPaymentId != Some(newPid)
    ensures CarefulSteps(tr')
    ensures var s, s' := Last(tr), Last(tr');
            && s'.rows == s.rows[id := Renamed(s.rows[id], newPid)] && s'.ledger == s.ledger && s'.locks == s.locks
            && s'.handlers.Keys == s.handlers.Keys + {h} && s'.handlers[w] == s.handlers[w]
  {
    var reply := ProviderReply(newPid, None);
    assert ProviderIdFree(Last(tr), id, StatusUpdate(Last(tr).rows[id], MapClipStatusBeforeWebhook(None), Some(reply)));
    tr' := VerifyWhile(tr, w, h, id, pid, reply);
  }

  /** While a delivery waits, two verifies move `p` from `a` to `b`. */
  lemma SwapIds(tr: Trace, w: nat, v: nat, u: nat, a: nat, b: nat, p: string, q: string, r: string, links: UserLinks) returns (tr': Trace)
    requires CarefulSteps(tr) && MoveReady(Last(tr), a, b, p, q, r, links)
    requires w in Last(tr).handlers && v != u && v !in Last(tr).handlers && u !in Last(tr).handlers
    ensures CarefulSteps(tr')
    ensures var s, s' := Last(tr), Last(tr');
            && s'.rows == s.rows[a := Renamed(s.rows[a], r)][b := Renamed(s.rows[b], p)] && s'.ledger == s.ledger && s'.locks == s.locks
            && s'.handlers.Keys == s.handlers.Keys + {v, u} && s'.handlers[w] == s.handlers[w]
  {
    var tr1 := RenameRow(tr, w, v, a, p, r);
    tr' := RenameRow(tr1, w, u, b, q, p);
  }

  /** A delivery for `p` finds `a`; before it locks, two verifies move `p` from `a` to `b`. */
  lemma MoveBehind(tr: Trace, w: nat, v: nat, u: nat, a: nat, b: nat, p: string, q: string, r: string, hook: string, links: UserLinks)
    returns (tr': Trace)
    requires CarefulSteps(tr) && MoveReady(Last(tr), a, b, p, q, r, links)
    requires w != v && v != u && u != w && w !in Last(tr).handlers && v !in Last(tr).handlers && u !in Last(tr).handlers
    ensures CarefulSteps(tr')
    ensures var s, s' := Last(tr), Last(tr');
            && s'.handlers.Keys == s.handlers.Keys + {w, v, u} && s'.handlers[w] == InWebhook(WLock(p, hook, s.rows[a].terms.key))
            && s'.ledger == s.ledger && s'.locks == s.locks && IsClip(s', b, p) && s'.rows[b].terms == s.rows[b].terms
            && a in s'.rows && s'.rows[a].terms == s.rows[a].terms && !HasCompletedTopup(s'.rows[b].payload)
  {
    var tr1 := FindsRow(tr, w, a, p, hook, links);
    tr' := SwapIds(tr1, w, v, u, a, b, p, q, r, links);
  }

  lemma LockAndReread(tr: Trace, w: nat, b: nat, p: string, hook: string, lock: string, links: UserLinks) returns (tr': Trace)
    requires CarefulSteps(tr) && w in Last(tr).handlers && Last(tr).handlers[w] == InWebhook(WLock(p, hook, lock)) && lock !in Last(tr).locks
    requires IsClip(Last(tr), b, p)
    ensures CarefulSteps(tr')
    ensures var s, s' := Last(tr), Last(tr');
            && s'.rows == s.rows && s'.ledger == s.ledger && s'.locks == s.locks[lock := w] && s'.handlers.Keys == s.handlers.Keys
            && s'.handlers[w] == InWebhook(WQuery(hook, lock, Snapshot(b, s.rows[b], links)))
  {
    var tr1 := Lock(tr, w, p, hook, lock, false);
    MoveCareful(tr, tr1, w, Granted);
    tr' := Reread(tr1, w, b, p, hook, lock, links, false);
    MoveCareful(tr1, tr', w, Found(b, links));
  }

  /** The delivery now locks `a`'s key, rereads by `p`, and gets `b`. */
  lemma LockWrongKey(tr: Trace, w: nat, a: nat, b: nat, p: string, hook: string, lock: string, links: UserLinks, reply: ProviderReply)
    returns (tr': Trace, d: Delivery)
    requires CarefulSteps(tr) && w in Last(tr).handlers && Last(tr).handlers[w] == InWebhook(WLock(p, hook, lock)) && lock !in Last(tr).locks
    requires IsClip(Last(tr), b, p) && a in Last(tr).rows && Last(tr).rows[a].terms.key == lock && !HasCompletedTopup(Last(tr).rows[b].payload)
    requires MapClipStatus(reply.status) == Completed
    ensures CarefulSteps(tr') && Misplaced(Last(tr'), w, a, b, d) && d.snap.links == links
    ensures Last(tr').rows == Last(tr).rows && Last(tr').ledger == Last(tr).ledger && Last(tr').locks == Last(tr).locks[lock := w]
    ensures Last(tr').handlers.Keys == Last(tr).handlers.Keys
  {
    var snap := Snapshot(b, Last(tr).rows[b], links);
    var tr1 := LockAndReread(tr, w, b, p, hook, lock, links);
    tr' := Query(tr1, w, hook, lock, snap, reply, false);
    MoveCareful(tr1, tr', w, Replies(reply));
    d := Delivery(lock, snap, reply, hook);
  }

  /** Meanwhile a second delivery for `p` locks `b`'s own key and credits `b`. */
  lemma CreditMeanwhile(tr: Trace, w: nat, x: nat, a: nat, b: nat, p: string, hook: string, links: UserLinks, reply: ProviderReply, d: Delivery)
    returns (tr': Trace)
    requires CarefulSteps(tr) && Misplaced(Last(tr), w, a, b, d) && x !in Last(tr).handlers && IsClip(Last(tr), b, p)
    requires Last(tr).rows[b].terms.key !in Last(tr).locks
    requires MapClipStatus(reply.status) == Completed && BuildTopupRequest(Last(tr).rows[b].terms, links).Some?
    ensures CarefulSteps(tr') && w in Last(tr').handlers && Last(tr').handlers[w] == Last(tr).handlers[w]
    ensures b in Last(tr').rows && Last(tr').rows[b].terms == Last(tr).rows[b].terms
    ensures Last(tr').ledger == Last(tr).ledger + [BuildTopupRequest(Last(tr).rows[b].terms, links).value]
  {
    tr' := Confirmed(tr, x, b, reply, p, hook, links, false);
    CreditingIsCalm(b, links, reply);
    VisitIsCareful(tr, tr', x, InWebhook(WFind(p, hook)), Crediting(b, links, reply));
    VisitKeeps(tr, tr', x, InWebhook(WFind(p, hook)), Crediting(b, links, reply), false, |tr'.labels|);
  }

  /** The first delivery goes on from the row it read before the credit, and credits again. */
  lemma CreditAgain(tr: Trace, w: nat, b: nat, d: Delivery, req: TopupRequest) returns (tr': Trace)
    requires CarefulSteps(tr) && w in Last(tr).handlers && Last(tr).handlers[w] == InWebhook(WMergeRead(d, Confirm(Completed)))
    requires b in Last(tr).rows && d.snap.id == b
    requires !HasCompletedTopup(d.snap.row.payload) && BuildTopupRequest(d.snap.row.terms, d.snap.links) == Some(req)
    ensures CarefulSteps(tr') && Last(tr').ledger == Last(tr).ledger + [req]
    ensures b in Last(tr').rows && Last(tr').rows[b].terms == Last(tr).rows[b].terms
  {
    var tr1 := MergeRead(tr, w, d, Confirm(Completed), false);
    MoveCareful(tr, tr1, w, Returns);
    var tr2 := MergeWrite(tr1, w, d, Confirm(Completed), Last(tr).rows[b].payload, false);
    MoveCareful(tr1, tr2, w, Returns);
    tr' := SendTopUp(tr2, w, d, req, Accepted, false);
    MoveCareful(tr2, tr', w, Ledger(Accepted));
  }

  lemma HoldsWrongKey(tr: Trace, w: nat, v: nat, u: nat, x: nat, a: nat, b: nat, p: string, q: string, r: string,
                      hook: string, links: UserLinks, reply: ProviderReply) returns (tr': Trace, d: Delivery)
    requires CarefulSteps(tr) && MoveReady(Last(tr), a, b, p, q, r, links) && MapClipStatus(reply.status) == Completed
    requires w != v && v != u && u != w && x != w && x != v && x != u
    requires w !in Last(tr).handlers && v !in Last(tr).handlers && u !in Last(tr).handlers && x !in Last(tr).handlers
    ensures CarefulSteps(tr') && Misplaced(Last(tr'), w, a, b, d) && d.snap.links == links && x !in Last(tr').handlers && IsClip(Last(tr'), b, p)
    ensures Last(tr').rows[b].terms == Last(tr).rows[b].terms && Last(tr').rows[b].terms.key !in Last(tr').locks
    ensures Last(tr').ledger == Last(tr).ledger
  {
    var tr1 := MoveBehind(tr, w, v, u, a, b, p, q, r, hook, links);
    tr', d := LockWrongKey(tr1, w, a, b, p, hook, Last(tr).rows[a].terms.key, links, reply);
  }

  lemma CreditTwice(tr: Trace, w: nat, x: nat, a: nat, b: nat, p: string, hook: string, links: UserLinks, reply: ProviderReply, d: Delivery)
    returns (tr': Trace)
    requires CarefulSteps(tr) && Misplaced(Last(tr), w, a, b, d) && d.snap.links == links && x !in Last(tr).handlers && IsClip(Last(tr), b, p)
    requires Last(tr).rows[b].terms.key !in Last(tr).locks
    requires MapClipStatus(reply.status) == Completed && BuildTopupRequest(Last(tr).rows[b].terms, links).Some?
    ensures CarefulSteps(tr') && b in Last(tr').rows && Last(tr').rows[b].terms == Last(tr).rows[b].terms
    ensures var req := BuildTopupRequest(Last(tr).rows[b].terms, links).value; Last(tr').ledger == Last(tr).ledger + [req] + [req]
  {
    var tr1 := CreditMeanwhile(tr, w, x, a, b, p, hook, links, reply, d);
    tr' := CreditAgain(tr1, w, b, d, BuildTopupRequest(Last(tr).rows[b].terms, links).value);
  }

  /** A run that is careful in every added step, with a ledger that never deduplicates, and credits `b` twice. */
  lemma MovedIdCreditsTwice(tr: Trace, w: nat, v: nat, u: nat, x: nat, a: nat, b: nat, p: string, q: string, r: string,
                            hook: string, links: UserLinks, reply: ProviderReply) returns (tr': Trace)
    requires CarefulSteps(tr) && MoveReady(Last(tr), a, b, p, q, r, links) && MapClipStatus(reply.status) == Completed
    requires w != v && v != u && u != w && x != w && x != v && x != u
    requires w !in Last(tr).handlers && v !in Last(tr).handlers && u !in Last(tr).handlers && x !in Last(tr).handlers
    ensures CarefulSteps(tr') && b in Last(tr').rows && Last(tr').rows[b].terms == Last(tr).rows[b].terms
    ensures var req := BuildTopupRequest(Last(tr).rows[b].terms, links).value;
            Last(tr').ledger == Last(tr).ledger + [req] + [req] && req.key == Last(tr).rows[b].terms.key
  {
    var tr1, d := HoldsWrongKey(tr, w, v, u, x, a, b, p, q, r, hook, links, reply);
    tr' := CreditTwice(tr1, w, x, a, b, p, hook, links, reply, d);
  }

  // ---------- Such a state is reached ----------

  /** After any careful run, one payment is created and charged under an id never used before. */
  lemma CarefulCharge(tr: Trace, g: nat, h: nat, id: nat, t: Terms, reply: ProviderReply) returns (tr': Trace)
    requires CreditOnce.CarefulRun(tr.states, tr.labels) && g != h && g !in Last(tr).handlers && h !in Last(tr).handlers
    requires IsStart(InCreate(t)) && id !in Last(tr).rows && KeyFree(Last(tr), t.key) && !LedgerHas(Last(tr).ledger, t.key)
    requires reply.id != "" && IdUnused(Last(tr), reply.id) && forall c | c in Last(tr).log.issued :: c.providerId != reply.id
    ensures CreditOnce.CarefulRun(tr'.states, tr'.labels)
    ensures var s, s' := Last(tr), Last(tr');
            && s'.rows == s.rows[id := PaymentRow(t, MapClipStatusBeforeWebhook(reply.status), Some(reply.id), ReplyPayload(reply))]
            && s'.ledger == s.ledger && s'.locks == s.locks && s'.handlers.Keys == s.handlers.Keys + {g, h}
            && s'.log.issued == s.log.issued + {Charge(id, reply.id)}
  {
    var tr1 := Created(tr, g, id, t, false);
    VisitCareful(tr, tr1, g, InCreate(t), [Inserts(id)]);
    assert IdUnused(Last(tr1), reply.id);
    tr' := Processed(tr1, h, id, reply, false);
    ProcessIsCalm(reply);
    VisitCareful(tr1, tr', h, InProcess(PRead(id)), ProcessAnswers(reply));
    Overwrites(Last(tr).rows, id, NewRow(t), Last(tr').rows[id]);
  }

  ghost predicate Separate(p: string, q: string, r: string) {
    p != "" && q != "" && r != "" && p != q && q != r && r != p
  }

  /** The table after two payments were created and charged. */
  ghost predicate TwoCharged(s: State, t: Terms, u: Terms, p: string, q: string) {
    && s.rows == map[0 := PaymentRow(t, Pending, Some(p), ReplyPayload(ProviderReply(p, None))),
                     1 := PaymentRow(u, Pending, Some(q), ReplyPayload(ProviderReply(q, None)))]
    && s.ledger == [] && s.locks == map[] && s.handlers.Keys == {0, 1, 2, 3}
  }

  lemma ChargeTwo(t: Terms, u: Terms, p: string, q: string, r: string) returns (tr: Trace)
    requires IsStart(InCreate(t)) && IsStart(InCreate(u)) && t.key != u.key && Separate(p, q, r)
    ensures CreditOnce.CarefulRun(tr.states, tr.labels) && tr.states != [] && TwoCharged(Last(tr), t, u, p, q)
  {
    var start := EmptyRun();
    var tr1 := CarefulCharge(start, 0, 1, 0, t, ProviderReply(p, None));
    assert IdUnused(Last(tr1), q) && KeyFree(Last(tr1), u.key);
    tr := CarefulCharge(tr1, 2, 3, 1, u, ProviderReply(q, None));
  }

  /** Two payments created and charged one after the other are ready for their ids to move. */
  lemma MoveReadyReached(t: Terms, u: Terms, links: UserLinks, p: string, q: string, r: string) returns (tr: Trace)
    requires IsStart(InCreate(t)) && IsStart(InCreate(u)) && t.key != u.key && Separate(p, q, r) && BuildTopupRequest(u, links).Some?
    ensures CarefulSteps(tr) && MoveReady(Last(tr), 0, 1, p, q, r, links)
    ensures TwoCharged(Last(tr), t, u, p, q)
  {
    tr := ChargeTwo(t, u, p, q, r);
  }

  /** From nothing: a run careful in every step that credits one payment twice. */
  lemma MovedIdFromNothing(t: Terms, u: Terms, links: UserLinks, p: string, q: string, r: string, reply: ProviderReply) returns (tr: Trace)
    requires IsStart(InCreate(t)) && IsStart(InCreate(u)) && t.key != u.key && Separate(p, q, r) && BuildTopupRequest(u, links).Some?
    requires MapClipStatus(reply.status) == Completed
    ensures CarefulSteps(tr) && Last(tr).ledger == [BuildTopupRequest(u, links).value] + [BuildTopupRequest(u, links).value]
  {
    var ready := MoveReadyReached(t, u, links, p, q, r);
    tr := MovedIdCreditsTwice(ready, 4, 5, 6, 7, 0, 1, p, q, r, "", links, reply);
  }
}
