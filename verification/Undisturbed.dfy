/**
 * What the webhook and the SIP callback achieve when nothing interferes: every run in which one is about to
 * start can go on to the credit.  This is the other half of the safety theorems, which say what never happens.
 */
module Undisturbed {
  import opened Prelude
  import opened Payments
  import opened PaymentMachine
  import ProviderIds

  datatype Trace = Trace(states: seq<State>, labels: seq<Label>)

  ghost predicate IsRun(tr: Trace, dedup: bool) {
    Run(tr.states, tr.labels, dedup)
  }

  ghost function Last(tr: Trace): State
    requires tr.states != []
  {
    tr.states[|tr.states| - 1]
  }

  /** The moves of one handler that receives these answers in turn. */
  function Moves(h: nat, answers: seq<Answer>): seq<Label> {
    seq(|answers|, i requires 0 <= i < |answers| => Move(h, answers[i]))
  }

  lemma MovesConcat(h: nat, xs: seq<Answer>, ys: seq<Answer>)
    ensures Moves(h, xs + ys) == Moves(h, xs) + Moves(h, ys)
  {
  }

  /** `tr'` goes on from `tr` by these answers to handler `h` alone. */
  ghost predicate Continues(tr: Trace, tr': Trace, h: nat, answers: seq<Answer>, dedup: bool) {
    IsRun(tr', dedup) && tr.states <= tr'.states && tr'.labels == tr.labels + Moves(h, answers)
  }

  lemma Chain(tr: Trace, tr1: Trace, tr2: Trace, h: nat, xs: seq<Answer>, ys: seq<Answer>, dedup: bool)
    requires Continues(tr, tr1, h, xs, dedup) && Continues(tr1, tr2, h, ys, dedup)
    ensures Continues(tr, tr2, h, xs + ys, dedup)
  {
    MovesConcat(h, xs, ys);
  }

  /** One more turn. */
  lemma Play(tr: Trace, h: nat, a: Answer, t: Turn, dedup: bool) returns (tr': Trace)
    requires IsRun(tr, dedup) && h in Last(tr).handlers && Next(Last(tr), Last(tr).handlers[h], a, dedup) == t && t.Turn?
    ensures Continues(tr, tr', h, [a], dedup) && Last(tr') == Take(Last(tr), h, t)
  {
    tr' := Trace(tr.states + [Take(Last(tr), h, t)], tr.labels + [Move(h, a)]);
    assert Moves(h, [a]) == [Move(h, a)];
  }

  /** In every run a stored provider id is the row's own. */
  lemma IdFree(tr: Trace, id: nat, dedup: bool)
    requires IsRun(tr, dedup) && id in Last(tr).rows
    ensures ProviderIdFree(Last(tr), id, Last(tr).rows[id])
  {
    ProviderIds.IdsAlways(tr.states, tr.labels, dedup, |tr.labels|);
  }

  function At(s: State, h: nat, pc: Pc): State {
    s.(handlers := s.handlers[h := pc])
  }

  function SetRow(s: State, id: nat, row: PaymentRow): State {
    s.(rows := s.rows[id := row])
  }

  // ---------- The turns of the webhook ----------

  lemma Find(tr: Trace, h: nat, id: nat, pid: string, hook: string, links: UserLinks, dedup: bool) returns (tr': Trace)
    requires IsRun(tr, dedup) && h in Last(tr).handlers && Last(tr).handlers[h] == InWebhook(WFind(pid, hook))
    requires IsClip(Last(tr), id, pid)
    ensures Continues(tr, tr', h, [Found(id, links)], dedup)
    ensures Last(tr') == At(Last(tr), h, InWebhook(WLock(pid, hook, Last(tr).rows[id].terms.key)))
  {
    tr' := Play(tr, h, Found(id, links), Turn(NoEffect, InWebhook(WLock(pid, hook, Last(tr).rows[id].terms.key))), dedup);
  }

  function Locked(s: State, h: nat, lock: string): State {
    s.(locks := s.locks[lock := h], log := s.log.(acquired := s.log.acquired + multiset{h}))
  }

  lemma Lock(tr: Trace, h: nat, pid: string, hook: string, lock: string, dedup: bool) returns (tr': Trace)
    requires IsRun(tr, dedup) && h in Last(tr).handlers && Last(tr).handlers[h] == InWebhook(WLock(pid, hook, lock))
    requires lock !in Last(tr).locks
    ensures Continues(tr, tr', h, [Granted], dedup)
    ensures Last(tr') == At(Locked(Last(tr), h, lock), h, InWebhook(WReread(pid, hook, lock)))
  {
    tr' := Play(tr, h, Granted, Turn(TakeLock(lock), InWebhook(WReread(pid, hook, lock))), dedup);
  }

  lemma Reread(tr: Trace, h: nat, id: nat, pid: string, hook: string, lock: string, links: UserLinks, dedup: bool)
    returns (tr': Trace)
    requires IsRun(tr, dedup) && h in Last(tr).handlers && Last(tr).handlers[h] == InWebhook(WReread(pid, hook, lock))
    requires IsClip(Last(tr), id, pid)
    ensures Continues(tr, tr', h, [Found(id, links)], dedup)
    ensures Last(tr') == At(Last(tr), h, InWebhook(WQuery(hook, lock, Snapshot(id, Last(tr).rows[id], links))))
  {
    var next := InWebhook(WQuery(hook, lock, Snapshot(id, Last(tr).rows[id], links)));
    tr' := Play(tr, h, Found(id, links), Turn(NoEffect, next), dedup);
  }

  function WithReading(s: State, r: Reading): State {
    s.(log := s.log.(readings := s.log.readings + {r}))
  }

  lemma Query(tr: Trace, h: nat, hook: string, lock: string, snap: Snapshot, reply: ProviderReply, dedup: bool)
    returns (tr': Trace)
    requires IsRun(tr, dedup) && h in Last(tr).handlers && Last(tr).handlers[h] == InWebhook(WQuery(hook, lock, snap))
    ensures Continues(tr, tr', h, [Replies(reply)], dedup)
    ensures Last(tr') == At(WithReading(Last(tr), Reading(snap.id, reply.status)), h,
                            InWebhook(WMergeRead(Delivery(lock, snap, reply, hook), Confirm(MapClipStatus(reply.status)))))
  {
    var next := InWebhook(WMergeRead(Delivery(lock, snap, reply, hook), Confirm(MapClipStatus(reply.status))));
    tr' := Play(tr, h, Replies(reply), Turn(ReadStatus(Reading(snap.id, reply.status)), next), dedup);
  }

  lemma MergeRead(tr: Trace, h: nat, d: Delivery, job: Job, dedup: bool) returns (tr': Trace)
    requires IsRun(tr, dedup) && h in Last(tr).handlers && Last(tr).handlers[h] == InWebhook(WMergeRead(d, job))
    requires d.snap.id in Last(tr).rows
    ensures Continues(tr, tr', h, [Returns], dedup)
    ensures Last(tr') == At(Last(tr), h, InWebhook(WMergeWrite(d, job, Last(tr).rows[d.snap.id].payload)))
  {
    tr' := Play(tr, h, Returns, Turn(NoEffect, InWebhook(WMergeWrite(d, job, Last(tr).rows[d.snap.id].payload))), dedup);
  }

  lemma MergeWrite(tr: Trace, h: nat, d: Delivery, job: Job, read: Payload, dedup: bool) returns (tr': Trace)
    requires IsRun(tr, dedup) && h in Last(tr).handlers && Last(tr).handlers[h] == InWebhook(WMergeWrite(d, job, read))
    requires d.snap.id in Last(tr).rows
    ensures Continues(tr, tr', h, [Returns], dedup)
    ensures Last(tr') == At(SetRow(Last(tr), d.snap.id, MergeUpdate(Last(tr).rows[d.snap.id], JobStatus(job), read, JobParams(d, job))),
                            h, InWebhook(AfterMerge(d, job)))
  {
    var row := MergeUpdate(Last(tr).rows[d.snap.id], JobStatus(job), read, JobParams(d, job));
    IdFree(tr, d.snap.id, dedup);
    assert ProviderIdFree(Last(tr), d.snap.id, row);
    tr' := Play(tr, h, Returns, Turn(Update(d.snap.id, row), InWebhook(AfterMerge(d, job))), dedup);
  }

  function Sent(s: State, req: TopupRequest, o: LedgerOutcome): State {
    s.(ledger := if Credits(o) then s.ledger + [req] else s.ledger, log := s.log.(topups := s.log.topups + multiset{req.key}))
  }

  lemma SendTopUp(tr: Trace, h: nat, d: Delivery, req: TopupRequest, o: LedgerOutcome, dedup: bool) returns (tr': Trace)
    requires IsRun(tr, dedup) && h in Last(tr).handlers && Last(tr).handlers[h] == InWebhook(WTopup(d, req))
    requires LedgerAllows(dedup, Last(tr).ledger, req.key, o)
    ensures Continues(tr, tr', h, [Ledger(o)], dedup)
    ensures Last(tr') == At(Sent(Last(tr), req, o), h, InWebhook(WMergeRead(d, AfterTopup(req, o))))
  {
    tr' := Play(tr, h, Ledger(o), Turn(SendTopup(req, o), InWebhook(WMergeRead(d, AfterTopup(req, o)))), dedup);
  }

  lemma Notify(tr: Trace, h: nat, d: Delivery, req: TopupRequest, dedup: bool) returns (tr': Trace)
    requires IsRun(tr, dedup) && h in Last(tr).handlers && Last(tr).handlers[h] == InWebhook(WNotices(d, req))
    ensures Continues(tr, tr', h, [Returns], dedup)
    ensures Last(tr') == At(Last(tr), h, InWebhook(WRelease(d.lock)))
  {
    tr' := Play(tr, h, Returns, Turn(NoEffect, InWebhook(WRelease(d.lock))), dedup);
  }

  function Unlocked(s: State, h: nat, lock: string): State {
    s.(locks := s.locks - {lock}, log := s.log.(released := s.log.released + multiset{h}))
  }

  lemma Release(tr: Trace, h: nat, lock: string, dedup: bool) returns (tr': Trace)
    requires IsRun(tr, dedup) && h in Last(tr).handlers && Last(tr).handlers[h] == InWebhook(WRelease(lock))
    requires lock in Last(tr).locks && Last(tr).locks[lock] == h
    ensures Continues(tr, tr', h, [Returns], dedup)
    ensures Last(tr') == At(Unlocked(Last(tr), h, lock), h, Done)
  {
    tr' := Play(tr, h, Returns, Turn(DropLock(lock, true), Done), dedup);
  }

  // ---------- Phases of a delivery ----------

  /** Only the rows, the ledger and the locks may differ, and handler `h` stands at `pc`. */
  ghost predicate Became(s: State, s': State, h: nat, pc: Pc, rows: map<nat, PaymentRow>, ledger: seq<TopupRequest>, locks: map<string, nat>) {
    && s'.rows == rows && s'.ledger == ledger && s'.locks == locks && s'.transactions == s.transactions
    && h in s'.handlers && s'.handlers[h] == pc
  }

  function DeliveryOf(row: PaymentRow, id: nat, links: UserLinks, reply: ProviderReply, hook: string): Delivery {
    Delivery(row.terms.key, Snapshot(id, row, links), reply, hook)
  }

  lemma FindAndLock(tr: Trace, h: nat, id: nat, pid: string, hook: string, links: UserLinks, dedup: bool) returns (tr': Trace)
    requires IsRun(tr, dedup) && h in Last(tr).handlers && Last(tr).handlers[h] == InWebhook(WFind(pid, hook))
    requires IsClip(Last(tr), id, pid) && Last(tr).rows[id].terms.key !in Last(tr).locks
    ensures Continues(tr, tr', h, [Found(id, links)] + [Granted], dedup)
    ensures var s, key := Last(tr), Last(tr).rows[id].terms.key;
            Became(s, Last(tr'), h, InWebhook(WReread(pid, hook, key)), s.rows, s.ledger, s.locks[key := h])
    ensures Last(tr').log.topups == Last(tr).log.topups
  {
    var tr1 := Find(tr, h, id, pid, hook, links, dedup);
    tr' := Lock(tr1, h, pid, hook, Last(tr).rows[id].terms.key, dedup);
    Chain(tr, tr1, tr', h, [Found(id, links)], [Granted], dedup);
  }

  lemma RereadAndQuery(tr: Trace, h: nat, id: nat, pid: string, hook: string, lock: string, links: UserLinks,
                       reply: ProviderReply, dedup: bool) returns (tr': Trace)
    requires IsRun(tr, dedup) && h in Last(tr).handlers && Last(tr).handlers[h] == InWebhook(WReread(pid, hook, lock))
    requires IsClip(Last(tr), id, pid)
    ensures Continues(tr, tr', h, [Found(id, links)] + [Replies(reply)], dedup)
    ensures var s, d := Last(tr), Delivery(lock, Snapshot(id, Last(tr).rows[id], links), reply, hook);
            Became(s, Last(tr'), h, InWebhook(WMergeRead(d, Confirm(MapClipStatus(reply.status)))), s.rows, s.ledger, s.locks)
    ensures Last(tr').log.topups == Last(tr).log.topups
  {
    var tr1 := Reread(tr, h, id, pid, hook, lock, links, dedup);
    tr' := Query(tr1, h, hook, lock, Snapshot(id, Last(tr).rows[id], links), reply, dedup);
    Chain(tr, tr1, tr', h, [Found(id, links)], [Replies(reply)], dedup);
  }

  function Arrival(id: nat, links: UserLinks, reply: ProviderReply): seq<Answer> {
    ([Found(id, links)] + [Granted]) + ([Found(id, links)] + [Replies(reply)])
  }

  lemma Arrive(tr: Trace, h: nat, id: nat, pid: string, hook: string, links: UserLinks, reply: ProviderReply, dedup: bool)
    returns (tr': Trace)
    requires IsRun(tr, dedup) && h in Last(tr).handlers && Last(tr).handlers[h] == InWebhook(WFind(pid, hook))
    requires IsClip(Last(tr), id, pid) && Last(tr).rows[id].terms.key !in Last(tr).locks
    ensures Continues(tr, tr', h, Arrival(id, links, reply), dedup)
    ensures var s, d := Last(tr), DeliveryOf(Last(tr).rows[id], id, links, reply, hook);
            Became(s, Last(tr'), h, InWebhook(WMergeRead(d, Confirm(MapClipStatus(reply.status)))),
                   s.rows, s.ledger, s.locks[d.lock := h])
    ensures Last(tr').log.topups == Last(tr).log.topups
  {
    var tr1 := FindAndLock(tr, h, id, pid, hook, links, dedup);
    tr' := RereadAndQuery(tr1, h, id, pid, hook, Last(tr).rows[id].terms.key, links, reply, dedup);
    Chain(tr, tr1, tr', h, [Found(id, links)] + [Granted], [Found(id, links)] + [Replies(reply)], dedup);
  }

  /** The row after a delivery merged `job` into it. */
  function Merged(row: PaymentRow, d: Delivery, job: Job): PaymentRow {
    MergeUpdate(row, JobStatus(job), row.payload, JobParams(d, job))
  }

  /** A read-merge-write with nobody in between. */
  lemma Merge(tr: Trace, h: nat, d: Delivery, job: Job, dedup: bool) returns (tr': Trace)
    requires IsRun(tr, dedup) && h in Last(tr).handlers && Last(tr).handlers[h] == InWebhook(WMergeRead(d, job))
    requires d.snap.id in Last(tr).rows
    ensures Continues(tr, tr', h, [Returns] + [Returns], dedup)
    ensures var s, id := Last(tr), d.snap.id;
            Became(s, Last(tr'), h, InWebhook(AfterMerge(d, job)), s.rows[id := Merged(s.rows[id], d, job)], s.ledger, s.locks)
    ensures Last(tr').log.topups == Last(tr).log.topups
  {
    var tr1 := MergeRead(tr, h, d, job, dedup);
    tr' := MergeWrite(tr1, h, d, job, Last(tr).rows[d.snap.id].payload, dedup);
    Chain(tr, tr1, tr', h, [Returns], [Returns], dedup);
  }

  // ---------- What a delivery does ----------

  /** What an approved delivery finds: its row, a free lock, and a wallet to credit. */
  ghost predicate Deliverable(s: State, h: nat, id: nat, pid: string, hook: string, links: UserLinks, reply: ProviderReply) {
    && h in s.handlers && s.handlers[h] == InWebhook(WFind(pid, hook))
    && IsClip(s, id, pid) && s.rows[id].terms.key !in s.locks
    && MapClipStatus(reply.status) == Completed
    && BuildTopupRequest(s.rows[id].terms, links).Some?
  }

  /** COMPLETED, marked with the amount fixed at creation, holding the provider's answer, otherwise the same row. */
  ghost predicate CreditRecorded(row: PaymentRow, row': PaymentRow, reply: ProviderReply) {
    && row'.terms == row.terms && row'.providerPaymentId == row.providerPaymentId
    && row'.status == Completed && HasCompletedTopup(row'.payload)
    && StoredMarker(row'.payload).value.amount == CreditAmount(row.terms)
    && StoredMarker(row'.payload).value.externalTransactionId == row.terms.key
    && ProviderPayment in row'.payload && row'.payload[ProviderPayment] == ReplyValue(reply)
  }

  lemma MarksRow(d: Delivery, req: TopupRequest, job: Job)
    requires (job == Credited(req) || job == Duplicate(req)) && BuildTopupRequest(d.snap.row.terms, d.snap.links) == Some(req)
    ensures CreditRecorded(d.snap.row, Merged(Merged(d.snap.row, d, Confirm(Completed)), d, job), d.reply)
  {
  }

  /** From the approval to the ledger's answer. */
  lemma ConfirmAndSend(tr: Trace, h: nat, d: Delivery, req: TopupRequest, o: LedgerOutcome, dedup: bool) returns (tr': Trace)
    requires IsRun(tr, dedup) && h in Last(tr).handlers && Last(tr).handlers[h] == InWebhook(WMergeRead(d, Confirm(Completed)))
    requires d.snap.id in Last(tr).rows && Last(tr).rows[d.snap.id] == d.snap.row
    requires !HasCompletedTopup(d.snap.row.payload) && BuildTopupRequest(d.snap.row.terms, d.snap.links) == Some(req)
    requires LedgerAllows(dedup, Last(tr).ledger, req.key, o)
    ensures Continues(tr, tr', h, ([Returns] + [Returns]) + [Ledger(o)], dedup)
    ensures var s, id := Last(tr), d.snap.id;
            Became(s, Last(tr'), h, InWebhook(WMergeRead(d, AfterTopup(req, o))), s.rows[id := Merged(d.snap.row, d, Confirm(Completed))],
                   if Credits(o) then s.ledger + [req] else s.ledger, s.locks)
  {
    var tr1 := Merge(tr, h, d, Confirm(Completed), dedup);
    tr' := SendTopUp(tr1, h, d, req, o, dedup);
    Chain(tr, tr1, tr', h, [Returns] + [Returns], [Ledger(o)], dedup);
  }

  function ToMarker(id: nat, links: UserLinks, reply: ProviderReply, o: LedgerOutcome): seq<Answer> {
    Arrival(id, links, reply) + (([Returns] + [Returns]) + [Ledger(o)])
  }

  lemma UpToLedger(tr: Trace, h: nat, id: nat, pid: string, hook: string, links: UserLinks, reply: ProviderReply,
                   o: LedgerOutcome, dedup: bool) returns (tr': Trace)
    requires IsRun(tr, dedup) && Deliverable(Last(tr), h, id, pid, hook, links, reply) && !HasCompletedTopup(Last(tr).rows[id].payload)
    requires LedgerAllows(dedup, Last(tr).ledger, Last(tr).rows[id].terms.key, o)
    ensures Continues(tr, tr', h, ToMarker(id, links, reply, o), dedup)
    ensures var s, row := Last(tr), Last(tr).rows[id];
            var d, req := DeliveryOf(row, id, links, reply, hook), BuildTopupRequest(row.terms, links).value;
            Became(s, Last(tr'), h, InWebhook(WMergeRead(d, AfterTopup(req, o))), s.rows[id := Merged(row, d, Confirm(Completed))],
                   if Credits(o) then s.ledger + [req] else s.ledger, s.locks[d.lock := h])
  {
    var row := Last(tr).rows[id];
    var d, req := DeliveryOf(row, id, links, reply, hook), BuildTopupRequest(row.terms, links).value;
    var tr1 := Arrive(tr, h, id, pid, hook, links, reply, dedup);
    tr' := ConfirmAndSend(tr1, h, d, req, o, dedup);
    Chain(tr, tr1, tr', h, Arrival(id, links, reply), ([Returns] + [Returns]) + [Ledger(o)], dedup);
  }

  lemma StoreMarker(tr: Trace, h: nat, d: Delivery, req: TopupRequest, o: LedgerOutcome, dedup: bool) returns (tr': Trace)
    requires IsRun(tr, dedup) && h in Last(tr).handlers && Last(tr).handlers[h] == InWebhook(WMergeRead(d, AfterTopup(req, o)))
    requires d.snap.id in Last(tr).rows && Last(tr).rows[d.snap.id] == Merged(d.snap.row, d, Confirm(Completed))
    requires BuildTopupRequest(d.snap.row.terms, d.snap.links) == Some(req) && (o.Accepted? || o.Conflict?)
    ensures Continues(tr, tr', h, [Returns] + [Returns], dedup)
    ensures var s, id := Last(tr), d.snap.id;
            && id in Last(tr').rows && CreditRecorded(d.snap.row, Last(tr').rows[id], d.reply)
            && Became(s, Last(tr'), h, InWebhook(AfterMerge(d, AfterTopup(req, o))), s.rows[id := Last(tr').rows[id]], s.ledger, s.locks)
  {
    tr' := Merge(tr, h, d, AfterTopup(req, o), dedup);
    MarksRow(d, req, AfterTopup(req, o));
  }

  lemma Overwrites(rows: map<nat, PaymentRow>, id: nat, a: PaymentRow, b: PaymentRow)
    ensures rows[id := a][id := b] == rows[id := b]
  {
  }

  lemma UpToMarker(tr: Trace, h: nat, id: nat, pid: string, hook: string, links: UserLinks, reply: ProviderReply,
                   o: LedgerOutcome, dedup: bool) returns (tr': Trace)
    requires IsRun(tr, dedup) && Deliverable(Last(tr), h, id, pid, hook, links, reply) && !HasCompletedTopup(Last(tr).rows[id].payload)
    requires (o.Accepted? || o.Conflict?) && LedgerAllows(dedup, Last(tr).ledger, Last(tr).rows[id].terms.key, o)
    ensures Continues(tr, tr', h, ToMarker(id, links, reply, o) + ([Returns] + [Returns]), dedup)
    ensures var s, row := Last(tr), Last(tr).rows[id];
            var d, req := DeliveryOf(row, id, links, reply, hook), BuildTopupRequest(row.terms, links).value;
            && id in Last(tr').rows && CreditRecorded(row, Last(tr').rows[id], reply)
            && Became(s, Last(tr'), h, InWebhook(AfterMerge(d, AfterTopup(req, o))), s.rows[id := Last(tr').rows[id]],
                      if Credits(o) then s.ledger + [req] else s.ledger, s.locks[d.lock := h])
  {
    var row := Last(tr).rows[id];
    var d, req := DeliveryOf(row, id, links, reply, hook), BuildTopupRequest(row.terms, links).value;
    var tr1 := UpToLedger(tr, h, id, pid, hook, links, reply, o, dedup);
    tr' := StoreMarker(tr1, h, d, req, o, dedup);
    Chain(tr, tr1, tr', h, ToMarker(id, links, reply, o), [Returns] + [Returns], dedup);
    Overwrites(Last(tr).rows, id, Merged(row, d, Confirm(Completed)), Last(tr').rows[id]);
  }

  lemma NotifyAndRelease(tr: Trace, h: nat, d: Delivery, req: TopupRequest, dedup: bool) returns (tr': Trace)
    requires IsRun(tr, dedup) && h in Last(tr).handlers && Last(tr).handlers[h] == InWebhook(WNotices(d, req))
    requires d.lock in Last(tr).locks && Last(tr).locks[d.lock] == h
    ensures Continues(tr, tr', h, [Returns] + [Returns], dedup)
    ensures var s := Last(tr); Became(s, Last(tr'), h, Done, s.rows, s.ledger, s.locks - {d.lock})
  {
    var tr1 := Notify(tr, h, d, req, dedup);
    tr' := Release(tr1, h, d.lock, dedup);
    Chain(tr, tr1, tr', h, [Returns], [Returns], dedup);
  }

  /** The answers of a delivery whose top-up is accepted. */
  function Crediting(id: nat, links: UserLinks, reply: ProviderReply): seq<Answer> {
    (ToMarker(id, links, reply, Accepted) + ([Returns] + [Returns])) + ([Returns] + [Returns])
  }

  /**
   * An approved delivery on a payment without a marker credits the wallet once with the amount fixed at
   * creation, records it, leaves every other row, lock and transaction alone, and frees the lock.
   */
  lemma WebhookCredits(tr: Trace, h: nat, id: nat, pid: string, hook: string, links: UserLinks, reply: ProviderReply, dedup: bool)
    returns (tr': Trace)
    requires IsRun(tr, dedup) && Deliverable(Last(tr), h, id, pid, hook, links, reply) && !HasCompletedTopup(Last(tr).rows[id].payload)
    requires dedup ==> !LedgerHas(Last(tr).ledger, Last(tr).rows[id].terms.key)
    ensures Continues(tr, tr', h, Crediting(id, links, reply), dedup)
    ensures var s, s' := Last(tr), Last(tr');
            && id in s'.rows && CreditRecorded(s.rows[id], s'.rows[id], reply)
            && Became(s, s', h, Done, s.rows[id := s'.rows[id]], s.ledger + [BuildTopupRequest(s.rows[id].terms, links).value], s.locks)
  {
    var row := Last(tr).rows[id];
    var d, req := DeliveryOf(row, id, links, reply, hook), BuildTopupRequest(row.terms, links).value;
    var tr1 := UpToMarker(tr, h, id, pid, hook, links, reply, Accepted, dedup);
    tr' := NotifyAndRelease(tr1, h, d, req, dedup);
    Chain(tr, tr1, tr', h, ToMarker(id, links, reply, Accepted) + ([Returns] + [Returns]), [Returns] + [Returns], dedup);
    assert Last(tr').locks == Last(tr).locks;
  }

  function Repairing(id: nat, links: UserLinks, reply: ProviderReply): seq<Answer> {
    (ToMarker(id, links, reply, Conflict) + ([Returns] + [Returns])) + [Returns]
  }

  /** When the ledger already holds the key, a delivery only repairs the marker. */
  lemma WebhookRepairsMarker(tr: Trace, h: nat, id: nat, pid: string, hook: string, links: UserLinks, reply: ProviderReply)
    returns (tr': Trace)
    requires IsRun(tr, true) && Deliverable(Last(tr), h, id, pid, hook, links, reply) && !HasCompletedTopup(Last(tr).rows[id].payload)
    requires LedgerHas(Last(tr).ledger, Last(tr).rows[id].terms.key)
    ensures Continues(tr, tr', h, Repairing(id, links, reply), true)
    ensures var s, s' := Last(tr), Last(tr');
            && id in s'.rows && CreditRecorded(s.rows[id], s'.rows[id], reply)
            && Became(s, s', h, Done, s.rows[id := s'.rows[id]], s.ledger, s.locks)
  {
    var key := Last(tr).rows[id].terms.key;
    var tr1 := UpToMarker(tr, h, id, pid, hook, links, reply, Conflict, true);
    tr' := Release(tr1, h, key, true);
    Chain(tr, tr1, tr', h, ToMarker(id, links, reply, Conflict) + ([Returns] + [Returns]), [Returns], true);
    assert Last(tr').locks == Last(tr).locks;
  }

  function Redelivering(id: nat, links: UserLinks, reply: ProviderReply): seq<Answer> {
    (Arrival(id, links, reply) + ([Returns] + [Returns])) + [Returns]
  }

  lemma ConfirmMarked(tr: Trace, h: nat, id: nat, pid: string, hook: string, links: UserLinks, reply: ProviderReply, dedup: bool)
    returns (tr': Trace)
    requires IsRun(tr, dedup) && Deliverable(Last(tr), h, id, pid, hook, links, reply) && HasCompletedTopup(Last(tr).rows[id].payload)
    ensures Continues(tr, tr', h, Arrival(id, links, reply) + ([Returns] + [Returns]), dedup)
    ensures var s, s', key := Last(tr), Last(tr'), Last(tr).rows[id].terms.key;
            && id in s'.rows && Became(s, s', h, InWebhook(WRelease(key)), s.rows[id := s'.rows[id]], s.ledger, s.locks[key := h])
            && s'.log.topups == s.log.topups
            && s'.rows[id].status == Completed && StoredMarker(s'.rows[id].payload) == StoredMarker(s.rows[id].payload)
  {
    var row := Last(tr).rows[id];
    var d := DeliveryOf(row, id, links, reply, hook);
    var tr1 := Arrive(tr, h, id, pid, hook, links, reply, dedup);
    tr' := Merge(tr1, h, d, Confirm(Completed), dedup);
    Chain(tr, tr1, tr', h, Arrival(id, links, reply), [Returns] + [Returns], dedup);
    MergeMarker(row.payload, JobParams(d, Confirm(Completed)));
  }

  /** A redelivery on a marked payment never reaches the ledger and keeps the marker. */
  lemma RedeliveryIsHarmless(tr: Trace, h: nat, id: nat, pid: string, hook: string, links: UserLinks, reply: ProviderReply, dedup: bool)
    returns (tr': Trace)
    requires IsRun(tr, dedup) && Deliverable(Last(tr), h, id, pid, hook, links, reply) && HasCompletedTopup(Last(tr).rows[id].payload)
    ensures Continues(tr, tr', h, Redelivering(id, links, reply), dedup)
    ensures var s, s' := Last(tr), Last(tr');
            && id in s'.rows && Became(s, s', h, Done, s.rows[id := s'.rows[id]], s.ledger, s.locks) && s'.log.topups == s.log.topups
            && s'.rows[id].status == Completed && StoredMarker(s'.rows[id].payload) == StoredMarker(s.rows[id].payload)
  {
    var key := Last(tr).rows[id].terms.key;
    var tr1 := ConfirmMarked(tr, h, id, pid, hook, links, reply, dedup);
    tr' := Release(tr1, h, key, dedup);
    Chain(tr, tr1, tr', h, Arrival(id, links, reply) + ([Returns] + [Returns]), [Returns], dedup);
    assert Last(tr').locks == Last(tr).locks;
  }
}
