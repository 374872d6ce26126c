/**
 * The two payment repositories over one table: every statement keeps the table's unique
 * indexes and the terms of every row, and the QR reply rebuilt from a row is the original one.
 */
module PaymentStore {
  import opened Prelude
  import opened Payments
  import NamedLock

  type Rows = map<nat, PaymentRow>

  ghost predicate KeysUnique(rows: Rows) {
    forall i, j | i in rows && j in rows && rows[i].terms.key == rows[j].terms.key :: i == j
  }

  predicate SameProviderId(a: PaymentRow, b: PaymentRow) {
    a.providerPaymentId.Some? && a.terms.provider == b.terms.provider && a.providerPaymentId == b.providerPaymentId
  }

  /** No other row of the provider has this row's provider id. */
  predicate IdFits(rows: Rows, id: nat, row: PaymentRow) {
    forall i | i in rows && i != id :: !SameProviderId(row, rows[i])
  }

  ghost predicate ProviderIdsUnique(rows: Rows) {
    forall i, j | i in rows && j in rows && SameProviderId(rows[i], rows[j]) :: i == j
  }

  ghost predicate ReferencesUnique(ts: seq<Transaction>) {
    forall i, j | 0 <= i < j < |ts| :: ts[i].reference != ts[j].reference
  }

  /** Everything about `rows` but the row `id` is as before, and no row's terms changed. */
  ghost predicate OnlyRow(before: Rows, after: Rows, id: nat) {
    && after.Keys == before.Keys
    && (forall i | i in before && i != id :: after[i] == before[i])
    && (id in before ==> after[id].terms == before[id].terms)
  }

  function ClipTerms(userId: nat, gross: int, net: int, netMxn: Option<int>, currency: Option<string>, key: string): Terms {
    Terms(userId, Clip, None, key, gross, currency.GetOr("MXN"), net, Some(netMxn.GetOr(net)))
  }

  function SipTerms(userId: nat, orderId: string, amount: int, currency: string, netMxn: Option<int>, key: string): Terms {
    Terms(userId, Sip, Some(orderId), key, amount, currency, 0, Some(netMxn.GetOr(0)))
  }

  class Store {
    var rows: Rows
    var nextId: nat
    var locks: NamedLock.Locks
    var transactions: seq<Transaction>

    ghost predicate Valid()
      reads this
    {
      && KeysUnique(rows) && ProviderIdsUnique(rows) && ReferencesUnique(transactions)
      && forall id | id in rows :: id < nextId
    }

    constructor ()
      ensures Valid() && rows == map[] && locks == map[] && transactions == []
    {
      rows, nextId, locks, transactions := map[], 0, map[], [];
    }

    /** INSERT under the unique key index; None is the constraint violation. */
    method InsertRow(t: Terms) returns (id: Option<nat>)
      requires Valid()
      modifies this`rows, this`nextId
      ensures Valid()
      ensures id.None? <==> exists i :: i in old(rows) && old(rows)[i].terms.key == t.key
      ensures id.None? ==> rows == old(rows)
      ensures id.Some? ==> id.value !in old(rows) && rows == old(rows)[id.value := PaymentRow(t, Pending, None, map[])]
    {
      if exists i | i in rows :: rows[i].terms.key == t.key {
        return None;
      }
      id := Some(nextId);
      rows, nextId := rows[nextId := PaymentRow(t, Pending, None, map[])], nextId + 1;
    }

    method CreatePayment(userId: nat, gross: int, net: int, netMxn: Option<int>, currency: Option<string>, key: string)
      returns (id: Option<nat>)
      requires Valid()
      modifies this`rows, this`nextId
      ensures Valid()
      ensures id.None? <==> exists i :: i in old(rows) && old(rows)[i].terms.key == key
      ensures id.None? ==> rows == old(rows)
      ensures id.Some? ==> id.value !in old(rows) && id.value in rows && rows == old(rows)[id.value := rows[id.value]]
      ensures id.Some? ==>
                var row := rows[id.value];
                && row.status == Pending && row.providerPaymentId == None && row.payload == map[]
                && row.terms.userId == userId && row.terms.provider == Clip && row.terms.orderId == None && row.terms.key == key
                && row.terms.amount == gross && row.terms.netAmount == net && row.terms.currency == currency.GetOr("MXN")
                && CreditAmount(row.terms) == netMxn.GetOr(net)
    {
      id := InsertRow(ClipTerms(userId, gross, net, netMxn, currency, key));
    }

    method CreateSipPayment(userId: nat, orderId: string, amount: int, currency: string, netMxn: Option<int>, key: string)
      returns (id: Option<nat>)
      requires Valid()
      modifies this`rows, this`nextId
      ensures Valid()
      ensures id.None? <==> exists i :: i in old(rows) && old(rows)[i].terms.key == key
      ensures id.None? ==> rows == old(rows)
      ensures id.Some? ==> id.value !in old(rows) && id.value in rows && rows == old(rows)[id.value := rows[id.value]]
      ensures id.Some? ==>
                var row := rows[id.value];
                && row.status == Pending && row.providerPaymentId == None && row.payload == map[]
                && row.terms.userId == userId && row.terms.provider == Sip && row.terms.orderId == Some(orderId)
                && row.terms.key == key && row.terms.amount == amount && row.terms.currency == currency
                && row.terms.netAmount == 0 && CreditAmount(row.terms) == netMxn.GetOr(0)
    {
      id := InsertRow(SipTerms(userId, orderId, amount, currency, netMxn, key));
    }

    /** UPDATE of one row; refused when the row is missing or its provider id is taken. */
    method WriteRow(id: nat, row: PaymentRow) returns (ok: bool)
      requires Valid() && (id in rows ==> row.terms == rows[id].terms)
      modifies this`rows
      ensures Valid()
      ensures ok <==> id in old(rows) && IdFits(old(rows), id, row)
      ensures rows == if ok then old(rows)[id := row] else old(rows)
    {
      ok := id in rows && IdFits(rows, id, row);
      if ok {
        rows := rows[id := row];
      }
    }

    method UpdatePaymentStatus(id: nat, status: Status, reply: Option<ProviderReply>) returns (ok: bool)
      requires Valid()
      modifies this`rows
      ensures Valid() && OnlyRow(old(rows), rows, id)
      ensures ok <==> id in old(rows) && IdFits(old(rows), id, StatusUpdate(old(rows)[id], status, reply))
      ensures ok ==> rows == old(rows)[id := StatusUpdate(old(rows)[id], status, reply)]
      ensures id in old(rows) && (reply.None? || reply.value.id == "") ==> ok
      ensures ok ==> rows[id].status == status && !HasCompletedTopup(rows[id].payload)
      ensures !ok ==> rows == old(rows)
    {
      if id !in rows {
        return false;
      }
      ok := WriteRow(id, StatusUpdate(rows[id], status, reply));
    }

    method MergeWebhookProcessingResult(id: nat, status: Status, m: MergeParams) returns (ok: bool)
      requires Valid()
      modifies this`rows
      ensures Valid() && OnlyRow(old(rows), rows, id)
      ensures ok <==> id in old(rows)
      ensures ok ==> rows == old(rows)[id := MergeUpdate(old(rows)[id], status, old(rows)[id].payload, m)]
      ensures ok ==> StoredMarker(rows[id].payload) == if m.topup.Some? then m.topup else StoredMarker(old(rows)[id].payload)
      ensures ok ==> forall f | f in old(rows)[id].payload && f != ProviderPayment && f != ClipWebhook && f != Topup ::
                f in rows[id].payload && rows[id].payload[f] == old(rows)[id].payload[f]
      ensures !ok ==> rows == old(rows)
    {
      if id !in rows {
        return false;
      }
      var read := rows[id].payload;
      MergeMarker(read, m);
      ok := WriteRow(id, MergeUpdate(rows[id], status, read, m));
    }

    method SaveSipQrResponse(id: nat, q: QrObject) returns (ok: bool)
      requires Valid()
      modifies this`rows
      ensures Valid() && OnlyRow(old(rows), rows, id)
      ensures ok <==> id in old(rows) && IdFits(old(rows), id, SaveQrUpdate(old(rows)[id], q))
      ensures ok ==> rows == old(rows)[id := SaveQrUpdate(old(rows)[id], q)]
      ensures ok ==> CachedReply(id, rows[id]) == OriginalReply(id, rows[id].terms, q)
      ensures !ok ==> rows == old(rows)
    {
      if id !in rows {
        return false;
      }
      ok := WriteRow(id, SaveQrUpdate(rows[id], q));
    }

    method MarkFailed(id: nat, reason: string) returns (ok: bool)
      requires Valid()
      modifies this`rows
      ensures Valid() && OnlyRow(old(rows), rows, id)
      ensures ok <==> id in old(rows)
      ensures ok ==> rows == old(rows)[id := MarkFailedUpdate(old(rows)[id], reason)]
      ensures ok ==> rows[id].status == Failed && !HasCompletedTopup(rows[id].payload)
      ensures !ok ==> rows == old(rows)
    {
      if id !in rows {
        return false;
      }
      ok := WriteRow(id, MarkFailedUpdate(rows[id], reason));
    }

    method CompleteSipPayment(id: nat, cb: SipCallback) returns (ok: bool)
      requires Valid()
      modifies this`rows
      ensures Valid() && OnlyRow(old(rows), rows, id)
      ensures ok <==> id in old(rows)
      ensures ok ==> rows == old(rows)[id := CompleteSipUpdate(old(rows)[id], old(rows)[id].payload, cb)]
      ensures ok ==> rows[id].status == Completed && StoredMarker(rows[id].payload) == StoredMarker(old(rows)[id].payload)
      ensures !ok ==> rows == old(rows)
    {
      if id !in rows {
        return false;
      }
      var read := rows[id].payload;
      ok := WriteRow(id, CompleteSipUpdate(rows[id], read, cb));
    }

    method CreateTopupIfNotExists(userId: nat, amount: int, reference: string)
      requires Valid()
      modifies this`transactions
      ensures Valid()
      ensures if exists k :: 0 <= k < |old(transactions)| && old(transactions)[k].reference == reference
              then transactions == old(transactions)
              else transactions == old(transactions) + [Transaction(reference, userId, amount)]
      ensures old(transactions) <= transactions
      ensures exists k :: 0 <= k < |transactions| && transactions[k].reference == reference &&
                          forall j | 0 <= j < |transactions| && transactions[j].reference == reference :: j == k
    {
      if exists k | 0 <= k < |transactions| :: transactions[k].reference == reference {
        return;
      }
      transactions := transactions + [Transaction(reference, userId, amount)];
      assert transactions[|transactions| - 1].reference == reference;
    }

    /** Acquiring on connection `c`: while `c` holds the name, every other connection is refused. */
    method AcquirePaymentLock(name: string, c: nat) returns (acquired: bool)
      modifies this`locks
      ensures acquired <==> NamedLock.Grants(old(locks), name, c)
      ensures locks == NamedLock.Apply(old(locks), NamedLock.Get(name, c))
      ensures acquired <==> NamedLock.HeldBy(locks, name, c)
      ensures acquired ==> forall d: nat | d != c :: !NamedLock.Grants(locks, name, d)
      ensures !acquired ==> locks == old(locks)
    {
      acquired := name !in locks || locks[name].connection == c;
      if acquired {
        locks := locks[name := NamedLock.Held(c, if name in locks then locks[name].depth + 1 else 1)];
      }
    }

    /** Releasing on connection `c`: only its holder can free a name, and no other name changes. */
    method ReleasePaymentLock(name: string, c: nat)
      modifies this`locks
      ensures locks == NamedLock.Apply(old(locks), NamedLock.Free(name, c))
      ensures !NamedLock.HeldBy(old(locks), name, c) ==> locks == old(locks)
      ensures NamedLock.HeldBy(old(locks), name, c) && old(locks)[name].depth == 1 ==> forall d :: NamedLock.Grants(locks, name, d)
      ensures forall other | other != name :: (other in locks <==> other in old(locks)) && (other in locks ==> locks[other] == old(locks)[other])
    {
      if name in locks && locks[name].connection == c {
        locks := if locks[name].depth <= 1 then locks - {name} else locks[name := NamedLock.Held(c, locks[name].depth - 1)];
      }
    }
  }

  // ---------- The QR reply ----------

  datatype QrReply = QrReply(
    paymentId: nat,
    orderId: string,
    qrBase64: string,
    expiresAt: string,
    idQr: Option<string>,
    idTransaccion: Option<int>,
    bancoDestino: Option<string>,
    cuentaDestino: Option<string>)

  function TextAt(p: Payload, f: Field): Option<string> {
    if f in p && p[f].Text? then Some(p[f].text) else None
  }

  function NumberAt(p: Payload, f: Field): Option<int> {
    if f in p && p[f].Number? then Some(p[f].number) else None
  }

  /** What the first request answers, from SIP's own object. */
  function OriginalReply(id: nat, t: Terms, q: QrObject): QrReply {
    QrReply(id, t.orderId.GetOr(""), q.imagenQr, q.fechaVencimiento,
            Some(q.idQr), Some(q.idTransaccion), Some(q.bancoDestino), Some(q.cuentaDestino))
  }

  /** What a repeated request answers, rebuilt from the stored row. */
  function CachedReply(id: nat, row: PaymentRow): QrReply {
    QrReply(id, row.terms.orderId.GetOr(""),
            TextAt(row.payload, ImagenQr).GetOr(""), TextAt(row.payload, FechaVencimiento).GetOr(""),
            row.providerPaymentId, NumberAt(row.payload, IdTransaccion),
            TextAt(row.payload, BancoDestino), TextAt(row.payload, CuentaDestino))
  }

  /** The later writes to a SIP row, each repository merge taken as one step. */
  datatype SipWrite =
    | CompletedBy(cb: SipCallback)
    | ToppedUp(status: Status, marker: TopupMarker)
    | Mismatched(reason: string)

  function Written(row: PaymentRow, w: SipWrite): PaymentRow {
    match w
    case CompletedBy(cb) => CompleteSipUpdate(row, row.payload, cb)
    case ToppedUp(status, marker) => MergeUpdate(row, status, row.payload, MergeParams(None, None, Some(marker)))
    case Mismatched(reason) => MarkFailedUpdate(row, reason)
  }

  function WrittenAll(row: PaymentRow, ws: seq<SipWrite>): PaymentRow {
    if ws == [] then row else Written(WrittenAll(row, ws[..|ws| - 1]), ws[|ws| - 1])
  }

  lemma MismatchErases(row: PaymentRow, id: nat, w: SipWrite)
    ensures if w.Mismatched? then CachedReply(id, Written(row, w)).idTransaccion == None
            else CachedReply(id, Written(row, w)) == CachedReply(id, row)
  {
  }

  /** A mismatch anywhere in the history leaves the rebuilt reply without its transaction id. */
  lemma {:induction false} MismatchStays(row: PaymentRow, id: nat, ws: seq<SipWrite>, k: nat)
    requires k < |ws| && ws[k].Mismatched?
    ensures CachedReply(id, WrittenAll(row, ws)).idTransaccion == None
  {
    var n := |ws| - 1;
    MismatchErases(WrittenAll(row, ws[..n]), id, ws[n]);
    if !ws[n].Mismatched? {
      MismatchStays(row, id, ws[..n], k);
    }
  }

  lemma {:induction false} MergesKeepReply(row: PaymentRow, id: nat, ws: seq<SipWrite>)
    requires forall k | 0 <= k < |ws| :: !ws[k].Mismatched?
    ensures CachedReply(id, WrittenAll(row, ws)) == CachedReply(id, row)
  {
    if ws != [] {
      var n := |ws| - 1;
      MergesKeepReply(row, id, ws[..n]);
      MismatchErases(WrittenAll(row, ws[..n]), id, ws[n]);
    }
  }

  /**
   * After the QR was saved and any history of later writes, a repeated request gets the original
   * reply if and only if no mismatching callback was recorded.
   */
  lemma CachedReplyAgrees(row: PaymentRow, id: nat, q: QrObject, ws: seq<SipWrite>)
    ensures CachedReply(id, WrittenAll(SaveQrUpdate(row, q), ws)) == OriginalReply(id, row.terms, q)
            <==> forall k | 0 <= k < |ws| :: !ws[k].Mismatched?
  {
    var saved := SaveQrUpdate(row, q);
    assert CachedReply(id, saved) == OriginalReply(id, row.terms, q);
    if k :| 0 <= k < |ws| && ws[k].Mismatched? {
      MismatchStays(saved, id, ws, k);
    } else {
      MergesKeepReply(saved, id, ws);
    }
  }
}
