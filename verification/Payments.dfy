/**
 * Payment rows, the provider status mapping, the top-up request and the row updates
 * performed by the two payment repositories.
 */
module Payments {
  import opened Prelude

  datatype Status = Pending | Processing | Completed | Failed | Cancelled

  datatype Provider = Clip | Sip

  /** The columns that creation fixes and no statement of the repositories updates.  Money is in cents. */
  datatype Terms = Terms(
    userId: nat,
    provider: Provider,
    orderId: Option<string>,
    key: string,
    amount: int,
    currency: string,
    netAmount: int,
    netAmountMxn: Option<int>)

  datatype PaymentRow = PaymentRow(
    terms: Terms,
    status: Status,
    providerPaymentId: Option<string>,
    payload: Payload)

  /** The `response_payload` JSON object; a null column reads like an empty object. */
  type Payload = map<Field, Json>

  datatype Field =
    | ProviderPayment | ClipWebhook | Topup | Callback | Reason
    | ReplyId | ReplyStatus
    | ImagenQr | IdQr | FechaVencimiento | BancoDestino | CuentaDestino | IdTransaccion

  datatype Json =
    | Text(text: string)
    | Number(number: int)
    | OptText(optText: Option<string>)
    | MarkerValue(marker: TopupMarker)
    | CallbackValue(callback: SipCallback)
    | ReplyValue(reply: ProviderReply)

  datatype TopupMarker = TopupMarker(
    status: Status,
    externalTransactionId: string,
    amount: int,
    balanceId: nat,
    sourceCustomerId: nat)

  /** What the card provider answers: its payment id and a free-form status string. */
  datatype ProviderReply = ProviderReply(id: string, status: Option<string>)

  datatype SipCallback = SipCallback(alias: string, monto: Option<real>, moneda: Option<string>)

  datatype QrObject = QrObject(
    imagenQr: string,
    idQr: string,
    fechaVencimiento: string,
    bancoDestino: string,
    cuentaDestino: string,
    idTransaccion: int)

  datatype Transaction = Transaction(reference: string, userId: nat, amount: int)

  // ---------- Provider status ----------

  function LowerChar(c: char): char {
    if 'A' <= c <= 'Z' then (c as int + 32) as char else c
  }

  function Lower(s: string): string {
    if s == "" then "" else [LowerChar(s[0])] + Lower(s[1..])
  }

  function MapLowered(s: string): Status {
    if s in {"approved", "succeeded", "completed"} then Completed
    else if s in {"pending", "in_process", "authorized"} then Processing
    else if s in {"rejected", "failed", "declined"} then Failed
    else if s in {"cancelled", "canceled"} then Cancelled
    else Pending
  }

  function MapClipStatus(status: Option<string>): Status {
    match status
    case None => Pending
    case Some(s) => MapLowered(Lower(s))
  }

  /** Before the webhook confirms it, an approved charge is only PROCESSING. */
  function MapClipStatusBeforeWebhook(status: Option<string>): (r: Status)
    ensures r != Completed
  {
    if MapClipStatus(status) == Completed then Processing else MapClipStatus(status)
  }

  // ---------- Top-up request ----------

  datatype BackofficeIds = BackofficeIds(ewallet: Option<nat>, customer: Option<nat>)

  /** The two backoffice records joined to the payment's user. */
  datatype UserLinks = UserLinks(authState: Option<BackofficeIds>, profile: Option<BackofficeIds>)

  datatype TopupRequest = TopupRequest(key: string, balanceId: nat, amount: int, sourceCustomerId: nat)

  function CreditAmount(t: Terms): int {
    t.netAmountMxn.GetOr(t.netAmount)
  }

  function Resolve(own: Option<nat>, profile: Option<BackofficeIds>, pick: BackofficeIds -> Option<nat>): Option<nat> {
    if own.Some? then own
    else if profile.Some? then pick(profile.value)
    else None
  }

  /** None where the source throws: no auth state, no profile to fall back on, or a missing or zero id. */
  function BuildTopupRequest(t: Terms, links: UserLinks): Option<TopupRequest> {
    if links.authState.None? then None
    else
      var ewallet := Resolve(links.authState.value.ewallet, links.profile, (b: BackofficeIds) => b.ewallet);
      var customer := Resolve(links.authState.value.customer, links.profile, (b: BackofficeIds) => b.customer);
      if ewallet.None? || customer.None? || ewallet.value == 0 || customer.value == 0 then None
      else Some(TopupRequest(t.key, ewallet.value, CreditAmount(t), customer.value))
  }

  function BuildTopupMarker(req: TopupRequest, status: Status): TopupMarker {
    TopupMarker(status, req.key, req.amount, req.balanceId, req.sourceCustomerId)
  }

  // ---------- Payload merging ----------

  datatype MergeParams = MergeParams(provider: Option<ProviderReply>, webhook: Option<string>, topup: Option<TopupMarker>)

  function Overlay(m: MergeParams): Payload {
    (if m.provider.Some? then map[ProviderPayment := ReplyValue(m.provider.value)] else map[])
    + (if m.webhook.Some? then map[ClipWebhook := Text(m.webhook.value)] else map[])
    + (if m.topup.Some? then map[Topup := MarkerValue(m.topup.value)] else map[])
  }

  /** The stored object with each of the three fields overwritten where a new value is given. */
  function MergePayload(current: Payload, m: MergeParams): Payload {
    current + Overlay(m)
  }

  function StoredMarker(p: Payload): Option<TopupMarker> {
    if Topup in p && p[Topup].MarkerValue? then Some(p[Topup].marker) else None
  }

  predicate HasCompletedTopup(p: Payload) {
    StoredMarker(p).Some? && StoredMarker(p).value.status == Completed
  }

  lemma MergeMarker(p: Payload, m: MergeParams)
    ensures StoredMarker(MergePayload(p, m)) == if m.topup.Some? then m.topup else StoredMarker(p)
  {
  }

  function ReplyPayload(r: ProviderReply): Payload {
    map[ReplyId := Text(r.id), ReplyStatus := OptText(r.status)]
  }

  function QrPayload(q: QrObject): Payload {
    map[ImagenQr := Text(q.imagenQr), IdQr := Text(q.idQr), FechaVencimiento := Text(q.fechaVencimiento),
        BancoDestino := Text(q.bancoDestino), CuentaDestino := Text(q.cuentaDestino),
        IdTransaccion := Number(q.idTransaccion)]
  }

  // ---------- Row updates ----------

  /** `updatePaymentStatus`: the payload is replaced, by an empty object when no reply is given. */
  function StatusUpdate(row: PaymentRow, status: Status, reply: Option<ProviderReply>): PaymentRow {
    row.(status := status,
    providerPaymentId := if reply.Some? && reply.value.id != "" then Some(reply.value.id) else row.providerPaymentId,
    payload := if reply.Some? then ReplyPayload(reply.value) else map[])
  }

  /** `mergeWebhookProcessingResult`: `read` is the payload read before the write. */
  function MergeUpdate(row: PaymentRow, status: Status, read: Payload, m: MergeParams): PaymentRow {
    row.(status := status, payload := MergePayload(read, m))
  }

  function SaveQrUpdate(row: PaymentRow, q: QrObject): PaymentRow {
    row.(providerPaymentId := Some(q.idQr), payload := QrPayload(q))
  }

  function MarkFailedUpdate(row: PaymentRow, reason: string): PaymentRow {
    row.(status := Failed, payload := map[Reason := Text(reason)])
  }

  function CompleteSipUpdate(row: PaymentRow, read: Payload, cb: SipCallback): PaymentRow {
    row.(status := Completed, payload := read + map[Callback := CallbackValue(cb)])
  }

  // ---------- SIP callback validation ----------

  function Abs(x: real): real {
    if x < 0.0 then -x else x
  }

  predicate AmountMismatch(cb: SipCallback, t: Terms) {
    cb.monto.Some? && Abs(t.amount as real / 100.0 - cb.monto.value) > 0.01
  }

  predicate CurrencyMismatch(cb: SipCallback, t: Terms) {
    cb.moneda.Some? && cb.moneda.value != t.currency
  }

  predicate CallbackMatches(cb: SipCallback, t: Terms) {
    !AmountMismatch(cb, t) && !CurrencyMismatch(cb, t)
  }
}
