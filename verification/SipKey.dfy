/** The deterministic per-minute idempotency key of SIP QR requests. */
module SipKey {
  import opened Decimal

  datatype Currency = BOB | USD

  function CurrencyText(c: Currency): string {
    match c
    case BOB => "BOB"
    case USD => "USD"
  }

  /** A UTC minute with a four-digit year. */
  datatype Minute = Minute(year: nat, month: nat, day: nat, hour: nat, minute: nat) {
    predicate Valid() {
      1000 <= year <= 9999 && 1 <= month <= 12 && 1 <= day <= 31 && hour < 24 && minute < 60
    }
  }

  datatype Request = Request(userId: nat, amount: real, currency: Currency, at: Minute)

  predicate IsRequest(r: Request) {
    r.amount >= 0.0 && r.at.Valid()
  }

  /** The amount in whole cents, as `toFixed(2)` rounds it. */
  function Cents(amount: real): nat
    requires amount >= 0.0
  {
    (amount * 100.0 + 0.5).Floor
  }

  function ToFixed2(amount: real): string
    requires amount >= 0.0
  {
    Digits(Cents(amount) / 100) + "." + Pad2(Cents(amount) % 100)
  }

  function Bucket(m: Minute): string {
    Digits(m.year) + Pad2(m.month) + Pad2(m.day) + Pad2(m.hour) + Pad2(m.minute)
  }

  function Joined(head: string, rest: string): string {
    head + ['|'] + rest
  }

  function BaseString(r: Request): string
    requires IsRequest(r)
  {
    Fields(Digits(r.userId), ToFixed2(r.amount), CurrencyText(r.currency), Bucket(r.at))
  }

  predicate NoneOf(s: string, c: char) {
    forall i | 0 <= i < |s| :: s[i] != c
  }

  /** A delimiter that occurs in neither head splits a string in one way only. */
  lemma SplitOnce(a: string, x: string, b: string, y: string, d: char)
    requires NoneOf(a, d) && NoneOf(b, d) && a + [d] + x == b + [d] + y
    ensures a == b && x == y
  {
    var s := a + [d] + x;
    assert s[|a|] == d && s[|b|] == d;
    assert s[..|a|] == a && s[..|b|] == b;
    assert s[|a| + 1..] == x && s[|b| + 1..] == y;
  }

  /** Two decimal amounts read the same exactly when they are the same number of cents. */
  lemma ToFixed2Injective(a: real, b: real)
    requires a >= 0.0 && b >= 0.0
    ensures ToFixed2(a) == ToFixed2(b) <==> Cents(a) == Cents(b)
    ensures NoneOf(ToFixed2(a), '|')
  {
    var m, n := Cents(a), Cents(b);
    ValueOfPad2(m % 100);
    if ToFixed2(a) == ToFixed2(b) {
      assert NoneOf(Digits(m / 100), '.') && NoneOf(Digits(n / 100), '.');
      SplitOnce(Digits(m / 100), Pad2(m % 100), Digits(n / 100), Pad2(n % 100), '.');
      DigitsInjective(m / 100, n / 100);
      Pad2Injective(m % 100, n % 100);
    }
  }

  /** The fixed-width bucket determines its five fields. */
  lemma BucketInjective(m: Minute, n: Minute)
    requires m.Valid() && n.Valid()
    ensures Bucket(m) == Bucket(n) <==> m == n
  {
    BucketFields(m);
    BucketFields(n);
    if Bucket(m) == Bucket(n) {
      DigitsInjective(m.year, n.year);
      Pad2Injective(m.month, n.month);
      Pad2Injective(m.day, n.day);
      Pad2Injective(m.hour, n.hour);
      Pad2Injective(m.minute, n.minute);
    }
  }

  lemma BucketFields(m: Minute)
    requires m.Valid()
    ensures |Bucket(m)| == 12
    ensures Bucket(m)[..4] == Digits(m.year) && Bucket(m)[4..6] == Pad2(m.month) && Bucket(m)[6..8] == Pad2(m.day)
    ensures Bucket(m)[8..10] == Pad2(m.hour) && Bucket(m)[10..] == Pad2(m.minute)
  {
    FourDigits(m.year);
    ValueOfPad2(m.month);
    ValueOfPad2(m.day);
    ValueOfPad2(m.hour);
    ValueOfPad2(m.minute);
  }

  lemma JoinedInjective(a: string, x: string, b: string, y: string)
    requires NoneOf(a, '|') && NoneOf(b, '|')
    ensures Joined(a, x) == Joined(b, y) <==> a == b && x == y
  {
    if Joined(a, x) == Joined(b, y) {
      SplitOnce(a, x, b, y, '|');
    }
  }

  function Fields(u: string, a: string, c: string, b: string): string {
    Joined("SIP_TOPUP", Joined(u, Joined(a, Joined(c, b))))
  }

  lemma FieldsInjective(u: string, a: string, c: string, b: string, u': string, a': string, c': string, b': string)
    requires NoneOf(u, '|') && NoneOf(a, '|') && NoneOf(c, '|') && NoneOf(u', '|') && NoneOf(a', '|') && NoneOf(c', '|')
    ensures Fields(u, a, c, b) == Fields(u', a', c', b') <==> u == u' && a == a' && c == c' && b == b'
  {
    JoinedInjective(c, b, c', b');
    JoinedInjective(a, Joined(c, b), a', Joined(c', b'));
    JoinedInjective(u, Joined(a, Joined(c, b)), u', Joined(a', Joined(c', b')));
    JoinedInjective("SIP_TOPUP", Joined(u, Joined(a, Joined(c, b))), "SIP_TOPUP", Joined(u', Joined(a', Joined(c', b'))));
  }

  lemma CurrencyInjective(c: Currency, d: Currency)
    ensures CurrencyText(c) == CurrencyText(d) <==> c == d
    ensures NoneOf(CurrencyText(c), '|')
  {
    assert CurrencyText(BOB)[0] != CurrencyText(USD)[0];
  }

  /** The base string decodes to user, cents, currency and UTC minute, and to nothing else. */
  lemma BaseStringInjective(r: Request, q: Request)
    requires IsRequest(r) && IsRequest(q)
    ensures BaseString(r) == BaseString(q) <==>
            r.userId == q.userId && Cents(r.amount) == Cents(q.amount) && r.currency == q.currency && r.at == q.at
  {
    BucketInjective(r.at, q.at);
    CurrencyInjective(r.currency, q.currency);
    CurrencyInjective(q.currency, r.currency);
    ToFixed2Injective(r.amount, q.amount);
    ToFixed2Injective(q.amount, r.amount);
    DigitsInjective(r.userId, q.userId);
    FieldsInjective(Digits(r.userId), ToFixed2(r.amount), CurrencyText(r.currency), Bucket(r.at),
                    Digits(q.userId), ToFixed2(q.amount), CurrencyText(q.currency), Bucket(q.at));
  }

  ghost predicate Injective(hash: string -> string) {
    forall s, t | hash(s) == hash(t) :: s == t
  }

  /** With a collision-free hash, two requests share a key exactly when they are the same request in the same minute. */
  lemma KeysCollideExactly(hash: string -> string, r: Request, q: Request)
    requires IsRequest(r) && IsRequest(q) && Injective(hash)
    ensures hash(BaseString(r)) == hash(BaseString(q)) <==>
            r.userId == q.userId && Cents(r.amount) == Cents(q.amount) && r.currency == q.currency && r.at == q.at
  {
    BaseStringInjective(r, q);
  }
}
