/**
 * QR creation in every run: the uniquely keyed row is persisted before SIP is called, so one
 * alias at most is ever sent per key, and the 401 retry re-sends that alias once, after a refresh.
 */
module SipAliases {
  import opened Payments
  import opened PaymentMachine
  import opened PaymentTable

  /** The longest exchange one QR request may have with SIP for `p`, with and without a cached token. */
  ghost predicate WithinRetry(calls: seq<SipCall>, p: SipCall) {
    calls <= [p, Refresh, p] || calls <= [Refresh, p, Refresh, p]
  }

  function PostOf(t: Terms): SipCall {
    Post(t.key, t.orderId.GetOr(""))
  }

  ghost predicate CallsFor(s: State, h: nat, id: nat) {
    && id in s.rows
    && s.rows[id].terms.orderId.Some?
    && WithinRetry(SipCalls(s, h), PostOf(s.rows[id].terms))
  }

  ghost predicate CallsOk(s: State, h: nat) {
    SipCalls(s, h) != [] ==> exists id :: CallsFor(s, h, id)
  }

  ghost predicate Persisted(s: State, id: nat, t: Terms) {
    id in s.rows && s.rows[id].terms == t && t.orderId.Some?
  }

  /** The calls already made are determined by the program counter. */
  ghost predicate QrOk(s: State, calls: seq<SipCall>, q: QrPc) {
    match q
    case QFind(_) => calls == []
    case QInsert(t) => calls == [] && t.orderId.Some?
    case QToken(id, t) => calls == [] && Persisted(s, id, t)
    case QPost(id, t, retry) =>
      && Persisted(s, id, t)
      && (if retry then calls == [PostOf(t), Refresh] || calls == [Refresh, PostOf(t), Refresh]
          else calls == [] || calls == [Refresh])
    case QRefresh(id, t) => Persisted(s, id, t) && (calls == [PostOf(t)] || calls == [Refresh, PostOf(t)])
    case QSave(id, t, _) => Persisted(s, id, t)
  }

  ghost predicate HandlerOk(s: State, h: nat, pc: Pc) {
    match pc
    case InQr(q) => QrOk(s, SipCalls(s, h), q)
    case Done => true
    case _ => SipCalls(s, h) == []
  }

  ghost predicate AliasInv(s: State) {
    && (forall h | h in s.handlers :: HandlerOk(s, h, s.handlers[h]))
    && (forall h: nat :: CallsOk(s, h))
    && (forall h | h in s.log.sip :: h in s.handlers)
  }

  lemma CallsGrow(s: State, s': State, h: nat)
    requires Grows(s, s') && CallsOk(s, h) && SipCalls(s', h) == SipCalls(s, h)
    ensures CallsOk(s', h)
  {
    if SipCalls(s, h) != [] {
      var id :| CallsFor(s, h, id);
      assert CallsFor(s', h, id);
    }
  }

  lemma PostTurn(s: State, h: nat, q: QrPc, a: Answer)
    requires QrOk(s, SipCalls(s, h), q) && NextQr(s, q, a).Turn? && q.QPost?
    ensures var t := NextQr(s, q, a); HandlerOk(Act(s, h, t.effect), h, t.pc)
    ensures CallsOk(Act(s, h, NextQr(s, q, a).effect), h)
  {
    assert CallsFor(Act(s, h, NextQr(s, q, a).effect), h, q.id);
  }

  /** The turn of a QR handler moves along the exchange. */
  lemma QrTurn(s: State, h: nat, q: QrPc, a: Answer)
    requires QrOk(s, SipCalls(s, h), q) && NextQr(s, q, a).Turn?
    ensures var t := NextQr(s, q, a); HandlerOk(Act(s, h, t.effect), h, t.pc)
    ensures NextQr(s, q, a).effect.CallSip? ==> CallsOk(Act(s, h, NextQr(s, q, a).effect), h)
  {
    var t := NextQr(s, q, a);
    if q.QPost? {
      PostTurn(s, h, q, a);
    } else if t.effect.CallSip? {
      assert CallsFor(Act(s, h, t.effect), h, q.id);
    }
  }

  lemma OwnTurn(s: State, h: nat, a: Answer, dedup: bool)
    requires h in s.handlers && HandlerOk(s, h, s.handlers[h]) && CallsOk(s, h)
    requires Next(s, s.handlers[h], a, dedup).Turn?
    ensures var t := Next(s, s.handlers[h], a, dedup);
            HandlerOk(Act(s, h, t.effect), h, t.pc) && CallsOk(Act(s, h, t.effect), h)
  {
    var pc := s.handlers[h];
    var t := Next(s, pc, a, dedup);
    TurnFits(s, pc, a, dedup);
    ActGrows(s, h, pc, t.effect);
    if pc.InQr? && a != Throws {
      QrTurn(s, h, pc.q, a);
    }
    if !t.effect.CallSip? {
      CallsGrow(s, Act(s, h, t.effect), h);
    }
  }

  lemma OtherHandler(s: State, s': State, g: nat)
    requires AliasInv(s) && Grows(s, s') && g in s.handlers && SipCalls(s', g) == SipCalls(s, g)
    ensures HandlerOk(s', g, s.handlers[g])
  {
    assert HandlerOk(s, g, s.handlers[g]);
  }

  lemma AliasFrame(s: State, s': State, h: nat)
    requires AliasInv(s) && Grows(s, s')
    requires h in s'.handlers && s'.handlers == s.handlers[h := s'.handlers[h]]
    requires HandlerOk(s', h, s'.handlers[h]) && CallsOk(s', h)
    requires s'.log.sip.Keys <= s.log.sip.Keys + {h}
    requires forall g: nat | g != h :: SipCalls(s', g) == SipCalls(s, g)
    ensures AliasInv(s')
  {
    forall g | g in s'.handlers
      ensures HandlerOk(s', g, s'.handlers[g])
    {
      if g != h {
        OtherHandler(s, s', g);
      }
    }
    forall g: nat
      ensures CallsOk(s', g)
    {
      if g != h {
        assert CallsOk(s, g);
        CallsGrow(s, s', g);
      }
    }
  }

  lemma ActCalls(s: State, h: nat, e: Effect)
    ensures forall g: nat | g != h :: SipCalls(Act(s, h, e), g) == SipCalls(s, g)
    ensures Act(s, h, e).log.sip.Keys <= s.log.sip.Keys + {h}
  {
  }

  lemma SameBooks(s: State, s': State, h: nat, pc: Pc)
    requires s'.rows == s.rows && s'.log == s.log && HandlerOk(s, h, pc) && CallsOk(s, h)
    ensures HandlerOk(s', h, pc) && CallsOk(s', h)
  {
    if SipCalls(s, h) != [] {
      var id :| CallsFor(s, h, id);
      assert CallsFor(s', h, id);
    }
  }

  lemma AliasTake(s: State, s1: State, s': State, h: nat, pc: Pc)
    requires AliasInv(s) && h in s.handlers && Grows(s, s')
    requires s'.rows == s1.rows && s'.log == s1.log && s'.handlers == s.handlers[h := pc]
    requires HandlerOk(s1, h, pc) && CallsOk(s1, h)
    requires s1.log.sip.Keys <= s.log.sip.Keys + {h} && forall g: nat | g != h :: SipCalls(s1, g) == SipCalls(s, g)
    ensures AliasInv(s')
  {
    SameBooks(s1, s', h, pc);
    AliasFrame(s, s', h);
  }

  lemma ActKeepsHandlers(s: State, h: nat, e: Effect)
    ensures Act(s, h, e).handlers == s.handlers
  {
  }

  lemma AliasStep(s: State, l: Label, s': State, dedup: bool)
    requires TableInv(s) && AliasInv(s) && Step(s, l, s', dedup)
    ensures TableInv(s') && AliasInv(s')
  {
    TableStep(s, l, s', dedup);
    match l
    case Start(h, pc) =>
      assert SipCalls(s, h) == [];
      AliasFrame(s, s', h);
    case Move(h, a) =>
      assert HandlerOk(s, h, s.handlers[h]) && CallsOk(s, h);
      OwnTurn(s, h, a, dedup);
      var t := Next(s, s.handlers[h], a, dedup);
      ActCalls(s, h, t.effect);
      ActKeepsHandlers(s, h, t.effect);
      AliasTake(s, Act(s, h, t.effect), s', h, t.pc);
  }

  lemma {:induction false} AliasAlways(states: seq<State>, labels: seq<Label>, dedup: bool, i: nat)
    requires Run(states, labels, dedup) && i < |states|
    ensures TableInv(states[i]) && AliasInv(states[i])
  {
    if i > 0 {
      AliasAlways(states, labels, dedup, i - 1);
      AliasStep(states[i - 1], labels[i - 1], states[i], dedup);
    }
  }

  /** No two rows ever share a key, and whatever was posted to SIP under a key names that one row's alias. */
  lemma OneAliasPerKey(states: seq<State>, labels: seq<Label>, dedup: bool, i: nat, g: nat, m: nat, h: nat, n: nat)
    requires Run(states, labels, dedup) && i < |states|
    requires m < |SipCalls(states[i], g)| && n < |SipCalls(states[i], h)|
    requires SipCalls(states[i], g)[m].Post? && SipCalls(states[i], h)[n].Post?
    requires SipCalls(states[i], g)[m].key == SipCalls(states[i], h)[n].key
    ensures SipCalls(states[i], g)[m].alias == SipCalls(states[i], h)[n].alias
    ensures UniqueKeys(states[i])
    ensures exists id :: id in states[i].rows && PostOf(states[i].rows[id].terms) == SipCalls(states[i], g)[m]
  {
    AliasAlways(states, labels, dedup, i);
    var s := states[i];
    assert CallsOk(s, g) && CallsOk(s, h);
    var x :| CallsFor(s, g, x);
    var y :| CallsFor(s, h, y);
    assert SipCalls(s, g)[m] == PostOf(s.rows[x].terms);
    assert SipCalls(s, h)[n] == PostOf(s.rows[y].terms);
  }

  /** One QR request posts at most twice; the second post repeats the first and comes right after a token refresh. */
  lemma RetryOnceAfterRefresh(states: seq<State>, labels: seq<Label>, dedup: bool, i: nat, h: nat, m: nat, n: nat)
    requires Run(states, labels, dedup) && i < |states|
    requires m < n < |SipCalls(states[i], h)|
    requires SipCalls(states[i], h)[m].Post? && SipCalls(states[i], h)[n].Post?
    ensures SipCalls(states[i], h)[n] == SipCalls(states[i], h)[m]
    ensures n == m + 2 && SipCalls(states[i], h)[m + 1] == Refresh
    ensures forall k | 0 <= k < |SipCalls(states[i], h)| && SipCalls(states[i], h)[k].Post? :: k == m || k == n
  {
    AliasAlways(states, labels, dedup, i);
    assert CallsOk(states[i], h);
    var x :| CallsFor(states[i], h, x);
  }
}
