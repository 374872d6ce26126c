/** The SIP bearer token: the in-process cache and the single retry on 401. */
module SipToken {
  import opened Prelude

  datatype CachedToken = CachedToken(token: string, expiresAt: int)

  /** What the authentication endpoint answers; None is a rejected request. */
  datatype AuthReply = AuthReply(ok: bool, token: Option<string>)

  datatype CallReply<T> = Body(value: T) | Unauthorized | Failure

  predicate Issues(r: Option<AuthReply>, token: string) {
    r.Some? && r.value.ok && r.value.token == Some(token) && token != ""
  }

  predicate Granted(r: Option<AuthReply>) {
    r.Some? && r.value.ok && r.value.token.GetOr("") != ""
  }

  class TokenCache {
    var cache: Option<CachedToken>

    /** The token `getToken` hands out without asking SIP. */
    ghost predicate Usable(now: int)
      reads this
    {
      cache.Some? && cache.value.expiresAt > now
    }

    constructor ()
      ensures cache == None
    {
      cache := None;
    }

    /** Clears the cache, then fills it from the reply. */
    method RefreshToken(reply: Option<AuthReply>, now: int, ttlMs: int) returns (token: Option<string>)
      modifies this
      ensures token.Some? <==> Granted(reply)
      ensures token.Some? ==> Issues(reply, token.value) && cache == Some(CachedToken(token.value, now + ttlMs))
      ensures token.None? ==> cache == None
    {
      cache := None;
      if reply.None? || !reply.value.ok || reply.value.token.GetOr("") == "" {
        return None;
      }
      cache := Some(CachedToken(reply.value.token.value, now + ttlMs));
      token := Some(cache.value.token);
    }

    method GetToken(reply: Option<AuthReply>, now: int, ttlMs: int) returns (token: Option<string>)
      modifies this
      ensures old(Usable(now)) ==> token == Some(old(cache).value.token) && cache == old(cache)
      ensures !old(Usable(now)) ==> (token.Some? <==> Granted(reply)) && (token.Some? ==> Issues(reply, token.value))
      ensures token.Some? ==> cache.Some? && cache.value.token == token.value
      ensures token.None? ==> cache == None
    {
      if cache.Some? && cache.value.expiresAt > now {
        return Some(cache.value.token);
      }
      token := RefreshToken(reply, now, ttlMs);
    }

    /**
     * One SIP call: `auth` answers the first token request, `refresh` the one after a 401, and
     * `first` and `second` the attempts.  `sent` lists the tokens the call was sent with.
     */
    method WithToken<T>(auth: Option<AuthReply>, refresh: Option<AuthReply>, first: CallReply<T>, second: CallReply<T>, now: int, ttlMs: int)
      returns (result: Option<T>, sent: seq<string>)
      modifies this
      ensures |sent| <= 2
      ensures |sent| > 0 <==> old(Usable(now)) || Granted(auth)
      ensures |sent| == 2 <==> |sent| > 0 && first.Unauthorized? && Granted(refresh)
      ensures |sent| > 0 ==> if old(Usable(now)) then sent[0] == old(cache).value.token else Issues(auth, sent[0])
      ensures |sent| == 2 ==> Issues(refresh, sent[1]) && cache == Some(CachedToken(sent[1], now + ttlMs))
      ensures result == if |sent| == 2 && second.Body? then Some(second.value)
                        else if |sent| == 1 && first.Body? then Some(first.value)
                        else None
      ensures |sent| > 0 && first.Unauthorized? && !Granted(refresh) ==> cache == None
    {
      result, sent := None, [];
      var token := GetToken(auth, now, ttlMs);
      if token.None? {
        return;
      }
      sent := [token.value];
      match first
      case Body(v) => result := Some(v);
      case Failure =>
      case Unauthorized =>
        var renewed := RefreshToken(refresh, now, ttlMs);
        if renewed.Some? {
          sent := sent + [renewed.value];
          if second.Body? {
            result := Some(second.value);
          }
        }
    }
  }
}
