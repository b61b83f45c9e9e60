/** The in-memory fixed-window rate limiter: a map from client keys to
    `{count, resetAt}` entries, updated in place by `checkRateLimit` and
    pruned by a periodic sweep. Time is an explicit `now` in milliseconds.
    Although the file's header calls it a sliding window, a window starts
    at the first call after expiry and lasts `windowMs`; the count is never
    decayed inside it. */
module RateLimiter {
  import opened Common

  datatype Entry = Entry(count: nat, resetAt: int)
  datatype Config = Config(maxRequests: nat, windowMs: nat)

  const FORM: Config := Config(5, 60000)
  const AUTH: Config := Config(10, 60000)
  const SEARCH: Config := Config(30, 60000)
  const API: Config := Config(60, 60000)
  const WEBHOOK: Config := Config(100, 60000)

  const TOO_MANY_REQUESTS: int := 429   // section 4 of RFC 6585
  const TOO_MANY_MESSAGE: string := "Demasiadas peticiones. Inténtalo de nuevo más tarde."

  /** The 429 response: its status, the Retry-After, X-RateLimit-Limit,
      X-RateLimit-Remaining and X-RateLimit-Reset headers, and the body's
      error text. */
  datatype Rejection = Rejection(status: int, retryAfter: int, limit: int, remaining: string, reset: int, error: string)

  predicate Expired(e: Option<Entry>, now: int) {
    e.None? || now > e.value.resetAt
  }

  /** One call for one key: the key's new entry and the verdict (None lets
      the request through). */
  function Step(e: Option<Entry>, cfg: Config, now: int): (r: (Entry, Option<Rejection>))
    // a missing or expired entry opens a new window and lets the call through
    ensures Expired(e, now) ==> r.0 == Entry(1, now + cfg.windowMs) && r.1.None?
    // inside the window every call counts, rejected ones included
    ensures !Expired(e, now) ==> r.0 == Entry(e.value.count + 1, e.value.resetAt)
    ensures !Expired(e, now) ==> (r.1.Some? <==> e.value.count + 1 > cfg.maxRequests)
    ensures r.1.Some? ==>
              r.1.value.status == TOO_MANY_REQUESTS && r.1.value.limit == cfg.maxRequests &&
              r.1.value.remaining == "0" && r.1.value.retryAfter >= 0 &&
              (r.1.value.retryAfter > 0 <==> now < r.0.resetAt) &&
              1000 * (r.1.value.retryAfter - 1) < r.0.resetAt - now <= 1000 * r.1.value.retryAfter
  {
    if Expired(e, now) then (Entry(1, now + cfg.windowMs), None)
    else
      var entry := Entry(e.value.count + 1, e.value.resetAt);
      if entry.count > cfg.maxRequests then
        (entry, Some(Rejection(TOO_MANY_REQUESTS, CeilDiv(entry.resetAt - now, 1000), cfg.maxRequests, "0",
                               CeilDiv(entry.resetAt, 1000), TOO_MANY_MESSAGE)))
      else (entry, None)
  }

  /** A run of calls for one key: which were let through, in order. */
  function Run(e: Option<Entry>, cfg: Config, nows: seq<int>): (allowed: seq<bool>)
    ensures |allowed| == |nows|
    decreases |nows|
  {
    if |nows| == 0 then []
    else
      var (e', v) := Step(e, cfg, nows[0]);
      [v.None?] + Run(Some(e'), cfg, nows[1..])
  }

  /** Inside one window, with c calls already counted, the k-th further call
      passes exactly when c + k + 1 is within the limit. */
  lemma {:induction false} RunInsideWindow(c: nat, resetAt: int, cfg: Config, nows: seq<int>)
    requires forall i :: 0 <= i < |nows| ==> nows[i] <= resetAt
    ensures forall k :: 0 <= k < |nows| ==> (Run(Some(Entry(c, resetAt)), cfg, nows)[k] <==> c + k + 1 <= cfg.maxRequests)
    decreases |nows|
  {
    if |nows| > 0 {
      RunInsideWindow(c + 1, resetAt, cfg, nows[1..]);
      var run := Run(Some(Entry(c, resetAt)), cfg, nows);
      assert run[1..] == Run(Some(Entry(c + 1, resetAt)), cfg, nows[1..]);
      forall k | 1 <= k < |nows| ensures run[k] <==> c + k + 1 <= cfg.maxRequests {
        assert run[k] == run[1..][k - 1];
      }
    }
  }

  /** Exactly maxRequests calls pass per window: a run that opens a window
      at its first call and stays inside it lets call k through iff
      k < maxRequests (the opening call always passes, even with a limit of
      0). With a limit of 3 the fourth call is the first rejected. */
  lemma PerWindowLimit(e: Option<Entry>, cfg: Config, nows: seq<int>)
    requires |nows| > 0 && Expired(e, nows[0])
    requires forall i :: 0 <= i < |nows| ==> nows[i] <= nows[0] + cfg.windowMs
    ensures forall k :: 0 <= k < |nows| ==> (Run(e, cfg, nows)[k] <==> k == 0 || k < cfg.maxRequests)
  {
    var run := Run(e, cfg, nows);
    RunInsideWindow(1, nows[0] + cfg.windowMs, cfg, nows[1..]);
    forall k | 1 <= k < |nows| ensures run[k] <==> k < cfg.maxRequests {
      assert run[k] == Run(Some(Entry(1, nows[0] + cfg.windowMs)), cfg, nows[1..])[k - 1];
    }
  }

  /** The repository's test: max 3, window 1000 ms, four calls at once. */
  lemma FourthCallBlocked(t: int)
    ensures Run(None, Config(3, 1000), [t, t, t, t]) == [true, true, true, false]
  {
    PerWindowLimit(None, Config(3, 1000), [t, t, t, t]);
  }

  /** The Sweep's criterion: the entries it keeps. */
  function Live(store: map<string, Entry>, now: int): (r: map<string, Entry>)
    ensures forall k :: k in r <==> k in store && now <= store[k].resetAt
    ensures forall k :: k in r ==> r[k] == store[k]
  {
    map k | k in store && now <= store[k].resetAt :: store[k]
  }

  class Limiter {
    var store: map<string, Entry>

    constructor()
      ensures store == map[]
    {
      store := map[];
    }

    function Lookup(key: string): Option<Entry>
      reads this
    {
      if key in store then Some(store[key]) else None
    }

    /** `checkRateLimit(identifier, config)`, the clock read passed in. */
    method CheckRateLimit(identifier: string, cfg: Config, now: int) returns (v: Option<Rejection>)
      modifies this
      ensures store == old(store)[identifier := Step(old(Lookup(identifier)), cfg, now).0]
      ensures v == Step(old(Lookup(identifier)), cfg, now).1
    {
      var entry := Lookup(identifier);
      if entry.None? || now > entry.value.resetAt {
        store := store[identifier := Entry(1, now + cfg.windowMs)];
        return None;
      }
      var e := entry.value.(count := entry.value.count + 1);
      store := store[identifier := e];
      if e.count > cfg.maxRequests {
        var retryAfter := CeilDiv(e.resetAt - now, 1000);
        return Some(Rejection(TOO_MANY_REQUESTS, retryAfter, cfg.maxRequests, "0", CeilDiv(e.resetAt, 1000), TOO_MANY_MESSAGE));
      }
      v := None;
    }

    /** The five-minute sweep: delete every entry whose window has passed. */
    method Sweep(now: int)
      modifies this
      ensures store == Live(old(store), now)
    {
      var keys := store.Keys;
      while keys != {}
        invariant keys <= old(store).Keys
        invariant store == map k | k in old(store) && (k in keys || now <= old(store)[k].resetAt) :: old(store)[k]
        decreases keys
      {
        var key :| key in keys;
        if now > store[key].resetAt {
          store := store - {key};
        }
        keys := keys - {key};
      }
    }
  }

  /** A call for one key leaves every other key's entry as it was, so one
      client's traffic never throttles another. */
  method TwoClients(a: string, b: string, cfg: Config, now: int, l: Limiter) returns (va: Option<Rejection>, vb: Option<Rejection>)
    requires a != b
    modifies l
    ensures vb == Step(old(l.Lookup(b)), cfg, now).1
  {
    va := l.CheckRateLimit(a, cfg, now);
    vb := l.CheckRateLimit(b, cfg, now);
  }

  // ---------------------------------------------------------------------
  // The key

  datatype Headers = Headers(values: map<string, string>) {
    /** `headers.get(name)`: null when absent. */
    function Get(name: string): Option<string> {
      if name in values then Some(values[name]) else None
    }
  }

  /** The first comma-separated field of x-forwarded-for, trimmed. */
  function ForwardedFor(h: Headers): (r: Option<string>)
    ensures r.Some? <==> h.Get("x-forwarded-for").Some?
    ensures r.Some? ==> r.value == Trim(BeforeFirst(h.Get("x-forwarded-for").value, ','))
  {
    match h.Get("x-forwarded-for")
    case None => None
    case Some(x) => Some(Trim(BeforeFirst(x, ',')))
  }

  /** The client address, by header priority: the first non-empty of
      cf-connecting-ip, x-real-ip, the first x-forwarded-for field and the
      socket address, else 'unknown'. */
  function ClientIp(h: Headers, clientAddress: Option<string>): (ip: string)
    ensures ip != ""
    ensures NonEmpty(h.Get("cf-connecting-ip")).Some? ==> ip == h.Get("cf-connecting-ip").value
    ensures (NonEmpty(h.Get("cf-connecting-ip")).None? && NonEmpty(h.Get("x-real-ip")).Some?) ==>
              ip == h.Get("x-real-ip").value
    ensures (NonEmpty(h.Get("cf-connecting-ip")).None? && NonEmpty(h.Get("x-real-ip")).None? &&
             NonEmpty(ForwardedFor(h)).Some?) ==> ip == ForwardedFor(h).value
    ensures (NonEmpty(h.Get("cf-connecting-ip")).None? && NonEmpty(h.Get("x-real-ip")).None? &&
             NonEmpty(ForwardedFor(h)).None? && NonEmpty(clientAddress).Some?) ==> ip == clientAddress.value
    ensures (NonEmpty(h.Get("cf-connecting-ip")).None? && NonEmpty(h.Get("x-real-ip")).None? &&
             NonEmpty(ForwardedFor(h)).None? && NonEmpty(clientAddress).None?) ==> ip == "unknown"
  {
    OrElse(h.Get("cf-connecting-ip"), OrElse(h.Get("x-real-ip"), OrElse(ForwardedFor(h),
      OrElse(clientAddress, Some("unknown"))))).value
  }

  /** `getRateLimitKey(request, path, clientAddress)` */
  function RateLimitKey(h: Headers, path: string, clientAddress: Option<string>): (key: string)
    ensures StartsWith(key, ClientIp(h, clientAddress) + ":") && EndsWith(key, ":" + path)
    ensures |key| == |ClientIp(h, clientAddress)| + 1 + |path|
  {
    KeyParts(ClientIp(h, clientAddress), path);
    ClientIp(h, clientAddress) + ":" + path
  }

  lemma KeyParts(ip: string, path: string)
    ensures StartsWith(ip + ":" + path, ip + ":") && EndsWith(ip + ":" + path, ":" + path)
  {
    var key := ip + ":" + path;
    assert key[..|ip| + 1] == ip + ":";
    assert key[|ip|..] == ":" + path;
  }
}
