/** The API rate limiter: the per-client key taken from the request headers
    and a sliding one-minute window of request times per key. */
module RateLimit {
  import opened Common

  /** The window, in seconds. */
  const Window: real := 60.0
  /** `RATE_LIMIT_PER_MINUTE` when it is not configured. */
  const DefaultLimit: int := 60
  const TooManyRequests: int := 429
  const ApiBlueprint: string := "api"

  // ---------------------------------------------------------------- key

  /** `headers.get(name, "")`. The map is keyed by canonical header names
      (`X-Forwarded-For`, `Authorization`, `X-API-Key`), so the case-insensitive
      match Werkzeug does on names happens when the map is built. */
  function Header(headers: map<string, string>, name: string): string {
    if name in headers then headers[name] else ""
  }

  /** The first comma-separated entry of `X-Forwarded-For`, stripped. */
  function FirstHop(forwarded: string): string {
    var comma := IndexOf(forwarded, ',');
    Strip(if comma.None? then forwarded else forwarded[..comma.value])
  }

  /** The address part of the key. */
  function ClientIp(headers: map<string, string>, remoteAddr: Option<string>): string {
    var forwarded := Header(headers, "X-Forwarded-For");
    if forwarded != [] then FirstHop(forwarded)
    else remoteAddr.GetOr("")
  }

  /** The credential part of the key. */
  function Credential(headers: map<string, string>): string {
    if "Authorization" in headers && headers["Authorization"] != [] then Strip(headers["Authorization"])
    else
      var apiKey := Strip(Header(headers, "X-API-Key"));
      if apiKey != [] then "api:" + apiKey else ""
  }

  /** `_rate_limit_key()` */
  function RateLimitKey(headers: map<string, string>, remoteAddr: Option<string>): (string, string) {
    (ClientIp(headers, remoteAddr), Credential(headers))
  }

  /** A forwarded address is the first hop only: the stripped text before
      the first comma, or the whole stripped header when it has no comma; it
      holds no comma and is stripped. Without the header the peer address (or
      "") is used. */
  lemma ClientIpRule(headers: map<string, string>, remoteAddr: Option<string>)
    ensures var ip := ClientIp(headers, remoteAddr);
      var f := Header(headers, "X-Forwarded-For");
      (f != [] ==>
         ',' !in ip && ip == Strip(ip)
         && (',' !in f ==> ip == Strip(f))
         && (forall k :: 0 <= k < |f| && f[k] == ',' && ',' !in f[..k] ==> ip == Strip(f[..k])))
      && (f == [] ==> ip == (if remoteAddr.Some? then remoteAddr.value else ""))
  {
    var forwarded := Header(headers, "X-Forwarded-For");
    if forwarded != [] {
      var comma := IndexOf(forwarded, ',');
      var head := if comma.None? then forwarded else forwarded[..comma.value];
      assert ',' !in head;
      StripIsInfix(head);
      StripIdempotent(head);
      forall k | 0 <= k < |forwarded| && forwarded[k] == ',' && ',' !in forwarded[..k]
        ensures ClientIp(headers, remoteAddr) == Strip(forwarded[..k])
      {
        FirstCommaUnique(forwarded, k, comma.value);
      }
    }
  }

  /** Two positions that are both the first comma are the same position. */
  lemma FirstCommaUnique(s: string, k: nat, j: nat)
    requires k < |s| && s[k] == ',' && ',' !in s[..k]
    requires j < |s| && s[j] == ',' && ',' !in s[..j]
    ensures k == j
  {
    assert forall i :: 0 <= i < j ==> s[..j][i] == s[i];
    assert forall i :: 0 <= i < k ==> s[..k][i] == s[i];
  }

  /** Stripping keeps a contiguous part of the text. */
  lemma StripIsInfix(s: string)
    ensures forall c :: c in Strip(s) ==> c in s
  {
    forall c | c in Strip(s) ensures c in s {
      StripInfixChar(s, c);
    }
  }

  lemma StripInfixChar(s: string, c: char)
    requires c in Strip(s)
    ensures c in s
  {
    var l := LStrip(s);
    var r := RStrip(l);
    assert c in r;
    var i :| 0 <= i < |r| && r[i] == c;
    assert r[i] == l[i];
    assert l[i] == s[|s| - |l| + i];
  }

  /** A stripped text is its own stripping. */
  lemma StripIdempotent(s: string)
    ensures Strip(Strip(s)) == Strip(s)
  {
    var r := Strip(s);
    assert LStrip(r) == r;
    assert RStrip(r) == r;
  }

  /** The `Authorization` header wins when present and non-empty; otherwise a
      non-blank `X-API-Key` gives "api:" and the stripped key; otherwise the
      credential is empty. */
  lemma CredentialRule(headers: map<string, string>)
    ensures "Authorization" in headers && headers["Authorization"] != [] ==>
      Credential(headers) == Strip(headers["Authorization"])
    ensures !("Authorization" in headers && headers["Authorization"] != []) ==>
      (Strip(Header(headers, "X-API-Key")) == [] <==> Credential(headers) == [])
      && (Credential(headers) != [] ==> StartsWith(Credential(headers), "api:"))
  {
    var apiKey := Strip(Header(headers, "X-API-Key"));
    if !("Authorization" in headers && headers["Authorization"] != []) && apiKey != [] {
      assert ("api:" + apiKey)[..4] == "api:";
    }
  }

  // ---------------------------------------------------------------- window

  /** The `popleft` loop: drop times from the front while the oldest one is
      more than a window old. */
  function Evict(q: seq<real>, now: real): (r: seq<real>)
    ensures |r| <= |q| && r == q[|q| - |r|..]
    ensures r != [] ==> now - r[0] <= Window
    ensures forall i :: 0 <= i < |q| - |r| ==> now - q[i] > Window
  {
    if q != [] && now - q[0] > Window then
      var r := Evict(q[1..], now);
      assert forall i :: 1 <= i < |q| ==> q[i] == q[1..][i - 1];
      r
    else q
  }

  /** The times of one key were recorded in order. */
  predicate Ascending(q: seq<real>) {
    forall i, j :: 0 <= i < j < |q| ==> q[i] <= q[j]
  }

  /** The new buckets and the response (`Some(429)`, or `None` to let the
      request through) of one `_apply_rate_limit` call. */
  function Admit(buckets: map<(string, string), seq<real>>, limit: int, blueprint: Option<string>,
                 key: (string, string), now: real): (map<(string, string), seq<real>>, Option<int>)
  {
    if limit <= 0 || blueprint != Some(ApiBlueprint) then (buckets, None)
    else
      var q := Evict(if key in buckets then buckets[key] else [], now);
      if |q| >= limit then (buckets[key := q], Some(TooManyRequests))
      else (buckets[key := q + [now]], None)
  }

  /** `_RATE_BUCKETS` with the before-request hook. */
  class RateLimiter {
    var buckets: map<(string, string), seq<real>>

    constructor ()
      ensures buckets == map[]
    {
      buckets := map[];
    }

    /** `_apply_rate_limit()` for a request on `blueprint` with `key` at time `now`. */
    method ApplyRateLimit(limit: int, blueprint: Option<string>, key: (string, string), now: real)
      returns (response: Option<int>)
      modifies this
      ensures (buckets, response) == Admit(old(buckets), limit, blueprint, key, now)
    {
      if limit <= 0 {
        return None;
      }
      if blueprint != Some(ApiBlueprint) {
        return None;
      }
      var bucket := if key in buckets then buckets[key] else [];
      ghost var start := bucket;
      while bucket != [] && now - bucket[0] > Window
        invariant Evict(bucket, now) == Evict(start, now)
        decreases |bucket|
      {
        bucket := bucket[1..];
      }
      if |bucket| >= limit {
        buckets := buckets[key := bucket];
        return Some(TooManyRequests);
      }
      buckets := buckets[key := bucket + [now]];
      response := None;
    }
  }

  // ---------------------------------------------------------------- properties

  /** A non-positive limit, and a request outside the API blueprint, pass
      and leave the buckets as they are. */
  lemma DisabledPasses(buckets: map<(string, string), seq<real>>, limit: int, blueprint: Option<string>,
                       key: (string, string), now: real)
    requires limit <= 0 || blueprint != Some(ApiBlueprint)
    ensures Admit(buckets, limit, blueprint, key, now) == (buckets, None)
  {
  }

  /** Only the requesting key's queue changes. */
  lemma OnlyKeyChanges(buckets: map<(string, string), seq<real>>, limit: int, blueprint: Option<string>,
                       key: (string, string), now: real, other: (string, string))
    requires other != key
    ensures var b := Admit(buckets, limit, blueprint, key, now).0;
      (other in b <==> other in buckets) && (other in buckets ==> b[other] == buckets[other])
  {
    if limit > 0 && blueprint == Some(ApiBlueprint) {
      var q := Evict(if key in buckets then buckets[key] else [], now);
      assert Admit(buckets, limit, blueprint, key, now).0 == buckets[key := if |q| >= limit then q else q + [now]];
    }
  }

  /** A request is rejected exactly when the queue left after eviction is
      full; a rejected request is not recorded, an admitted one is appended. */
  lemma RejectionRule(buckets: map<(string, string), seq<real>>, limit: int,
                      key: (string, string), now: real)
    requires limit > 0
    ensures var (b, response) := Admit(buckets, limit, Some(ApiBlueprint), key, now);
      var q := Evict(if key in buckets then buckets[key] else [], now);
      key in b
      && (response == Some(429) <==> |q| >= limit)
      && (response.None? <==> |q| < limit)
      && (response.Some? ==> b[key] == q)
      && (response.None? ==> b[key] == q + [now])
  {
  }

  /** Eviction of an ordered queue keeps exactly the times at most a window old. */
  lemma EvictKeepsWindow(q: seq<real>, now: real)
    requires Ascending(q)
    ensures forall t :: t in Evict(q, now) ==> now - t <= Window
    ensures forall t :: t in q && now - t <= Window ==> t in Evict(q, now)
  {
    var r := Evict(q, now);
    forall t | t in r ensures now - t <= Window {
      var i :| 0 <= i < |r| && r[i] == t;
      EvictedIsRecent(q, now, r, i);
    }
    forall t | t in q && now - t <= Window ensures t in r {
      var i :| 0 <= i < |q| && q[i] == t;
      RecentIsKept(q, now, r, i);
    }
  }

  /** A kept time is no older than the oldest kept one. */
  lemma EvictedIsRecent(q: seq<real>, now: real, r: seq<real>, i: nat)
    requires Ascending(q) && r == Evict(q, now) && i < |r|
    ensures now - r[i] <= Window
  {
    var n := |q| - |r|;
    assert r[0] == q[n] && r[i] == q[n + i];
  }

  /** A time at most a window old is never dropped. */
  lemma RecentIsKept(q: seq<real>, now: real, r: seq<real>, i: nat)
    requires r == Evict(q, now) && i < |q| && now - q[i] <= Window
    ensures q[i] in r
  {
    var n := |q| - |r|;
    assert i >= n;
    assert r[i - n] == q[i];
  }

  /** Appending the current time to an evicted ordered queue keeps it ordered. */
  lemma EvictAppendAscending(q: seq<real>, now: real)
    requires Ascending(q) && forall t :: t in q ==> t <= now
    ensures Ascending(Evict(q, now)) && Ascending(Evict(q, now) + [now])
    ensures forall t :: t in Evict(q, now) + [now] ==> t <= now
    ensures forall t :: t in Evict(q, now) ==> t <= now
  {
    var r := Evict(q, now);
    SuffixAppend(q, |q| - |r|, now);
  }

  lemma SuffixAppend(q: seq<real>, n: nat, now: real)
    requires n <= |q|
    requires Ascending(q) && forall t :: t in q ==> t <= now
    ensures Ascending(q[n..]) && Ascending(q[n..] + [now])
    ensures forall t :: t in q[n..] + [now] ==> t <= now
    ensures forall t :: t in q[n..] ==> t <= now
  {
    var r := q[n..];
    var s := r + [now];
    forall i, j | 0 <= i < j < |s| ensures s[i] <= s[j] {
      assert s[i] == q[n + i];
      if j < |r| {
        assert s[j] == q[n + j];
      } else {
        assert q[n + i] in q;
      }
    }
    forall t | t in s ensures t <= now {
      var i :| 0 <= i < |s| && s[i] == t;
      if i < |r| {
        assert q[n + i] in q;
      }
    }
    forall t | t in r ensures t <= now {
      assert t in s;
    }
  }

  /** After the call every time left in the key's queue is at most a window
      old (a time exactly a window old stays), provided the times were
      recorded in order. */
  lemma WindowRule(buckets: map<(string, string), seq<real>>, limit: int,
                   key: (string, string), now: real)
    requires limit > 0
    requires key in buckets ==> Ascending(buckets[key])
    ensures var b := Admit(buckets, limit, Some(ApiBlueprint), key, now).0;
      (forall t :: t in b[key] ==> now - t <= Window)
      && (forall t :: t in (if key in buckets then buckets[key] else []) && now - t <= Window ==> t in b[key])
  {
    EvictKeepsWindow(if key in buckets then buckets[key] else [], now);
  }

  /** With a fixed limit no queue ever grows past it. */
  lemma BoundRule(buckets: map<(string, string), seq<real>>, limit: int, blueprint: Option<string>,
                  key: (string, string), now: real)
    requires forall k :: k in buckets ==> |buckets[k]| <= limit
    ensures var b := Admit(buckets, limit, blueprint, key, now).0;
      forall k :: k in b ==> |b[k]| <= Max(limit, 0)
  {
    if limit > 0 && blueprint == Some(ApiBlueprint) {
      var old_q := if key in buckets then buckets[key] else [];
      var q := Evict(old_q, now);
      var v := if |q| >= limit then q else q + [now];
      UpdateKeepsBound(buckets, key, v, limit, Admit(buckets, limit, blueprint, key, now).0);
    }
  }

  lemma UpdateKeepsBound<K, V>(m: map<K, seq<V>>, key: K, v: seq<V>, bound: int, r: map<K, seq<V>>)
    requires forall k :: k in m ==> |m[k]| <= bound
    requires |v| <= bound && r == m[key := v]
    ensures forall k :: k in r ==> |r[k]| <= bound
  {
  }

  /** Recording in order is kept when the clock does not go back. */
  lemma AscendingRule(buckets: map<(string, string), seq<real>>, limit: int, blueprint: Option<string>,
                      key: (string, string), now: real)
    requires forall k :: k in buckets ==> Ascending(buckets[k]) && forall t :: t in buckets[k] ==> t <= now
    ensures var b := Admit(buckets, limit, blueprint, key, now).0;
      forall k :: k in b ==> Ascending(b[k]) && forall t :: t in b[k] ==> t <= now
  {
    var b := Admit(buckets, limit, blueprint, key, now).0;
    if limit > 0 && blueprint == Some(ApiBlueprint) {
      var q := if key in buckets then buckets[key] else [];
      EvictAppendAscending(q, now);
      forall k | k in b ensures Ascending(b[k]) && forall t :: t in b[k] ==> t <= now {
        if k != key {
          assert b[k] == buckets[k];
        }
      }
    }
  }
}
