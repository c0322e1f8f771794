/** The session-cached fetch (`safeFetch`): a pure step over the session
    storage, the session-wide kill switch, the call's options and what the
    outside world contributes (the clock, the network's answer, whether the
    storage accepts a write). The JSON value type is a parameter `V`: a value
    written as `{_ts, value}` and parsed back is the same value. */
module SessionCache {
  import opened Wrappers
  import Config
  import CacheKeys

  /** What `sessionStorage.getItem(cacheKey)` holds, as the read path sees it. */
  datatype Entry<V> =
    | /** Parses to an object whose `_ts` the subtraction `Date.now() - _ts`
          turns into the number `ts`: a number, but also a numeric string,
          `null` (0), `true` (1) or a one-element array of a number. */
      Stored(ts: int, value: V)
    | /** Parses to a value whose `_ts` the subtraction turns into NaN (it is
          missing, a non-numeric string, an object, ...): the age test fails,
          so the entry is treated as stale. */
      Untimed
    | /** The empty string, text `JSON.parse` rejects, or `null`: the read
          gives up (the catch block) and leaves the entry where it is. */
      Corrupt

  type Store<V> = map<string, Entry<V>>

  /** The options object of a call; a missing or empty `cacheKey` is `None`
      or `Some("")`, both falsy. */
  datatype Options = Options(cacheKey: Option<string>, ttl: int, useCache: bool)

  /** The options a call gets for the properties it leaves out: no key, the
      five-minute TTL, caching on. */
  function DefaultOptions(): Options {
    Options(None, Config.CacheTtlMs, Config.CacheEnabled)
  }

  datatype Body<V> = Json(value: V) | NotJson

  /** The network's answer: no response at all, or a status and a body. */
  datatype Response<V> = NetworkFailure | Response(status: int, body: Body<V>)

  /** Why the returned promise rejects. */
  datatype FetchError = NetworkError | StatusError(url: string, status: int) | DecodeError

  /** `resp.ok`: an ok status of the Fetch standard, 200 to 299 inclusive. */
  predicate IsOk(status: int) {
    200 <= status <= 299
  }

  /** One call's view of the world: the clock when the call starts, the
      network's answer, the clock when that answer has been decoded, and
      whether `setItem` throws (storage quota). */
  datatype World<V> = World(now: int, response: Response<V>, later: int, quotaExceeded: bool)

  /** The key this call reads and writes, or `None` when caching does not apply
      (caching switched off for the call, the session kill switch set, or no
      usable key). */
  function CacheSlot(opts: Options, disabled: bool): Option<string> {
    if opts.useCache && !disabled && opts.cacheKey.Some? && opts.cacheKey.value != ""
    then opts.cacheKey
    else None
  }

  /** The stored entry under `key` is young enough to be served: its age is
      strictly below the TTL, so an age equal to the TTL is a miss. */
  ghost predicate FreshHit<V>(store: Store<V>, key: string, ttl: int, now: int) {
    key in store && store[key].Stored? && now - store[key].ts < ttl
  }

  /** `a` and `b` hold the same entries under every key other than `key`. */
  ghost predicate AgreeExcept<V>(a: Store<V>, b: Store<V>, key: string) {
    forall k :: k != key ==> (k in a <==> k in b) && (k in a ==> a[k] == b[k])
  }

  /** `small` holds a subset of the entries of `big`, unchanged. */
  ghost predicate Shrunk<V>(small: Store<V>, big: Store<V>) {
    forall k :: k in small ==> k in big && small[k] == big[k]
  }

  /** The synchronous part of a call: either the cached value is served, or
      the call goes to the network with the store as the read left it. */
  datatype Started<V> = Served(value: V) | Pending(store: Store<V>, slot: Option<string>)

  /** The read path: a fresh stored entry is served; a stale or untimed entry
      is removed before the network call; a corrupt entry stays. */
  function Begin<V>(store: Store<V>, disabled: bool, opts: Options, now: int): (s: Started<V>)
    ensures s.Pending? ==> s.slot == CacheSlot(opts, disabled)
    ensures s.Served? <==>
      CacheSlot(opts, disabled).Some? && FreshHit(store, opts.cacheKey.value, opts.ttl, now)
    ensures s.Served? ==> s.value == store[opts.cacheKey.value].value
    ensures s.Pending? && s.slot.None? ==> s.store == store
    ensures s.Pending? && s.slot.Some? ==>
      var key := s.slot.value;
      && AgreeExcept(s.store, store, key)
      && Shrunk(s.store, store)
      && (key in s.store <==> key in store && store[key].Corrupt?)
  {
    match CacheSlot(opts, disabled)
    case None => Pending(store, None)
    case Some(key) =>
      if key !in store then Pending(store, Some(key))
      else
        match store[key]
        case Corrupt => Pending(store, Some(key))
        case Untimed => Pending(store - {key}, Some(key))
        case Stored(ts, v) =>
          if now - ts < opts.ttl then Served(v) else Pending(store - {key}, Some(key))
  }

  datatype Settled<V> = Settled(store: Store<V>, result: Result<V, FetchError>)

  /** The asynchronous part: the network's answer decides the result, and a
      decoded value is written back under the slot (if any) stamped with the
      time it arrived, unless the storage refuses the write. */
  function Settle<V>(store: Store<V>, slot: Option<string>, url: string, w: World<V>): (s: Settled<V>)
    ensures w.response.NetworkFailure? ==> s.result == Failure(NetworkError)
    ensures w.response.Response? && !IsOk(w.response.status) ==>
      s.result == Failure(StatusError(url, w.response.status))
    ensures w.response.Response? && IsOk(w.response.status) && w.response.body.NotJson? ==>
      s.result == Failure(DecodeError)
    ensures w.response.Response? && IsOk(w.response.status) && w.response.body.Json? ==>
      s.result == Success(w.response.body.value)
    ensures s.result.Failure? || slot.None? || w.quotaExceeded ==> s.store == store
    ensures s.result.Success? && slot.Some? && !w.quotaExceeded ==>
      s.store == store[slot.value := Stored(w.later, s.result.value)]
  {
    match w.response
    case NetworkFailure => Settled(store, Failure(NetworkError))
    case Response(status, body) =>
      if !IsOk(status) then Settled(store, Failure(StatusError(url, status)))
      else
        match body
        case NotJson => Settled(store, Failure(DecodeError))
        case Json(v) =>
          var written := if slot.Some? && !w.quotaExceeded then store[slot.value := Stored(w.later, v)] else store;
          Settled(written, Success(v))
  }

  /** What a whole call leaves behind: the storage, whether the network was
      asked, and how the returned promise settles. */
  datatype Outcome<V> = Outcome(store: Store<V>, fetched: bool, result: Result<V, FetchError>)

  function SafeFetch<V>(store: Store<V>, disabled: bool, url: string, opts: Options, w: World<V>): (r: Outcome<V>)
    // served from the cache without a network call exactly when the entry is fresh
    ensures !r.fetched <==>
      CacheSlot(opts, disabled).Some? && FreshHit(store, opts.cacheKey.value, opts.ttl, w.now)
    ensures !r.fetched ==> r.store == store && r.result == Success(store[opts.cacheKey.value].value)
    // kill switch, `useCache: false` or no key: storage neither read nor written
    ensures CacheSlot(opts, disabled).None? ==> r.store == store
    // only the entry under the call's own key can change
    ensures CacheSlot(opts, disabled).Some? ==> AgreeExcept(r.store, store, opts.cacheKey.value)
    // a rejected call writes nothing: at most the stale entry is gone
    ensures r.result.Failure? ==> Shrunk(r.store, store)
    ensures r.fetched && w.response.Response? && !IsOk(w.response.status) ==>
      r.result == Failure(StatusError(url, w.response.status))
    ensures r.fetched && w.response.NetworkFailure? ==> r.result == Failure(NetworkError)
    ensures r.fetched && w.response.Response? && IsOk(w.response.status) && w.response.body.NotJson? ==>
      r.result == Failure(DecodeError)
    // the decoded JSON is returned unchanged, whether or not it could be stored
    ensures r.fetched && w.response.Response? && IsOk(w.response.status) && w.response.body.Json? ==>
      r.result == Success(w.response.body.value)
    ensures r.fetched && r.result.Success? && CacheSlot(opts, disabled).Some? && !w.quotaExceeded ==>
      var key := opts.cacheKey.value;
      key in r.store && r.store[key] == Stored(w.later, r.result.value)
    // after a miss that is not written back, a stale entry is gone and a corrupt one stays
    ensures r.fetched && CacheSlot(opts, disabled).Some? && (r.result.Failure? || w.quotaExceeded) ==>
      var key := opts.cacheKey.value;
      key in r.store <==> key in store && store[key].Corrupt?
  {
    match Begin(store, disabled, opts, w.now)
    case Served(v) => Outcome(store, false, Success(v))
    case Pending(s1, slot) =>
      var s := Settle(s1, slot, url, w);
      Outcome(s.store, true, s.result)
  }

  /** Put then get: once a call has stored its value, a later call with the
      same key is served that value without a network call as long as the
      entry's age is below the TTL, and goes to the network from the moment
      the age reaches the TTL. */
  lemma CacheRoundTrip<V>(store: Store<V>, url: string, opts: Options, w: World<V>, url2: string, w2: World<V>)
    requires CacheSlot(opts, false).Some?
    requires !FreshHit(store, opts.cacheKey.value, opts.ttl, w.now)
    requires w.response.Response? && IsOk(w.response.status) && w.response.body.Json?
    requires !w.quotaExceeded
    ensures var first := SafeFetch(store, false, url, opts, w);
      var second := SafeFetch(first.store, false, url2, opts, w2);
      && first.result == Success(w.response.body.value)
      && (w2.now - w.later < opts.ttl <==> !second.fetched)
      && (!second.fetched ==> second.result == first.result)
  {
    var key := opts.cacheKey.value;
    var first := SafeFetch(store, false, url, opts, w);
    assert first.store[key] == Stored(w.later, w.response.body.value);
  }

  /** Disabling is reversible: with the kill switch set, a call leaves every
      stored entry (and its timestamp) exactly as it was and always goes to
      the network. */
  lemma DisabledBypassesStore<V>(store: Store<V>, url: string, opts: Options, w: World<V>)
    ensures SafeFetch(store, true, url, opts, w).store == store
    ensures SafeFetch(store, true, url, opts, w).fetched
  {
  }

  /** Whether the storage accepts the write never changes what the caller gets. */
  lemma WriteFailureInvisible<V>(store: Store<V>, disabled: bool, url: string, opts: Options, w: World<V>)
    ensures SafeFetch(store, disabled, url, opts, w).result
         == SafeFetch(store, disabled, url, opts, w.(quotaExceeded := !w.quotaExceeded)).result
  {
  }

  /** A call of a session: its url, options and world. */
  datatype Call<V> = Call(url: string, opts: Options, w: World<V>)

  /** The storage after a session's calls run one after another. */
  function Replay<V>(store: Store<V>, disabled: bool, calls: seq<Call<V>>): Store<V>
    decreases |calls|
  {
    if calls == [] then store
    else
      var c := calls[0];
      Replay(SafeFetch(store, disabled, c.url, c.opts, c.w).store, disabled, calls[1..])
  }

  /** However many calls a session makes with the kill switch set, the stored
      entries stay as they were. */
  lemma {:induction false} DisabledSessionKeepsStore<V>(store: Store<V>, calls: seq<Call<V>>)
    ensures Replay(store, true, calls) == store
    decreases |calls|
  {
    if calls != [] {
      var c := calls[0];
      DisabledBypassesStore(store, c.url, c.opts, c.w);
      DisabledSessionKeepsStore(store, calls[1..]);
    }
  }

  /** Two overlapping calls for the same key that both miss are not
      deduplicated: both go to the network and both resolve, and the storage
      ends with one entry for the key, written by the call that settles last. */
  lemma OverlappingMissesConverge<V>(store: Store<V>, opts: Options, urlA: string, wa: World<V>, urlB: string, wb: World<V>)
    requires CacheSlot(opts, false).Some?
    requires !FreshHit(store, opts.cacheKey.value, opts.ttl, wa.now)
    requires wa.response.Response? && IsOk(wa.response.status) && wa.response.body.Json? && !wa.quotaExceeded
    requires wb.response.Response? && IsOk(wb.response.status) && wb.response.body.Json? && !wb.quotaExceeded
    ensures var a := Begin(store, false, opts, wa.now);
      && a.Pending?
      && var b := Begin(a.store, false, opts, wb.now);
      && b.Pending?
      && var sa := Settle(b.store, a.slot, urlA, wa);
      && var sb := Settle(sa.store, b.slot, urlB, wb);
      && sa.result == Success(wa.response.body.value)
      && sb.result == Success(wb.response.body.value)
      && sb.store == b.store[opts.cacheKey.value := Stored(wb.later, wb.response.body.value)]
      && AgreeExcept(sb.store, store, opts.cacheKey.value)
  {
    var key := opts.cacheKey.value;
    var a := Begin(store, false, opts, wa.now);
    assert key in a.store ==> a.store[key] == Corrupt;
    var b := Begin(a.store, false, opts, wb.now);
    assert b.Pending?;
    var sa := Settle(b.store, a.slot, urlA, wa);
    assert sa.store == b.store[key := Stored(wa.later, wa.response.body.value)];
  }

  /** The team-member detail request passes only `cacheKey: member_<name>`:
      it is cached under that key, which is never empty, for the default five
      minutes, unless the session kill switch is set. */
  lemma MemberDetailCallCaches(encodedName: string, disabled: bool)
    ensures var opts := DefaultOptions().(cacheKey := Some(CacheKeys.MemberCacheKey(encodedName)));
      && opts.ttl == 300000
      && (disabled ==> CacheSlot(opts, disabled) == None)
      && (!disabled ==> CacheSlot(opts, disabled) == Some("member_" + encodedName))
  {
  }

  /* ---------- blocked storage ---------- */

  /** `safeFetch` as written when every access to `sessionStorage` throws
      (`blocked`, as when the browser denies the page its storage): the read
      of the kill switch sits outside any `try`, so the call throws
      synchronously instead of returning a promise, and `None` stands for that
      throw. Otherwise it is the step above. */
  function SafeFetchAsWritten<V>(store: Store<V>, blocked: bool, disabled: bool, url: string, opts: Options, w: World<V>): Option<Outcome<V>> {
    if blocked then None else Some(SafeFetch(store, disabled, url, opts, w))
  }

  /** `safeFetch` with the kill-switch read guarded like the other storage
      accesses: blocked storage then reads as a miss and a refused write, so
      the call goes to the network, leaves the storage alone, and settles
      exactly as any call that reaches the network does. */
  function SafeFetchGuarded<V>(store: Store<V>, blocked: bool, disabled: bool, url: string, opts: Options, w: World<V>): (r: Outcome<V>)
    ensures blocked ==> r.fetched && r.store == store
    ensures blocked ==> forall d: bool :: SafeFetch(store, d, url, opts, w).fetched ==>
      r.result == SafeFetch(store, d, url, opts, w).result
    ensures !blocked ==> r == SafeFetch(store, disabled, url, opts, w)
  {
    if blocked then SafeFetch(store, true, url, opts, w) else SafeFetch(store, disabled, url, opts, w)
  }

  /** How the network's answer alone settles a call that reaches it. */
  function NetworkOutcome<V>(url: string, w: World<V>): Result<V, FetchError> {
    match w.response
    case NetworkFailure => Failure(NetworkError)
    case Response(status, body) =>
      if !IsOk(status) then Failure(StatusError(url, status))
      else if body.NotJson? then Failure(DecodeError)
      else Success(body.value)
  }

  /** With blocked storage, whatever the world does: the code as written
      throws before fetching, while the guarded code goes to the network,
      leaves the storage as it was, and settles with the network's own
      outcome; a successful response is therefore delivered only by the
      guarded code. With storage available the two agree. */
  lemma BlockedStorageAbortsCall<V>(store: Store<V>, disabled: bool, url: string, opts: Options, w: World<V>)
    ensures SafeFetchAsWritten(store, true, disabled, url, opts, w).None?
    ensures var g := SafeFetchGuarded(store, true, disabled, url, opts, w);
      && g.fetched
      && g.store == store
      && g.result == NetworkOutcome(url, w)
    ensures w.response.Response? && IsOk(w.response.status) && w.response.body.Json? ==>
      SafeFetchGuarded(store, true, disabled, url, opts, w).result == Success(w.response.body.value)
    ensures SafeFetchAsWritten(store, false, disabled, url, opts, w)
         == Some(SafeFetchGuarded(store, false, disabled, url, opts, w))
  {
  }
}
