/** The second-generation service-call cache (`_async_call_cached`): a call is
    skipped when the same value was sent for the same target and the entry
    has not expired; only a call that went through updates the cache. */
module ServiceCache {
  import opened Common

  /** `(domain, service, entity_id, cache_field)`. */
  datatype Key = Key(domain: string, service: string, entity: string, field: string)

  /** The values the coordinator caches: a switch state, a number of watts,
      or a selected option. */
  datatype Value = Flag(on: bool) | Watts(w: int) | Choice(option: string)

  /** A cache entry: the value last sent and when. */
  datatype Entry = Entry(value: Value, at: real)

  /** The configured time-to-live: a number (truncated toward zero, as
      `int()` does), or a value `int()` rejects (the default applies). */
  datatype TtlSetting = TtlNumber(seconds: real) | TtlInvalid

  /** `_get_service_call_cache_ttl`: whole seconds, and 0 for any value at or
      below zero; `defaultSeconds` is the default of the configuration. */
  function TtlSeconds(setting: TtlSetting, defaultSeconds: int): (ttl: nat)
    ensures setting.TtlNumber? && setting.seconds >= 1.0 ==> ttl as real <= setting.seconds < ttl as real + 1.0
    ensures setting.TtlNumber? && setting.seconds < 1.0 ==> ttl == 0
    ensures setting.TtlInvalid? ==> ttl == (if defaultSeconds <= 0 then 0 else defaultSeconds)
  {
    var seconds := match setting
      case TtlNumber(x) => Truncate(x)
      case TtlInvalid => defaultSeconds;
    if seconds <= 0 then 0 else seconds
  }

  /** An entry is expired when the TTL is positive and more than TTL seconds
      have passed; a TTL of 0 never expires. */
  predicate Expired(e: Entry, now: real, ttl: nat)
  {
    ttl > 0 && now - e.at > ttl as real
  }

  /** The call is skipped: not forced, and the same value is cached for the
      key and not expired. */
  predicate Skips(cache: map<Key, Entry>, key: Key, value: Value, now: real, ttl: nat, force: bool)
  {
    !force && key in cache && cache[key].value == value && !Expired(cache[key], now, ttl)
  }

  /** What happened to one call. */
  datatype Outcome = Skipped | ServiceMissing | CallFailed | Sent

  /** `_async_call_cached` as a value: the outcome and the cache afterwards,
      given whether the service exists and whether the call succeeds. */
  function Call(cache: map<Key, Entry>, key: Key, value: Value, now: real, ttl: nat, force: bool,
                serviceExists: bool, callSucceeds: bool): (Outcome, map<Key, Entry>)
  {
    if Skips(cache, key, value, now, ttl, force) then (Skipped, cache)
    else if !serviceExists then (ServiceMissing, cache)
    else if !callSucceeds then (CallFailed, cache)
    else (Sent, cache[key := Entry(value, now)])
  }

  /** Only a call that went through changes the cache, and then only its own
      key, which afterwards holds the value sent and the time. */
  lemma OnlySentCallsWrite(cache: map<Key, Entry>, key: Key, value: Value, now: real, ttl: nat, force: bool,
                           serviceExists: bool, callSucceeds: bool)
    ensures var (outcome, cache') := Call(cache, key, value, now, ttl, force, serviceExists, callSucceeds);
      && (outcome != Sent ==> cache' == cache)
      && (outcome == Sent ==> key in cache' && cache'[key] == Entry(value, now))
      && (forall k :: k != key ==> (k in cache' <==> k in cache) && (k in cache ==> cache'[k] == cache[k]))
  {
  }

  /** The call reaches the service exactly when it is forced, the key is
      new, the cached value differs, or the entry expired. */
  lemma ReachesServiceIff(cache: map<Key, Entry>, key: Key, value: Value, now: real, ttl: nat, force: bool,
                          serviceExists: bool, callSucceeds: bool)
    ensures var (outcome, _) := Call(cache, key, value, now, ttl, force, serviceExists, callSucceeds);
      outcome != Skipped <==>
        (force || key !in cache || cache[key].value != value || Expired(cache[key], now, ttl))
  {
  }

  /** Sending the same value again right after a successful call is skipped
      while the entry is fresh, and is skipped forever when the TTL is 0. */
  lemma RepeatIsSkipped(cache: map<Key, Entry>, key: Key, value: Value, t: real, now: real, ttl: nat,
                        serviceExists: bool, callSucceeds: bool)
    requires Call(cache, key, value, t, ttl, false, true, true).0 == Sent
    requires ttl == 0 || now - t <= ttl as real
    ensures var cache' := Call(cache, key, value, t, ttl, false, true, true).1;
      Call(cache', key, value, now, ttl, false, serviceExists, callSucceeds) == (Skipped, cache')
  {
  }

  /** A failed call is retried on the next cycle: nothing was cached. */
  lemma FailedCallIsRetried(cache: map<Key, Entry>, key: Key, value: Value, t: real, now: real, ttl: nat)
    requires key !in cache
    ensures var cache' := Call(cache, key, value, t, ttl, false, true, false).1;
      Call(cache', key, value, now, ttl, false, true, true) == (Sent, cache[key := Entry(value, now)])
  {
  }

  /** The cache of the second-generation coordinator. */
  class CallCache {
    var entries: map<Key, Entry>
    const ttl: nat

    constructor (ttl: nat)
      ensures entries == map[] && this.ttl == ttl
    {
      entries := map[];
      this.ttl := ttl;
    }

    /** `_async_call_cached`: writes the cache entry only after a call that
        went through. */
    method CallCached(key: Key, value: Value, now: real, force: bool, serviceExists: bool, callSucceeds: bool)
      returns (outcome: Outcome)
      modifies this`entries
      ensures (outcome, entries) == Call(old(entries), key, value, now, ttl, force, serviceExists, callSucceeds)
    {
      if !force && key in entries {
        var cached := entries[key];
        var isSameValue := cached.value == value;
        var isExpired := ttl > 0 && now - cached.at > ttl as real;
        if isSameValue && !isExpired {
          return Skipped;
        }
      }
      if !serviceExists {
        return ServiceMissing;
      }
      if !callSucceeds {
        return CallFailed;
      }
      entries := entries[key := Entry(value, now)];
      outcome := Sent;
    }
  }
}
