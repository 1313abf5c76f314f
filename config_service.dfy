/**
 * The API configuration cache. Stored settings are strings in a key-value store;
 * loading parses them with defaults, saving merges a partial configuration into the
 * current one and writes all four keys, and the "effective" getters fall back to
 * the defaults unless the custom configuration is enabled.
 */
module Config {
  import opened Wrappers
  import opened Text
  import opened Session

  /** The API settings. JavaScript numbers are modelled by integers. */
  datatype ApiConfiguration = ApiConfiguration(
    baseUrl: string,
    timeout: int,
    userAgent: string,
    customInventoryConfigEnabled: bool)

  /** A `Partial<ApiConfiguration>`: every field may be absent (`null`/`undefined`). */
  datatype PartialConfiguration = PartialConfiguration(
    baseUrl: Option<string>,
    timeout: Option<int>,
    userAgent: Option<string>,
    customInventoryConfigEnabled: Option<bool>)

  const DefaultBaseUrl := "http://187.189.239.4:9698/api"
  const DefaultTimeout := 30000
  const DefaultUserAgent := "GeorgeAssistant/1.0"

  /** The defaults, with the custom configuration disabled. */
  const DefaultConfig := ApiConfiguration(DefaultBaseUrl, DefaultTimeout, DefaultUserAgent, false)

  const BaseUrlKey := "api_base_url"
  const TimeoutKey := "api_timeout"
  const UserAgentKey := "api_user_agent"
  const CustomEnabledKey := "api_custom_inventory_config_enabled"

  /** `getItem(key)`. */
  function Get(st: Storage, key: string): (r: Option<string>)
    ensures r.Some? <==> key in st
    ensures r.Some? ==> r.value == st[key]
  {
    if key in st then Some(st[key]) else None
  }

  /** `timeout != null ? parseInt(timeout, 10) || 30000 : 30000`: NaN and 0 fall back; negatives are kept. */
  function TimeoutFrom(stored: Option<string>): (t: int)
    ensures t != 0
    ensures stored.Some? && ParseInt(stored.value).Some? && ParseInt(stored.value).value != 0
      ==> t == ParseInt(stored.value).value
    ensures stored.None? || ParseInt(stored.value).None? || ParseInt(stored.value) == Some(0)
      ==> t == DefaultTimeout
  {
    if stored.None? then DefaultTimeout
    else match ParseInt(stored.value)
      case None => DefaultTimeout
      case Some(n) => if n != 0 then n else DefaultTimeout
  }

  /** The configuration `loadConfiguration` builds from what it read. */
  function FromStorage(st: Storage): (c: ApiConfiguration)
    ensures c.baseUrl == (if BaseUrlKey in st then st[BaseUrlKey] else DefaultBaseUrl)
    ensures c.userAgent == (if UserAgentKey in st then st[UserAgentKey] else DefaultUserAgent)
    ensures c.timeout == TimeoutFrom(Get(st, TimeoutKey))
    ensures c.customInventoryConfigEnabled <==> CustomEnabledKey in st && st[CustomEnabledKey] == "true"
  {
    ApiConfiguration(
      Get(st, BaseUrlKey).Or(DefaultBaseUrl),
      TimeoutFrom(Get(st, TimeoutKey)),
      Get(st, UserAgentKey).Or(DefaultUserAgent),
      Get(st, CustomEnabledKey) == Some("true"))
  }

  /** The merge of `saveConfiguration`: each field from the partial argument unless it is absent. */
  function Merge(p: PartialConfiguration, current: ApiConfiguration): (c: ApiConfiguration)
    ensures c.baseUrl == (if p.baseUrl.Some? then p.baseUrl.value else current.baseUrl)
    ensures c.timeout == (if p.timeout.Some? then p.timeout.value else current.timeout)
    ensures c.userAgent == (if p.userAgent.Some? then p.userAgent.value else current.userAgent)
    ensures c.customInventoryConfigEnabled ==
      (if p.customInventoryConfigEnabled.Some? then p.customInventoryConfigEnabled.value
       else current.customInventoryConfigEnabled)
  {
    ApiConfiguration(
      p.baseUrl.Or(current.baseUrl),
      p.timeout.Or(current.timeout),
      p.userAgent.Or(current.userAgent),
      p.customInventoryConfigEnabled.Or(current.customInventoryConfigEnabled))
  }

  /** `String(b)` for a boolean. */
  function BoolToString(b: bool): string {
    if b then "true" else "false"
  }

  /** Which of the four concurrent `setItem` calls of a save succeed. */
  datatype Writes = Writes(baseUrl: bool, timeout: bool, userAgent: bool, customEnabled: bool) {
    predicate All() {
      baseUrl && timeout && userAgent && customEnabled
    }
  }

  /** The store after the successful writes of a save of `c`. */
  function Written(st: Storage, c: ApiConfiguration, w: Writes): (r: Storage)
    ensures forall k :: k in r <==> (k in st
      || (k == BaseUrlKey && w.baseUrl) || (k == TimeoutKey && w.timeout)
      || (k == UserAgentKey && w.userAgent) || (k == CustomEnabledKey && w.customEnabled))
    ensures w.baseUrl ==> r[BaseUrlKey] == c.baseUrl
    ensures w.timeout ==> r[TimeoutKey] == IntToString(c.timeout)
    ensures w.userAgent ==> r[UserAgentKey] == c.userAgent
    ensures w.customEnabled ==> r[CustomEnabledKey] == BoolToString(c.customInventoryConfigEnabled)
    ensures forall k :: k in st && k !in {BaseUrlKey, TimeoutKey, UserAgentKey, CustomEnabledKey} ==> r[k] == st[k]
  {
    var st1 := if w.baseUrl then st[BaseUrlKey := c.baseUrl] else st;
    var st2 := if w.timeout then st1[TimeoutKey := IntToString(c.timeout)] else st1;
    var st3 := if w.userAgent then st2[UserAgentKey := c.userAgent] else st2;
    if w.customEnabled then st3[CustomEnabledKey := BoolToString(c.customInventoryConfigEnabled)] else st3
  }

  /**
   * What a save writes is what the next load from storage reads. The base URL, the
   * user agent and the custom flag come back unchanged. The timeout comes back
   * unchanged below 10^21 in magnitude, except that 0 reads back as the default;
   * from 10^21 on, `String` writes it in exponent notation and only its signed
   * leading digit reads back.
   */
  lemma SaveThenLoad(st: Storage, c: ApiConfiguration)
    ensures var loaded := FromStorage(Written(st, c, Writes(true, true, true, true)));
      && loaded == c.(timeout := loaded.timeout)
      && (-ExponentFrom < c.timeout < ExponentFrom ==>
            loaded.timeout == if c.timeout == 0 then DefaultTimeout else c.timeout)
      && (c.timeout >= ExponentFrom ==> loaded.timeout == LeadingDigit(c.timeout))
      && (c.timeout <= -ExponentFrom ==> loaded.timeout == -(LeadingDigit(-c.timeout) as int))
  {
    var r := Written(st, c, Writes(true, true, true, true));
    var loaded := FromStorage(r);
    assert Get(r, TimeoutKey) == Some(IntToString(c.timeout));
    TimeoutReadsBack(c.timeout);
    assert r[CustomEnabledKey] == BoolToString(c.customInventoryConfigEnabled);
    assert loaded.baseUrl == c.baseUrl && loaded.userAgent == c.userAgent;
  }

  /** The timeout a load parses from `String(n)`. */
  lemma TimeoutReadsBack(n: int)
    ensures -ExponentFrom < n < ExponentFrom ==>
      TimeoutFrom(Some(IntToString(n))) == if n == 0 then DefaultTimeout else n
    ensures n >= ExponentFrom ==> TimeoutFrom(Some(IntToString(n))) == LeadingDigit(n)
    ensures n <= -ExponentFrom ==> TimeoutFrom(Some(IntToString(n))) == -(LeadingDigit(-n) as int)
  {
    ParseIntOfIntToString(n);
  }

  /** Saving every field replaces the whole configuration, whatever it was. */
  lemma FullSaveOverrides(v: ApiConfiguration, current: ApiConfiguration)
    ensures Merge(PartialConfiguration(Some(v.baseUrl), Some(v.timeout), Some(v.userAgent),
                                       Some(v.customInventoryConfigEnabled)), current) == v
  {
  }

  /** Saving an empty partial configuration keeps the current one. */
  lemma EmptySaveKeeps(current: ApiConfiguration)
    ensures Merge(PartialConfiguration(None, None, None, None), current) == current
  {
  }

  /** The value `getEffective*` return: the default without a cache or with the custom configuration off. */
  function Effective<T>(cache: Option<ApiConfiguration>, field: ApiConfiguration -> T, default: T): (r: T)
    ensures cache.None? || !cache.value.customInventoryConfigEnabled ==> r == default
    ensures cache.Some? && cache.value.customInventoryConfigEnabled ==> r == field(cache.value)
  {
    if cache.None? then default
    else if cache.value.customInventoryConfigEnabled then field(cache.value)
    else default
  }

  /** The base URL requests go to: the cached one only when the custom configuration is enabled. */
  function EffectiveBaseUrl(cache: Option<ApiConfiguration>): (r: string)
    ensures cache.None? || !cache.value.customInventoryConfigEnabled ==> r == DefaultBaseUrl
    ensures cache.Some? && cache.value.customInventoryConfigEnabled ==> r == cache.value.baseUrl
  {
    Effective(cache, (c: ApiConfiguration) => c.baseUrl, DefaultBaseUrl)
  }

  /** The request timeout: the cached one only when the custom configuration is enabled. */
  function EffectiveTimeout(cache: Option<ApiConfiguration>): (r: int)
    ensures cache.None? || !cache.value.customInventoryConfigEnabled ==> r == DefaultTimeout
    ensures cache.Some? && cache.value.customInventoryConfigEnabled ==> r == cache.value.timeout
  {
    Effective(cache, (c: ApiConfiguration) => c.timeout, DefaultTimeout)
  }

  /** The `User-Agent` header: the cached one only when the custom configuration is enabled. */
  function EffectiveUserAgent(cache: Option<ApiConfiguration>): (r: string)
    ensures cache.None? || !cache.value.customInventoryConfigEnabled ==> r == DefaultUserAgent
    ensures cache.Some? && cache.value.customInventoryConfigEnabled ==> r == cache.value.userAgent
  {
    Effective(cache, (c: ApiConfiguration) => c.userAgent, DefaultUserAgent)
  }

  /**
   * The effective timeout is never 0 once a configuration was loaded from storage or
   * defaulted: loading maps 0 to the default.
   */
  lemma EffectiveTimeoutOfLoaded(st: Storage)
    ensures EffectiveTimeout(Some(FromStorage(st))) != 0
    ensures EffectiveTimeout(Some(DefaultConfig)) == DefaultTimeout
  {
  }

  /**
   * Two saves that overlap both merge into the configuration they loaded before
   * either wrote, so the one that writes last puts back the other's field: a new
   * base URL saved alongside a timeout-only save is lost, in the store and on reload.
   */
  lemma OverlappingSavesLoseUpdate(st: Storage, current: ApiConfiguration, url: string, timeout: int)
    requires url != current.baseUrl
    ensures var first := Merge(PartialConfiguration(Some(url), None, None, None), current);
      var second := Merge(PartialConfiguration(None, Some(timeout), None, None), current);
      var all := Writes(true, true, true, true);
      var after := Written(Written(st, first, all), second, all);
      && after[BaseUrlKey] == current.baseUrl
      && FromStorage(after).baseUrl != url
  {
  }

  /** The module state: the cached configuration, and the store it is loaded from. */
  class ConfigService {
    var cachedConfig: Option<ApiConfiguration>
    var storage: Storage

    /** Nothing cached yet. */
    constructor(storage: Storage)
      ensures cachedConfig.None? && this.storage == storage
    {
      cachedConfig := None;
      this.storage := storage;
    }

    /**
     * `loadConfiguration()`: the cache if set, without reading the store; otherwise
     * the parsed stored settings, or the defaults if reading fails. Either way the
     * result is cached.
     */
    method LoadConfiguration(readOk: bool) returns (c: ApiConfiguration)
      modifies this
      ensures storage == old(storage) && cachedConfig == Some(c)
      ensures old(cachedConfig).Some? ==> c == old(cachedConfig).value
      ensures old(cachedConfig).None? && readOk ==> c == FromStorage(storage)
      ensures old(cachedConfig).None? && !readOk ==> c == DefaultConfig
    {
      if cachedConfig.Some? {
        return cachedConfig.value;
      }
      if readOk {
        c := FromStorage(storage);
      } else {
        c := DefaultConfig;
      }
      cachedConfig := Some(c);
    }

    /**
     * `saveConfiguration(partial)` up to its second `await`: the configuration is
     * loaded (and so cached) and the partial one merged into it.
     */
    method BeginSave(p: PartialConfiguration, readOk: bool) returns (next: ApiConfiguration)
      modifies this
      ensures var current := if old(cachedConfig).Some? then old(cachedConfig).value
                             else if readOk then FromStorage(old(storage)) else DefaultConfig;
        && next == Merge(p, current) && cachedConfig == Some(current) && storage == old(storage)
    {
      var current := LoadConfiguration(readOk);
      next := Merge(p, current);
    }

    /**
     * The rest of `saveConfiguration`: the four keys are written concurrently, and
     * the cache replaced only if every write succeeded; otherwise the call rejects,
     * keeping the writes that did succeed.
     */
    method CompleteSave(next: ApiConfiguration, w: Writes) returns (ok: bool)
      modifies this
      ensures storage == Written(old(storage), next, w)
      ensures cachedConfig == if w.All() then Some(next) else old(cachedConfig)
      ensures ok <==> w.All()
    {
      storage := Written(storage, next, w);
      if !w.All() {
        return false;
      }
      cachedConfig := Some(next);
      ok := true;
    }

    /** A save that no other call interleaves with: `BeginSave` then `CompleteSave`. */
    method SaveConfiguration(p: PartialConfiguration, readOk: bool, w: Writes) returns (ok: bool)
      modifies this
      ensures var current := if old(cachedConfig).Some? then old(cachedConfig).value
                             else if readOk then FromStorage(old(storage)) else DefaultConfig;
        && storage == Written(old(storage), Merge(p, current), w)
        && cachedConfig == Some(if w.All() then Merge(p, current) else current)
      ensures ok <==> w.All()
    {
      var next := BeginSave(p, readOk);
      ok := CompleteSave(next, w);
    }

    /** `invalidateConfigCache()`: the next load reads the store again. */
    method InvalidateConfigCache()
      modifies this
      ensures cachedConfig.None? && storage == old(storage)
    {
      cachedConfig := None;
    }

    /** `getCachedConfig()`: the configuration last loaded or fully saved, `null` before any. */
    function GetCachedConfig(): (r: Option<ApiConfiguration>)
      reads this
      ensures r == cachedConfig
    {
      cachedConfig
    }

    /** `getEffectiveBaseUrl()`: the default until a configuration with the custom settings enabled is cached. */
    function GetEffectiveBaseUrl(): (r: string)
      reads this
      ensures cachedConfig.None? || !cachedConfig.value.customInventoryConfigEnabled ==> r == DefaultBaseUrl
      ensures cachedConfig.Some? && cachedConfig.value.customInventoryConfigEnabled ==> r == cachedConfig.value.baseUrl
    {
      EffectiveBaseUrl(cachedConfig)
    }

    /** `getEffectiveTimeout()`: the default until a configuration with the custom settings enabled is cached. */
    function GetEffectiveTimeout(): (r: int)
      reads this
      ensures cachedConfig.None? || !cachedConfig.value.customInventoryConfigEnabled ==> r == DefaultTimeout
      ensures cachedConfig.Some? && cachedConfig.value.customInventoryConfigEnabled ==> r == cachedConfig.value.timeout
    {
      EffectiveTimeout(cachedConfig)
    }

    /** `getEffectiveUserAgent()`: the default until a configuration with the custom settings enabled is cached. */
    function GetEffectiveUserAgent(): (r: string)
      reads this
      ensures cachedConfig.None? || !cachedConfig.value.customInventoryConfigEnabled ==> r == DefaultUserAgent
      ensures cachedConfig.Some? && cachedConfig.value.customInventoryConfigEnabled ==> r == cachedConfig.value.userAgent
    {
      EffectiveUserAgent(cachedConfig)
    }
  }
}
