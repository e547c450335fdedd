/** The market switcher: per-market validation, the API-key report, and the
    switch of the active market. */
module ConfigSwitcher {
  import opened Options
  import opened JsonValues
  import opened ConfigManager

  function NoConfigMessage(market: string): string
  {
    "市场 '" + market + "' 的配置不存在"
  }

  /** The API keys check_api_keys requires for each market; none for any
      other market. */
  function RequiredKeys(market: string): (r: seq<string>)
    ensures r != [] <==> market in Templates
    ensures r != [] ==> r[|r| - 1] == "openai"
  {
    if market == "us" then ["alphavantage", "openai"]
    else if market == "cn" then ["tushare", "openai"]
    else if market == "crypto" then ["binance", "binance_secret", "openai"]
    else []
  }

  /** A key value counts as configured when it is non-empty and not a
      placeholder. */
  predicate IsConfigured(value: string)
  {
    value != "" && !StartsWith(value, PlaceholderPrefix)
  }

  /** api_keys.get(key, '') */
  function KeyValue(apiKeys: map<string, string>, key: string): string
  {
    if key in apiKeys then apiKeys[key] else ""
  }

  const NotConfiguredText: string := "未配置"

  /** One entry of key_status. Python's `value and not value.startswith(...)`
      gives the empty string itself, not False, when the value is empty. */
  datatype KeyStatus = KeyStatus(configured: Json, value: string)

  /** The entry check_api_keys records for key. */
  function StatusOf(apiKeys: map<string, string>, key: string): (r: KeyStatus)
    ensures (r.configured == JBool(true)) <==> IsConfigured(KeyValue(apiKeys, key))
    ensures r.configured == JStr("") <==> KeyValue(apiKeys, key) == ""
    ensures KeyValue(apiKeys, key) != "" && !IsConfigured(KeyValue(apiKeys, key)) ==>
      r.configured == JBool(false)
    ensures IsConfigured(KeyValue(apiKeys, key)) ==> r.value == apiKeys[key]
    ensures !IsConfigured(KeyValue(apiKeys, key)) ==> r.value == NotConfiguredText
  {
    var value := KeyValue(apiKeys, key);
    var flag := if value == "" then JStr("") else JBool(!StartsWith(value, PlaceholderPrefix));
    KeyStatus(flag, if IsConfigured(value) then value else NotConfiguredText)
  }

  /** The dict check_api_keys returns. */
  datatype KeyReport =
    | NoConfig(error: string)
    | KeyReport(market: string, allConfigured: bool, keys: map<string, KeyStatus>,
                requiredKeys: seq<string>)

  /** The switcher over a configuration manager, with the local quick-start
      file it keeps in step. */
  class Switcher {
    const manager: Manager
    /** local_quickstart.json, when it exists. */
    var quickstart: Option<Config>

    constructor(manager0: Manager, quickstart0: Option<Config>)
      ensures manager == manager0 && quickstart == quickstart0
    {
      manager := manager0;
      quickstart := quickstart0;
    }

    /** check_api_keys: reports each key the market requires, in order, and
        whether all of them are configured. */
    method CheckApiKeys(market: string) returns (r: KeyReport)
      requires manager.Valid()
      ensures market !in manager.files ==> r == NoConfig(NoConfigMessage(market))
      ensures market in manager.files ==>
        r.KeyReport? && r.market == market && r.requiredKeys == RequiredKeys(market)
        && r.keys.Keys == set k | k in RequiredKeys(market)
        && (forall k :: k in r.keys ==> r.keys[k] == StatusOf(manager.apiKeys, k))
        && (r.allConfigured <==>
              forall k :: k in RequiredKeys(market) ==> IsConfigured(KeyValue(manager.apiKeys, k)))
    {
      var configs := manager.AvailableConfigs();
      if market !in configs {
        return NoConfig(NoConfigMessage(market));
      }
      var apiKeys := manager.apiKeys;
      var required := RequiredKeys(market);
      var keyStatus: map<string, KeyStatus> := map[];
      var allConfigured := true;
      var i := 0;
      while i < |required|
        invariant 0 <= i <= |required|
        invariant keyStatus.Keys == set k | k in required[..i]
        invariant forall k :: k in keyStatus ==> keyStatus[k] == StatusOf(apiKeys, k)
        invariant allConfigured <==> forall k :: k in required[..i] ==> IsConfigured(KeyValue(apiKeys, k))
      {
        var key := required[i];
        keyStatus := keyStatus[key := StatusOf(apiKeys, key)];
        if !IsConfigured(KeyValue(apiKeys, key)) {
          allConfigured := false;
        }
        assert required[..i + 1] == required[..i] + [key];
        i := i + 1;
      }
      assert required[..i] == required;
      r := KeyReport(market, allConfigured, keyStatus, required);
    }

    /** validate_market_config: the configuration's validation, or a single
        error when the market has no configuration file. */
    function ValidateMarketConfig(market: string): (r: Validation)
      reads this, manager
      requires manager.Valid()
      requires market in manager.files ==> KeyListWellFormed(manager.files[market])
      ensures market !in manager.files ==> r == Validation(false, [NoConfigMessage(market)], [])
      ensures market in manager.files ==> r == ValidationOf(manager.files[market], manager.apiKeys)
      ensures r.valid <==> market in manager.files && HasRequiredFields(manager.files[market])
    {
      var configs := manager.AvailableConfigs();
      if market !in configs then Validation(false, [NoConfigMessage(market)], [])
      else ValidationOf(configs[market], manager.apiKeys)
    }

    /** _update_local_quickstart: rewrites mode and last_switch_time when the
        quick-start file exists. */
    method UpdateLocalQuickstart(market: string, isoNow: string)
      modifies this
      ensures quickstart == QuickstartAfter(old(quickstart), market, isoNow)
    {
      if quickstart.Some? {
        var config := quickstart.value;
        config := config["mode" := JStr(market)];
        config := config["last_switch_time" := JStr(isoNow)];
        quickstart := Some(config);
      }
    }

    /** switch_to_market as written. stamp is the time recorded in the active
        configuration, isoNow the one recorded in the quick-start file. */
    method SwitchToMarketAsWritten(market: string, validate: bool, stamp: string, isoNow: string)
      returns (ok: bool)
      requires manager.Valid()
      requires validate && market in manager.files ==> KeyListWellFormed(manager.files[market])
      modifies this, manager
      ensures var e := SwitchAsWritten(old(manager.files), old(manager.apiKeys), market, validate);
        ok == e.result
        && manager.active == (if e.activates then Some(ActiveConfig(market, old(manager.files)[market], stamp))
                              else old(manager.active))
        && quickstart == (if e.activates then QuickstartAfter(old(quickstart), market, isoNow)
                          else old(quickstart))
      ensures manager.files == old(manager.files) && manager.apiKeys == old(manager.apiKeys)
      ensures manager.Valid()
    {
      var configs := manager.AvailableConfigs();
      if market !in configs {
        return false;
      }
      var config := configs[market];
      var validation: Option<Validation> := None;
      if validate {
        var v := ValidateConfig(market, config, manager.apiKeys);
        validation := Some(v);
        if !v.valid {
          return false;
        }
      }
      var _ := manager.SetActiveConfig(market, config, stamp);
      UpdateLocalQuickstart(market, isoNow);
      if validation.None? {
        // Reading the unbound local raises UnboundLocalError, which the
        // handler turns into a failed switch after the writes above.
        return false;
      }
      ok := true;
    }

    /** switch_to_market as evidently intended: without validation there
        are no warnings to print and the switch succeeds. */
    method SwitchToMarket(market: string, validate: bool, stamp: string, isoNow: string)
      returns (ok: bool)
      requires manager.Valid()
      requires validate && market in manager.files ==> KeyListWellFormed(manager.files[market])
      modifies this, manager
      ensures var e := SwitchIntended(old(manager.files), old(manager.apiKeys), market, validate);
        ok == e.result
        && manager.active == (if e.activates then Some(ActiveConfig(market, old(manager.files)[market], stamp))
                              else old(manager.active))
        && quickstart == (if e.activates then QuickstartAfter(old(quickstart), market, isoNow)
                          else old(quickstart))
      ensures manager.files == old(manager.files) && manager.apiKeys == old(manager.apiKeys)
      ensures manager.Valid()
    {
      var configs := manager.AvailableConfigs();
      if market !in configs {
        return false;
      }
      var config := configs[market];
      if validate {
        var v := ValidateConfig(market, config, manager.apiKeys);
        if !v.valid {
          return false;
        }
      }
      var _ := manager.SetActiveConfig(market, config, stamp);
      UpdateLocalQuickstart(market, isoNow);
      ok := true;
    }
  }

  /** The quick-start file after a switch to market. */
  function QuickstartAfter(quickstart: Option<Config>, market: string, isoNow: string): (r: Option<Config>)
    ensures r.Some? <==> quickstart.Some?
    ensures r.Some? ==> r.value.Keys == quickstart.value.Keys + {"mode", "last_switch_time"}
    ensures r.Some? ==> r.value["mode"] == JStr(market) && r.value["last_switch_time"] == JStr(isoNow)
    ensures r.Some? ==> forall k :: k in quickstart.value && k != "mode" && k != "last_switch_time" ==>
      r.value[k] == quickstart.value[k]
  {
    if quickstart.None? then None
    else Some(quickstart.value["mode" := JStr(market)]["last_switch_time" := JStr(isoNow)])
  }

  /** What a switch returns and whether it activates the market. */
  datatype SwitchEffect = SwitchEffect(result: bool, activates: bool)

  /** Whether switch_to_market lets the market through its checks. */
  predicate SwitchAllowed(configs: map<string, Config>, apiKeys: map<string, string>,
                          market: string, validate: bool)
    requires validate && market in configs ==> KeyListWellFormed(configs[market])
  {
    market in configs && (validate ==> ValidationOf(configs[market], apiKeys).valid)
  }

  /** switch_to_market as written: without validation it activates the
      market and then reports failure. */
  function SwitchAsWritten(configs: map<string, Config>, apiKeys: map<string, string>,
                           market: string, validate: bool): (e: SwitchEffect)
    requires validate && market in configs ==> KeyListWellFormed(configs[market])
    ensures e.result ==> e.activates
    ensures !validate ==> !e.result
    ensures e.activates ==> market in configs
  {
    var allowed := SwitchAllowed(configs, apiKeys, market, validate);
    SwitchEffect(allowed && validate, allowed)
  }

  /** switch_to_market as evidently intended. */
  function SwitchIntended(configs: map<string, Config>, apiKeys: map<string, string>,
                          market: string, validate: bool): (e: SwitchEffect)
    requires validate && market in configs ==> KeyListWellFormed(configs[market])
    ensures e.result == e.activates
  {
    var allowed := SwitchAllowed(configs, apiKeys, market, validate);
    SwitchEffect(allowed, allowed)
  }

  /** The corrected switch activates the market, and reports success,
      exactly when the market has a configuration file and, when validating,
      that file has every required field; API-key warnings never block it. */
  lemma SwitchIntendedIff(configs: map<string, Config>, apiKeys: map<string, string>,
                          market: string, validate: bool)
    requires validate && market in configs ==> KeyListWellFormed(configs[market])
    ensures SwitchIntended(configs, apiKeys, market, validate).activates <==>
      market in configs && (validate ==> HasRequiredFields(configs[market]))
  {
  }

  /** The as-written switch activates the same markets as the corrected one
      and differs from it only in its result when validation is off. */
  lemma SwitchAsWrittenDiffers(configs: map<string, Config>, apiKeys: map<string, string>,
                               market: string, validate: bool)
    requires validate && market in configs ==> KeyListWellFormed(configs[market])
    ensures SwitchAsWritten(configs, apiKeys, market, validate).activates
         == SwitchIntended(configs, apiKeys, market, validate).activates
    ensures validate ==>
      SwitchAsWritten(configs, apiKeys, market, validate) == SwitchIntended(configs, apiKeys, market, validate)
    ensures !validate ==> !SwitchAsWritten(configs, apiKeys, market, validate).result
    ensures !validate && market in configs ==>
      SwitchAsWritten(configs, apiKeys, market, validate) == SwitchEffect(false, true)
  {
  }

  /** Switching to a market with an empty configuration file and validation
      off: the as-written switch activates the market and reports failure,
      the corrected one reports success. */
  lemma SwitchWithoutValidationExample()
    ensures var configs := map["crypto" := map[]];
      SwitchAsWritten(configs, map[], "crypto", false) == SwitchEffect(false, true)
      && SwitchIntended(configs, map[], "crypto", false) == SwitchEffect(true, true)
  {
  }

  /** check_api_keys and validate_config judge a key alike except when its
      value is the empty string: validate_config draws no warning for it while
      check_api_keys reports it as not configured. */
  lemma KeyChecksDisagreeOnlyOnEmpty(apiKeys: map<string, string>, name: string)
    ensures IsConfigured(KeyValue(apiKeys, name)) ==> !NeedsWarning(name, apiKeys)
    ensures !NeedsWarning(name, apiKeys) && !IsConfigured(KeyValue(apiKeys, name))
        <==> name in apiKeys && apiKeys[name] == ""
  {
  }

  /** Every market with a template requires at least the openai key, and
      every required key has an entry in the default settings. */
  lemma RequiredKeysCovered(market: string)
    ensures RequiredKeys(market) != [] <==> market in Templates
    ensures market in Templates ==> "openai" in RequiredKeys(market)
    ensures forall k :: k in RequiredKeys(market) ==> k in DefaultApiKeys
  {
  }

  /** Under the default settings no required key is configured. */
  lemma DefaultKeysNotConfigured(market: string)
    ensures forall k :: k in RequiredKeys(market) ==> !IsConfigured(KeyValue(DefaultApiKeys, k))
  {
    RequiredKeysCovered(market);
    forall k | k in RequiredKeys(market)
      ensures StartsWith(DefaultApiKeys[k], PlaceholderPrefix)
    {
      var v := DefaultApiKeys[k];
      assert v[..5] == "YOUR_";
    }
  }
}
