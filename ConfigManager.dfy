/** The multi-market configuration manager: validation of a market
    configuration, the recursive merge behind update_config, and the guarded
    updates and imports of the per-market configuration files. */
module ConfigManager {
  import opened Options
  import opened JsonValues

  /** update_config's merge: every key of the update lands in the base; where
      both sides hold an object the two objects are merged recursively,
      otherwise the update's value replaces the base's. */
  function Merged(base: Config, upd: Config): (r: Config)
    ensures r.Keys == base.Keys + upd.Keys
    decreases JObj(upd)
  {
    map k | k in base.Keys + upd.Keys ::
      if k !in upd then base[k]
      else if upd[k].JObj? && k in base && base[k].JObj? then
        JObj(Merged(base[k].obj, upd[k].obj))
      else upd[k]
  }

  /** _deep_update: walks the update's keys and writes each into the result,
      descending into objects present on both sides. */
  method DeepUpdate(base: Config, upd: Config) returns (r: Config)
    ensures r == Merged(base, upd)
    decreases JObj(upd)
  {
    r := base;
    var pending := upd.Keys;
    while pending != {}
      invariant pending <= upd.Keys
      invariant r.Keys == base.Keys + (upd.Keys - pending)
      invariant forall k :: k in r && k !in upd.Keys - pending ==> r[k] == base[k]
      invariant forall k :: k in upd.Keys - pending ==> r[k] == Merged(base, upd)[k]
      decreases pending
    {
      var k :| k in pending;
      var v := upd[k];
      if v.JObj? && k in r && r[k].JObj? {
        var sub := DeepUpdate(r[k].obj, v.obj);
        r := r[k := JObj(sub)];
      } else {
        r := r[k := v];
      }
      pending := pending - {k};
    }
  }

  /** Merging an object into itself changes nothing. */
  lemma {:induction false} MergeSelf(x: Config)
    ensures Merged(x, x) == x
    decreases JObj(x)
  {
    forall k | k in x
      ensures Merged(x, x)[k] == x[k]
    {
      if x[k].JObj? {
        MergeSelf(x[k].obj);
      }
    }
  }

  /** Applying the same update twice gives the result of applying it once. */
  lemma {:induction false} MergeIdempotent(base: Config, upd: Config)
    ensures Merged(Merged(base, upd), upd) == Merged(base, upd)
    decreases JObj(upd)
  {
    var m := Merged(base, upd);
    forall k | k in m
      ensures Merged(m, upd)[k] == m[k]
    {
      if k in upd && upd[k].JObj? {
        if k in base && base[k].JObj? {
          MergeIdempotent(base[k].obj, upd[k].obj);
        } else {
          MergeSelf(upd[k].obj);
        }
      }
    }
  }

  /** The update's path does not end inside the base: walking path through
      the update only meets objects and leaves the update before the path
      ends. */
  predicate UpdateMisses(upd: Config, path: seq<string>)
    decreases |path|
  {
    path != [] &&
    (path[0] !in upd || (upd[path[0]].JObj? && UpdateMisses(upd[path[0]].obj, path[1..])))
  }

  /** Every non-object value of the update is found at its path after the
      merge. */
  lemma {:induction false} UpdateValuesLand(base: Config, upd: Config, path: seq<string>, v: Json)
    requires Lookup(JObj(upd), path) == Some(v) && !v.JObj?
    ensures Lookup(JObj(Merged(base, upd)), path) == Some(v)
    decreases |path|
  {
    var k := path[0];
    if |path| > 1 && k in base && base[k].JObj? && upd[k].JObj? {
      UpdateValuesLand(base[k].obj, upd[k].obj, path[1..], v);
    }
  }

  /** A value of the base survives the merge when the update does not reach
      its path. */
  lemma {:induction false} UntouchedValuesKept(base: Config, upd: Config, path: seq<string>, v: Json)
    requires Lookup(JObj(base), path) == Some(v) && UpdateMisses(upd, path)
    ensures Lookup(JObj(Merged(base, upd)), path) == Some(v)
    decreases |path|
  {
    var k := path[0];
    if k in upd {
      UntouchedValuesKept(base[k].obj, upd[k].obj, path[1..], v);
    }
  }

  /** The markets that have a configuration file template. */
  const Templates: set<string> := {"us", "cn", "crypto"}

  const RequiredFields: seq<string> := ["name", "market", "agent_type"]

  const KeyListField: string := "api_key_required"

  /** The prefix of a placeholder API key. */
  const PlaceholderPrefix: string := "YOUR_"

  /** The api_keys entry of the common settings when no settings file exists. */
  const DefaultApiKeys: map<string, string> := map[
    "alphavantage" := "YOUR_ALPHAVANTAGE_API_KEY",
    "tushare" := "YOUR_TUSHARE_API_KEY",
    "binance" := "YOUR_BINANCE_API_KEY",
    "binance_secret" := "YOUR_BINANCE_API_SECRET",
    "openai" := "YOUR_OPENAI_API_KEY"]

  /** The result dict of validate_config. */
  datatype Validation = Validation(valid: bool, errors: seq<string>, warnings: seq<string>)

  function MissingFieldMessage(field: string): string
  {
    "缺少必填字段: " + field
  }

  function MissingKeyMessage(name: string): string
  {
    "API密钥未配置: " + name
  }

  /** api_key_required, when present, is a list of key names. */
  predicate KeyListWellFormed(config: Config)
  {
    KeyListField in config ==>
      config[KeyListField].JArr? &&
      forall i :: 0 <= i < |config[KeyListField].items| ==> config[KeyListField].items[i].JStr?
  }

  /** The key names listed under api_key_required, in order. */
  function RequiredKeyNames(config: Config): (names: seq<string>)
    requires KeyListWellFormed(config)
    ensures KeyListField !in config ==> names == []
    ensures KeyListField in config ==>
      |names| == |config[KeyListField].items|
      && forall i :: 0 <= i < |names| ==> config[KeyListField].items[i] == JStr(names[i])
  {
    if KeyListField !in config then []
    else
      var items := config[KeyListField].items;
      seq(|items|, i requires 0 <= i < |items| => items[i].s)
  }

  /** A key needs a warning when it is missing or still a placeholder; an
      empty value needs none. */
  predicate NeedsWarning(name: string, apiKeys: map<string, string>)
  {
    name !in apiKeys || StartsWith(apiKeys[name], PlaceholderPrefix)
  }

  /** The errors for the fields missing from config, in the order of fields. */
  function MissingFieldErrors(fields: seq<string>, config: Config): seq<string>
  {
    if fields == [] then []
    else
      (if fields[0] in config then [] else [MissingFieldMessage(fields[0])])
      + MissingFieldErrors(fields[1..], config)
  }

  /** The warnings for the key names that need one, in the order of names. */
  function KeyWarnings(names: seq<string>, apiKeys: map<string, string>): seq<string>
  {
    if names == [] then []
    else
      (if NeedsWarning(names[0], apiKeys) then [MissingKeyMessage(names[0])] else [])
      + KeyWarnings(names[1..], apiKeys)
  }

  /** What validate_config returns for config, with apiKeys the api_keys of
      the common settings. */
  function ValidationOf(config: Config, apiKeys: map<string, string>): (r: Validation)
    requires KeyListWellFormed(config)
    ensures r.valid <==> r.errors == []
    ensures r.valid <==> HasRequiredFields(config)
    ensures |r.warnings| <= |RequiredKeyNames(config)|
  {
    var errors := MissingFieldErrors(RequiredFields, config);
    MissingFieldErrorsInOrder(config);
    KeyWarningsIff(RequiredKeyNames(config), apiKeys, "");
    Validation(errors == [], errors, KeyWarnings(RequiredKeyNames(config), apiKeys))
  }

  /** The three fields validate_config requires. */
  predicate HasRequiredFields(config: Config)
  {
    "name" in config && "market" in config && "agent_type" in config
  }

  lemma MissingFieldErrorsStep(fields: seq<string>, i: nat, config: Config)
    requires i < |fields|
    ensures MissingFieldErrors(fields[i..], config) ==
      (if fields[i] in config then [] else [MissingFieldMessage(fields[i])])
      + MissingFieldErrors(fields[i + 1..], config)
  {
    assert fields[i..][1..] == fields[i + 1..];
  }

  lemma KeyWarningsStep(names: seq<string>, j: nat, apiKeys: map<string, string>)
    requires j < |names|
    ensures KeyWarnings(names[j..], apiKeys) ==
      (if NeedsWarning(names[j], apiKeys) then [MissingKeyMessage(names[j])] else [])
      + KeyWarnings(names[j + 1..], apiKeys)
  {
    assert names[j..][1..] == names[j + 1..];
  }

  /** The first loop of validate_config: one error per missing field. */
  method CollectMissingFields(fields: seq<string>, config: Config) returns (errors: seq<string>)
    ensures errors == MissingFieldErrors(fields, config)
  {
    errors := [];
    var i := 0;
    while i < |fields|
      invariant 0 <= i <= |fields|
      invariant errors + MissingFieldErrors(fields[i..], config) == MissingFieldErrors(fields, config)
    {
      MissingFieldErrorsStep(fields, i, config);
      if fields[i] !in config {
        var m := [MissingFieldMessage(fields[i])];
        assert errors + (m + MissingFieldErrors(fields[i + 1..], config))
            == (errors + m) + MissingFieldErrors(fields[i + 1..], config);
        errors := errors + m;
      }
      i := i + 1;
    }
    assert fields[i..] == [];
  }

  /** The second loop of validate_config: one warning per listed key that is
      missing or a placeholder. */
  method CollectKeyWarnings(names: seq<string>, apiKeys: map<string, string>) returns (warnings: seq<string>)
    ensures warnings == KeyWarnings(names, apiKeys)
  {
    warnings := [];
    var j := 0;
    while j < |names|
      invariant 0 <= j <= |names|
      invariant warnings + KeyWarnings(names[j..], apiKeys) == KeyWarnings(names, apiKeys)
    {
      KeyWarningsStep(names, j, apiKeys);
      if NeedsWarning(names[j], apiKeys) {
        var m := [MissingKeyMessage(names[j])];
        assert warnings + (m + KeyWarnings(names[j + 1..], apiKeys))
            == (warnings + m) + KeyWarnings(names[j + 1..], apiKeys);
        warnings := warnings + m;
      }
      j := j + 1;
    }
    assert names[j..] == [];
  }

  /** validate_config: the market argument is not consulted. */
  method ValidateConfig(market: string, config: Config, apiKeys: map<string, string>)
    returns (v: Validation)
    requires KeyListWellFormed(config)
    ensures v == ValidationOf(config, apiKeys)
  {
    var errors := CollectMissingFields(RequiredFields, config);
    var warnings: seq<string> := [];
    if KeyListField in config {
      warnings := CollectKeyWarnings(RequiredKeyNames(config), apiKeys);
    }
    v := Validation(|errors| == 0, errors, warnings);
  }

  /** The errors name the missing required fields in the order name,
      market, agent_type, so there are none exactly when all three are
      present. */
  lemma MissingFieldErrorsInOrder(config: Config)
    ensures MissingFieldErrors(RequiredFields, config) == [] <==> HasRequiredFields(config)
    ensures MissingFieldErrors(RequiredFields, config) ==
      (if "name" in config then [] else [MissingFieldMessage("name")])
      + (if "market" in config then [] else [MissingFieldMessage("market")])
      + (if "agent_type" in config then [] else [MissingFieldMessage("agent_type")])
  {
    var fields := RequiredFields;
    MissingFieldErrorsStep(fields, 0, config);
    MissingFieldErrorsStep(fields, 1, config);
    MissingFieldErrorsStep(fields, 2, config);
    assert fields[0..] == fields && fields[3..] == [];
  }

  /** Validity depends on the configuration alone: the API keys only ever
      add warnings. */
  lemma ValidityIgnoresKeys(config: Config, apiKeys: map<string, string>, otherKeys: map<string, string>)
    requires KeyListWellFormed(config)
    ensures ValidationOf(config, apiKeys).valid == ValidationOf(config, otherKeys).valid
    ensures ValidationOf(config, apiKeys).errors == ValidationOf(config, otherKeys).errors
  {
  }

  lemma MessagePrefixInjective(prefix: string, a: string, b: string)
    ensures prefix + a == prefix + b <==> a == b
  {
    if prefix + a == prefix + b {
      assert a == (prefix + a)[|prefix|..];
      assert b == (prefix + b)[|prefix|..];
    }
  }

  /** A warning names a key exactly when the key is listed and needs one. */
  lemma {:induction false} KeyWarningsIff(names: seq<string>, apiKeys: map<string, string>, name: string)
    ensures MissingKeyMessage(name) in KeyWarnings(names, apiKeys) <==>
      name in names && NeedsWarning(name, apiKeys)
    ensures |KeyWarnings(names, apiKeys)| <= |names|
  {
    if names != [] {
      KeyWarningsIff(names[1..], apiKeys, name);
      MessagePrefixInjective("API密钥未配置: ", name, names[0]);
      assert names == [names[0]] + names[1..];
    }
  }

  /** Without an api_key_required list there are no warnings, and warnings
      never affect validity. */
  lemma NoKeyListNoWarnings(config: Config, apiKeys: map<string, string>, otherKeys: map<string, string>)
    requires KeyListWellFormed(config) && KeyListField !in config
    ensures ValidationOf(config, apiKeys).warnings == []
    ensures ValidationOf(config, apiKeys).valid == ValidationOf(config, otherKeys).valid
  {
  }

  /** With the default settings every listed key draws a warning. */
  lemma {:induction false} DefaultKeysAllWarn(names: seq<string>)
    ensures |KeyWarnings(names, DefaultApiKeys)| == |names|
  {
    if names != [] {
      DefaultKeysAllWarn(names[1..]);
      if names[0] in DefaultApiKeys {
        assert StartsWith(DefaultApiKeys[names[0]], PlaceholderPrefix);
      }
    }
  }

  /** Python's repr of a list of strings that hold no quote, backslash or
      control character, as the validation errors are. */
  function ListRepr(items: seq<string>): string
  {
    "[" + JoinQuoted(items) + "]"
  }

  function JoinQuoted(items: seq<string>): string
  {
    if items == [] then ""
    else if |items| == 1 then "'" + items[0] + "'"
    else "'" + items[0] + "', " + JoinQuoted(items[1..])
  }

  /** The ValueError an operation raises, or the value it returns. */
  datatype Result<T> = Returned(value: T) | Raised(message: string)

  function MissingFileMessage(market: string): string
  {
    "市场 " + market + " 的配置文件不存在"
  }

  function UnsupportedMarketMessage(market: string): string
  {
    "不支持的市场: " + market
  }

  function MissingInputMessage(inputFile: string): string
  {
    "导入文件不存在: " + inputFile
  }

  function InvalidConfigMessage(errors: seq<string>): string
  {
    "配置验证失败: " + ListRepr(errors)
  }

  /** The error import_config raises for these inputs, checked in its order:
      a market without a template, a missing input file, a configuration that
      fails validation. */
  function ImportError(market: string, inputFile: string, input: Option<Config>,
                       apiKeys: map<string, string>): (r: Option<string>)
    requires input.Some? ==> KeyListWellFormed(input.value)
    ensures r.None? <==> market in Templates && input.Some? && ValidationOf(input.value, apiKeys).valid
    ensures market !in Templates ==> r == Some(UnsupportedMarketMessage(market))
    ensures market in Templates && input.None? ==> r == Some(MissingInputMessage(inputFile))
    ensures market in Templates && input.Some? && !ValidationOf(input.value, apiKeys).valid ==>
              r == Some(InvalidConfigMessage(ValidationOf(input.value, apiKeys).errors))
  {
    if market !in Templates then Some(UnsupportedMarketMessage(market))
    else if input.None? then Some(MissingInputMessage(inputFile))
    else
      var v := ValidationOf(input.value, apiKeys);
      if !v.valid then Some(InvalidConfigMessage(v.errors)) else None
  }

  /** The contents of active_config.json. */
  datatype ActiveConfig = ActiveConfig(activeMarket: string, config: Config, timestamp: string)

  /** The configuration manager over its directory: the per-market
      configuration files that exist, the api_keys of the common settings and
      the active configuration file. */
  class Manager {
    /** The per-market configuration files that exist, by market. */
    var files: map<string, Config>
    /** api_keys of the common settings (DefaultApiKeys when no settings file
        exists). */
    var apiKeys: map<string, string>
    /** active_config.json, when it exists. */
    var active: Option<ActiveConfig>

    /** Only markets with a template have a configuration file. */
    predicate Valid()
      reads this
    {
      files.Keys <= Templates
    }

    constructor(files0: map<string, Config>, apiKeys0: map<string, string>)
      requires files0.Keys <= Templates
      ensures Valid()
      ensures files == files0 && apiKeys == apiKeys0 && active == None
    {
      files := files0;
      apiKeys := apiKeys0;
      active := None;
    }

    /** get_available_configs */
    function AvailableConfigs(): (r: map<string, Config>)
      reads this
      requires Valid()
      ensures r.Keys <= Templates
    {
      files
    }

    /** set_active_config: records the market, its configuration and the
        time of the switch. */
    method SetActiveConfig(market: string, config: Config, timestamp: string)
      returns (r: ActiveConfig)
      modifies this
      ensures r == ActiveConfig(market, config, timestamp)
      ensures active == Some(r)
      ensures files == old(files) && apiKeys == old(apiKeys)
    {
      r := ActiveConfig(market, config, timestamp);
      active := Some(r);
    }

    /** update_config: merges the updates into an existing market file. */
    method UpdateConfig(market: string, updates: Config) returns (r: Result<Config>)
      requires Valid()
      modifies this
      ensures Valid()
      ensures market !in Templates ==> r == Raised(MissingFileMessage(market))
      ensures market !in files ==>
        r == Raised(MissingFileMessage(market)) && files == old(files)
      ensures market in old(files) ==>
        r == Returned(Merged(old(files)[market], updates))
        && files == old(files)[market := r.value]
      ensures apiKeys == old(apiKeys) && active == old(active)
    {
      if market !in Templates || market !in files {
        return Raised(MissingFileMessage(market));
      }
      var config := DeepUpdate(files[market], updates);
      files := files[market := config];
      r := Returned(config);
    }

    /** import_config: validates the input file's configuration and writes it
        as the market's file; input is None when the input file is missing. */
    method ImportConfig(market: string, inputFile: string, input: Option<Config>)
      returns (r: Result<Config>)
      requires Valid()
      requires input.Some? ==> KeyListWellFormed(input.value)
      modifies this
      ensures Valid()
      ensures ImportError(market, inputFile, input, old(apiKeys)).Some? ==>
        r == Raised(ImportError(market, inputFile, input, old(apiKeys)).value)
        && files == old(files)
      ensures ImportError(market, inputFile, input, old(apiKeys)).None? ==>
        r == Returned(input.value) && files == old(files)[market := input.value]
      ensures apiKeys == old(apiKeys) && active == old(active)
    {
      if market !in Templates {
        return Raised(UnsupportedMarketMessage(market));
      }
      if input.None? {
        return Raised(MissingInputMessage(inputFile));
      }
      var config := input.value;
      var validation := ValidateConfig(market, config, apiKeys);
      if !validation.valid {
        return Raised(InvalidConfigMessage(validation.errors));
      }
      files := files[market := config];
      r := Returned(config);
    }
  }

  /** An import for a market without a template is refused with the
      unsupported-market message whatever the input, before the input file or
      its validation is consulted. */
  lemma ImportRefusesUnknownMarket(market: string, inputFile: string, input: Option<Config>,
                                   apiKeys: map<string, string>)
    requires market !in Templates
    requires input.Some? ==> KeyListWellFormed(input.value)
    ensures ImportError(market, inputFile, input, apiKeys) == Some(UnsupportedMarketMessage(market))
  {
  }

  /** An import of a configuration that lacks only agent_type is refused
      with exactly that one error. */
  lemma ImportRejectsExample(apiKeys: map<string, string>)
    ensures var config := map["name" := JStr("x"), "market" := JStr("crypto")];
      ImportError("crypto", "in.json", Some(config), apiKeys)
        == Some(InvalidConfigMessage([MissingFieldMessage("agent_type")]))
  {
    var config := map["name" := JStr("x"), "market" := JStr("crypto")];
    MissingFieldErrorsInOrder(config);
  }
}
