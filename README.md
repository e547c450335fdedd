# AI-Trader core in Dafny

This project models three parts of AI-Trader and proves properties of each.

- **The Binance crypto agent's order rules.** It checks symbols against the table of ten traded pairs. It looks up the per-pair quantity and price precision, the minimum order quantity and the price tick. It validates an order quantity. It sizes a position from a risk percentage of the available cash. It formats quantities and prices by Python `Decimal.quantize` with `ROUND_DOWN`. Finally it turns one trading action into a response record, with a risk record for buys and sells.
- **The configuration manager.** It validates a market configuration: required fields give errors and placeholder API keys give warnings. It deep-merges updates into a market file. It guards `update_config` and `import_config`.
- **The market switcher.** It reports whether a market's API keys are configured. It validates a market's configuration and switches the active market.

Modules, one file each:

- `Decimals`: the exact model of `Decimal(str(v)).quantize(Decimal('0.' + '0' * d), rounding=ROUND_DOWN)` in Python's default decimal context.
  - Values are exact reals and the result is truncated toward zero.
  - The context keeps 28 significant digits, so a coefficient of 10^28 or more raises `InvalidOperation`.
- `SymbolRules`: the symbol tables and lookups of `BaseAgentCrypto`, with `str.upper`/`str.lower`.
- `CryptoAgent`: `validate_order_quantity`, `calculate_position_size`, `format_crypto_position`, `format_crypto_price` and `process_crypto_action`. These are pure functions, as in the source.
- `JsonValues`: JSON values and configuration objects.
- `ConfigManager`: `validate_config`, `_deep_update` and the `ConfigManager` class.
  - `validate_config` is a method whose loops are proved against the specification function `ValidationOf`.
  - `_deep_update` is a loop with recursion, proved against the merge function `Merged`.
  - The `ConfigManager` class keeps the configuration files, the API keys and the active configuration as fields.
- `ConfigSwitcher`: the `ConfigSwitcher` class.
  - `check_api_keys` is a loop.
  - `validate_market_config` is a function.
  - `switch_to_market` exists as written and corrected (see Findings), together with `_update_local_quickstart`.
- `Options`: an option type.

Inputs the source reads from outside become parameters or fields:

- The clock readings (the trade-id stamp, the ISO timestamps and the time of a switch) are parameters.
- The testnet flag and the `reason` keyword are parameters.
- The `api_keys` of the common settings is a map field.
- The existing configuration files are a map field.
- The quick-start file is an optional field.

## Model

| member | source | states |
|---|---|---|
| Decimals.Quantize | agent/base_agent_crypto/base_agent_crypto.py:128-131 | the only failure is InvalidOperation, and a result always has at most the scale's fractional digits |
| Decimals.QuantizeDefinedIff | agent/base_agent_crypto/base_agent_crypto.py:128-131 | quantize succeeds exactly when the scaled magnitude stays below 10^28, otherwise it raises InvalidOperation |
| Decimals.QuantizeBounds | agent/base_agent_crypto/base_agent_crypto.py:128-131 | ROUND_DOWN never moves away from zero and loses less than one step 10^-d, for positive and negative values |
| Decimals.QuantizeCanonical | agent/base_agent_crypto/base_agent_crypto.py:140-143 | a quantized value has at most d fractional digits (an integer for d = 0) |
| Decimals.QuantizeFixesCanonical | agent/base_agent_crypto/base_agent_crypto.py:140-143 | a value that already has at most d fractional digits and fits the context is returned unchanged |
| Decimals.QuantizeIdempotent | agent/base_agent_crypto/base_agent_crypto.py:128-131 | quantizing twice gives the result of quantizing once |
| Decimals.CanonicalPositiveAtLeastUnit | agent/base_agent_crypto/base_agent_crypto.py:128-131 | a positive value with at most d fractional digits is at least 10^-d |
| SymbolRules.IsSupported | agent/base_agent_crypto/base_agent_crypto.py:71-75 | validate_crypto_symbol as a test on the upper-cased symbol; its agreement with the list of pairs is SupportedIffListed |
| SymbolRules.GetPrecision | agent/base_agent_crypto/base_agent_crypto.py:77-84 | the table entry of a supported symbol, and the default (6, 2) for any other symbol instead of a failure |
| SymbolRules.GetMinQuantity | agent/base_agent_crypto/base_agent_crypto.py:161-177 | a positive minimum for every symbol, the default 0.000001 for an unsupported one |
| SymbolRules.GetPriceTickSize | agent/base_agent_crypto/base_agent_crypto.py:179-195 | a positive tick for every symbol, the default 0.01 for an unsupported one |
| SymbolRules.MinQuantityText | agent/base_agent_crypto/base_agent_crypto.py:98-113 | the printed minimum, 1e-06 for an unsupported symbol |
| SymbolRules.SupportedIffListed | agent/base_agent_crypto/base_agent_crypto.py:71-75 | a symbol is supported exactly when its upper-case form is one of the ten listed pairs |
| SymbolRules.CaseInsensitive | agent/base_agent_crypto/base_agent_crypto.py:77-84 | support, precision, minimum quantity, tick size and market info are the same for a symbol and its upper-case form |
| SymbolRules.UpperIdempotent | agent/base_agent_crypto/base_agent_crypto.py:71-75 | upper-casing twice equals upper-casing once |
| SymbolRules.PairsUpper | agent/base_agent_crypto/base_agent_crypto.py:29-32 | every listed pair is already upper case and is supported as written |
| SymbolRules.TablesCoverPairs | agent/base_agent_crypto/base_agent_crypto.py:35-46 | the precision, minimum-quantity and tick tables are keyed by exactly the listed pairs |
| SymbolRules.TablesAgree | agent/base_agent_crypto/base_agent_crypto.py:161-195 | for every symbol, defaults included, the minimum quantity is one step at the quantity precision and the tick is one step at the price precision |
| SymbolRules.UnsupportedDefaults | agent/base_agent_crypto/base_agent_crypto.py:161-195 | an unsupported symbol falls back to precision (6, 2), minimum 0.000001 (printed 1e-06), tick 0.01 and empty market info |
| SymbolRules.MinQuantityTextAgrees | agent/base_agent_crypto/base_agent_crypto.py:98-113 | the printed minimum is 1e-06 exactly when the minimum is 0.000001 |
| SymbolRules.ExactKeyIffUpper | agent/base_agent_crypto/base_agent_crypto.py:59-69 | for a supported symbol, the case-sensitive precision lookup hits exactly when the symbol is given in upper case |
| SymbolRules.GetMarketInfo | agent/base_agent_crypto/base_agent_crypto.py:145-159 | market info exists exactly for a supported symbol; it carries the upper-cased listed pair, is active, and holds the pair's own precision, minimum and tick, the minimum and tick being one step at those precisions |
| CryptoAgent.ValidateOrderQuantity | agent/base_agent_crypto/base_agent_crypto.py:86-115 | an order passes exactly when the pair is supported and the quantity reaches its minimum; a verdict passes exactly when its message is empty |
| CryptoAgent.RejectionOrder | agent/base_agent_crypto/base_agent_crypto.py:90-113 | rejections come in the order unsupported pair, non-positive quantity, below minimum, each with its own message |
| CryptoAgent.AdaRules | agent/base_agent_crypto/base_agent_crypto.py:98-111 | ADAUSDT is supported with minimum 1.0, printed as 1.0 |
| CryptoAgent.AdaBelowMinimumExample | agent/base_agent_crypto/base_agent_crypto.py:111-113 | ADAUSDT with 0.5 is rejected with the message naming the minimum 1.0 |
| CryptoAgent.AdaMinimumExample | agent/base_agent_crypto/base_agent_crypto.py:86-115 | adausdt with 1.0 passes |
| CryptoAgent.CalculatePositionSize | agent/base_agent_crypto/base_agent_crypto.py:117-133 | a zero price, and only a zero price, raises division by zero; a size is at the symbol's quantity precision |
| CryptoAgent.BtcRules | agent/base_agent_crypto/base_agent_crypto.py:35-37 | BTCUSDT is supported with precision (6, 2) and minimum 0.000001 |
| CryptoAgent.BtcPositionExample | agent/base_agent_crypto/base_agent_crypto.py:117-133 | 2% of 10000 at a price of 50000 gives 0.004 BTCUSDT |
| CryptoAgent.CostBounds | agent/base_agent_crypto/base_agent_crypto.py:123-131 | a truncated quantity costs no more than the untruncated one, and less than one step's cost below it |
| CryptoAgent.QuantizedCostBounds | agent/base_agent_crypto/base_agent_crypto.py:123-131 | at any scale, the truncated size costs between 0 and the budget, and falls short of the budget by less than one step's cost |
| CryptoAgent.PositionWithinRiskAmount | agent/base_agent_crypto/base_agent_crypto.py:123-131 | at a positive price the position never costs more than the risk amount and falls short by less than the cost of one quantity step |
| CryptoAgent.PositionSizeStable | agent/base_agent_crypto/base_agent_crypto.py:127-131 | a computed size is already canonical: quantizing it again leaves it unchanged |
| CryptoAgent.PositivePositionPassesValidation | agent/base_agent_crypto/base_agent_crypto.py:117-133 | a positive computed size passes validate_order_quantity exactly when the symbol is supported |
| CryptoAgent.FormatCryptoPosition | agent/base_agent_crypto/base_agent_crypto.py:59-69 | when the symbol as given is a table key, the amount is the quantity quantized at that key's quantity precision; otherwise it is the quantity as given; failure is InvalidOperation only |
| CryptoAgent.FormatCryptoPrice | agent/base_agent_crypto/base_agent_crypto.py:135-143 | the formatted price is at the symbol's price precision; failure is InvalidOperation only |
| CryptoAgent.FormattedPriceWithinTick | agent/base_agent_crypto/base_agent_crypto.py:135-143 | the formatted price is the price truncated toward zero by less than one tick, and formatting it again changes nothing |
| CryptoAgent.FormatPositionDefinedIff | agent/base_agent_crypto/base_agent_crypto.py:59-69 | position formatting fails exactly for a table symbol whose quantity overflows the decimal context |
| CryptoAgent.FormatPriceDefinedIff | agent/base_agent_crypto/base_agent_crypto.py:135-143 | price formatting fails exactly when the price overflows the decimal context |
| CryptoAgent.TradeId | agent/base_agent_crypto/base_agent_crypto.py:270 | the trade id is "crypto_", the stamp, "_" and the lower-cased symbol, in that order |
| CryptoAgent.MakeRiskInfo | agent/base_agent_crypto/base_agent_crypto.py:287-292 | for a positive formatted price, stop loss < price < take profit; for a zero price both are zero |
| CryptoAgent.ProcessCryptoAction | agent/base_agent_crypto/base_agent_crypto.py:239-306 | echoes the action; upper-cases the symbol only on success; success implies validation passed, the raw quantity is kept, the formatted quantity is format_crypto_position's result, the price is canonical, the timestamp, testnet flag and reason are the given ones, and a risk record is present exactly for a buy or sell; the except branch carries the InvalidOperation text and echoes the raw quantity and price |
| CryptoAgent.ExecutedIff | agent/base_agent_crypto/base_agent_crypto.py:244-284 | an action executes exactly when the pair is supported, the quantity reaches its minimum, and neither the quantity (when its precision applies) nor the price overflows the decimal context |
| CryptoAgent.RejectionShape | agent/base_agent_crypto/base_agent_crypto.py:246-263 | a rejection happens exactly when validation fails; the unsupported-pair rejection names the symbol as given and carries no quantity, the other rejections carry the validation message and the quantity |
| CryptoAgent.FormattedQuantityTruncatedIffUpper | agent/base_agent_crypto/base_agent_crypto.py:266-284 | the reported quantity is the raw one; the formatted quantity is the quantity quantized at the symbol's quantity precision exactly when the symbol was given in upper case, and the raw quantity otherwise |
| CryptoAgent.RiskInfoOfExecuted | agent/base_agent_crypto/base_agent_crypto.py:286-292 | an executed buy or sell carries the risk record of its raw quantity at the formatted price, any other action none |
| CryptoAgent.BtcPriceExample | agent/base_agent_crypto/base_agent_crypto.py:135-143 | 50000 is kept as a BTCUSDT price |
| CryptoAgent.BtcOrderAccepted | agent/base_agent_crypto/base_agent_crypto.py:86-115 | 0.01 BTCUSDT passes validation and formatting |
| CryptoAgent.RiskInfoExample | agent/base_agent_crypto/base_agent_crypto.py:287-292 | 0.01 at 50000 gives stop loss 47500, take profit 55000 and a position of 500 USDT |
| ConfigManager.Merged | configs/config_manager.py:397-403 | the merged object's keys are the union of both key sets |
| ConfigManager.DeepUpdate | configs/config_manager.py:397-403 | the key-by-key, recursive update loop produces exactly the merge |
| ConfigManager.MergeSelf | configs/config_manager.py:397-403 | merging an object into itself changes nothing |
| ConfigManager.MergeIdempotent | configs/config_manager.py:397-403 | applying the same update twice equals applying it once |
| ConfigManager.UpdateValuesLand | configs/config_manager.py:399-403 | every non-object value of the update is found at its path after the merge |
| ConfigManager.UntouchedValuesKept | configs/config_manager.py:399-403 | a base value at any depth survives when the update does not reach its path |
| ConfigManager.RequiredKeyNames | configs/config_manager.py:302-307 | the names listed under api_key_required in order, none when the field is absent |
| ConfigManager.CollectMissingFields | configs/config_manager.py:296-300 | the field loop yields one error per missing field, in field order |
| ConfigManager.CollectKeyWarnings | configs/config_manager.py:307-309 | the key loop yields one warning per listed key that is missing or a placeholder, in list order |
| ConfigManager.NeedsWarning | configs/config_manager.py:308 | a listed key needs a warning when it is absent from the API keys or its value starts with YOUR_ |
| ConfigManager.ValidationOf | configs/config_manager.py:291-315 | valid exactly when there are no errors, exactly when name, market and agent_type are all present; at most one warning per listed key |
| ConfigManager.HasRequiredFields | configs/config_manager.py:296-300 | the three required fields name, market and agent_type are present |
| ConfigManager.ValidateConfig | configs/config_manager.py:291-315 | the validation result is the specification ValidationOf |
| ConfigManager.MissingFieldErrorsInOrder | configs/config_manager.py:296-300 | the errors name the missing required fields in the order name, market, agent_type, and are empty exactly when all three are present |
| ConfigManager.ValidityIgnoresKeys | configs/config_manager.py:302-315 | for every configuration, validity and errors are the same whatever the API keys |
| ConfigManager.KeyWarningsIff | configs/config_manager.py:303-309 | a key is warned about exactly when it is listed and is missing or a placeholder; there are at most as many warnings as listed keys |
| ConfigManager.NoKeyListNoWarnings | configs/config_manager.py:302-315 | without api_key_required there are no warnings |
| ConfigManager.DefaultKeysAllWarn | configs/config_manager.py:328-336 | with the default settings every listed key draws a warning |
| ConfigManager.ImportError | configs/config_manager.py:373-389 | an import is refused exactly when the market has no template, the input file is missing, or the configuration is invalid, checked in that order, with the unsupported-market message, the missing-file message naming the input file, or the validation-failed message listing the errors |
| ConfigManager.Manager.AvailableConfigs | configs/config_manager.py:234-247 | only markets with a template have a configuration |
| ConfigManager.Manager.SetActiveConfig | configs/config_manager.py:259-270 | the active configuration records the market, its configuration and the time, and nothing else changes |
| ConfigManager.Manager.UpdateConfig | configs/config_manager.py:272-289 | a market without a file (any market outside us, cn, crypto included) raises and changes nothing; otherwise the file becomes the merge of the updates |
| ConfigManager.Manager.ImportConfig | configs/config_manager.py:373-395 | a refused import raises its message and writes nothing; an accepted one writes the configuration as the market's file |
| ConfigManager.ImportRefusesUnknownMarket | configs/config_manager.py:375-377 | an import for a market without a template is refused with the unsupported-market message, whatever the input (Manager.ImportConfig then writes nothing) |
| ConfigManager.ImportRejectsExample | configs/config_manager.py:386-389 | a configuration lacking only agent_type is refused with exactly that one error |
| ConfigSwitcher.RequiredKeys | scripts/config_switcher.py:196-202 | keys are required exactly for us, cn and crypto, and openai always comes last |
| ConfigSwitcher.IsConfigured | scripts/config_switcher.py:209 | a value counts as configured when it is non-empty and does not start with YOUR_ |
| ConfigSwitcher.StatusOf | scripts/config_switcher.py:207-213 | a key's configured flag is True exactly when it is configured, the empty string exactly when its value is empty or missing, and False for a placeholder; the recorded value is the key's value when configured and 未配置 otherwise |
| ConfigSwitcher.Switcher.CheckApiKeys | scripts/config_switcher.py:184-225 | a market without a file gives only the error; otherwise the report lists the market's required keys with their status, and all_configured holds exactly when every required key is configured |
| ConfigSwitcher.RequiredKeysCovered | scripts/config_switcher.py:196-202 | keys are required exactly for us, cn and crypto; each of them requires openai; every required key has a default entry |
| ConfigSwitcher.DefaultKeysNotConfigured | scripts/config_switcher.py:207-213 | under the default settings no required key is configured |
| ConfigSwitcher.KeyChecksDisagreeOnlyOnEmpty | scripts/config_switcher.py:208-209 | a configured key never draws a validation warning; a key draws no warning and is still not configured exactly when its value is empty |
| ConfigSwitcher.Switcher.ValidateMarketConfig | scripts/config_switcher.py:52-71 | a market without a file gives one error and no warnings; otherwise the configuration's validation, valid exactly when the required fields are present |
| ConfigSwitcher.Switcher.UpdateLocalQuickstart | scripts/config_switcher.py:117-135 | an existing quick-start file gets mode and last_switch_time; a missing one stays missing |
| ConfigSwitcher.QuickstartAfter | scripts/config_switcher.py:117-135 | an existing quick-start file gains mode and last_switch_time with the new values and keeps every other entry; a missing one stays missing |
| ConfigSwitcher.Switcher.SwitchToMarketAsWritten | scripts/config_switcher.py:73-115 | the code as written: returns and activates as SwitchAsWritten says, and leaves files and keys unchanged |
| ConfigSwitcher.Switcher.SwitchToMarket | scripts/config_switcher.py:73-115 | the corrected switch: returns and activates as SwitchIntended says, and leaves files and keys unchanged |
| ConfigSwitcher.SwitchAsWritten | scripts/config_switcher.py:73-115 | the written switch reports success only when it activates, never reports success without validation, and activates only a market with a file |
| ConfigSwitcher.SwitchIntended | scripts/config_switcher.py:73-111 | the corrected switch reports success exactly when it activates the market |
| ConfigSwitcher.SwitchIntendedIff | scripts/config_switcher.py:76-98 | the corrected switch activates exactly when the market has a file and, when validating, the file has every required field |
| ConfigSwitcher.SwitchAsWrittenDiffers | scripts/config_switcher.py:84-115 | the written switch activates the same markets as the corrected one, agrees with it when validating, and without validation never reports success |
| ConfigSwitcher.SwitchWithoutValidationExample | scripts/config_switcher.py:84-115 | with validation off, the written switch activates crypto yet reports failure, while the corrected one reports success |

## Left out

- Float representation: every value is an exact real. The float → `str` → `Decimal` round trip is not modelled, and neither is the float result of `float(...)`. The printed minimum quantities are Python's float text, given as a table.
- `CryptoAgent.FormatCryptoPosition`: returns the symbol, the amount and the number of fractional digits shown, not the rendered `"SYMBOL: amount"` text.
- `CryptoAgent.ProcessCryptoAction`: the only exceptions modelled are the `InvalidOperation` raised by `quantize`. Logging is not modelled.
- `CryptoAgent.CalculatePositionSize`: division by zero is the returned fault, as nothing catches it in the source. A failing `quantize` returns InvalidOperation.
- `SymbolRules.Upper`: maps ASCII letters plus the two non-ASCII characters whose upper-case form is an ASCII letter (U+0131 to I, U+017F to S). Other non-ASCII characters are left unchanged, including those whose Python upper-case form is several ASCII letters: ß (SS), the ligatures ﬀ, ﬁ, ﬂ, ﬃ, ﬄ (FF, FI, FL, FFI, FFL) and ﬅ, ﬆ (ST). Support and the lookups are unaffected, since none of those letter strings occurs in any listed pair, so such a symbol is unsupported under either mapping. The unsupported-pair message of validate_order_quantity prints the upper-cased symbol (base_agent_crypto.py:90-93), and there the text differs from Python's: for "éthusdt" Python prints ÉTHUSDT and the model éTHUSDT; for "ßtc" Python prints SSTC and the model ßTC.
- `SymbolRules.IsSupported`: tests membership in the precision table's keys, which are exactly the listed pairs (`SymbolRules.TablesCoverPairs`, `SymbolRules.SupportedIffListed`).
- `ConfigManager.ValidateConfig`: requires `api_key_required`, when present, to be a list of strings. Python would iterate over any other iterable, or fail. The same requirement sits on the members that validate: `ConfigManager.ValidationOf`, `ConfigManager.ImportError`, `ConfigManager.Manager.ImportConfig`, `ConfigSwitcher.Switcher.ValidateMarketConfig`, and the switch members (`ConfigSwitcher.SwitchAsWritten`, `ConfigSwitcher.SwitchIntended`, `ConfigSwitcher.Switcher.SwitchToMarket`, `ConfigSwitcher.Switcher.SwitchToMarketAsWritten`) when validation is on. So an import of a configuration whose `api_key_required` is a string, which Python accepts (it iterates the characters), is not modelled.
- API-key values are strings. A non-string value in `api_keys` is not modelled.
- `ConfigManager.DeepUpdate`: returns the merged object instead of mutating the caller's dictionary, so aliasing of nested dictionaries is not modelled.
- File persistence is not modelled:
  - reading and writing the JSON files;
  - `create_default_configs`, `create_multi_mode_config` and `export_config`;
  - `update_common_settings` and `get_active_config`.

  The existing files are a map field. A failing file read is not modelled.
- Wall-clock readings are parameters: the `datetime.now()` stamps and `_get_timestamp`.
- Not modelled because they are presentation or printing:
  - `format_agent_response`, `get_crypto_summary`, `get_crypto_trading_status` and `validate_crypto_trading_hours`;
  - `list_available_modes`, `show_config_summary` and `main`;
  - all printing and logging.
- `agent_tools/tool_binance.py` is not part of this model (a network client).
- `configs/config_api.py` is not part of this model (web routes). Its merge helper duplicates `_deep_update`.
- The `BaseAgent` superclass is not part of this model.
- `ConfigSwitcher.Switcher.ValidateMarketConfig`: the handler for an exception raised while validating is not modelled, since the model's validation cannot raise.

## Findings

| source | as written | input that shows it | evidently intended | confidence | as-written member | corrected member |
|---|---|---|---|---|---|---|
| scripts/config_switcher.py:84-115 | `validation` is assigned only when `validate` is true. With `validate=False` the read of `validation` at line 106 raises `UnboundLocalError`. The handler at lines 113-115 turns that into `False`, after the market has already been made active and the quick-start file rewritten. | `switch_to_market("crypto", validate=False)` with an existing crypto configuration | the switch without validation succeeds and returns `True` | not executed | ConfigSwitcher.SwitchWithoutValidationExample | ConfigSwitcher.SwitchIntendedIff |
