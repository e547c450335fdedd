/** The order pipeline of the Binance crypto agent: quantity validation,
    risk-based position sizing, quantity and price formatting, and the
    processing of one trading action into a response record. */
module CryptoAgent {
  import opened Decimals
  import opened SymbolRules
  import opened Options

  /** The (is_valid, error_msg) pair of validate_order_quantity. */
  datatype Verdict = Verdict(ok: bool, message: string)

  /** The risk settings the pipeline reads. */
  const StopLossPercentage: real := 5.0
  const TakeProfitPercentage: real := 10.0

  /** The risk percentage calculate_position_size uses when none is given. */
  const DefaultRiskPercentage: real := 2.0

  const BuyAction: string := "买入"
  const SellAction: string := "卖出"

  function UnsupportedMessage(symbol: string): string
  {
    "不支持的交易对: " + symbol
  }

  const NonPositiveMessage: string := "订单数量必须大于0"

  function BelowMinimumMessage(symbol: string): string
  {
    Upper(symbol) + " 最小交易量为 " + MinQuantityText(symbol)
  }

  /** validate_order_quantity: the checks run in the order supported pair,
      positive quantity, minimum quantity. An order passes exactly when the
      pair is supported and the quantity reaches the pair's minimum; every
      rejection carries a message and an acceptance carries none. */
  function ValidateOrderQuantity(symbol: string, quantity: real): (v: Verdict)
    ensures v.ok <==> IsSupported(symbol) && quantity >= GetMinQuantity(symbol)
    ensures v.ok <==> v.message == ""
  {
    if !IsSupported(Upper(symbol)) then
      UpperIdempotent(symbol);
      Verdict(false, UnsupportedMessage(Upper(symbol)))
    else if quantity <= 0.0 then
      UpperIdempotent(symbol);
      TablesAgree(symbol);
      Verdict(false, NonPositiveMessage)
    else if quantity < GetMinQuantity(symbol) then
      UpperIdempotent(symbol);
      Verdict(false, BelowMinimumMessage(symbol))
    else
      UpperIdempotent(symbol);
      Verdict(true, "")
  }

  /** The cash put at risk: available_cash * (risk_percentage / 100). */
  function RiskAmount(cash: real, riskPercentage: real): real
  {
    cash * (riskPercentage / 100.0)
  }

  /** calculate_position_size: the risk amount divided by the price, cut down
      to the symbol's quantity precision. A zero price raises
      ZeroDivisionError; a size too large for the decimal context raises
      InvalidOperation. */
  function CalculatePositionSize(symbol: string, cash: real, price: real,
                                 riskPercentage: real): (r: Outcome<real>)
    ensures price == 0.0 <==> r == Err(ZeroDivision)
    ensures r.Ok? ==> IsCanonical(r.value, GetPrecision(symbol).quantity)
  {
    if price == 0.0 then Err(ZeroDivision)
    else
      var d := GetPrecision(symbol).quantity;
      var r := Quantize(RiskAmount(cash, riskPercentage) / price, Scale(d));
      if r.Ok? then QuantizeCanonical(RiskAmount(cash, riskPercentage) / price, d); r
      else r
  }

  /** How format_crypto_position prints a quantity: the exact decimal with
      the given number of fractional digits, or Python's float text when no
      precision applied. */
  datatype PositionText = PositionText(symbol: string, amount: real, fractionDigits: Option<nat>)

  /** format_crypto_position: the precision table is looked up with the
      symbol exactly as given, so only an upper-case symbol is truncated. */
  function FormatCryptoPosition(symbol: string, quantity: real): (r: Outcome<PositionText>)
    ensures r.Ok? ==> r.value.symbol == symbol
    ensures r.Ok? && r.value.fractionDigits.None? ==> r.value.amount == quantity
    ensures r.Ok? && r.value.fractionDigits.Some? ==>
      Quantize(quantity, Scale(r.value.fractionDigits.value)) == Ok(r.value.amount)
    ensures r.Ok? ==> (r.value.fractionDigits.Some? <==> symbol in PrecisionTable)
    ensures r.Ok? && r.value.fractionDigits.Some? ==>
      r.value.fractionDigits.value == PrecisionTable[symbol].quantity
      && IsCanonical(r.value.amount, r.value.fractionDigits.value)
    ensures r.Err? ==> r == Err(InvalidOperation) && symbol in PrecisionTable
  {
    if symbol in PrecisionTable then
      var d := PrecisionTable[symbol].quantity;
      match Quantize(quantity, Scale(d))
      case Ok(q) =>
        QuantizeCanonical(quantity, d);
        Ok(PositionText(symbol, q, Some(d)))
      case Err(f) => Err(f)
    else
      Ok(PositionText(symbol, quantity, None))
  }

  /** format_crypto_price: the price cut down to the symbol's price precision. */
  function FormatCryptoPrice(symbol: string, price: real): (r: Outcome<real>)
    ensures r.Ok? ==> IsCanonical(r.value, GetPrecision(symbol).price)
    ensures r.Err? ==> r == Err(InvalidOperation)
  {
    var d := GetPrecision(symbol).price;
    var r := Quantize(price, Scale(d));
    if r.Ok? then QuantizeCanonical(price, d); r else r
  }

  /** The risk_info record attached to buy and sell responses. */
  datatype RiskInfo = RiskInfo(stopLoss: real, takeProfit: real, positionSizeUsdt: real)

  /** The response dict of process_crypto_action. Rejected is a failed
      validation (the unsupported-pair rejection carries no quantity); Failed
      is the except branch; Executed is the record whose "success" is True. */
  datatype Response =
    | Rejected(error: string, action: string, symbol: string, echoedQuantity: Option<real>)
    | Failed(error: string, action: string, symbol: string, quantity: real, price: real)
    | Executed(
        tradeId: string,
        action: string,
        symbol: string,
        quantity: real,
        price: real,
        formattedQuantity: PositionText,
        timestamp: string,
        testnet: bool,
        reason: string,
        riskInfo: Option<RiskInfo>)

  predicate IsTradeAction(action: string)
  {
    action == BuyAction || action == SellAction
  }

  /** The trade id: the stamp between "crypto_" and the lower-cased symbol. */
  function TradeId(stamp: string, symbol: string): (r: string)
    ensures |r| == 8 + |stamp| + |symbol|
    ensures r[..7] == "crypto_" && r[7..7 + |stamp|] == stamp && r[7 + |stamp|] == '_'
    ensures r[8 + |stamp|..] == Lower(symbol)
  {
    "crypto_" + stamp + "_" + Lower(symbol)
  }

  function MakeRiskInfo(quantity: real, formattedPrice: real): (r: RiskInfo)
    ensures formattedPrice > 0.0 ==> r.stopLoss < formattedPrice < r.takeProfit
    ensures formattedPrice == 0.0 ==> r.stopLoss == 0.0 == r.takeProfit
  {
    RiskInfo(formattedPrice * (1.0 - StopLossPercentage / 100.0),
             formattedPrice * (1.0 + TakeProfitPercentage / 100.0),
             Cost(quantity, formattedPrice))
  }

  /** process_crypto_action. The two clock readings (the compact stamp in the
      trade id and the ISO timestamp), the testnet flag and the optional
      reason are parameters. */
  function ProcessCryptoAction(action: string, symbol: string, quantity: real, price: real,
                               reason: string, stamp: string, isoTime: string,
                               testnet: bool): (r: Response)
    ensures r.action == action && r.symbol == (if r.Executed? then Upper(symbol) else symbol)
    ensures r.Executed? ==> ValidateOrderQuantity(symbol, quantity).ok
    ensures r.Executed? ==> r.quantity == quantity && r.tradeId == TradeId(stamp, symbol)
    ensures r.Executed? ==> IsCanonical(r.price, GetPrecision(symbol).price)
    ensures r.Executed? ==> FormatCryptoPosition(symbol, quantity) == Ok(r.formattedQuantity)
    ensures r.Executed? ==> (r.riskInfo.Some? <==> IsTradeAction(action))
    ensures r.Executed? ==> r.timestamp == isoTime && r.testnet == testnet && r.reason == reason
    ensures r.Failed? ==> r.error == FaultText(InvalidOperation)
    ensures r.Failed? ==> r.quantity == quantity && r.price == price
  {
    if !IsSupported(symbol) then
      Rejected(UnsupportedMessage(symbol), action, symbol, None)
    else
      var verdict := ValidateOrderQuantity(symbol, quantity);
      if !verdict.ok then
        Rejected(verdict.message, action, symbol, Some(quantity))
      else
        match FormatCryptoPosition(symbol, quantity)
        case Err(f) => Failed(FaultText(f), action, symbol, quantity, price)
        case Ok(formattedQuantity) =>
          match FormatCryptoPrice(symbol, price)
          case Err(f) => Failed(FaultText(f), action, symbol, quantity, price)
          case Ok(formattedPrice) =>
            var risk := if IsTradeAction(action) then Some(MakeRiskInfo(quantity, formattedPrice)) else None;
            Executed(TradeId(stamp, symbol), action, Upper(symbol), quantity, formattedPrice,
                     formattedQuantity, isoTime, testnet, reason, risk)
  }

  /** The rejections come in the order unsupported pair, non-positive
      quantity, quantity below the minimum, each with its own message; the
      unsupported-pair message names the upper-cased symbol. */
  lemma RejectionOrder(symbol: string, quantity: real)
    ensures !IsSupported(symbol) ==>
      ValidateOrderQuantity(symbol, quantity) == Verdict(false, UnsupportedMessage(Upper(symbol)))
    ensures IsSupported(symbol) && quantity <= 0.0 ==>
      ValidateOrderQuantity(symbol, quantity) == Verdict(false, NonPositiveMessage)
    ensures IsSupported(symbol) && 0.0 < quantity < GetMinQuantity(symbol) ==>
      ValidateOrderQuantity(symbol, quantity) == Verdict(false, BelowMinimumMessage(symbol))
  {
    UpperIdempotent(symbol);
  }

  /** The rules of ADAUSDT: whole units only, at least one of them. */
  lemma AdaRules()
    ensures Upper("ADAUSDT") == "ADAUSDT" && IsSupported("ADAUSDT")
    ensures GetMinQuantity("ADAUSDT") == 1.0 && MinQuantityText("ADAUSDT") == "1.0"
  {
    PairsUpper("ADAUSDT");
  }

  /** Half a unit of ADAUSDT is below its minimum of one whole unit, which
      the message prints as 1.0. */
  lemma AdaBelowMinimumExample()
    ensures ValidateOrderQuantity("ADAUSDT", 0.5) == Verdict(false, "ADAUSDT" + " 最小交易量为 " + "1.0")
  {
    AdaRules();
    RejectionOrder("ADAUSDT", 0.5);
  }

  /** One whole unit of ADAUSDT passes, whatever the case of the symbol. */
  lemma AdaMinimumExample()
    ensures ValidateOrderQuantity("adausdt", 1.0).ok
  {
    AdaRules();
    assert Upper("adausdt") == "ADAUSDT";
    CaseInsensitive("adausdt");
  }

  /** The rules of BTCUSDT: six fractional digits for quantities, two for
      prices. */
  lemma BtcRules()
    ensures Upper("BTCUSDT") == "BTCUSDT" && IsSupported("BTCUSDT")
    ensures "BTCUSDT" in PrecisionTable && PrecisionTable["BTCUSDT"] == Precision(6, 2)
    ensures GetPrecision("BTCUSDT") == Precision(6, 2) && GetMinQuantity("BTCUSDT") == 0.000001
  {
    PairsUpper("BTCUSDT");
  }

  /** 2% of 10000 USDT at a BTC price of 50000 buys 0.004 BTC. */
  lemma BtcPositionExample()
    ensures CalculatePositionSize("BTCUSDT", 10000.0, 50000.0, DefaultRiskPercentage) == Ok(0.004)
  {
    BtcRules();
    assert RiskAmount(10000.0, DefaultRiskPercentage) / 50000.0 == 0.004;
    assert Pow10(6) == 1000000;
    assert Shifted(0.004, Scale(6)) == 4000.0;
    IntegralOfEqual(Shifted(0.004, Scale(6)), 4000);
    QuantizeFixesCanonical(0.004, 6);
  }

  /** The value in USDT of q units at the given price. */
  function Cost(q: real, price: real): real
  {
    q * price
  }

  lemma CostBounds(q: real, raw: real, step: real, price: real)
    requires price > 0.0 && 0.0 <= q <= raw && raw - q < step
    ensures 0.0 <= Cost(q, price) <= Cost(raw, price)
    ensures Cost(raw, price) - Cost(q, price) < Cost(step, price)
  {
    ScaleFacts(q, raw, price);
    ScaleFacts(0.0, q, price);
    ScaleFacts(raw - q, step, price);
  }

  /** With a positive price and a non-negative risk amount, the position
      bought never costs more than the risk amount, and it falls short by
      less than the cost of one quantity step. */
  lemma PositionWithinRiskAmount(symbol: string, cash: real, price: real, riskPercentage: real)
    requires price > 0.0 && RiskAmount(cash, riskPercentage) >= 0.0
    requires CalculatePositionSize(symbol, cash, price, riskPercentage).Ok?
    ensures var q := CalculatePositionSize(symbol, cash, price, riskPercentage).value;
      var budget := RiskAmount(cash, riskPercentage);
      0.0 <= Cost(q, price) <= budget
      && budget - Cost(q, price) < Cost(Unit(GetPrecision(symbol).quantity), price)
  {
    var d := GetPrecision(symbol).quantity;
    QuantizedCostBounds(RiskAmount(cash, riskPercentage), price, Scale(d));
  }

  /** The cost bounds of PositionWithinRiskAmount at an arbitrary scale p. */
  lemma QuantizedCostBounds(budget: real, price: real, p: real)
    requires price > 0.0 && budget >= 0.0 && p > 0.0
    requires Quantize(budget / price, p).Ok?
    ensures var q := Quantize(budget / price, p).value;
      0.0 <= Cost(q, price) <= budget && budget - Cost(q, price) < Cost(1.0 / p, price)
  {
    var raw := budget / price;
    var q := Quantize(raw, p).value;
    DivThenScale(budget, price);
    assert Cost(raw, price) == budget;
    QuantizeBounds(raw, p);
    CostBounds(q, raw, 1.0 / p, price);
  }

  /** Sizing is stable: the size it returns is already at the symbol's
      quantity precision, so cutting it down again changes nothing. */
  lemma PositionSizeStable(symbol: string, cash: real, price: real, riskPercentage: real)
    requires CalculatePositionSize(symbol, cash, price, riskPercentage).Ok?
    ensures var q := CalculatePositionSize(symbol, cash, price, riskPercentage).value;
      Quantize(q, Scale(GetPrecision(symbol).quantity)) == Ok(q)
  {
    var d := GetPrecision(symbol).quantity;
    var raw := RiskAmount(cash, riskPercentage) / price;
    QuantizeIdempotent(raw, d);
  }

  /** A positive size from calculate_position_size always clears the
      minimum-quantity check, because each minimum is exactly one step at the
      symbol's quantity precision. */
  lemma PositivePositionPassesValidation(symbol: string, cash: real, price: real,
                                         riskPercentage: real)
    requires CalculatePositionSize(symbol, cash, price, riskPercentage).Ok?
    requires CalculatePositionSize(symbol, cash, price, riskPercentage).value > 0.0
    ensures ValidateOrderQuantity(symbol, CalculatePositionSize(symbol, cash, price, riskPercentage).value).ok
            <==> IsSupported(symbol)
  {
    var q := CalculatePositionSize(symbol, cash, price, riskPercentage).value;
    CanonicalPositiveAtLeastUnit(q, GetPrecision(symbol).quantity);
    TablesAgree(symbol);
  }

  /** The formatted price is the price cut toward zero by less than one tick,
      and formatting it again leaves it unchanged. */
  lemma FormattedPriceWithinTick(symbol: string, price: real)
    requires FormatCryptoPrice(symbol, price).Ok?
    ensures var p := FormatCryptoPrice(symbol, price).value;
      (price >= 0.0 ==> 0.0 <= p <= price && price - p < GetPriceTickSize(symbol))
      && (price < 0.0 ==> price <= p <= 0.0 && p - price < GetPriceTickSize(symbol))
      && FormatCryptoPrice(symbol, p) == Ok(p)
  {
    var d := GetPrecision(symbol).price;
    QuantizeBounds(price, Scale(d));
    QuantizeIdempotent(price, d);
    TablesAgree(symbol);
  }

  /** Position formatting fails only for a symbol in the precision table
      whose quantity is too large for the decimal context. */
  lemma FormatPositionDefinedIff(symbol: string, quantity: real)
    ensures FormatCryptoPosition(symbol, quantity).Ok? <==>
      (symbol in PrecisionTable ==>
         Abs(quantity) * Scale(PrecisionTable[symbol].quantity) < CoefficientLimit as real)
  {
    if symbol in PrecisionTable {
      QuantizeDefinedIff(quantity, Scale(PrecisionTable[symbol].quantity));
    }
  }

  /** Price formatting fails only for a price too large for the decimal context. */
  lemma FormatPriceDefinedIff(symbol: string, price: real)
    ensures FormatCryptoPrice(symbol, price).Ok? <==>
      Abs(price) * Scale(GetPrecision(symbol).price) < CoefficientLimit as real
  {
    QuantizeDefinedIff(price, Scale(GetPrecision(symbol).price));
  }

  /** An action is executed exactly when the pair is supported, the quantity
      reaches its minimum, and neither the quantity (when its precision
      applies) nor the price is too large for the 28-digit decimal context. */
  lemma ExecutedIff(action: string, symbol: string, quantity: real, price: real,
                    reason: string, stamp: string, isoTime: string, testnet: bool)
    ensures ProcessCryptoAction(action, symbol, quantity, price, reason, stamp, isoTime, testnet).Executed?
      <==> IsSupported(symbol) && quantity >= GetMinQuantity(symbol)
           && (symbol in PrecisionTable ==>
                 Abs(quantity) * Scale(PrecisionTable[symbol].quantity) < CoefficientLimit as real)
           && Abs(price) * Scale(GetPrecision(symbol).price) < CoefficientLimit as real
  {
    FormatPositionDefinedIff(symbol, quantity);
    FormatPriceDefinedIff(symbol, price);
  }

  /** A rejection echoes the symbol as given; only the failed-validation
      rejection echoes the quantity, and the unsupported-pair rejection names
      the symbol without upper-casing it. */
  lemma RejectionShape(action: string, symbol: string, quantity: real, price: real,
                       reason: string, stamp: string, isoTime: string, testnet: bool)
    ensures var r := ProcessCryptoAction(action, symbol, quantity, price, reason, stamp, isoTime, testnet);
      (r.Rejected? <==> !ValidateOrderQuantity(symbol, quantity).ok)
      && (r.Rejected? ==> (r.echoedQuantity == None <==> !IsSupported(symbol)))
      && (!IsSupported(symbol) ==> r == Rejected(UnsupportedMessage(symbol), action, symbol, None))
      && (r.Rejected? && IsSupported(symbol) ==>
            r.error == ValidateOrderQuantity(symbol, quantity).message && r.echoedQuantity == Some(quantity))
  {
    RejectionOrder(symbol, quantity);
  }

  /** The reported quantity is the raw one, while the formatted quantity is
      the quantity truncated to the symbol's quantity precision exactly when
      the symbol was given in upper case, and the raw quantity otherwise. */
  lemma FormattedQuantityTruncatedIffUpper(action: string, symbol: string, quantity: real,
                                           price: real, reason: string, stamp: string,
                                           isoTime: string, testnet: bool)
    requires ProcessCryptoAction(action, symbol, quantity, price, reason, stamp, isoTime, testnet).Executed?
    ensures var r := ProcessCryptoAction(action, symbol, quantity, price, reason, stamp, isoTime, testnet);
      r.quantity == quantity
      && (r.formattedQuantity.fractionDigits.Some? <==> symbol == Upper(symbol))
      && (r.formattedQuantity.fractionDigits.None? ==> r.formattedQuantity.amount == quantity)
      && (r.formattedQuantity.fractionDigits.Some? ==>
            Quantize(quantity, Scale(GetPrecision(symbol).quantity)) == Ok(r.formattedQuantity.amount))
  {
    ExactKeyIffUpper(symbol);
  }

  /** 50000 USDT is already a BTCUSDT price with two fractional digits. */
  lemma BtcPriceExample()
    ensures FormatCryptoPrice("BTCUSDT", 50000.0) == Ok(50000.0)
  {
    BtcRules();
    assert Pow10(2) == 100;
    assert Shifted(50000.0, Scale(2)) == 5000000.0;
    IntegralOfEqual(Shifted(50000.0, Scale(2)), 5000000);
    QuantizeFixesCanonical(50000.0, 2);
  }

  /** An order of 0.01 BTC passes validation and its formatting. */
  lemma BtcOrderAccepted()
    ensures ValidateOrderQuantity("BTCUSDT", 0.01).ok
    ensures FormatCryptoPosition("BTCUSDT", 0.01).Ok?
  {
    BtcRules();
    assert Pow10(6) == 1000000;
    assert Abs(0.01) * Scale(6) < CoefficientLimit as real;
    FormatPositionDefinedIff("BTCUSDT", 0.01);
  }

  /** An executed buy or sell carries the risk record of its quantity at the
      formatted price, any other executed action none; the price reported is
      the formatted one. */
  lemma RiskInfoOfExecuted(action: string, symbol: string, quantity: real, price: real,
                           reason: string, stamp: string, isoTime: string, testnet: bool)
    requires ProcessCryptoAction(action, symbol, quantity, price, reason, stamp, isoTime, testnet).Executed?
    ensures var r := ProcessCryptoAction(action, symbol, quantity, price, reason, stamp, isoTime, testnet);
      FormatCryptoPrice(symbol, price) == Ok(r.price)
      && r.riskInfo == (if IsTradeAction(action) then Some(MakeRiskInfo(quantity, r.price)) else None)
  {
  }

  /** A buy of 0.01 BTC at 50000 carries a stop loss at 47500, a take profit
      at 55000 and a position value of 500 USDT. */
  lemma RiskInfoExample()
    ensures MakeRiskInfo(0.01, 50000.0) == RiskInfo(47500.0, 55000.0, 500.0)
  {
  }
}
