/** The pure parts of random_loop_trade_config_map.py: `str2bool`, the
    order-type validator, the `required_if` rule of the limit-order keys and
    the trading-pair prompt. `ConfigVar`, the exchange and decimal
    validators and `EXAMPLE_PAIRS` belong to other modules; the example
    pairs are a parameter. */
module RandomLoopTradeConfig {
  import opened Wrappers
  import opened Text
  import opened Json

  /** The spellings `str2bool` accepts, lower case. */
  const TrueWords: seq<string> := ["yes", "true", "t", "1"]

  /** `str(value).lower() in ("yes", "true", "t", "1")` */
  function Str2Bool(value: Json): bool
  {
    Lower(PyStr(value)) in TrueWords
  }

  /** `str2bool` holds exactly for the accepted words in any mix of case. */
  lemma Str2BoolAccepts(s: string)
    ensures Str2Bool(Str(s)) <==> exists w :: w in TrueWords && |w| == |s| && forall i :: 0 <= i < |s| ==> LowerChar(s[i]) == w[i]
  {
    if Str2Bool(Str(s)) {
      var w := Lower(s);
      assert w in TrueWords && |w| == |s| && forall i :: 0 <= i < |s| ==> LowerChar(s[i]) == w[i];
    }
    if exists w :: w in TrueWords && |w| == |s| && forall i :: 0 <= i < |s| ==> LowerChar(s[i]) == w[i] {
      var w :| w in TrueWords && |w| == |s| && forall i :: 0 <= i < |s| ==> LowerChar(s[i]) == w[i];
      assert Lower(s) == w;
    }
  }

  lemma LowerOfUpperChar(c: char)
    ensures LowerChar(UpperChar(c)) == LowerChar(c)
  {
  }

  /** `str2bool` ignores case: upper-casing its input changes nothing. */
  lemma Str2BoolIgnoresCase(s: string)
    ensures Str2Bool(Str(Upper(s))) == Str2Bool(Str(s))
  {
    forall i | 0 <= i < |s| ensures Lower(Upper(s))[i] == Lower(s)[i] {
      LowerOfUpperChar(s[i]);
    }
    assert Lower(Upper(s)) == Lower(s);
  }

  /** Python's own `True`, `1` and their opposites read as expected. */
  lemma Str2BoolOfValues()
    ensures Str2Bool(Bool(true)) && !Str2Bool(Bool(false))
    ensures Str2Bool(Int(1)) && !Str2Bool(Int(0))
  {
    assert Lower("True") == "true";
    assert Lower("False") == "false" && "false" !in TrueWords;
    assert IntToDecimal(1) == [DigitChar(1)] == "1";
    assert IntToDecimal(0) == [DigitChar(0)] == "0";
    assert Lower("1") == "1" && Lower("0") == "0" && "0" !in TrueWords;
  }

  const InvalidOrderType := "Invalid order type."

  /** The `order_type` validator: `None` for `limit`, `market` or the empty answer. */
  function ValidateOrderType(v: string): (r: Option<string>)
    ensures r.None? <==> v == "limit" || v == "market" || v == ""
    ensures r.Some? ==> r.value == InvalidOrderType
  {
    if v in {"limit", "market", ""} then None else Some(InvalidOrderType)
  }

  const OrderTypeDefault := "limit"

  /** The keys whose `required_if` is `order_type == "limit"`. */
  const LimitOrderKeys: set<string> := {"order_price", "order_price_min", "order_price_max", "cancel_order_wait_time"}

  /** The `required_if` of `key` given the current `order_type` value
      (`None` while unset); `None` for a key without its own `required_if`,
      whose rule is `ConfigVar`'s default, not part of this model. */
  function RequiredIf(key: string, orderType: Option<string>): (r: Option<bool>)
    ensures r.Some? <==> key in LimitOrderKeys
    ensures r.Some? ==> (r.value <==> orderType == Some("limit"))
  {
    if key in LimitOrderKeys then Some(orderType == Some("limit")) else None
  }

  /** The four limit-order keys are asked for together: all of them for a
      limit order (the default), none for any other accepted order type or
      while the order type is unset. */
  lemma LimitKeysTogether(orderType: Option<string>)
    ensures forall k :: k in LimitOrderKeys ==> RequiredIf(k, orderType) == RequiredIf("order_price", orderType)
    ensures forall k :: k in LimitOrderKeys ==> RequiredIf(k, Some(OrderTypeDefault)) == Some(true)
    ensures orderType.Some? && ValidateOrderType(orderType.value).None? && orderType.value != "limit" ==>
              forall k :: k in LimitOrderKeys ==> RequiredIf(k, orderType) == Some(false)
    ensures orderType.None? ==> forall k :: k in LimitOrderKeys ==> RequiredIf(k, orderType) == Some(false)
  {
  }

  const PromptHead := "Enter the token trading pair you would like to trade on "
  const PromptTail := " >>> "

  /** `trading_pair_prompt()` for the current `market` value (`None` while
      unset, which `%s` prints as `None`) and the example pairs; the
      example part is added only for a non-empty example. */
  function TradingPairPrompt(market: Option<string>, examplePairs: map<string, string>): string
  {
    var name := if market.Some? then market.value else "None";
    var example := if market.Some? && market.value in examplePairs then examplePairs[market.value] else "";
    PromptHead + name + (if example != "" then " (e.g. " + example + ")" else "") + PromptTail
  }

  predicate HasExample(market: Option<string>, examplePairs: map<string, string>)
  {
    market.Some? && market.value in examplePairs && examplePairs[market.value] != ""
  }

  /** The prompt names the market right after its fixed head; it is longer
      than the bare prompt exactly when the market has an example, which
      then follows the market name. */
  lemma TradingPairPromptShape(market: Option<string>, examplePairs: map<string, string>)
    ensures var p, name := TradingPairPrompt(market, examplePairs), if market.Some? then market.value else "None";
            PromptHead + name <= p && (|p| > |PromptHead| + |name| + |PromptTail| <==> HasExample(market, examplePairs)) &&
            (HasExample(market, examplePairs) ==>
               p[|PromptHead| + |name|..] == " (e.g. " + examplePairs[market.value] + ")" + PromptTail) &&
            (!HasExample(market, examplePairs) ==> p[|PromptHead| + |name|..] == PromptTail)
  {
    var name := if market.Some? then market.value else "None";
    var p := TradingPairPrompt(market, examplePairs);
    var rest := p[|PromptHead| + |name|..];
    assert p == (PromptHead + name) + rest;
  }
}
