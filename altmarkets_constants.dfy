/** The exchange's constant data: the quote assets of the trading-pair
    splitter, the order-state groups, the websocket stream suffixes and the
    timeouts. Durations are in seconds. */
module AltmarketsConstants {

  /** The alternatives of `^(\w+)(btc|ltc|altm|doge|eth|bnb|usdt|usdc|usds|tusd|cro|roger)$`,
      in the order the pattern lists them. */
  const Quotes: seq<string> :=
    ["btc", "ltc", "altm", "doge", "eth", "bnb", "usdt", "usdc", "usds", "tusd", "cro", "roger"]

  /** The stream suffixes the public listeners look for, and the private topics. */
  const OrdersSnapshot := ".ob-snap"
  const OrdersUpdate := ".ob-inc"
  const TradesUpdate := ".trades"
  const UserBalances := "balance"
  const UserOrders := "order"
  const UserTrades := "trade"

  const OrderStates: map<string, set<string>> := map[
    "DONE" := {"done", "cancel", "partial-canceled"},
    "FAIL" := {"cancel", "reject"},
    "OPEN" := {"submitted", "wait", "pending"},
    "CANCEL" := {"partial-canceled", "cancel"},
    "CANCEL_WAIT" := {"wait", "cancel", "done", "reject"}
  ]

  const MessageTimeout: real := 30.0
  const PingTimeout: real := 10.0
  const ApiCallTimeout: real := 10.0
  const ApiMaxRetries: nat := 4

  predicate IsSuffix(a: string, b: string)
  {
    |a| <= |b| && b[|b| - |a|..] == a
  }

  /** No listed quote ends another listed quote, so a symbol ending in a
      listed quote ends in exactly one of them. */
  lemma QuotesSuffixFree()
    ensures forall a, b :: a in Quotes && b in Quotes && a != b ==> !IsSuffix(a, b)
  {
  }

  /** An open order is never done. */
  lemma OpenAndDoneDisjoint()
    ensures OrderStates["OPEN"] !! OrderStates["DONE"]
  {
  }

  /** Cancelled states are done states, and `cancel` is also a failure. */
  lemma CancelStatesAreDone()
    ensures OrderStates["CANCEL"] <= OrderStates["DONE"]
    ensures "cancel" in OrderStates["FAIL"]
  {
  }
}
