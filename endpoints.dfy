/** The endpoint paths and stream names the data sources read from
    `Constants` under names the constants class does not define
    (EXCHANGE_ROOT_API, SYMBOLS_URI, TICKER_URI, TICKER_SINGLE_URI,
    DEPTH_URI, EXCHANGE_WS_URI, EXCHANGE_WS_AUTH_URI,
    WS_TRADE_SUBSCRIBE_STREAMS, WS_OB_SUBSCRIBE_STREAMS,
    WS_USER_SUBSCRIBE_STREAMS, WS_PUSHER_SUBSCRIBE_EVENT); the model takes
    them as configuration. */
module Endpoints {
  import opened Text

  /** A `str.format` template whose only field is `{trading_pair}`. */
  datatype TemplatePart = Lit(text: string) | PairSlot

  type Template = seq<TemplatePart>

  /** `template.format(trading_pair=pair)` */
  function Format(template: Template, pair: string): string
  {
    if template == [] then ""
    else (match template[0] case Lit(text) => text case PairSlot => pair) + Format(template[1..], pair)
  }

  /** A template with a `{trading_pair}` field names the pair it is formatted with. */
  lemma {:induction false} FormatNamesPair(template: Template, pair: string)
    requires PairSlot in template
    ensures Contains(Format(template, pair), pair)
  {
    var head := match template[0] case Lit(text) => text case PairSlot => pair;
    var tail := Format(template[1..], pair);
    if template[0] == PairSlot {
      assert (head + tail)[0..|pair|] == pair;
      ContainsAt(head + tail, pair, 0);
    } else {
      assert PairSlot in template[1..];
      FormatNamesPair(template[1..], pair);
      var i := ContainsHasPosition(tail, pair);
      assert (head + tail)[|head| + i..|head| + i + |pair|] == tail[i..i + |pair|];
      ContainsAt(head + tail, pair, |head| + i);
    }
  }

  datatype Config = Config(
    restRoot: string,
    symbolsUri: string,
    tickerUri: string,
    tickerSingleUri: Template,
    depthUri: Template,
    wsUri: string,
    wsAuthUri: string,
    tradeStreams: seq<Template>,
    orderBookStreams: seq<Template>,
    userStreams: seq<string>,
    pusherSubscribeEvent: string)
}
