/**
 * The order-request builder and validator of the trading bot: which
 * requests are refused before anything is sent, and the exact parameter map
 * sent to the exchange's order-placement endpoint for the others.
 *
 * The specification is layered: `Validate` turns a raw request into a typed
 * `Order` or a `Rejection`, `Encode` turns an `Order` into the wire
 * parameters, and `Decode` reads them back (the round trip shows the
 * encoding loses nothing and adds nothing; it is this model's inverse of
 * `Encode`, not the exchange's parser). `OrderParams` composes the first
 * two; the imperative builder in module `Bot` is proved equal to it.
 */
module Orders {
  import opened Wrappers
  import opened Ascii

  /** The bot's `category` field, fixed at construction: USDT perpetual futures. */
  const Category: string := "linear"

  /** The arguments of `_place_order`; a price or trigger price of `None` is absent. */
  datatype Request = Request(
    symbol: string,
    side: string,
    orderType: string,
    qty: real,
    price: Option<real>,
    triggerPrice: Option<real>)

  /**
   * A parameter value on the wire: a fixed text, an integer, or the text
   * `str(x)` of a number, kept opaque (only the number it came from matters).
   */
  datatype Value = Text(s: string) | Integer(n: int) | Stringified(x: real)

  type Params = map<string, Value>

  /** Why a request is refused; each reason is a distinct error log line. */
  datatype Rejection = InvalidSideOrType | MissingPrice | MissingTrigger

  datatype Side = Buy | Sell

  datatype Kind = Market | Limit(price: real) | StopLimit(price: real, trigger: real)

  /** A request that passed validation. */
  datatype Order = Order(symbol: string, side: Side, qty: real, kind: Kind)

  /** `side.upper() in ('BUY', 'SELL')`, given the upper-cased side. */
  predicate IsSideName(side: string) { side == "BUY" || side == "SELL" }

  /** `order_type.upper() in ('MARKET', 'LIMIT', 'STOP_LIMIT')`, given the upper-cased type. */
  predicate IsTypeName(kind: string) { kind == "MARKET" || kind == "LIMIT" || kind == "STOP_LIMIT" }

  /** The upper-cased order types that carry a limit price. */
  predicate NeedsPrice(kind: string) { kind == "LIMIT" || kind == "STOP_LIMIT" }

  /** Present and strictly positive: the negation of `p is None or p <= 0`. */
  predicate Positive(p: Option<real>) { p.Some? && p.value > 0.0 }

  /** The keys every accepted request sends. */
  const BaseKeys: set<string> := {"category", "symbol", "side", "orderType", "qty", "timeInForce"}

  /** The extra keys a stop-limit request sends. */
  const StopKeys: set<string> := {"stopOrderType", "triggerPrice", "triggerDirection"}

  /** The validation gate, checked in the source's order. */
  function Validate(req: Request): (r: Result<Order, Rejection>)
  {
    var side, kind := Upper(req.side), Upper(req.orderType);
    if !IsSideName(side) || !IsTypeName(kind) then Failure(InvalidSideOrType)
    else if NeedsPrice(kind) && !Positive(req.price) then Failure(MissingPrice)
    else if kind == "STOP_LIMIT" && !Positive(req.triggerPrice) then Failure(MissingTrigger)
    else
      var k :=
        if kind == "MARKET" then Market
        else if kind == "LIMIT" then Limit(req.price.value)
        else StopLimit(req.price.value, req.triggerPrice.value);
      Success(Order(Upper(req.symbol), if side == "BUY" then Buy else Sell, req.qty, k))
  }

  function SideName(side: Side): string
  {
    match side
    case Buy => "Buy"
    case Sell => "Sell"
  }

  /** The exchange's `orderType`: a stop-limit order is a conditional `Limit` order. */
  function TypeName(kind: Kind): string
  {
    match kind
    case Market => "Market"
    case Limit(_) => "Limit"
    case StopLimit(_, _) => "Limit"
  }

  /** `triggerDirection`: 1 (rises to the trigger) for a buy, 2 (falls to it) for a sell. */
  function Direction(side: Side): int
  {
    match side
    case Buy => 1
    case Sell => 2
  }

  /** The wire parameters of an order. */
  function Encode(o: Order): (m: Params)
    ensures m.Keys == BaseKeys + (if o.kind.Market? then {} else {"price"}) + (if o.kind.StopLimit? then StopKeys else {})
  {
    var base := map[
      "category" := Text(Category),
      "symbol" := Text(o.symbol),
      "side" := Text(SideName(o.side)),
      "orderType" := Text(TypeName(o.kind)),
      "qty" := Stringified(o.qty),
      "timeInForce" := Text("GTC")];
    match o.kind
    case Market => base
    case Limit(p) => base["price" := Stringified(p)]
    case StopLimit(p, t) =>
      base["price" := Stringified(p)]["stopOrderType" := Text("Stop")]
          ["triggerPrice" := Stringified(t)]["triggerDirection" := Integer(Direction(o.side))]
  }

  /** The parameters `_place_order` hands to the exchange client, or why it sends nothing. */
  function OrderParams(req: Request): Result<Params, Rejection>
  {
    match Validate(req)
    case Success(o) => Success(Encode(o))
    case Failure(e) => Failure(e)
  }

  function DecodeSide(v: Value): Option<Side>
  {
    if v == Text("Buy") then Some(Buy) else if v == Text("Sell") then Some(Sell) else None
  }

  /**
   * The inverse of `Encode`, defined here to show the encoding is exact: it
   * reads a parameter map back into an order, and gives `None` for a map that
   * is not exactly the encoding of some order. It is not the exchange's own
   * parsing, which is not part of this model.
   */
  function Decode(m: Params): (r: Option<Order>)
  {
    if !(BaseKeys <= m.Keys) then None
    else if m["category"] != Text(Category) || m["timeInForce"] != Text("GTC") then None
    else if !m["symbol"].Text? || !m["qty"].Stringified? then None
    else
      var side := DecodeSide(m["side"]);
      if side.None? then None
      else if m.Keys == BaseKeys && m["orderType"] == Text("Market") then
        Some(Order(m["symbol"].s, side.value, m["qty"].x, Market))
      else if m.Keys == BaseKeys + {"price"} && m["orderType"] == Text("Limit") && m["price"].Stringified? then
        Some(Order(m["symbol"].s, side.value, m["qty"].x, Limit(m["price"].x)))
      else if m.Keys == BaseKeys + {"price"} + StopKeys && m["orderType"] == Text("Limit")
           && m["price"].Stringified? && m["stopOrderType"] == Text("Stop")
           && m["triggerPrice"].Stringified? && m["triggerDirection"] == Integer(Direction(side.value)) then
        Some(Order(m["symbol"].s, side.value, m["qty"].x, StopLimit(m["price"].x, m["triggerPrice"].x)))
      else None
  }

  /** Decoding an encoded order gives the order back. */
  lemma DecodeEncode(o: Order)
    ensures Decode(Encode(o)) == Some(o)
  {
  }

  /** A map that decodes at all is exactly the encoding of what it decodes to. */
  lemma EncodeDecode(m: Params, o: Order)
    requires Decode(m) == Some(o)
    ensures Encode(o) == m
  {
  }

  /**
   * A request is refused for its side or type exactly when `side.upper()` is
   * not BUY/SELL or `order_type.upper()` is not MARKET/LIMIT/STOP_LIMIT, and
   * that check comes first: such a request is refused for that reason whatever
   * its prices are.
   */
  lemma RejectsInvalidSideOrType(req: Request)
    ensures OrderParams(req) == Failure(InvalidSideOrType) <==> !IsSideName(Upper(req.side)) || !IsTypeName(Upper(req.orderType))
  {
  }

  /** The checks are case-insensitive: only `side.upper()` and `order_type.upper()` matter. */
  lemma CaseInsensitive(req: Request, side: string, orderType: string)
    requires Upper(side) == Upper(req.side) && Upper(orderType) == Upper(req.orderType)
    ensures OrderParams(req.(side := side, orderType := orderType)) == OrderParams(req)
  {
  }

  /** A LIMIT or STOP_LIMIT request with an absent or non-positive price is refused. */
  lemma RejectsMissingPrice(req: Request)
    requires IsSideName(Upper(req.side)) && NeedsPrice(Upper(req.orderType)) && !Positive(req.price)
    ensures OrderParams(req) == Failure(MissingPrice)
  {
  }

  /** A STOP_LIMIT request with an absent or non-positive trigger price is refused even when its price is valid. */
  lemma RejectsMissingTrigger(req: Request)
    requires IsSideName(Upper(req.side)) && Upper(req.orderType) == "STOP_LIMIT" && Positive(req.price) && !Positive(req.triggerPrice)
    ensures OrderParams(req) == Failure(MissingTrigger)
  {
  }

  /** A MARKET request with a valid side is always accepted; its price and trigger are never looked at. */
  lemma MarketIgnoresPrices(req: Request, price: Option<real>, triggerPrice: Option<real>)
    requires IsSideName(Upper(req.side)) && Upper(req.orderType) == "MARKET"
    ensures OrderParams(req).Success?
    ensures OrderParams(req.(price := price, triggerPrice := triggerPrice)) == OrderParams(req)
  {
  }

  /** The whole acceptance condition, both directions. */
  lemma AcceptedIff(req: Request)
    ensures OrderParams(req).Success? <==>
      && IsSideName(Upper(req.side)) && IsTypeName(Upper(req.orderType))
      && (NeedsPrice(Upper(req.orderType)) ==> Positive(req.price))
      && (Upper(req.orderType) == "STOP_LIMIT" ==> Positive(req.triggerPrice))
  {
  }

  /**
   * The fields every accepted request carries: category `linear`, the symbol
   * upper-cased, the side as `Buy`/`Sell`, the quantity stringified and
   * good-till-cancelled.
   */
  lemma CommonFields(req: Request)
    requires OrderParams(req).Success?
    ensures var m := OrderParams(req).value;
      && BaseKeys <= m.Keys
      && m["category"] == Text("linear")
      && m["symbol"] == Text(Upper(req.symbol))
      && m["side"] == Text(if Upper(req.side) == "BUY" then "Buy" else "Sell")
      && m["qty"] == Stringified(req.qty)
      && m["timeInForce"] == Text("GTC")
  {
  }

  /** `orderType` is `Limit` for a STOP_LIMIT request and the capitalized type otherwise. */
  lemma OrderTypeField(req: Request)
    requires OrderParams(req).Success?
    ensures OrderParams(req).value["orderType"] == Text(if Upper(req.orderType) == "MARKET" then "Market" else "Limit")
  {
  }

  /** The `price` key is present exactly for LIMIT and STOP_LIMIT, holding the stringified price. */
  lemma PriceKey(req: Request)
    requires OrderParams(req).Success?
    ensures var m := OrderParams(req).value;
      && ("price" in m <==> NeedsPrice(Upper(req.orderType)))
      && ("price" in m ==> m["price"] == Stringified(req.price.value))
  {
  }

  /**
   * The conditional-order keys are present exactly for STOP_LIMIT, with the
   * `Stop` marker, the stringified trigger price, and direction 1 for a buy
   * and 2 for a sell; no request carries any key beyond those.
   */
  lemma StopLimitKeys(req: Request)
    requires OrderParams(req).Success?
    ensures var m := OrderParams(req).value;
      && (StopKeys <= m.Keys <==> Upper(req.orderType) == "STOP_LIMIT")
      && (Upper(req.orderType) != "STOP_LIMIT" ==> m.Keys !! StopKeys)
      && m.Keys <= BaseKeys + {"price"} + StopKeys
      && (Upper(req.orderType) == "STOP_LIMIT" ==>
            && m["stopOrderType"] == Text("Stop")
            && m["triggerPrice"] == Stringified(req.triggerPrice.value)
            && m["triggerDirection"] == Integer(if Upper(req.side) == "BUY" then 1 else 2))
  {
  }

  /** `side="buy"`, `MARKET`, quantity 10, symbol `btcusdt`: accepted, with the fields normalised. */
  lemma ExampleMarketBuy()
    ensures OrderParams(Request("btcusdt", "buy", "MARKET", 10.0, None, None)) == Success(map[
      "category" := Text("linear"), "symbol" := Text("BTCUSDT"), "side" := Text("Buy"),
      "orderType" := Text("Market"), "qty" := Stringified(10.0), "timeInForce" := Text("GTC")])
  {
    assert Upper("btcusdt") == "BTCUSDT";
    assert Upper("buy") == "BUY";
    UpperOfUpperText("MARKET");
  }

  /** A LIMIT request without a price is refused. */
  lemma ExampleLimitWithoutPrice(symbol: string, side: string, qty: real)
    requires IsSideName(Upper(side))
    ensures OrderParams(Request(symbol, side, "LIMIT", qty, None, None)) == Failure(MissingPrice)
  {
  }

  /** A STOP_LIMIT sell at 100 triggered at 105: a `Limit` order, marked `Stop`, direction 2. */
  lemma ExampleStopLimitSell(symbol: string, qty: real)
    ensures var r := OrderParams(Request(symbol, "SELL", "STOP_LIMIT", qty, Some(100.0), Some(105.0)));
      && r.Success?
      && r.value["orderType"] == Text("Limit")
      && r.value["stopOrderType"] == Text("Stop")
      && r.value["triggerDirection"] == Integer(2)
  {
    assert Upper("SELL") == "SELL";
    assert Upper("STOP_LIMIT") == "STOP_LIMIT";
    var req := Request(symbol, "SELL", "STOP_LIMIT", qty, Some(100.0), Some(105.0));
    assert IsSideName(Upper(req.side)) && IsTypeName(Upper(req.orderType)) && Upper(req.orderType) == "STOP_LIMIT";
    assert Validate(req) == Success(Order(Upper(symbol), Sell, qty, StopLimit(100.0, 105.0)));
  }
}
