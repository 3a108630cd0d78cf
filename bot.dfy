/**
 * The trading bot's order and balance operations, written as the bot runs
 * them: early returns for the validation gate, a parameter dict built and
 * then extended in place, and a loop with `break` over the coin entries.
 * `PlaceOrder` and the three delegating methods are proved equal to
 * `Orders.OrderParams` of their request, and `GetBalance` to
 * `Wallet.Extract`. The bot object holds no state these operations change (its
 * category is the constant `Orders.Category`), so they are module-level
 * methods.
 */
module Bot {
  import opened Wrappers
  import opened Ascii
  import opened JsonData
  import opened Orders
  import opened Wallet

  /** `side.capitalize()` of an accepted side. */
  lemma CapitalizedSide(side: string)
    requires IsSideName(Upper(side))
    ensures Capitalize(side) == (if Upper(side) == "BUY" then "Buy" else "Sell")
  {
    UpperIdempotent(side);
    CapitalizeCaseInsensitive(side, Upper(side));
    if Upper(side) == "BUY" {
      assert Capitalize("BUY") == "Buy";
    } else {
      assert Capitalize("SELL") == "Sell";
    }
  }

  /** `order_type.capitalize()` of an accepted MARKET or LIMIT type. */
  lemma CapitalizedType(orderType: string)
    requires Upper(orderType) == "MARKET" || Upper(orderType) == "LIMIT"
    ensures Capitalize(orderType) == (if Upper(orderType) == "MARKET" then "Market" else "Limit")
  {
    UpperIdempotent(orderType);
    CapitalizeCaseInsensitive(orderType, Upper(orderType));
    if Upper(orderType) == "MARKET" {
      assert Capitalize("MARKET") == "Market";
    } else {
      assert Capitalize("LIMIT") == "Limit";
    }
  }

  /**
   * `_place_order` up to the call into the exchange client: the parameters
   * it sends, or the reason it returns `None` without sending anything.
   */
  method PlaceOrder(req: Request) returns (r: Result<Params, Rejection>)
    ensures r == OrderParams(req)
  {
    var side, kind := Upper(req.side), Upper(req.orderType);
    if (side != "BUY" && side != "SELL") || (kind != "MARKET" && kind != "LIMIT" && kind != "STOP_LIMIT") {
      return Failure(InvalidSideOrType);
    }
    if (kind == "LIMIT" || kind == "STOP_LIMIT") && (req.price.None? || req.price.value <= 0.0) {
      return Failure(MissingPrice);
    }
    if kind == "STOP_LIMIT" && (req.triggerPrice.None? || req.triggerPrice.value <= 0.0) {
      return Failure(MissingTrigger);
    }

    var params: Params := map[
      "category" := Text(Category),
      "symbol" := Text(Upper(req.symbol)),
      "side" := Text(Capitalize(req.side)),
      "orderType" := Text(if kind != "STOP_LIMIT" then Capitalize(req.orderType) else "Limit"),
      "qty" := Stringified(req.qty),
      "timeInForce" := Text("GTC")];
    if kind == "LIMIT" || kind == "STOP_LIMIT" {
      params := params["price" := Stringified(req.price.value)];
    }
    if kind == "STOP_LIMIT" {
      params := params["stopOrderType" := Text("Stop")];
      params := params["triggerPrice" := Stringified(req.triggerPrice.value)];
      params := params["triggerDirection" := Integer(if side == "BUY" then 1 else 2)];
    }

    CapitalizedSide(req.side);
    if kind != "STOP_LIMIT" {
      CapitalizedType(req.orderType);
    }
    return Success(params);
  }

  /**
   * `place_market_order`: exactly `_place_order` with type MARKET and no
   * prices; refused only for an invalid side, and never carries a price.
   */
  method PlaceMarketOrder(symbol: string, side: string, qty: real) returns (r: Result<Params, Rejection>)
    ensures r == OrderParams(Request(symbol, side, "MARKET", qty, None, None))
    ensures r.Failure? <==> !IsSideName(Upper(side))
    ensures r.Success? ==>
      && r.value.Keys == BaseKeys
      && r.value["orderType"] == Text("Market")
      && r.value["qty"] == Stringified(qty)
  {
    r := PlaceOrder(Request(symbol, side, "MARKET", qty, None, None));
    assert Upper("MARKET") == "MARKET";
  }

  /**
   * `place_limit_order`: exactly `_place_order` with type LIMIT and the given
   * price; refused for an invalid side or a non-positive price.
   */
  method PlaceLimitOrder(symbol: string, side: string, qty: real, price: real) returns (r: Result<Params, Rejection>)
    ensures r == OrderParams(Request(symbol, side, "LIMIT", qty, Some(price), None))
    ensures r.Failure? <==> !IsSideName(Upper(side)) || price <= 0.0
    ensures r.Success? ==>
      && r.value.Keys == BaseKeys + {"price"}
      && r.value["orderType"] == Text("Limit")
      && r.value["price"] == Stringified(price)
  {
    r := PlaceOrder(Request(symbol, side, "LIMIT", qty, Some(price), None));
    assert Upper("LIMIT") == "LIMIT";
  }

  /**
   * `place_stop_limit_order`: exactly `_place_order` with type STOP_LIMIT and
   * both prices; refused for an invalid side or a non-positive
   * price or trigger price; otherwise a `Limit` order with the stop marker,
   * the trigger price and the side's trigger direction.
   */
  method PlaceStopLimitOrder(symbol: string, side: string, qty: real, price: real, triggerPrice: real)
    returns (r: Result<Params, Rejection>)
    ensures r == OrderParams(Request(symbol, side, "STOP_LIMIT", qty, Some(price), Some(triggerPrice)))
    ensures r.Failure? <==> !IsSideName(Upper(side)) || price <= 0.0 || triggerPrice <= 0.0
    ensures r.Success? ==>
      && r.value.Keys == BaseKeys + {"price"} + StopKeys
      && r.value["orderType"] == Text("Limit")
      && r.value["price"] == Stringified(price)
      && r.value["stopOrderType"] == Text("Stop")
      && r.value["triggerPrice"] == Stringified(triggerPrice)
      && r.value["triggerDirection"] == Integer(if Upper(side) == "BUY" then 1 else 2)
  {
    r := PlaceOrder(Request(symbol, side, "STOP_LIMIT", qty, Some(price), Some(triggerPrice)));
    assert Upper("STOP_LIMIT") == "STOP_LIMIT";
  }

  /**
   * The extraction step of `get_balance`: the total equity and available
   * USDT balance it logs, or `None` when it raises and logs the error instead.
   */
  method GetBalance(response: Json) returns (r: Option<Balance>)
    ensures r == Extract(response)
  {
    if !response.Object? {
      return None;
    }
    var usdtBalance := NotAvailable;
    var totalEquity := NotAvailable;

    var result := Get(response.fields, "result", Object(map[]));
    if Truthy(result) {
      if !result.Object? {
        return None;
      }
      var list := Get(result.fields, "list", Null);
      if Truthy(list) {
        if !list.Array? || !list.items[0].Object? {
          return None;
        }
        var accountInfo := list.items[0].fields;
        totalEquity := Get(accountInfo, "totalEquity", NotAvailable);

        var coins := Get(accountInfo, "coin", Null);
        if Truthy(coins) {
          if !coins.Array? {
            return None;
          }
          var i := 0;
          while i < |coins.items|
            invariant 0 <= i <= |coins.items|
            invariant ScanFrom(coins.items, i) == ScanFrom(coins.items, 0)
            invariant usdtBalance == NotAvailable
          {
            var coinData := coins.items[i];
            if !coinData.Object? {
              return None;
            }
            if Get(coinData.fields, "coin", Null) == Str("USDT") {
              usdtBalance := Get(coinData.fields, "availableToWithdraw", NotAvailable);
              break;
            }
            i := i + 1;
          }
        }
      }
    }
    return Some(Balance(totalEquity, usdtBalance));
  }
}
