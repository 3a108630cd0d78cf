/**
 * The balance extraction of `get_balance`: from the exchange's
 * unified-account wallet response, the account's total equity and the
 * amount of USDT available to withdraw, with the text `N/A` wherever a level
 * of the response is missing.
 *
 * Python raises when a level that is present has the wrong shape (a
 * `.get` on something that is not a dict, iterating over something that is
 * not a list); the source catches that, logs it and reports nothing, which
 * `Extract` gives as `None`.
 */
module Wallet {
  import opened Wrappers
  import opened JsonData

  /** The sentinel reported for a value that is absent. */
  const NotAvailable: Json := Str("N/A")

  /** What `get_balance` reports: total equity and the available USDT balance. */
  datatype Balance = Balance(totalEquity: Json, available: Json)

  /** Outcome of the `for coin_data in ...` loop over the coin entries. */
  datatype Scan = Raised | Found(index: nat) | NotFound

  /** `coin_data.get('coin') == 'USDT'`, for an entry that is a dict. */
  predicate IsUsdt(fields: map<string, Json>)
  {
    Get(fields, "coin", Null) == Str("USDT")
  }

  /** An entry the loop passes over without raising and without stopping. */
  predicate Skipped(entry: Json)
  {
    entry.Object? && !IsUsdt(entry.fields)
  }

  /**
   * The loop over `coins` from position `from` on: it stops at the first
   * USDT entry, and raises at the first entry that is not a dict before that.
   */
  function ScanFrom(coins: seq<Json>, from: nat): (r: Scan)
    requires from <= |coins|
    ensures r.Found? ==> from <= r.index < |coins| && coins[r.index].Object? && IsUsdt(coins[r.index].fields)
    decreases |coins| - from
  {
    if from == |coins| then NotFound
    else if !coins[from].Object? then Raised
    else if IsUsdt(coins[from].fields) then Found(from)
    else ScanFrom(coins, from + 1)
  }

  /**
   * Total equity and available USDT balance of a wallet response, or `None`
   * when extracting them raises.
   */
  function Extract(response: Json): Option<Balance>
  {
    if !response.Object? then None
    else
      var result := Get(response.fields, "result", Object(map[]));
      if !Truthy(result) then Some(Balance(NotAvailable, NotAvailable))
      else if !result.Object? then None
      else
        var list := Get(result.fields, "list", Null);
        if !Truthy(list) then Some(Balance(NotAvailable, NotAvailable))
        else if !list.Array? || !list.items[0].Object? then None
        else
          var account := list.items[0].fields;
          var equity := Get(account, "totalEquity", NotAvailable);
          var coins := Get(account, "coin", Null);
          if !Truthy(coins) then Some(Balance(equity, NotAvailable))
          else if !coins.Array? then None
          else
            match ScanFrom(coins.items, 0)
            case Raised => None
            case NotFound => Some(Balance(equity, NotAvailable))
            case Found(k) => Some(Balance(equity, Get(coins.items[k].fields, "availableToWithdraw", NotAvailable)))
  }

  /**
   * The loop stops at position `k` exactly when `k` is the first USDT entry
   * at or after `from` and every entry before it is a dict.
   */
  lemma {:induction false} ScanFoundIff(coins: seq<Json>, from: nat, k: nat)
    requires from <= |coins|
    decreases |coins| - from
    ensures ScanFrom(coins, from) == Found(k) <==>
      && from <= k < |coins|
      && coins[k].Object? && IsUsdt(coins[k].fields)
      && forall j :: from <= j < k ==> Skipped(coins[j])
  {
    if from < |coins| && coins[from].Object? && !IsUsdt(coins[from].fields) {
      ScanFoundIff(coins, from + 1, k);
      if k == from {
        assert !(coins[k].Object? && IsUsdt(coins[k].fields));
      }
    }
  }

  /** The loop finds nothing exactly when every entry from `from` on is a dict and none is USDT. */
  lemma {:induction false} ScanNotFoundIff(coins: seq<Json>, from: nat)
    requires from <= |coins|
    decreases |coins| - from
    ensures ScanFrom(coins, from) == NotFound <==> forall j :: from <= j < |coins| ==> Skipped(coins[j])
  {
    if from < |coins| && coins[from].Object? && !IsUsdt(coins[from].fields) {
      ScanNotFoundIff(coins, from + 1);
    }
  }

  /**
   * The loop raises exactly when some entry is not a dict and no USDT entry
   * comes before it.
   */
  lemma {:induction false} ScanRaisedIff(coins: seq<Json>, from: nat)
    requires from <= |coins|
    decreases |coins| - from
    ensures ScanFrom(coins, from) == Raised <==>
      exists k :: from <= k < |coins| && !coins[k].Object? && forall j :: from <= j < k ==> Skipped(coins[j])
  {
    if from < |coins| && coins[from].Object? && !IsUsdt(coins[from].fields) {
      ScanRaisedIff(coins, from + 1);
      if exists k :: from <= k < |coins| && !coins[k].Object? && forall j :: from <= j < k ==> Skipped(coins[j]) {
        var k :| from <= k < |coins| && !coins[k].Object? && forall j :: from <= j < k ==> Skipped(coins[j]);
        assert k != from;
        assert from + 1 <= k;
      }
    }
  }

  /**
   * The response has a `result` dict whose `list` is a non-empty list whose
   * first entry is the dict `account`.
   */
  predicate HasFirstAccount(response: Json, account: map<string, Json>)
  {
    && response.Object? && "result" in response.fields
    && response.fields["result"].Object?
    && "list" in response.fields["result"].fields
    && var list := response.fields["result"].fields["list"];
       list.Array? && list.items != [] && list.items[0] == Object(account)
  }

  /**
   * Every level that is present has the shape the source expects (the
   * response and `result` are dicts, `list` a list whose first entry is a
   * dict, `coin` a list of dicts); any level may be missing or `None`.
   */
  predicate WellShaped(response: Json)
  {
    && response.Object?
    && var result := Get(response.fields, "result", Null);
       && (result.Null? || result.Object?)
       && (result.Object? ==>
             var list := Get(result.fields, "list", Null);
             && (list.Null? || list.Array?)
             && (list.Array? && list.items != [] ==>
                   && list.items[0].Object?
                   && var coins := Get(list.items[0].fields, "coin", Null);
                      coins.Null? || (coins.Array? && forall j :: 0 <= j < |coins.items| ==> coins.items[j].Object?)))
  }

  /** With no `result`, or no accounts in it, both values are reported as `N/A`. */
  lemma NoAccountGivesNotAvailable(response: Json)
    requires response.Object?
    requires var result := Get(response.fields, "result", Null);
      result.Null? || (result.Object? && Get(result.fields, "list", Null) in {Null, Array([])})
    ensures Extract(response) == Some(Balance(NotAvailable, NotAvailable))
  {
  }

  /** Total equity is the first account entry's `totalEquity`, or `N/A` when it has none. */
  lemma EquityFromFirstAccount(response: Json, account: map<string, Json>)
    requires HasFirstAccount(response, account)
    ensures Extract(response).Some? ==> Extract(response).value.totalEquity == Get(account, "totalEquity", NotAvailable)
  {
  }

  /**
   * When entry `k` is the first USDT entry of the first account's coins and
   * every entry before it is a dict, the available balance is its
   * `availableToWithdraw` (or `N/A` when it has none), whatever follows it.
   */
  lemma AvailableFromFirstUsdt(response: Json, account: map<string, Json>, coins: seq<Json>, k: nat)
    requires HasFirstAccount(response, account) && Get(account, "coin", Null) == Array(coins)
    requires k < |coins| && coins[k].Object? && IsUsdt(coins[k].fields)
    requires forall j :: 0 <= j < k ==> Skipped(coins[j])
    ensures Extract(response) ==
      Some(Balance(Get(account, "totalEquity", NotAvailable), Get(coins[k].fields, "availableToWithdraw", NotAvailable)))
  {
    ScanFoundIff(coins, 0, k);
  }

  /**
   * When the first account has no coin list (absent, `None` or empty), or its
   * coins are dicts and none is USDT, the available balance is `N/A` and the
   * equity is still reported.
   */
  lemma NoUsdtGivesNotAvailable(response: Json, account: map<string, Json>, coins: seq<Json>)
    requires HasFirstAccount(response, account)
    requires || !Truthy(Get(account, "coin", Null))
             || (Get(account, "coin", Null) == Array(coins) && forall j :: 0 <= j < |coins| ==> Skipped(coins[j]))
    ensures Extract(response) == Some(Balance(Get(account, "totalEquity", NotAvailable), NotAvailable))
  {
    ScanNotFoundIff(coins, 0);
  }

  /**
   * Extraction raises on the coin entries exactly when one of them is not a
   * dict and no USDT entry comes before it.
   */
  lemma RaisesOnMalformedCoin(response: Json, account: map<string, Json>, coins: seq<Json>)
    requires HasFirstAccount(response, account) && Get(account, "coin", Null) == Array(coins)
    ensures Extract(response).None? <==>
      exists k :: 0 <= k < |coins| && !coins[k].Object? && forall j :: 0 <= j < k ==> Skipped(coins[j])
  {
    ScanRaisedIff(coins, 0);
  }

  /** Missing levels never make the extraction fail: a well-shaped response always yields a balance. */
  lemma WellShapedNeverRaises(response: Json)
    requires WellShaped(response)
    ensures Extract(response).Some?
  {
    var result := Get(response.fields, "result", Object(map[]));
    if Truthy(result) {
      var list := Get(result.fields, "list", Null);
      if Truthy(list) {
        var coins := Get(list.items[0].fields, "coin", Null);
        if Truthy(coins) {
          ScanRaisedIff(coins.items, 0);
        }
      }
    }
  }
}
