# Order builder and balance extraction of a Bybit trading bot

This project models the core of a small command-line trading bot for Bybit
USDT perpetual futures (`basic_bot.py`). It covers two parts.

- **The order-request builder and validator** (`BasicBot._place_order`).
  It either refuses a request before anything is sent, or produces the exact
  parameter map passed to the exchange's v5 order-placement call. The three
  `place_*_order` methods delegate to it.
- **The balance extraction** of `BasicBot.get_balance`. From the nested
  wallet response it takes the first account's total equity and the
  `availableToWithdraw` of the first USDT coin entry. Any missing level gives
  the text `N/A`.

Modules:

- `Wrappers` (`wrappers.dfy`): `Option` and `Result`.
- `Ascii` (`ascii.dfy`): Python's `str.upper()` and `str.capitalize()` over ASCII letters.
- `JsonData` (`json_data.dfy`): a decoded JSON response, Python truth testing and `dict.get`.
- `Orders` (`orders.dfy`): the specification of the order builder.
  - `Validate` turns a raw request into a typed `Order`, or into a `Rejection` that names the failed check.
  - `Encode` gives an order's wire parameters.
  - `Decode` is the model's own inverse of `Encode`, not the exchange's parser. Its round-trip lemmas show the encoding is exact.
  - `OrderParams` is `Validate` followed by `Encode`. The lemmas state the builder's rules in terms of the raw request.
- `Wallet` (`wallet.dfy`): the specification of the balance extraction.
  - `ScanFrom` is the loop over the coin entries.
  - `Extract` is the whole extraction. `None` means a present level had the wrong shape, so Python raised; the source catches that and logs it.
- `Bot` (`bot.dfy`): the operations written the way the source runs them.
  - `PlaceOrder` has the early-return gate and builds a dict that it then extends in place.
  - The three delegating methods.
  - `GetBalance` has its `for` loop with `break`.
  - `PlaceOrder` and each delegating method are proved equal to `Orders.OrderParams` of the request they make. `GetBalance` is proved equal to `Wallet.Extract`.

The bot object has two fields, `category` and `client`. Both are set once in
the constructor and never change. `category` is the constant
`Orders.Category` (`"linear"`). The client is external, so the operations are
module-level methods.

`_place_order` never checks the quantity. Only the interactive CLI rejects a
non-positive quantity. The model follows the code: a request with any
quantity passes the gate, and that quantity is sent as it is.

## Model

| member | source | states |
|---|---|---|
| `Ascii.Upper` | basic_bot.py:96 | `str.upper()` over ASCII letters keeps the length of the text |
| `Ascii.Capitalize` | basic_bot.py:114-116 | `str.capitalize()` over ASCII letters keeps the length, upper-cases the first character and lower-cases the rest |
| `Ascii.CapitalizeOfUpper` | basic_bot.py:114-116 | `capitalize()` of a text equals `capitalize()` of its upper case, so the case of the input letters does not change the wire side or type |
| `Ascii.CapitalizeCaseInsensitive` | basic_bot.py:114-116 | two texts with the same upper case capitalize to the same text |
| `Ascii.UpperIdempotent` | basic_bot.py:96 | upper-casing an upper-cased side or type changes nothing |
| `Orders.Encode` | basic_bot.py:111-130 | the wire keys are the six base keys, plus `price` unless the order is MARKET, plus the three conditional keys exactly for STOP_LIMIT |
| `Orders.DecodeEncode` | basic_bot.py:111-130 | reading the parameters of any order back gives that order: the encoding loses nothing |
| `Orders.EncodeDecode` | basic_bot.py:111-130 | a parameter map that reads back as an order is exactly that order's encoding: no other map is accepted |
| `Orders.RejectsInvalidSideOrType` | basic_bot.py:95-98 | the side/type refusal happens exactly when `side.upper()` is not BUY/SELL or `order_type.upper()` is not MARKET/LIMIT/STOP_LIMIT; the price values make no difference, because this check comes first |
| `Orders.CaseInsensitive` | basic_bot.py:96-130 | changing the case of the side or the type does not change the outcome or the parameters |
| `Orders.RejectsMissingPrice` | basic_bot.py:101-103 | a LIMIT or STOP_LIMIT request whose price is absent or not positive is refused for its price |
| `Orders.RejectsMissingTrigger` | basic_bot.py:106-108 | a STOP_LIMIT request with a valid price but an absent or non-positive trigger price is refused for its trigger |
| `Orders.MarketIgnoresPrices` | basic_bot.py:101-108 | a MARKET request with a valid side is always accepted, and its price and trigger price do not affect the result |
| `Orders.AcceptedIff` | basic_bot.py:95-108 | a request is accepted exactly when the side and type are valid, it has a positive price if LIMIT/STOP_LIMIT, and it has a positive trigger if STOP_LIMIT |
| `Orders.CommonFields` | basic_bot.py:111-119 | every accepted request sends category `linear`, the upper-cased symbol, side `Buy`/`Sell`, the stringified quantity and `timeInForce` `GTC` |
| `Orders.OrderTypeField` | basic_bot.py:116 | `orderType` is `Market` for MARKET and `Limit` for both LIMIT and STOP_LIMIT |
| `Orders.PriceKey` | basic_bot.py:122-123 | `price` is present exactly for LIMIT and STOP_LIMIT, and holds the stringified price |
| `Orders.StopLimitKeys` | basic_bot.py:126-130 | `stopOrderType` `Stop`, `triggerPrice` and `triggerDirection` (1 for buy, 2 for sell) are present exactly for STOP_LIMIT; no other keys are ever sent |
| `Orders.ExampleMarketBuy` | basic_bot.py:111-119 | side `buy`, MARKET, qty 10, symbol `btcusdt` gives exactly `BTCUSDT`, `Buy`, `Market`, qty 10, `linear`, `GTC` |
| `Orders.ExampleLimitWithoutPrice` | basic_bot.py:101-103 | a LIMIT request without a price is refused |
| `Orders.ExampleStopLimitSell` | basic_bot.py:126-130 | a STOP_LIMIT sell at price 100 with trigger 105 is accepted as a `Limit` order marked `Stop` with direction 2 |
| `Bot.CapitalizedSide` | basic_bot.py:114 | for an accepted side (via `Ascii.UpperIdempotent` and `Ascii.CapitalizeCaseInsensitive`), `side.capitalize()` is `Buy` or `Sell`, whatever the input's case |
| `Bot.CapitalizedType` | basic_bot.py:116 | for an accepted MARKET or LIMIT type, `order_type.capitalize()` is `Market` or `Limit`, whatever the input's case |
| `Bot.PlaceOrder` | basic_bot.py:95-134 | the early-return gate and the in-place parameter build give exactly the specified refusal reason or parameter map |
| `Bot.PlaceMarketOrder` | basic_bot.py:162-164 | returns exactly what `_place_order` returns for type MARKET with no prices: refused exactly when the side is invalid, otherwise only the six base keys, with `Market` and the given quantity |
| `Bot.PlaceLimitOrder` | basic_bot.py:166-168 | returns exactly what `_place_order` returns for type LIMIT with the given price: refused exactly when the side is invalid or the price is not positive, otherwise a `Limit` order with that price and no conditional keys |
| `Bot.PlaceStopLimitOrder` | basic_bot.py:170-172 | returns exactly what `_place_order` returns for type STOP_LIMIT with both prices: refused exactly when the side is invalid or either price is not positive, otherwise a `Limit` order with `Stop`, the trigger price and the side's direction |
| `Bot.GetBalance` | basic_bot.py:66-78 | the loop with `break` over the coin entries reports exactly the specified equity and USDT balance, or that the extraction raised |
| `Wallet.ScanFrom` | basic_bot.py:75-78 | when the coin loop stops, it stops at a dict entry whose `coin` is `USDT` |
| `Wallet.ScanFoundIff` | basic_bot.py:75-78 | the loop stops at entry `k` exactly when `k` is the first USDT entry and every entry before it is a dict |
| `Wallet.ScanNotFoundIff` | basic_bot.py:75-78 | the loop runs to the end exactly when every entry is a dict and none is USDT |
| `Wallet.ScanRaisedIff` | basic_bot.py:75-78 | the loop raises exactly when some entry is not a dict and no USDT entry comes before it |
| `Wallet.NoAccountGivesNotAvailable` | basic_bot.py:66-70 | with no `result`, or no account entries, both equity and balance are `N/A` |
| `Wallet.EquityFromFirstAccount` | basic_bot.py:70-72 | the total equity is the first account entry's `totalEquity`, or `N/A` if it has none |
| `Wallet.AvailableFromFirstUsdt` | basic_bot.py:74-78 | the available balance is the first USDT entry's `availableToWithdraw` (or `N/A` if it has none); later entries are never looked at |
| `Wallet.NoUsdtGivesNotAvailable` | basic_bot.py:66-78 | when the first account has no coin list (absent, `None` or empty) or no USDT coin entry, the available balance is `N/A` and the equity is still reported |
| `Wallet.RaisesOnMalformedCoin` | basic_bot.py:74-78 | the extraction fails on the coin list exactly when a non-dict entry comes before any USDT entry |
| `Wallet.WellShapedNeverRaises` | basic_bot.py:66-78 | a response whose present levels have the expected shape always gives a balance: absent fields never make it fail |

## Left out

- The exchange client (`pybit`'s `HTTP`). This covers its construction, the server-time check at start-up, `place_order` and `get_wallet_balance` (basic_bot.py:43-50, 63, 139). It is foreign code. The wallet response is an input of `GetBalance`.
- Bot.PlaceOrder: stops at the parameters handed to the exchange client. It does not model the client's response, the `orderId` check on that response (basic_bot.py:142-151), or the `None` returned after a caught client exception (basic_bot.py:153-160). All of these depend on the foreign client and its exception classes.
- Bot.GetBalance: returns the two values that `get_balance` logs. It does not model the logging itself or the logged full response (basic_bot.py:80-83).
- Logging (basic_bot.py:11-31 and every `logger` call). It is a global text sink. The reason for a refusal is kept as `Rejection`, because each reason has its own error line.
- Start-up: reading credentials from the environment and `.env`, and `sys.exit` on failure (basic_bot.py:9, 53-55, 250-259). These are process and environment I/O.
- The interactive loop `run_cli_interface` (basic_bot.py:177-245). It is driven by `input()` and float parsing. Its sign checks repeat those of the builder.
- Floating point. Quantities and prices are exact reals, so NaN and infinities are not represented. A NaN price would pass Python's `price <= 0` test.
- The text of `str(float)`. A stringified number is the opaque value `Stringified(x)`. Only the number it came from is modelled.
- Unicode case mapping. `upper()` and `capitalize()` are modelled over ASCII letters only. All other characters are left unchanged.
