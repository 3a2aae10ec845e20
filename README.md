# CoinGate payment model for Magento 2, in Dafny

This project models class `Payment` of the CoinGate Magento 2 plugin. The class connects a Magento
order to the CoinGate crypto-payment API and does three things:

- **Order initiation** (`getCoinGateOrder`). It stores a 32-character token in the order payment's
  additional information under `coingate_order_token` and saves the payment. It then builds the
  creation request and creates the remote CoinGate order. The request carries:
  - the order's increment id;
  - the grand total with exactly two decimals;
  - the currencies;
  - a callback URL whose `token` query parameter is the stored token, and that same token again as a
    field of its own;
  - the cancel and success URLs and the website name;
  - a description built from the line items as `"<qty> × <name>"`, joined by `", "`.

  A configuration failure (a LocalizedException) or a CoinGate API error is logged and gives `null`.
- **Callback reconciliation** (`validateCoinGateCallback`). It fetches the remote order and compares its
  status exactly, case-sensitively:
  - `paid` moves the order to state *processing*, with the configured default status of that state,
    and saves it;
  - `invalid`, `expired`, `canceled` or `refunded` cancels the order named by the remote order's own
    `order_id`;
  - anything else does nothing.

  A missing remote order, and every exception, is logged and swallowed.
- **Client memoisation** (`getClient`). The API client is built from the configuration on first use
  and reused afterwards.

Layout:

- `results.dfy` (module `Results`): `Option` and `Result`.
- `number_format.dfy` (module `NumberFormat`): PHP's integer-to-string conversion, `number_format($q, 0)`
  for quantities and `number_format($x, 2, '.', '')` for amounts. Each has a parser that is proved to
  invert it.
- `description.dfy` (module `Description`): line-item entries and the `implode(', ')` join. It also
  holds the loop that collects the entries, and a split at `", "` that is proved to recover the entries.
- `coingate_payment.dfy` (module `CoinGatePayment`) contains:
  - the classes `Payment`, `Order`, `OrderPayment` and `Client`;
  - the request parameters and the status classification;
  - after module `CoinGatePayment`, a separate top-level module `CheckoutScenario`. It proves the outcome
    of a checkout followed by a `paid` callback from the contracts alone.

Collaborators are inputs to the methods:

- the CoinGate API's answers (`CreateResponse`, `FetchResponse`);
- whether a Magento repository save or an order cancel returned or threw (`CallResult`);
- the receive-currency and website lookups (a `Result` whose failure is a LocalizedException);
- the order-config default status (`OrderConfig`);
- the token.

Each save, remote creation, remote fetch, cancel and critical log line is recorded, in order, in the
`Payment.effects` log. The contracts state the resulting log exactly. The URL builder, configuration,
store, order-config and additional-information lookups are not logged: their answers appear in the
request or the order instead.
So "the payment is saved before any remote call", "no cancel is issued" and "nothing is saved" are all
statements about that log.

Three behaviours of the code are easy to assume otherwise, and the model follows the code in each:

- `paid` is applied whatever state the order is in, because no transition is guarded. An order whose
  state is `canceled` is moved back to processing by a `paid` callback. A second `paid` callback leaves
  the order in processing but saves it a second time. `CheckoutScenario.PaidCallbackReopensCanceledOrder`
  proves both from the contract of `ValidateCoinGateCallback`.
- The inbound token is never compared with the stored one.
- `getCoinGateOrder` does not catch everything. An exception from the payment save, or any exception
  from `create` other than `ApiErrorException`, propagates to the caller (`Raised` in the model).

## Model

| member | source | states |
|---|---|---|
| `CoinGatePayment.Payment.GetCoinGateOrder` | Model/Payment.php:96-145 | The token is written under `coingate_order_token` and the payment is saved first, whatever follows. If that save throws, the exception passes through and no request is built. A configuration failure logs its message, returns no order and sends no creation request (the client is not even built). Otherwise the client is obtained: it is the existing one, or, when none existed, a new client built from the configured API token and sandbox flag. Then the request `RequestParams` computes, over the stored token and the items' description, is sent once. Then an API error is logged and gives no order, another exception passes through, and success returns the created remote order. |
| `CoinGatePayment.Payment.ValidateCoinGateCallback` | Model/Payment.php:155-176 | Remote status `paid` sets the order's state to processing and its status to the config's default for processing, then saves it. No cancel is issued, and a failing save is only logged: a critical line with its message follows the save, and nothing is passed on. A cancel status cancels the remote order's `order_id`: the given order is unchanged and not saved, and a failing cancel is only logged, with its message, after the cancel. Any other status changes nothing and calls nothing. A missing remote order logs "CoinGate Order #<id> does not exist" and a fetch exception logs its message; in both cases the order is unchanged. Nothing is passed on to the caller. When no client existed, a new one is built from the configured API token and sandbox flag; otherwise the existing one is kept. |
| `CoinGatePayment.Payment.GetClient` | Model/Payment.php:183-191 | The first call builds a fresh client from the configured API token and sandbox flag. Every later call returns that same instance, and the field keeps it. |
| `CoinGatePayment.RequestParams` | Model/Payment.php:108-132 | Fails exactly when the receive-currency or website lookup throws, with the message of the first one that throws. On success, the top-level `token` and the callback URL's `token` query parameter are both the given token. The callback URL is the callback route with `token` as its only query parameter. The cancel and success URLs are their fixed routes with no query. `order_id` is the increment id, and `price_amount` is the two-decimal rendering of the grand total, which parses back to it. The currencies, the title and the description are the ones supplied. |
| `CoinGatePayment.Classify` | Model/Payment.php:165-172 | Gives "mark processing" exactly when the status is the string `paid`. Gives "cancel" exactly when the status is one of `invalid`, `expired`, `canceled` or `refunded`. Anything else, including other capitalisations, gives "ignore". |
| `CoinGatePayment.OrderPayment.SetAdditionalInformation` | Model/Payment.php:101 | Sets one key of the additional-information bag and leaves every other key as it was. |
| `Description.EntryReadsBack` | Model/Payment.php:105 | An entry ends with `" × "` and the item's name, and the text in front of them reads back as the item's quantity. |
| `Description.Join` | Model/Payment.php:125 | `implode(', ', …)` of no parts is the empty string; a join of one or more parts begins with the first part. Its inverse is `SplitJoin`. |
| `Description.BuildDescription` | Model/Payment.php:104-106 | The foreach collects the entries and implodes them. The result is the description of the items: one entry per item, in item order, and the empty string for no items. |
| `Description.Entries` | Model/Payment.php:104-106 | One entry per line item, in item order. Entry k is item k's quantity with no decimals, then `" × "`, then the item's name. |
| `Description.DescriptionSplitsIntoEntries` | Model/Payment.php:125 | Cutting a non-empty description at `", "` gives back exactly the items' entries, in order, when no item name contains `", "`. So the join loses and reorders nothing. |
| `Description.SplitJoin` | Model/Payment.php:125 | Splitting `implode(', ', parts)` at `", "` returns `parts` when no part contains `", "`. |
| `Description.EntryHasNoSeparator` | Model/Payment.php:105 | The rendered quantity never brings a `", "` into an entry: an entry contains `", "` only if the item's name does. |
| `Description.TwoItemDescription` | Model/Payment.php:104-106 | Items (2, Widget) and (1, Gadget) give `2 × Widget, 1 × Gadget`. |
| `NumberFormat.FormatQuantity` | Model/Payment.php:105 | The rendered quantity is non-empty and begins with `-` exactly when the quantity is negative; its first digit comes right after the sign. |
| `NumberFormat.FormatAmount` | Model/Payment.php:111 | The amount has exactly one `.`, followed by exactly two digits, and no `,` anywhere. |
| `NumberFormat.AmountRoundTrip` | Model/Payment.php:111 | The rendered amount reads back as the same number of cents, negative amounts included. |
| `NumberFormat.QuantityRoundTrip` | Model/Payment.php:105 | A quantity rendered with `,` thousands separators reads back as the same integer. |
| `NumberFormat.GroupThousandsShape` | Model/Payment.php:105 | In the grouped digits a `,` stands at every fourth position from the right and nowhere else, never first. Every other character is a digit. |
| `NumberFormat.GroupThousandsUngroups` | Model/Payment.php:105 | Removing the thousands separators gives back the digits that were grouped. |
| `NumberFormat.QuantityCommasPrecedeDigits` | Model/Payment.php:105 | In a rendered quantity every `,` is followed by a digit, and the last character is a digit. |
| `NumberFormat.NatDigits` | Model/Payment.php:111 | The digits of the whole part: at least one digit, with a leading `0` only for zero. |
| `NumberFormat.DigitsValueOfNatDigits` | Model/Payment.php:111 | The digits of n denote n. |
| `CoinGatePayment.NotFoundMessage` | Model/Payment.php:161-163 | The message begins with "CoinGate Order #" and ends with " does not exist", and what stands between them reads back as the request id. |
| `NumberFormat.IntToStringRoundTrip` | Model/Payment.php:162 | The request id in the "does not exist" message is written as a decimal integer that reads back as the id. |

## Left out

- Token generation (`md5((string)rand())`, cut to 32 characters) is hashing and randomness. The token is
  an input, required to be 32 lower-case hex characters. Its uniqueness is not modelled.
- The CoinGate HTTP client is network I/O. Its answers to `create` and `get` are inputs, and `Client` only
  records the credential and sandbox flag it was built with.
- The Magento URL builder is represented by what it is asked for: a route plus query parameters, not the
  URL text it would produce.
- The payment repository, order repository, order management and the PSR logger are represented only
  by the entries of the `effects` log. Whether a save or cancel throws is an input. What a cancel does
  to the order it names is not part of this model.
- The cancel receives the remote order's `order_id`, which the request filled with the order's increment
  id. This model does not decide whether Magento's cancel takes an increment id or an entity id:
  `OrderManagementInterface` is not part of this model.
- Floating point: the grand total is an integer number of cents and a quantity an integer number of
  units. PHP's float rounding in `number_format` is not modelled, and neither are fractional quantities.
- Exceptions from the URL builder, from the item and order getters, and from constructing the client
  are not modelled. Only the exceptions named above are.
- `validateCoinGateCallback` logs the exception object. The model logs its message.
- Strings are sequences of Unicode characters. The `×` of an entry is one character, whereas PHP
  writes it as two UTF-8 bytes.
- Concurrency and duplicate or out-of-order callback delivery are outside this sequential model. The
  source guards against neither, and no idempotence is claimed.
