/**
  The CoinGate payment model of the Magento plugin (class `Payment`): it
  builds and submits the remote order for a Magento order, reconciles a
  CoinGate status callback into the local order, and keeps one lazily built
  API client.

  Everything the class delegates to is an input here. The CoinGate API's
  answers (`CreateResponse`, `FetchResponse`), the outcome of the Magento
  repository and order-management calls (`CallResult`), the configuration
  and store lookups (a `Result`, whose failure is a LocalizedException) and
  the order token are given to the methods. Its saves, remote creations and
  fetches, cancels and critical log lines are recorded, in order, in its
  `effects` log.
*/
module CoinGatePayment {
  import opened Results
  import opened NumberFormat
  import opened Description

  const COINGATE_ORDER_TOKEN_KEY := "coingate_order_token"
  const PAID_STATUS := "paid"
  const STATUSES_FOR_CANCEL: seq<string> := ["invalid", "expired", "canceled", "refunded"]

  /** Magento's `Order::STATE_PROCESSING`. */
  const STATE_PROCESSING := "processing"

  const CALLBACK_ROUTE := "coingate/payment/callback"
  const CANCEL_ROUTE := "coingate/payment/cancelOrder"
  const SUCCESS_ROUTE := "checkout/onepage/success"

  /** An md5 hex digest: 32 lower-case hexadecimal characters. */
  predicate IsToken(t: string) {
    |t| == 32 && forall i :: 0 <= i < |t| ==> '0' <= t[i] <= '9' || 'a' <= t[i] <= 'f'
  }

  /** A URL as the URL builder is asked for it: a route and its query parameters. */
  datatype Url = Url(route: string, query: map<string, string>)

  /** The token a callback to this URL carries in its query. */
  function CallbackToken(url: Url): Option<string> {
    if "token" in url.query then Some(url.query["token"]) else None
  }

  /** The parameters of the remote order-creation request. */
  datatype CreateParams = CreateParams(
    orderId: string,
    priceAmount: string,
    priceCurrency: string,
    receiveCurrency: string,
    callbackUrl: Url,
    cancelUrl: Url,
    successUrl: Url,
    title: string,
    description: string,
    token: string)

  /** An order as CoinGate holds it; `orderId` echoes the `order_id` it was created with. */
  datatype RemoteOrder = RemoteOrder(id: int, orderId: string, status: string, paymentUrl: string)

  /** The answer of the API client's order creation: the new order, or an exception. */
  datatype CreateResponse =
    | Created(remote: RemoteOrder)
    | ApiError(message: string)    // ApiErrorException
    | OtherError(message: string)  // any other exception

  /** The answer of the API client's order lookup: the order, nothing, or an exception. */
  datatype FetchResponse =
    | Fetched(remote: RemoteOrder)
    | NotFound
    | FetchFailed(message: string)

  /** Whether a call into Magento (a repository save, an order cancel) returned or threw. */
  datatype CallResult = Completed | Threw(message: string)

  /** The outcome of `getCoinGateOrder`: the created order, `null`, or an exception it lets through. */
  datatype Initiation = Initiated(remote: RemoteOrder) | NoOrder | Raised(message: string)

  /** The calls the class makes into its collaborators. */
  datatype Effect =
    | SavePayment(additionalInformation: map<string, string>)
    | CreateRemoteOrder(params: CreateParams)
    | GetRemoteOrder(requestId: int)
    | SaveOrder(incrementId: string, state: string, status: string)
    | CancelOrder(orderId: string)
    | LogCritical(message: string)

  /** The merchant configuration; reading the receive currency may throw a LocalizedException. */
  datatype ConfigManagement = ConfigManagement(
    apiAuthToken: string,
    sandboxMode: bool,
    receiveCurrency: Result<string, string>)

  /** The store manager; reading the website may throw a LocalizedException. */
  datatype StoreManager = StoreManager(websiteName: Result<string, string>)

  /** Magento's order configuration: the default status of each order state. */
  datatype OrderConfig = OrderConfig(stateDefaultStatus: string -> string)

  const NOT_FOUND_PREFIX := "CoinGate Order #"
  const NOT_FOUND_SUFFIX := " does not exist"

  /** The message of the exception thrown when CoinGate has no order for the request id. */
  function NotFoundMessage(requestId: int): (m: string)
    ensures |m| > |NOT_FOUND_PREFIX| + |NOT_FOUND_SUFFIX|
    ensures m[..|NOT_FOUND_PREFIX|] == NOT_FOUND_PREFIX && m[|m| - |NOT_FOUND_SUFFIX|..] == NOT_FOUND_SUFFIX
    ensures ParseInt(m[|NOT_FOUND_PREFIX|..|m| - |NOT_FOUND_SUFFIX|]) == Some(requestId)
  {
    IntToStringRoundTrip(requestId);
    NOT_FOUND_PREFIX + IntToString(requestId) + NOT_FOUND_SUFFIX
  }

  /** The log written after a call: one critical line with the exception's message if it threw, nothing otherwise. */
  function LoggedFailure(result: CallResult): seq<Effect> {
    if result.Threw? then [LogCritical(result.message)] else []
  }

  /** The payment attached to a Magento order, with its additional-information bag. */
  class OrderPayment {
    var additionalInformation: map<string, string>

    constructor(additionalInformation: map<string, string>)
      ensures this.additionalInformation == additionalInformation
    {
      this.additionalInformation := additionalInformation;
    }

    method SetAdditionalInformation(key: string, value: string)
      modifies this
      ensures additionalInformation == old(additionalInformation)[key := value]
    {
      additionalInformation := additionalInformation[key := value];
    }
  }

  /** A Magento order: fixed identity, amount and items, and a mutable state and status. */
  class Order {
    const incrementId: string
    const grandTotalCents: int
    const orderCurrencyCode: string
    const items: seq<Item>
    const payment: OrderPayment
    const config: OrderConfig
    var state: string
    var status: string

    constructor(incrementId: string, grandTotalCents: int, orderCurrencyCode: string, items: seq<Item>,
                payment: OrderPayment, config: OrderConfig, state: string, status: string)
      ensures this.incrementId == incrementId && this.grandTotalCents == grandTotalCents
      ensures this.orderCurrencyCode == orderCurrencyCode && this.items == items
      ensures this.payment == payment && this.config == config
      ensures this.state == state && this.status == status
    {
      this.incrementId := incrementId;
      this.grandTotalCents := grandTotalCents;
      this.orderCurrencyCode := orderCurrencyCode;
      this.items := items;
      this.payment := payment;
      this.config := config;
      this.state := state;
      this.status := status;
    }
  }

  /** The CoinGate API client, bound to a credential and an environment. */
  class Client {
    const apiAuthToken: string
    const sandboxMode: bool

    constructor(apiAuthToken: string, sandboxMode: bool)
      ensures this.apiAuthToken == apiAuthToken && this.sandboxMode == sandboxMode
    {
      this.apiAuthToken := apiAuthToken;
      this.sandboxMode := sandboxMode;
    }
  }

  /**
    The parameter array of the creation request. It fails with the message of
    the first configuration lookup that throws (receive currency, then
    website); otherwise the token appears both as a field and as the callback
    URL's `token` query parameter, and the amount reads back as the order total.
  */
  function RequestParams(order: Order, configManagement: ConfigManagement, storeManager: StoreManager,
                         token: string, description: string): (r: Result<CreateParams, string>)
    ensures r.Failure? <==> configManagement.receiveCurrency.Failure? || storeManager.websiteName.Failure?
    ensures configManagement.receiveCurrency.Failure? ==>
      r == Failure(configManagement.receiveCurrency.error)
    ensures configManagement.receiveCurrency.Success? && storeManager.websiteName.Failure? ==>
      r == Failure(storeManager.websiteName.error)
    ensures r.Success? ==>
      && r.value.token == token
      && CallbackToken(r.value.callbackUrl) == Some(r.value.token)
      && r.value.callbackUrl == Url(CALLBACK_ROUTE, map["token" := token])
      && r.value.cancelUrl == Url(CANCEL_ROUTE, map[])
      && r.value.successUrl == Url(SUCCESS_ROUTE, map[])
      && r.value.orderId == order.incrementId
      && r.value.priceAmount == FormatAmount(order.grandTotalCents)
      && ParseAmount(r.value.priceAmount) == Some(order.grandTotalCents)
      && r.value.priceCurrency == order.orderCurrencyCode
      && r.value.receiveCurrency == configManagement.receiveCurrency.value
      && r.value.title == storeManager.websiteName.value
      && r.value.description == description
  {
    match configManagement.receiveCurrency
    case Failure(e) => Failure(e)
    case Success(receiveCurrency) =>
      match storeManager.websiteName
      case Failure(e) => Failure(e)
      case Success(title) =>
        AmountRoundTrip(order.grandTotalCents);
        Success(CreateParams(
          orderId := order.incrementId,
          priceAmount := FormatAmount(order.grandTotalCents),
          priceCurrency := order.orderCurrencyCode,
          receiveCurrency := receiveCurrency,
          callbackUrl := Url(CALLBACK_ROUTE, map["token" := token]),
          cancelUrl := Url(CANCEL_ROUTE, map[]),
          successUrl := Url(SUCCESS_ROUTE, map[]),
          title := title,
          description := description,
          token := token))
  }

  /** The remote status picks one of three actions on the local order. */
  datatype CallbackAction = MarkProcessing | CancelByRemoteId | Ignore

  /** Exact, case-sensitive comparison with 'paid' and with the four cancel statuses. */
  function Classify(status: string): (a: CallbackAction)
    ensures a == MarkProcessing <==> status == "paid"
    ensures a == CancelByRemoteId <==>
      status == "invalid" || status == "expired" || status == "canceled" || status == "refunded"
  {
    if status == PAID_STATUS then MarkProcessing
    else if status in STATUSES_FOR_CANCEL then CancelByRemoteId
    else Ignore
  }

  class Payment {
    const configManagement: ConfigManagement
    const storeManager: StoreManager
    var client: Client?
    var effects: seq<Effect>

    constructor(configManagement: ConfigManagement, storeManager: StoreManager)
      ensures this.configManagement == configManagement && this.storeManager == storeManager
      ensures client == null && effects == []
    {
      this.configManagement := configManagement;
      this.storeManager := storeManager;
      client := null;
      effects := [];
    }

    /** The client is built from the configuration on first use and the same one is returned afterwards. */
    method GetClient() returns (c: Client)
      modifies this`client
      ensures client == c
      ensures old(client) != null ==> c == old(client)
      ensures old(client) == null ==>
        fresh(c) && c.apiAuthToken == configManagement.apiAuthToken && c.sandboxMode == configManagement.sandboxMode
    {
      if client == null {
        client := new Client(configManagement.apiAuthToken, configManagement.sandboxMode);
      }
      c := client;
    }

    /**
      Stores the token on the order's payment and saves the payment, then
      builds the request and creates the remote order. A configuration failure
      or an API error is logged and gives `NoOrder`; no request is sent after a
      configuration failure. A failing payment save or any other exception
      from the API passes through as `Raised`.
    */
    method GetCoinGateOrder(order: Order, token: string, paymentSave: CallResult, created: CreateResponse)
      returns (r: Initiation)
      requires IsToken(token)
      modifies this, order.payment
      ensures order.payment.additionalInformation ==
        old(order.payment.additionalInformation)[COINGATE_ORDER_TOKEN_KEY := token]
      ensures paymentSave.Threw? ==>
        && r == Raised(paymentSave.message)
        && effects == old(effects) + [SavePayment(order.payment.additionalInformation)]
        && client == old(client)
      ensures paymentSave.Completed? ==>
        var saved := old(effects) + [SavePayment(order.payment.additionalInformation)];
        var params := RequestParams(order, configManagement, storeManager, token, DescriptionOf(order.items));
        && (params.Failure? ==>
              r == NoOrder && effects == saved + [LogCritical(params.error)] && client == old(client))
        && (params.Success? ==>
              && client != null && (old(client) != null ==> client == old(client))
              && (old(client) == null ==>
                    && fresh(client)
                    && client.apiAuthToken == configManagement.apiAuthToken
                    && client.sandboxMode == configManagement.sandboxMode)
              && (created.Created? ==>
                    r == Initiated(created.remote) && effects == saved + [CreateRemoteOrder(params.value)])
              && (created.ApiError? ==>
                    r == NoOrder && effects == saved + [CreateRemoteOrder(params.value), LogCritical(created.message)])
              && (created.OtherError? ==>
                    r == Raised(created.message) && effects == saved + [CreateRemoteOrder(params.value)]))
    {
      var payment := order.payment;
      payment.SetAdditionalInformation(COINGATE_ORDER_TOKEN_KEY, token);
      effects := effects + [SavePayment(payment.additionalInformation)];
      if paymentSave.Threw? {
        return Raised(paymentSave.message);
      }

      var description := BuildDescription(order.items);

      var storedToken := payment.additionalInformation[COINGATE_ORDER_TOKEN_KEY];
      var params := RequestParams(order, configManagement, storeManager, storedToken, description);
      if params.Failure? {
        effects := effects + [LogCritical(params.error)];
        return NoOrder;
      }

      var c := GetClient();
      effects := effects + [CreateRemoteOrder(params.value)];
      match created
      case Created(remote) =>
        r := Initiated(remote);
      case ApiError(message) =>
        effects := effects + [LogCritical(message)];
        r := NoOrder;
      case OtherError(message) =>
        r := Raised(message);
    }

    /**
      Fetches the remote order and applies its status: 'paid' moves the order
      to processing with the configured default status and saves it; a cancel
      status cancels the order named by the remote order's own `order_id`,
      leaving the given order untouched; any other status does nothing. A
      missing remote order and every exception are logged, never passed on.
    */
    method ValidateCoinGateCallback(order: Order, requestId: int, fetched: FetchResponse,
                                    orderSave: CallResult, cancel: CallResult)
      modifies this, order
      ensures client != null && (old(client) != null ==> client == old(client))
      ensures old(client) == null ==>
        fresh(client) && client.apiAuthToken == configManagement.apiAuthToken
        && client.sandboxMode == configManagement.sandboxMode
      ensures fetched.Fetched? && fetched.remote.status == PAID_STATUS ==>
        && order.state == STATE_PROCESSING
        && order.status == order.config.stateDefaultStatus(STATE_PROCESSING)
        && effects == old(effects) + [GetRemoteOrder(requestId), SaveOrder(order.incrementId, order.state, order.status)]
                      + LoggedFailure(orderSave)
      ensures fetched.Fetched? && fetched.remote.status in STATUSES_FOR_CANCEL ==>
        && unchanged(order)
        && effects == old(effects) + [GetRemoteOrder(requestId), CancelOrder(fetched.remote.orderId)]
                      + LoggedFailure(cancel)
      ensures fetched.Fetched? && fetched.remote.status != PAID_STATUS && fetched.remote.status !in STATUSES_FOR_CANCEL ==>
        unchanged(order) && effects == old(effects) + [GetRemoteOrder(requestId)]
      ensures fetched.NotFound? ==>
        unchanged(order) && effects == old(effects) + [GetRemoteOrder(requestId), LogCritical(NotFoundMessage(requestId))]
      ensures fetched.FetchFailed? ==>
        unchanged(order) && effects == old(effects) + [GetRemoteOrder(requestId), LogCritical(fetched.message)]
    {
      var c := GetClient();
      effects := effects + [GetRemoteOrder(requestId)];
      match fetched
      case FetchFailed(message) =>
        effects := effects + [LogCritical(message)];
      case NotFound =>
        effects := effects + [LogCritical(NotFoundMessage(requestId))];
      case Fetched(remote) =>
        match Classify(remote.status)
        case MarkProcessing =>
          order.state := STATE_PROCESSING;
          order.status := order.config.stateDefaultStatus(STATE_PROCESSING);
          effects := effects + [SaveOrder(order.incrementId, order.state, order.status)] + LoggedFailure(orderSave);
        case CancelByRemoteId =>
          effects := effects + [CancelOrder(remote.orderId)] + LoggedFailure(cancel);
        case Ignore =>
    }
  }
}

/** A checkout followed by a 'paid' callback, using only the contracts above. */
module CheckoutScenario {
  import opened Results
  import opened NumberFormat
  import opened Description
  import opened CoinGatePayment

  method PaidOrderBecomesProcessing(token: string)
    requires IsToken(token)
  {
    var config := ConfigManagement("api-token", true, Success("BTC"));
    var gateway := new Payment(config, StoreManager(Success("Main Website")));
    var payment := new OrderPayment(map[]);
    var orderConfig := OrderConfig(state => if state == STATE_PROCESSING then "processing" else "pending");
    var order := new Order("1000123", 4950, "USD", [Item(2, "Widget"), Item(1, "Gadget")],
                           payment, orderConfig, "new", "pending");
    var remote := RemoteOrder(77, "1000123", "new", "https://pay.example/77");

    var r := gateway.GetCoinGateOrder(order, token, Completed, Created(remote));
    assert r == Initiated(remote);
    assert payment.additionalInformation[COINGATE_ORDER_TOKEN_KEY] == token;
    var params := RequestParams(order, config, gateway.storeManager, token, DescriptionOf(order.items));
    assert gateway.effects == [SavePayment(payment.additionalInformation), CreateRemoteOrder(params.value)];
    assert ParseAmount(params.value.priceAmount) == Some(4950);
    CheckoutAmount();
    assert params.value.priceAmount == "49.50";
    var first := gateway.client;

    gateway.ValidateCoinGateCallback(order, 77, Fetched(remote.(status := "paid")), Completed, Completed);
    assert order.state == "processing" && order.status == "processing";
    assert gateway.client == first;
  }

  /** A 'paid' callback reopens a canceled order, and a repeated one saves the order again. */
  method PaidCallbackReopensCanceledOrder()
  {
    var config := ConfigManagement("api-token", false, Success("BTC"));
    var gateway := new Payment(config, StoreManager(Success("Main Website")));
    var payment := new OrderPayment(map[]);
    var orderConfig := OrderConfig(state => if state == STATE_PROCESSING then "processing" else "canceled");
    var order := new Order("1000124", 100, "EUR", [], payment, orderConfig, "canceled", "canceled");
    var paid := Fetched(RemoteOrder(78, "1000124", "paid", "https://pay.example/78"));

    gateway.ValidateCoinGateCallback(order, 78, paid, Completed, Completed);
    assert order.state == STATE_PROCESSING;
    gateway.ValidateCoinGateCallback(order, 78, paid, Completed, Completed);
    assert order.state == STATE_PROCESSING;
    var save := SaveOrder("1000124", "processing", "processing");
    assert gateway.effects == [GetRemoteOrder(78), save, GetRemoteOrder(78), save];
  }

  /** The grand total of the scenario, 4950 cents, is sent as "49.50". */
  lemma CheckoutAmount()
    ensures FormatAmount(4950) == "49.50"
  {
    assert NatDigits(49) == NatDigits(4) + [DigitChar(9)];
    assert NatDigits(4) == ['4'];
    assert [DigitChar(5), DigitChar(0)] == "50";
  }
}
