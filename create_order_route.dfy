/** The payment endpoint that creates an order with the payment gateway: it
    validates the amount, requires gateway credentials, settles the public
    URL of the application, picks the sandbox or production gateway from the
    shape of the credentials, refuses production with a plain-HTTP localhost
    URL, builds the order and maps the gateway's errors to HTTP statuses. The
    gateway call is not modelled; its outcome is a parameter, and so is the
    order id, which the endpoint draws from the clock and a random number. */
module CreateOrderRoute {
  import opened Wrappers
  import opened JsString

  /** The `amount` of the request body: a number, or missing (`undefined`
      or `null`). */
  datatype Amount = AmountNumber(value: real) | AmountMissing

  /** The request body, or the message of the error thrown while reading it. */
  datatype RequestBody =
    | Body(amount: Amount, planName: string, planId: string)
    | Unreadable(message: string)

  /** The settings the endpoint reads from its environment. */
  datatype Env = Env(
    clientId: Option<string>, clientSecret: Option<string>,
    appUrl: Option<string>, vercelUrl: Option<string>)

  /** JavaScript falsiness of the amount (`!amount`): missing, or the number 0. */
  predicate AmountFalsy(amount: Amount) {
    amount.AmountMissing? || amount.value == 0.0
  }

  /** `!amount || amount < 1`, as written: the second test is only reached
      for a truthy amount, which is a number. */
  predicate AmountInvalid(amount: Amount) {
    AmountFalsy(amount) || amount.value < 1.0
  }

  /** The falsiness test adds nothing to `amount < 1`: an amount is refused
      exactly when it is missing or a number below 1, and accepted exactly
      when it is a number of at least 1. */
  lemma AmountValidIff(amount: Amount)
    ensures AmountInvalid(amount) <==> amount.AmountMissing? || amount.value < 1.0
    ensures !AmountInvalid(amount) <==> amount.AmountNumber? && amount.value >= 1.0
  {
    if AmountFalsy(amount) && amount.AmountNumber? {
      assert amount.value == 0.0 < 1.0;
    }
  }

  const FallbackAppUrl := "https://chefdhundo.vercel.app/"

  /** Whether a configured application URL is replaced: missing, empty, or
      pointing at the gateway's own domain. */
  predicate AppUrlRejected(appUrl: Option<string>) {
    !Present(appUrl) || Includes(appUrl.value, "cashfree.com") || Includes(appUrl.value, "api.cashfree.com")
  }

  /** The `api.cashfree.com` test adds nothing: whatever contains it contains
      `cashfree.com`. */
  lemma GatewayApiDomainIsCovered(url: string)
    requires Includes(url, "api.cashfree.com")
    ensures Includes(url, "cashfree.com")
  {
    var api := "api.cashfree.com";
    assert api[4..16] == "cashfree.com";
    assert OccursAt(api, "cashfree.com", 4);
    IncludesTransitive(url, api, "cashfree.com");
  }

  /** `finalAppUrl`: the configured URL unless it is rejected; then the
      deployment's host over HTTPS when known, else the fixed fallback. */
  function FinalAppUrl(appUrl: Option<string>, vercelUrl: Option<string>): (u: string)
    ensures u != ""
    ensures !AppUrlRejected(appUrl) ==> u == appUrl.value
    ensures AppUrlRejected(appUrl) && Present(vercelUrl) ==> u == "https://" + vercelUrl.value
    ensures AppUrlRejected(appUrl) && !Present(vercelUrl) ==> u == FallbackAppUrl
  {
    if AppUrlRejected(appUrl) then
      (if Present(vercelUrl) then "https://" + vercelUrl.value else FallbackAppUrl)
    else appUrl.value
  }

  datatype GatewayEnvironment = Sandbox | Production

  /** The credentials look like test credentials. */
  predicate IsTestCredentials(clientId: string, clientSecret: string) {
    StartsWith(clientId, "TEST_") || StartsWith(clientSecret, "cfsk_test_")
  }

  /** Production with a plain-HTTP localhost application URL. */
  predicate HttpLocalhostRejected(isTest: bool, finalAppUrl: string) {
    !isTest && finalAppUrl != "" && Includes(finalAppUrl, "localhost") && StartsWith(finalAppUrl, "http://")
  }

  /** The order the endpoint asks the gateway to create. */
  datatype OrderRequest = OrderRequest(
    order_amount: real, order_currency: string,
    customer_id: string, customer_name: string, customer_email: string, customer_phone: string,
    return_url: string, notify_url: string, order_note: string,
    plan_type: string, plan_id: string)

  /** The order for `amount`, paid back to `finalAppUrl`. */
  function BuildOrder(amount: real, planName: string, planId: string, orderId: string, finalAppUrl: string): (o: OrderRequest)
    ensures o.order_amount == amount && o.order_currency == "INR" && o.customer_id == orderId
    ensures StartsWith(o.return_url, finalAppUrl) && StartsWith(o.notify_url, finalAppUrl)
    ensures o.return_url[|finalAppUrl|..] == "/payment/success?order_id=" + orderId
    ensures o.notify_url[|finalAppUrl|..] == "/api/payment/webhook"
    ensures o.order_note == "Upgrade to " + planName && o.plan_type == planName && o.plan_id == planId
  {
    var returnUrl := finalAppUrl + "/payment/success?order_id=" + orderId;
    var notifyUrl := finalAppUrl + "/api/payment/webhook";
    assert returnUrl[..|finalAppUrl|] == finalAppUrl && returnUrl[|finalAppUrl|..] == "/payment/success?order_id=" + orderId;
    assert notifyUrl[..|finalAppUrl|] == finalAppUrl;
    OrderRequest(amount, "INR", orderId, "User Name", "user@example.com", "9999999999",
                 returnUrl, notifyUrl, "Upgrade to " + planName, planName, planId)
  }

  /** With the fixed fallback, which ends in a slash, the payment-return URL
      gets a doubled slash between the host and its path. */
  lemma FallbackReturnUrlHasDoubleSlash(env: Env, amount: real, planName: string, planId: string, orderId: string)
    requires AppUrlRejected(env.appUrl) && !Present(env.vercelUrl)
    ensures var u := BuildOrder(amount, planName, planId, orderId, FinalAppUrl(env.appUrl, env.vercelUrl)).return_url;
      StartsWith(u, FallbackAppUrl) && u[|FallbackAppUrl| - 1] == '/' && u[|FallbackAppUrl|] == '/'
  {
    var o := BuildOrder(amount, planName, planId, orderId, FallbackAppUrl);
    assert o.return_url[|FallbackAppUrl|..][0] == '/';
  }

  /** The outcome of the gateway's create-order call: the session it opened,
      an HTTP error response with its status, or another thrown error with its
      message (`None` when what was thrown is not an `Error`). */
  datatype GatewayOutcome =
    | GatewayOk(paymentSessionId: string)
    | GatewayHttpError(status: int, message: string)
    | GatewayThrew(thrownMessage: Option<string>)

  /** What the endpoint answers. */
  datatype OrderResponse =
    | Failure(status: int, error: string)
    | Created(orderId: string, paymentSessionId: string)

  /** The endpoint's answer with the gateway call it made, if any. */
  datatype CreateOrderResult = CreateOrderResult(
    response: OrderResponse, call: Option<(GatewayEnvironment, OrderRequest)>)

  const InvalidAmountMessage := "Invalid amount. Amount must be at least ₹1."
  const MissingCredentialsMessage :=
    "Cashfree credentials not found. Please set CASHFREE_CLIENT_ID and CASHFREE_CLIENT_SECRET environment variables."
  const HttpInProductionMessage :=
    "Production credentials detected but using HTTP URLs. Cashfree requires HTTPS in production."
  const AuthFailedMessage :=
    "Authentication failed. Please check your Cashfree credentials (CASHFREE_CLIENT_ID and CASHFREE_CLIENT_SECRET)."
  const InvalidOrderMessage := "Invalid order request. Please check the order details."

  /** The `catch` block: a 401 or 400 from the gateway keeps its status, any
      other error is a 500 carrying the error's message. */
  function MapGatewayError(outcome: GatewayOutcome): (r: OrderResponse)
    requires !outcome.GatewayOk?
    ensures r.Failure?
    ensures outcome.GatewayHttpError? && outcome.status in {400, 401} ==> r.status == outcome.status
    ensures !(outcome.GatewayHttpError? && outcome.status in {400, 401}) ==> r.status == 500
  {
    match outcome
    case GatewayHttpError(status, message) =>
      if status == 401 then Failure(401, AuthFailedMessage)
      else if status == 400 then Failure(400, InvalidOrderMessage)
      else Failure(500, message)
    case GatewayThrew(thrownMessage) => Failure(500, thrownMessage.GetOr("Unknown error"))
  }

  /** `POST /api/payment/create-order` */
  function CreateOrder(body: RequestBody, env: Env, orderId: string, gateway: GatewayOutcome): (r: CreateOrderResult)
    ensures body.Unreadable? ==> r == CreateOrderResult(Failure(500, body.message), None)
    ensures body.Body? && AmountInvalid(body.amount) ==> r == CreateOrderResult(Failure(400, InvalidAmountMessage), None)
    ensures body.Body? && !AmountInvalid(body.amount) && !(Present(env.clientId) && Present(env.clientSecret)) ==>
      r == CreateOrderResult(Failure(500, MissingCredentialsMessage), None)
    ensures r.call.Some? ==>
      && body.Body? && !AmountInvalid(body.amount) && Present(env.clientId) && Present(env.clientSecret)
      && var final := FinalAppUrl(env.appUrl, env.vercelUrl);
      && (r.call.value.0 == Sandbox <==> IsTestCredentials(env.clientId.value, env.clientSecret.value))
      && !HttpLocalhostRejected(r.call.value.0 == Sandbox, final)
      && r.call.value.1 == BuildOrder(body.amount.value, body.planName, body.planId, orderId, final)
    ensures body.Body? && !AmountInvalid(body.amount) && Present(env.clientId) && Present(env.clientSecret) ==>
      && var rejected := HttpLocalhostRejected(IsTestCredentials(env.clientId.value, env.clientSecret.value), FinalAppUrl(env.appUrl, env.vercelUrl));
      && (r.call.Some? <==> !rejected)
      && (rejected ==> r == CreateOrderResult(Failure(400, HttpInProductionMessage), None))
    ensures r.response.Created? ==> r.call.Some? && gateway.GatewayOk? && r.response == Created(orderId, gateway.paymentSessionId)
    ensures r.call.Some? && gateway.GatewayOk? ==> r.response == Created(orderId, gateway.paymentSessionId)
    ensures r.call.Some? && !gateway.GatewayOk? ==> r.response == MapGatewayError(gateway)
  {
    match body
    case Unreadable(message) => CreateOrderResult(Failure(500, message), None)
    case Body(amount, planName, planId) =>
      if AmountInvalid(amount) then CreateOrderResult(Failure(400, InvalidAmountMessage), None)
      else if !Present(env.clientId) || !Present(env.clientSecret) then
        CreateOrderResult(Failure(500, MissingCredentialsMessage), None)
      else
        var final := FinalAppUrl(env.appUrl, env.vercelUrl);
        var isTest := IsTestCredentials(env.clientId.value, env.clientSecret.value);
        if HttpLocalhostRejected(isTest, final) then CreateOrderResult(Failure(400, HttpInProductionMessage), None)
        else
          var call := (if isTest then Sandbox else Production, BuildOrder(amount.value, planName, planId, orderId, final));
          match gateway
          case GatewayOk(session) => CreateOrderResult(Created(orderId, session), Some(call))
          case _ => CreateOrderResult(MapGatewayError(gateway), Some(call))
  }

  /** Production credentials with a plain-HTTP application URL that mentions
      `localhost` anywhere are refused with a 400 before any order reaches
      the gateway. */
  lemma HttpLocalhostRefusedBeforeGateway(planName: string, planId: string, value: real, env: Env, orderId: string, gateway: GatewayOutcome)
    requires value >= 1.0 && Present(env.clientId) && Present(env.clientSecret)
    requires !IsTestCredentials(env.clientId.value, env.clientSecret.value)
    requires Present(env.appUrl) && StartsWith(env.appUrl.value, "http://") && Includes(env.appUrl.value, "localhost")
    requires !Includes(env.appUrl.value, "cashfree.com")
    ensures CreateOrder(Body(AmountNumber(value), planName, planId), env, orderId, gateway) ==
      CreateOrderResult(Failure(400, HttpInProductionMessage), None)
  {
    var url := env.appUrl.value;
    if Includes(url, "api.cashfree.com") {
      GatewayApiDomainIsCovered(url);
    }
    assert FinalAppUrl(env.appUrl, env.vercelUrl) == url;
  }
}
