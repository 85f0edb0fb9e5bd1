/** The payment gateway client: its configuration, read from the environment
    when the module is loaded, and the three HTTP requests it sends. The HTTP
    exchange itself is not modelled; its reply is an input of the payment routes. */
module Cashfree {
  import opened Wrappers
  import opened Strings
  import opened Environment
  import opened Records

  const SandboxUrl := "https://sandbox.cashfree.com/pg"
  const ProductionUrl := "https://api.cashfree.com/pg"
  const ApiVersion := "2023-08-01"

  datatype Header = Header(name: string, value: string)

  datatype CashfreeConfig = CashfreeConfig(
    isProduction: bool, baseUrl: string, appId: string, secretKey: string, headers: seq<Header>)

  /** The production switch: CASHFREE_ENV is exactly "PRODUCTION"; anything else,
      unset included, selects the sandbox. */
  predicate ProductionSelected(env: Env) {
    Equals(env, "CASHFREE_ENV", "PRODUCTION")
  }

  function AppIdVar(production: bool): string {
    if production then "CASHFREE_APP_ID_PROD" else "CASHFREE_APP_ID"
  }

  function SecretVar(production: bool): string {
    if production then "CASHFREE_SECRET_KEY_PROD" else "CASHFREE_SECRET_KEY"
  }

  /** The constructor: the mode picks the base URL and the pair of credential
      variables; a missing or empty credential is an error. */
  function NewCashfreeService(env: Env): (r: Result<CashfreeConfig, string>)
    ensures r.Success? <==> IsSet(env, AppIdVar(ProductionSelected(env))) && IsSet(env, SecretVar(ProductionSelected(env)))
    ensures r.Failure? ==> r.error == "Cashfree configuration missing"
    ensures r.Success? ==>
      && r.value.isProduction == ProductionSelected(env)
      && r.value.baseUrl == (if ProductionSelected(env) then ProductionUrl else SandboxUrl)
      && Lookup(env, AppIdVar(ProductionSelected(env))) == Some(r.value.appId) && r.value.appId != ""
      && Lookup(env, SecretVar(ProductionSelected(env))) == Some(r.value.secretKey) && r.value.secretKey != ""
      && r.value.headers == [Header("Content-Type", "application/json"), Header("x-api-version", ApiVersion),
                             Header("x-client-id", r.value.appId), Header("x-client-secret", r.value.secretKey)]
  {
    var production := ProductionSelected(env);
    var baseUrl := if production then ProductionUrl else SandboxUrl;
    var appId := Lookup(env, AppIdVar(production));
    var secretKey := Lookup(env, SecretVar(production));
    if !Truthy(appId) || !Truthy(secretKey) then Failure("Cashfree configuration missing")
    else
      Success(CashfreeConfig(production, baseUrl, appId.value, secretKey.value,
        [Header("Content-Type", "application/json"), Header("x-api-version", ApiVersion),
         Header("x-client-id", appId.value), Header("x-client-secret", secretKey.value)]))
  }

  datatype HttpMethod = Get | Post

  datatype HttpRequest = HttpRequest(
    verb: HttpMethod, url: string, headers: seq<Header>, body: Option<GatewayOrderRequest>)

  /** `createOrder`: POST of the order body to `/orders`. */
  function CreateOrderCall(c: CashfreeConfig, body: GatewayOrderRequest): (r: HttpRequest)
    ensures r.verb == Post && r.url == c.baseUrl + "/orders" && r.headers == c.headers && r.body == Some(body)
  {
    HttpRequest(Post, c.baseUrl + "/orders", c.headers, Some(body))
  }

  /** `getOrderStatus`: GET `/orders/{orderId}`. */
  function OrderStatusCall(c: CashfreeConfig, orderId: string): (r: HttpRequest)
    ensures r.verb == Get && r.url == c.baseUrl + "/orders/" + orderId && r.headers == c.headers && r.body.None?
  {
    HttpRequest(Get, c.baseUrl + "/orders/" + orderId, c.headers, None)
  }

  /** `getPaymentDetails`: GET `/orders/{orderId}/payments/{paymentId}`. */
  function PaymentDetailsCall(c: CashfreeConfig, orderId: string, paymentId: string): (r: HttpRequest)
    ensures r.verb == Get && r.url == c.baseUrl + "/orders/" + orderId + "/payments/" + paymentId
    ensures r.headers == c.headers && r.body.None?
  {
    HttpRequest(Get, c.baseUrl + "/orders/" + orderId + "/payments/" + paymentId, c.headers, None)
  }

  /** The path below the base URL. */
  function PathOf(c: CashfreeConfig, r: HttpRequest): string
    requires |c.baseUrl| <= |r.url|
  {
    r.url[|c.baseUrl|..]
  }

  /** Order creation posts the body, with the configured headers, to the path `/orders`. */
  lemma CreateOrderCallPath(c: CashfreeConfig, body: GatewayOrderRequest)
    ensures var r := CreateOrderCall(c, body);
      && r.verb == Post && r.headers == c.headers && r.body == Some(body)
      && |c.baseUrl| <= |r.url| && Split(PathOf(c, r), '/') == ["", "orders"]
  {
    var r := CreateOrderCall(c, body);
    assert PathOf(c, r) == "/orders";
    SplitOfSlashWord("orders");
  }

  lemma SplitOfSlashWord(w: string)
    requires '/' !in w
    ensures Split("/" + w, '/') == ["", w]
  {
    assert "/" + w == "" + ['/'] + w;
    SplitAfterWord("", '/', w);
    SplitOfWord(w, '/');
  }

  /** The status request's path segments read back the order id when it is free of '/'. */
  lemma OrderStatusCallPath(c: CashfreeConfig, orderId: string)
    requires '/' !in orderId
    ensures var r := OrderStatusCall(c, orderId);
      && r.verb == Get && r.headers == c.headers
      && |c.baseUrl| <= |r.url| && Split(PathOf(c, r), '/') == ["", "orders", orderId]
  {
    var r := OrderStatusCall(c, orderId);
    var inner := "orders" + ['/'] + orderId;
    assert PathOf(c, r) == "" + ['/'] + inner;
    SplitAfterWord("", '/', inner);
    SplitAfterWord("orders", '/', orderId);
    SplitOfWord(orderId, '/');
  }

  /** The payment request's path segments read back both ids when they are free of '/'. */
  lemma PaymentDetailsCallPath(c: CashfreeConfig, orderId: string, paymentId: string)
    requires '/' !in orderId && '/' !in paymentId
    ensures var r := PaymentDetailsCall(c, orderId, paymentId);
      && r.verb == Get && r.headers == c.headers
      && |c.baseUrl| <= |r.url| && Split(PathOf(c, r), '/') == ["", "orders", orderId, "payments", paymentId]
  {
    var r := PaymentDetailsCall(c, orderId, paymentId);
    var tail := "payments" + ['/'] + paymentId;
    var mid := orderId + ['/'] + tail;
    var inner := "orders" + ['/'] + mid;
    assert PathOf(c, r) == "" + ['/'] + inner;
    SplitAfterWord("", '/', inner);
    SplitAfterWord("orders", '/', mid);
    SplitAfterWord(orderId, '/', tail);
    SplitAfterWord("payments", '/', paymentId);
    SplitOfWord(paymentId, '/');
  }
}
