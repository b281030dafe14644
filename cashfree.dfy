/** The Cashfree adapter (src/providers/cashfree.provider.ts): the environment's API URL, order
    creation over Cashfree's orders endpoint, and the base64 HMAC-SHA256 check of a payment
    signature. */
module Cashfree {
  import opened Wrappers
  import opened Types
  import Errors
  import Text
  import Digest
  import BaseProvider

  const ProductionUrl := "https://api.cashfree.com"
  const SandboxUrl := "https://sandbox.cashfree.com"

  /** The `fetch` call: URL, the credential headers and the JSON body. */
  datatype Request = Request(url: string, clientId: string, clientSecret: string, apiVersion: string, body: string)

  /** What comes back: `response.ok` and the parsed JSON body. */
  datatype Reply = Reply(ok: bool, data: CashfreeData)

  /** `fetch` followed by `response.json()`; either may fail. */
  type Transport = Request -> Result<Reply, Errors.Fault>

  /** The JSON document `createOrder` posts. */
  function OrderBody(b: BaseProvider.BaseFields, params: CreateOrderParams, now: int): (r: Json)
    ensures r.JObject? && |r.members| == 5
    ensures r.members[0].0 == "order_id" && r.members[1] == ("order_amount", JNumber(params.amount))
    ensures r.members[2].0 == "order_currency" && r.members[3].0 == "customer_details"
    ensures r.members[4].0 == "order_meta"
  {
    var contact := Customer(params, (c: CustomerInfo) => c.contact);
    JObject([
      ("order_id", JString(Or(params.receipt, "order_" + Text.IntToString(now)))),
      ("order_amount", JNumber(params.amount)),
      ("order_currency", JString(Or(params.currency, "INR"))),
      ("customer_details", JObject([
        ("customer_id", JString(Or(contact, "guest"))),
        ("customer_email", BaseProvider.JStr(Customer(params, (c: CustomerInfo) => c.email))),
        ("customer_phone", BaseProvider.JStr(contact)),
        ("customer_name", BaseProvider.JStr(Customer(params, (c: CustomerInfo) => c.name)))])),
      ("order_meta", JObject([
        ("return_url", BaseProvider.JStr(params.returnUrl)),
        ("notify_url", BaseProvider.JStr(if b.options.Some? then b.options.value.webhookUrl else None)),
        ("payment_methods", JString("upi"))]))])
  }

  /** The order response built from Cashfree's reply. */
  function Shape(data: CashfreeData): (r: OrderResponse)
    ensures r.orderId == data.order_id && r.amount == data.order_amount && r.currency == data.order_currency
    ensures r.status == Created && r.provider == "cashfree" && r.paymentSessionId == data.payment_session_id
    ensures r.paymentUrl.None? && r.upiUrl.None? && r.qrCode.None?
  {
    Order(data.order_id, data.order_amount, data.order_currency, "cashfree", Parsed(data.created_at), CashfreeRaw(data))
      .(paymentSessionId := data.payment_session_id)
  }

  /** The message Cashfree signs: the order id and the payment id run together. */
  function SignedText(orderId: string, paymentId: string): string {
    orderId + paymentId
  }

  class CashfreeProvider {
    const base: BaseProvider.BaseFields
    const baseUrl: string

    /** `constructor(credentials, environment = 'production', logger?)`: the production API
        exactly when the environment is "production"; no options are passed on. */
    constructor(credentials: Option<Credentials>, environment: Option<string>, logger: Option<LoggerArg>)
      ensures base == BaseProvider.BaseInit(credentials, environment, logger, None)
      ensures baseUrl == BaseProvider.EnvironmentUrl(environment, ProductionUrl, SandboxUrl)
    {
      base := BaseProvider.BaseInit(credentials, environment, logger, None);
      baseUrl := BaseProvider.EnvironmentUrl(environment, ProductionUrl, SandboxUrl);
    }

    /** The request `createOrder` sends. */
    function BuildRequest(c: Credentials, params: CreateOrderParams, now: int, t: Digest.Toolkit): (r: Request)
      ensures r.url == baseUrl + "/pg/orders" && r.apiVersion == "2023-08-01"
      ensures r.clientId == Str(c.appId) && r.clientSecret == Str(c.secretKey)
    {
      Request(baseUrl + "/pg/orders", Str(c.appId), Str(c.secretKey), "2023-08-01",
              t.stringify(OrderBody(base, params, now)))
    }

    /** `createOrder(params)`, with the clock, `JSON.stringify` and the transport as parameters.
        A reply that is not ok raises its `message`, or "Order creation failed"; every failure
        is wrapped as a "Cashfree: " `ProviderError`. */
    function CreateOrder(params: CreateOrderParams, now: int, t: Digest.Toolkit, http: Transport)
      : (r: Result<OrderResponse, Errors.UpiError>)
      ensures r.Success? ==> (
        base.credentials.Some? &&
        var reply := http(BuildRequest(base.credentials.value, params, now, t));
        reply.Success? && reply.value.ok && r.value == Shape(reply.value.data))
      ensures r.Failure? ==> (
        r.error.code == "PROVIDER_ERROR" && r.error.details.Some? && "provider" in r.error.details.value)
    {
      match BaseProvider.Creds(base, "appId")
      case Failure(f) => Failure(BaseProvider.WrapFailure("Cashfree", "cashfree", f))
      case Success(c) =>
        match http(BuildRequest(c, params, now, t))
        case Failure(f) => Failure(BaseProvider.WrapFailure("Cashfree", "cashfree", f))
        case Success(reply) =>
          if !reply.ok then
            Failure(BaseProvider.WrapFailure("Cashfree", "cashfree",
                    Errors.PlainError(Or(reply.data.message, "Order creation failed"))))
          else Success(Shape(reply.data))
    }

    /** `verifyPayment(params)`: base64 HMAC-SHA256, keyed with the secret key, of the order id
        followed directly by the payment id. It throws when there is no key. */
    function VerifyPayment(params: PaymentVerification, t: Digest.Toolkit): (r: Result<bool, Errors.Fault>)
      ensures r.Failure? <==> base.credentials.None? || base.credentials.value.secretKey.None?
      ensures r.Success? ==> (r.value <==> params.signature == Digest.HmacSha256Base64(t,
        base.credentials.value.secretKey.value, SignedText(params.orderId, params.paymentId)))
    {
      var data := params.orderId + params.paymentId;
      match BaseProvider.Creds(base, "secretKey")
      case Failure(f) => Failure(f)
      case Success(c) =>
        match c.secretKey
        case None => Failure(BaseProvider.KeyNotString)
        case Some(k) => Success(Digest.HmacSha256Base64(t, k, data) == params.signature)
    }
  }

  // ---- properties ----

  /** The posted order: `order_id` is the receipt, or `order_<now>` when none is given;
      the currency is "INR" unless given; the customer id is the contact, or "guest". */
  lemma OrderBodyDefaults(b: BaseProvider.BaseFields, params: CreateOrderParams, now: int)
    ensures var m := OrderBody(b, params, now).members;
      m[0] == ("order_id", JString(if Truthy(params.receipt) then params.receipt.value
                                   else "order_" + Text.IntToString(now)))
      && m[1] == ("order_amount", JNumber(params.amount))
      && m[2] == ("order_currency", JString(if Truthy(params.currency) then params.currency.value else "INR"))
    ensures var details := OrderBody(b, params, now).members[3].1.members;
      details[0] == ("customer_id", JString(if params.customerInfo.Some? && Truthy(params.customerInfo.value.contact)
                                            then params.customerInfo.value.contact.value else "guest"))
  {
  }

  /** The outcome of `createOrder` in full: a success is the ok reply's data, shaped with status
      "created" and provider "cashfree"; a reply that is not ok fails with its message behind
      "Cashfree: ". */
  lemma CreateOrderSpec(p: CashfreeProvider, params: CreateOrderParams, now: int, t: Digest.Toolkit, http: Transport)
    requires p.base.credentials.Some?
    ensures var reply := http(p.BuildRequest(p.base.credentials.value, params, now, t));
      var r := p.CreateOrder(params, now, t, http);
      (r.Success? <==> reply.Success? && reply.value.ok)
      && (r.Success? ==> (
            r.value.orderId == reply.value.data.order_id && r.value.status == Created
            && r.value.provider == "cashfree" && r.value.amount == reply.value.data.order_amount
            && r.value.paymentSessionId == reply.value.data.payment_session_id))
      && (reply.Success? && !reply.value.ok ==>
            r.error.message == "Cashfree: " + Or(reply.value.data.message, "Order creation failed"))
  {
  }

  /** The base URL is the production API exactly when the environment is "production" or not
      given; any other value, however close, selects the sandbox. */
  lemma BaseUrlChoice(environment: Option<string>)
    ensures BaseProvider.EnvironmentUrl(environment, ProductionUrl, SandboxUrl) == ProductionUrl
        <==> environment.None? || environment == Some("production")
    ensures BaseProvider.EnvironmentUrl(Some("Production"), ProductionUrl, SandboxUrl) == SandboxUrl
  {
    assert ProductionUrl != SandboxUrl by {
      assert ProductionUrl[8] != SandboxUrl[8];
    }
    assert "Production" != "production" by {
      assert "Production"[0] != "production"[0];
    }
  }

  /** Round trip: the signature computed with the same key is accepted. */
  lemma VerifyAcceptsSignature(p: CashfreeProvider, params: PaymentVerification, t: Digest.Toolkit)
    requires p.base.credentials.Some? && p.base.credentials.value.secretKey.Some?
    ensures var s := Digest.HmacSha256Base64(t, p.base.credentials.value.secretKey.value,
                                             SignedText(params.orderId, params.paymentId));
      p.VerifyPayment(params.(signature := s), t) == Success(true)
  {
  }

  /** With no separator the check is ambiguous: two payments whose ids run together to the same
      text get the same verdict, for instance ("ab", "c") and ("a", "bc"). */
  lemma VerifyAmbiguous(p: CashfreeProvider, params: PaymentVerification, t: Digest.Toolkit)
    requires SignedText(params.orderId, params.paymentId) == SignedText("ab", "c")
    ensures p.VerifyPayment(params, t)
         == p.VerifyPayment(params.(orderId := "a", paymentId := "bc"), t)
    ensures SignedText("ab", "c") == SignedText("a", "bc") && "ab" != "a"
  {
    assert "ab" + "c" == "a" + "bc";
  }
}
