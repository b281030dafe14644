/** The Razorpay adapter (src/providers/razorpay.provider.ts): order creation through Razorpay's
    SDK, which it rebuilds on every call, and the HMAC-SHA256 check of a payment signature. */
module Razorpay {
  import opened Wrappers
  import opened Types
  import Errors
  import Text
  import Digest
  import BaseProvider

  /** The options `new Razorpay({...})` receives. */
  datatype Client = Client(key_id: Option<string>, key_secret: Option<string>)

  /** The argument of `client.orders.create`; `amount` is in paise. */
  datatype OrderRequest = OrderRequest(
    amount: int, currency: string, receipt: string, notes: Option<map<string, string>>,
    payment_capture: int, partial_payment: bool)

  /** The SDK, in two steps: `construct` is `require('razorpay')` followed by `new Razorpay(...)`,
      which yields `None` or the error either of them throws; `create` is `client.orders.create`,
      which settles to the order or fails. */
  datatype Sdk = Sdk(
    construct: Client -> Option<Errors.Fault>,
    create: (Client, OrderRequest) -> Result<RazorpayOrder, Errors.Fault>)

  /** The order request for `params` at clock `now`: the amount in paise, currency "INR" and receipt
      `order_<now>` unless given non-empty, immediate capture and no partial payment. */
  function Request(params: CreateOrderParams, now: int): (q: OrderRequest)
    ensures q.amount == params.amount * 100
    ensures q.currency == if Truthy(params.currency) then params.currency.value else "INR"
    ensures q.receipt == if Truthy(params.receipt) then params.receipt.value else "order_" + Text.IntToString(now)
    ensures q.notes == params.notes && q.payment_capture == 1 && !q.partial_payment
  {
    OrderRequest(params.amount * 100, Or(params.currency, "INR"),
                 Or(params.receipt, "order_" + Text.IntToString(now)), params.notes, 1, false)
  }

  /** The order response built from the SDK's order; the SDK counts paise. */
  function Shape(order: RazorpayOrder, now: int): (r: OrderResponse)
    ensures r.amount * 100.0 == order.amount as real
    ensures r.orderId == order.id && r.currency == order.currency && r.status == Created && r.provider == "razorpay"
  {
    Order(order.id, (order.amount as real) / 100.0, order.currency, "razorpay", Clock(now), RazorpayRaw(order))
  }

  /** The outcome of `createOrder`. */
  function CreateOrderOutcome(b: BaseProvider.BaseFields, params: CreateOrderParams, now: int, sdk: Sdk)
    : (r: Result<OrderResponse, Errors.UpiError>)
    ensures r.Success? ==> Built(b, sdk) && r.value.provider == "razorpay" && r.value.status == Created
    ensures r.Failure? ==> r.error.code == "PROVIDER_ERROR" && r.error.statusCode == 502
  {
    match BaseProvider.Creds(b, "keyId")
    case Failure(f) => Failure(BaseProvider.WrapFailure("Razorpay", "razorpay", f))
    case Success(c) =>
      var client := Client(c.keyId, c.keySecret);
      match sdk.construct(client)
      case Some(f) => Failure(BaseProvider.WrapFailure("Razorpay", "razorpay", f))
      case None =>
        match sdk.create(client, Request(params, now))
        case Failure(f) => Failure(BaseProvider.WrapFailure("Razorpay", "razorpay", f))
        case Success(order) => Success(Shape(order, now))
  }

  /** The client options built from the credentials. */
  function ClientOf(c: Credentials): Client {
    Client(c.keyId, c.keySecret)
  }

  /** Whether `createOrder` gets as far as a built client: the credentials are there and neither
      loading the SDK nor its constructor throws. */
  predicate Built(b: BaseProvider.BaseFields, sdk: Sdk) {
    b.credentials.Some? && sdk.construct(ClientOf(b.credentials.value)).None?
  }

  /** The message Razorpay signs: `orderId|paymentId`. */
  function SignedText(orderId: string, paymentId: string): string {
    orderId + "|" + paymentId
  }

  /** The signature Razorpay sends for a payment: hex HMAC-SHA256 of the signed text. */
  function Signature(t: Digest.Toolkit, keySecret: string, orderId: string, paymentId: string): string {
    Digest.HmacSha256Hex(t, keySecret, SignedText(orderId, paymentId))
  }

  class RazorpayProvider {
    const base: BaseProvider.BaseFields
    /** The SDK client of the latest `createOrder`. */
    var client: Option<Client>

    /** The inherited constructor. */
    constructor(credentials: Option<Credentials>, environment: Option<string>, logger: Option<LoggerArg>,
                options: Option<ConfigOptions>)
      ensures base == BaseProvider.BaseInit(credentials, environment, logger, options)
      ensures client == None
    {
      base := BaseProvider.BaseInit(credentials, environment, logger, options);
      client := None;
    }

    /** `createOrder(params)`, with the clock and the SDK as parameters. A call that gets as far
        as building a client replaces `client` with it; otherwise `client` is left as it was. */
    method CreateOrder(params: CreateOrderParams, now: int, sdk: Sdk)
      returns (r: Result<OrderResponse, Errors.UpiError>)
      modifies this
      ensures r == CreateOrderOutcome(base, params, now, sdk)
      ensures client == if Built(base, sdk) then Some(ClientOf(base.credentials.value)) else old(client)
    {
      var creds := BaseProvider.Creds(base, "keyId");
      if creds.Failure? {
        return Failure(BaseProvider.WrapFailure("Razorpay", "razorpay", creds.error));
      }
      var c := creds.value;
      var built := sdk.construct(Client(c.keyId, c.keySecret));
      if built.Some? {
        return Failure(BaseProvider.WrapFailure("Razorpay", "razorpay", built.value));
      }
      client := Some(Client(c.keyId, c.keySecret));
      var request := Request(params, now);
      var reply := sdk.create(client.value, request);
      if reply.Failure? {
        return Failure(BaseProvider.WrapFailure("Razorpay", "razorpay", reply.error));
      }
      r := Success(Shape(reply.value, now));
    }

    /** `verifyPayment(params)`: recompute the signature and compare. It throws when there is no
        secret to key the HMAC with. */
    function VerifyPayment(params: PaymentVerification, t: Digest.Toolkit): (r: Result<bool, Errors.Fault>)
      ensures r.Failure? <==> base.credentials.None? || base.credentials.value.keySecret.None?
      ensures r.Success? ==>
        (r.value <==> params.signature == Signature(t, base.credentials.value.keySecret.value, params.orderId, params.paymentId))
    {
      match BaseProvider.Creds(base, "keySecret")
      case Failure(f) => Failure(f)
      case Success(c) =>
        match c.keySecret
        case None => Failure(BaseProvider.KeyNotString)
        case Some(k) => Success(Digest.HmacSha256Hex(t, k, params.orderId + "|" + params.paymentId) == params.signature)
    }
  }

  // ---- properties ----

  /** A created order carries Razorpay's id, status "created", provider "razorpay" and the
      SDK's amount in rupees; the SDK is asked for the defaulted request; any failure, of the
      credentials, of loading or constructing the SDK, or of the order call, becomes a
      `ProviderError` whose message is "Razorpay: " and the original message. */
  lemma CreateOrderSpec(b: BaseProvider.BaseFields, params: CreateOrderParams, now: int, sdk: Sdk)
    ensures var r := CreateOrderOutcome(b, params, now, sdk);
      r.Success? <==> (Built(b, sdk)
        && sdk.create(ClientOf(b.credentials.value), Request(params, now)).Success?)
    ensures var r := CreateOrderOutcome(b, params, now, sdk);
      r.Success? ==>
        var order := sdk.create(ClientOf(b.credentials.value), Request(params, now)).value;
        r.value.orderId == order.id && r.value.status == Created && r.value.provider == "razorpay"
        && r.value.amount * 100.0 == order.amount as real && r.value.currency == order.currency
        && r.value.raw == RazorpayRaw(order)
    ensures var r := CreateOrderOutcome(b, params, now, sdk);
      b.credentials.Some? && sdk.construct(ClientOf(b.credentials.value)).Some? ==>
        r == Failure(BaseProvider.WrapFailure("Razorpay", "razorpay", sdk.construct(ClientOf(b.credentials.value)).value))
    ensures var r := CreateOrderOutcome(b, params, now, sdk);
      r.Failure? ==>
        (exists f: Errors.Fault :: r.error == BaseProvider.WrapFailure("Razorpay", "razorpay", f))
        && |r.error.message| >= 10 && r.error.message[..10] == "Razorpay: "
  {
    var r := CreateOrderOutcome(b, params, now, sdk);
    if r.Failure? {
      var f := if b.credentials.None? then BaseProvider.ReadOfUndefined("keyId")
        else if sdk.construct(ClientOf(b.credentials.value)).Some? then sdk.construct(ClientOf(b.credentials.value)).value
        else sdk.create(ClientOf(b.credentials.value), Request(params, now)).error;
      assert r.error == BaseProvider.WrapFailure("Razorpay", "razorpay", f);
      assert "Razorpay" + ": " == "Razorpay: ";
      assert r.error.message == "Razorpay: " + f.message;
    }
  }

  /** Round trip: the signature Razorpay computes for a payment is accepted. */
  lemma VerifyAcceptsSignature(p: RazorpayProvider, params: PaymentVerification, t: Digest.Toolkit)
    requires p.base.credentials.Some? && p.base.credentials.value.keySecret.Some?
    ensures p.VerifyPayment(params.(signature := Signature(t, p.base.credentials.value.keySecret.value,
                                                           params.orderId, params.paymentId)), t)
         == Success(true)
  {
  }

  /** The verdict reads only the order id, the payment id, the signature and the secret. */
  lemma VerifyReadsOnly(p: RazorpayProvider, q: RazorpayProvider, a: PaymentVerification, c: PaymentVerification,
                        t: Digest.Toolkit)
    requires p.base.credentials.Some? && q.base.credentials.Some?
    requires p.base.credentials.value.keySecret == q.base.credentials.value.keySecret
    requires a.orderId == c.orderId && a.paymentId == c.paymentId && a.signature == c.signature
    ensures p.VerifyPayment(a, t) == q.VerifyPayment(c, t)
  {
  }

  /** The separator makes the signed text unambiguous: as long as order ids contain no '|', the
      text determines the order id and the payment id. */
  lemma SignedTextInjective(o1: string, p1: string, o2: string, p2: string)
    requires '|' !in o1 && '|' !in o2
    requires SignedText(o1, p1) == SignedText(o2, p2)
    ensures o1 == o2 && p1 == p2
  {
    var s := SignedText(o1, p1);
    assert s == o1 + ("|" + p1) && s == o2 + ("|" + p2);
    Text.IndexOfPrefix(o1, "|" + p1, '|');
    Text.IndexOfPrefix(o2, "|" + p2, '|');
    assert Text.IndexOf("|" + p1, '|') == 0 && Text.IndexOf("|" + p2, '|') == 0;
    assert o1 == s[..|o1|] && o2 == s[..|o2|];
    assert p1 == s[|o1| + 1..] && p2 == s[|o2| + 1..];
  }
}
