/** The PhonePe adapter (src/providers/phonepe.provider.ts): the pay request, with its base64
    payload, SHA-256 checksum and X-VERIFY header, and the status-path checksum that verifies a
    payment. */
module PhonePe {
  import opened Wrappers
  import opened Types
  import Errors
  import Text
  import Utf8
  import Digest
  import BaseProvider

  const ProductionUrl := "https://api.phonepe.com/apis/hermes"
  const SandboxUrl := "https://api-preprod.phonepe.com/apis/hermes"

  /** The `fetch` call: URL, X-VERIFY header and JSON body. */
  datatype Request = Request(url: string, xVerify: string, body: string)

  /** `fetch` followed by `response.json()`; either may fail. */
  type Transport = Request -> Result<PhonePeData, Errors.Fault>

  /** The transaction id of an order created at clock `now`. */
  function TransactionId(now: int): string {
    "TXN_" + Text.IntToString(now)
  }

  /** The pay payload, before encoding. */
  function Payload(b: BaseProvider.BaseFields, c: Credentials, params: CreateOrderParams, now: int): Json {
    var contact := Customer(params, (ci: CustomerInfo) => ci.contact);
    JObject([
      ("merchantId", BaseProvider.JStr(c.merchantId)),
      ("merchantTransactionId", JString(TransactionId(now))),
      ("merchantUserId", JString(Or(contact, "guest"))),
      ("amount", JNumber(params.amount * 100)),
      ("redirectUrl", BaseProvider.JStr(params.returnUrl)),
      ("redirectMode", JString("POST")),
      ("callbackUrl", BaseProvider.JStr(if b.options.Some? then b.options.value.webhookUrl else None)),
      ("mobileNumber", BaseProvider.JStr(contact)),
      ("paymentInstrument", JObject([
        ("type", JString("UPI_COLLECT")),
        ("targetApp", JString("com.phonepe.app")),
        ("vpa", BaseProvider.JStr(Customer(params, (ci: CustomerInfo) => ci.upiId)))]))])
  }

  /** `generateChecksum(payload)`: hex SHA-256 of the payload, the pay path and the salt key. */
  function GenerateChecksum(t: Digest.Toolkit, c: Credentials, payload: string): (r: string)
    ensures forall i :: 0 <= i < |r| ==> Digest.IsLowerHexDigit(r[i])
    ensures '#' !in r
  {
    Digest.HexAlphabet(t.sha256(Utf8.Encode(payload + "/pg/v1/pay" + Str(c.saltKey))));
    Digest.Sha256Hex(t, payload + "/pg/v1/pay" + Str(c.saltKey))
  }

  /** The text `verifyPayment` hashes: payload, status path, merchant id, order id, salt key. */
  function StatusText(payload: Option<string>, merchantId: Option<string>, orderId: string, saltKey: Option<string>)
    : (r: string)
    ensures |r| == |Str(payload)| + |Str(merchantId)| + |orderId| + |Str(saltKey)| + 15
    ensures r[..|Str(payload)|] == Str(payload) && r[|r| - |Str(saltKey)|..] == Str(saltKey)
  {
    Str(payload) + "/pg/v1/status/" + Str(merchantId) + "/" + orderId + Str(saltKey)
  }

  class PhonePeProvider {
    const base: BaseProvider.BaseFields
    const baseUrl: string

    /** `constructor(credentials, environment = 'production', logger?)` */
    constructor(credentials: Option<Credentials>, environment: Option<string>, logger: Option<LoggerArg>)
      ensures base == BaseProvider.BaseInit(credentials, environment, logger, None)
      ensures baseUrl == BaseProvider.EnvironmentUrl(environment, ProductionUrl, SandboxUrl)
    {
      base := BaseProvider.BaseInit(credentials, environment, logger, None);
      baseUrl := BaseProvider.EnvironmentUrl(environment, ProductionUrl, SandboxUrl);
    }

    /** The base64 text of the payload. */
    function EncodedPayload(c: Credentials, params: CreateOrderParams, now: int, t: Digest.Toolkit): string {
      Digest.Base64Of(t, t.stringify(Payload(base, c, params, now)))
    }

    /** The pay request: the checksum of the base64 payload, `###` and the salt index in the
        header, and the same base64 text as the body's `request`. */
    function BuildRequest(c: Credentials, params: CreateOrderParams, now: int, t: Digest.Toolkit): (r: Request)
      ensures r.url == baseUrl + "/pg/v1/pay"
      ensures var tail := "###" + NumStr(c.saltIndex);
        |r.xVerify| >= |tail| && r.xVerify[|r.xVerify| - |tail|..] == tail
    {
      var base64Payload := EncodedPayload(c, params, now, t);
      var checksum := GenerateChecksum(t, c, base64Payload);
      var tail := "###" + NumStr(c.saltIndex);
      assert (checksum + tail)[|checksum|..] == tail;
      Request(baseUrl + "/pg/v1/pay", checksum + tail, t.stringify(JObject([("request", JString(base64Payload))])))
    }

    /** `createOrder(params)`, with the clock, the toolkit and the transport as parameters. */
    function CreateOrder(params: CreateOrderParams, now: int, t: Digest.Toolkit, http: Transport)
      : (r: Result<OrderResponse, Errors.UpiError>)
      ensures r.Success? ==> (
        base.credentials.Some? &&
        var reply := http(BuildRequest(base.credentials.value, params, now, t));
        reply.Success? && reply.value.success
        && r.value.orderId == TransactionId(now) && r.value.amount == params.amount as real
        && r.value.currency == "INR" && r.value.status == Created && r.value.provider == "phonepe"
        && r.value.paymentUrl == Some(reply.value.redirectUrl) && r.value.raw == PhonePeRaw(reply.value))
      ensures r.Failure? ==> (
        r.error.code == "PROVIDER_ERROR" && r.error.details.Some? && "provider" in r.error.details.value)
    {
      match BaseProvider.Creds(base, "merchantId")
      case Failure(f) => Failure(BaseProvider.WrapFailure("PhonePe", "phonepe", f))
      case Success(c) =>
        match http(BuildRequest(c, params, now, t))
        case Failure(f) => Failure(BaseProvider.WrapFailure("PhonePe", "phonepe", f))
        case Success(data) =>
          if !data.success then
            Failure(BaseProvider.WrapFailure("PhonePe", "phonepe",
                    Errors.PlainError(Or(data.message, "Order creation failed"))))
          else
            Success(Order(TransactionId(now), params.amount as real, "INR", "phonepe", Clock(now), PhonePeRaw(data))
                      .(paymentUrl := Some(data.redirectUrl)))
    }

    /** `verifyPayment(params)`: the signature must be the bare hex SHA-256 of the status text. */
    function VerifyPayment(params: PaymentVerification, t: Digest.Toolkit): (r: Result<bool, Errors.Fault>)
      ensures r.Failure? <==> base.credentials.None?
      ensures r.Success? ==> (r.value <==> params.signature == Digest.Sha256Hex(t,
        StatusText(params.payload, base.credentials.value.merchantId, params.orderId, base.credentials.value.saltKey)))
    {
      match BaseProvider.Creds(base, "merchantId")
      case Failure(f) => Failure(f)
      case Success(c) =>
        var text := Str(params.payload) + "/pg/v1/status/" + Str(c.merchantId) + "/" + params.orderId + Str(c.saltKey);
        Success(Digest.Sha256Hex(t, text) == params.signature)
    }
  }

  // ---- properties ----

  /** The payload identifies the order by the transaction id that becomes the order id, asks for
      the amount in paise, and names the contact as the user, or "guest". */
  lemma PayloadFields(b: BaseProvider.BaseFields, c: Credentials, params: CreateOrderParams, now: int)
    ensures var m := Payload(b, c, params, now).members;
      m[1] == ("merchantTransactionId", JString(TransactionId(now)))
      && m[2] == ("merchantUserId", JString(
           if params.customerInfo.Some? && Truthy(params.customerInfo.value.contact)
           then params.customerInfo.value.contact.value else "guest"))
      && m[3] == ("amount", JNumber(params.amount * 100))
  {
  }

  /** The X-VERIFY header splits at its first '#': before it the checksum of exactly the base64
      text that the body carries as `request`, after it `###` and the salt index. */
  lemma RequestHeader(p: PhonePeProvider, c: Credentials, params: CreateOrderParams, now: int, t: Digest.Toolkit)
    ensures var req := p.BuildRequest(c, params, now, t);
      var b64 := p.EncodedPayload(c, params, now, t);
      var checksum := GenerateChecksum(t, c, b64);
      req.body == t.stringify(JObject([("request", JString(b64))]))
      && '#' in req.xVerify
      && req.xVerify[..Text.IndexOf(req.xVerify, '#')] == checksum
      && req.xVerify[Text.IndexOf(req.xVerify, '#')..] == "###" + NumStr(c.saltIndex)
  {
    var b64 := p.EncodedPayload(c, params, now, t);
    var checksum := GenerateChecksum(t, c, b64);
    var rest := "###" + NumStr(c.saltIndex);
    var x := p.BuildRequest(c, params, now, t).xVerify;
    assert x == checksum + rest;
    Digest.HexHasNo(t.sha256(Utf8.Encode(b64 + "/pg/v1/pay" + Str(c.saltKey))), '#');
    Text.IndexOfPrefix(checksum, rest, '#');
    assert Text.IndexOf(rest, '#') == 0;
    assert x[..|checksum|] == checksum;
    assert x[|checksum|..] == rest;
  }

  /** The outcome of `createOrder` in full. */
  lemma CreateOrderSpec(p: PhonePeProvider, params: CreateOrderParams, now: int, t: Digest.Toolkit, http: Transport)
    requires p.base.credentials.Some?
    ensures var reply := http(p.BuildRequest(p.base.credentials.value, params, now, t));
      var r := p.CreateOrder(params, now, t, http);
      (r.Success? <==> reply.Success? && reply.value.success)
      && (reply.Success? && !reply.value.success ==>
            r.error.message == "PhonePe: " + Or(reply.value.message, "Order creation failed"))
  {
  }

  /** Round trip: the checksum of the status text is accepted. */
  lemma VerifyAcceptsChecksum(p: PhonePeProvider, params: PaymentVerification, t: Digest.Toolkit)
    requires p.base.credentials.Some?
    ensures var c := p.base.credentials.value;
      var s := Digest.Sha256Hex(t, StatusText(params.payload, c.merchantId, params.orderId, c.saltKey));
      p.VerifyPayment(params.(signature := s), t) == Success(true)
  {
  }

  /** A signature in the header's form, digest followed by `###` and an index, is never
      accepted: a hex digest contains no '#'. */
  lemma VerifyRejectsHeaderForm(p: PhonePeProvider, params: PaymentVerification, t: Digest.Toolkit,
                                digest: string, index: string)
    requires params.signature == digest + "###" + index
    ensures p.VerifyPayment(params, t) != Success(true)
  {
    if p.base.credentials.Some? {
      var c := p.base.credentials.value;
      var text := StatusText(params.payload, c.merchantId, params.orderId, c.saltKey);
      Digest.HexHasNo(t.sha256(Utf8.Encode(text)), '#');
      assert params.signature[|digest|] == '#';
    }
  }
}
