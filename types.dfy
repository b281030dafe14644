/** The records of src/types/index.ts, the responses the adapters read back from their vendors,
    and the two JavaScript idioms every adapter uses on optional values: a template literal
    (`${x}` writes "undefined" for an absent value) and `x || fallback` (the fallback replaces an
    absent or empty string). */
module Types {
  import opened Wrappers
  import Text

  datatype ProviderName = Razorpay | Cashfree | PhonePe | Paytm | GooglePay | BharatPe | PayU

  /** The configuration key of each provider. */
  function NameOf(p: ProviderName): string {
    match p
    case Razorpay => "razorpay"
    case Cashfree => "cashfree"
    case PhonePe => "phonepe"
    case Paytm => "paytm"
    case GooglePay => "googlepay"
    case BharatPe => "bharatpe"
    case PayU => "payu"
  }

  /** Looks a configuration key up among the seven providers. */
  function ProviderNamed(s: string): (r: Option<ProviderName>)
    ensures r.Some? ==> NameOf(r.value) == s
  {
    match s
    case "razorpay" => Some(Razorpay)
    case "cashfree" => Some(Cashfree)
    case "phonepe" => Some(PhonePe)
    case "paytm" => Some(Paytm)
    case "googlepay" => Some(GooglePay)
    case "bharatpe" => Some(BharatPe)
    case "payu" => Some(PayU)
    case _ => None
  }

  lemma ProviderNamedOf(p: ProviderName)
    ensures ProviderNamed(NameOf(p)) == Some(p)
  {
  }

  /** A sparse credential bag: each provider reads only its own fields. */
  datatype Credentials = Credentials(
    keyId: Option<string>, keySecret: Option<string>, webhookSecret: Option<string>,
    appId: Option<string>, secretKey: Option<string>,
    merchantId: Option<string>, saltKey: Option<string>, saltIndex: Option<int>,
    mid: Option<string>, merchantKey: Option<string>, website: Option<string>,
    merchantName: Option<string>, merchantUPI: Option<string>, merchantCode: Option<string>,
    apiKey: Option<string>,
    merchantSalt: Option<string>)

  /** `options.logger`: `true`/`false`, or a logger object with info/debug/error/warn. */
  datatype LoggerArg = Flag(on: bool) | Sink

  datatype ConfigOptions = ConfigOptions(
    timeout: Option<int>, retryCount: Option<int>, logger: Option<LoggerArg>, webhookUrl: Option<string>)

  /** `UPIConfig`. `provider` is the raw key (the type only promises a `ProviderName`); a
      `credentials` value that is missing or not an object is `None`. */
  datatype UpiConfig = UpiConfig(
    provider: Option<string>, credentials: Option<Credentials>, environment: Option<string>,
    options: Option<ConfigOptions>)

  datatype CustomerInfo = CustomerInfo(
    name: Option<string>, email: Option<string>, contact: Option<string>, upiId: Option<string>)

  /** `CreateOrderParams`; `amount` is a whole number of rupees, `notes` a string-valued record. */
  datatype CreateOrderParams = CreateOrderParams(
    amount: int, currency: Option<string>, receipt: Option<string>, notes: Option<map<string, string>>,
    customerInfo: Option<CustomerInfo>, returnUrl: Option<string>, description: Option<string>)

  /** The fields of `UPILinkParams`. The type declares `pa`, `pn` and `am` required, but adapters
      pass credential fields that may be absent, so every field is optional here. */
  datatype UpiLinkParams = UpiLinkParams(
    pa: Option<string>, pn: Option<string>, am: Option<string>, cu: Option<string>,
    tn: Option<string>, tr: Option<string>, mc: Option<string>, url: Option<string>)

  /** `PaymentVerification`; `payload` is taken to be a string. */
  datatype PaymentVerification = PaymentVerification(
    paymentId: string, orderId: string, signature: string,
    payload: Option<string>, status: Option<string>, email: Option<string>, firstname: Option<string>,
    productinfo: Option<string>, amount: Option<int>, txnid: Option<string>, hash: Option<string>)

  /** A JSON value as `JSON.stringify` receives it; an `undefined` member is left out of the text. */
  datatype Json = JUndefined | JNull | JBool(b: bool) | JNumber(n: int) | JString(s: string)
                | JObject(members: seq<(string, Json)>)

  /** The order object Razorpay's SDK returns; `amount` is in paise. */
  datatype RazorpayOrder = RazorpayOrder(id: string, amount: int, currency: string)

  /** The JSON body of Cashfree's order response. */
  datatype CashfreeData = CashfreeData(
    order_id: string, order_amount: real, order_currency: string, created_at: Option<string>,
    payment_session_id: Option<string>, message: Option<string>)

  /** The JSON body of PhonePe's pay response; `redirectUrl` is
      `data.instrumentResponse.redirectInfo.url`. */
  datatype PhonePeData = PhonePeData(success: bool, message: Option<string>, redirectUrl: string)

  /** An order's `raw` field: the vendor's own response, or what the adapter chose to keep. */
  datatype Raw =
    | RazorpayRaw(order: RazorpayOrder)
    | CashfreeRaw(data: CashfreeData)
    | PhonePeRaw(phonepe: PhonePeData)
    | PayURaw(txnId: string, hash: string)
    | GooglePayRaw(upiParams: UpiLinkParams)
    | Opaque

  /** `createdAt`: the clock at creation, or a date the vendor sent. */
  datatype Instant = Clock(ms: int) | Parsed(text: Option<string>)

  datatype OrderStatus = Created | Attempted | Paid | Failed

  datatype OrderResponse = OrderResponse(
    orderId: string, amount: real, currency: string, status: OrderStatus, provider: string,
    createdAt: Instant, paymentUrl: Option<string>, upiUrl: Option<string>, qrCode: Option<string>,
    txnToken: Option<string>, paymentSessionId: Option<string>, raw: Raw)

  /** An order with no optional extras. */
  function Order(orderId: string, amount: real, currency: string, provider: string, createdAt: Instant, raw: Raw)
    : OrderResponse
  {
    OrderResponse(orderId, amount, currency, Created, provider, createdAt, None, None, None, None, None, raw)
  }

  /** `${x}` for an optional string. */
  function Str(x: Option<string>): string {
    match x
    case Some(s) => s
    case None => "undefined"
  }

  /** `${n}` for an optional whole number. */
  function NumStr(x: Option<int>): string {
    match x
    case Some(n) => Text.IntToString(n)
    case None => "undefined"
  }

  /** JavaScript truthiness of an optional string: present and non-empty. */
  predicate Truthy(x: Option<string>) {
    x.Some? && x.value != ""
  }

  /** `x || fallback` for an optional string. */
  function Or(x: Option<string>, fallback: string): string {
    if Truthy(x) then x.value else fallback
  }

  /** `params.customerInfo?.<field>`. */
  function Customer(p: CreateOrderParams, field: CustomerInfo -> Option<string>): Option<string> {
    match p.customerInfo
    case Some(c) => field(c)
    case None => None
  }

  /** `params.notes?.<key>`. */
  function Note(p: CreateOrderParams, key: string): Option<string> {
    match p.notes
    case Some(n) => if key in n then Some(n[key]) else None
    case None => None
  }
}
