/** The entry point (src/index.ts): `UnifiedUPIPayment` picks an adapter by the configured key,
    builds it from the credentials, the environment and the configured logger, and delegates
    every operation to it. */
module Facade {
  import opened Wrappers
  import opened Types
  import Errors
  import Digest
  import BaseProvider
  import Razorpay
  import Cashfree
  import PhonePe
  import PayU
  import GooglePay

  /** The adapter behind the façade. Paytm and BharatPe are outside this model: only the fields
      their constructors set are kept. */
  datatype Adapter =
    | RazorpayA(razorpay: Razorpay.RazorpayProvider)
    | CashfreeA(cashfree: Cashfree.CashfreeProvider)
    | PhonePeA(phonepe: PhonePe.PhonePeProvider)
    | GooglePayA(googlepay: GooglePay.GooglePayProvider)
    | PayUA(payu: PayU.PayUProvider)
    | Context(name: ProviderName, fields: BaseProvider.BaseFields)
  {
    /** The configuration key the adapter serves. */
    function Name(): ProviderName {
      match this
      case RazorpayA(_) => Razorpay
      case CashfreeA(_) => Cashfree
      case PhonePeA(_) => PhonePe
      case GooglePayA(_) => GooglePay
      case PayUA(_) => PayU
      case Context(n, _) => n
    }

    /** The fields the shared base constructor sets. */
    function Base(): BaseProvider.BaseFields {
      match this
      case RazorpayA(p) => p.base
      case CashfreeA(p) => p.base
      case PhonePeA(p) => p.base
      case GooglePayA(p) => p.base
      case PayUA(p) => p.base
      case Context(_, b) => b
    }

    /** What `createOrder` may change: only the Razorpay adapter keeps state. */
    function Mutable(): set<object> {
      if RazorpayA? then {razorpay} else {}
    }
  }

  /** The collaborators an order needs: the clock, the Razorpay SDK, the three HTTP transports,
      the hash and JSON toolkit, the QR renderer, and the outcome of the two adapters outside
      this model. */
  datatype World = World(
    now: int, sdk: Razorpay.Sdk, cashfree: Cashfree.Transport, phonepe: PhonePe.Transport,
    payu: PayU.Transport, toolkit: Digest.Toolkit, render: string -> Result<string, Errors.Fault>,
    context: (ProviderName, CreateOrderParams) -> Result<OrderResponse, Errors.UpiError>)

  /** `providers[provider]`: the configured key must be one of the seven; otherwise an `Error`
      "Unsupported provider: <key>" (an undefined key written "undefined"). */
  function Select(config: UpiConfig): (r: Result<ProviderName, Errors.Fault>)
    ensures r.Success? <==> (config.provider.Some? && config.provider.value in
      {"razorpay", "cashfree", "phonepe", "paytm", "googlepay", "bharatpe", "payu"})
    ensures r.Success? ==> NameOf(r.value) == config.provider.value
    ensures r.Failure? ==> r.error == Errors.PlainError("Unsupported provider: " + Str(config.provider))
  {
    match config.provider
    case None => Failure(Errors.PlainError("Unsupported provider: undefined"))
    case Some(key) =>
      match ProviderNamed(key)
      case None => Failure(Errors.PlainError("Unsupported provider: " + key))
      case Some(name) => Success(name)
  }

  /** `this.config.options?.logger` */
  function LoggerOf(config: UpiConfig): Option<LoggerArg> {
    if config.options.Some? then config.options.value.logger else None
  }

  /** `getProviderCapabilities()`'s table. */
  function CapabilitiesOf(name: ProviderName): (r: seq<string>)
    ensures r != [] && r[0] == "upi"
    ensures "cards" in r <==> name != GooglePay && name != BharatPe
  {
    match name
    case Razorpay => ["upi", "cards", "netbanking", "wallets", "emi", "international"]
    case Cashfree => ["upi", "cards", "netbanking", "wallets", "paylater"]
    case PhonePe => ["upi", "cards", "wallets"]
    case Paytm => ["upi", "cards", "netbanking", "wallets", "paytm_wallet"]
    case GooglePay => ["upi"]
    case BharatPe => ["upi", "qr_code"]
    case PayU => ["upi", "cards", "netbanking", "wallets", "emi"]
  }

  /** `capabilities[provider] || []` */
  function Capabilities(provider: Option<string>): (r: seq<string>)
    ensures r != [] <==> provider.Some? && ProviderNamed(provider.value).Some?
    ensures r != [] ==> r[0] == "upi" && r == CapabilitiesOf(ProviderNamed(provider.value).value)
    ensures "cards" in r <==> provider.Some? && provider.value in {"razorpay", "cashfree", "phonepe", "paytm", "payu"}
  {
    if provider.None? then []
    else match ProviderNamed(provider.value)
      case None => []
      case Some(name) => CapabilitiesOf(name)
  }

  /** The outcome of `createOrder` through an adapter. An order created by one of the modelled
      adapters names that adapter's provider key, and its failures are `ProviderError`s. */
  function CreateOrderOutcome(a: Adapter, params: CreateOrderParams, w: World): (r: Result<OrderResponse, Errors.UpiError>)
    ensures a.RazorpayA? ==> NamesProvider(r, "razorpay")
    ensures a.CashfreeA? ==> NamesProvider(r, "cashfree")
    ensures a.PhonePeA? ==> NamesProvider(r, "phonepe")
    ensures a.GooglePayA? ==> NamesProvider(r, "googlepay")
    ensures a.PayUA? ==> NamesProvider(r, "payu")
  {
    match a
    case RazorpayA(_) => ViaRazorpay(a, params, w)
    case CashfreeA(_) => ViaCashfree(a, params, w)
    case PhonePeA(_) => ViaPhonePe(a, params, w)
    case GooglePayA(_) => ViaGooglePay(a, params, w)
    case PayUA(_) => ViaPayU(a, params, w)
    case Context(n, _) => w.context(n, params)
  }

  /** `r` names the provider `key` and reports failures as a `ProviderError`. */
  predicate NamesProvider(r: Result<OrderResponse, Errors.UpiError>, key: string) {
    (r.Success? ==> r.value.provider == key && r.value.status == Created)
    && (r.Failure? ==> r.error.code == "PROVIDER_ERROR")
  }

  // One function per adapter, each defined for its own adapter only, so that the outcome of one
  // adapter is never unfolded where another is in use.

  function ViaRazorpay(a: Adapter, params: CreateOrderParams, w: World): (r: Result<OrderResponse, Errors.UpiError>)
    requires a.RazorpayA?
    ensures NamesProvider(r, "razorpay")
  {
    Razorpay.CreateOrderOutcome(a.razorpay.base, params, w.now, w.sdk)
  }

  function ViaCashfree(a: Adapter, params: CreateOrderParams, w: World): (r: Result<OrderResponse, Errors.UpiError>)
    requires a.CashfreeA?
    ensures NamesProvider(r, "cashfree")
  {
    a.cashfree.CreateOrder(params, w.now, w.toolkit, w.cashfree)
  }

  function ViaPhonePe(a: Adapter, params: CreateOrderParams, w: World): (r: Result<OrderResponse, Errors.UpiError>)
    requires a.PhonePeA?
    ensures NamesProvider(r, "phonepe")
  {
    a.phonepe.CreateOrder(params, w.now, w.toolkit, w.phonepe)
  }

  function ViaGooglePay(a: Adapter, params: CreateOrderParams, w: World): (r: Result<OrderResponse, Errors.UpiError>)
    requires a.GooglePayA?
    ensures NamesProvider(r, "googlepay")
  {
    GooglePay.CreateOrderOutcome(a.googlepay.base, params, w.now, w.render)
  }

  function ViaPayU(a: Adapter, params: CreateOrderParams, w: World): (r: Result<OrderResponse, Errors.UpiError>)
    requires a.PayUA?
    ensures NamesProvider(r, "payu")
  {
    a.payu.CreateOrder(params, w.now, w.toolkit, w.payu)
  }

  /** The message JavaScript gives for calling a method the adapter does not define. */
  const VerifyNotAFunction := Errors.Fault("TypeError", "this.provider.verifyPayment is not a function", map[])

  class UnifiedUpiPayment {
    const config: UpiConfig
    const provider: Adapter

    constructor Of(config: UpiConfig, provider: Adapter)
      ensures this.config == config && this.provider == provider
    {
      this.config := config;
      this.provider := provider;
    }

    /** `new UnifiedUPIPayment(config)`: the adapter for the configured key, built with the
        credentials, the environment and the configured logger and without options;
        `validateConfig` is not called. An unknown key throws. */
    static method Create(config: UpiConfig) returns (r: Result<UnifiedUpiPayment, Errors.Fault>)
      ensures r.Failure? <==> Select(config).Failure?
      ensures r.Failure? ==> r.error == Select(config).error
      ensures r.Success? ==> (
        fresh(r.value) && r.value.config == config && r.value.provider.Name() == Select(config).value
        && r.value.provider.Base() == BaseProvider.BaseInit(config.credentials, config.environment, LoggerOf(config), None))
      ensures r.Success? && r.value.provider.RazorpayA? ==> r.value.provider.razorpay.client == None
    {
      var name := Select(config);
      if name.Failure? {
        return Failure(name.error);
      }
      var credentials, environment, logger := config.credentials, config.environment, LoggerOf(config);
      var adapter: Adapter;
      match name.value {
        case Razorpay =>
          var p := new Razorpay.RazorpayProvider(credentials, environment, logger, None);
          adapter := RazorpayA(p);
        case Cashfree =>
          var p := new Cashfree.CashfreeProvider(credentials, environment, logger);
          adapter := CashfreeA(p);
        case PhonePe =>
          var p := new PhonePe.PhonePeProvider(credentials, environment, logger);
          adapter := PhonePeA(p);
        case GooglePay =>
          var p := new GooglePay.GooglePayProvider(credentials, environment, logger, None);
          adapter := GooglePayA(p);
        case PayU =>
          var p := new PayU.PayUProvider(credentials, environment, logger);
          adapter := PayUA(p);
        case Paytm =>
          adapter := Context(Paytm, BaseProvider.BaseInit(credentials, environment, logger, None));
        case BharatPe =>
          adapter := Context(BharatPe, BaseProvider.BaseInit(credentials, environment, logger, None));
      }
      var u := new UnifiedUpiPayment.Of(config, adapter);
      r := Success(u);
    }

    /** `createOrder(params)`: the adapter's outcome, unchanged; the Razorpay adapter keeps the
        client it builds. */
    method CreateOrder(params: CreateOrderParams, w: World) returns (r: Result<OrderResponse, Errors.UpiError>)
      modifies provider.Mutable()
      ensures r == CreateOrderOutcome(provider, params, w)
      ensures provider.RazorpayA? ==>
        (provider.razorpay.client
           == if Razorpay.Built(provider.razorpay.base, w.sdk)
              then Some(Razorpay.ClientOf(provider.razorpay.base.credentials.value))
              else old(provider.razorpay.client))
    {
      match provider {
        case RazorpayA(p) =>
          r := p.CreateOrder(params, w.now, w.sdk);
          assert r == ViaRazorpay(provider, params, w);
          assert p.client == if Razorpay.Built(p.base, w.sdk) then Some(Razorpay.ClientOf(p.base.credentials.value))
                             else old(p.client);
        case CashfreeA(p) =>
          r := p.CreateOrder(params, w.now, w.toolkit, w.cashfree);
          assert r == ViaCashfree(provider, params, w);
        case PhonePeA(p) =>
          r := p.CreateOrder(params, w.now, w.toolkit, w.phonepe);
          assert r == ViaPhonePe(provider, params, w);
        case GooglePayA(p) =>
          r := p.CreateOrder(params, w.now, w.render);
          assert r == ViaGooglePay(provider, params, w);
        case PayUA(p) =>
          r := p.CreateOrder(params, w.now, w.toolkit, w.payu);
          assert r == ViaPayU(provider, params, w);
        case Context(n, _) =>
          r := w.context(n, params);
      }
    }

    /** `verifyPayment(params)`: the adapter's verdict; the Paytm and BharatPe adapters define
        no `verifyPayment`, so the call throws. */
    function VerifyPayment(params: PaymentVerification, t: Digest.Toolkit): (r: Result<bool, Errors.Fault>)
      ensures provider.Context? <==> r == Failure(VerifyNotAFunction)
      ensures provider.GooglePayA? ==> r == Success(true)
    {
      match provider
      case RazorpayA(p) => p.VerifyPayment(params, t)
      case CashfreeA(p) => p.VerifyPayment(params, t)
      case PhonePeA(p) => p.VerifyPayment(params, t)
      case GooglePayA(p) => Success(p.VerifyPayment(params))
      case PayUA(p) => p.VerifyPayment(params, t)
      case Context(_, _) => Failure(VerifyNotAFunction)
    }

    /** `generateUPILink(params)`: every adapter inherits the base link builder. */
    method GenerateUpiLink(p: UpiLinkParams) returns (link: string)
      ensures link == BaseProvider.UpiLink(p)
    {
      link := BaseProvider.GenerateUpiLink(p);
    }

    /** `generateQRCode(params)`: the QR code of the same link. */
    method GenerateQrCode(p: UpiLinkParams, render: string -> Result<string, Errors.Fault>)
      returns (r: Result<string, Errors.Fault>)
      ensures r == render(BaseProvider.UpiLink(p))
    {
      r := BaseProvider.GenerateQrCode(p, render);
    }

    /** `getProviderCapabilities()` for the configured key. */
    function GetProviderCapabilities(): (r: seq<string>)
      ensures r == Capabilities(config.provider)
      ensures Select(config).Success? ==> r == CapabilitiesOf(Select(config).value) && r[0] == "upi"
    {
      Capabilities(config.provider)
    }
  }

  // ---- properties ----

  /** Every key the constructor accepts has capabilities, all starting with "upi"; Google Pay
      offers UPI alone. */
  lemma CapabilitiesAgreeWithSelect(config: UpiConfig)
    ensures Select(config).Success? <==> Capabilities(config.provider) != []
    ensures Capabilities(Some("googlepay")) == ["upi"]
  {
  }

  /** An order created through the façade names the adapter's provider key, and a failure from
      one of the modelled adapters is a `ProviderError`. */
  lemma CreateOrderNamesProvider(a: Adapter, params: CreateOrderParams, w: World)
    requires !a.Context?
    ensures var r := CreateOrderOutcome(a, params, w);
      (r.Success? ==> r.value.provider == NameOf(a.Name()) && r.value.status == Created)
      && (r.Failure? ==> r.error.code == "PROVIDER_ERROR")
  {
    match a
    case RazorpayA(_) => assert NameOf(a.Name()) == "razorpay";
    case CashfreeA(_) => assert NameOf(a.Name()) == "cashfree";
    case PhonePeA(_) => assert NameOf(a.Name()) == "phonepe";
    case GooglePayA(_) => assert NameOf(a.Name()) == "googlepay";
    case PayUA(_) => assert NameOf(a.Name()) == "payu";
  }
}
