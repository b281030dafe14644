/** The Google Pay adapter (src/providers/googlepay.provider.ts): no vendor API, only a UPI deep
    link with the merchant's VPA and a QR code of that link. */
module GooglePay {
  import opened Wrappers
  import opened Types
  import Errors
  import Text
  import FormUrlencoded
  import BaseProvider

  /** The order id of an order created at clock `now`. */
  function OrderId(now: int): string {
    "GPay_" + Text.IntToString(now)
  }

  /** The deep-link parameters of an order: the merchant's VPA and name, the amount, the currency
      or "INR", the `description` note or "Payment", the order id as the transaction reference,
      and the merchant code or "5411". */
  function UpiParams(c: Credentials, params: CreateOrderParams, now: int): (r: UpiLinkParams)
    ensures r.pa == c.merchantUPI && r.tr == Some(OrderId(now)) && r.url.None?
    ensures Truthy(r.am) && Truthy(r.cu) && Truthy(r.tn) && Truthy(r.mc)
  {
    UpiLinkParams(c.merchantUPI, c.merchantName, Some(Text.IntToString(params.amount)),
                  Some(Or(params.currency, "INR")), Some(Or(Note(params, "description"), "Payment")),
                  Some(OrderId(now)), Some(Or(c.merchantCode, "5411")), None)
  }

  /** The outcome of `createOrder`; `render` is the QR renderer. */
  function CreateOrderOutcome(b: BaseProvider.BaseFields, params: CreateOrderParams, now: int,
                              render: string -> Result<string, Errors.Fault>)
    : (r: Result<OrderResponse, Errors.UpiError>)
    ensures r.Success? ==> (
      b.credentials.Some? && r.value.orderId == OrderId(now) && r.value.provider == "googlepay"
      && r.value.upiUrl == Some(BaseProvider.UpiLink(UpiParams(b.credentials.value, params, now))))
    ensures r.Failure? ==> r.error.code == "PROVIDER_ERROR" && r.error.statusCode == 502
  {
    match BaseProvider.Creds(b, "merchantUPI")
    case Failure(f) => Failure(BaseProvider.WrapFailure("GooglePay", "googlepay", f))
    case Success(c) =>
      var upiParams := UpiParams(c, params, now);
      match render(BaseProvider.UpiLink(upiParams))
      case Failure(f) => Failure(BaseProvider.WrapFailure("GooglePay", "googlepay", f))
      case Success(qr) =>
        Success(Order(OrderId(now), params.amount as real, Or(params.currency, "INR"), "googlepay", Clock(now),
                      GooglePayRaw(upiParams))
                  .(upiUrl := Some(BaseProvider.UpiLink(upiParams)), qrCode := Some(qr)))
  }

  class GooglePayProvider {
    const base: BaseProvider.BaseFields

    /** The inherited constructor. */
    constructor(credentials: Option<Credentials>, environment: Option<string>, logger: Option<LoggerArg>,
                options: Option<ConfigOptions>)
      ensures base == BaseProvider.BaseInit(credentials, environment, logger, options)
    {
      base := BaseProvider.BaseInit(credentials, environment, logger, options);
    }

    /** `createOrder(params)`: builds the link with the inherited `generateUPILink` and the QR
        code with the inherited `generateQRCode`, with the clock and the renderer as parameters. */
    method CreateOrder(params: CreateOrderParams, now: int, render: string -> Result<string, Errors.Fault>)
      returns (r: Result<OrderResponse, Errors.UpiError>)
      ensures r == CreateOrderOutcome(base, params, now, render)
    {
      var creds := BaseProvider.Creds(base, "merchantUPI");
      if creds.Failure? {
        return Failure(BaseProvider.WrapFailure("GooglePay", "googlepay", creds.error));
      }
      var upiParams := UpiParams(creds.value, params, now);
      var upiUrl := BaseProvider.GenerateUpiLink(upiParams);
      var qrCode := BaseProvider.GenerateQrCode(upiParams, render);
      if qrCode.Failure? {
        return Failure(BaseProvider.WrapFailure("GooglePay", "googlepay", qrCode.error));
      }
      r := Success(Order(OrderId(now), params.amount as real, Or(params.currency, "INR"), "googlepay", Clock(now),
                         GooglePayRaw(upiParams))
                     .(upiUrl := Some(upiUrl), qrCode := Some(qrCode.value)));
    }

    /** `verifyPayment(params)`: every payment is accepted; verification is left to a webhook. */
    function VerifyPayment(params: PaymentVerification): (r: bool)
      ensures r
    {
      true
    }
  }

  // ---- properties ----

  lemma OrIsNonEmpty(x: Option<string>, fallback: string)
    requires fallback != ""
    ensures Or(x, fallback) != ""
  {
  }

  /** The deep link carries the order: read back after its prefix, it starts with the merchant's
      VPA, holds the amount, names the order id as the transaction reference, and always has a
      note and a merchant code but never a callback URL. */
  lemma LinkCarriesOrder(c: Credentials, params: CreateOrderParams, now: int)
    ensures var link := BaseProvider.UpiLink(UpiParams(c, params, now));
      var prefix := BaseProvider.LinkPrefix;
      |link| >= |prefix| && link[..|prefix|] == "upi://pay?"
      && FormUrlencoded.Parse(link[|prefix|..]) == Some(BaseProvider.LinkPairs(UpiParams(c, params, now)))
    ensures var pairs := BaseProvider.LinkPairs(UpiParams(c, params, now));
      pairs[0] == ("pa", Str(c.merchantUPI)) && pairs[2] == ("am", Text.IntToString(params.amount))
      && BaseProvider.Get(pairs, "tr") == Some(OrderId(now))
      && BaseProvider.Get(pairs, "tn") == Some(Or(Note(params, "description"), "Payment"))
      && BaseProvider.Get(pairs, "mc") == Some(Or(c.merchantCode, "5411"))
      && BaseProvider.Get(pairs, "url") == None
  {
    var p := UpiParams(c, params, now);
    BaseProvider.UpiLinkReadsBack(p);
    var pairs := BaseProvider.LinkPairs(p);
    var fixed := BaseProvider.FixedPairs(p);
    assert pairs[..4] == fixed;
    assert fixed[0] == ("pa", Str(c.merchantUPI)) && fixed[2] == ("am", Text.IntToString(params.amount));
    assert pairs[0] == fixed[0] && pairs[2] == fixed[2];
    BaseProvider.LinkPairsOptional(p);
    assert BaseProvider.Get(pairs, "tr") == Some(OrderId(now)) by {
      assert OrderId(now) != "";
    }
    assert BaseProvider.Get(pairs, "tn") == Some(Or(Note(params, "description"), "Payment")) by {
      OrIsNonEmpty(Note(params, "description"), "Payment");
    }
    assert BaseProvider.Get(pairs, "mc") == Some(Or(c.merchantCode, "5411")) by {
      OrIsNonEmpty(c.merchantCode, "5411");
    }
  }

  /** The outcome in full: `createOrder` fails only without credentials or when the renderer
      fails, each as a "GooglePay: " `ProviderError`; a created order has the link as `upiUrl`,
      the rendering of exactly that link as `qrCode`, and the link's parameters as `raw`. */
  lemma CreateOrderSpec(b: BaseProvider.BaseFields, params: CreateOrderParams, now: int,
                        render: string -> Result<string, Errors.Fault>)
    ensures var r := CreateOrderOutcome(b, params, now, render);
      r.Success? <==> b.credentials.Some? && render(BaseProvider.UpiLink(UpiParams(b.credentials.value, params, now))).Success?
    ensures var r := CreateOrderOutcome(b, params, now, render);
      r.Success? ==> (
        var up := UpiParams(b.credentials.value, params, now);
        r.value.orderId == OrderId(now) && r.value.status == Created && r.value.provider == "googlepay"
        && r.value.amount == params.amount as real
        && r.value.upiUrl == Some(BaseProvider.UpiLink(up))
        && render(r.value.upiUrl.value) == Success(r.value.qrCode.value)
        && r.value.raw == GooglePayRaw(up) && r.value.raw.upiParams.tr == Some(r.value.orderId))
    ensures var r := CreateOrderOutcome(b, params, now, render);
      r.Failure? ==> |r.error.message| >= 11 && r.error.message[..11] == "GooglePay: " && r.error.code == "PROVIDER_ERROR"
  {
    var r := CreateOrderOutcome(b, params, now, render);
    if r.Failure? {
      var f := if b.credentials.None? then BaseProvider.ReadOfUndefined("merchantUPI")
        else render(BaseProvider.UpiLink(UpiParams(b.credentials.value, params, now))).error;
      assert r.error == BaseProvider.WrapFailure("GooglePay", "googlepay", f);
      assert "GooglePay" + ": " == "GooglePay: ";
      assert r.error.message == "GooglePay: " + f.message;
    }
  }
}
