/** The PayU adapter (src/providers/payu.provider.ts): the SHA-512 request hash, key first and salt
    last; the payment form and the payment URL that carries it; and the reverse hash, salt first
    and key last, that verifies a payment. */
module PayU {
  import opened Wrappers
  import opened Types
  import Errors
  import Text
  import Utf8
  import Digest
  import FormUrlencoded
  import BaseProvider

  const ProductionUrl := "https://secure.payu.in"
  const SandboxUrl := "https://test.payu.in"

  // ---- the two hash strings ----

  /** The request hash text: key, transaction id, amount, product, first name and e-mail, ten
      empty slots, and the salt, separated by '|'. */
  function RequestHashString(key: string, txnId: string, amount: string, productInfo: string, firstname: string,
                             email: string, salt: string): (r: string)
    ensures |r| == |key| + |txnId| + |amount| + |productInfo| + |firstname| + |email| + |salt| + 16
    ensures r[..|key| + 1] == key + "|" && r[|r| - |salt| - 1..] == "|" + salt
  {
    key + "|" + txnId + "|" + amount + "|" + productInfo + "|" + firstname + "|" + email + "|||||||||||" + salt
  }

  /** The reverse hash text: salt, status, ten empty slots, then e-mail, first name, product,
      amount, transaction id and key. */
  function VerifyHashString(salt: string, status: string, email: string, firstname: string, productInfo: string,
                            amount: string, txnId: string, key: string): (r: string)
    ensures |r| == |salt| + |status| + |email| + |firstname| + |productInfo| + |amount| + |txnId| + |key| + 17
    ensures r[..|salt| + 1] == salt + "|" && r[|r| - |key| - 1..] == "|" + key
  {
    salt + "|" + status + "|||||||||||" + email + "|" + firstname + "|" + productInfo + "|" + amount + "|" + txnId + "|" + key
  }

  function Empties(n: nat): (r: seq<string>)
    ensures |r| == n && forall i :: 0 <= i < n ==> r[i] == ""
  {
    if n == 0 then [] else [""] + Empties(n - 1)
  }

  /** The request hash's fields, in order: 17 of them. */
  function RequestFields(key: string, txnId: string, amount: string, productInfo: string, firstname: string,
                         email: string, salt: string): seq<string>
  {
    [key, txnId, amount, productInfo, firstname, email] + Empties(10) + [salt]
  }

  /** The reverse hash's fields, in order: 18 of them. */
  function VerifyFields(salt: string, status: string, email: string, firstname: string, productInfo: string,
                        amount: string, txnId: string, key: string): seq<string>
  {
    [salt, status] + Empties(10) + [email, firstname, productInfo, amount, txnId, key]
  }

  function Reverse<T>(s: seq<T>): (r: seq<T>)
    ensures |r| == |s| && forall i :: 0 <= i < |s| ==> r[i] == s[|s| - 1 - i]
  {
    if s == [] then [] else Reverse(s[1..]) + [s[0]]
  }

  function Pipes(n: nat): (r: string)
    ensures |r| == n && forall i :: 0 <= i < n ==> r[i] == '|'
  {
    if n == 0 then "" else "|" + Pipes(n - 1)
  }

  lemma PipesTen()
    ensures Pipes(10) == "||||||||||"
  {
    var p := Pipes(10);
    assert forall i :: 0 <= i < 10 ==> p[i] == "||||||||||"[i];
  }

  lemma {:induction false} JoinAppend(xs: seq<string>, ys: seq<string>, sep: char)
    requires |xs| >= 1 && |ys| >= 1
    ensures Text.Join(xs + ys, sep) == Text.Join(xs, sep) + [sep] + Text.Join(ys, sep)
    decreases |xs|
  {
    if |xs| == 1 {
      assert (xs + ys)[1..] == ys;
    } else {
      assert (xs + ys)[1..] == xs[1..] + ys;
      JoinAppend(xs[1..], ys, sep);
    }
  }

  /** Empty slots before a last field join to a run of separators. */
  lemma {:induction false} JoinEmpties(n: nat, last: string)
    ensures Text.Join(Empties(n) + [last], '|') == Pipes(n) + last
  {
    if n > 0 {
      JoinEmpties(n - 1, last);
      assert (Empties(n) + [last])[1..] == Empties(n - 1) + [last];
      assert Empties(n) + [last] == [""] + (Empties(n - 1) + [last]);
    } else {
      assert Empties(0) + [last] == [last];
    }
  }

  lemma Join5(a: string, b: string, c: string, d: string, e: string)
    ensures Text.Join([a, b, c, d, e], '|') == a + "|" + b + "|" + c + "|" + d + "|" + e
  {
    assert Text.Join([d, e], '|') == d + "|" + e by { assert [d, e][1..] == [e]; }
    assert Text.Join([c, d, e], '|') == c + "|" + (d + "|" + e) by { assert [c, d, e][1..] == [d, e]; }
    assert Text.Join([b, c, d, e], '|') == b + "|" + (c + "|" + (d + "|" + e)) by {
      assert [b, c, d, e][1..] == [c, d, e];
    }
    assert Text.Join([a, b, c, d, e], '|') == a + "|" + (b + "|" + (c + "|" + (d + "|" + e))) by {
      assert [a, b, c, d, e][1..] == [b, c, d, e];
    }
  }

  lemma Join6(a: string, b: string, c: string, d: string, e: string, f: string)
    ensures Text.Join([a, b, c, d, e, f], '|') == a + "|" + b + "|" + c + "|" + d + "|" + e + "|" + f
  {
    Join5(b, c, d, e, f);
    assert [a, b, c, d, e, f][1..] == [b, c, d, e, f];
    assert Text.Join([a, b, c, d, e, f], '|') == a + "|" + Text.Join([b, c, d, e, f], '|');
  }

  /** The request hash text is its 17 fields joined with '|'. */
  lemma RequestHashIsJoin(key: string, txnId: string, amount: string, productInfo: string, firstname: string,
                          email: string, salt: string)
    ensures RequestHashString(key, txnId, amount, productInfo, firstname, email, salt)
         == Text.Join(RequestFields(key, txnId, amount, productInfo, firstname, email, salt), '|')
    ensures |RequestFields(key, txnId, amount, productInfo, firstname, email, salt)| == 17
  {
    var head := [key, txnId, amount, productInfo, firstname, email];
    var tail := Empties(10) + [salt];
    assert RequestFields(key, txnId, amount, productInfo, firstname, email, salt) == head + tail;
    JoinAppend(head, tail, '|');
    Join6(key, txnId, amount, productInfo, firstname, email);
    JoinEmpties(10, salt);
    PipesTen();
  }

  lemma VerifyHashRegroup(salt: string, status: string, email: string, firstname: string, productInfo: string,
                          amount: string, txnId: string, key: string)
    ensures VerifyHashString(salt, status, email, firstname, productInfo, amount, txnId, key)
         == (salt + "|" + status) + "|" + (("||||||||||" + email) + "|"
            + (firstname + "|" + productInfo + "|" + amount + "|" + txnId + "|" + key))
  {
  }

  /** The reverse hash text is its 18 fields joined with '|'. */
  lemma VerifyHashIsJoin(salt: string, status: string, email: string, firstname: string, productInfo: string,
                         amount: string, txnId: string, key: string)
    ensures VerifyHashString(salt, status, email, firstname, productInfo, amount, txnId, key)
         == Text.Join(VerifyFields(salt, status, email, firstname, productInfo, amount, txnId, key), '|')
    ensures |VerifyFields(salt, status, email, firstname, productInfo, amount, txnId, key)| == 18
  {
    var head := [salt, status];
    var middle := Empties(10) + [email];
    var tail := [firstname, productInfo, amount, txnId, key];
    assert VerifyFields(salt, status, email, firstname, productInfo, amount, txnId, key) == head + (middle + tail);
    var jh, jm, jt := Text.Join(head, '|'), Text.Join(middle, '|'), Text.Join(tail, '|');
    JoinAppend(middle, tail, '|');
    JoinAppend(head, middle + tail, '|');
    JoinEmpties(10, email);
    PipesTen();
    Join5(firstname, productInfo, amount, txnId, key);
    assert jh == salt + "|" + status by { assert head[1..] == [status]; }
    VerifyHashRegroup(salt, status, email, firstname, productInfo, amount, txnId, key);
  }

  /** The two strings mirror each other: read backwards, the reverse hash's fields are the request
      hash's fields with the status in the salt's slot, followed by the salt. */
  lemma HashMirror(key: string, txnId: string, amount: string, productInfo: string, firstname: string,
                   email: string, salt: string, status: string)
    ensures Reverse(VerifyFields(salt, status, email, firstname, productInfo, amount, txnId, key))
         == RequestFields(key, txnId, amount, productInfo, firstname, email, status) + [salt]
  {
    var v := VerifyFields(salt, status, email, firstname, productInfo, amount, txnId, key);
    var r := RequestFields(key, txnId, amount, productInfo, firstname, email, status) + [salt];
    assert |v| == 18 && |r| == 18;
    assert forall i :: 0 <= i < 18 ==> Reverse(v)[i] == r[i];
  }

  /** The layout is positional and recoverable: when no field holds a '|', splitting the request
      hash text gives the fields back, so the key is the first field and the salt the last. */
  lemma RequestHashLayout(key: string, txnId: string, amount: string, productInfo: string, firstname: string,
                          email: string, salt: string)
    requires Text.NoneContains(RequestFields(key, txnId, amount, productInfo, firstname, email, salt), '|')
    ensures var fs := Text.Split(RequestHashString(key, txnId, amount, productInfo, firstname, email, salt), '|');
      fs == RequestFields(key, txnId, amount, productInfo, firstname, email, salt)
      && fs[0] == key && fs[16] == salt && fs[5] == email
  {
    RequestHashIsJoin(key, txnId, amount, productInfo, firstname, email, salt);
    Text.SplitJoin(RequestFields(key, txnId, amount, productInfo, firstname, email, salt), '|');
  }

  /** Likewise for the reverse hash: the salt first and the key last. */
  lemma VerifyHashLayout(salt: string, status: string, email: string, firstname: string, productInfo: string,
                         amount: string, txnId: string, key: string)
    requires Text.NoneContains(VerifyFields(salt, status, email, firstname, productInfo, amount, txnId, key), '|')
    ensures var fs := Text.Split(VerifyHashString(salt, status, email, firstname, productInfo, amount, txnId, key), '|');
      fs == VerifyFields(salt, status, email, firstname, productInfo, amount, txnId, key)
      && fs[0] == salt && fs[17] == key
  {
    VerifyHashIsJoin(salt, status, email, firstname, productInfo, amount, txnId, key);
    Text.SplitJoin(VerifyFields(salt, status, email, firstname, productInfo, amount, txnId, key), '|');
  }

  // ---- createOrder ----

  /** The transaction id of an order created at clock `now`. */
  function TxnId(now: int): string {
    "PayU_" + Text.IntToString(now)
  }

  /** The text the request hash is computed over: the product defaults to "Product", the first
      name to "Customer" and the e-mail to the empty string. */
  function HashInput(c: Credentials, params: CreateOrderParams, now: int): string {
    RequestHashString(Str(c.merchantKey), TxnId(now), Text.IntToString(params.amount),
                      Or(Note(params, "productInfo"), "Product"),
                      Or(Customer(params, (ci: CustomerInfo) => ci.name), "Customer"),
                      Or(Customer(params, (ci: CustomerInfo) => ci.email), ""),
                      Str(c.merchantSalt))
  }

  /** The payment form, in the record's order. */
  function FormPairs(c: Credentials, params: CreateOrderParams, now: int, hash: string): (r: seq<(string, string)>)
    ensures |r| == 16 && r[0] == ("key", Str(c.merchantKey)) && r[1] == ("txnid", TxnId(now))
    ensures r[9] == ("hash", hash) && r[15] == ("pg", "UPI")
    ensures r[7].1 == r[8].1 <==> Truthy(params.returnUrl)
  {
    [("key", Str(c.merchantKey)),
     ("txnid", TxnId(now)),
     ("amount", Text.IntToString(params.amount)),
     ("productinfo", Or(Note(params, "productInfo"), "Product")),
     ("firstname", Or(Customer(params, (ci: CustomerInfo) => ci.name), "Customer")),
     ("email", Or(Customer(params, (ci: CustomerInfo) => ci.email), "customer@example.com")),
     ("phone", Or(Customer(params, (ci: CustomerInfo) => ci.contact), "9999999999")),
     ("surl", Or(params.returnUrl, "https://example.com/success")),
     ("furl", Or(params.returnUrl, "https://example.com/failure")),
     ("hash", hash),
     ("udf1", ""), ("udf2", ""), ("udf3", ""), ("udf4", ""), ("udf5", ""),
     ("pg", "UPI")]
  }

  /** The `fetch` call: URL and form-encoded body. */
  datatype Request = Request(url: string, body: string)

  /** `fetch` followed by `response.text()`; the text is not used. */
  type Transport = Request -> Result<string, Errors.Fault>

  class PayUProvider {
    const base: BaseProvider.BaseFields
    const baseUrl: string

    /** `constructor(credentials, environment = 'production', logger?)` */
    constructor(credentials: Option<Credentials>, environment: Option<string>, logger: Option<LoggerArg>)
      ensures base == BaseProvider.BaseInit(credentials, environment, logger, None)
      ensures baseUrl == BaseProvider.EnvironmentUrl(environment, ProductionUrl, SandboxUrl)
    {
      base := BaseProvider.BaseInit(credentials, environment, logger, None);
      baseUrl := BaseProvider.EnvironmentUrl(environment, ProductionUrl, SandboxUrl);
    }

    /** `createOrder(params)`, with the clock, the toolkit and the transport as parameters. */
    function CreateOrder(params: CreateOrderParams, now: int, t: Digest.Toolkit, http: Transport)
      : (r: Result<OrderResponse, Errors.UpiError>)
      ensures r.Success? ==> (
        base.credentials.Some? &&
        var c := base.credentials.value;
        var hash := Digest.Sha512Hex(t, HashInput(c, params, now));
        var query := FormUrlencoded.Serialize(FormPairs(c, params, now, hash));
        http(Request(baseUrl + "/_payment", query)).Success?
        && r.value.orderId == TxnId(now) && r.value.status == Created && r.value.provider == "payu"
        && r.value.amount == params.amount as real
        && r.value.currency == (if Truthy(params.currency) then params.currency.value else "INR")
        && r.value.paymentUrl == Some(baseUrl + "/_payment?" + query)
        && r.value.raw == PayURaw(TxnId(now), hash))
      ensures r.Failure? ==> (
        r.error.code == "PROVIDER_ERROR" && r.error.details.Some? && "provider" in r.error.details.value)
    {
      match BaseProvider.Creds(base, "merchantKey")
      case Failure(f) => Failure(BaseProvider.WrapFailure("PayU", "payu", f))
      case Success(c) =>
        var txnId := TxnId(now);
        var hash := Digest.Sha512Hex(t, HashInput(c, params, now));
        var formData := FormPairs(c, params, now, hash);
        match http(Request(baseUrl + "/_payment", FormUrlencoded.Serialize(formData)))
        case Failure(f) => Failure(BaseProvider.WrapFailure("PayU", "payu", f))
        case Success(_) =>
          Success(Order(txnId, params.amount as real, Or(params.currency, "INR"), "payu", Clock(now),
                        PayURaw(txnId, hash))
                    .(paymentUrl := Some(baseUrl + "/_payment?" + FormUrlencoded.Serialize(formData))))
    }

    /** `verifyPayment(params)`: the reverse hash, compared with `params.hash`; `params.signature`
        is not read. */
    function VerifyPayment(params: PaymentVerification, t: Digest.Toolkit): (r: Result<bool, Errors.Fault>)
      ensures r.Failure? <==> base.credentials.None?
      ensures r.Success? ==> (r.value <==> params.hash == Some(Digest.Sha512Hex(t, VerifyHashString(
        Str(base.credentials.value.merchantSalt), Str(params.status), Str(params.email), Str(params.firstname),
        Str(params.productinfo), NumStr(params.amount), Str(params.txnid), Str(base.credentials.value.merchantKey)))))
    {
      match BaseProvider.Creds(base, "merchantSalt")
      case Failure(f) => Failure(f)
      case Success(c) =>
        var hashString := VerifyHashString(Str(c.merchantSalt), Str(params.status), Str(params.email),
          Str(params.firstname), Str(params.productinfo), NumStr(params.amount), Str(params.txnid), Str(c.merchantKey));
        Success(Some(Digest.Sha512Hex(t, hashString)) == params.hash)
    }
  }

  // ---- properties ----

  /** `surl` and `furl` are both the return URL when one is given, and two different pages
      otherwise; the hash travels in the form. */
  lemma FormUrls(c: Credentials, params: CreateOrderParams, now: int, hash: string)
    ensures var form := FormPairs(c, params, now, hash);
      |form| == 16 && form[7].0 == "surl" && form[8].0 == "furl" && form[9] == ("hash", hash)
      && (Truthy(params.returnUrl) ==> form[7].1 == form[8].1 == params.returnUrl.value)
      && (!Truthy(params.returnUrl) ==> form[7].1 != form[8].1)
  {
    assert "https://example.com/success"[20] != "https://example.com/failure"[20];
  }

  /** A missing e-mail is hashed as the empty string but sent as "customer@example.com", so the
      posted form and the hash disagree on the e-mail field. */
  lemma EmailMismatch(c: Credentials, params: CreateOrderParams, now: int, hash: string)
    requires !Truthy(Customer(params, (ci: CustomerInfo) => ci.email))
    requires Text.NoneContains(RequestFields(Str(c.merchantKey), TxnId(now), Text.IntToString(params.amount),
      Or(Note(params, "productInfo"), "Product"), Or(Customer(params, (ci: CustomerInfo) => ci.name), "Customer"),
      "", Str(c.merchantSalt)), '|')
    ensures FormPairs(c, params, now, hash)[5] == ("email", "customer@example.com")
    ensures var fs := Text.Split(HashInput(c, params, now), '|'); |fs| == 17 && fs[5] == ""
  {
    var key, txn, amt := Str(c.merchantKey), TxnId(now), Text.IntToString(params.amount);
    var info := Or(Note(params, "productInfo"), "Product");
    var name := Or(Customer(params, (ci: CustomerInfo) => ci.name), "Customer");
    assert HashInput(c, params, now) == RequestHashString(key, txn, amt, info, name, "", Str(c.merchantSalt));
    RequestHashLayout(key, txn, amt, info, name, "", Str(c.merchantSalt));
  }

  /** The payment URL's query parses back to exactly the posted form. */
  lemma PaymentUrlCarriesForm(p: PayUProvider, params: CreateOrderParams, now: int, t: Digest.Toolkit, http: Transport)
    requires p.CreateOrder(params, now, t, http).Success?
    ensures var url := p.CreateOrder(params, now, t, http).value.paymentUrl.value;
      var prefix := p.baseUrl + "/_payment?";
      var c := p.base.credentials.value;
      |url| >= |prefix| && url[..|prefix|] == prefix
      && FormUrlencoded.Parse(url[|prefix|..])
         == Some(FormPairs(c, params, now, Digest.Sha512Hex(t, HashInput(c, params, now))))
  {
    var c := p.base.credentials.value;
    var form := FormPairs(c, params, now, Digest.Sha512Hex(t, HashInput(c, params, now)));
    var prefix := p.baseUrl + "/_payment?";
    var url := p.CreateOrder(params, now, t, http).value.paymentUrl.value;
    assert url == prefix + FormUrlencoded.Serialize(form);
    assert url[|prefix|..] == FormUrlencoded.Serialize(form);
    FormUrlencoded.ParseSerialize(form);
  }

  /** Round trip: the reverse hash of the payment's own fields is accepted. */
  lemma VerifyAcceptsHash(p: PayUProvider, params: PaymentVerification, t: Digest.Toolkit)
    requires p.base.credentials.Some?
    ensures var c := p.base.credentials.value;
      var h := Digest.Sha512Hex(t, VerifyHashString(Str(c.merchantSalt), Str(params.status), Str(params.email),
        Str(params.firstname), Str(params.productinfo), NumStr(params.amount), Str(params.txnid), Str(c.merchantKey)));
      p.VerifyPayment(params.(hash := Some(h)), t) == Success(true)
  {
  }

  /** The verdict does not depend on `params.signature`, and a payment without a `hash` is
      rejected. */
  lemma VerifyIgnoresSignature(p: PayUProvider, params: PaymentVerification, t: Digest.Toolkit, s: string)
    ensures p.VerifyPayment(params.(signature := s), t) == p.VerifyPayment(params, t)
    ensures params.hash.None? && p.base.credentials.Some? ==> p.VerifyPayment(params, t) == Success(false)
  {
  }
}
