/** src/utils/validator.ts: guard chains that either pass or raise the first failing
    `ValidationError`, and the three character grammars (email, phone, VPA) they use. */
module Validator {
  import opened Wrappers
  import opened Types
  import Errors
  import Text

  type Check = Result<(), Errors.UpiError>

  function Fail(message: string): Check {
    Failure(Errors.ValidationError(message, None))
  }

  // ---- validateConfig ----

  /** The credential fields the validator looks at. */
  datatype Field = KeyId | KeySecret | AppId | SecretKey | MerchantId | SaltKey | Mid | MerchantKey
                 | MerchantUPI | MerchantName | ApiKey | MerchantSalt

  function Get(c: Credentials, f: Field): Option<string> {
    match f
    case KeyId => c.keyId
    case KeySecret => c.keySecret
    case AppId => c.appId
    case SecretKey => c.secretKey
    case MerchantId => c.merchantId
    case SaltKey => c.saltKey
    case Mid => c.mid
    case MerchantKey => c.merchantKey
    case MerchantUPI => c.merchantUPI
    case MerchantName => c.merchantName
    case ApiKey => c.apiKey
    case MerchantSalt => c.merchantSalt
  }

  /** A field passes `!credentials.f` only when it is present and non-empty. */
  predicate Present(c: Credentials, f: Field) {
    Truthy(Get(c, f))
  }

  const ValidProviders: seq<string> :=
    ["razorpay", "cashfree", "phonepe", "paytm", "googlepay", "bharatpe", "payu"]

  /** The provider-specific switch of `validateConfig`. */
  function CheckCredentials(p: ProviderName, c: Credentials): (r: Check)
    ensures r.Success? ==> Present(c, RequiredFields(p)[0])
    ensures r.Failure? ==> r.error.code == "VALIDATION_ERROR" && r.error.statusCode == 400
  {
    match p
    case Razorpay =>
      if !Present(c, KeyId) || !Present(c, KeySecret) then Fail("Razorpay requires keyId and keySecret") else Success(())
    case Cashfree =>
      if !Present(c, AppId) || !Present(c, SecretKey) then Fail("Cashfree requires appId and secretKey") else Success(())
    case PhonePe =>
      if !Present(c, MerchantId) || !Present(c, SaltKey) then Fail("PhonePe requires merchantId and saltKey") else Success(())
    case Paytm =>
      if !Present(c, Mid) || !Present(c, MerchantKey) then Fail("Paytm requires mid and merchantKey") else Success(())
    case GooglePay =>
      if !Present(c, MerchantUPI) || !Present(c, MerchantName) then Fail("Google Pay requires merchantUPI and merchantName") else Success(())
    case BharatPe =>
      if !Present(c, ApiKey) then Fail("BharatPe requires apiKey") else Success(())
    case PayU =>
      if !Present(c, KeyId) || !Present(c, MerchantSalt) then Fail("PayU requires merchantKey and merchantSalt") else Success(())
  }

  /** `validateConfig`, as written: a missing provider, then an unknown one, then missing
      credentials, then the provider's own fields. */
  function ValidateConfig(config: UpiConfig): (r: Check)
    ensures r.Success? ==> Truthy(config.provider) && config.provider.value in ValidProviders && config.credentials.Some?
    ensures r.Failure? ==> r.error.code == "VALIDATION_ERROR" && r.error.statusCode == 400
  {
    if !Truthy(config.provider) then Fail("Provider is required")
    else if config.provider.value !in ValidProviders then
      Fail("Invalid provider: " + config.provider.value + ". Must be one of: " + Text.JoinWith(ValidProviders, ", "))
    else if config.credentials.None? then Fail("Credentials are required")
    else
      match ProviderNamed(config.provider.value)
      case Some(p) => CheckCredentials(p, config.credentials.value)
      case None => Success(())
  }

  /** The required-field table the switch implements (PayU as written: keyId and merchantSalt). */
  function RequiredFields(p: ProviderName): seq<Field> {
    match p
    case Razorpay => [KeyId, KeySecret]
    case Cashfree => [AppId, SecretKey]
    case PhonePe => [MerchantId, SaltKey]
    case Paytm => [Mid, MerchantKey]
    case GooglePay => [MerchantUPI, MerchantName]
    case BharatPe => [ApiKey]
    case PayU => [KeyId, MerchantSalt]
  }

  predicate HasAll(c: Credentials, fields: seq<Field>) {
    forall i :: 0 <= i < |fields| ==> Present(c, fields[i])
  }

  lemma ValidProvidersAreNames(s: string)
    ensures s in ValidProviders <==> ProviderNamed(s).Some?
  {
  }

  lemma ValidProvidersJoined()
    ensures Text.JoinWith(ValidProviders, ", ")
         == "razorpay" + ", " + "cashfree" + ", " + "phonepe" + ", " + "paytm" + ", "
            + "googlepay" + ", " + "bharatpe" + ", " + "payu"
  {
    var v := ValidProviders;
    var j6 := Text.JoinWith(v[6..], ", ");
    assert j6 == "payu";
    var j5 := Text.JoinWith(v[5..], ", ");
    assert v[5..][1..] == v[6..];
    assert j5 == "bharatpe" + ", " + j6;
    var j4 := Text.JoinWith(v[4..], ", ");
    assert v[4..][1..] == v[5..];
    assert j4 == "googlepay" + ", " + j5;
    var j3 := Text.JoinWith(v[3..], ", ");
    assert v[3..][1..] == v[4..];
    assert j3 == "paytm" + ", " + j4;
    var j2 := Text.JoinWith(v[2..], ", ");
    assert v[2..][1..] == v[3..];
    assert j2 == "phonepe" + ", " + j3;
    var j1 := Text.JoinWith(v[1..], ", ");
    assert v[1..][1..] == v[2..];
    assert j1 == "cashfree" + ", " + j2;
    assert Text.JoinWith(v, ", ") == "razorpay" + ", " + j1;
  }

  /** The provider switch checks exactly the fields of the provider's row. */
  lemma CheckCredentialsTable(p: ProviderName, c: Credentials)
    ensures CheckCredentials(p, c).Success? <==> HasAll(c, RequiredFields(p))
  {
    var fs := RequiredFields(p);
    if |fs| == 1 {
      assert HasAll(c, fs) <==> Present(c, fs[0]);
    } else {
      assert |fs| == 2;
      assert HasAll(c, fs) <==> Present(c, fs[0]) && Present(c, fs[1]);
    }
  }

  /** The switch reads only the presence of the provider's own fields. */
  lemma CheckCredentialsSameRow(p: ProviderName, c: Credentials, d: Credentials)
    requires forall i :: 0 <= i < |RequiredFields(p)| ==> Present(d, RequiredFields(p)[i]) == Present(c, RequiredFields(p)[i])
    ensures CheckCredentials(p, d) == CheckCredentials(p, c)
  {
    var fs := RequiredFields(p);
    assert Present(d, fs[0]) == Present(c, fs[0]);
    if |fs| == 2 {
      assert Present(d, fs[1]) == Present(c, fs[1]);
    }
  }

  /** A configuration passes exactly when it names one of the seven providers, carries
      credentials, and every field of that provider's row is present and non-empty. */
  lemma ValidateConfigTable(config: UpiConfig)
    ensures ValidateConfig(config).Success?
        <==> && Truthy(config.provider)
             && ProviderNamed(config.provider.value).Some?
             && config.credentials.Some?
             && HasAll(config.credentials.value, RequiredFields(ProviderNamed(config.provider.value).value))
  {
    if Truthy(config.provider) {
      ValidProvidersAreNames(config.provider.value);
      if ProviderNamed(config.provider.value).Some? && config.credentials.Some? {
        CheckCredentialsTable(ProviderNamed(config.provider.value).value, config.credentials.value);
      }
    }
  }

  /** The order of the first three failures. */
  lemma ValidateConfigOrder(config: UpiConfig)
    ensures !Truthy(config.provider) ==> ValidateConfig(config) == Fail("Provider is required")
    ensures Truthy(config.provider) && ProviderNamed(config.provider.value).None? ==>
      ValidateConfig(config).Failure?
      && ValidateConfig(config).error.message
         == "Invalid provider: " + config.provider.value + ". Must be one of: "
            + ("razorpay" + ", " + "cashfree" + ", " + "phonepe" + ", " + "paytm"
               + ", " + "googlepay" + ", " + "bharatpe" + ", " + "payu")
    ensures Truthy(config.provider) && ProviderNamed(config.provider.value).Some? && config.credentials.None? ==>
      ValidateConfig(config) == Fail("Credentials are required")
  {
    if Truthy(config.provider) {
      ValidProvidersAreNames(config.provider.value);
      if ProviderNamed(config.provider.value).None? {
        UnknownProviderMessage(config);
      }
    }
  }

  /** The message for a key outside the table lists the seven keys in the table's order. */
  lemma UnknownProviderMessage(config: UpiConfig)
    requires Truthy(config.provider) && config.provider.value !in ValidProviders
    ensures ValidateConfig(config)
         == Fail("Invalid provider: " + config.provider.value + ". Must be one of: "
                 + ("razorpay" + ", " + "cashfree" + ", " + "phonepe" + ", " + "paytm"
                    + ", " + "googlepay" + ", " + "bharatpe" + ", " + "payu"))
  {
    ValidProvidersJoined();
  }

  /** Only the configured provider's own fields matter: two credential bags that agree on its
      row get the same verdict, whatever other providers' fields they hold or lack. */
  lemma ValidateConfigLocal(config: UpiConfig, other: Credentials)
    requires Truthy(config.provider) && config.credentials.Some?
    requires ProviderNamed(config.provider.value).Some?
    requires forall f :: f in RequiredFields(ProviderNamed(config.provider.value).value) ==>
               Get(other, f) == Get(config.credentials.value, f)
    ensures ValidateConfig(config.(credentials := Some(other))) == ValidateConfig(config)
  {
    var p := ProviderNamed(config.provider.value).value;
    var c := config.credentials.value;
    var fs := RequiredFields(p);
    ValidProvidersAreNames(config.provider.value);
    forall i | 0 <= i < |fs|
      ensures Present(other, fs[i]) == Present(c, fs[i])
    {
      assert fs[i] in fs;
    }
    CheckCredentialsSameRow(p, c, other);
    assert ValidateConfig(config) == CheckCredentials(p, c);
    assert ValidateConfig(config.(credentials := Some(other))) == CheckCredentials(p, other);
  }

  /** The text credential fields each adapter itself reads when it signs or addresses a
      request. PhonePe's `saltIndex`, a number that goes into its X-VERIFY header, is not a
      field the validator knows, so it is not listed. */
  function AdapterFields(p: ProviderName): seq<Field> {
    match p
    case Razorpay => [KeyId, KeySecret]
    case Cashfree => [AppId, SecretKey]
    case PhonePe => [MerchantId, SaltKey]
    case Paytm => [Mid, MerchantKey]
    case GooglePay => [MerchantUPI, MerchantName]
    case BharatPe => [ApiKey]
    case PayU => [MerchantKey, MerchantSalt]
  }

  /** As written, the PayU check reads `keyId`, a field the PayU adapter never uses, instead of
      `merchantKey`, the one its message names and its hash starts with: a PayU configuration
      with `merchantKey` and `merchantSalt` is rejected, and one without `merchantKey` passes. */
  lemma PayUCheckMissesMerchantKey(c: Credentials)
    requires Present(c, MerchantSalt)
    ensures Present(c, MerchantKey) && !Present(c, KeyId) ==>
      ValidateConfig(UpiConfig(Some("payu"), Some(c), None, None)).Failure?
    ensures !Present(c, MerchantKey) && Present(c, KeyId) ==>
      ValidateConfig(UpiConfig(Some("payu"), Some(c), None, None)).Success?
  {
  }

  /** `validateConfig` with the PayU row corrected to merchantKey and merchantSalt. */
  function ValidateConfigIntended(config: UpiConfig): (r: Check)
    ensures r.Success? ==>
      && Truthy(config.provider) && ProviderNamed(config.provider.value).Some? && config.credentials.Some?
      && HasAll(config.credentials.value, AdapterFields(ProviderNamed(config.provider.value).value))
  {
    if Truthy(config.provider) && config.provider.value == "payu" && config.credentials.Some? then
      var c := config.credentials.value;
      if !Present(c, MerchantKey) || !Present(c, MerchantSalt) then Fail("PayU requires merchantKey and merchantSalt")
      else Success(())
    else
      ValidateConfigTable(config);
      ValidateConfig(config)
  }

  /** With the correction, a configuration that passes gives its adapter every field it reads. */
  lemma ValidateConfigIntendedPayU(c: Credentials)
    ensures ValidateConfigIntended(UpiConfig(Some("payu"), Some(c), None, None)).Success?
        <==> Present(c, MerchantKey) && Present(c, MerchantSalt)
  {
  }

  // ---- the grammars ----

  /** `[^\s@]+` */
  predicate IsPlain(s: string) {
    s != [] && forall k :: 0 <= k < |s| ==> !Text.IsJsWhitespace(s[k]) && s[k] != '@'
  }

  /** The email pattern `^[^\s@]+@[^\s@]+\.[^\s@]+$` as the regular expression reads it: some
      `@` at i and some later `.` at j split the string into three non-empty plain parts. */
  ghost predicate MatchesEmailPattern(s: string) {
    exists i, j :: 0 < i && i + 1 < j && j + 1 < |s| && s[i] == '@' && s[j] == '.'
      && IsPlain(s[..i]) && IsPlain(s[i + 1..j]) && IsPlain(s[j + 1..])
  }

  /** `isValidEmail`, computed: no whitespace, exactly one `@` with something before it, and a
      `.` after it that is neither the first nor the last character of the domain. */
  predicate IsValidEmail(s: string)
    ensures IsValidEmail(s) ==> |s| >= 5
  {
    && (forall k :: 0 <= k < |s| ==> !Text.IsJsWhitespace(s[k]))
    && '@' in s
    && var i := Text.IndexOf(s, '@');
       var d := s[i + 1..];
       && i > 0 && '@' !in d
       && exists j :: 0 < j < |d| - 1 && d[j] == '.'
  }

  /** The first occurrence of `c` is at `i` when `i` holds `c` and nothing before it does. */
  lemma FirstAt(s: string, c: char, i: nat)
    requires i < |s| && s[i] == c && forall k :: 0 <= k < i ==> s[k] != c
    ensures c in s && Text.IndexOf(s, c) == i
  {
    assert c !in s[..i] by {
      assert forall k :: 0 <= k < i ==> s[..i][k] == s[k];
    }
    Text.IndexOfPrefix(s[..i], s[i..], c);
    assert s[..i] + s[i..] == s;
  }

  lemma EmailComputedToPattern(s: string)
    requires IsValidEmail(s)
    ensures MatchesEmailPattern(s)
  {
    var i := Text.IndexOf(s, '@');
    var d := s[i + 1..];
    var j :| 0 < j < |d| - 1 && d[j] == '.';
    var jj := i + 1 + j;
    assert s[jj] == '.';
    assert forall k :: 0 <= k < |d| ==> d[k] != '@';
    assert forall k :: 0 <= k < i ==> s[..i][k] == s[k] && s[k] != '@';
    assert IsPlain(s[..i]);
    assert s[i + 1..jj] == d[..j];
    assert IsPlain(d[..j]);
    assert s[jj + 1..] == d[j + 1..];
    assert IsPlain(d[j + 1..]);
  }

  lemma EmailPatternToComputed(s: string, i: nat, j: nat)
    requires 0 < i && i + 1 < j && j + 1 < |s| && s[i] == '@' && s[j] == '.'
    requires IsPlain(s[..i]) && IsPlain(s[i + 1..j]) && IsPlain(s[j + 1..])
    ensures IsValidEmail(s)
  {
    assert forall k :: 0 <= k < i ==> s[k] == s[..i][k];
    assert forall k :: i < k < j ==> s[k] == s[i + 1..j][k - i - 1];
    assert forall k :: j < k < |s| ==> s[k] == s[j + 1..][k - j - 1];
    assert forall k :: 0 <= k < |s| ==> !Text.IsJsWhitespace(s[k]);
    FirstAt(s, '@', i);
    var d := s[i + 1..];
    assert forall k :: 0 <= k < |d| ==> d[k] == s[i + 1 + k] && d[k] != '@';
    assert d[j - i - 1] == '.';
  }

  /** The computed check accepts exactly the strings the email pattern matches. */
  lemma IsValidEmailMatchesPattern(s: string)
    ensures IsValidEmail(s) <==> MatchesEmailPattern(s)
  {
    if IsValidEmail(s) {
      EmailComputedToPattern(s);
    }
    if MatchesEmailPattern(s) {
      var i, j :| 0 < i && i + 1 < j && j + 1 < |s| && s[i] == '@' && s[j] == '.'
        && IsPlain(s[..i]) && IsPlain(s[i + 1..j]) && IsPlain(s[j + 1..]);
      EmailPatternToComputed(s, i, j);
    }
  }

  /** `\d`: ASCII digits only. */
  function DigitsOnly(s: string): (r: string)
    ensures |r| <= |s| && forall k :: 0 <= k < |r| ==> Text.IsDigit(r[k])
  {
    if s == [] then [] else (if Text.IsDigit(s[0]) then [s[0]] else []) + DigitsOnly(s[1..])
  }

  /** Deleting the non-digits of a concatenation deletes them from each part: the digits of
      the input survive, in their order. */
  lemma {:induction false} DigitsOnlyAppend(a: string, b: string)
    ensures DigitsOnly(a + b) == DigitsOnly(a) + DigitsOnly(b)
  {
    if a != [] {
      DigitsOnlyAppend(a[1..], b);
      var head := if Text.IsDigit(a[0]) then [a[0]] else [];
      assert (a + b)[0] == a[0] && (a + b)[1..] == a[1..] + b;
      calc {
        DigitsOnly(a + b);
        head + DigitsOnly(a[1..] + b);
        head + (DigitsOnly(a[1..]) + DigitsOnly(b));
        (head + DigitsOnly(a[1..])) + DigitsOnly(b);
        DigitsOnly(a) + DigitsOnly(b);
      }
    } else {
      assert a + b == b;
    }
  }

  /** A single character is kept iff it is a digit. */
  lemma DigitsOnlyChar(c: char)
    ensures DigitsOnly([c]) == if Text.IsDigit(c) then [c] else []
  {
    assert [c][1..] == [];
  }

  /** `isValidPhone`: `^[6-9]\d{9}$` on the string with every non-digit deleted. */
  predicate IsValidPhone(s: string)
    ensures IsValidPhone(s) ==> |s| >= 10
  {
    var d := DigitsOnly(s);
    |d| == 10 && '6' <= d[0] <= '9'
  }

  /** `[a-zA-Z0-9]` */
  predicate IsAlnum(c: char) {
    ('a' <= c <= 'z') || ('A' <= c <= 'Z') || ('0' <= c <= '9')
  }

  /** `[a-zA-Z0-9._-]` */
  predicate IsVpaLocalChar(c: char) {
    IsAlnum(c) || c == '.' || c == '_' || c == '-'
  }

  /** The VPA pattern `^[a-zA-Z0-9._-]+@[a-zA-Z0-9]+$` as the regular expression reads it. */
  ghost predicate MatchesVpaPattern(s: string) {
    exists i :: 0 < i < |s| - 1 && s[i] == '@'
      && (forall k :: 0 <= k < i ==> IsVpaLocalChar(s[k]))
      && (forall k :: i < k < |s| ==> IsAlnum(s[k]))
  }

  /** `isValidUPI`, computed from the first `@`. */
  predicate IsValidUpi(s: string)
    ensures IsValidUpi(s) ==> |s| >= 3
  {
    '@' in s &&
    var i := Text.IndexOf(s, '@');
    0 < i < |s| - 1
    && (forall k :: 0 <= k < i ==> IsVpaLocalChar(s[k]))
    && (forall k :: i < k < |s| ==> IsAlnum(s[k]))
  }

  /** The computed check accepts exactly the `L@H` strings of the pattern, and such a string has
      exactly one `@`. */
  lemma IsValidUpiMatchesPattern(s: string)
    ensures IsValidUpi(s) <==> MatchesVpaPattern(s)
    ensures IsValidUpi(s) ==> forall k :: 0 <= k < |s| && s[k] == '@' ==> k == Text.IndexOf(s, '@')
  {
    if MatchesVpaPattern(s) {
      var i :| 0 < i < |s| - 1 && s[i] == '@'
        && (forall k :: 0 <= k < i ==> IsVpaLocalChar(s[k]))
        && (forall k :: i < k < |s| ==> IsAlnum(s[k]));
      FirstAt(s, '@', i);
    }
  }

  // ---- validateOrderParams and validateUPIParams ----

  /** `validateOrderParams`: amount, currency, email, contact, in this order. */
  function ValidateOrderParams(p: CreateOrderParams): (r: Check)
    ensures r.Success? ==> p.amount > 0
    ensures r.Failure? ==> r.error.code == "VALIDATION_ERROR" && r.error.statusCode == 400
  {
    var email := Customer(p, (c: CustomerInfo) => c.email);
    var contact := Customer(p, (c: CustomerInfo) => c.contact);
    if p.amount <= 0 then Fail("Amount must be greater than 0")
    else if Truthy(p.currency) && p.currency.value != "INR" then Fail("Currently only INR currency is supported")
    else if Truthy(email) && !IsValidEmail(email.value) then Fail("Invalid email address")
    else if Truthy(contact) && !IsValidPhone(contact.value) then Fail("Invalid phone number")
    else Success(())
  }

  /** Order parameters pass exactly when the amount is positive, the currency is absent, empty
      or "INR", and an email or contact that is given is well formed; the first failing check
      names the error. */
  lemma ValidateOrderParamsSpec(p: CreateOrderParams)
    ensures var email := Customer(p, (c: CustomerInfo) => c.email);
      var contact := Customer(p, (c: CustomerInfo) => c.contact);
      ValidateOrderParams(p).Success?
      <==> && p.amount > 0
           && (p.currency.None? || p.currency.value in {"", "INR"})
           && (Truthy(email) ==> IsValidEmail(email.value))
           && (Truthy(contact) ==> IsValidPhone(contact.value))
    ensures p.amount <= 0 ==> ValidateOrderParams(p) == Fail("Amount must be greater than 0")
    ensures p.amount > 0 && Truthy(p.currency) && p.currency.value != "INR" ==>
      ValidateOrderParams(p) == Fail("Currently only INR currency is supported")
    ensures var email := Customer(p, (c: CustomerInfo) => c.email);
      (p.amount > 0 && !(Truthy(p.currency) && p.currency.value != "INR")
       && Truthy(email) && !IsValidEmail(email.value)) ==>
      ValidateOrderParams(p) == Fail("Invalid email address")
    ensures var email := Customer(p, (c: CustomerInfo) => c.email);
      var contact := Customer(p, (c: CustomerInfo) => c.contact);
      (p.amount > 0 && !(Truthy(p.currency) && p.currency.value != "INR")
       && (Truthy(email) ==> IsValidEmail(email.value))
       && Truthy(contact) && !IsValidPhone(contact.value)) ==>
      ValidateOrderParams(p) == Fail("Invalid phone number")
  {
  }

  /** `validateUPIParams`. `isNonPositive(am)` stands for `parseFloat(am) <= 0`, which is false
      for text that does not parse as a number. */
  function ValidateUpiParams(p: UpiLinkParams, isNonPositive: string -> bool): (r: Check)
    ensures r.Success? ==> Truthy(p.pa) && Truthy(p.pn) && Truthy(p.am) && '@' in p.pa.value
    ensures r.Failure? ==> r.error.code == "VALIDATION_ERROR" && r.error.statusCode == 400
  {
    if !Truthy(p.pa) then Fail("Payee address (pa) is required")
    else if !Truthy(p.pn) then Fail("Payee name (pn) is required")
    else if !Truthy(p.am) || isNonPositive(p.am.value) then Fail("Amount must be greater than 0")
    else if !IsValidUpi(p.pa.value) then Fail("Invalid UPI address format")
    else Success(())
  }

  /** pa present, pn present, amount positive, pa a VPA, checked in this order: only the first
      failure is raised, and the VPA grammar is consulted only after the other three pass. */
  lemma ValidateUpiParamsOrder(p: UpiLinkParams, isNonPositive: string -> bool)
    ensures !Truthy(p.pa) ==> ValidateUpiParams(p, isNonPositive) == Fail("Payee address (pa) is required")
    ensures Truthy(p.pa) && !Truthy(p.pn) ==>
      ValidateUpiParams(p, isNonPositive) == Fail("Payee name (pn) is required")
    ensures Truthy(p.pa) && Truthy(p.pn) && (!Truthy(p.am) || isNonPositive(p.am.value)) ==>
      ValidateUpiParams(p, isNonPositive) == Fail("Amount must be greater than 0")
    ensures (Truthy(p.pa) && Truthy(p.pn) && Truthy(p.am) && !isNonPositive(p.am.value)
             && !MatchesVpaPattern(p.pa.value)) ==>
      ValidateUpiParams(p, isNonPositive) == Fail("Invalid UPI address format")
    ensures ValidateUpiParams(p, isNonPositive).Success?
        <==> Truthy(p.pa) && Truthy(p.pn) && Truthy(p.am) && !isNonPositive(p.am.value)
             && MatchesVpaPattern(p.pa.value)
  {
    if Truthy(p.pa) {
      IsValidUpiMatchesPattern(p.pa.value);
    }
  }
}
