# unified-upi-payment in Dafny

This project models `unified-upi-payment`, a TypeScript package that puts one interface
(`UnifiedUPIPayment`) over several Indian UPI payment gateways. It states and proves the
package's behaviour. The model covers:

- **Input validation.** The per-provider credential table, the order and deep-link guards, and
  the e-mail, phone and VPA grammars (`Validator`, `Utils`).
- **The UPI deep link.** `generateUPILink` fills a `URLSearchParams` in a fixed order and
  serialises it as `application/x-www-form-urlencoded`, following section 5.2 of the WHATWG URL
  Standard (`BaseProvider`, `FormUrlencoded`, `Utf8`).
- **The adapters.** For Razorpay, Cashfree, PhonePe, PayU and Google Pay: the exact text each
  one hashes, how `createOrder` builds a request and shapes the reply or wraps the error, and
  how `verifyPayment` recomputes and compares (`Razorpay`, `Cashfree`, `PhonePe`, `PayU`,
  `GooglePay`).
- **The façade.** The one-time choice of adapter, delegation of every call, and the
  capability table (`Facade`).
- **The error taxonomy** (`Errors`).
- **The retry loop.** `withRetry` with its callbacks and waits, recorded as events (`Retry`).

How the model treats collaborators:

- **Digests and JSON.** SHA-256, SHA-512, HMAC-SHA256, base64 and `JSON.stringify` are fields of
  a `Digest.Toolkit` value. Every statement holds for all of them. Hex encoding is defined in the
  model, so "a hex digest contains only `0-9a-f`" is proved rather than assumed.
- **Outside inputs.** The clock, the Razorpay SDK, `fetch`, the QR renderer and `parseFloat`
  are parameters.
- **Thrown errors.** A thrown error is the `Failure` branch of a `Result`.
- **State.** Objects whose fields the source updates are classes. Everything else is a value.

`BaseProvider` declares `getTransactionStatus`, `refundPayment` and `verifyWebhookSignature` as
abstract methods (src/providers/base.provider.ts:28-30). No adapter in the model implements them,
so the model has no status lookup, refund or webhook check.

## Model

| member | source | states |
|---|---|---|
| Types.ProviderNamed | src/index.ts:23-33 | a key names a provider only if it is that provider's configuration key |
| Types.ProviderNamedOf | src/index.ts:23-33 | every provider's key looks up that provider |
| Errors.PlainError | src/providers/cashfree.provider.ts:48 | a plain `Error` keeps its message and has no own enumerable properties, so spreading it into details adds nothing |
| Errors.PaymentError | src/errors/index.ts:6-13 | the base constructor keeps the message, code and details as given, and the status code is 500 when none is given |
| Errors.ValidationError | src/errors/index.ts:16-21 | the code reads back as the validation kind, the status is 400, and the message and details are kept |
| Errors.ProviderError | src/errors/index.ts:23-28 | the code reads back as the provider kind and the status is 502; the details always have a `provider` key, and hold only it when no details are given |
| Errors.ConfigurationError | src/errors/index.ts:30-35 | the code reads back as the configuration kind, the status is 500, and the message and details are kept |
| Errors.NetworkError | src/errors/index.ts:37-42 | the code reads back as the network kind, the status is 503, and the message and details are kept |
| Errors.TimeoutError | src/errors/index.ts:44-49 | the code reads back as the timeout kind, the status is 504, and the message and details are kept |
| Errors.ErrorTable | src/errors/index.ts:16-49 | each subclass has a fixed name, code and status code: ValidationError 400, ProviderError 502, ConfigurationError 500, NetworkError 503, TimeoutError 504; the message and the details are kept as given |
| Errors.CodeIdentifiesKind | src/errors/index.ts:16-49 | the machine-readable code of an error gives back its subclass |
| Errors.BaseDefaults | src/errors/index.ts:6-8 | the base error's status code defaults to 500, and its name is UPIPaymentError |
| Errors.ProviderDetails | src/errors/index.ts:23-28 | a ProviderError's details always hold `provider`; a `provider` key in the given details overrides the argument; every other given entry is kept and nothing else is added |
| Validator.ValidateConfig | src/utils/validator.ts:4-56 | a configuration that passes names one of the seven providers and has credentials; every rejection is a ValidationError (code VALIDATION_ERROR, status 400) |
| Validator.CheckCredentials | src/utils/validator.ts:19-55 | a passing provider check has the first field of that provider's row; every rejection is a ValidationError |
| Validator.ValidProvidersAreNames | src/utils/validator.ts:9-10 | the list of valid providers holds exactly the seven provider keys |
| Validator.ValidProvidersJoined | src/utils/validator.ts:11 | the list joined with ", " is the text of the invalid-provider message |
| Validator.CheckCredentialsTable | src/utils/validator.ts:19-55 | the provider switch passes iff every field in the provider's row is present and non-empty |
| Validator.CheckCredentialsSameRow | src/utils/validator.ts:19-55 | two credential bags with the same presence of the provider's row fields get the same result from the switch, message included |
| Validator.ValidateConfigTable | src/utils/validator.ts:4-56 | a configuration passes iff it names one of the seven providers, has credentials, and has every field of that provider's row |
| Validator.ValidateConfigOrder | src/utils/validator.ts:5-16 | a missing provider is reported first, then an unknown provider (with the full message), then missing credentials |
| Validator.UnknownProviderMessage | src/utils/validator.ts:9-12 | a key outside the table fails with "Invalid provider: <key>. Must be one of: " and the seven keys joined with ", " in the table's order |
| Validator.ValidateConfigLocal | src/utils/validator.ts:19-55 | two credential bags that agree on the configured provider's row get the same verdict, so another provider's fields never matter |
| Validator.PayUCheckMissesMerchantKey | src/utils/validator.ts:50-53 | as written, a PayU configuration with merchantKey and merchantSalt but no keyId is rejected, and one with keyId but no merchantKey passes |
| Validator.ValidateConfigIntended | src/utils/validator.ts:50-53 | with the PayU row corrected, a configuration that passes supplies every text credential field its adapter reads; PhonePe's numeric `saltIndex` is not among the checked fields |
| Validator.ValidateConfigIntendedPayU | src/utils/validator.ts:50-53 | the corrected PayU check passes iff merchantKey and merchantSalt are both present |
| Validator.IsValidEmail | src/utils/validator.ts:95-98 | an accepted address has at least five characters (`a@b.c`) |
| Validator.FirstAt | src/utils/validator.ts:95-98 | a position holding `c`, with no `c` before it, is where the first occurrence of `c` is found |
| Validator.EmailComputedToPattern | src/utils/validator.ts:95-98 | every address the computed check accepts matches `^[^\s@]+@[^\s@]+\.[^\s@]+$` |
| Validator.EmailPatternToComputed | src/utils/validator.ts:95-98 | every address built as plain@plain.plain is accepted by the computed check |
| Validator.IsValidEmailMatchesPattern | src/utils/validator.ts:95-98 | the computed e-mail check accepts exactly the strings the regular expression matches |
| Validator.DigitsOnly | src/utils/validator.ts:100-103 | deleting every non-digit leaves only ASCII digits and never lengthens the text |
| Validator.DigitsOnlyAppend | src/utils/validator.ts:102 | deleting non-digits from a concatenation is deleting them from each part and concatenating, so every digit of the input survives, in order |
| Validator.DigitsOnlyChar | src/utils/validator.ts:102 | a single digit is kept and any other single character is deleted |
| Validator.IsValidPhone | src/utils/validator.ts:100-103 | an accepted contact has at least ten characters |
| Validator.IsValidUpi | src/utils/validator.ts:105-108 | an accepted VPA has at least three characters |
| Validator.IsValidUpiMatchesPattern | src/utils/validator.ts:105-108 | the computed VPA check accepts exactly the `L@H` strings of the pattern, and an accepted string has exactly one '@' |
| Validator.ValidateOrderParams | src/utils/validator.ts:58-74 | passing parameters have a positive amount; every rejection is a ValidationError |
| Validator.ValidateOrderParamsSpec | src/utils/validator.ts:58-74 | order parameters pass iff all of these hold: the amount is positive; the currency is absent, empty or "INR"; any e-mail given is valid; any contact given is valid. The first failing check raises its own message: "Amount must be greater than 0", "Currently only INR currency is supported" for any other non-empty currency, "Invalid email address", "Invalid phone number" |
| Validator.ValidateUpiParams | src/utils/validator.ts:76-92 | passing parameters have a non-empty pa, pn and am, and pa contains '@'; every rejection is a ValidationError |
| Validator.ValidateUpiParamsOrder | src/utils/validator.ts:76-92 | pa, then pn, then the amount, then the VPA grammar: only the first failure is raised, with its own message (the last being "Invalid UPI address format"), and the parameters pass iff all four checks hold |
| Utils.SanitizePhoneNumber | src/utils/index.ts:39-49 | the result holds only digits and is never longer than the input |
| Utils.DigitsOnlyOfDigits | src/utils/index.ts:39-42 | deleting the non-digits of a digit string leaves it unchanged |
| Utils.SanitizeCountryCode | src/utils/index.ts:44-48 | a cleaned 12-digit number starting with 91 loses exactly those two digits; any other cleaned number is returned whole |
| Utils.SanitizeIdempotent | src/utils/index.ts:39-49 | sanitising twice gives the same result as sanitising once |
| Utils.SanitizeValidPhone | src/utils/index.ts:39-49 | sanitising a contact the validator accepts gives a bare 10-digit number that the validator still accepts |
| Utils.CountryCodeRejectedByValidator | src/utils/index.ts:39-49 | for any valid 10-digit number n, the validator rejects "+91"+n, while sanitising "+91"+n gives n |
| Utils.IsValidUpiId | src/utils/index.ts:34-37 | an accepted VPA contains '@', neither first nor last |
| Utils.IsValidUpiIdPattern | src/utils/index.ts:34-37 | `isValidUPIId` accepts exactly the strings of the validator's VPA pattern |
| Utils.Remove | src/utils/index.ts:18 | deleting a character class keeps only characters of the input that lie outside the class |
| Utils.RemoveAppend | src/utils/index.ts:18 | deleting a class from a concatenation is deleting it from each part and concatenating, so every character outside the class survives, in order |
| Utils.RemoveChar | src/utils/index.ts:18 | a single character is deleted iff it is in the class |
| Utils.NoClassCharKept | src/utils/index.ts:18 | a text with no character of the class is left unchanged |
| Utils.TrimKeeps | src/utils/index.ts:18 | trimming keeps only characters of the input |
| Utils.CleanAmount | src/utils/index.ts:18 | as written, no character of the written class (U+00E2, U+201A, U+00B9, comma) survives cleaning |
| Utils.CleanAmountKeeps | src/utils/index.ts:18 | for text without white space, cleaning is exactly the class deletion (the trim removes nothing), for both the written and the intended class |
| Utils.ThousandsSeparator | src/utils/index.ts:18 | "1,000" cleans to "1000" with either class |
| Utils.CleanAmountIntended | src/utils/index.ts:18 | with the intended class, no rupee sign and no comma survives cleaning |
| Utils.RupeeSignSurvives | src/utils/index.ts:18 | as written, "₹5" cleans to "₹5", which `parseFloat` cannot read |
| Utils.RupeeSignRemovedIntended | src/utils/index.ts:18 | with the intended class, "₹5" cleans to "5" |
| Utils.ParseAmount | src/utils/index.ts:14-26 | as written: a number is returned unchanged; text fails with "Invalid amount: <text>" iff its form cleaned with the written class does not parse, and otherwise gives the parsed value |
| Utils.ParseAmountIntended | src/utils/index.ts:14-26 | the same with the intended class `[₹,]` |
| Utils.ParseAmountRupeeThrows | src/utils/index.ts:18-23 | as written, `parseAmount("₹5")` throws "Invalid amount: ₹5" whenever `parseFloat` cannot read "₹5" |
| Utils.ParseAmountIntendedRupee | src/utils/index.ts:18-23 | with the intended class, "₹5" gives the parsed value of "5" |
| Utils.ParseAmountThousands | src/utils/index.ts:18-23 | both versions agree on "1,000", which succeeds iff "1000" parses |
| Retry.Defaults | src/utils/retry.ts:12-17 | maxRetries 3, delay 1000 and backoff true unless given; given values are kept |
| Retry.Trace | src/utils/retry.ts:21-38 | a run from attempt a has no events iff a > maxRetries |
| Retry.WithRetry | src/utils/retry.ts:8-39 | after the destructuring defaults, the loop returns exactly the outcome and the event log (calls, onRetry calls, sleeps) of the recursive run definition |
| Retry.Attempts | src/utils/retry.ts:19-38 | the `for` loop, with `lastError` and the attempt counter as variables, returns exactly the outcome and the event log of the recursive run from attempt 1 |
| Retry.CallCountZero | src/utils/retry.ts:21-23 | a log counts no call iff none of its events is a call |
| Retry.TraceCallCount | src/utils/retry.ts:21 | from attempt a on, at most maxRetries − a + 1 calls are made |
| Retry.CallsAtMostMaxRetries | src/utils/retry.ts:21 | `fn` is called at most maxRetries times, and never when maxRetries is not positive |
| Retry.TraceResult | src/utils/retry.ts:21-38 | a success is the value of an attempt whose earlier attempts all failed; a failure after any attempt is the error of attempt maxRetries, and every attempt failed; with no attempt left, the kept error is thrown with no events |
| Retry.TraceRetries | src/utils/retry.ts:24-34 | every onRetry(e, k) directly follows the failed call k that threw e, is followed by a sleep of that attempt's wait, and is never emitted after the final call |
| Retry.TraceCallsRetried | src/utils/retry.ts:24-31 | conversely, every call k from the starting attempt to maxRetries that fails before the final attempt is directly followed by onRetry with its error and k |
| Retry.NoAttempts | src/utils/retry.ts:21-38 | with maxRetries ≤ 0, `fn` is never called and the undefined `lastError` is thrown |
| Retry.FirstSuccessReturned | src/utils/retry.ts:22-23 | the first successful attempt's value is returned, and its call is the last event |
| Retry.AllFailRethrowsLast | src/utils/retry.ts:26-28 | when every attempt fails, the final attempt's error is rethrown, after exactly three events per non-final attempt plus the final call |
| Retry.WaitsValues | src/utils/retry.ts:33-34 | the wait after failed attempt k is delay × k with backoff and delay otherwise; there is no wait after the final attempt |
| Retry.AllFailWaits | src/utils/retry.ts:24-36 | a run whose attempts all fail sleeps exactly that schedule |
| Retry.DefaultSchedule | src/utils/retry.ts:12-36 | with the defaults, three failures sleep 1000 ms then 2000 ms and rethrow the third error |
| FormUrlencoded.EncodeAlphabet | src/providers/base.provider.ts:36-48 | an encoded value never contains '&' or '=' |
| FormUrlencoded.EncodeExamples | src/providers/base.provider.ts:36-48 | a space becomes '+', '@' becomes "%40", and ASCII alphanumerics and `*-._` are unchanged |
| FormUrlencoded.DecodeEncode | src/providers/base.provider.ts:36-48 | decoding an encoded value gives the value back |
| FormUrlencoded.DecodeEncodedByte | src/providers/base.provider.ts:36-48 | the encoding of one byte (kept, `+` for space, or `%XX`) decodes back to that byte whatever follows it |
| FormUrlencoded.ParseSerialize | src/providers/base.provider.ts:36-48 | parsing a serialised pair list gives back exactly the pairs, in order |
| FormUrlencoded.SerializeSnoc | src/providers/base.provider.ts:36-48 | appending a pair appends "&name=value" to a non-empty serialisation |
| Utf8.DecodeEncode | src/providers/phonepe.provider.ts:74 | the UTF-8 bytes of a string, the bytes a digest of that string receives, decode back to the string |
| Utf8.EncodeInjective | src/providers/phonepe.provider.ts:74 | different strings are hashed as different byte strings |
| Utf8.EncodeAppend | src/providers/phonepe.provider.ts:73-74 | the bytes of a concatenation are the concatenation of the bytes |
| Digest.HexAlphabet | src/providers/phonepe.provider.ts:74 | a hex digest holds only `0-9a-f` |
| Digest.HexHasNo | src/providers/phonepe.provider.ts:74 | a hex digest contains no character outside that alphabet, such as '#' or the pipe |
| Text.SplitJoin | src/providers/payu.provider.ts:17 | splitting a separator-joined list of separator-free fields gives the fields back |
| Text.JoinInjective | src/providers/payu.provider.ts:17 | two lists of separator-free fields that join to the same text are equal |
| Text.IndexOfPrefix | src/providers/razorpay.provider.ts:45 | the first separator in a+b, when a has none, is at |a| plus its position in b |
| BaseProvider.BaseInit | src/providers/base.provider.ts:19-24 | the constructor stores its arguments as given; an undefined environment becomes "production" |
| BaseProvider.EnvironmentUrl | src/providers/cashfree.provider.ts:10-15 | the production URL is chosen iff the defaulted environment is exactly "production" |
| BaseProvider.SearchParams.constructor | src/providers/base.provider.ts:36 | a new parameter list is empty |
| BaseProvider.SearchParams.Append | src/providers/base.provider.ts:38-46 | `append` adds the pair at the end and keeps every earlier pair |
| BaseProvider.Get | src/providers/base.provider.ts:36-48 | a name's value is that of its first pair, and it is present iff some pair has the name |
| BaseProvider.GetAppend | src/providers/base.provider.ts:38-46 | looking a name up in appended lists finds it in the first list if it is there, otherwise in the second |
| BaseProvider.LinkPairs | src/providers/base.provider.ts:33-46 | the pair list has four to eight pairs and opens with the four fixed ones |
| BaseProvider.UpiLink | src/providers/base.provider.ts:35-48 | the link is "upi://pay?" followed by a non-empty query |
| BaseProvider.GenerateUpiLink | src/providers/base.provider.ts:32-49 | the method's sequence of `append` calls yields the link defined by the pair list, for any parameters |
| BaseProvider.LinkPairsFixed | src/providers/base.provider.ts:33-41 | pa, pn, am and cu always open the link in that order, even when empty; cu is "INR" when omitted |
| BaseProvider.LinkPairsOrder | src/providers/base.provider.ts:38-46 | each name appears at most once, in the order pa, pn, am, cu, tn, tr, mc, url |
| BaseProvider.LinkPairsOptional | src/providers/base.provider.ts:43-46 | tn, tr, mc and url are present iff given non-empty, with their values |
| BaseProvider.OptionalPairsGet | src/providers/base.provider.ts:43-46 | a name the four fixed pairs do not use reads the first of tn, tr, mc, url that it names and that was given non-empty, and is absent otherwise |
| BaseProvider.UpiLinkReadsBack | src/providers/base.provider.ts:35-48 | the link starts with "upi://pay?", and its query parses back to exactly the appended pairs |
| BaseProvider.UpiLinkInjective | src/providers/base.provider.ts:32-49 | two equal links carry the same pairs |
| BaseProvider.GenerateQrCode | src/providers/base.provider.ts:51-54 | the renderer receives exactly the deep link, and its outcome is returned |
| BaseProvider.Log | src/providers/base.provider.ts:56-73 | nothing happens without a logger, with `false`, or with a level other than the four; a logger object receives the four levels; `true` as the logger throws a TypeError |
| BaseProvider.WrapFailure | src/providers/razorpay.provider.ts:37-39 | a caught error becomes a ProviderError: "<Vendor>: " plus the message, code PROVIDER_ERROR, status 502, and the error's own properties spread after the provider key |
| BaseProvider.Creds | src/providers/razorpay.provider.ts:15 | reading a credential without credentials throws the TypeError for reading that property of undefined |
| BaseProvider.JStr | src/providers/cashfree.provider.ts:33-38 | an undefined optional member becomes the undefined JSON value (the one `JSON.stringify` omits), and a present one is carried as that string |
| Razorpay.Request | src/providers/razorpay.provider.ts:19-26 | the SDK request has the amount in paise, currency "INR" and receipt `order_<now>` unless given non-empty, the notes as given, immediate capture and no partial payment |
| Razorpay.Shape | src/providers/razorpay.provider.ts:28-36 | the order amount × 100 is the SDK's amount in paise; id and currency are the SDK's, with status created and provider razorpay |
| Razorpay.CreateOrderOutcome | src/providers/razorpay.provider.ts:11-40 | a success needs the SDK loaded and constructed from the credentials and names razorpay; every failure is a PROVIDER_ERROR with status 502 |
| Razorpay.RazorpayProvider.constructor | src/providers/base.provider.ts:19-24 | the inherited constructor stores the base fields, and there is no client yet |
| Razorpay.RazorpayProvider.CreateOrder | src/providers/razorpay.provider.ts:11-40 | the outcome is that of the order definition; the client is replaced by one built from the credentials exactly when loading and constructing the SDK succeed, and is left as it was otherwise |
| Razorpay.CreateOrderSpec | src/providers/razorpay.provider.ts:11-40 | success iff there are credentials, the SDK loads and constructs, and `orders.create` succeeds; a construction failure is wrapped as is; the order carries the SDK's id, its amount ÷ 100 and its currency, with status created and provider razorpay; any failure is a ProviderError "Razorpay: " plus the original message |
| Razorpay.RazorpayProvider.VerifyPayment | src/providers/razorpay.provider.ts:42-48 | true iff the signature is the hex HMAC-SHA256 of the order id, a pipe and the payment id, under keySecret; it throws iff there is no secret |
| Razorpay.VerifyAcceptsSignature | src/providers/razorpay.provider.ts:43-47 | the recomputed signature is always accepted |
| Razorpay.VerifyReadsOnly | src/providers/razorpay.provider.ts:42-48 | the verdict depends only on the order id, the payment id, the signature and the secret |
| Razorpay.SignedTextInjective | src/providers/razorpay.provider.ts:45 | with order ids free of pipes, the signed text determines both ids |
| Cashfree.CashfreeProvider.constructor | src/providers/cashfree.provider.ts:10-15 | the base fields are set without options, and the base URL is chosen by the environment |
| Cashfree.OrderBody | src/providers/cashfree.provider.ts:27-42 | the posted document has order_id, order_amount (the amount as given), order_currency, customer_details and order_meta, in that order |
| Cashfree.Shape | src/providers/cashfree.provider.ts:51-60 | the order takes id, amount, currency and session id from the reply, with status created, provider cashfree, and no payment URL, link or QR code |
| Cashfree.CashfreeProvider.BuildRequest | src/providers/cashfree.provider.ts:19-26 | the request goes to baseUrl + "/pg/orders" with the app id and secret key as client headers and API version 2023-08-01 |
| Cashfree.CashfreeProvider.CreateOrder | src/providers/cashfree.provider.ts:17-64 | a success is an ok reply's data, shaped; every failure is a ProviderError with the provider named |
| Cashfree.OrderBodyDefaults | src/providers/cashfree.provider.ts:27-42 | order_id is the receipt, or `order_<now>`; the amount is as given; currency defaults to INR; customer_id is the contact, or "guest" |
| Cashfree.CreateOrderSpec | src/providers/cashfree.provider.ts:47-63 | success iff the reply is ok; the order takes its id, amount and session from the reply, with status created and provider cashfree; a reply that is not ok fails with "Cashfree: " and its message, or "Order creation failed" |
| Cashfree.BaseUrlChoice | src/providers/cashfree.provider.ts:12-14 | production iff the environment is "production" or not given; "Production" selects the sandbox |
| Cashfree.CashfreeProvider.VerifyPayment | src/providers/cashfree.provider.ts:66-73 | true iff the signature is the base64 HMAC-SHA256 of orderId followed directly by paymentId under secretKey; it throws iff there is no key |
| Cashfree.VerifyAcceptsSignature | src/providers/cashfree.provider.ts:66-73 | the recomputed signature is always accepted |
| Cashfree.VerifyAmbiguous | src/providers/cashfree.provider.ts:67 | ("ab","c") and ("a","bc") sign the same text and get the same verdict |
| PhonePe.PhonePeProvider.constructor | src/providers/phonepe.provider.ts:10-15 | the base fields are set without options, and the base URL is chosen by the environment |
| PhonePe.GenerateChecksum | src/providers/phonepe.provider.ts:72-75 | the checksum is lower-case hex, so it never contains '#' |
| PhonePe.StatusText | src/providers/phonepe.provider.ts:78 | the status text opens with the payload and closes with the salt key, with 15 characters of path and separators in between besides the merchant and order ids |
| PhonePe.PhonePeProvider.BuildRequest | src/providers/phonepe.provider.ts:37-49 | the request goes to baseUrl + "/pg/v1/pay", and X-VERIFY ends with "###" and the salt index |
| PhonePe.PhonePeProvider.CreateOrder | src/providers/phonepe.provider.ts:17-70 | a success needs a successful reply, and has the transaction id as order id, the amount as given, INR, and the reply's redirect URL; every failure is a ProviderError |
| PhonePe.PayloadFields | src/providers/phonepe.provider.ts:19-25 | the payload carries the transaction id that becomes the order id, the amount × 100, and the contact or "guest" as the user |
| PhonePe.RequestHeader | src/providers/phonepe.provider.ts:37-48 | X-VERIFY, split at its first '#', is the SHA-256 checksum of payload + "/pg/v1/pay" + saltKey, then "###" and the salt index; the body's `request` is that same base64 payload |
| PhonePe.CreateOrderSpec | src/providers/phonepe.provider.ts:51-69 | success iff the reply has success set; otherwise it fails with "PhonePe: " and the reply's message, or "Order creation failed" |
| PhonePe.PhonePeProvider.VerifyPayment | src/providers/phonepe.provider.ts:77-81 | true iff the signature is the hex SHA-256 of payload + "/pg/v1/status/" + merchantId + "/" + orderId + saltKey; it throws iff there are no credentials |
| PhonePe.VerifyAcceptsChecksum | src/providers/phonepe.provider.ts:77-81 | the recomputed checksum is always accepted |
| PhonePe.VerifyRejectsHeaderForm | src/providers/phonepe.provider.ts:77-81 | a signature written as digest + "###" + index is never accepted |
| PayU.RequestHashString | src/providers/payu.provider.ts:17 | the request hash text opens with the key and a pipe, ends with a pipe and the salt, and has 16 pipes besides its seven fields |
| PayU.VerifyHashString | src/providers/payu.provider.ts:66 | the reverse hash text opens with the salt and a pipe, ends with a pipe and the key, and has 17 pipes besides its eight fields |
| PayU.FormPairs | src/providers/payu.provider.ts:21-38 | the form has 16 fields, key and txnid first, the hash tenth and pg=UPI last; surl and furl agree iff a return URL is given |
| PayU.RequestHashIsJoin | src/providers/payu.provider.ts:17 | the request hash text is 17 fields joined by pipes: key, txnid, amount, product, first name, e-mail, ten empty slots, salt |
| PayU.VerifyHashIsJoin | src/providers/payu.provider.ts:66 | the reverse hash text is 18 fields joined by pipes: salt, status, ten empty slots, e-mail, first name, product, amount, txnid, key |
| PayU.HashMirror | src/providers/payu.provider.ts:66 | read backwards, the reverse hash's fields are the request hash's fields with the status in the salt's place, followed by the salt |
| PayU.RequestHashLayout | src/providers/payu.provider.ts:17 | with pipe-free fields, splitting the request text gives the fields back: key first, salt last |
| PayU.VerifyHashLayout | src/providers/payu.provider.ts:66 | with pipe-free fields, splitting the reverse text gives the fields back: salt first, key last |
| PayU.PayUProvider.constructor | src/providers/payu.provider.ts:6-11 | the base fields are set without options, and the base URL is chosen by the environment |
| PayU.PayUProvider.CreateOrder | src/providers/payu.provider.ts:13-63 | a success has the transaction id as order id, status created, provider payu and currency defaulting to INR; paymentUrl is baseUrl + "/_payment?" + the encoded form; raw is exactly the transaction id and the SHA-512 hash; every failure is a ProviderError |
| PayU.FormUrls | src/providers/payu.provider.ts:29-31 | surl and furl are both the return URL when one is given, and different pages otherwise; the hash is in the form |
| PayU.EmailMismatch | src/providers/payu.provider.ts:17-27 | without an e-mail, the hash has an empty e-mail field while the form sends "customer@example.com" |
| PayU.PaymentUrlCarriesForm | src/providers/payu.provider.ts:21-57 | the payment URL's query parses back to exactly the posted form |
| PayU.PayUProvider.VerifyPayment | src/providers/payu.provider.ts:65-69 | true iff `params.hash` is the hex SHA-512 of the reverse hash text; it throws iff there are no credentials |
| PayU.VerifyAcceptsHash | src/providers/payu.provider.ts:65-69 | the recomputed reverse hash is always accepted |
| PayU.VerifyIgnoresSignature | src/providers/payu.provider.ts:65-69 | the verdict does not depend on `params.signature`, and a payment without a hash is rejected |
| GooglePay.GooglePayProvider.constructor | src/providers/base.provider.ts:19-24 | the inherited constructor stores the base fields |
| GooglePay.GooglePayProvider.CreateOrder | src/providers/googlepay.provider.ts:4-39 | the method building the link and QR code through the base methods gives the outcome of the order definition |
| GooglePay.UpiParams | src/providers/googlepay.provider.ts:9-17 | pa is the merchant VPA and tr the order id; am, cu, tn and mc are always non-empty, and there is no url |
| GooglePay.CreateOrderOutcome | src/providers/googlepay.provider.ts:4-39 | a success needs credentials, names googlepay with the GPay order id, and carries the deep link of the order's parameters; every failure is a PROVIDER_ERROR with status 502 |
| GooglePay.LinkCarriesOrder | src/providers/googlepay.provider.ts:7-20 | the link starts "upi://pay?" and parses back to its pairs: pa is the merchant VPA, am is the amount, tr is the order id, tn is the description or "Payment", mc is the merchant code or "5411", and there is no url |
| GooglePay.CreateOrderSpec | src/providers/googlepay.provider.ts:4-39 | success iff there are credentials and the renderer succeeds; the order has the link as upiUrl, the rendering of that link as qrCode, and raw whose tr is the order id; a failure is a ProviderError "GooglePay: " plus the message |
| GooglePay.GooglePayProvider.VerifyPayment | src/providers/googlepay.provider.ts:41-45 | every payment is accepted |
| Facade.CapabilitiesOf | src/index.ts:59-71 | every provider's list starts with "upi", and it offers "cards" iff the provider is neither Google Pay nor BharatPe |
| Facade.Select | src/index.ts:20-37 | the configured key is accepted iff it is one of the seven, and then names that adapter; otherwise "Unsupported provider: <key>" is thrown |
| Facade.Capabilities | src/index.ts:59-71 | an unknown key gives []; a known key gives its fixed list, which starts with "upi"; "cards" is offered by all but Google Pay and BharatPe |
| Facade.CreateOrderOutcome | src/index.ts:42-44 | the delegated order of each modelled adapter names that adapter's key with status created, and its failures are PROVIDER_ERRORs |
| Facade.ViaRazorpay | src/index.ts:42-44 | an order through the Razorpay adapter names "razorpay" with status created, or fails with PROVIDER_ERROR |
| Facade.ViaCashfree | src/index.ts:42-44 | an order through the Cashfree adapter names "cashfree" with status created, or fails with PROVIDER_ERROR |
| Facade.ViaPhonePe | src/index.ts:42-44 | an order through the PhonePe adapter names "phonepe" with status created, or fails with PROVIDER_ERROR |
| Facade.ViaGooglePay | src/index.ts:42-44 | an order through the Google Pay adapter names "googlepay" with status created, or fails with PROVIDER_ERROR |
| Facade.ViaPayU | src/index.ts:42-44 | an order through the PayU adapter names "payu" with status created, or fails with PROVIDER_ERROR |
| Facade.UnifiedUpiPayment.Of | src/index.ts:16-18 | the configuration and the adapter are stored once |
| Facade.UnifiedUpiPayment.Create | src/index.ts:16-40 | an unknown key throws; otherwise a fresh façade holds the configuration and the adapter of that key, built with the credentials, the environment and `options.logger`, without options and without validation |
| Facade.UnifiedUpiPayment.CreateOrder | src/index.ts:42-44 | the outcome is the adapter's own; a Razorpay adapter's client becomes the one built from its credentials exactly when the SDK loads and constructs, and is kept otherwise |
| Facade.UnifiedUpiPayment.VerifyPayment | src/index.ts:46-48 | the adapter's verdict; Paytm and BharatPe throw "this.provider.verifyPayment is not a function"; Google Pay always accepts |
| Facade.UnifiedUpiPayment.GenerateUpiLink | src/index.ts:50-52 | the base deep link of the parameters |
| Facade.UnifiedUpiPayment.GenerateQrCode | src/index.ts:54-56 | the renderer's outcome for that link |
| Facade.UnifiedUpiPayment.GetProviderCapabilities | src/index.ts:59-71 | the table entry of the configured key, which starts with "upi" for every key the constructor accepts |
| Facade.CapabilitiesAgreeWithSelect | src/index.ts:59-71 | a key has capabilities iff the constructor accepts it; googlepay gives exactly ["upi"] |
| Facade.CreateOrderNamesProvider | src/index.ts:42-44 | an order through a modelled adapter names that adapter's key and has status created, and its failures are ProviderErrors |

## Left out

- HTTP: `fetch`, `response.json()` and `response.text()` are transports passed in as functions. Headers other than those listed are not modelled, and neither are reply bodies that lack the expected fields (for PhonePe, a missing `data.instrumentResponse.redirectInfo.url` would throw a TypeError that is then wrapped).
- Digests, HMAC, base64 and `JSON.stringify` are arbitrary functions in `Digest.Toolkit`. Only hex encoding and UTF-8 are defined. `timingSafeEqual` and src/utils/crypto.ts are not part of this model.
- src/utils/qrcode.ts and src/utils/logger.ts are not part of this model. The QR renderer is a parameter, and a logger object is `Sink`.
- Paytm and BharatPe (src/providers/paytm.provider.ts, src/providers/bharatpe.provider.ts) are outside the model. Their `createOrder` outcome is a parameter of the façade.
- The abstract `getTransactionStatus`, `refundPayment` and `verifyWebhookSignature` have no implementation, so there is nothing to model.
- Time and randomness: `Date.now()` is a parameter. `generateOrderId` is random and is left out.
- `formatAmount` uses `Intl` number formatting and is left out.
- Floating point: amounts are whole rupees (`int`), so `amount * 100`, `Math.round` and number-to-text conversion are exact. Razorpay's `order.amount / 100` is a `real`. `parseFloat` is a parameter in `Validator.ValidateUpiParams`, `Utils.ParseAmount` and `Utils.ParseAmountIntended`.
- Retry.WithRetry: `async`, `await` and `setTimeout` become a log of `Sleep` events. A fractional `maxRetries`, and an `onRetry` callback that throws, are not modelled.
- BaseProvider.JStr: the contract says only which JSON value a member becomes. That `JSON.stringify` then leaves an undefined member out of the text is not proved, because `stringify` is a toolkit parameter.
- Validator.ValidateConfig: credentials that are not an object are modelled like absent credentials.
- Validator.ValidateConfigIntended: PhonePe's numeric `saltIndex` is not checked, since the source's PhonePe check covers only its text fields. The PhonePe adapter reads it into X-VERIFY and writes "undefined" when it is missing.
- BaseProvider.Creds: credentials that are a non-object primitive, such as a string, are modelled as undefined. Reading a field of a string gives undefined rather than a TypeError.
- Facade.Select: keys inherited from `Object.prototype`, such as "constructor" or "toString", are not modelled. The source finds a truthy value for them in the provider table and in the capability table.
- BaseProvider.Creds: the texts of TypeErrors thrown by V8 and by Node's `createHmac` are as Node 18–20 writes them.
- Unresolved names in the adapters: the model binds `crypto` to Node's `crypto` module everywhere, as src/providers/razorpay.provider.ts:6 imports it, and binds `BaseProvider` and `ProviderError` to the package's own classes. As written, only razorpay.provider.ts imports `crypto`; elsewhere the name is the global Web Crypto object, which has no `createHash` or `createHmac`, or undefined on older Node. The members below therefore hash where the source as written would throw a TypeError or ReferenceError before hashing.
- Cashfree.CashfreeProvider.VerifyPayment: src/providers/cashfree.provider.ts:3-5 imports no `crypto`, yet line 68 calls `crypto.createHmac`.
- PhonePe.GenerateChecksum: src/providers/phonepe.provider.ts:3-5 imports no `crypto`, yet line 74 calls `crypto.createHash`. PhonePe.PhonePeProvider.CreateOrder inherits this through its checksum.
- PhonePe.PhonePeProvider.VerifyPayment: line 79 of the same file calls `crypto.createHash`.
- PayU.PayUProvider.CreateOrder and PayU.PayUProvider.VerifyPayment: src/providers/payu.provider.ts has no import lines at all. `BaseProvider` (line 3), `crypto` (lines 19, 67) and `ProviderError` (line 61) are unbound as written, so the class would not even load.
- GooglePay.GooglePayProvider.CreateOrder: src/providers/googlepay.provider.ts has no import lines. `BaseProvider` (line 3) and `ProviderError` (line 37) are unbound as written.

## Findings

| source | as written | input that shows it | evidently intended | confidence | as-written member | corrected member |
|---|---|---|---|---|---|---|
| src/utils/index.ts:18 | the character class `[â‚¹,]` removes U+00E2, U+201A, U+00B9 and ',': the rupee sign's UTF-8 bytes read as Windows-1252 | `parseAmount("₹5")`: the sign survives, `parseFloat("₹5")` is NaN, and "Invalid amount" is thrown | `[₹,]`, removing the rupee sign U+20B9 and commas | high (not executed) | Utils.ParseAmountRupeeThrows | Utils.ParseAmountIntendedRupee |
| src/utils/validator.ts:50-53 | PayU's check reads `keyId`, while its message, and the PayU adapter, use `merchantKey` | `{provider: 'payu', credentials: {merchantKey: 'k', merchantSalt: 's'}}` is rejected, and `{keyId: 'x', merchantSalt: 's'}` passes, after which the adapter hashes "undefined" as the key | check `merchantKey` and `merchantSalt` | high (not executed) | Validator.PayUCheckMissesMerchantKey | Validator.ValidateConfigIntended |
