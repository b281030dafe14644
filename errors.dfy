/** The error taxonomy of src/errors/index.ts: `UPIPaymentError` and its five subclasses. Each
    object is built once and never changed, so it is a value: its `name`, `message`, `code`,
    `statusCode` and `details`. */
module Errors {
  import opened Wrappers

  /** An error's `details` bag; values are kept as opaque text. */
  type Details = map<string, string>

  datatype UpiError = UpiError(
    name: string, message: string, code: string, statusCode: int, details: Option<Details>)

  /** An error that is not a `UPIPaymentError`: a plain `Error` or `TypeError` thrown by the
      runtime, by a collaborator, or by an adapter's own `throw new Error(...)`. `props` are its
      own enumerable properties, the ones an object spread copies. */
  datatype Fault = Fault(name: string, message: string, props: Details)

  /** Whatever a call may throw. */
  datatype Exception = Upi(error: UpiError) | Js(fault: Fault)

  /** `new Error(message)`: no own enumerable properties. */
  function PlainError(message: string): (f: Fault)
    ensures f.message == message && f.props == map[]
  {
    Fault("Error", message, map[])
  }

  /** `new UPIPaymentError(message, code, statusCode?, details?)`. */
  function PaymentError(message: string, code: string, statusCode: Option<int>, details: Option<Details>)
    : (r: UpiError)
    ensures r.message == message && r.code == code && r.details == details
    ensures statusCode.None? ==> r.statusCode == 500
  {
    UpiError("UPIPaymentError", message, code, statusCode.GetOr(500), details)
  }

  function ValidationError(message: string, details: Option<Details>): (r: UpiError)
    ensures KindOfCode(r.code) == Some(Validation) && r.statusCode == 400
    ensures r.message == message && r.details == details
  {
    PaymentError(message, "VALIDATION_ERROR", Some(400), details).(name := "ValidationError")
  }

  /** `new ProviderError(message, provider, details)`: the details are `{ provider, ...details }`,
      so a `provider` key inside `details` wins over the argument. */
  function ProviderError(message: string, provider: string, details: Option<Details>): (r: UpiError)
    ensures KindOfCode(r.code) == Some(Provider) && r.statusCode == 502 && r.message == message
    ensures r.details.Some? && "provider" in r.details.value
    ensures details.None? ==> r.details.value == map["provider" := provider]
  {
    PaymentError(message, "PROVIDER_ERROR", Some(502), Some(map["provider" := provider] + details.GetOr(map[])))
      .(name := "ProviderError")
  }

  function ConfigurationError(message: string, details: Option<Details>): (r: UpiError)
    ensures KindOfCode(r.code) == Some(Configuration) && r.statusCode == 500
    ensures r.message == message && r.details == details
  {
    PaymentError(message, "CONFIGURATION_ERROR", Some(500), details).(name := "ConfigurationError")
  }

  function NetworkError(message: string, details: Option<Details>): (r: UpiError)
    ensures KindOfCode(r.code) == Some(Network) && r.statusCode == 503
    ensures r.message == message && r.details == details
  {
    PaymentError(message, "NETWORK_ERROR", Some(503), details).(name := "NetworkError")
  }

  function TimeoutError(message: string, details: Option<Details>): (r: UpiError)
    ensures KindOfCode(r.code) == Some(Timeout) && r.statusCode == 504
    ensures r.message == message && r.details == details
  {
    PaymentError(message, "TIMEOUT_ERROR", Some(504), details).(name := "TimeoutError")
  }

  /** The five subclasses. */
  datatype Kind = Validation | Provider | Configuration | Network | Timeout

  /** Builds an error of the given subclass; a `ProviderError` needs the provider's name. */
  function Make(k: Kind, message: string, provider: string, details: Option<Details>): UpiError {
    match k
    case Validation => ValidationError(message, details)
    case Provider => ProviderError(message, provider, details)
    case Configuration => ConfigurationError(message, details)
    case Network => NetworkError(message, details)
    case Timeout => TimeoutError(message, details)
  }

  /** Reads the subclass back from a machine-readable code: the partner of `Make`. */
  function KindOfCode(code: string): Option<Kind> {
    match code
    case "VALIDATION_ERROR" => Some(Validation)
    case "PROVIDER_ERROR" => Some(Provider)
    case "CONFIGURATION_ERROR" => Some(Configuration)
    case "NETWORK_ERROR" => Some(Network)
    case "TIMEOUT_ERROR" => Some(Timeout)
    case _ => None
  }

  /** The fixed (name, code, statusCode) of each subclass; the message is kept as given. */
  lemma ErrorTable(message: string, provider: string, details: Option<Details>)
    ensures var e := Make(Validation, message, provider, details);
      e.name == "ValidationError" && e.code == "VALIDATION_ERROR" && e.statusCode == 400 && e.details == details
    ensures var e := Make(Provider, message, provider, details);
      e.name == "ProviderError" && e.code == "PROVIDER_ERROR" && e.statusCode == 502
    ensures var e := Make(Configuration, message, provider, details);
      e.name == "ConfigurationError" && e.code == "CONFIGURATION_ERROR" && e.statusCode == 500 && e.details == details
    ensures var e := Make(Network, message, provider, details);
      e.name == "NetworkError" && e.code == "NETWORK_ERROR" && e.statusCode == 503 && e.details == details
    ensures var e := Make(Timeout, message, provider, details);
      e.name == "TimeoutError" && e.code == "TIMEOUT_ERROR" && e.statusCode == 504 && e.details == details
    ensures forall k :: Make(k, message, provider, details).message == message
  {
  }

  /** The code identifies the subclass, and with it the status code: a caller can map a failure
      from its code alone. */
  lemma CodeIdentifiesKind(k: Kind, message: string, provider: string, details: Option<Details>)
    ensures KindOfCode(Make(k, message, provider, details).code) == Some(k)
  {
  }

  /** The base constructor defaults the status code to 500 and names the error after itself. */
  lemma BaseDefaults(message: string, code: string, details: Option<Details>)
    ensures PaymentError(message, code, None, details).statusCode == 500
    ensures PaymentError(message, code, None, details).name == "UPIPaymentError"
  {
  }

  /** A ProviderError's details carry the provider name unless the given details hold their own
      `provider` entry, which then overrides it; every other given entry is kept. */
  lemma ProviderDetails(message: string, provider: string, details: Option<Details>)
    ensures var d := ProviderError(message, provider, details).details;
      && d.Some? && "provider" in d.value
      && d.value["provider"] == (if details.Some? && "provider" in details.value then details.value["provider"] else provider)
      && (details.Some? ==> forall k :: k in details.value ==> k in d.value && d.value[k] == details.value[k])
      && (forall k :: k in d.value ==> k == "provider" || (details.Some? && k in details.value))
  {
  }
}
