/** What every adapter inherits from `BaseProvider` (src/providers/base.provider.ts): the fields
    its constructor sets, the UPI deep-link builder, the QR hand-off and the logger dispatch; plus
    the `URLSearchParams` object the link builder fills, and the way every adapter wraps a failure
    into a `ProviderError`. */
module BaseProvider {
  import opened Wrappers
  import opened Types
  import Errors
  import FormUrlencoded

  // ---- constructor ----

  /** The four fields the base constructor assigns. They are never reassigned afterwards. */
  datatype BaseFields = BaseFields(
    credentials: Option<Credentials>, environment: string, logger: Option<LoggerArg>,
    options: Option<ConfigOptions>)

  /** `constructor(credentials, environment = 'production', logger?, options?)`: the arguments
      are stored as given, an undefined environment becoming "production". */
  function BaseInit(credentials: Option<Credentials>, environment: Option<string>, logger: Option<LoggerArg>,
                    options: Option<ConfigOptions>): (b: BaseFields)
    ensures b.credentials == credentials && b.logger == logger && b.options == options
    ensures environment.None? ==> b.environment == "production"
    ensures environment.Some? ==> b.environment == environment.value
  {
    BaseFields(credentials, environment.GetOr("production"), logger, options)
  }

  /** The constructors of the adapters that pick a vendor URL: the production URL exactly when
      the (defaulted) environment is "production". */
  function EnvironmentUrl(environment: Option<string>, production: string, sandbox: string): (url: string)
    ensures url == production <== environment.None? || environment == Some("production")
    ensures production != sandbox ==> (url == production <==> environment.GetOr("production") == "production")
  {
    if environment.GetOr("production") == "production" then production else sandbox
  }

  // ---- URLSearchParams ----

  /** A `URLSearchParams` object: its list of name-value pairs, in insertion order. */
  class SearchParams {
    var list: seq<(string, string)>

    /** `new URLSearchParams()` */
    constructor()
      ensures list == []
    {
      list := [];
    }

    /** `append(name, value)`: adds a pair at the end and keeps every earlier one. */
    method Append(name: string, value: string)
      modifies this
      ensures list == old(list) + [(name, value)]
    {
      list := list + [(name, value)];
    }

    /** `toString()`: the application/x-www-form-urlencoded serialization of the list. */
    function ToString(): string
      reads this
    {
      FormUrlencoded.Serialize(list)
    }
  }

  /** `URLSearchParams.get(name)`: the value of the first pair with that name. */
  function Get(pairs: seq<(string, string)>, name: string): (v: Option<string>)
    ensures v.Some? <==> exists i :: 0 <= i < |pairs| && pairs[i].0 == name
    ensures v.Some? ==> (v.value, name) == (pairs[First(pairs, name)].1, pairs[First(pairs, name)].0)
  {
    if pairs == [] then None
    else if pairs[0].0 == name then Some(pairs[0].1)
    else
      assert forall i :: 1 <= i < |pairs| ==> pairs[i] == pairs[1..][i - 1];
      Get(pairs[1..], name)
  }

  /** The index of the first pair named `name`, or `|pairs|`. */
  function First(pairs: seq<(string, string)>, name: string): (i: nat)
    ensures i <= |pairs|
    ensures forall j :: 0 <= j < i ==> pairs[j].0 != name
    ensures i < |pairs| ==> pairs[i].0 == name
  {
    if pairs == [] then 0
    else if pairs[0].0 == name then 0
    else 1 + First(pairs[1..], name)
  }

  lemma {:induction false} GetAppend(xs: seq<(string, string)>, ys: seq<(string, string)>, name: string)
    ensures Get(xs + ys, name) == if Get(xs, name).Some? then Get(xs, name) else Get(ys, name)
  {
    if xs != [] {
      assert (xs + ys)[1..] == xs[1..] + ys;
      GetAppend(xs[1..], ys, name);
    } else {
      assert xs + ys == ys;
    }
  }

  // ---- generateUPILink ----

  /** The pairs `generateUPILink` always appends: `pa`, `pn` and `am` (an undefined value written
      as "undefined"), then `cu`, which defaults to "INR" only when undefined. */
  function FixedPairs(p: UpiLinkParams): seq<(string, string)> {
    [("pa", Str(p.pa)), ("pn", Str(p.pn)), ("am", Str(p.am)), ("cu", p.cu.GetOr("INR"))]
  }

  /** `if (v) append(name, v)`: a pair only for a non-empty value. */
  function OptionalPair(name: string, v: Option<string>): seq<(string, string)> {
    if Truthy(v) then [(name, v.value)] else []
  }

  /** Everything `generateUPILink` appends, in order. */
  function LinkPairs(p: UpiLinkParams): (r: seq<(string, string)>)
    ensures 4 <= |r| <= 8 && r[..4] == FixedPairs(p)
  {
    FixedPairs(p) + OptionalPair("tn", p.tn) + OptionalPair("tr", p.tr) + OptionalPair("mc", p.mc)
      + OptionalPair("url", p.url)
  }

  const LinkPrefix := "upi://pay?"

  /** The deep link for `p`. */
  function UpiLink(p: UpiLinkParams): (r: string)
    ensures |r| > |LinkPrefix| && r[..|LinkPrefix|] == LinkPrefix
  {
    LinkPrefix + FormUrlencoded.Serialize(LinkPairs(p))
  }

  /** `generateUPILink(params)`: fills a `URLSearchParams` in the source's order and renders it
      after the fixed prefix. */
  method GenerateUpiLink(p: UpiLinkParams) returns (link: string)
    ensures link == UpiLink(p)
  {
    var cu := p.cu.GetOr("INR");
    var q := new SearchParams();
    q.Append("pa", Str(p.pa));
    q.Append("pn", Str(p.pn));
    q.Append("am", Str(p.am));
    q.Append("cu", cu);
    ghost var fixed := q.list;
    if Truthy(p.tn) { q.Append("tn", p.tn.value); }
    ghost var afterTn := q.list;
    if Truthy(p.tr) { q.Append("tr", p.tr.value); }
    ghost var afterTr := q.list;
    if Truthy(p.mc) { q.Append("mc", p.mc.value); }
    ghost var afterMc := q.list;
    if Truthy(p.url) { q.Append("url", p.url.value); }
    assert fixed == FixedPairs(p);
    assert afterTn == fixed + OptionalPair("tn", p.tn);
    assert afterTr == afterTn + OptionalPair("tr", p.tr);
    assert afterMc == afterTr + OptionalPair("mc", p.mc);
    assert q.list == afterMc + OptionalPair("url", p.url);
    link := LinkPrefix + q.ToString();
  }

  /** Position of each parameter name in the link's fixed order. */
  function KeyRank(name: string): nat {
    match name
    case "pa" => 0
    case "pn" => 1
    case "am" => 2
    case "cu" => 3
    case "tn" => 4
    case "tr" => 5
    case "mc" => 6
    case "url" => 7
    case _ => 8
  }

  ghost predicate Ascending(r: seq<(string, string)>) {
    forall i, j :: 0 <= i < j < |r| ==> KeyRank(r[i].0) < KeyRank(r[j].0)
  }

  ghost predicate RanksBelow(r: seq<(string, string)>, k: nat) {
    forall i :: 0 <= i < |r| ==> KeyRank(r[i].0) < k
  }

  lemma ExtendAscending(xs: seq<(string, string)>, name: string, v: Option<string>)
    requires Ascending(xs) && RanksBelow(xs, KeyRank(name))
    ensures Ascending(xs + OptionalPair(name, v)) && RanksBelow(xs + OptionalPair(name, v), KeyRank(name) + 1)
  {
  }

  lemma GetExtend(xs: seq<(string, string)>, name: string, v: Option<string>, n: string)
    ensures Get(xs + OptionalPair(name, v), n)
         == if Get(xs, n).Some? then Get(xs, n) else if n == name && Truthy(v) then v else None
  {
    GetAppend(xs, OptionalPair(name, v), n);
  }

  /** The four fixed pairs open every link, in their order and with their values; `cu` is "INR"
      when omitted. */
  lemma LinkPairsFixed(p: UpiLinkParams)
    ensures var r := LinkPairs(p);
      4 <= |r| <= 8
      && r[0] == ("pa", Str(p.pa)) && r[1] == ("pn", Str(p.pn)) && r[2] == ("am", Str(p.am))
      && r[3].0 == "cu" && (p.cu.None? ==> r[3].1 == "INR") && (p.cu.Some? ==> r[3].1 == p.cu.value)
    ensures forall i :: 4 <= i < |LinkPairs(p)| ==> LinkPairs(p)[i].1 != ""
  {
    var r := LinkPairs(p);
    var tail := OptionalPair("tn", p.tn) + OptionalPair("tr", p.tr) + OptionalPair("mc", p.mc)
      + OptionalPair("url", p.url);
    assert r == FixedPairs(p) + tail;
    assert forall i :: 0 <= i < |tail| ==> tail[i].1 != "";
  }

  /** Every name appears at most once, and in the fixed order pa, pn, am, cu, tn, tr, mc, url. */
  lemma LinkPairsOrder(p: UpiLinkParams)
    ensures Ascending(LinkPairs(p)) && RanksBelow(LinkPairs(p), 8)
  {
    var f := FixedPairs(p);
    assert Ascending(f) && RanksBelow(f, 4);
    ExtendAscending(f, "tn", p.tn);
    var a := f + OptionalPair("tn", p.tn);
    ExtendAscending(a, "tr", p.tr);
    var b := a + OptionalPair("tr", p.tr);
    ExtendAscending(b, "mc", p.mc);
    var c := b + OptionalPair("mc", p.mc);
    ExtendAscending(c, "url", p.url);
  }

  /** Each of `tn`, `tr`, `mc` and `url` is present exactly when given non-empty, with its
      value. */
  lemma LinkPairsOptional(p: UpiLinkParams)
    ensures Get(LinkPairs(p), "tn") == (if Truthy(p.tn) then p.tn else None)
    ensures Get(LinkPairs(p), "tr") == (if Truthy(p.tr) then p.tr else None)
    ensures Get(LinkPairs(p), "mc") == (if Truthy(p.mc) then p.mc else None)
    ensures Get(LinkPairs(p), "url") == (if Truthy(p.url) then p.url else None)
  {
    var f := FixedPairs(p);
    assert Get(f, "tn") == None && Get(f, "tr") == None && Get(f, "mc") == None && Get(f, "url") == None;
    OptionalPairsGet(p, "tn");
    OptionalPairsGet(p, "tr");
    OptionalPairsGet(p, "mc");
    OptionalPairsGet(p, "url");
  }

  /** A name the fixed pairs do not use is read from the optional pairs, in their order. */
  lemma OptionalPairsGet(p: UpiLinkParams, n: string)
    requires Get(FixedPairs(p), n) == None
    ensures Get(LinkPairs(p), n)
         == if n == "tn" && Truthy(p.tn) then p.tn
            else if n == "tr" && Truthy(p.tr) then p.tr
            else if n == "mc" && Truthy(p.mc) then p.mc
            else if n == "url" && Truthy(p.url) then p.url
            else None
  {
    var f := FixedPairs(p);
    var a := f + OptionalPair("tn", p.tn);
    var b := a + OptionalPair("tr", p.tr);
    var c := b + OptionalPair("mc", p.mc);
    GetExtend(f, "tn", p.tn, n);
    GetExtend(a, "tr", p.tr, n);
    GetExtend(b, "mc", p.mc, n);
    GetExtend(c, "url", p.url, n);
  }

  /** The link is the fixed prefix followed by a query that parses back to exactly the appended
      pairs, so every value is recoverable. */
  lemma UpiLinkReadsBack(p: UpiLinkParams)
    ensures |UpiLink(p)| >= |LinkPrefix| && UpiLink(p)[..|LinkPrefix|] == "upi://pay?"
    ensures FormUrlencoded.Parse(UpiLink(p)[|LinkPrefix|..]) == Some(LinkPairs(p))
  {
    var query := FormUrlencoded.Serialize(LinkPairs(p));
    assert UpiLink(p)[|LinkPrefix|..] == query;
    FormUrlencoded.ParseSerialize(LinkPairs(p));
  }

  /** Links are equal only when they carry the same pairs. */
  lemma UpiLinkInjective(p: UpiLinkParams, q: UpiLinkParams)
    requires UpiLink(p) == UpiLink(q)
    ensures LinkPairs(p) == LinkPairs(q)
  {
    UpiLinkReadsBack(p);
    UpiLinkReadsBack(q);
  }

  // ---- generateQRCode ----

  /** `generateQRCode(params)`: the renderer (a collaborator) receives exactly the deep link and
      its outcome is returned. */
  method GenerateQrCode(p: UpiLinkParams, render: string -> Result<string, Errors.Fault>)
    returns (r: Result<string, Errors.Fault>)
    ensures r == render(UpiLink(p))
  {
    var link := GenerateUpiLink(p);
    r := render(link);
  }

  // ---- log ----

  /** What one `log` call does. */
  datatype LogEffect =
    | NoOp
    | Logged(level: string, message: string, data: Option<Json>)
    | Throws(fault: Errors.Fault)

  const Levels: set<string> := {"info", "debug", "error", "warn"}

  /** `log(level, message, data)`. A logger object receives the call for the four levels; `true`
      passed as the logger has no such methods, so calling one throws a `TypeError`. */
  function Log(logger: Option<LoggerArg>, level: string, message: string, data: Option<Json>): (e: LogEffect)
    ensures logger.None? || logger == Some(Flag(false)) || level !in Levels ==> e == NoOp
    ensures e.Logged? <==> logger == Some(Sink) && level in Levels
    ensures e.Logged? ==> e == Logged(level, message, data)
    ensures e.Throws? <==> logger == Some(Flag(true)) && level in Levels
    ensures e.Throws? ==> e.fault.name == "TypeError"
  {
    match logger
    case None => NoOp
    case Some(Flag(on)) =>
      if on && level in Levels
      then Throws(Errors.Fault("TypeError", "this.logger." + level + " is not a function", map[]))
      else NoOp
    case Some(Sink) => if level in Levels then Logged(level, message, data) else NoOp
  }

  // ---- the adapters' error wrapping ----

  /** `throw new ProviderError(`${vendor}: ${error.message}`, key, error)`: the caught error's
      message behind the vendor label, and its own enumerable properties spread after
      `provider`. */
  function WrapFailure(vendor: string, key: string, f: Errors.Fault): (e: Errors.UpiError)
    ensures e.name == "ProviderError" && e.code == "PROVIDER_ERROR" && e.statusCode == 502
    ensures e.message == vendor + ": " + f.message
    ensures e.details.Some? && "provider" in e.details.value
    ensures e.details.value["provider"] == if "provider" in f.props then f.props["provider"] else key
    ensures e.details.value.Keys == f.props.Keys + {"provider"}
  {
    Errors.ProviderError(vendor + ": " + f.message, key, Some(f.props))
  }

  // ---- reading the credentials ----

  /** The `TypeError` V8 throws for `undefined.<name>`. */
  function ReadOfUndefined(name: string): Errors.Fault {
    Errors.Fault("TypeError", "Cannot read properties of undefined (reading '" + name + "')", map[])
  }

  /** `this.credentials.<first>`: the adapter's first read of its credentials, which throws when
      the credentials were never given. */
  function Creds(b: BaseFields, first: string): (r: Result<Credentials, Errors.Fault>)
    ensures r.Success? <==> b.credentials.Some?
    ensures r.Success? ==> r.value == b.credentials.value
    ensures r.Failure? ==> r.error == ReadOfUndefined(first)
  {
    match b.credentials
    case Some(c) => Success(c)
    case None => Failure(ReadOfUndefined(first))
  }

  /** The `TypeError` Node's `createHmac` throws for an undefined key. */
  const KeyNotString: Errors.Fault := Errors.Fault("TypeError",
    "The \"key\" argument must be of type string or an instance of ArrayBuffer, Buffer, TypedArray, DataView, KeyObject, or CryptoKey. Received undefined",
    map["code" := "ERR_INVALID_ARG_TYPE"])

  /** The member value of an optional string in an object literal: an undefined member becomes
      `JUndefined`, the value `JSON.stringify` omits; a present one is carried as a string. */
  function JStr(x: Option<string>): (j: Json)
    ensures x.None? <==> j == JUndefined
    ensures x.Some? ==> j.JString? && j.s == x.value
  {
    match x
    case Some(s) => JString(s)
    case None => JUndefined
  }
}
