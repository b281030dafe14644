/** The pure helpers of src/utils/index.ts: phone-number sanitising, the second VPA check, and
    the text-cleaning half of `parseAmount`. */
module Utils {
  import opened Wrappers
  import Text
  import Errors
  import Validator

  // ---- sanitizePhoneNumber ----

  /** `sanitizePhoneNumber`: delete every non-digit, then drop a leading "91" from a 12-digit
      result. */
  function SanitizePhoneNumber(phone: string): (r: string)
    ensures forall k :: 0 <= k < |r| ==> Text.IsDigit(r[k])
    ensures |r| <= |phone|
  {
    var cleaned := Validator.DigitsOnly(phone);
    if |cleaned| == 12 && cleaned[..2] == "91" then cleaned[2..] else cleaned
  }

  lemma {:induction false} DigitsOnlyOfDigits(s: string)
    requires forall k :: 0 <= k < |s| ==> Text.IsDigit(s[k])
    ensures Validator.DigitsOnly(s) == s
  {
    if s != [] {
      DigitsOnlyOfDigits(s[1..]);
    }
  }

  /** A 12-digit number starting with 91 loses exactly those two digits; any other digit string
      is kept whole. */
  lemma SanitizeCountryCode(phone: string)
    ensures var d := Validator.DigitsOnly(phone);
      SanitizePhoneNumber(phone) == if |d| == 12 && d[..2] == "91" then d[2..] else d
    ensures var d := Validator.DigitsOnly(phone);
      |d| == 12 && d[..2] == "91" ==> "91" + SanitizePhoneNumber(phone) == d
  {
    var d := Validator.DigitsOnly(phone);
    if |d| == 12 && d[..2] == "91" {
      assert d[..2] + d[2..] == d;
    }
  }

  /** Sanitising twice is sanitising once. */
  lemma SanitizeIdempotent(phone: string)
    ensures SanitizePhoneNumber(SanitizePhoneNumber(phone)) == SanitizePhoneNumber(phone)
  {
    var r := SanitizePhoneNumber(phone);
    DigitsOnlyOfDigits(r);
    var d := Validator.DigitsOnly(phone);
    if !(|d| == 12 && d[..2] == "91") {
      assert r == d;
    }
  }

  /** A contact that `validateOrderParams` accepts is already a bare 10-digit number once
      sanitised. */
  lemma SanitizeValidPhone(phone: string)
    requires Validator.IsValidPhone(phone)
    ensures SanitizePhoneNumber(phone) == Validator.DigitsOnly(phone)
    ensures Validator.IsValidPhone(SanitizePhoneNumber(phone))
  {
    DigitsOnlyOfDigits(Validator.DigitsOnly(phone));
  }

  /** Two digit strings concatenate to a digit string. */
  lemma DigitsConcat(a: string, b: string)
    requires forall k :: 0 <= k < |a| ==> Text.IsDigit(a[k])
    requires forall k :: 0 <= k < |b| ==> Text.IsDigit(b[k])
    ensures forall k :: 0 <= k < |a + b| ==> Text.IsDigit((a + b)[k])
  {
    forall k | 0 <= k < |a + b|
      ensures Text.IsDigit((a + b)[k])
    {
      if k >= |a| {
        assert (a + b)[k] == b[k - |a|];
      }
    }
  }

  /** A leading '+' is deleted along with every other non-digit. */
  lemma PlusDropped(a: string, b: string)
    requires forall k :: 0 <= k < |a| ==> Text.IsDigit(a[k])
    requires forall k :: 0 <= k < |b| ==> Text.IsDigit(b[k])
    ensures Validator.DigitsOnly(['+'] + (a + b)) == a + b
  {
    var digits := a + b;
    DigitsConcat(a, b);
    var s := ['+'] + digits;
    assert s[1..] == digits;
    assert !Text.IsDigit(s[0]);
    DigitsOnlyOfDigits(digits);
  }

  /** The same, for a two-digit country code. */
  lemma CodeDropped(phone: string, cc: string, local: string)
    requires |cc| == 2 && Text.IsDigit(cc[0]) && Text.IsDigit(cc[1])
    requires forall k :: 0 <= k < |local| ==> Text.IsDigit(local[k])
    requires phone == ['+'] + (cc + local)
    ensures Validator.DigitsOnly(phone) == cc + local
  {
    PlusDropped(cc, local);
  }

  /** The validator does not sanitise: a valid 10-digit number written with its +91 country
      code is rejected, although sanitising it gives back the accepted local number. */
  lemma CountryCodeRejectedByValidator(local: string, phone: string)
    requires |local| == 10 && forall k :: 0 <= k < 10 ==> Text.IsDigit(local[k])
    requires '6' <= local[0] <= '9'
    requires phone == "+91" + local
    ensures Validator.IsValidPhone(local)
    ensures !Validator.IsValidPhone(phone)
    ensures SanitizePhoneNumber(phone) == local
  {
    DigitsOnlyOfDigits(local);
    var cc := "91";
    assert cc[0] == '9' && cc[1] == '1' && |cc| == 2;
    CodeDropped(phone, cc, local);
    var digits := cc + local;
    assert |digits| == 12 && digits[..2] == "91" && digits[2..] == local;
  }

  // ---- isValidUPIId ----

  /** `isValidUPIId`: the same pattern as the validator's `isValidUPI`. */
  predicate IsValidUpiId(upiId: string)
    ensures IsValidUpiId(upiId) ==> '@' in upiId && upiId[0] != '@' && upiId[|upiId| - 1] != '@'
  {
    Validator.IsValidUpiMatchesPattern(upiId);
    Validator.IsValidUpi(upiId)
  }

  lemma IsValidUpiIdPattern(upiId: string)
    ensures IsValidUpiId(upiId) <==> Validator.MatchesVpaPattern(upiId)
  {
    Validator.IsValidUpiMatchesPattern(upiId);
  }

  // ---- parseAmount ----

  /** `string | number` */
  datatype AmountArg = Number(n: real) | Written(s: string)

  /** `s.replace(/[...]/g, '')` for a character class. */
  function Remove(s: string, inClass: char -> bool): (r: string)
    ensures |r| <= |s|
    ensures forall k :: 0 <= k < |r| ==> !inClass(r[k]) && r[k] in s
  {
    if s == [] then [] else (if inClass(s[0]) then [] else [s[0]]) + Remove(s[1..], inClass)
  }

  /** Deleting a class from a concatenation deletes it from each part: the characters outside
      the class survive, in their order. */
  lemma {:induction false} RemoveAppend(a: string, b: string, inClass: char -> bool)
    ensures Remove(a + b, inClass) == Remove(a, inClass) + Remove(b, inClass)
  {
    if a != [] {
      RemoveAppend(a[1..], b, inClass);
      var head := if inClass(a[0]) then [] else [a[0]];
      assert (a + b)[0] == a[0] && (a + b)[1..] == a[1..] + b;
      calc {
        Remove(a + b, inClass);
        head + Remove(a[1..] + b, inClass);
        head + (Remove(a[1..], inClass) + Remove(b, inClass));
        (head + Remove(a[1..], inClass)) + Remove(b, inClass);
        Remove(a, inClass) + Remove(b, inClass);
      }
    } else {
      assert a + b == b;
    }
  }

  /** A single character is kept iff it lies outside the class. */
  lemma RemoveChar(c: char, inClass: char -> bool)
    ensures Remove([c], inClass) == if inClass(c) then [] else [c]
  {
    assert [c][1..] == [];
  }

  /** `trim` leaves text without JavaScript whitespace unchanged. */
  lemma TrimNoWhitespace(t: string)
    requires forall k :: 0 <= k < |t| ==> !Text.IsJsWhitespace(t[k])
    ensures Text.Trim(t) == t
  {
    assert t == [] || !Text.IsJsWhitespace(t[0]);
    assert Text.TrimStart(t) == t;
    assert t == [] || !Text.IsJsWhitespace(t[|t| - 1]);
  }

  /** The class written in `parseAmount`: the three characters U+00E2, U+201A and U+00B9 (the
      bytes of the rupee sign U+20B9 read as Windows-1252) and the comma. */
  predicate InAmountClass(c: char) {
    c == '\U{00E2}' || c == '\U{201A}' || c == '\U{00B9}' || c == ','
  }

  /** The class evidently intended: the rupee sign and the comma. */
  predicate InIntendedAmountClass(c: char) {
    c == '\U{20B9}' || c == ','
  }

  lemma TrimKeeps(s: string)
    ensures forall k :: 0 <= k < |Text.Trim(s)| ==> Text.Trim(s)[k] in s
  {
    var t := Text.TrimStart(s);
    var u := Text.TrimEnd(t);
    assert Text.Trim(s) == u;
    forall k | 0 <= k < |u|
      ensures u[k] in s
    {
      assert u[k] == t[k];
      assert t[k] == s[|s| - |t| + k];
    }
  }

  /** The text `parseAmount` hands to `parseFloat`, as written. */
  function CleanAmount(s: string): (r: string)
    ensures forall k :: 0 <= k < |r| ==> !InAmountClass(r[k])
  {
    TrimKeeps(Remove(s, InAmountClass));
    Text.Trim(Remove(s, InAmountClass))
  }

  /** The same with the intended class: no rupee sign and no comma survives. */
  function CleanAmountIntended(s: string): (r: string)
    ensures forall k :: 0 <= k < |r| ==> !InIntendedAmountClass(r[k])
  {
    TrimKeeps(Remove(s, InIntendedAmountClass));
    Text.Trim(Remove(s, InIntendedAmountClass))
  }

  /** As written, the rupee sign survives cleaning, so `parseFloat` sees "₹5" and
      `parseAmount("₹5")` throws. */
  lemma RupeeSignSurvives(s: string)
    requires s == "\U{20B9}5"
    ensures CleanAmount(s) == s
  {
    assert forall k :: 0 <= k < |s| ==> s[k] == '\U{20B9}' || s[k] == '5';
    CleanAmountKeeps(s);
    NoClassCharKept(s, InAmountClass);
  }

  /** With the intended class the rupee sign is removed and "₹5" cleans to "5". */
  lemma RupeeSignRemovedIntended(s: string)
    requires s == "\U{20B9}5"
    ensures CleanAmountIntended(s) == "5"
  {
    assert forall k :: 0 <= k < |s| ==> s[k] == '\U{20B9}' || s[k] == '5';
    CleanAmountKeeps(s);
    assert s == ['\U{20B9}'] + "5";
    RemoveAppend(['\U{20B9}'], "5", InIntendedAmountClass);
    RemoveChar('\U{20B9}', InIntendedAmountClass);
    RemoveChar('5', InIntendedAmountClass);
  }

  /** Cleaning text without whitespace leaves exactly its characters outside the class. */
  lemma CleanKeeps(s: string, inClass: char -> bool)
    requires forall k :: 0 <= k < |s| ==> !Text.IsJsWhitespace(s[k])
    ensures Text.Trim(Remove(s, inClass)) == Remove(s, inClass)
  {
    var r := Remove(s, inClass);
    forall k | 0 <= k < |r|
      ensures !Text.IsJsWhitespace(r[k])
    {
      assert r[k] in s;
      var j :| 0 <= j < |s| && s[j] == r[k];
    }
    TrimNoWhitespace(r);
  }

  /** Text without whitespace cleans to exactly its characters outside the class, in order:
      the trim has nothing left to do. */
  lemma CleanAmountKeeps(s: string)
    requires forall k :: 0 <= k < |s| ==> !Text.IsJsWhitespace(s[k])
    ensures CleanAmount(s) == Remove(s, InAmountClass)
    ensures CleanAmountIntended(s) == Remove(s, InIntendedAmountClass)
  {
    CleanKeeps(s, InAmountClass);
    CleanKeeps(s, InIntendedAmountClass);
  }

  /** Text with no character of the class is kept whole. */
  lemma {:induction false} NoClassCharKept(s: string, inClass: char -> bool)
    requires forall k :: 0 <= k < |s| ==> !inClass(s[k])
    ensures Remove(s, inClass) == s
  {
    if s != [] {
      NoClassCharKept(s[1..], inClass);
    }
  }

  /** A class holding the comma but not the digits turns "1,000" into "1000". */
  lemma RemoveThousands(s: string, inClass: char -> bool)
    requires s == "1,000"
    requires inClass(',') && !inClass('1') && !inClass('0')
    ensures Remove(s, inClass) == "1000"
  {
    var zeros := "000";
    var t := [','] + zeros;
    assert s == ['1'] + t;
    assert Remove(t, inClass) == zeros by {
      assert forall k :: 0 <= k < |zeros| ==> zeros[k] == '0';
      RemoveAppend([','], zeros, inClass);
      RemoveChar(',', inClass);
      NoClassCharKept(zeros, inClass);
    }
    calc {
      Remove(s, inClass);
    == { RemoveAppend(['1'], t, inClass); }
      Remove(['1'], inClass) + Remove(t, inClass);
    == { RemoveChar('1', inClass); }
      ['1'] + zeros;
    == { OneThousand(zeros); }
      "1000";
    }
  }

  lemma OneThousand(zeros: string)
    requires zeros == "000"
    ensures ['1'] + zeros == "1000"
  {
  }

  /** Both classes remove a thousands separator: "1,000" cleans to "1000". */
  lemma ThousandsSeparator(s: string)
    requires s == "1,000"
    ensures CleanAmount(s) == "1000"
    ensures CleanAmountIntended(s) == "1000"
  {
    assert forall k :: 0 <= k < |s| ==> s[k] == ',' || Text.IsDigit(s[k]);
    CleanAmountKeeps(s);
    RemoveThousands(s, InAmountClass);
    RemoveThousands(s, InIntendedAmountClass);
  }

  /** `parseAmount`, as written; `parseFloat` is a parameter that gives `None` for NaN. A number
      is returned unchanged; text is cleaned with the written class and parsed, and text whose
      cleaned form does not parse raises "Invalid amount: <text>". */
  function ParseAmount(amount: AmountArg, parseFloat: string -> Option<real>): (r: Result<real, Errors.Fault>)
    ensures amount.Number? ==> r == Success(amount.n)
    ensures amount.Written? ==>
      (r.Failure? <==> parseFloat(CleanAmount(amount.s)).None?)
      && (r.Failure? ==> r.error == Errors.PlainError("Invalid amount: " + amount.s))
      && (r.Success? ==> Some(r.value) == parseFloat(CleanAmount(amount.s)))
  {
    match amount
    case Number(n) => Success(n)
    case Written(s) =>
      match parseFloat(CleanAmount(s))
      case None => Failure(Errors.PlainError("Invalid amount: " + s))
      case Some(x) => Success(x)
  }

  /** `parseAmount` with the intended class `[₹,]`. */
  function ParseAmountIntended(amount: AmountArg, parseFloat: string -> Option<real>): (r: Result<real, Errors.Fault>)
    ensures amount.Number? ==> r == Success(amount.n)
    ensures amount.Written? ==>
      (r.Failure? <==> parseFloat(CleanAmountIntended(amount.s)).None?)
      && (r.Failure? ==> r.error == Errors.PlainError("Invalid amount: " + amount.s))
      && (r.Success? ==> Some(r.value) == parseFloat(CleanAmountIntended(amount.s)))
  {
    match amount
    case Number(n) => Success(n)
    case Written(s) =>
      match parseFloat(CleanAmountIntended(s))
      case None => Failure(Errors.PlainError("Invalid amount: " + s))
      case Some(x) => Success(x)
  }

  /** As written, `parseAmount("₹5")` throws "Invalid amount: ₹5" for every `parseFloat` that
      cannot read "₹5", as JavaScript's cannot. */
  lemma ParseAmountRupeeThrows(s: string, parseFloat: string -> Option<real>)
    requires s == "\U{20B9}5"
    requires parseFloat(s) == None
    ensures ParseAmount(Written(s), parseFloat) == Failure(Errors.PlainError("Invalid amount: " + s))
  {
    RupeeSignSurvives(s);
  }

  /** With the intended class, `parseAmount("₹5")` is the value `parseFloat` gives for "5". */
  lemma ParseAmountIntendedRupee(s: string, parseFloat: string -> Option<real>, x: real)
    requires s == "\U{20B9}5"
    requires parseFloat("5") == Some(x)
    ensures ParseAmountIntended(Written(s), parseFloat) == Success(x)
  {
    RupeeSignRemovedIntended(s);
  }

  /** Amounts with thousands separators parse the same either way: "1,000" is read as "1000". */
  lemma ParseAmountThousands(s: string, parseFloat: string -> Option<real>)
    requires s == "1,000"
    ensures ParseAmount(Written(s), parseFloat) == ParseAmountIntended(Written(s), parseFloat)
    ensures ParseAmount(Written(s), parseFloat).Success? <==> parseFloat("1000").Some?
  {
    ThousandsSeparator(s);
  }
}
