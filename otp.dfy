/**
 * The phone-number screen (app/otp.tsx): normalising what the user typed,
 * validating it as a Tanzanian subscriber number, building the international
 * number, and the Continue button's decision.
 */
module Otp {
  import opened Optional
  import opened Strings

  // ---------------------------------------------------------------------------
  // Constants of the screen
  // ---------------------------------------------------------------------------

  /** One position of an input mask: a fixed character or a place for one digit. */
  datatype MaskSlot = Literal(c: char) | DigitSlot

  /** The input mask `+255 xxx xxx xxx`. */
  const TanzaniaMask: seq<MaskSlot> := MaskPrefix + MaskBody
  /** `xxx xxx xxx` */
  const MaskBody: seq<MaskSlot> := DigitGroup + GroupSeparator + DigitGroup + GroupSeparator + DigitGroup
  /** `+255 ` */
  const MaskPrefix: seq<MaskSlot> := [Literal('+'), Literal('2'), Literal('5'), Literal('5'), Literal(' ')]
  const DigitGroup: seq<MaskSlot> := [DigitSlot, DigitSlot, DigitSlot]
  const GroupSeparator: seq<MaskSlot> := [Literal(' ')]

  const CountryCode: string := "255"
  const TrunkPrefix: string := "0"
  /** Digits a subscriber number has after the country code. */
  const SubscriberLength: nat := 9

  const LengthError: string := "Phone number must be exactly 9 digits"
  const InvalidTitle: string := "Invalid Phone Number"
  /** Fallback message of the alert raised by sendOtp. */
  const SendFallback: string := "Please enter a valid Tanzanian phone number"
  /** Fallback message of the alert raised by the Continue button. */
  const ContinueFallback: string := "Please enter a valid phone number"

  // ---------------------------------------------------------------------------
  // Strings
  // ---------------------------------------------------------------------------

  /** JavaScript truthiness of a `string | null`: null and "" are falsy. */
  predicate Truthy(e: Option<string>) { e.Some? && e.value != "" }

  /** `s.replace(/\D/g, '')`: the decimal digits of s, in their order. */
  function DigitsOnly(s: string): (r: string)
    ensures AllDigits(r)
    ensures |r| <= |s|
  {
    if s == [] then []
    else if IsDigit(s[0]) then [s[0]] + DigitsOnly(s[1..])
    else DigitsOnly(s[1..])
  }

  /** A single character is kept exactly when it is a digit. */
  lemma DigitsOnlySingle(c: char)
    ensures DigitsOnly([c]) == (if IsDigit(c) then [c] else [])
  {
    assert [c][1..] == [];
  }

  /** A string of digits is left as it is. */
  lemma {:induction false} DigitsOnlyOfDigits(s: string)
    requires AllDigits(s)
    ensures DigitsOnly(s) == s
  {
    if s != [] {
      DigitsOnlyOfDigits(s[1..]);
    }
  }

  /** Removing the non-digits of a concatenation works piece by piece. */
  lemma {:induction false} DigitsOnlyAppend(a: string, b: string)
    ensures DigitsOnly(a + b) == DigitsOnly(a) + DigitsOnly(b)
  {
    if a == [] {
      assert a + b == b;
    } else {
      assert (a + b)[0] == a[0];
      assert (a + b)[1..] == a[1..] + b;
      DigitsOnlyAppend(a[1..], b);
    }
  }

  /** Removing the non-digits twice is removing them once. */
  lemma DigitsOnlyIdempotent(s: string)
    ensures DigitsOnly(DigitsOnly(s)) == DigitsOnly(s)
  {
    DigitsOnlyOfDigits(DigitsOnly(s));
  }

  // ---------------------------------------------------------------------------
  // processPhoneInput
  // ---------------------------------------------------------------------------

  /**
   * processPhoneInput: keep the digits, then drop one leading country code
   * `255`, then drop one leading trunk `0`.
   */
  function ProcessPhoneInput(input: string): (r: string)
    ensures AllDigits(r)
    ensures var d := DigitsOnly(input);
      && (StartsWith(d, "2550") ==> d == "2550" + r)
      && (StartsWith(d, "255") && !StartsWith(d, "2550") ==> d == "255" + r)
      && (!StartsWith(d, "255") && StartsWith(d, "0") ==> d == "0" + r)
      && (!StartsWith(d, "255") && !StartsWith(d, "0") ==> d == r)
  {
    var digits := DigitsOnly(input);
    var afterCountry := if StartsWith(digits, CountryCode) then digits[3..] else digits;
    var afterTrunk := if StartsWith(afterCountry, TrunkPrefix) then afterCountry[1..] else afterCountry;
    assert StartsWith(digits, CountryCode) ==> digits == CountryCode + afterCountry;
    assert StartsWith(afterCountry, TrunkPrefix) ==> afterCountry == TrunkPrefix + afterTrunk;
    assert StartsWith(digits, "2550") ==> digits == "2550" + afterTrunk by {
      if StartsWith(digits, "2550") {
        assert digits[..3] == digits[..4][..3];
        assert afterCountry[..1] == digits[3..4];
      }
    }
    afterTrunk
  }

  /** processPhoneInput on a string that is already all digits, case by case. */
  lemma ProcessDigits(d: string)
    requires AllDigits(d)
    ensures StartsWith(d, "2550") ==> ProcessPhoneInput(d) == d[4..]
    ensures StartsWith(d, "255") && !StartsWith(d, "2550") ==> ProcessPhoneInput(d) == d[3..]
    ensures !StartsWith(d, "255") && StartsWith(d, "0") ==> ProcessPhoneInput(d) == d[1..]
    ensures !StartsWith(d, "255") && !StartsWith(d, "0") ==> ProcessPhoneInput(d) == d
  {
    DigitsOnlyOfDigits(d);
    var r := ProcessPhoneInput(d);
    if StartsWith(d, "2550") {
      assert d == "2550" + r;
      assert d[4..] == r;
    } else if StartsWith(d, "255") {
      assert d == "255" + r;
      assert d[3..] == r;
    } else if StartsWith(d, "0") {
      assert d == "0" + r;
      assert d[1..] == r;
    }
  }

  /** The country code is removed before the trunk zero. */
  lemma CountryCodeThenTrunkZero()
    ensures ProcessPhoneInput("2550712345678") == "712345678"
  {
    var d := "2550712345678";
    assert AllDigits(d);
    assert StartsWith(d, "2550");
    ProcessDigits(d);
    assert d[4..] == "712345678";
  }

  /** The country code is removed only once. */
  lemma CountryCodeRemovedOnce()
    ensures ProcessPhoneInput("255255712345") == "255712345"
  {
    var d := "255255712345";
    assert AllDigits(d);
    assert d[..4][3] == '2';
    assert StartsWith(d, "255") && !StartsWith(d, "2550");
    ProcessDigits(d);
    assert d[3..] == "255712345";
  }

  /** At most one trunk zero is removed. */
  lemma TrunkZeroRemovedOnce()
    ensures ProcessPhoneInput("00712345678") == "0712345678"
  {
    var d := "00712345678";
    assert AllDigits(d);
    assert !StartsWith(d, "255") && StartsWith(d, "0");
    ProcessDigits(d);
    assert d[1..] == "0712345678";
  }

  /** Separators and the `+` sign do not matter. */
  lemma {:induction false} ProcessIgnoresNonDigits(a: string, b: string)
    requires DigitsOnly(a) == DigitsOnly(b)
    ensures ProcessPhoneInput(a) == ProcessPhoneInput(b)
  {
  }

  /**
   * Whether validatePhone accepts the raw input: at most the four characters
   * `2550` were removed, so the input had between 9 and 13 digits.
   */
  predicate IsValidPhone(raw: string)
    ensures IsValidPhone(raw) ==> SubscriberLength <= |DigitsOnly(raw)| <= SubscriberLength + 4
  {
    |ProcessPhoneInput(raw)| == SubscriberLength
  }

  /** The error text validatePhone stores for the raw input. */
  function ValidationError(raw: string): (e: Option<string>)
    ensures e == None <==> IsValidPhone(raw)
    ensures e != None ==> e == Some(LengthError)
  {
    if |ProcessPhoneInput(raw)| != SubscriberLength then Some(LengthError) else None
  }

  /**
   * A nine-digit entry without the trunk zero is accepted exactly when it
   * neither begins with `0` nor with the country code.
   */
  lemma FullEntryAccepted(d: string)
    requires |d| == SubscriberLength && AllDigits(d)
    ensures IsValidPhone(d) <==> !StartsWith(d, "0") && !StartsWith(d, CountryCode)
  {
    DigitsOnlyOfDigits(d);
  }

  /** A processed number can still begin with `0` when the input had two. */
  lemma DoubleZeroAccepted()
    ensures IsValidPhone("0012345678")
    ensures ProcessPhoneInput("0012345678") == "012345678"
  {
    var d := "0012345678";
    assert AllDigits(d);
    assert !StartsWith(d, "255") && StartsWith(d, "0");
    ProcessDigits(d);
    assert d[1..] == "012345678";
  }

  // ---------------------------------------------------------------------------
  // The international number and the mask
  // ---------------------------------------------------------------------------

  /** `+255${processedNumber}` for a validated subscriber number. */
  function InternationalNumber(processed: string): (n: string)
    requires |processed| == SubscriberLength && AllDigits(processed)
    ensures |n| == 13
    ensures StartsWith(n, "+255") && n[4..] == processed
    ensures AllDigits(n[1..])
  {
    var n := "+" + CountryCode + processed;
    assert n[4..] == processed;
    assert forall i :: 1 <= i < 4 ==> IsDigit(n[i]);
    n
  }

  /**
   * Processing the international number gives the subscriber number back,
   * unless that begins with a `0`, which is then taken for a trunk prefix.
   */
  lemma InternationalRoundTrip(p: string)
    requires |p| == SubscriberLength && AllDigits(p)
    ensures ProcessPhoneInput(InternationalNumber(p)) == (if StartsWith(p, "0") then p[1..] else p)
  {
    var n := InternationalNumber(p);
    assert n == "+" + ("255" + p);
    DigitsOnlyAppend("+", "255" + p);
    DigitsOnlyOfDigits("255" + p);
    assert DigitsOnly(n) == "255" + p;
    assert ("255" + p)[..3] == "255";
    assert ("255" + p)[3..] == p;
  }

  /** The number of digit places in a mask. */
  function DigitSlots(mask: seq<MaskSlot>): nat {
    if mask == [] then 0 else (if mask[0] == DigitSlot then 1 else 0) + DigitSlots(mask[1..])
  }

  /**
   * The text a mask shows when its digit places are filled, in order, from
   * `digits`; the text ends at the first digit place left without a digit.
   */
  function FillMask(mask: seq<MaskSlot>, digits: string): (text: string)
    ensures |text| <= |mask|
  {
    if mask == [] then []
    else match mask[0]
      case Literal(c) => [c] + FillMask(mask[1..], digits)
      case DigitSlot => if digits == [] then [] else [digits[0]] + FillMask(mask[1..], digits[1..])
  }

  /** The literal characters of a mask, all of them. */
  function MaskLiterals(mask: seq<MaskSlot>): string {
    if mask == [] then []
    else match mask[0]
      case Literal(c) => [c] + MaskLiterals(mask[1..])
      case DigitSlot => MaskLiterals(mask[1..])
  }

  /** Digit places and literals of a concatenation of masks. */
  lemma {:induction false} MaskAppend(a: seq<MaskSlot>, b: seq<MaskSlot>)
    ensures DigitSlots(a + b) == DigitSlots(a) + DigitSlots(b)
    ensures MaskLiterals(a + b) == MaskLiterals(a) + MaskLiterals(b)
  {
    if a == [] {
      assert a + b == b;
    } else {
      assert (a + b)[1..] == a[1..] + b;
      MaskAppend(a[1..], b);
    }
  }

  /**
   * The mask has sixteen positions: the literal `+255 ` and then nine digit
   * places in three groups of three, separated by single spaces.
   */
  lemma TanzaniaMaskShape()
    ensures |TanzaniaMask| == 16
    ensures DigitSlots(MaskPrefix) == 0 && MaskLiterals(MaskPrefix) == "+255 "
    ensures DigitSlots(DigitGroup) == 3 && MaskLiterals(DigitGroup) == ""
    ensures DigitSlots(MaskBody) == SubscriberLength && MaskLiterals(MaskBody) == "  "
    ensures DigitSlots(TanzaniaMask) == SubscriberLength
    ensures MaskLiterals(TanzaniaMask) == "+255   "
  {
    var pre, g, sp := MaskPrefix, DigitGroup, GroupSeparator;
    assert DigitSlots(g) == 3 && MaskLiterals(g) == "";
    assert DigitSlots(sp) == 0 && MaskLiterals(sp) == " ";
    assert DigitSlots(pre) == 0 && MaskLiterals(pre) == "+255 ";
    MaskAppend(g, sp);
    MaskAppend(g + sp, g);
    MaskAppend(g + sp + g, sp);
    MaskAppend(g + sp + g + sp, g);
    MaskAppend(pre, MaskBody);
  }

  /** A prefix made only of literals is shown as it is, before the rest. */
  lemma {:induction false} FillLiteralPrefix(a: seq<MaskSlot>, b: seq<MaskSlot>, digits: string)
    requires DigitSlots(a) == 0
    ensures FillMask(a + b, digits) == MaskLiterals(a) + FillMask(b, digits)
  {
    if a == [] {
      assert a + b == b;
    } else {
      assert (a + b)[0] == a[0];
      assert (a + b)[1..] == a[1..] + b;
      FillLiteralPrefix(a[1..], b, digits);
    }
  }

  /**
   * When none of a mask's literals is a digit, the digits of the filled text
   * are exactly the entry.
   */
  lemma {:induction false} FillMaskDigits(mask: seq<MaskSlot>, digits: string)
    requires |digits| == DigitSlots(mask) && AllDigits(digits)
    requires DigitsOnly(MaskLiterals(mask)) == []
    ensures DigitsOnly(FillMask(mask, digits)) == digits
  {
    if mask != [] {
      match mask[0]
      case Literal(c) =>
        DigitsOnlyAppend([c], MaskLiterals(mask[1..]));
        FillMaskDigits(mask[1..], digits);
        DigitsOnlyAppend([c], FillMask(mask[1..], digits));
      case DigitSlot =>
        assert DigitSlots(mask) == 1 + DigitSlots(mask[1..]);
        assert FillMask(mask, digits) == [digits[0]] + FillMask(mask[1..], digits[1..]);
        assert AllDigits(digits[1..]);
        FillMaskDigits(mask[1..], digits[1..]);
        DigitsOnlyAppend([digits[0]], FillMask(mask[1..], digits[1..]));
        assert DigitsOnly([digits[0]]) == [digits[0]] by {
          assert [digits[0]][1..] == [];
        }
        assert digits == [digits[0]] + digits[1..];
    }
  }

  /**
   * A complete entry in the Tanzanian mask, taken as the screen's masked
   * value, has the digits `255` followed by the entry.
   */
  lemma MaskedEntryDigits(d: string)
    requires |d| == SubscriberLength && AllDigits(d)
    ensures DigitsOnly(FillMask(TanzaniaMask, d)) == CountryCode + d
  {
    TanzaniaMaskShape();
    FillLiteralPrefix(MaskPrefix, MaskBody, d);
    assert DigitsOnly("  ") == [];
    FillMaskDigits(MaskBody, d);
    DigitsOnlyAppend("+255 ", FillMask(MaskBody, d));
    assert DigitsOnly("+255 ") == "255" by {
      DigitsOnlyAppend("+", "255 ");
      DigitsOnlyAppend("255", " ");
      DigitsOnlyOfDigits("255");
    }
  }

  /**
   * The masked value of a complete entry processes back to the entry unless
   * the entry begins with `0`.
   */
  lemma MaskedEntryProcesses(d: string)
    requires |d| == SubscriberLength && AllDigits(d)
    ensures ProcessPhoneInput(FillMask(TanzaniaMask, d)) == (if StartsWith(d, "0") then d[1..] else d)
  {
    var t := FillMask(TanzaniaMask, d);
    var e := CountryCode + d;
    MaskedEntryDigits(d);
    DigitsOnlyOfDigits(e);
    ProcessIgnoresNonDigits(t, e);
    ProcessDigits(e);
    assert e[..3] == CountryCode;
    assert e[3..] == d;
    assert e[4..] == d[1..];
    assert StartsWith(e, "2550") <==> StartsWith(d, "0") by {
      assert e[..4] == CountryCode + d[..1];
    }
  }

  // ---------------------------------------------------------------------------
  // Outcomes of sendOtp and of the Continue button
  // ---------------------------------------------------------------------------

  datatype Alert = Alert(title: string, message: string)

  /** What sendOtp ends in: the international number it formed and logged, or an alert. */
  datatype SendResult = NumberFormed(number: string) | SendRejected(alert: Alert)

  /** What a press of Continue ends in. */
  datatype PressResult = Proceeded(send: SendResult) | PressRejected(alert: Alert)

  /**
   * sendOtp for the masked text `phoneNumber`; `shownError` is the error the
   * screen rendered with, which the alert shows (the closure's value, not
   * the one validatePhone has just stored).
   */
  function SendOutcome(phoneNumber: string, shownError: Option<string>): (r: SendResult)
    ensures r.NumberFormed? <==> IsValidPhone(phoneNumber)
    ensures r.NumberFormed? ==>
      |r.number| == 13 && StartsWith(r.number, "+255") &&
      r.number[4..] == ProcessPhoneInput(phoneNumber) && AllDigits(r.number[1..])
    ensures r.SendRejected? ==>
      r.alert == Alert(InvalidTitle, if Truthy(shownError) then shownError.value else SendFallback)
  {
    var unmasked := DigitsOnly(phoneNumber);
    DigitsOnlyIdempotent(phoneNumber);
    if |ProcessPhoneInput(unmasked)| == SubscriberLength then
      NumberFormed(InternationalNumber(ProcessPhoneInput(unmasked)))
    else
      SendRejected(Alert(InvalidTitle, if Truthy(shownError) then shownError.value else SendFallback))
  }

  /** isButtonEnabled: an enabled button never goes with a shown error. */
  predicate ButtonEnabled(phoneNumber: string, validationError: Option<string>)
    ensures ButtonEnabled(phoneNumber, validationError) ==> phoneNumber != "" && !Truthy(validationError)
    ensures phoneNumber == "" ==> !ButtonEnabled(phoneNumber, validationError)
  {
    |phoneNumber| > 0 && validationError == None
  }

  /** handleContinuePress, by the state the screen rendered with. */
  function ContinueOutcome(phoneNumber: string, validationError: Option<string>): (r: PressResult)
    ensures r.Proceeded? <==> |phoneNumber| > 0 && validationError == None
    ensures r.Proceeded? ==> r.send == SendOutcome(phoneNumber, None)
    ensures r.Proceeded? && r.send.SendRejected? ==> r.send.alert == Alert(InvalidTitle, SendFallback)
    ensures r.PressRejected? ==> r.alert.title == InvalidTitle
    ensures r.PressRejected? && Truthy(validationError) ==> r.alert.message == validationError.value
    ensures r.PressRejected? && !Truthy(validationError) ==> r.alert.message == ContinueFallback
  {
    if ButtonEnabled(phoneNumber, validationError) then Proceeded(SendOutcome(phoneNumber, validationError))
    else if Truthy(validationError) then PressRejected(Alert(InvalidTitle, validationError.value))
    else PressRejected(Alert(InvalidTitle, ContinueFallback))
  }

  /**
   * A press on the Continue button, which is `disabled` unless isButtonEnabled
   * holds: a disabled button runs no handler at all, so an actual press
   * always proceeds to sendOtp.
   */
  function ButtonPress(phoneNumber: string, validationError: Option<string>): (r: Option<PressResult>)
    ensures r.Some? <==> ButtonEnabled(phoneNumber, validationError)
    ensures r.Some? ==> r.value.Proceeded? && r.value.send == SendOutcome(phoneNumber, None)
  {
    if ButtonEnabled(phoneNumber, validationError) then Some(ContinueOutcome(phoneNumber, validationError)) else None
  }

  /**
   * A complete entry the screen accepted forms the international number:
   * `+255` followed by the entry.
   */
  lemma AcceptedEntryFormsNumber(d: string)
    requires |d| == SubscriberLength && AllDigits(d)
    requires ValidationError(d) == None
    ensures ContinueOutcome(FillMask(TanzaniaMask, d), ValidationError(d)) ==
      Proceeded(NumberFormed("+255" + d))
  {
    FullEntryAccepted(d);
    MaskedEntryProcesses(d);
    TanzaniaMaskShape();
    var t := FillMask(TanzaniaMask, d);
    assert |t| > 0;
    var n := InternationalNumber(ProcessPhoneInput(t));
    assert n == "+" + CountryCode + d;
  }

  // ---------------------------------------------------------------------------
  // The screen's state
  // ---------------------------------------------------------------------------

  /** The screen component and its three pieces of state. */
  class Page {
    var loading: bool
    var phoneNumber: string
    var validationError: Option<string>

    constructor ()
      ensures !loading && phoneNumber == "" && validationError == None
    {
      loading := false;
      phoneNumber := "";
      validationError := None;
    }

    /** isButtonEnabled */
    predicate IsButtonEnabled()
      reads this
      ensures IsButtonEnabled() ==> phoneNumber != "" && !Truthy(validationError)
    {
      ButtonEnabled(phoneNumber, validationError)
    }

    /** validatePhone: stores and returns the verdict on `rawInput`. */
    method ValidatePhone(rawInput: string) returns (ok: bool)
      modifies this`validationError
      ensures ok <==> |ProcessPhoneInput(rawInput)| == SubscriberLength
      ensures validationError == (if ok then None else Some(LengthError))
    {
      var digits := ProcessPhoneInput(rawInput);
      if |digits| != SubscriberLength {
        validationError := Some(LengthError);
        return false;
      }
      validationError := None;
      return true;
    }

    /**
     * The mask input's onChangeText: store the masked text, validate the
     * unmasked one (handlePhoneNumberChange).
     */
    method ChangeText(masked: string, unmasked: string)
      modifies this`phoneNumber, this`validationError
      ensures phoneNumber == masked
      ensures validationError == ValidationError(unmasked)
      ensures IsButtonEnabled() <==> |masked| > 0 && |ProcessPhoneInput(unmasked)| == SubscriberLength
    {
      phoneNumber := masked;
      var _ := ValidatePhone(unmasked);
    }

    /** sendOtp */
    method SendOtp() returns (res: SendResult)
      modifies this`validationError, this`loading
      ensures res == SendOutcome(old(phoneNumber), old(validationError))
      ensures validationError == ValidationError(old(phoneNumber))
      ensures loading == (if res.NumberFormed? then old(loading) else false)
    {
      var shownError := validationError;
      var unmaskedNumber := DigitsOnly(phoneNumber);
      DigitsOnlyIdempotent(phoneNumber);
      var ok := ValidatePhone(unmaskedNumber);
      if ok {
        var processedNumber := ProcessPhoneInput(unmaskedNumber);
        res := NumberFormed(InternationalNumber(processedNumber));
      } else {
        res := SendRejected(Alert(InvalidTitle, if Truthy(shownError) then shownError.value else SendFallback));
        loading := false;
      }
    }

    /** handleContinuePress */
    method HandleContinuePress() returns (res: PressResult)
      modifies this`validationError, this`loading
      ensures res == ContinueOutcome(old(phoneNumber), old(validationError))
      ensures res.Proceeded? ==> validationError == ValidationError(old(phoneNumber)) && loading == res.send.NumberFormed?
      ensures res.PressRejected? ==> validationError == old(validationError) && loading == old(loading)
    {
      if IsButtonEnabled() {
        loading := true;
        var sent := SendOtp();
        res := Proceeded(sent);
      } else if Truthy(validationError) {
        res := PressRejected(Alert(InvalidTitle, validationError.value));
      } else {
        res := PressRejected(Alert(InvalidTitle, ContinueFallback));
      }
    }

    /** A press on the Continue button: nothing happens while it is disabled. */
    method PressContinue() returns (res: Option<PressResult>)
      modifies this`validationError, this`loading
      ensures res == ButtonPress(old(phoneNumber), old(validationError))
      ensures res == None ==> validationError == old(validationError) && loading == old(loading)
      ensures res.Some? ==> validationError == ValidationError(old(phoneNumber)) && loading == res.value.send.NumberFormed?
    {
      if IsButtonEnabled() {
        var r := HandleContinuePress();
        res := Some(r);
      } else {
        res := None;
      }
    }
  }
}
