/** The payment form of src/pages/Payment.tsx: four fields with their live
    error messages, the submit gate and the subscription call. The current
    year and month `validateExpiry` reads from the clock are parameters. */
module Payment {
  import opened Wrappers
  import opened Text
  import opened Validation
  import opened Auth

  const CardError := "유효하지 않은 카드 번호입니다"
  const ExpiryError := "유효기간이 만료되었거나 잘못되었습니다"
  const CvcError := "CVC는 3-4자리 숫자입니다"
  const NameError := "영문 이름만 입력 가능합니다"
  const PaymentFailure := "결제 처리 중 오류가 발생했습니다. 다시 시도해주세요."

  /** `location.state?.plan || "basic"`. */
  function PlanId(statePlan: Option<string>): (id: string)
    ensures id != ""
    ensures statePlan.None? || statePlan.value == "" ==> id == "basic"
  {
    if statePlan.Some? && statePlan.value != "" then statePlan.value else "basic"
  }

  /** The plan ids the page has details for. */
  predicate KnownPlan(id: string) {
    id == "basic" || id == "pro"
  }

  function PlanOf(id: string): (plan: Plan)
    requires KnownPlan(id)
    ensures plan != Free
    ensures id == "pro" <==> plan == Pro
  {
    if id == "pro" then Pro else Basic
  }

  /** The CVC field keeps at most the first four digits typed. */
  function CvcDigits(value: string): (digits: string)
    ensures AllDigits(digits) && |digits| <= 4
    ensures 3 <= |digits| ==> ValidateCVC(digits)
  {
    Take(KeepDigits(value), 4)
  }

  /** What the name field keeps of a typed value: its start, upper-cased
      and cut to 26 characters. */
  function CardholderInput(value: string): (name: string)
    ensures |name| == if |value| <= 26 then |value| else 26
    ensures forall i :: 0 <= i < |name| ==> name[i] == UpperChar(value[i])
  {
    Take(ToUpper(value), 26)
  }

  /** The name field's error: shown from two characters on, for a name the
      cardholder check rejects. */
  function CardholderNameError(name: string): (message: string)
    ensures message != "" <==> |name| >= 2 && !ValidateCardholderName(name)
    ensures message != "" ==> message == NameError
  {
    if |name| >= 2 then
      if !ValidateCardholderName(name) then NameError else ""
    else ""
  }

  /** The two values `handleNameChange` stores, computed apart from the
      form's other fields. */
  method NameFieldUpdate(value: string) returns (name: string, nameError: string)
    ensures name == CardholderInput(value) && nameError == CardholderNameError(name)
  {
    name := CardholderInput(value);
    nameError := CardholderNameError(name);
  }

  class PaymentForm {
    const planId: string
    var cardNumber: string
    var expiry: string
    var cvc: string
    var name: string
    var cardNumberError: string
    var expiryError: string
    var cvcError: string
    var nameError: string
    var error: string
    var loading: bool
    var success: bool
    /** `isSubmitting.current`. */
    var submitting: bool

    /** The submit flag and the loading state rise and fall together. */
    ghost predicate Valid()
      reads this
    {
      submitting == loading
    }

    constructor (statePlan: Option<string>)
      ensures Valid()
      ensures planId == PlanId(statePlan)
      ensures cardNumber == "" && expiry == "" && cvc == "" && name == ""
      ensures cardNumberError == "" && expiryError == "" && cvcError == "" && nameError == ""
      ensures error == "" && !loading && !success && !submitting
    {
      planId := PlanId(statePlan);
      cardNumber, expiry, cvc, name := "", "", "", "";
      cardNumberError, expiryError, cvcError, nameError := "", "", "", "";
      error := "";
      loading, success, submitting := false, false, false;
    }

    /** `handleCardNumberChange`: the formatted number is stored; at sixteen
        digits the number is checked, below that a previous error is
        cleared, and with no digits the error stays as it was. */
    method HandleCardNumberChange(value: string)
      requires Valid()
      modifies this
      ensures Valid()
      ensures cardNumber == FormatCardNumber(value)
      ensures var n := |Take(KeepDigits(value), 16)|;
              (n == 16 ==> cardNumberError == if CardNumberValid(cardNumber) then "" else CardError) &&
              (0 < n < 16 ==> cardNumberError == "") &&
              (n == 0 ==> cardNumberError == old(cardNumberError))
      ensures expiry == old(expiry) && cvc == old(cvc) && name == old(name)
      ensures expiryError == old(expiryError) && nameError == old(nameError) && cvcError == old(cvcError)
      ensures error == old(error) && loading == old(loading) && success == old(success)
    {
      var formatted := FormatCardNumber(value);
      cardNumber := formatted;
      FormattedCardNumberStrips(value);
      var digits := StripWhitespace(formatted);
      if |digits| == 16 {
        var ok := ValidateCardNumber(formatted);
        if !ok {
          cardNumberError := CardError;
        } else {
          cardNumberError := "";
        }
      } else if |digits| > 0 && |digits| < 16 {
        cardNumberError := "";
      }
    }

    /** `handleExpiryChange`: checked once the MM/YY text is complete,
        cleared otherwise. */
    method HandleExpiryChange(value: string, currentYear: int, currentMonth: int)
      requires Valid()
      modifies this
      ensures Valid()
      ensures expiry == FormatExpiry(value)
      ensures expiryError != "" <==> |expiry| == 5 && !ValidateExpiry(expiry, currentYear, currentMonth)
      ensures expiryError != "" ==> expiryError == ExpiryError
      ensures cardNumber == old(cardNumber) && cvc == old(cvc) && name == old(name)
      ensures cardNumberError == old(cardNumberError) && nameError == old(nameError) && cvcError == old(cvcError)
      ensures error == old(error) && loading == old(loading) && success == old(success)
    {
      var formatted := FormatExpiry(value);
      expiry := formatted;
      if |formatted| == 5 {
        if !ValidateExpiry(formatted, currentYear, currentMonth) {
          expiryError := ExpiryError;
        } else {
          expiryError := "";
        }
      } else {
        expiryError := "";
      }
    }

    /** `handleCvcChange`: up to four digits are kept, so the check can
        never fail and the error is always cleared. */
    method HandleCvcChange(value: string)
      requires Valid()
      modifies this
      ensures Valid()
      ensures cvc == Take(KeepDigits(value), 4)
      ensures cvcError == ""
      ensures cardNumber == old(cardNumber) && expiry == old(expiry) && name == old(name)
      ensures cardNumberError == old(cardNumberError) && expiryError == old(expiryError) && nameError == old(nameError)
      ensures error == old(error) && loading == old(loading) && success == old(success)
    {
      var digits := CvcDigits(value);
      cvc := digits;
      if |digits| >= 3 {
        // at most four digits are kept, so the check always passes
        assert ValidateCVC(digits);
      }
      cvcError := "";
    }

    /** `handleNameChange`: upper-cased, cut to 26 characters, and checked
        from two characters on. */
    method HandleNameChange(value: string)
      requires Valid()
      modifies this
      ensures Valid()
      ensures name == CardholderInput(value) && nameError == CardholderNameError(name)
      ensures cardNumber == old(cardNumber) && expiry == old(expiry) && cvc == old(cvc)
      ensures cardNumberError == old(cardNumberError) && expiryError == old(expiryError) && cvcError == old(cvcError)
      ensures error == old(error) && loading == old(loading) && success == old(success)
    {
      name, nameError := NameFieldUpdate(value);
    }

    /** `isFormValid`: every field passes its validator and no field shows
        an error. */
    function IsFormValid(currentYear: int, currentMonth: int): (r: bool)
      reads this
      ensures r ==> 13 <= |StripWhitespace(cardNumber)| <= 19 && AllDigits(StripWhitespace(cardNumber))
      ensures r ==> |expiry| == 5 && expiry[2] == '/'
      ensures r ==> AllDigits(cvc) && 3 <= |cvc| <= 4
      ensures r ==> 2 <= |Trim(name)| <= 26
      ensures r ==> cardNumberError == "" && expiryError == "" && cvcError == "" && nameError == ""
    {
      CardNumberValid(cardNumber) && ValidateExpiry(expiry, currentYear, currentMonth) && ValidateCVC(cvc) &&
      ValidateCardholderName(name) &&
      cardNumberError == "" && expiryError == "" && cvcError == "" && nameError == ""
    }

    /** The final check's error marking: each field that failed its
        validator gets its message, the others keep theirs. */
    method MarkInvalid(cardOk: bool, expiryOk: bool, cvcOk: bool, nameOk: bool)
      modifies this
      ensures cardNumberError == if cardOk then old(cardNumberError) else CardError
      ensures expiryError == if expiryOk then old(expiryError) else ExpiryError
      ensures cvcError == if cvcOk then old(cvcError) else CvcError
      ensures nameError == if nameOk then old(nameError) else NameError
      ensures cardNumber == old(cardNumber) && expiry == old(expiry) && cvc == old(cvc) && name == old(name)
      ensures error == old(error) && loading == old(loading) && success == old(success) && submitting == old(submitting)
    {
      if !cardOk {
        cardNumberError := CardError;
      }
      if !expiryOk {
        expiryError := ExpiryError;
      }
      if !cvcOk {
        cvcError := CvcError;
      }
      if !nameOk {
        nameError := NameError;
      }
    }

    /** The final check of `handleSubmit` and the start of the payment:
        every field that fails its validator gets its error, and only when
        all four pass does the payment start. */
    method CheckAndStart(currentYear: int, currentMonth: int) returns (started: bool)
      requires !submitting && !loading
      modifies this
      ensures started <==> CardNumberValid(old(cardNumber)) && ValidateExpiry(old(expiry), currentYear, currentMonth) &&
                           ValidateCVC(old(cvc)) && ValidateCardholderName(old(name))
      ensures cardNumberError == if CardNumberValid(old(cardNumber)) then old(cardNumberError) else CardError
      ensures expiryError == if ValidateExpiry(old(expiry), currentYear, currentMonth) then old(expiryError) else ExpiryError
      ensures cvcError == if ValidateCVC(old(cvc)) then old(cvcError) else CvcError
      ensures nameError == if ValidateCardholderName(old(name)) then old(nameError) else NameError
      ensures started ==> error == "" && loading && submitting
      ensures !started ==> error == old(error) && !loading && !submitting
      ensures cardNumber == old(cardNumber) && expiry == old(expiry) && cvc == old(cvc) && name == old(name)
      ensures success == old(success)
    {
      var cardOk := ValidateCardNumber(cardNumber);
      var expiryOk := ValidateExpiry(expiry, currentYear, currentMonth);
      var cvcOk := ValidateCVC(cvc);
      var nameOk := ValidateCardholderName(name);
      MarkInvalid(cardOk, expiryOk, cvcOk, nameOk);
      started := cardOk && expiryOk && cvcOk && nameOk;
      if started {
        Start();
      }
    }

    /** The payment starts: the page error is cleared and the form is busy. */
    method Start()
      modifies this
      ensures error == "" && loading && submitting
      ensures cardNumber == old(cardNumber) && expiry == old(expiry) && cvc == old(cvc) && name == old(name)
      ensures cardNumberError == old(cardNumberError) && expiryError == old(expiryError)
      ensures cvcError == old(cvcError) && nameError == old(nameError) && success == old(success)
    {
      error := "";
      loading := true;
      submitting := true;
    }

    /** The synchronous part of `handleSubmit`: ignored while a submission
        is running, otherwise the final check. */
    method Submit(currentYear: int, currentMonth: int) returns (started: bool)
      requires Valid()
      modifies this
      ensures Valid()
      ensures old(submitting) ==>
                !started && loading == old(loading) &&
                cardNumberError == old(cardNumberError) && expiryError == old(expiryError) &&
                cvcError == old(cvcError) && nameError == old(nameError) && error == old(error)
      ensures !old(submitting) ==>
                (started <==> CardNumberValid(old(cardNumber)) && ValidateExpiry(old(expiry), currentYear, currentMonth) &&
                              ValidateCVC(old(cvc)) && ValidateCardholderName(old(name))) &&
                cardNumberError == (if CardNumberValid(old(cardNumber)) then old(cardNumberError) else CardError) &&
                expiryError == (if ValidateExpiry(old(expiry), currentYear, currentMonth) then old(expiryError) else ExpiryError) &&
                cvcError == (if ValidateCVC(old(cvc)) then old(cvcError) else CvcError) &&
                nameError == (if ValidateCardholderName(old(name)) then old(nameError) else NameError)
      ensures started ==> error == "" && loading && submitting
      ensures cardNumber == old(cardNumber) && expiry == old(expiry) && cvc == old(cvc) && name == old(name)
      ensures success == old(success)
    {
      if submitting || loading {
        return false;
      }
      started := CheckAndStart(currentYear, currentMonth);
    }

    /** The payment settling: subscribe to the chosen plan; success only
        when it says so, the failure text otherwise; the flags come down
        whatever happened. */
    method Settle(auth: AuthProvider, startDate: string, endDate: string)
      requires Valid() && submitting && KnownPlan(planId)
      modifies this, auth
      ensures Valid() && !loading && !submitting
      ensures auth.user == if old(auth.user).Some? then
                Some(old(auth.user).value.(subscription := Subscription(PlanOf(planId), Some(startDate), Some(endDate), true)))
              else old(auth.user)
      ensures success == (old(success) || old(auth.user).Some?)
      ensures error == if old(auth.user).Some? then old(error) else PaymentFailure
      ensures cardNumber == old(cardNumber) && expiry == old(expiry) && cvc == old(cvc) && name == old(name)
    {
      var result := auth.Subscribe(PlanOf(planId), startDate, endDate);
      if result {
        success := true;
      } else {
        error := PaymentFailure;
      }
      loading := false;
      submitting := false;
    }
  }

  /** The form's CVC field always satisfies the validator once three digits
      are typed, whatever the user types. */
  lemma CvcNeverRejected(value: string)
    requires |KeepDigits(value)| >= 3
    ensures ValidateCVC(CvcDigits(value))
  {
  }

  /** A card number that passes the form's check at sixteen digits is
      exactly the formatted digits typed. */
  lemma CardCheckSeesTypedDigits(value: string)
    ensures StripWhitespace(FormatCardNumber(value)) == Take(KeepDigits(value), 16)
    ensures CardNumberValid(FormatCardNumber(value)) ==> 13 <= |Take(KeepDigits(value), 16)|
  {
    FormattedCardNumberStrips(value);
  }
}
