/** The checkout screen (CheckoutView.swift): the phone field's digit
    filter, its indicator, the confirm button, and the simulated payment.

    `isNumber` (Swift's `Character.isNumber`) is left abstract; `count` is
    the number of characters. The two-second delay of the payment is
    modelled as two steps, one when the button is pressed and one when the
    delay has passed. */
module Checkout {
  import opened Text

  const PhoneLength: nat := 9
  const InvalidPhoneMessage: string := "Please enter a valid 9-digit phone number."
  const PromptPrefix: string := "M-Pesa payment prompt sent to "

  /** The alert text after a well-formed number. */
  function PromptMessage(phone: string): string {
    PromptPrefix + "+254" + phone
    + "\n\nPlease check your phone and enter your M-Pesa PIN to complete the payment."
  }

  /** `onChange(of: phoneNumber)`: the digits of the new text when there are
      at most nine of them; otherwise the text stays as typed. */
  function PhoneAfterEdit(newValue: string, isNumber: char -> bool): (r: string)
    ensures |r| <= PhoneLength ==> r == Filter(newValue, isNumber)
    ensures |r| > PhoneLength ==> r == newValue
  {
    var filtered := Filter(newValue, isNumber);
    if |filtered| <= PhoneLength then filtered else newValue
  }

  /** The hint under the phone field. */
  datatype Indicator = ValidNumber | EnterNineDigits | NoIndicator

  function IndicatorFor(phone: string): Indicator {
    if |phone| == PhoneLength then ValidNumber
    else if |phone| > 0 then EnterNineDigits
    else NoIndicator
  }

  function IndicatorText(i: Indicator): string {
    match i
    case ValidNumber => "Valid number"
    case EnterNineDigits => "Enter 9 digits"
    case NoIndicator => ""
  }

  /** `.disabled(phoneNumber.count != 9 || isProcessing)` */
  function ConfirmDisabled(phone: string, isProcessing: bool): bool {
    |phone| != PhoneLength || isProcessing
  }

  function AlertTitle(paymentSuccess: bool): string {
    if paymentSuccess then "Payment Initiated!" else "Invalid Input"
  }

  // ---------------------------------------------------------------------------

  /** At most nine digits: the field holds exactly the digits typed, in order. */
  lemma ShortInputFiltered(newValue: string, isNumber: char -> bool)
    requires |Filter(newValue, isNumber)| <= 9
    ensures PhoneAfterEdit(newValue, isNumber) == Filter(newValue, isNumber)
    ensures forall i :: 0 <= i < |PhoneAfterEdit(newValue, isNumber)| ==> isNumber(PhoneAfterEdit(newValue, isNumber)[i])
  {
  }

  /** More than nine digits: the field is not rewritten, so it keeps any
      non-digits typed with them, and it is longer than nine characters. */
  lemma LongInputKept(newValue: string, isNumber: char -> bool)
    requires |Filter(newValue, isNumber)| > 9
    ensures PhoneAfterEdit(newValue, isNumber) == newValue
    ensures |PhoneAfterEdit(newValue, isNumber)| > 9
  {
  }

  /** Whatever is typed, a field of exactly nine characters holds nine digits. */
  lemma NineCharactersAreDigits(newValue: string, isNumber: char -> bool)
    requires |PhoneAfterEdit(newValue, isNumber)| == 9
    ensures forall i :: 0 <= i < 9 ==> isNumber(PhoneAfterEdit(newValue, isNumber)[i])
  {
    var filtered := Filter(newValue, isNumber);
    assert |filtered| <= |newValue|;
  }

  /** Editing the filtered text again changes nothing. */
  lemma {:induction false} EditIdempotent(newValue: string, isNumber: char -> bool)
    ensures PhoneAfterEdit(PhoneAfterEdit(newValue, isNumber), isNumber) == PhoneAfterEdit(newValue, isNumber)
  {
    var filtered := Filter(newValue, isNumber);
    if |filtered| <= PhoneLength {
      FilterKeepsAll(filtered, isNumber);
    }
  }

  /** Nine characters show "Valid number", other non-empty texts "Enter 9
      digits", and the empty field shows nothing; the valid hint shows exactly
      when the button is enabled while idle. */
  lemma IndicatorRule(phone: string)
    ensures |phone| == 9 ==> IndicatorText(IndicatorFor(phone)) == "Valid number"
    ensures |phone| != 9 && |phone| > 0 ==> IndicatorText(IndicatorFor(phone)) == "Enter 9 digits"
    ensures |phone| == 0 ==> IndicatorFor(phone) == NoIndicator
    ensures IndicatorFor(phone) == ValidNumber <==> !ConfirmDisabled(phone, false)
  {
  }

  /** The alert names the number with the country code in front. */
  lemma PromptNamesNumber(phone: string)
    ensures PromptMessage(phone)[30..34 + |phone|] == "+254" + phone
  {
    assert |PromptPrefix| == 30;
    var m := PromptMessage(phone);
    assert m == PromptPrefix + ("+254" + phone)
      + "\n\nPlease check your phone and enter your M-Pesa PIN to complete the payment.";
  }

  // ---------------------------------------------------------------------------

  class CheckoutState {
    var phoneNumber: string
    var showAlert: bool
    var alertMessage: string
    var isProcessing: bool
    var paymentSuccess: bool

    constructor()
      ensures phoneNumber == "" && !showAlert && alertMessage == ""
      ensures !isProcessing && !paymentSuccess
    {
      phoneNumber := "";
      showAlert := false;
      alertMessage := "";
      isProcessing := false;
      paymentSuccess := false;
    }

    /** The text field storing `newValue`, then the `onChange` handler. */
    method EditPhone(newValue: string, isNumber: char -> bool)
      modifies this
      ensures phoneNumber == PhoneAfterEdit(newValue, isNumber)
      ensures showAlert == old(showAlert) && alertMessage == old(alertMessage)
      ensures isProcessing == old(isProcessing) && paymentSuccess == old(paymentSuccess)
    {
      phoneNumber := newValue;
      var filtered := Filter(phoneNumber, isNumber);
      if |filtered| <= PhoneLength {
        phoneNumber := filtered;
      }
    }

    /** `handlePayment` up to the delay. */
    method BeginPayment()
      modifies this
      ensures isProcessing
      ensures phoneNumber == old(phoneNumber) && showAlert == old(showAlert)
      ensures alertMessage == old(alertMessage) && paymentSuccess == old(paymentSuccess)
    {
      isProcessing := true;
    }

    /** `handlePayment` after the delay: decide on the number now in the field. */
    method CompletePayment()
      modifies this
      ensures !isProcessing && showAlert && phoneNumber == old(phoneNumber)
      ensures |phoneNumber| == 9 ==> paymentSuccess && alertMessage == PromptMessage(phoneNumber)
      ensures |phoneNumber| != 9 ==> !paymentSuccess && alertMessage == InvalidPhoneMessage
    {
      isProcessing := false;
      if |phoneNumber| == PhoneLength {
        alertMessage := PromptMessage(phoneNumber);
        paymentSuccess := true;
      } else {
        alertMessage := InvalidPhoneMessage;
        paymentSuccess := false;
      }
      showAlert := true;
    }

    /** Both steps without an edit in between: the alert title says whether
        the number was well-formed. */
    method HandlePayment()
      modifies this
      ensures !isProcessing && showAlert && phoneNumber == old(phoneNumber)
      ensures paymentSuccess <==> |phoneNumber| == 9
      ensures AlertTitle(paymentSuccess) == "Payment Initiated!" <==> |phoneNumber| == 9
      ensures paymentSuccess ==> alertMessage == PromptMessage(phoneNumber)
      ensures !paymentSuccess ==> alertMessage == InvalidPhoneMessage
    {
      BeginPayment();
      CompletePayment();
    }
  }
}
