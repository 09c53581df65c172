/** The recurring-bill form of src/components/RecurringBillModal.tsx: its
    fields, the validation that fills an error record, the submitted payload,
    the submit button's enabled flag, the payment-method choices and the
    reset on close. Loading saved cards from `localStorage` is not modelled;
    dates are day numbers. */
module RecurringBillModal {
  import opened Wrappers
  import opened Strings
  import AddCard
  import opened Formatters
  import opened BillsStorage

  datatype BillErrors = BillErrors(
    receiverName: Option<string>,
    description: Option<string>,
    amount: Option<string>,
    paymentDateTime: Option<string>,
    paymentMethodId: Option<string>,
    frequency: Option<string>)

  const NoBillErrors := BillErrors(None, None, None, None, None, None)

  /** The placeholder choice shown when no card is saved. */
  const AddCardChoice := "add-card"

  /** The error record `validateForm` builds (RecurringBillModal.tsx:60-86). */
  function Validate(receiverName: string, description: string, amount: Option<real>,
                    paymentDateTime: Option<int>, paymentMethodId: string, frequency: string): (e: BillErrors)
    ensures e.receiverName.Some? <==> Trim(receiverName) == []
    ensures e.description.Some? <==> Trim(description) == []
    ensures e.amount.Some? <==> amount.None? || amount.value <= 0.0
    ensures e.paymentDateTime.Some? <==> paymentDateTime.None?
    ensures e.paymentMethodId.Some? <==> paymentMethodId == ""
    ensures e.frequency.Some? <==> frequency == ""
  {
    BillErrors(
      if Trim(receiverName) == [] then Some("Receiver name is required") else None,
      if Trim(description) == [] then Some("Description is required") else None,
      if amount.None? || amount.value == 0.0 || amount.value <= 0.0 then Some("Valid amount is required") else None,
      if paymentDateTime.None? then Some("Payment date and time is required") else None,
      if paymentMethodId == "" then Some("Payment method is required") else None,
      if frequency == "" then Some("Payment frequency is required") else None)
  }

  /** Whether the submit button is enabled (RecurringBillModal.tsx:146-153). */
  predicate Enabled(receiverName: string, description: string, amount: Option<real>,
                    paymentDateTime: Option<int>, paymentMethodId: string, frequency: string) {
    && Trim(receiverName) != [] && Trim(description) != []
    && amount.Some? && amount.value != 0.0 && amount.value > 0.0
    && paymentDateTime.Some? && paymentMethodId != "" && paymentMethodId != AddCardChoice
    && frequency != ""
  }

  /** The button is enabled exactly when validation would pass and the
      chosen payment method is not the add-card placeholder, which
      validation alone accepts. */
  lemma EnabledIffValidAndNotPlaceholder(receiverName: string, description: string, amount: Option<real>,
                                         paymentDateTime: Option<int>, paymentMethodId: string, frequency: string)
    ensures Enabled(receiverName, description, amount, paymentDateTime, paymentMethodId, frequency)
       <==> Validate(receiverName, description, amount, paymentDateTime, paymentMethodId, frequency) == NoBillErrors
            && paymentMethodId != AddCardChoice
  {
  }

  /** The payload `handleSubmit` passes on (RecurringBillModal.tsx:94-101). */
  function Payload(receiverName: string, description: string, amount: real, paymentDateTime: int,
                   paymentMethodId: string, frequency: string): (d: RecurringBillData)
    ensures d.receiverName == Trim(receiverName) && d.description == Trim(description)
    ensures d.amount == amount && d.paymentDateTime == paymentDateTime
    ensures d.paymentMethodId == paymentMethodId && d.frequency == frequency
  {
    RecurringBillData(Trim(receiverName), Trim(description), amount, paymentDateTime, paymentMethodId, frequency)
  }

  /** One payment-method choice: a value and its caption. */
  datatype Choice = Choice(value: string, caption: string)

  /** The payment-method choices (RecurringBillModal.tsx:129-137): one per
      saved card, labelled with its masked display, or the add-card
      placeholder when no card is saved. */
  function PaymentMethodOptions(savedCards: seq<AddCard.PaymentCard>): (r: seq<Choice>)
    ensures |r| >= 1
    ensures savedCards == [] ==> r == [Choice(AddCardChoice, "Add Card")]
    ensures savedCards != [] ==> |r| == |savedCards|
    ensures savedCards != [] ==> forall i :: 0 <= i < |r| ==> r[i].value == savedCards[i].id
    ensures savedCards != [] ==> forall i :: 0 <= i < |r| ==>
      r[i].caption == FormatCardDisplay(savedCards[i].lastFour, savedCards[i].kind)
  {
    if |savedCards| > 0 then
      seq(|savedCards|, i requires 0 <= i < |savedCards| =>
        Choice(savedCards[i].id, FormatCardDisplay(savedCards[i].lastFour, savedCards[i].kind)))
    else [Choice(AddCardChoice, "Add Card")]
  }

  class BillForm {
    var receiverName: string
    var description: string
    var amount: Option<real>
    var paymentDateTime: Option<int>
    var paymentMethodId: string
    var frequency: string
    var errors: BillErrors
    var savedCards: seq<AddCard.PaymentCard>

    constructor()
      ensures receiverName == "" && description == "" && amount == None && paymentDateTime == None
      ensures paymentMethodId == "" && frequency == "" && errors == NoBillErrors && savedCards == []
    {
      receiverName := "";
      description := "";
      amount := None;
      paymentDateTime := None;
      paymentMethodId := "";
      frequency := "";
      errors := NoBillErrors;
      savedCards := [];
    }

    predicate IsFormValid()
      reads this
    {
      Enabled(receiverName, description, amount, paymentDateTime, paymentMethodId, frequency)
    }

    /** On opening without a date, the date defaults to today (at midnight). */
    method DefaultDate(today: int)
      modifies this`paymentDateTime
      ensures paymentDateTime == if old(paymentDateTime).None? then Some(today) else old(paymentDateTime)
    {
      if paymentDateTime.None? {
        paymentDateTime := Some(today);
      }
    }

    /** `validateForm`: fills a fresh error record field by field, stores it,
      and reports whether it stayed empty. */
    method ValidateForm() returns (ok: bool)
      modifies this`errors
      ensures errors == Validate(receiverName, description, amount, paymentDateTime, paymentMethodId, frequency)
      ensures ok <==> errors == NoBillErrors
    {
      var receiver, text, sum, when, card, every :=
        receiverName, description, amount, paymentDateTime, paymentMethodId, frequency;
      var newErrors := NoBillErrors;
      if Trim(receiver) == [] {
        newErrors := newErrors.(receiverName := Some("Receiver name is required"));
      }
      if Trim(text) == [] {
        newErrors := newErrors.(description := Some("Description is required"));
      }
      if sum.None? || sum.value == 0.0 || sum.value <= 0.0 {
        newErrors := newErrors.(amount := Some("Valid amount is required"));
      }
      if when.None? {
        newErrors := newErrors.(paymentDateTime := Some("Payment date and time is required"));
      }
      if card == "" {
        newErrors := newErrors.(paymentMethodId := Some("Payment method is required"));
      }
      if every == "" {
        newErrors := newErrors.(frequency := Some("Payment frequency is required"));
      }
      assert newErrors == Validate(receiver, text, sum, when, card, every);
      errors := newErrors;
      ok := newErrors == NoBillErrors;
    }

    /** `handleClose`: every field reset and the errors cleared; the saved
      cards stay. */
    method HandleClose()
      modifies this`receiverName, this`description, this`amount, this`paymentDateTime,
               this`paymentMethodId, this`frequency, this`errors
      ensures receiverName == "" && description == "" && amount == None && paymentDateTime == None
      ensures paymentMethodId == "" && frequency == "" && errors == NoBillErrors
    {
      receiverName := "";
      description := "";
      amount := None;
      paymentDateTime := None;
      paymentMethodId := "";
      frequency := "";
      errors := NoBillErrors;
    }

    /** `handleSubmit`: nothing when validation fails; otherwise the payload,
      after which the form is reset. */
    method HandleSubmit() returns (billData: Option<RecurringBillData>)
      modifies this`receiverName, this`description, this`amount, this`paymentDateTime,
               this`paymentMethodId, this`frequency, this`errors
      ensures billData.None? <==> old(Validate(receiverName, description, amount, paymentDateTime, paymentMethodId, frequency)) != NoBillErrors
      ensures billData.None? ==>
        errors == old(Validate(receiverName, description, amount, paymentDateTime, paymentMethodId, frequency))
      ensures billData.None? ==> errors != NoBillErrors
      ensures billData.None? ==> receiverName == old(receiverName) && description == old(description)
      ensures billData.None? ==> amount == old(amount) && paymentDateTime == old(paymentDateTime)
      ensures billData.None? ==> paymentMethodId == old(paymentMethodId) && frequency == old(frequency)
      ensures billData.Some? ==>
        && old(amount).Some? && old(paymentDateTime).Some?
        && billData.value == Payload(old(receiverName), old(description), old(amount).value,
                                     old(paymentDateTime).value, old(paymentMethodId), old(frequency))
        && billData.value.amount > 0.0 && billData.value.receiverName != [] && billData.value.description != []
        && receiverName == "" && description == "" && amount == None && errors == NoBillErrors
        && paymentDateTime == None && paymentMethodId == "" && frequency == ""
    {
      var ok := ValidateForm();
      if !ok {
        return None;
      }
      billData := Some(Payload(receiverName, description, amount.value, paymentDateTime.value, paymentMethodId, frequency));
      HandleClose();
    }

    /** `handleCardAdded`: the new card is appended and selected. */
    method HandleCardAdded(newCard: AddCard.PaymentCard)
      modifies this`savedCards, this`paymentMethodId
      ensures savedCards == old(savedCards) + [newCard] && paymentMethodId == newCard.id
    {
      savedCards := savedCards + [newCard];
      paymentMethodId := newCard.id;
    }
  }
}
