/** The payment-card modal of src/components/AddCardModal.tsx: the input
    formatters for the card number and expiry date, the field validation,
    the enabled flag of the submit button and the card it builds. The write
    of the card list to `localStorage` is not modelled; the id from the
    clock is a parameter. */
module AddCard {
  import opened Wrappers
  import opened Strings

  /** `PaymentCard`; `kind` is the source's `type` ('Visa', 'Mastercard', ...). */
  datatype PaymentCard = PaymentCard(
    id: string,
    kind: string,
    lastFour: string,
    expiryDate: string,
    nameOnCard: string,
    isDefault: bool)

  /** The `errors` record: a present field is a key of the record. */
  datatype CardErrors = CardErrors(
    nameOnCard: Option<string>,
    cardNumber: Option<string>,
    expiryDate: Option<string>,
    cardType: Option<string>)

  const NoErrors := CardErrors(None, None, None, None)

  const NameRequired := "Name on card is required"
  const NumberRequired := "Valid card number is required (16 digits)"
  const ExpiryRequired := "Valid expiry date is required (MM/YY)"
  const TypeRequired := "Card type is required"

  /** A digit string with a space after every complete group of four that
      is followed by another digit (`replace(/(\d{4})(?=\d)/g, '$1 ')`):
      one space per four digits after the first, and nothing but digits and
      spaces. */
  function GroupDigits(d: string): (r: string)
    requires AllDigits(d)
    ensures |d| == 0 ==> r == []
    ensures |d| > 0 ==> 4 * (|r| - |d|) < |d| <= 4 * (|r| - |d|) + 4
    ensures forall i :: 0 <= i < |r| ==> IsDigit(r[i]) || r[i] == ' '
    ensures |r| > 0 ==> IsDigit(r[|r| - 1])
    decreases |d|
  {
    if |d| <= 4 then d
    else
      var rest := GroupDigits(d[4..]);
      var r := d[..4] + " " + rest;
      assert forall i :: 5 <= i < |r| ==> r[i] == rest[i - 5];
      assert r[|r| - 1] == rest[|rest| - 1];
      r
  }

  lemma DigitsHaveNoSpace(s: string)
    requires AllDigits(s)
    ensures NoSpace(s)
  {
  }

  /** Deleting the spaces from the formatted digits gives the digits back. */
  lemma {:induction false} GroupDigitsKeepsDigits(d: string)
    requires AllDigits(d)
    ensures RemoveSpaces(GroupDigits(d)) == d
    decreases |d|
  {
    DigitsHaveNoSpace(d);
    if |d| > 4 {
      var rest := GroupDigits(d[4..]);
      GroupDigitsKeepsDigits(d[4..]);
      assert GroupDigits(d) == d[..4] + " " + rest;
      RemoveSpacesAroundSpace(d[..4], rest);
      DigitsHaveNoSpace(d[..4]);
      assert d == d[..4] + d[4..];
    }
  }

  /** The spaces of the formatted digits sit exactly at every fifth
      position: after each group of four. */
  lemma {:induction false} GroupDigitsSpaces(d: string)
    requires AllDigits(d)
    ensures forall i :: 0 <= i < |GroupDigits(d)| ==> (GroupDigits(d)[i] == ' ' <==> i % 5 == 4)
    decreases |d|
  {
    var r := GroupDigits(d);
    if |d| > 4 {
      var rest := GroupDigits(d[4..]);
      GroupDigitsSpaces(d[4..]);
      assert r == d[..4] + " " + rest;
      forall i | 0 <= i < |r|
        ensures (r[i] == ' ' <==> i % 5 == 4)
      {
        if i >= 5 {
          assert r[i] == rest[i - 5];
          ModFiveShift(i);
        } else if i < 4 {
          assert r[i] == d[i] && i % 5 == i;
        } else {
          assert r[i] == ' ';
        }
      }
    }
  }

  /** The first `m` groups of the formatted digits are the formatted first
      `4 * m` digits. */
  lemma {:induction false} GroupDigitsPrefix(d: string, m: nat)
    requires AllDigits(d) && m >= 1 && |d| > 4 * m
    ensures |GroupDigits(d)| >= 5 * m - 1
    ensures GroupDigits(d)[..5 * m - 1] == GroupDigits(d[..4 * m])
    decreases m
  {
    var head := d[..4] + " ";
    var rest := d[4..];
    var b := GroupDigits(rest);
    assert GroupDigits(d) == head + b;
    if m == 1 {
      assert GroupDigits(d)[..4] == d[..4];
    } else {
      var k := 4 * (m - 1);
      var p := d[..4 * m];
      GroupDigitsPrefix(rest, m - 1);
      var c := GroupDigits(rest[..k]);
      assert b[..5 * m - 6] == c;
      SliceAfter(head, b, 5 * m - 6);
      assert p[..4] == d[..4] && p[4..] == rest[..k];
      assert GroupDigits(p) == head + c;
    }
  }

  lemma SliceAfter(a: string, x: string, n: nat)
    requires n <= |x|
    ensures (a + x)[..|a| + n] == a + x[..n]
  {
  }

  /** `formatCardNumber(value)` (AddCardModal.tsx:87-93): the digits of the
      input grouped by four, cut to 19 characters. */
  function FormatCardNumber(value: string): (r: string)
    ensures |r| <= 19
    ensures forall i :: 0 <= i < |r| ==> IsDigit(r[i]) || r[i] == ' '
    ensures forall i :: 0 <= i < |r| ==> (r[i] == ' ' <==> i % 5 == 4)
    ensures RemoveSpaces(r) == TakeFirst(KeepDigits(value), 16)
    ensures |r| > 0 ==> IsDigit(r[|r| - 1])
    ensures KeepDigits(value) != [] ==>
      4 * (|r| - |TakeFirst(KeepDigits(value), 16)|) < |TakeFirst(KeepDigits(value), 16)|
                                                       <= 4 * (|r| - |TakeFirst(KeepDigits(value), 16)|) + 4
  {
    var d := KeepDigits(value);
    var g := GroupDigits(d);
    if |d| <= 16 then
      GroupDigitsSpaces(d);
      GroupDigitsKeepsDigits(d);
      assert TakeFirst(g, 19) == g;
      assert TakeFirst(d, 16) == d;
      g
    else
      GroupDigitsPrefix(d, 4);
      var h := GroupDigits(d[..16]);
      GroupDigitsSpaces(d[..16]);
      GroupDigitsKeepsDigits(d[..16]);
      assert TakeFirst(g, 19) == h;
      h
  }

  /** `formatExpiryDate(value)` (AddCardModal.tsx:95-103): with two or more
      digits, the first two, a slash and the next (up to) two; otherwise the
      digits. */
  function FormatExpiryDate(value: string): (r: string)
    ensures |r| <= 5
    ensures var d := KeepDigits(value);
      if |d| >= 2 then |r| >= 3 && r[..2] == d[..2] && r[2] == '/' && AllDigits(r[3..])
      else r == d
    ensures var d := KeepDigits(value);
      |d| >= 2 ==> r[..2] + r[3..] == TakeFirst(d, 4)
  {
    var digits := KeepDigits(value);
    if |digits| >= 2 then
      var r := digits[..2] + "/" + TakeFirst(digits[2..], 2);
      assert r[3..] == TakeFirst(digits[2..], 2);
      assert digits[..2] + TakeFirst(digits[2..], 2) == TakeFirst(digits, 4);
      r
    else digits
  }

  /** The expiry pattern `^\d{2}\/\d{2}$`. */
  predicate ExpiryPattern(s: string) {
    |s| == 5 && IsDigit(s[0]) && IsDigit(s[1]) && s[2] == '/' && IsDigit(s[3]) && IsDigit(s[4])
  }

  /** A value matching the expiry pattern is not blank, so the pattern test
      alone decides the expiry error. */
  lemma PatternNotBlank(s: string)
    ensures ExpiryPattern(s) ==> Trim(s) != []
  {
    if ExpiryPattern(s) {
      assert !IsSpace(s[0]) && TrimStart(s) == s;
      assert !IsSpace(s[4]) && TrimEnd(s) == s;
    }
  }

  /** Typing at least four digits into the expiry field always yields a
      value the validation accepts. */
  lemma FormattedExpiryMatches(value: string)
    requires |KeepDigits(value)| >= 4
    ensures ExpiryPattern(FormatExpiryDate(value))
  {
  }

  /** The record `validateForm` builds (AddCardModal.tsx:34-52): one error per
      failing field. */
  function Validate(nameOnCard: string, cardNumber: string, expiryDate: string, cardType: string): (e: CardErrors)
    ensures e.nameOnCard.Some? <==> Trim(nameOnCard) == []
    ensures e.cardNumber.Some? <==> Trim(cardNumber) == [] || |cardNumber| < 16
    ensures e.expiryDate.Some? <==> !ExpiryPattern(expiryDate)
    ensures e.cardType.Some? <==> cardType == ""
  {
    PatternNotBlank(expiryDate);
    CardErrors(
      if Trim(nameOnCard) == [] then Some(NameRequired) else None,
      if Trim(cardNumber) == [] || |cardNumber| < 16 then Some(NumberRequired) else None,
      if Trim(expiryDate) == [] || !ExpiryPattern(expiryDate) then Some(ExpiryRequired) else None,
      if cardType == "" then Some(TypeRequired) else None)
  }

  /** Whether the submit button is enabled (AddCardModal.tsx:105-108). */
  predicate Enabled(nameOnCard: string, cardNumber: string, expiryDate: string, cardType: string) {
    Trim(nameOnCard) != [] && |cardNumber| >= 16 && |expiryDate| == 5 && cardType != ""
  }

  /** A form that passes validation always has the button enabled; the
      button's check of the expiry is only its length. */
  lemma ValidImpliesEnabled(nameOnCard: string, cardNumber: string, expiryDate: string, cardType: string)
    requires Validate(nameOnCard, cardNumber, expiryDate, cardType) == NoErrors
    ensures Enabled(nameOnCard, cardNumber, expiryDate, cardType)
  {
  }

  /** The card `handleSubmit` builds (AddCardModal.tsx:60-67). */
  function NewCard(id: string, cardType: string, cardNumber: string, expiryDate: string, nameOnCard: string): (c: PaymentCard)
    ensures c.lastFour == TakeLast(cardNumber, 4) && |c.lastFour| <= 4
    ensures c.nameOnCard == Trim(nameOnCard) && !c.isDefault
    ensures c.id == id && c.kind == cardType && c.expiryDate == expiryDate
  {
    PaymentCard(id, cardType, TakeLast(cardNumber, 4), expiryDate, Trim(nameOnCard), false)
  }

  class AddCardForm {
    var cardNumber: string
    var expiryDate: string
    var cardType: string
    var nameOnCard: string
    var errors: CardErrors

    constructor()
      ensures cardNumber == "" && expiryDate == "" && cardType == "" && nameOnCard == "" && errors == NoErrors
    {
      cardNumber := "";
      expiryDate := "";
      cardType := "";
      nameOnCard := "";
      errors := NoErrors;
    }

    predicate IsFormValid()
      reads this
    {
      Enabled(nameOnCard, cardNumber, expiryDate, cardType)
    }

    /** `validateForm`: fills a fresh error record field by field, stores it,
      and reports whether it stayed empty. */
    method ValidateForm() returns (ok: bool)
      modifies this`errors
      ensures errors == Validate(nameOnCard, cardNumber, expiryDate, cardType)
      ensures ok <==> errors == NoErrors
    {
      var name, number, expiry, kind := nameOnCard, cardNumber, expiryDate, cardType;
      var newErrors := NoErrors;
      if Trim(name) == [] {
        newErrors := newErrors.(nameOnCard := Some(NameRequired));
      }
      if Trim(number) == [] || |number| < 16 {
        newErrors := newErrors.(cardNumber := Some(NumberRequired));
      }
      if Trim(expiry) == [] || !ExpiryPattern(expiry) {
        newErrors := newErrors.(expiryDate := Some(ExpiryRequired));
      }
      if kind == "" {
        newErrors := newErrors.(cardType := Some(TypeRequired));
      }
      assert newErrors == Validate(name, number, expiry, kind);
      errors := newErrors;
      ok := newErrors == NoErrors;
    }

    /** The card-number field's `onChange` (AddCardModal.tsx:160-166): the
      value is stored with all whitespace removed, and a shown error on the
      field is blanked. */
    method ChangeCardNumber(value: string)
      modifies this`cardNumber, this`errors
      ensures cardNumber == RemoveSpaces(value) && NoSpace(cardNumber)
      ensures errors == if old(errors).cardNumber.Some? && old(errors).cardNumber.value != ""
                        then old(errors).(cardNumber := Some("")) else old(errors)
    {
      cardNumber := RemoveSpaces(value);
      if errors.cardNumber.Some? && errors.cardNumber.value != "" {
        errors := errors.(cardNumber := Some(""));
      }
    }

    /** `handleClose`: every field and the errors are cleared. */
    method HandleClose()
      modifies this
      ensures cardNumber == "" && expiryDate == "" && cardType == "" && nameOnCard == "" && errors == NoErrors
    {
      cardNumber := "";
      expiryDate := "";
      cardType := "";
      nameOnCard := "";
      errors := NoErrors;
    }

    /** `handleSubmit`: nothing when validation fails (the errors are then
      shown); otherwise the new card, after which the form is cleared. */
    method HandleSubmit(id: string) returns (card: Option<PaymentCard>)
      modifies this
      ensures card.None? <==> Validate(old(nameOnCard), old(cardNumber), old(expiryDate), old(cardType)) != NoErrors
      ensures card.None? ==>
        && errors == Validate(old(nameOnCard), old(cardNumber), old(expiryDate), old(cardType))
        && cardNumber == old(cardNumber) && expiryDate == old(expiryDate)
        && cardType == old(cardType) && nameOnCard == old(nameOnCard)
      ensures card.Some? ==>
        && card.value == NewCard(id, old(cardType), old(cardNumber), old(expiryDate), old(nameOnCard))
        && Enabled(old(nameOnCard), old(cardNumber), old(expiryDate), old(cardType))
        && cardNumber == "" && expiryDate == "" && cardType == "" && nameOnCard == "" && errors == NoErrors
    {
      var ok := ValidateForm();
      if !ok {
        return None;
      }
      ValidImpliesEnabled(nameOnCard, cardNumber, expiryDate, cardType);
      card := Some(NewCard(id, cardType, cardNumber, expiryDate, nameOnCard));
      HandleClose();
    }
  }
}
