/**
 * The add-card dialog of the billing page: the card-number formatter and
 * type detector, the input filters that guard the card-number and CVV
 * fields, the month and year choices, and the reset after submission.
 */
module AddCardModal {
  import Seqs
  import Text

  datatype CardData = CardData(
    cardNumber: string,
    expiryMonth: string,
    expiryYear: string,
    cvv: string,
    holderName: string,
    cardType: string)

  /** Every field empty: the initial state and the state after a submission. */
  const EmptyCard := CardData("", "", "", "", "", "")

  predicate NoWhitespace(s: string)
  {
    forall i :: 0 <= i < |s| ==> !Text.IsWhitespace(s[i])
  }

  /** `detectCardType`: the network named by the first character once whitespace is gone. */
  function CardType(number: string): (r: string)
    ensures r in {"visa", "mastercard", "amex", ""}
  {
    var clean := Text.RemoveWhitespace(number);
    if |clean| > 0 && clean[0] == '4' then "visa"
    else if |clean| > 0 && clean[0] == '5' then "mastercard"
    else if |clean| > 0 && clean[0] == '3' then "amex"
    else ""
  }

  /** `match(/.{1,4}/g)` on a non-empty string without line terminators: runs of four, the last run of one to four. */
  function Chunks(s: string): (r: seq<string>)
    requires s != ""
    ensures |r| >= 1 && |r| == (|s| + 3) / 4
    ensures forall k :: 0 <= k < |r| - 1 ==> |r[k]| == 4
    ensures 1 <= |r[|r| - 1]| <= 4
    decreases |s|
  {
    if |s| <= 4 then [s] else [s[..4]] + Chunks(s[4..])
  }

  /** `formatCardNumber`: whitespace removed, then runs of four joined by single spaces; `''` stays `''`. */
  function Format(value: string): string
  {
    var clean := Text.RemoveWhitespace(value);
    if clean == "" then clean else Text.Join(Chunks(clean), ' ')
  }

  /** Removing whitespace leaves nothing to remove. */
  lemma RemoveWhitespaceClean(s: string)
    ensures NoWhitespace(Text.RemoveWhitespace(s))
    ensures Text.RemoveWhitespace(Text.RemoveWhitespace(s)) == Text.RemoveWhitespace(s)
  {
    Seqs.FilterSatisfies(s, (c: char) => !Text.IsWhitespace(c));
    Seqs.FilterKeepsAll(Text.RemoveWhitespace(s), (c: char) => !Text.IsWhitespace(c));
  }

  /** Joining the runs of a clean string puts back exactly its characters, plus one space between runs. */
  lemma {:induction false} JoinChunks(s: string)
    requires s != "" && NoWhitespace(s)
    ensures Text.RemoveWhitespace(Text.Join(Chunks(s), ' ')) == s
    ensures |Text.Join(Chunks(s), ' ')| == |s| + |Chunks(s)| - 1
    decreases |s|
  {
    var p := (c: char) => !Text.IsWhitespace(c);
    if |s| <= 4 {
      Seqs.FilterKeepsAll(s, p);
    } else {
      var head, rest := s[..4], s[4..];
      JoinChunks(rest);
      assert Chunks(s)[1..] == Chunks(rest);
      var joined := Text.Join(Chunks(rest), ' ');
      assert Text.Join(Chunks(s), ' ') == head + [' '] + joined;
      Seqs.FilterAppend(head + [' '], joined, p);
      Seqs.FilterAppend(head, [' '], p);
      Seqs.FilterKeepsAll(head, p);
      Seqs.FilterKeepsNone([' '], p);
      assert head + rest == s;
    }
  }

  /** No run contains a space when the string has none. */
  lemma {:induction false} ChunksHaveNoSpace(s: string)
    requires s != "" && NoWhitespace(s)
    ensures forall k :: 0 <= k < |Chunks(s)| ==> ' ' !in Chunks(s)[k]
    decreases |s|
  {
    assert Text.IsWhitespace(' ');
    if |s| > 4 {
      ChunksHaveNoSpace(s[4..]);
      assert Chunks(s)[1..] == Chunks(s[4..]);
    }
  }

  /** Formatting only inserts spaces: removing whitespace from the result gives the input without whitespace. */
  lemma FormatRoundTrip(value: string)
    ensures Text.RemoveWhitespace(Format(value)) == Text.RemoveWhitespace(value)
  {
    var clean := Text.RemoveWhitespace(value);
    RemoveWhitespaceClean(value);
    if clean != "" {
      JoinChunks(clean);
    } else {
      Seqs.FilterKeepsAll(clean, (c: char) => !Text.IsWhitespace(c));
    }
  }

  /**
   * The result is space-separated runs of four characters with a last run
   * of one to four, and it is as long as the input's non-whitespace
   * characters plus one separator between runs.
   */
  lemma FormatGroups(value: string)
    requires Text.RemoveWhitespace(value) != ""
    ensures Text.Split(Format(value), ' ') == Chunks(Text.RemoveWhitespace(value))
    ensures |Format(value)| == |Text.RemoveWhitespace(value)| + |Chunks(Text.RemoveWhitespace(value))| - 1
  {
    var clean := Text.RemoveWhitespace(value);
    RemoveWhitespaceClean(value);
    ChunksHaveNoSpace(clean);
    Text.SplitJoin(Chunks(clean), ' ');
    JoinChunks(clean);
  }

  /** A number of at most 16 characters formats to at most 19, the input's `maxLength`. */
  lemma FormatFitsInput(value: string)
    requires |Text.RemoveWhitespace(value)| <= 16
    ensures |Format(value)| <= 19
  {
    if Text.RemoveWhitespace(value) != "" {
      FormatGroups(value);
    }
  }

  /** Formatting never changes the detected type, and a formatted number formats to itself. */
  lemma FormatKeepsType(value: string)
    ensures CardType(Format(value)) == CardType(value)
    ensures Format(Format(value)) == Format(value)
  {
    FormatRoundTrip(value);
    var clean := Text.RemoveWhitespace(value);
    RemoveWhitespaceClean(value);
    if clean == "" {
      Seqs.FilterKeepsAll(clean, (c: char) => !Text.IsWhitespace(c));
    }
  }

  /** The three networks are told apart by the first digit, and other starts are not recognised. */
  lemma CardTypeByFirstDigit(number: string)
    requires Text.RemoveWhitespace(number) != ""
    ensures var first := Text.RemoveWhitespace(number)[0];
      && (CardType(number) == "visa" <==> first == '4')
      && (CardType(number) == "mastercard" <==> first == '5')
      && (CardType(number) == "amex" <==> first == '3')
      && (CardType(number) == "" <==> first !in {'3', '4', '5'})
  {
  }

  /** `handleCardNumberChange`: the input without whitespace is accepted only up to 16 characters. */
  function AfterCardNumberChange(d: CardData, input: string): (r: CardData)
    ensures |Text.RemoveWhitespace(input)| > 16 ==> r == d
    ensures |Text.RemoveWhitespace(input)| <= 16 ==>
      r == d.(cardNumber := Format(input), cardType := CardType(input))
  {
    var value := Text.RemoveWhitespace(input);
    if |value| <= 16 then
      RemoveWhitespaceClean(input);
      d.(cardNumber := Format(value), cardType := CardType(value))
    else d
  }

  /** The CVV input's handler: non-digits are dropped, and more than four digits are refused. */
  function AfterCvvChange(d: CardData, input: string): (r: CardData)
    ensures |Text.KeepDigits(input)| > 4 ==> r == d
    ensures |Text.KeepDigits(input)| <= 4 ==> r == d.(cvv := Text.KeepDigits(input))
  {
    var value := Text.KeepDigits(input);
    if |value| <= 4 then d.(cvv := value) else d
  }

  /**
   * What every handler keeps true of the card data: the number is the
   * formatted form of at most 16 characters, the type is the one detected
   * from it, and the CVV is at most four digits.
   */
  predicate WellFormed(d: CardData)
  {
    && |Text.RemoveWhitespace(d.cardNumber)| <= 16
    && Format(d.cardNumber) == d.cardNumber
    && d.cardType == CardType(d.cardNumber)
    && |d.cvv| <= 4
    && forall i :: 0 <= i < |d.cvv| ==> Text.IsDigit(d.cvv[i])
  }

  lemma EmptyCardWellFormed()
    ensures WellFormed(EmptyCard)
  {
    assert Text.RemoveWhitespace("") == "";
  }

  /** Both filtered handlers keep the card data well formed, so the number field never exceeds 19 characters. */
  lemma HandlersKeepWellFormed(d: CardData, input: string)
    requires WellFormed(d)
    ensures WellFormed(AfterCardNumberChange(d, input))
    ensures WellFormed(AfterCvvChange(d, input))
    ensures |AfterCardNumberChange(d, input).cardNumber| <= 19
  {
    var value := Text.RemoveWhitespace(input);
    if |value| <= 16 {
      FormatRoundTrip(input);
      FormatKeepsType(input);
      FormatFitsInput(input);
    } else {
      FormatFitsInput(d.cardNumber);
    }
    Seqs.FilterSatisfies(input, Text.IsDigit);
  }

  /** The two-character form `padStart(2, '0')` gives a one- or two-character string. */
  function PadTwo(s: string): string
  {
    if |s| == 0 then "00" else if |s| == 1 then "0" + s else s
  }

  /** `months`: `"01"` to `"12"`. */
  function Months(): (r: seq<string>)
    ensures |r| == 12
    ensures forall i :: 0 <= i < 12 ==> r[i] == PadTwo(Text.Decimal(i + 1))
  {
    seq(12, i requires 0 <= i < 12 => PadTwo(Text.Decimal(i + 1)))
  }

  /** Month `i + 1` is written with two digits whose value is `i + 1`. */
  lemma MonthsAreTwoDigits(i: nat)
    requires i < 12
    ensures |Months()[i]| == 2
    ensures forall j :: 0 <= j < 2 ==> Text.IsDigit(Months()[i][j])
    ensures Text.DigitsValue(Months()[i]) == i + 1
  {
    var d := Text.Decimal(i + 1);
    Text.DecimalValue(i + 1);
    if i + 1 < 10 {
      assert |d| == 1;
      var m := "0" + d;
      assert m[..1] == "0";
    } else {
      assert Text.Decimal((i + 1) / 10) == [('0' as int + 1) as char];
    }
  }

  /** `years`: ten consecutive years from the current one. */
  function Years(currentYear: int): (r: seq<int>)
    ensures |r| == 10
    ensures forall i :: 0 <= i < 10 ==> r[i] == currentYear + i
  {
    seq(10, i requires 0 <= i < 10 => currentYear + i)
  }

  /** The dialog's state: the card data cell and the submitting flag. */
  class CardForm {
    var cardData: CardData
    var isSubmitting: bool

    predicate Valid()
      reads this
    {
      WellFormed(cardData)
    }

    constructor ()
      ensures Valid() && cardData == EmptyCard && !isSubmitting
    {
      cardData := EmptyCard;
      isSubmitting := false;
      EmptyCardWellFormed();
    }

    method ChangeHolderName(value: string)
      requires Valid()
      modifies this
      ensures Valid() && cardData == old(cardData).(holderName := value) && isSubmitting == old(isSubmitting)
    {
      cardData := cardData.(holderName := value);
    }

    method ChangeCardNumber(input: string)
      requires Valid()
      modifies this
      ensures Valid() && cardData == AfterCardNumberChange(old(cardData), input) && isSubmitting == old(isSubmitting)
      ensures |cardData.cardNumber| <= 19
    {
      HandlersKeepWellFormed(cardData, input);
      RemoveWhitespaceClean(input);
      var value := Text.RemoveWhitespace(input);
      if |value| <= 16 {
        var formatted := Format(value);
        cardData := cardData.(cardNumber := formatted, cardType := CardType(value));
      }
    }

    method SelectMonth(value: string)
      requires Valid()
      modifies this
      ensures Valid() && cardData == old(cardData).(expiryMonth := value) && isSubmitting == old(isSubmitting)
    {
      cardData := cardData.(expiryMonth := value);
    }

    method SelectYear(value: string)
      requires Valid()
      modifies this
      ensures Valid() && cardData == old(cardData).(expiryYear := value) && isSubmitting == old(isSubmitting)
    {
      cardData := cardData.(expiryYear := value);
    }

    method ChangeCvv(input: string)
      requires Valid()
      modifies this
      ensures Valid() && cardData == AfterCvvChange(old(cardData), input) && isSubmitting == old(isSubmitting)
    {
      HandlersKeepWellFormed(cardData, input);
      var value := Text.KeepDigits(input);
      if |value| <= 4 {
        cardData := cardData.(cvv := value);
      }
    }

    /** `handleSubmit`, up to the timer: the form is marked as submitting. */
    method BeginSubmit()
      requires Valid()
      modifies this
      ensures Valid() && isSubmitting && cardData == old(cardData)
    {
      isSubmitting := true;
    }

    /** The timer callback: every field is emptied and submission ends. */
    method CompleteSubmit()
      requires Valid()
      modifies this
      ensures Valid() && cardData == EmptyCard && !isSubmitting
    {
      EmptyCardWellFormed();
      cardData := EmptyCard;
      isSubmitting := false;
    }
  }
}
