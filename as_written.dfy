/**
 * The validator of src/utils.py as its Python text behaves, next to the
 * documented rules of module Validator.
 *
 * A call either returns a boolean or raises. Four of the six functions do
 * not do what their comments say, and one does what its comment says but
 * not what the tests expect:
 *   - the retailer pattern (src/utils.py:30) does not compile;
 *   - the date and time checks (src/utils.py:38, :47) look up `strptime` on
 *     the `datetime` module, which has no such attribute, and the
 *     `except ValueError` clauses do not catch the resulting AttributeError;
 *   - the items check (src/utils.py:55) is the "valid list & not empty" of
 *     its comment, but never looks inside the items, as the tests expect;
 *   - the total pattern (src/utils.py:62) matches backslashes and the letter
 *     'd' instead of digits;
 *   - validate_receipt (src/utils.py:10-25) therefore never returns True.
 */
module AsWritten {
  import opened Text
  import opened Amount
  import opened Json
  import opened Validator

  datatype PyError =
    | PatternError    // re.error: the pattern does not compile
    | AttributeError  // a missing module attribute
    | TypeError       // re.match given something that is not a string

  datatype Outcome = Returned(value: bool) | Raised(error: PyError)

  /** `r"^[\\w\\s\\-&]+$"` is, to the regex compiler, a character class with
      a literal backslash, 'w', a backslash, 's' and the range from '\' (92)
      down to '&' (38). A reversed range is a compile error, raised before
      the argument is looked at. */
  function RetailerAsWritten(retailer: Value): (r: Outcome)
    ensures r.Raised? && r.error == PatternError
  {
    Raised(PatternError)
  }

  /** `datetime.strptime` on the module imported at src/utils.py:2. */
  function PurchaseDateAsWritten(purchaseDate: Value): (r: Outcome)
    ensures r.Raised? && r.error == AttributeError
  {
    Raised(AttributeError)
  }

  function PurchaseTimeAsWritten(purchaseTime: Value): (r: Outcome)
    ensures r.Raised? && r.error == AttributeError
  {
    Raised(AttributeError)
  }

  /** Only "a list with at least one element". */
  function ItemsAsWritten(items: Value): (r: Outcome)
    ensures r.Returned?
    ensures r.value <==> items.List? && |items.elems| >= 1
  {
    Returned(items.List? && |items.elems| >= 1)
  }

  /** The body of `r"^\\d+\\.\\d{2}$"` up to `$`: a backslash, one or more
      'd', a backslash, any character but a line feed, a backslash, "dd".
      Only the length can fix where the run of 'd' ends, so the layout is
      positional. */
  predicate TotalPatternBody(s: string) {
    && |s| >= 7
    && s[0] == '\\'
    && (forall i :: 1 <= i < |s| - 5 ==> s[i] == 'd')
    && s[|s| - 5] == '\\'
    && s[|s| - 4] != '\n'
    && s[|s| - 3] == '\\'
    && s[|s| - 2] == 'd'
    && s[|s| - 1] == 'd'
  }

  /** `re.match` with `$`, which also matches before one final line feed. */
  predicate MatchesTotalAsWritten(s: string) {
    TotalPatternBody(s) || (|s| >= 1 && s[|s| - 1] == '\n' && TotalPatternBody(s[..|s| - 1]))
  }

  function TotalAsWritten(total: Value): (r: Outcome)
    ensures r.Raised? <==> !total.Str?
    ensures r.Raised? ==> r.error == TypeError
    ensures total.Str? && IsAmountText(total.s) ==> r == Returned(false)
  {
    if total.Str? then Returned(MatchesTotalAsWritten(total.s)) else Raised(TypeError)
  }

  /** validate_receipt as written: False for a missing key, otherwise the
      retailer check runs first and raises. */
  function ReceiptAsWritten(data: Value): (r: Outcome)
    requires data.Dict?
    ensures r == Returned(false) <==> !(RequiredKeys <= data.fields.Keys)
    ensures r != Returned(true)
  {
    if !(RequiredKeys <= data.fields.Keys) then Returned(false)
    else
      var retailer := RetailerAsWritten(data.fields["retailer"]);
      if retailer.Raised? then retailer
      else Returned(false)
  }

  /** "7-Eleven" is a retailer name the comment's pattern accepts; the
      written pattern raises instead of answering. */
  lemma RetailerCounterexample()
    ensures ValidRetailer(Str("7-Eleven"))
    ensures RetailerAsWritten(Str("7-Eleven")) == Raised(PatternError)
  {
    RetailerExamples();
  }

  /** "2022-03-20" is a date and "14:33" a time; both checks raise. */
  lemma DateTimeCounterexample()
    ensures ValidPurchaseDate(Str("2022-03-20")) && PurchaseDateAsWritten(Str("2022-03-20")).Raised?
    ensures ValidPurchaseTime(Str("14:33")) && PurchaseTimeAsWritten(Str("14:33")).Raised?
  {
    DateAndTimeExamples();
  }

  /** An item list whose only item has an '@' in its description passes the
      check as written. */
  lemma ItemsCounterexample()
    ensures ItemsAsWritten(List([Item("Gummy@Bears", "1.00")])) == Returned(true)
    ensures !ValidItems(List([Item("Gummy@Bears", "1.00")]))
  {
    ItemsExamplesInvalid();
  }

  /** No amount in the documented format matches the written pattern: an
      amount starts with a digit and ends with one, where the pattern wants
      a backslash first and a 'd' or a line feed last. */
  lemma TotalRejectsEveryAmount(s: string)
    requires IsAmountText(s)
    ensures !MatchesTotalAsWritten(s)
  {
    assert IsDigit(s[..|s| - 3][0]);
  }

  /** "9.00" is an amount; the written check returns False for it, and
      accepts a string of backslashes and 'd' instead. */
  lemma TotalCounterexample()
    ensures ValidTotal(Str("9.00")) && TotalAsWritten(Str("9.00")) == Returned(false)
    ensures TotalAsWritten(Str("\\d\\.\\dd")) == Returned(true)
    ensures !ValidTotal(Str("\\d\\.\\dd"))
  {
    TotalExamples();
    assert !IsDigit("\\d\\.\\dd"[0]);
  }

  /** The receipt the tests expect to pass does not: validate_receipt as
      written never returns True. */
  lemma ReceiptCounterexample()
    ensures ValidReceipt(CornerMarketReceipt)
    ensures ReceiptAsWritten(CornerMarketReceipt) == Raised(PatternError)
  {
    CornerMarketReceiptValid();
  }
}
