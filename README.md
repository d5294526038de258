# Receipt processor: validation and points, in Dafny

This project models the core of a receipt-processing web service written in
Python. It has two parts:

- **Validation.** `validate_receipt` and its five field checks in
  `src/utils.py`, plus the item check `validate_receipt_item_properties`.
  The tests import and exercise that item check, but `src/utils.py` does not
  define it.
- **Points.** The six points rules and their sum, `calculate_points`. These
  are stated in `tests/test_point_calculations.py` (the rule list at lines
  13-19 and four worked receipts). No implementation is present.

Every operation is a pure function, so the model is made of datatypes,
functions, predicates and lemmas. It has eight modules in six files:

| file | module | contents |
|---|---|---|
| `text.dfy` | `Wrappers` | the `Option` datatype the parsers return |
| `text.dfy` | `Text` | character classes (`\w`, `\s`, alphanumerics), decimal digit strings, `str.strip()` |
| `amount.dfy` | `Amount` | the `^\d+\.\d{2}$` money format, its value in cents, the round-dollar and multiple-of-0.25 tests |
| `calendar.dfy` | `Calendar` | `YYYY-MM-DD` and `HH:MM` parsing, with Gregorian month lengths |
| `validator.dfy` | `Json`, `Validator` | a loosely typed JSON value, and the documented validator |
| `points.dfy` | `Points` | the six scoring rules, `CalculatePoints` and the four test receipts |
| `as_written.dfy` | `AsWritten` | what the Python text of the validator actually does (see Findings) |

Money is handled in integer cents throughout:

- "round dollar" is `cents % 100 == 0`;
- "multiple of 0.25" is `cents % 25 == 0`;
- "price × 0.2, rounded up" is `ceil(cents / 500)`.

## Model

| member | source | states |
|---|---|---|
| Text.IsAlnum | tests/test_point_calculations.py:13 | Definition: an alphanumeric character is an ASCII letter or digit. |
| Text.IsWordChar | src/utils.py:28 | Definition: `\w` is an ASCII letter, digit or underscore. |
| Text.IsSpace | src/utils.py:28 | Definition: `\s` and `str.strip()` whitespace are the code points 9-13 and 28-32. |
| Text.DigitCharOfValue | src/utils.py:62 | A digit character is recovered from its value. |
| Text.DigitsValueSnoc | src/utils.py:62 | Appending a digit multiplies the value by ten and adds the digit. |
| Text.DigitsValueLowerBound | src/utils.py:62 | A digit string with no leading zero denotes at least 10^(length-1). |
| Text.Pad2OfPairValue | src/utils.py:38 | Every two-digit field is the zero-padded spelling of its value. |
| Text.NatToDigitsOfValue | src/utils.py:62 | A canonical digit string is the shortest rendering of its value. |
| Text.Trim | tests/test_point_calculations.py:17 | Definition of `str.strip()`: the slice between the first and the last non-whitespace characters, or empty; it is never longer than its input. |
| Text.SkipSpacesSpec | tests/test_point_calculations.py:17 | The forward scan of strip passes only whitespace and stops at the first non-space or at the end. |
| Text.SkipSpacesBackSpec | tests/test_point_calculations.py:17 | The backward scan of strip passes only whitespace and stops after the last non-space or at the start. |
| Text.TrimIsSlice | tests/test_point_calculations.py:17 | The trimmed description is a contiguous slice with only whitespace outside it, and it is empty or has non-space characters at both ends. |
| Text.TrimKeeps | tests/test_point_calculations.py:17 | A description with any non-space character trims to a non-empty string. |
| Text.TrimIdempotent | tests/test_point_calculations.py:17 | Trimming twice equals trimming once. |
| Amount.IsAmountText | src/utils.py:60 | Definition of the documented `^\d+\.\d{2}$`: at least four characters, a dot third from last, digits before it and two digits after it. |
| Amount.ParseCents | tests/test_point_calculations.py:14-17 | Definition: the value of an amount in cents, 100 times the dollars plus the two cent digits. |
| Amount.AmountGrammar | src/utils.py:60 | The money format is accepted exactly when it is at least one digit, a dot and exactly two digits. |
| Amount.ParseFormatCents | src/utils.py:60 | Every number of cents renders to an accepted amount that parses back to the same number. |
| Amount.FormatParseCents | src/utils.py:60 | An amount with no leading zero in its dollars is the rendering of its own value. |
| Amount.RoundDollar | tests/test_point_calculations.py:14 | The value is a whole number of dollars exactly when the cent digits are "00". |
| Amount.QuarterCents | tests/test_point_calculations.py:15 | Two cent digits denote a multiple of 25 exactly when they are 00, 25, 50 or 75. |
| Amount.QuarterMultiple | tests/test_point_calculations.py:15 | An amount is a multiple of 0.25 exactly when its cent digits are 00, 25, 50 or 75. |
| Amount.RoundDollarIsQuarterMultiple | tests/test_point_calculations.py:100 | A round-dollar total is also a multiple of 0.25, so both bonuses apply. |
| Amount.AmountExamples | tests/test_receipt_validation.py:88-97 | The totals the tests accept parse to their cent values; "9", "9.999", "-9.90" and "12345" are rejected. |
| Calendar.IsLeapYear | src/utils.py:38 | Definition: the Gregorian rule, divisible by 4 and not by 100 unless by 400. |
| Calendar.IsValidDate | src/utils.py:38 | Definition: year 1-9999, month 1-12, day from 1 to the month's length. |
| Calendar.IsValidTime | src/utils.py:47 | Definition: hour 0-23 and minute 0-59. |
| Calendar.DaysInMonth | src/utils.py:38 | A month has 28 to 31 days; it has 29 exactly for February of a leap year and 28 exactly for February of a common year. |
| Calendar.ParseDate | src/utils.py:38 | Every accepted date string names a real date: year 1-9999, month 1-12, day within the month. |
| Calendar.ParseTime | src/utils.py:47 | Every accepted time string names a real 24-hour minute. |
| Calendar.DateRoundTrip | src/utils.py:38 | Every real date is accepted in its zero-padded YYYY-MM-DD spelling and parses back to itself. |
| Calendar.DateParseFormat | src/utils.py:38 | An accepted date string is exactly the zero-padded spelling of the date it names. |
| Calendar.TimeRoundTrip | src/utils.py:47 | Every minute of the day is accepted in its HH:MM spelling and parses back to itself. |
| Calendar.TimeParseFormat | src/utils.py:47 | An accepted time string is exactly the HH:MM spelling of the time it names. |
| Calendar.LeapDay | src/utils.py:38 | February 29th is accepted exactly in Gregorian leap years. |
| Calendar.DateExamplesAccepted | tests/test_receipt_validation.py:67-69 | The dates the tests accept parse to the expected year, month and day. |
| Calendar.DateExamplesRejected | tests/test_receipt_validation.py:71-74 | "2014", "02-08-1998", "1090-13-15", "2014-12-32" and "2022-13-20" are rejected. |
| Calendar.DateExamplesLeap | src/utils.py:38 | 2024-02-29 and 2000-02-29 are accepted; 2023-02-29, 1900-02-29 and year 0000 are rejected. |
| Calendar.TimeExamples | tests/test_receipt_validation.py:77-86 | The times the tests accept parse to their hour and minute; ":", "12", "28:30", "23:61" and "234:303" are rejected. |
| Validator.ValidReceipt | src/utils.py:10-25 | Definition of validate_receipt: a dictionary holding all five schema keys whose retailer, date, time, items and total each pass their checks. |
| Validator.IsRetailerText | src/utils.py:28 | Definition of the documented retailer pattern: non-empty, and every character a word character, whitespace, `-` or `&`. |
| Validator.ValidRetailer | src/utils.py:29-32 | Definition of validate_receipt_retailer: a string in the retailer pattern. |
| Validator.ValidPurchaseDate | src/utils.py:35-41 | Definition of validate_receipt_purchase_date: a string that Calendar.ParseDate accepts. |
| Validator.ValidPurchaseTime | src/utils.py:44-50 | Definition of validate_receipt_purchase_time: a string that Calendar.ParseTime accepts. |
| Validator.ValidItems | src/utils.py:54-57 | Definition of validate_receipt_items: a non-empty list, every element of which passes ValidItemProperties, as tests/test_receipt_validation.py:27-28 expect. |
| Validator.IsDescriptionText | tests/test_receipt_validation.py:30-56 | Definition of the chosen description format: every character in `[\w\s\-]`, and something left after trimming. |
| Validator.ValidItemProperties | tests/test_receipt_validation.py:30-56 | Definition of validate_receipt_item_properties: a dictionary with a string `shortDescription` in the description format and a string `price` in the amount format. |
| Validator.ValidTotal | src/utils.py:60-64 | Definition of validate_receipt_total: a string in the documented amount format. |
| Validator.CheckInOrder | src/utils.py:17-23 | Definition: runs the field checks in a given order and stops at the first failure. Lines 17-21 evaluate all five checks before line 23 combines them; since the checks are pure, the result is the same, as CheckInOrderAll and OrderIrrelevant show. |
| Validator.Key | src/utils.py:11 | Each field's key belongs to the receipt schema. |
| Validator.CheckInOrderAll | src/utils.py:17-24 | Running the field checks one after another succeeds exactly when every listed check holds. |
| Validator.OrderIrrelevant | src/utils.py:17-24 | Any order that runs all five field checks agrees with validate_receipt. |
| Validator.MissingKeyRejects | src/utils.py:13-15 | A receipt missing any schema key is rejected. |
| Validator.BadItemRejects | src/utils.py:20 | One item that fails its property check rejects the whole receipt. |
| Validator.ExtraKeyIgnored | src/utils.py:11-21 | Adding or changing a key outside the schema does not change the verdict. |
| Validator.ValidReceiptOf | src/utils.py:10-25 | Helper for the example proofs: a receipt of five string fields and an item list is valid exactly when the retailer, date, time, items and total each pass. |
| Validator.RetailerExamples | tests/test_receipt_validation.py:58-63 | "7-Eleven", "Target", "M&M Corner Market" and "Walgreens" are accepted; the number 7, "" and "7@Eleven" are rejected. |
| Validator.DateAndTimeExamples | tests/test_receipt_validation.py:66-86 | The field checks accept the test dates and times, and reject non-strings and impossible values. |
| Validator.TotalExamples | tests/test_receipt_validation.py:88-97 | The total check accepts the five test totals and rejects the number 9, "9", "9.999" and "-9.90". |
| Validator.ItemValid | tests/test_receipt_validation.py:30-48 | An item is valid when its description uses allowed characters and is not all whitespace, and its price is an amount. |
| Validator.PepsiItemValid | tests/test_receipt_validation.py:32 | The item "Pepsi - 12-oz" at 1.25 is valid. |
| Validator.DasaniItemValid | tests/test_receipt_validation.py:34 | The item "Dasani" at 1.40 is valid. |
| Validator.KlarbrunnItemValid | tests/test_receipt_validation.py:39 | A description padded with whitespace is valid. |
| Validator.GatoradeItemValid | tests/test_receipt_validation.py:33 | The item "Gatorade" at 2.25 is valid. |
| Validator.ItemExamplesInvalid | tests/test_receipt_validation.py:50-56 | Rejected: a non-dictionary, an empty dictionary, an '@' in the description, price "1", a missing price, a missing description, an integer price. |
| Validator.ItemsExampleValid | tests/test_receipt_validation.py:24 | The two-item list of the test is valid. |
| Validator.ItemsExamplesInvalid | tests/test_receipt_validation.py:25-28 | Rejected: a string, an empty list, a list holding an invalid description, a list holding an invalid price. |
| Validator.CornerMarketReceiptValid | tests/test_receipt_validation.py:123 | The M&M Corner Market receipt passes validation. |
| Validator.InvalidReceiptRejected | tests/test_receipt_validation.py:124 | The receipt with retailer "7@Eleven" fails validation. |
| Points.AlnumCount | tests/test_point_calculations.py:13 | The count over the first n characters is at most n. This is only a bound; AlnumCountExtremes and AlnumCountAppend pin the value. |
| Points.RetailerPoints | tests/test_point_calculations.py:13 | The retailer score never exceeds the name's length. |
| Points.AlnumCountExtremes | tests/test_point_calculations.py:13 | The prefix count equals its length exactly when every character is alphanumeric, and is 0 exactly when none is. |
| Points.RetailerPointsExtremes | tests/test_point_calculations.py:13 | A name scores its full length exactly when it is all alphanumeric, and 0 exactly when it has no alphanumeric character. |
| Points.AlnumCountPrefix | tests/test_point_calculations.py:13 | The count over a prefix depends only on that prefix. |
| Points.AlnumCountAppend | tests/test_point_calculations.py:13 | Counting across a concatenation adds the counts of the parts. |
| Points.RetailerPointsAppend | tests/test_point_calculations.py:13 | The retailer score adds up over a name split in two. |
| Points.TotalAmountPoints | tests/test_point_calculations.py:14-15 | The total scores 0, 25 or 75. It scores 75 exactly when the cents are "00", and at least 25 exactly when the cents are 00, 25, 50 or 75. |
| Points.ItemsAmountPoints | tests/test_point_calculations.py:16 | Definition: 5 points for each complete pair of items. |
| Points.ItemsAmountPointsPairs | tests/test_point_calculations.py:16 | The items score is 5 times p, where p is the number of complete pairs: 2p <= count < 2p + 2. |
| Points.ItemsAmountPointsPair | tests/test_point_calculations.py:16 | Two more items add exactly 5 points. |
| Points.ItemPoints | tests/test_point_calculations.py:17 | An item scores 0 unless its trimmed length is a multiple of 3; otherwise it scores the least r with price × 0.2 <= r. |
| Points.ItemDescriptionPoints | tests/test_point_calculations.py:17 | Definition: the sum of ItemPoints over the items. |
| Points.ItemDescriptionPointsAppend | tests/test_point_calculations.py:17 | The description score of two item lists joined together is the sum of their scores. |
| Points.ItemDescriptionPointsStep | tests/test_point_calculations.py:17 | Helper for the example proofs: the score from item k onward is item k's score plus the score from item k + 1 onward. |
| Points.ItemDescriptionPointsRemove | tests/test_point_calculations.py:17 | Removing one item removes exactly that item's score. |
| Points.PermutationScorable | tests/test_point_calculations.py:17 | Reordering scorable items leaves them scorable. |
| Points.PermutationRest | tests/test_point_calculations.py:17 | Removing the same item from two permutations of each other leaves two permutations. |
| Points.ItemDescriptionPointsPermutation | tests/test_point_calculations.py:17 | The description score does not depend on the order of the items. |
| Points.PurchaseDatePoints | tests/test_point_calculations.py:18 | The date scores 0 or 6, and 6 exactly when the day's last digit is odd. |
| Points.PurchaseTimePoints | tests/test_point_calculations.py:19 | The time scores 0 or 10, and 10 exactly when the hour is 14 or 15. |
| Points.AfternoonWindow | tests/test_point_calculations.py:19 | The time scores 10 exactly when it falls in minutes [840, 960) after midnight, that is 14:00 up to but not including 16:00. |
| Points.ValidItemsScorable | src/utils.py:52-57 | Every item of a validated item list can be scored. |
| Points.CalculatePoints | tests/test_point_calculations.py:13-19 | A valid receipt's points are at least its retailer score and at least its items score. |
| Points.ItemOrderIrrelevant | tests/test_point_calculations.py:16-17 | Reordering a valid receipt's items keeps it valid and keeps its points. |
| Points.CalculatePointsOf | tests/test_point_calculations.py:13-19 | Helper for the example proofs: a valid receipt's points are the sum of the six rule scores of its fields. |
| Points.KlarbrunnTrimmedLength | tests/test_point_calculations.py:71 | "   Klarbrunn 12-PK 12 FL OZ  " trims to 24 characters. |
| Points.ItemPointsExamples | tests/test_point_calculations.py:38 | Pepsi (13 characters) and Gatorade (8) score 0; Dasani (6) at 1.40 scores 1. |
| Points.TargetItemPointsExamples | tests/test_point_calculations.py:67-70 | Descriptions of 17 and 20 characters score 0. |
| Points.EmilsItemPoints | tests/test_point_calculations.py:68 | "Emils Cheese Pizza" (18 characters) at 12.25 scores 3. |
| Points.KlarbrunnItemPoints | tests/test_point_calculations.py:71 | The padded Klarbrunn item (24 characters) at 12.00 scores 3. |
| Points.ItemScorable | tests/test_point_calculations.py:26 | Helper for the example proofs: an item with an amount price can be scored and yields its own description and price. |
| Points.MountainDewItemValid | tests/test_receipt_validation.py:35 | "Mountain Dew 12PK" at 6.49 is a valid item. |
| Points.EmilsItemValid | tests/test_receipt_validation.py:36 | "Emils Cheese Pizza" at 12.25 is a valid item. |
| Points.KnorrItemValid | tests/test_receipt_validation.py:37 | "Knorr Creamy Chicken" at 1.26 is a valid item. |
| Points.DoritosItemValid | tests/test_receipt_validation.py:38 | "Doritos Nacho Cheese" at 3.35 is a valid item. |
| Points.TargetItemsValid | tests/test_point_calculations.py:66-72 | The Target receipt's five items form a valid item list. |
| Points.TargetItemsTailPoints | tests/test_point_calculations.py:69-71 | The Target receipt's last three items score 3. |
| Points.TargetItemsPoints | tests/test_point_calculations.py:80 | The Target receipt's items score 6 for their descriptions. |
| Points.MorningReceiptFieldScores | tests/test_point_calculations.py:33-36 | Walgreens scores 9; the date, time and total score 0. |
| Points.MorningReceiptItemScores | tests/test_point_calculations.py:37-38 | Two items score 5; the descriptions score 1. |
| Points.MorningReceiptValid | tests/test_point_calculations.py:22-31 | The morning receipt is valid. |
| Points.MorningReceiptPoints | tests/test_point_calculations.py:39 | The morning receipt scores 15. |
| Points.SimpleReceiptFieldScores | tests/test_point_calculations.py:52-55 | Target scores 6; the date and time score 0; the total 1.25 scores 25. |
| Points.SimpleReceiptItemScores | tests/test_point_calculations.py:56-57 | One item scores 0 for the pairs and 0 for the descriptions. |
| Points.SimpleReceiptValid | tests/test_point_calculations.py:42-50 | The simple receipt is valid. |
| Points.SimpleReceiptPoints | tests/test_point_calculations.py:58 | The simple receipt scores 31. |
| Points.TargetReceiptFieldScores | tests/test_point_calculations.py:75-78 | Target scores 6; the odd day 2022-01-01 scores 6; the time and total score 0. |
| Points.TargetReceiptItemScores | tests/test_point_calculations.py:79-80 | Five items score 10 for the pairs; the descriptions score 6. |
| Points.TargetReceiptValid | tests/test_point_calculations.py:61-73 | The Target receipt is valid. |
| Points.TargetReceiptPoints | tests/test_point_calculations.py:81 | The Target receipt scores 28. |
| Points.CornerMarketReceiptFieldScores | tests/test_point_calculations.py:97-100 | "M&M Corner Market" scores 14; the date scores 0; 14:33 scores 10; 9.00 scores 75. |
| Points.CornerMarketReceiptItemScores | tests/test_point_calculations.py:101-102 | Four items score 10 for the pairs; the descriptions score 0. |
| Points.CornerMarketReceiptPoints | tests/test_point_calculations.py:103 | The M&M Corner Market receipt scores 109. |
| AsWritten.RetailerAsWritten | src/utils.py:30 | The retailer pattern as written raises a pattern error on every input. |
| AsWritten.PurchaseDateAsWritten | src/utils.py:38 | The date check as written raises AttributeError on every input. |
| AsWritten.PurchaseTimeAsWritten | src/utils.py:47 | The time check as written raises AttributeError on every input. |
| AsWritten.ItemsAsWritten | src/utils.py:55 | The items check as written returns True exactly for a non-empty list, whatever it holds. |
| AsWritten.TotalAsWritten | src/utils.py:62 | The total check as written raises TypeError exactly for a non-string, and returns False for every amount in the documented format. |
| AsWritten.ReceiptAsWritten | src/utils.py:10-25 | validate_receipt as written returns False exactly when a schema key is missing, and never returns True. |
| AsWritten.RetailerCounterexample | src/utils.py:30 | "7-Eleven" is a valid retailer, yet the written check raises on it. |
| AsWritten.DateTimeCounterexample | src/utils.py:38-50 | "2022-03-20" and "14:33" are valid, yet the written checks raise on them. |
| AsWritten.ItemsCounterexample | src/utils.py:55 | The written check accepts a list whose only item has "Gummy@Bears" as its description, which the documented rule rejects. |
| AsWritten.TotalRejectsEveryAmount | src/utils.py:62 | No string in the documented money format matches the written pattern. |
| AsWritten.TotalCounterexample | src/utils.py:62 | The written check returns False for "9.00" and True for a string of backslashes and the letter d. |
| AsWritten.ReceiptCounterexample | src/utils.py:10-25 | The receipt the tests expect to pass is valid, yet the written function raises on it. |

## Left out

- The web service is not modelled: the Flask application, id generation and receipt storage. `src/app.py` only creates the application, and no routes or storage code exist.
- Python exceptions are modelled only in the `AsWritten` module. The documented model rejects a value of the wrong JSON type instead of raising, as the tests expect.
- Unicode is not modelled: `\w`, `\s` and `str.strip()` are ASCII-only. Python also accepts non-ASCII letters, digits and spaces.
- `strptime` is more lenient than the model. It accepts single-digit fields such as "2022-1-2" and "8:13", and its `%d` also accepts a space-padded day such as "2022-01- 2". `Calendar.ParseDate` and `Calendar.ParseTime` accept neither: they require the zero-padded fixed-width form the documented formats name.
- Python's `$` also matches before a final line feed. The documented formats are modelled without that allowance; it is modelled only for the written total pattern.
- Floating point is not modelled. The expected value at tests/test_point_calculations.py:38 is computed as `math.ceil(1.25 * 0.2)` on floats; the model computes the description rule on exact integer cents.
- JSON numbers are modelled as integers only; every number is rejected where a string is expected.
- `validate_receipt` is modelled on dictionaries only. Python's `in` on other argument types is not modelled.
- Validator.IsDescriptionChar: the source does not define the item description format. The model chooses the retailer class without `&`, `[\w\s\-]`, and requires a non-empty trimmed text. It agrees with every test at tests/test_receipt_validation.py:30-56, and so would narrower classes such as `[A-Za-z0-9 \-]`. The retailer pattern at src/utils.py:28 is the only free-text format the source documents, so the model reuses it; `&` is dropped because no test description uses it.
- Points.ItemPoints: an empty trimmed description has length 0, a multiple of 3, so the rule as stated scores it. Validated receipts cannot contain one, because the description format requires a non-space character.
- Points.PurchaseTimePoints: "after 2:00pm" is taken as from 14:00 inclusive. The tests do not pin the boundary, and 14:00 counts as in the window.
- Points.CalculatePoints: stated only for validated receipts. The points functions of the source are not present, so their behaviour on invalid input is unknown.
- The source's four validators do not do what their comments say (see Findings). `Validator` models the documented behaviour; `AsWritten` models the code as written.

## Findings

| source | as written | input that shows it | evidently intended | confidence | as-written member | corrected member |
|---|---|---|---|---|---|---|
| src/utils.py:30 | The raw string doubles the backslashes, so the class ends in the reversed range `\`-`&` and the pattern does not compile. | "7-Eleven" (any input) | match `^[\w\s\-&]+$` | high; not executed | AsWritten.RetailerCounterexample | Validator.RetailerExamples |
| src/utils.py:38-47 | `datetime.strptime` is looked up on the module, which has none, and the AttributeError escapes the `except ValueError`. | "2022-03-20", "14:33" | parse with `datetime.datetime.strptime` | high; not executed | AsWritten.DateTimeCounterexample | Calendar.DateRoundTrip |
| src/utils.py:55 | Only the list's type and length are checked. | [{"shortDescription": "Gummy@Bears", "price": "1.00"}] is accepted | check every item's properties | high; not executed | AsWritten.ItemsCounterexample | Validator.ItemsExamplesInvalid |
| src/utils.py:62 | The doubled backslashes make the pattern match a backslash, then 'd' characters, and so on, never digits. | "9.00" returns False | match `^\d+\.\d{2}$` | high; not executed | AsWritten.TotalRejectsEveryAmount | Amount.AmountGrammar |
| src/utils.py:10-25 | Because the retailer check always raises, no receipt with all five keys is ever accepted. | the M&M Corner Market receipt | accept a receipt whose five fields are valid | high; not executed | AsWritten.ReceiptCounterexample | Validator.CornerMarketReceiptValid |
