/**
 * The points rules of tests/test_point_calculations.py:13-19, the only
 * statement of the scorer in the repository: six sub-scores of a validated
 * receipt and their sum.
 *
 * Amounts are integer cents (module Amount), so "round dollar" is a multiple
 * of 100 cents, "a multiple of 0.25" a multiple of 25 cents, and
 * `ceil(price * 0.2)` is `ceil(cents / 500)`.
 */
module Points {
  import opened Text
  import opened Amount
  import opened Calendar
  import opened Json
  import opened Validator

  /** The number of alphanumeric characters among the first n of s. */
  function AlnumCount(s: string, n: nat): (r: nat)
    requires n <= |s|
    ensures r <= n
  {
    if n == 0 then 0 else AlnumCount(s, n - 1) + (if IsAlnum(s[n - 1]) then 1 else 0)
  }

  /** One point for every alphanumeric character in the retailer name. */
  function RetailerPoints(retailer: string): (r: nat)
    ensures r <= |retailer|
  {
    AlnumCount(retailer, |retailer|)
  }

  lemma {:induction false} AlnumCountExtremes(s: string, n: nat)
    requires n <= |s|
    ensures AlnumCount(s, n) == n <==> forall i :: 0 <= i < n ==> IsAlnum(s[i])
    ensures AlnumCount(s, n) == 0 <==> forall i :: 0 <= i < n ==> !IsAlnum(s[i])
  {
    if n > 0 {
      AlnumCountExtremes(s, n - 1);
    }
  }

  /** Every character scores when the name is all alphanumeric, and only
      then; nothing scores when no character is alphanumeric, and only then. */
  lemma RetailerPointsExtremes(retailer: string)
    ensures RetailerPoints(retailer) == |retailer| <==> forall i :: 0 <= i < |retailer| ==> IsAlnum(retailer[i])
    ensures RetailerPoints(retailer) == 0 <==> forall i :: 0 <= i < |retailer| ==> !IsAlnum(retailer[i])
  {
    AlnumCountExtremes(retailer, |retailer|);
  }

  /** The count over a prefix only looks at that prefix. */
  lemma {:induction false} AlnumCountPrefix(s: string, t: string, n: nat)
    requires n <= |s| && n <= |t| && s[..n] == t[..n]
    ensures AlnumCount(s, n) == AlnumCount(t, n)
  {
    if n > 0 {
      assert s[n - 1] == s[..n][n - 1] == t[..n][n - 1] == t[n - 1];
      assert s[..n - 1] == s[..n][..n - 1];
      assert t[..n - 1] == t[..n][..n - 1];
      AlnumCountPrefix(s, t, n - 1);
    }
  }

  lemma {:induction false} AlnumCountAppend(a: string, b: string, k: nat)
    requires k <= |b|
    ensures AlnumCount(a + b, |a| + k) == AlnumCount(a, |a|) + AlnumCount(b, k)
  {
    if k == 0 {
      assert (a + b)[..|a|] == a[..|a|];
      AlnumCountPrefix(a + b, a, |a|);
    } else {
      AlnumCountAppend(a, b, k - 1);
      assert (a + b)[|a| + k - 1] == b[k - 1];
    }
  }

  /** The retailer score of a name split in two is the sum of the two
      parts' scores: each character counts on its own. */
  lemma RetailerPointsAppend(a: string, b: string)
    ensures RetailerPoints(a + b) == RetailerPoints(a) + RetailerPoints(b)
  {
    AlnumCountAppend(a, b, |b|);
  }

  /** +50 for a round-dollar total, and independently +25 for a multiple of
      0.25; a round-dollar total gets both. */
  function TotalAmountPoints(total: string): (r: nat)
    requires IsAmountText(total)
    ensures r == 0 || r == 25 || r == 75
    ensures r == 75 <==> CentDigits(total) == "00"
    ensures r >= 25 <==> CentDigits(total) in {"00", "25", "50", "75"}
  {
    RoundDollar(total);
    QuarterMultiple(total);
    var cents := ParseCents(total);
    (if cents % 100 == 0 then 50 else 0) + (if cents % 25 == 0 then 25 else 0)
  }

  /** 5 points for every two items. */
  function ItemsAmountPoints(items: seq<Value>): nat {
    5 * (|items| / 2)
  }

  /** The score is 5 per complete pair: a multiple of 5 whose fifth, p, is
      the number of pairs, so the list holds 2p or 2p + 1 items. */
  lemma ItemsAmountPointsPairs(items: seq<Value>)
    ensures ItemsAmountPoints(items) % 5 == 0
    ensures var p := ItemsAmountPoints(items) / 5; 2 * p <= |items| < 2 * p + 2
  {
  }

  /** Two more items make one more pair. */
  lemma ItemsAmountPointsPair(items: seq<Value>, x: Value, y: Value)
    ensures ItemsAmountPoints(items + [x, y]) == ItemsAmountPoints(items) + 5
  {
  }

  /** One item's description score: when the trimmed description's length is
      a multiple of 3, the price times 0.2 rounded up, that is the least
      whole number r with r * 500 >= cents; otherwise 0. */
  function ItemPoints(description: string, price: string): (r: nat)
    requires IsAmountText(price)
    ensures |Trim(description)| % 3 != 0 ==> r == 0
    ensures |Trim(description)| % 3 == 0 ==> (r - 1) * 500 < ParseCents(price) <= r * 500
  {
    if |Trim(description)| % 3 == 0 then (ParseCents(price) + 499) / 500 else 0
  }

  /** What scoring needs of an item: a string description and a price in
      the amount format. Every valid item has both. */
  predicate Scorable(item: Value) {
    && item.Dict?
    && "shortDescription" in item.fields && item.fields["shortDescription"].Str?
    && "price" in item.fields && item.fields["price"].Str?
    && IsAmountText(item.fields["price"].s)
  }

  function Description(item: Value): string
    requires Scorable(item)
  {
    item.fields["shortDescription"].s
  }

  function Price(item: Value): string
    requires Scorable(item)
  {
    item.fields["price"].s
  }

  predicate AllScorable(items: seq<Value>) {
    forall i :: 0 <= i < |items| ==> Scorable(items[i])
  }

  /** The description score: each item's rounded-up score, summed. */
  function ItemDescriptionPoints(items: seq<Value>): (r: nat)
    requires AllScorable(items)
  {
    if items == [] then 0
    else ItemPoints(Description(items[0]), Price(items[0])) + ItemDescriptionPoints(items[1..])
  }

  /** The description score of a concatenation is the sum of the parts'. */
  lemma {:induction false} ItemDescriptionPointsAppend(a: seq<Value>, b: seq<Value>)
    requires AllScorable(a) && AllScorable(b)
    ensures AllScorable(a + b)
    ensures ItemDescriptionPoints(a + b) == ItemDescriptionPoints(a) + ItemDescriptionPoints(b)
  {
    assert forall i :: 0 <= i < |a + b| ==> (a + b)[i] == (if i < |a| then a[i] else b[i - |a|]);
    if a != [] {
      assert (a + b)[1..] == a[1..] + b;
      ItemDescriptionPointsAppend(a[1..], b);
    } else {
      assert a + b == b;
    }
  }

  /** The sum from item k on is item k's score plus the sum from k + 1 on. */
  lemma ItemDescriptionPointsStep(items: seq<Value>, k: nat)
    requires AllScorable(items) && k < |items|
    ensures AllScorable(items[k..]) && AllScorable(items[k + 1..])
    ensures ItemDescriptionPoints(items[k..])
        == ItemPoints(Description(items[k]), Price(items[k])) + ItemDescriptionPoints(items[k + 1..])
  {
    assert items[k..][0] == items[k] && items[k..][1..] == items[k + 1..];
  }

  /** Taking one item out of the list takes its own score out of the sum. */
  lemma ItemDescriptionPointsRemove(b: seq<Value>, j: nat)
    requires AllScorable(b) && j < |b|
    ensures AllScorable(b[..j] + b[j + 1..])
    ensures ItemDescriptionPoints(b)
        == ItemPoints(Description(b[j]), Price(b[j])) + ItemDescriptionPoints(b[..j] + b[j + 1..])
  {
    var front, back := b[..j], b[j..];
    assert b == front + back;
    assert AllScorable(front) && AllScorable(back);
    ItemDescriptionPointsAppend(front, back);
    ItemDescriptionPointsStep(b, j);
    assert back == b[j..] && back[1..] == b[j + 1..];
    ItemDescriptionPointsAppend(front, b[j + 1..]);
  }

  /** A permutation of scorable items is scorable. */
  lemma PermutationScorable(a: seq<Value>, b: seq<Value>)
    requires AllScorable(a) && multiset(a) == multiset(b)
    ensures AllScorable(b)
  {
    forall i | 0 <= i < |b| ensures Scorable(b[i]) {
      assert b[i] in multiset(b);
      var j :| 0 <= j < |a| && a[j] == b[i];
    }
  }

  /** Taking the first item out of a and the same item out of b leaves two
      permutations of each other. */
  lemma PermutationRest(a: seq<Value>, b: seq<Value>, j: nat)
    requires multiset(a) == multiset(b) && a != [] && j < |b| && b[j] == a[0]
    ensures multiset(a[1..]) == multiset(b[..j] + b[j + 1..])
  {
    var x, ra, rb := a[0], a[1..], b[..j] + b[j + 1..];
    assert a == [x] + ra;
    assert b == b[..j] + [x] + b[j + 1..];
    assert multiset(a) == multiset{x} + multiset(ra);
    assert multiset(b) == multiset{x} + multiset(rb);
    forall y ensures multiset(ra)[y] == multiset(rb)[y] {
      assert multiset(a)[y] == multiset{x}[y] + multiset(ra)[y];
      assert multiset(b)[y] == multiset{x}[y] + multiset(rb)[y];
    }
  }

  /** The description score does not depend on the order of the items. */
  lemma {:induction false} ItemDescriptionPointsPermutation(a: seq<Value>, b: seq<Value>)
    requires AllScorable(a) && multiset(a) == multiset(b)
    ensures AllScorable(b)
    ensures ItemDescriptionPoints(a) == ItemDescriptionPoints(b)
    decreases |a|
  {
    PermutationScorable(a, b);
    if a != [] {
      var x := a[0];
      assert x in multiset(b);
      var j :| 0 <= j < |b| && b[j] == x;
      var rest := b[..j] + b[j + 1..];
      PermutationRest(a, b, j);
      assert AllScorable(a[1..]);
      ItemDescriptionPointsPermutation(a[1..], rest);
      ItemDescriptionPointsRemove(b, j);
    } else {
      assert |b| == |multiset(b)| == 0;
    }
  }

  /** "Odd day": the last digit of the day is odd. */
  predicate IsOddDigit(c: char) {
    c == '1' || c == '3' || c == '5' || c == '7' || c == '9'
  }

  /** 6 points if the day of the purchase date is odd. */
  function PurchaseDatePoints(date: string): (r: nat)
    requires ParseDate(date).Some?
    ensures r == 0 || r == 6
    ensures r == 6 <==> IsOddDigit(date[9])
  {
    var day := ParseDate(date).value.day;
    assert day % 2 == DigitValue(date[9]) % 2;
    if day % 2 == 1 then 6 else 0
  }

  /** 10 points for a purchase from 2:00pm up to, but not including, 4:00pm:
      the hour is 14 or 15. */
  function PurchaseTimePoints(time: string): (r: nat)
    requires ParseTime(time).Some?
    ensures r == 0 || r == 10
    ensures r == 10 <==> time[0] == '1' && (time[1] == '4' || time[1] == '5')
  {
    var t := ParseTime(time).value;
    if 14 <= t.hour < 16 then 10 else 0
  }

  /** The window in minutes since midnight: [840, 960). */
  lemma AfternoonWindow(time: string)
    requires ParseTime(time).Some?
    ensures var t := ParseTime(time).value;
      PurchaseTimePoints(time) == 10 <==> 14 * 60 <= 60 * t.hour + t.minute < 16 * 60
  {
  }

  /** Every item of a valid receipt can be scored. */
  lemma ValidItemsScorable(items: Value)
    requires ValidItems(items)
    ensures AllScorable(items.elems)
  {
  }

  /** The points of a valid receipt: the sum of the six sub-scores. */
  function CalculatePoints(receipt: Value): (r: nat)
    requires ValidReceipt(receipt)
    ensures r >= RetailerPoints(receipt.fields["retailer"].s)
    ensures r >= ItemsAmountPoints(receipt.fields["items"].elems)
  {
    var f := receipt.fields;
    ValidItemsScorable(f["items"]);
    RetailerPoints(f["retailer"].s)
      + TotalAmountPoints(f["total"].s)
      + ItemsAmountPoints(f["items"].elems)
      + ItemDescriptionPoints(f["items"].elems)
      + PurchaseDatePoints(f["purchaseDate"].s)
      + PurchaseTimePoints(f["purchaseTime"].s)
  }

  /** Reordering the items of a receipt does not change its points. */
  lemma ItemOrderIrrelevant(receipt: Value, items: seq<Value>)
    requires ValidReceipt(receipt)
    requires multiset(items) == multiset(receipt.fields["items"].elems)
    ensures ValidReceipt(Dict(receipt.fields["items" := List(items)]))
    ensures CalculatePoints(Dict(receipt.fields["items" := List(items)])) == CalculatePoints(receipt)
  {
    var old_items := receipt.fields["items"].elems;
    ValidItemsScorable(receipt.fields["items"]);
    ItemDescriptionPointsPermutation(old_items, items);
    forall i | 0 <= i < |items| ensures ValidItemProperties(items[i]) {
      assert items[i] in multiset(old_items);
      var j :| 0 <= j < |old_items| && old_items[j] == items[i];
    }
    assert |items| == |multiset(items)| == |multiset(old_items)| == |old_items|;
  }

  /** The points of a receipt built from its fields: the sum of the six
      sub-scores of those fields. */
  lemma CalculatePointsOf(retailer: string, purchaseDate: string, purchaseTime: string,
                          items: seq<Value>, total: string)
    requires ValidReceipt(Receipt(retailer, purchaseDate, purchaseTime, items, total))
    ensures IsAmountText(total) && ParseDate(purchaseDate).Some? && ParseTime(purchaseTime).Some?
    ensures AllScorable(items)
    ensures CalculatePoints(Receipt(retailer, purchaseDate, purchaseTime, items, total))
        == RetailerPoints(retailer) + TotalAmountPoints(total) + ItemsAmountPoints(items)
           + ItemDescriptionPoints(items) + PurchaseDatePoints(purchaseDate)
           + PurchaseTimePoints(purchaseTime)
  {
    ValidItemsScorable(List(items));
  }

  /** tests/test_point_calculations.py:22-31. */
  const MorningItems: seq<Value> := [Item("Pepsi - 12-oz", "1.25"), Item("Dasani", "1.40")]

  const MorningReceipt: Value := Receipt("Walgreens", "2022-01-02", "08:13", MorningItems, "2.65")

  /** tests/test_point_calculations.py:42-50. */
  const SimpleItems: seq<Value> := [Item("Pepsi - 12-oz", "1.25")]

  const SimpleReceipt: Value := Receipt("Target", "2022-01-02", "13:13", SimpleItems, "1.25")

  /** tests/test_point_calculations.py:61-73. */
  const TargetItems: seq<Value> := [
    Item("Mountain Dew 12PK", "6.49"),
    Item("Emils Cheese Pizza", "12.25"),
    Item("Knorr Creamy Chicken", "1.26"),
    Item("Doritos Nacho Cheese", "3.35"),
    Item("   Klarbrunn 12-PK 12 FL OZ  ", "12.00")]

  const TargetReceipt: Value := Receipt("Target", "2022-01-01", "13:01", TargetItems, "35.35")

  /** Leading and trailing whitespace does not count towards the length. */
  lemma KlarbrunnTrimmedLength()
    ensures |Trim("   Klarbrunn 12-PK 12 FL OZ  ")| == 24
  {
    assert SkipSpaces("   Klarbrunn 12-PK 12 FL OZ  ", 0) == 3;
    assert SkipSpacesBack("   Klarbrunn 12-PK 12 FL OZ  ", 3, 29) == 27;
  }

  /** Description lengths 13 and 8 score nothing; length 6 scores 1.40 * 0.2
      = 0.28 rounded up. */
  lemma ItemPointsExamples()
    ensures ItemPoints("Pepsi - 12-oz", "1.25") == 0
    ensures ItemPoints("Dasani", "1.40") == 1
    ensures ItemPoints("Gatorade", "2.25") == 0
  {
  }

  /** Description lengths 17 and 20 score nothing. */
  lemma TargetItemPointsExamples()
    ensures ItemPoints("Mountain Dew 12PK", "6.49") == 0
    ensures ItemPoints("Knorr Creamy Chicken", "1.26") == 0
    ensures ItemPoints("Doritos Nacho Cheese", "3.35") == 0
  {
  }

  /** 18 characters: 12.25 * 0.2 = 2.45 rounds up to 3. */
  lemma EmilsItemPoints()
    ensures ItemPoints("Emils Cheese Pizza", "12.25") == 3
  {
    assert ParseCents("12.25") == 1225 by {
      assert DigitsValue("12") == 12;
    }
  }

  /** 24 characters once trimmed: 12.00 * 0.2 = 2.4 rounds up to 3. */
  lemma KlarbrunnItemPoints()
    ensures ItemPoints("   Klarbrunn 12-PK 12 FL OZ  ", "12.00") == 3
  {
    KlarbrunnTrimmedLength();
    assert ParseCents("12.00") == 1200 by {
      assert DigitsValue("12") == 12;
    }
  }

  /** An item with a price in the amount format can be scored, and its
      description and price are the ones it was built from. */
  lemma ItemScorable(description: string, price: string)
    requires IsAmountText(price)
    ensures Scorable(Item(description, price))
    ensures Description(Item(description, price)) == description
    ensures Price(Item(description, price)) == price
  {
  }

  lemma MountainDewItemValid()
    ensures ValidItemProperties(Item("Mountain Dew 12PK", "6.49"))
  {
    ItemValid("Mountain Dew 12PK", "6.49", 0);
  }

  lemma EmilsItemValid()
    ensures ValidItemProperties(Item("Emils Cheese Pizza", "12.25"))
  {
    ItemValid("Emils Cheese Pizza", "12.25", 0);
  }

  lemma KnorrItemValid()
    ensures ValidItemProperties(Item("Knorr Creamy Chicken", "1.26"))
  {
    ItemValid("Knorr Creamy Chicken", "1.26", 0);
  }

  lemma DoritosItemValid()
    ensures ValidItemProperties(Item("Doritos Nacho Cheese", "3.35"))
  {
    ItemValid("Doritos Nacho Cheese", "3.35", 0);
  }

  lemma TargetItemsValid()
    ensures ValidItems(List(TargetItems))
  {
    var items := TargetItems;
    forall i | 0 <= i < |items| ensures ValidItemProperties(items[i]) {
      if i == 0 { MountainDewItemValid(); }
      else if i == 1 { EmilsItemValid(); }
      else if i == 2 { KnorrItemValid(); }
      else if i == 3 { DoritosItemValid(); }
      else { KlarbrunnItemValid(); }
    }
  }

  /** The last three items of the Target receipt: only the padded
      Klarbrunn description scores. */
  lemma TargetItemsTailPoints()
    ensures AllScorable(TargetItems) && ItemDescriptionPoints(TargetItems[2..]) == 3
  {
    var items := TargetItems;
    assert AllScorable(items) by {
      TargetItemsValid();
      ValidItemsScorable(List(items));
    }
    assert items[5..] == [];
    ItemDescriptionPointsStep(items, 4);
    ItemDescriptionPointsStep(items, 3);
    ItemDescriptionPointsStep(items, 2);
    assert ItemPoints(Description(items[4]), Price(items[4])) == 3 by {
      KlarbrunnItemPoints();
    }
    assert ItemPoints(Description(items[3]), Price(items[3])) == 0
        && ItemPoints(Description(items[2]), Price(items[2])) == 0 by {
      TargetItemPointsExamples();
    }
  }

  /** The description score of the Target receipt, 6: 3 for Emils Cheese
      Pizza and 3 for the padded Klarbrunn description. */
  lemma TargetItemsPoints()
    ensures AllScorable(TargetItems) && ItemDescriptionPoints(TargetItems) == 6
  {
    var items := TargetItems;
    TargetItemsTailPoints();
    ItemDescriptionPointsStep(items, 1);
    assert ItemPoints(Description(items[1]), Price(items[1])) == 3 by {
      EmilsItemPoints();
    }
    assert ItemPoints(Description(items[0]), Price(items[0])) == 0 by {
      TargetItemPointsExamples();
    }
  }

  /** The sub-scores of tests/test_point_calculations.py:33-36 that read
      one string field each. */
  lemma MorningReceiptFieldScores()
    ensures RetailerPoints("Walgreens") == 9
    ensures ParseDate("2022-01-02").Some? && PurchaseDatePoints("2022-01-02") == 0
    ensures ParseTime("08:13").Some? && PurchaseTimePoints("08:13") == 0
    ensures IsAmountText("2.65") && TotalAmountPoints("2.65") == 0
  {
  }

  /** tests/test_point_calculations.py:37-38: two items make one pair; only
      "Dasani" (6 characters) scores, 1.40 * 0.2 rounded up. */
  lemma MorningReceiptItemScores()
    ensures ItemsAmountPoints(MorningItems) == 5
    ensures AllScorable(MorningItems) && ItemDescriptionPoints(MorningItems) == 1
  {
    ItemPointsExamples();
    ItemScorable("Pepsi - 12-oz", "1.25");
    ItemScorable("Dasani", "1.40");
    assert ItemDescriptionPoints(MorningItems[1..]) == 1;
  }

  lemma MorningReceiptValid()
    ensures ValidReceipt(MorningReceipt)
  {
    assert IsRetailerText("Walgreens") && IsAmountText("2.65");
    assert ParseDate("2022-01-02").Some? && ParseTime("08:13").Some?;
    assert ValidItems(List(MorningItems)) by {
      PepsiItemValid();
      DasaniItemValid();
    }
    ValidReceiptOf("Walgreens", "2022-01-02", "08:13", MorningItems, "2.65");
  }

  /** tests/test_point_calculations.py:39: 9 + 0 + 0 + 0 + 5 + 1 = 15. */
  lemma MorningReceiptPoints()
    ensures ValidReceipt(MorningReceipt) && CalculatePoints(MorningReceipt) == 15
  {
    MorningReceiptValid();
    CalculatePointsOf("Walgreens", "2022-01-02", "08:13", MorningItems, "2.65");
    MorningReceiptFieldScores();
    MorningReceiptItemScores();
  }

  /** tests/test_point_calculations.py:52-55: 1.25 is a multiple of 0.25 but
      not a round dollar. */
  lemma SimpleReceiptFieldScores()
    ensures RetailerPoints("Target") == 6
    ensures ParseDate("2022-01-02").Some? && PurchaseDatePoints("2022-01-02") == 0
    ensures ParseTime("13:13").Some? && PurchaseTimePoints("13:13") == 0
    ensures IsAmountText("1.25") && TotalAmountPoints("1.25") == 25
  {
  }

  /** tests/test_point_calculations.py:56-57: one item makes no pair, and
      its 13-character description scores nothing. */
  lemma SimpleReceiptItemScores()
    ensures ItemsAmountPoints(SimpleItems) == 0
    ensures AllScorable(SimpleItems) && ItemDescriptionPoints(SimpleItems) == 0
  {
    ItemPointsExamples();
    ItemScorable("Pepsi - 12-oz", "1.25");
    assert SimpleItems[1..] == [];
  }

  lemma SimpleReceiptValid()
    ensures ValidReceipt(SimpleReceipt)
  {
    assert IsRetailerText("Target") && IsAmountText("1.25");
    assert ParseDate("2022-01-02").Some? && ParseTime("13:13").Some?;
    assert ValidItems(List(SimpleItems)) by {
      PepsiItemValid();
    }
    ValidReceiptOf("Target", "2022-01-02", "13:13", SimpleItems, "1.25");
  }

  /** tests/test_point_calculations.py:58: 6 + 0 + 0 + 25 + 0 + 0 = 31. */
  lemma SimpleReceiptPoints()
    ensures ValidReceipt(SimpleReceipt) && CalculatePoints(SimpleReceipt) == 31
  {
    SimpleReceiptValid();
    CalculatePointsOf("Target", "2022-01-02", "13:13", SimpleItems, "1.25");
    SimpleReceiptFieldScores();
    SimpleReceiptItemScores();
  }

  /** tests/test_point_calculations.py:75-78: the 1st is an odd day. */
  lemma TargetReceiptFieldScores()
    ensures RetailerPoints("Target") == 6
    ensures ParseDate("2022-01-01").Some? && PurchaseDatePoints("2022-01-01") == 6
    ensures ParseTime("13:01").Some? && PurchaseTimePoints("13:01") == 0
    ensures IsAmountText("35.35") && TotalAmountPoints("35.35") == 0
  {
    assert CentDigits("35.35") == "35";
  }

  /** tests/test_point_calculations.py:79-80: five items make two pairs. */
  lemma TargetReceiptItemScores()
    ensures ItemsAmountPoints(TargetItems) == 10
    ensures AllScorable(TargetItems) && ItemDescriptionPoints(TargetItems) == 6
  {
    assert ItemsAmountPoints(TargetItems) == 10;
    assert AllScorable(TargetItems) && ItemDescriptionPoints(TargetItems) == 6 by {
      TargetItemsPoints();
    }
  }

  lemma TargetReceiptValid()
    ensures ValidReceipt(TargetReceipt)
  {
    assert IsRetailerText("Target") && IsAmountText("35.35");
    assert ParseDate("2022-01-01").Some? && ParseTime("13:01").Some?;
    assert ValidItems(List(TargetItems)) by {
      TargetItemsValid();
    }
    ValidReceiptOf("Target", "2022-01-01", "13:01", TargetItems, "35.35");
  }

  /** tests/test_point_calculations.py:81: 6 + 6 + 0 + 0 + 10 + 6 = 28. */
  lemma TargetReceiptPoints()
    ensures ValidReceipt(TargetReceipt) && CalculatePoints(TargetReceipt) == 28
  {
    TargetReceiptValid();
    CalculatePointsOf("Target", "2022-01-01", "13:01", TargetItems, "35.35");
    TargetReceiptFieldScores();
    TargetReceiptItemScores();
  }

  /** tests/test_point_calculations.py:97-100: only the 14 letters of the
      name score; both total bonuses apply; 14:33 is in the afternoon window. */
  lemma CornerMarketReceiptFieldScores()
    ensures RetailerPoints("M&M Corner Market") == 14
    ensures ParseDate("2022-03-20").Some? && PurchaseDatePoints("2022-03-20") == 0
    ensures ParseTime("14:33").Some? && PurchaseTimePoints("14:33") == 10
    ensures IsAmountText("9.00") && TotalAmountPoints("9.00") == 25 + 50
  {
    assert RetailerPoints("M&M Corner Market") == 14 by {
      assert AlnumCount("M&M Corner Market", 8) == 6;
      assert AlnumCount("M&M Corner Market", 17) == 14;
    }
  }

  /** tests/test_point_calculations.py:101-102: four items make two pairs;
      "Gatorade" has 8 characters and scores nothing. */
  lemma CornerMarketReceiptItemScores()
    ensures ItemsAmountPoints(CornerMarketItems) == 10
    ensures AllScorable(CornerMarketItems) && ItemDescriptionPoints(CornerMarketItems) == 0
  {
    ItemPointsExamples();
    ItemScorable("Gatorade", "2.25");
    var items := CornerMarketItems;
    assert ItemDescriptionPoints(items[3..]) == 0;
    assert ItemDescriptionPoints(items[2..]) == 0;
    assert ItemDescriptionPoints(items[1..]) == 0;
  }

  /** tests/test_point_calculations.py:103: 14 + 0 + 10 + 75 + 10 + 0 = 109. */
  lemma CornerMarketReceiptPoints()
    ensures ValidReceipt(CornerMarketReceipt) && CalculatePoints(CornerMarketReceipt) == 109
  {
    CornerMarketReceiptValid();
    CalculatePointsOf("M&M Corner Market", "2022-03-20", "14:33", CornerMarketItems, "9.00");
    CornerMarketReceiptFieldScores();
    CornerMarketReceiptItemScores();
  }
}
