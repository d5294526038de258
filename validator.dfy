/** A loosely typed JSON value, as a parsed request body reaches the validator. */
module Json {
  datatype Value =
    | Null
    | Bool(b: bool)
    | Number(n: int)
    | Str(s: string)
    | List(elems: seq<Value>)
    | Dict(fields: map<string, Value>)
}

/**
 * The receipt validator of src/utils.py: `validate_receipt` and its five
 * per-field checks, modelled as they are documented and tested.
 *
 * The Python text of four of the checks does not do what its comment says
 * (see module AsWritten); here each check is the documented rule, and a
 * value of the wrong JSON type is rejected rather than raising, as the tests
 * at tests/test_receipt_validation.py:61, :70, :81 and :94 expect.
 */
module Validator {
  import opened Text
  import opened Amount
  import opened Calendar
  import opened Json

  /** The receipt schema of src/utils.py:11. */
  const RequiredKeys: set<string> := {"retailer", "purchaseDate", "purchaseTime", "items", "total"}

  /** `[\w\s\-&]`: the characters a retailer name may use. */
  predicate IsRetailerChar(c: char) {
    IsWordChar(c) || IsSpace(c) || c == '-' || c == '&'
  }

  /** `^[\w\s\-&]+$`, documented at src/utils.py:28. */
  predicate IsRetailerText(s: string) {
    |s| >= 1 && forall i :: 0 <= i < |s| ==> IsRetailerChar(s[i])
  }

  /** validate_receipt_retailer: a string in the retailer format. */
  predicate ValidRetailer(v: Value) {
    v.Str? && IsRetailerText(v.s)
  }

  /** validate_receipt_purchase_date: a string naming a real `YYYY-MM-DD` date. */
  predicate ValidPurchaseDate(v: Value) {
    v.Str? && ParseDate(v.s).Some?
  }

  /** validate_receipt_purchase_time: a string naming an `HH:MM` 24-hour time. */
  predicate ValidPurchaseTime(v: Value) {
    v.Str? && ParseTime(v.s).Some?
  }

  /** `[\w\s\-]`: the characters an item description may use. The tests
      reject '@' and '#' in a description and accept '-'. */
  predicate IsDescriptionChar(c: char) {
    IsWordChar(c) || IsSpace(c) || c == '-'
  }

  /** A description: allowed characters only, and something left after
      trimming. */
  predicate IsDescriptionText(s: string) {
    (forall i :: 0 <= i < |s| ==> IsDescriptionChar(s[i])) && Trim(s) != []
  }

  /** validate_receipt_item_properties, which the tests import
      (tests/test_receipt_validation.py:9) and exercise
      (tests/test_receipt_validation.py:30-56): a dictionary with a string
      `shortDescription` in the description format and a string `price` in
      the amount format. */
  predicate ValidItemProperties(item: Value) {
    && item.Dict?
    && "shortDescription" in item.fields
    && "price" in item.fields
    && item.fields["shortDescription"].Str?
    && IsDescriptionText(item.fields["shortDescription"].s)
    && item.fields["price"].Str?
    && IsAmountText(item.fields["price"].s)
  }

  /** validate_receipt_items: a non-empty list (src/utils.py:55) whose every
      element passes the item checks (tests/test_receipt_validation.py:27-28). */
  predicate ValidItems(v: Value) {
    v.List? && |v.elems| >= 1 && forall i :: 0 <= i < |v.elems| ==> ValidItemProperties(v.elems[i])
  }

  /** validate_receipt_total: a string in the `^\d+\.\d{2}$` format. */
  predicate ValidTotal(v: Value) {
    v.Str? && IsAmountText(v.s)
  }

  /** validate_receipt: every required key present, then the conjunction of
      the five field checks, in the order src/utils.py:17-21 computes them. */
  predicate ValidReceipt(data: Value) {
    && data.Dict?
    && RequiredKeys <= data.fields.Keys
    && ValidRetailer(data.fields["retailer"])
    && ValidPurchaseDate(data.fields["purchaseDate"])
    && ValidPurchaseTime(data.fields["purchaseTime"])
    && ValidItems(data.fields["items"])
    && ValidTotal(data.fields["total"])
  }

  /** The five fields the schema names. */
  datatype Field = Retailer | PurchaseDate | PurchaseTime | Items | Total

  function Key(f: Field): (k: string)
    ensures k in RequiredKeys
  {
    match f
    case Retailer => "retailer"
    case PurchaseDate => "purchaseDate"
    case PurchaseTime => "purchaseTime"
    case Items => "items"
    case Total => "total"
  }

  predicate FieldValid(f: Field, v: Value) {
    match f
    case Retailer => ValidRetailer(v)
    case PurchaseDate => ValidPurchaseDate(v)
    case PurchaseTime => ValidPurchaseTime(v)
    case Items => ValidItems(v)
    case Total => ValidTotal(v)
  }

  /** The field checks run one after another in the given order, stopping at
      the first failure, as a short-circuiting `and` does. */
  function CheckInOrder(fields: map<string, Value>, order: seq<Field>): bool
    requires RequiredKeys <= fields.Keys
  {
    if order == [] then true
    else if !FieldValid(order[0], fields[Key(order[0])]) then false
    else CheckInOrder(fields, order[1..])
  }

  /** Checking in order succeeds exactly when every listed check holds. */
  lemma {:induction false} CheckInOrderAll(fields: map<string, Value>, order: seq<Field>)
    requires RequiredKeys <= fields.Keys
    ensures CheckInOrder(fields, order)
        <==> forall i :: 0 <= i < |order| ==> FieldValid(order[i], fields[Key(order[i])])
  {
    if order != [] {
      CheckInOrderAll(fields, order[1..]);
      assert forall i :: 1 <= i < |order| ==> order[i] == order[1..][i - 1];
    }
  }

  /** The result does not depend on the order the field checks run in: any
      order that runs all five of them (repeats allowed) agrees with
      validate_receipt. */
  lemma OrderIrrelevant(data: Value, order: seq<Field>)
    requires data.Dict? && RequiredKeys <= data.fields.Keys
    requires forall f: Field :: f in order
    ensures CheckInOrder(data.fields, order) == ValidReceipt(data)
  {
    CheckInOrderAll(data.fields, order);
    var fields := data.fields;
    if ValidReceipt(data) {
      forall i | 0 <= i < |order| ensures FieldValid(order[i], fields[Key(order[i])]) {
        match order[i]
        case Retailer =>
        case PurchaseDate =>
        case PurchaseTime =>
        case Items =>
        case Total =>
      }
    }
    if CheckInOrder(fields, order) {
      forall f: Field ensures FieldValid(f, fields[Key(f)]) {
        assert f in order;
        var i :| 0 <= i < |order| && order[i] == f;
      }
      assert FieldValid(Retailer, fields[Key(Retailer)]);
      assert FieldValid(PurchaseDate, fields[Key(PurchaseDate)]);
      assert FieldValid(PurchaseTime, fields[Key(PurchaseTime)]);
      assert FieldValid(Items, fields[Key(Items)]);
      assert FieldValid(Total, fields[Key(Total)]);
    }
  }

  /** A receipt missing any required key is rejected (src/utils.py:13-15). */
  lemma MissingKeyRejects(data: Value, key: string)
    requires data.Dict? && key in RequiredKeys && key !in data.fields
    ensures !ValidReceipt(data)
  {
  }

  /** One item that fails its checks rejects the whole receipt. */
  lemma BadItemRejects(data: Value, i: nat)
    requires data.Dict? && "items" in data.fields && data.fields["items"].List?
    requires i < |data.fields["items"].elems| && !ValidItemProperties(data.fields["items"].elems[i])
    ensures !ValidReceipt(data)
  {
  }

  /** Keys outside the schema are ignored. */
  lemma ExtraKeyIgnored(data: Value, key: string, v: Value)
    requires data.Dict? && key !in RequiredKeys
    ensures ValidReceipt(Dict(data.fields[key := v])) == ValidReceipt(data)
  {
    var m := data.fields[key := v];
    assert forall k :: k in RequiredKeys ==> (k in m <==> k in data.fields);
    if RequiredKeys <= data.fields.Keys {
      assert forall k :: k in RequiredKeys ==> m[k] == data.fields[k];
    }
  }

  /** An item as the tests write it. */
  function Item(description: string, price: string): Value {
    Dict(map["shortDescription" := Str(description), "price" := Str(price)])
  }

  /** A receipt as the tests write it: the five schema fields and no others. */
  function Receipt(retailer: string, purchaseDate: string, purchaseTime: string,
                   items: seq<Value>, total: string): Value
  {
    Dict(map["retailer" := Str(retailer), "purchaseDate" := Str(purchaseDate),
             "purchaseTime" := Str(purchaseTime), "items" := List(items), "total" := Str(total)])
  }

  /** A receipt whose five fields are strings and a list is valid exactly
      when each field is. */
  lemma ValidReceiptOf(retailer: string, purchaseDate: string, purchaseTime: string,
                       items: seq<Value>, total: string)
    ensures ValidReceipt(Receipt(retailer, purchaseDate, purchaseTime, items, total))
        <==> && IsRetailerText(retailer)
             && ParseDate(purchaseDate).Some?
             && ParseTime(purchaseTime).Some?
             && ValidItems(List(items))
             && IsAmountText(total)
  {
    var fields := Receipt(retailer, purchaseDate, purchaseTime, items, total).fields;
    assert fields.Keys == RequiredKeys;
  }

  /** The valid receipt of tests/test_receipt_validation.py:110-121 (also
      tests/test_point_calculations.py:84-95). */
  const CornerMarketItems: seq<Value> := [Item("Gatorade", "2.25"), Item("Gatorade", "2.25"),
                                          Item("Gatorade", "2.25"), Item("Gatorade", "2.25")]

  const CornerMarketReceipt: Value :=
    Receipt("M&M Corner Market", "2022-03-20", "14:33", CornerMarketItems, "9.00")

  /** The invalid receipt of tests/test_receipt_validation.py:100-108. */
  const InvalidReceipt: Value := Receipt("7@Eleven", "2022-13-20", "28:30",
    [Item("Beef#Jerky", "2.25")], "12345")

  lemma RetailerExamples()
    ensures ValidRetailer(Str("7-Eleven")) && ValidRetailer(Str("Target"))
    ensures ValidRetailer(Str("M&M Corner Market")) && ValidRetailer(Str("Walgreens"))
    ensures !ValidRetailer(Number(7)) && !ValidRetailer(Str(""))
    ensures !ValidRetailer(Str("7@Eleven"))
  {
    assert !IsRetailerChar("7@Eleven"[1]);
  }

  lemma DateAndTimeExamples()
    ensures ValidPurchaseDate(Str("2022-03-20")) && ValidPurchaseDate(Str("2018-02-10"))
    ensures !ValidPurchaseDate(Number(2014)) && !ValidPurchaseDate(Str("2014"))
    ensures !ValidPurchaseDate(Str("1090-13-15")) && !ValidPurchaseDate(Str("2014-12-32"))
    ensures ValidPurchaseTime(Str("08:13")) && ValidPurchaseTime(Str("14:33"))
    ensures !ValidPurchaseTime(Number(9)) && !ValidPurchaseTime(Str("28:30"))
    ensures !ValidPurchaseTime(Str("23:61")) && !ValidPurchaseTime(Str("234:303"))
  {
    DateExamplesAccepted();
    DateExamplesRejected();
    TimeExamples();
  }

  lemma TotalExamples()
    ensures ValidTotal(Str("9.00")) && ValidTotal(Str("2.65")) && ValidTotal(Str("1.25"))
    ensures ValidTotal(Str("09.00")) && ValidTotal(Str("30.33"))
    ensures !ValidTotal(Number(9)) && !ValidTotal(Str("9"))
    ensures !ValidTotal(Str("9.999")) && !ValidTotal(Str("-9.90"))
  {
    AmountExamples();
  }

  /** An item is valid when its description uses the allowed characters and
      has a non-whitespace character at some index i, and its price is an
      amount. */
  lemma ItemValid(description: string, price: string, i: nat)
    requires forall k :: 0 <= k < |description| ==> IsDescriptionChar(description[k])
    requires i < |description| && !IsSpace(description[i])
    requires IsAmountText(price)
    ensures ValidItemProperties(Item(description, price))
  {
    TrimKeeps(description, i);
  }

  /** The valid items of tests/test_receipt_validation.py, one lemma each. */
  lemma PepsiItemValid()
    ensures ValidItemProperties(Item("Pepsi - 12-oz", "1.25"))
  {
    TrimKeeps("Pepsi - 12-oz", 0);
  }

  lemma DasaniItemValid()
    ensures ValidItemProperties(Item("Dasani", "1.40"))
  {
    TrimKeeps("Dasani", 0);
  }

  /** Surrounding whitespace is allowed in a description. */
  lemma KlarbrunnItemValid()
    ensures ValidItemProperties(Item("   Klarbrunn 12-PK 12 FL OZ  ", "12.00"))
  {
    ItemValid("   Klarbrunn 12-PK 12 FL OZ  ", "12.00", 3);
  }

  lemma ItemExamplesInvalid()
    ensures !ValidItemProperties(Str("")) && !ValidItemProperties(Dict(map[]))
    ensures !ValidItemProperties(Item("Gummy@Bears", "1.00"))
    ensures !ValidItemProperties(Item("Gummy Bears", "1"))
    ensures !ValidItemProperties(Dict(map["shortDescription" := Str("Gummy Bears")]))
    ensures !ValidItemProperties(Dict(map["price" := Str("1.00")]))
    ensures !ValidItemProperties(Dict(map["shortDescription" := Str("Gummy Bears"), "price" := Number(1)]))
  {
    assert !IsDescriptionChar("Gummy@Bears"[5]);
  }

  lemma ItemsExampleValid()
    ensures ValidItems(List([Item("Pepsi - 12-oz", "1.25"), Item("Dasani", "1.40")]))
  {
    PepsiItemValid();
    DasaniItemValid();
  }

  lemma ItemsExamplesInvalid()
    ensures !ValidItems(Str("")) && !ValidItems(List([]))
    ensures !ValidItems(List([Item("Gummy@Bears", "1.00")]))
    ensures !ValidItems(List([Item("Gummy Bears", "1")]))
  {
    ItemExamplesInvalid();
    assert [Item("Gummy@Bears", "1.00")][0] == Item("Gummy@Bears", "1.00");
    assert [Item("Gummy Bears", "1")][0] == Item("Gummy Bears", "1");
  }

  lemma GatoradeItemValid()
    ensures ValidItemProperties(Item("Gatorade", "2.25"))
  {
    TrimKeeps("Gatorade", 0);
  }

  /** The receipt the tests accept passes validation. */
  lemma CornerMarketReceiptValid()
    ensures ValidReceipt(CornerMarketReceipt)
  {
    assert IsRetailerText("M&M Corner Market");
    assert ParseDate("2022-03-20").Some? && ParseTime("14:33").Some?;
    assert ValidItems(List(CornerMarketItems)) by {
      GatoradeItemValid();
    }
    ValidReceiptOf("M&M Corner Market", "2022-03-20", "14:33", CornerMarketItems, "9.00");
  }

  /** The receipt the tests reject fails validation: its retailer has an '@'. */
  lemma InvalidReceiptRejected()
    ensures !ValidReceipt(InvalidReceipt)
  {
    ValidReceiptOf("7@Eleven", "2022-13-20", "28:30", [Item("Beef#Jerky", "2.25")], "12345");
    assert !IsRetailerChar("7@Eleven"[1]);
  }
}
