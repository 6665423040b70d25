/**
  The receipt record the language models' answers are checked against
  (`Receipt.py`): category validation, item cost defaulting and quantity
  coercion, the non-empty check, and the dictionary / JSON encoder views.

  Third-party parsers (dateutil, price_parser) and Python's own `int(str)` and
  `float(str)` are taken as given functions in `Parsers`; only the receipt
  code's handling of their results is modelled.
 */
module Receipts {
  import opened Wrappers
  import opened Text
  import Pairs
  import opened Dates

  /** `Category`, in declaration order. */
  datatype Category = Transport | Clothing | Healthcare | Food | Leisure | Housing | Others | Invalid {

    /** The member's value, e.g. `Category.FOOD.value == 'Food'`. */
    function Value(): string {
      match this
      case Transport => "Transport"
      case Clothing => "Clothing"
      case Healthcare => "Healthcare"
      case Food => "Food"
      case Leisure => "Leisure"
      case Housing => "Housing"
      case Others => "Others"
      case Invalid => "Invalid"
    }

    /** The member's name, e.g. `Category.FOOD.name == 'FOOD'`. */
    function Name(): string {
      match this
      case Transport => "TRANSPORT"
      case Clothing => "CLOTHING"
      case Healthcare => "HEALTHCARE"
      case Food => "FOOD"
      case Leisure => "LEISURE"
      case Housing => "HOUSING"
      case Others => "OTHERS"
      case Invalid => "INVALID"
    }
  }

  /** Iteration order of the enum (`for cat in Category`). */
  const Members: seq<Category> := [Transport, Clothing, Healthcare, Food, Leisure, Housing, Others, Invalid]

  /** The values a receipt may carry. */
  const ValidValues: set<string> := {"Transport", "Clothing", "Healthcare", "Food", "Leisure", "Housing", "Others"}

  /** The exceptions the receipt code raises or lets through. */
  datatype Raised =
    | ReceiptError(field: string, message: string)
    | Uncaught(kind: string)  // any other exception, named by its Python class

  /** The first member of `cs` whose value is `value`. */
  function FindByValue(cs: seq<Category>, value: string): (r: Option<Category>)
    ensures r.Some? ==> r.value in cs && r.value.Value() == value
    ensures r.None? ==> forall i :: 0 <= i < |cs| ==> cs[i].Value() != value
  {
    if |cs| == 0 then None
    else if cs[0].Value() == value then Some(cs[0])
    else FindByValue(cs[1..], value)
  }

  /** The first member of `cs` whose name is `name`. */
  function FindByName(cs: seq<Category>, name: string): (r: Option<Category>)
    ensures r.Some? ==> r.value in cs && r.value.Name() == name
    ensures r.None? ==> forall i :: 0 <= i < |cs| ==> cs[i].Name() != name
  {
    if |cs| == 0 then None
    else if cs[0].Name() == name then Some(cs[0])
    else FindByName(cs[1..], name)
  }

  lemma EveryCategoryIsAMember(c: Category)
    ensures c in Members
  {
  }

  /** `Category(value)`: the member with that value, or None where Python raises ValueError. */
  function Lookup(value: string): (r: Option<Category>)
    ensures r.Some? ==> r.value.Value() == value
    ensures r.None? ==> forall c: Category :: c.Value() != value
  {
    var r := FindByValue(Members, value);
    assert r.None? ==> forall c: Category :: c.Value() != value by {
      forall c: Category ensures r.None? ==> c.Value() != value {
        EveryCategoryIsAMember(c);
      }
    }
    r
  }

  /** The values listed by the unknown-category message: every member but `INVALID`, in order. */
  function ListedValues(cs: seq<Category>): (vs: seq<string>)
    ensures |vs| <= |cs|
    ensures forall i :: 0 <= i < |vs| ==> vs[i] != "Invalid"
  {
    if |cs| == 0 then []
    else (if cs[0] != Invalid then [cs[0].Value()] else []) + ListedValues(cs[1..])
  }

  function UnknownCategoryMessage(value: string): string {
    "Invalid category '" + value + "'. The valid categories are: " + JoinWith(ListedValues(Members), ", ")
  }

  const InvalidCategoryMessage := "Invalid category should only be used when the image is not a receipt"

  /** `Category.validate_category`. */
  function ValidateCategory(value: string): (r: Result<Category, Raised>)
    ensures r.Success? <==> value in ValidValues
    ensures r.Success? ==> r.value.Value() == value && r.value != Invalid
    ensures r.Failure? ==> r.error.ReceiptError? && r.error.field == "category"
    ensures value == "Invalid" ==> r == Failure(ReceiptError("category", InvalidCategoryMessage))
    ensures value !in ValidValues && value != "Invalid" ==> r == Failure(ReceiptError("category", UnknownCategoryMessage(value)))
  {
    match Lookup(value)
    case None => Failure(ReceiptError("category", UnknownCategoryMessage(value)))
    case Some(c) =>
      if c == Invalid then Failure(ReceiptError("category", InvalidCategoryMessage))
      else Success(c)
  }

  /** The unknown-category message lists the seven receipt categories and not `Invalid`. */
  lemma ListedCategories()
    ensures ListedValues(Members) == ["Transport", "Clothing", "Healthcare", "Food", "Leisure", "Housing", "Others"]
  {
    assert ListedValues(Members[7..]) == [];
    assert ListedValues(Members[6..]) == ["Others"];
    assert ListedValues(Members[5..]) == ["Housing", "Others"];
    assert ListedValues(Members[4..]) == ["Leisure", "Housing", "Others"];
    assert ListedValues(Members[3..]) == ["Food", "Leisure", "Housing", "Others"];
    assert ListedValues(Members[2..]) == ["Healthcare", "Food", "Leisure", "Housing", "Others"];
    assert ListedValues(Members[1..]) == ["Clothing", "Healthcare", "Food", "Leisure", "Housing", "Others"];
  }

  /** A Python float. */
  datatype PyFloat = Finite(x: real) | Infinity | NaN

  /** `item_quantity` as it arrives in the decoded JSON. */
  datatype Quantity = QInt(i: int) | QBool(b: bool) | QStr(s: string) | QFloat(f: PyFloat) | QNone | QOther

  /** A quantity after coercion: an int, or a bool (which `isinstance(.., int)` lets through). */
  datatype Count = Int(n: int) | Flag(b: bool)

  /** What the third-party and built-in parsers make of a string. */
  datatype Parsers = Parsers(
    readDate: string -> Option<Date>,     // dateutil `parser.parse(s, dayfirst=True)`; None when it raises ParserError
    today: Date,                          // today's date in Asia/Singapore
    readAmount: string -> Option<string>, // `str(Price.fromstring(s).amount)`; None when the amount is None
    readInt: string -> Option<int>,       // `int(s)`; None when it raises ValueError
    readFloat: string -> Option<PyFloat>) // `float(s)`; None when it raises ValueError

  /** `int(x)` for a finite float: rounds toward zero. */
  function Truncate(x: real): (n: int)
    ensures 0.0 <= x ==> n as real <= x < n as real + 1.0
    ensures x < 0.0 ==> n as real - 1.0 < x <= n as real
  {
    if x >= 0.0 then x.Floor else -((-x).Floor)
  }

  /** `int(f)` for a float: ValueError for NaN, OverflowError for an infinity. */
  function IntOfFloat(f: PyFloat): Result<int, Raised> {
    match f
    case Finite(x) => Success(Truncate(x))
    case NaN => Failure(Uncaught("ValueError"))
    case Infinity => Failure(Uncaught("OverflowError"))
  }

  /** The body of the quantity `try` block, before its handler. */
  function ConvertQuantity(q: Quantity, P: Parsers): Result<Count, Raised> {
    match q
    case QInt(i) => Success(Int(i))
    case QBool(b) => Success(Flag(b))
    case QStr(s) =>
      if '.' in s then
        (match P.readFloat(s)
         case None => Failure(Uncaught("ValueError"))
         case Some(f) =>
           var n :- IntOfFloat(f);
           Success(Int(n)))
      else
        (match P.readInt(s)
         case None => Failure(Uncaught("ValueError"))
         case Some(n) => Success(Int(n)))
    case QFloat(f) =>
      var n :- IntOfFloat(f);
      Success(Int(n))
    case QNone => Success(Int(1))
    case QOther => Success(Int(1))
  }

  /** Quantity coercion with its `except (ValueError, TypeError)` handler. */
  function CoerceQuantity(q: Quantity, P: Parsers): (r: Result<Count, Raised>)
    ensures q.QInt? ==> r == Success(Int(q.i))
    ensures q.QBool? ==> r == Success(Flag(q.b))
    ensures r.Success? && !q.QBool? ==> r.value.Int?
    ensures q.QFloat? && q.f.Finite? ==> r == Success(Int(Truncate(q.f.x)))
    ensures q.QStr? && '.' in q.s && P.readFloat(q.s).Some? && P.readFloat(q.s).value.Finite? ==>
              r == Success(Int(Truncate(P.readFloat(q.s).value.x)))
    ensures q.QStr? && '.' !in q.s ==> r == Success(Int(P.readInt(q.s).GetOr(1)))
    ensures q.QNone? || q.QOther? ==> r == Success(Int(1))
    ensures (q.QFloat? && q.f.NaN?) || (q.QStr? && '.' in q.s && (P.readFloat(q.s).None? || P.readFloat(q.s).value.NaN?)) ==>
              r == Success(Int(1))
    ensures r.Failure? <==> (q.QFloat? && q.f.Infinity?) || (q.QStr? && '.' in q.s && P.readFloat(q.s) == Some(Infinity))
    ensures r.Failure? ==> r.error == Uncaught("OverflowError")
  {
    match ConvertQuantity(q, P)
    case Success(c) => Success(c)
    case Failure(e) =>
      if e == Uncaught("ValueError") || e == Uncaught("TypeError") then Success(Int(1)) else Failure(e)
  }

  /** One entry of `itemized_list` as decoded from the model's JSON. */
  datatype RawItem = RawItem(name: string, cost: Option<string>, quantity: Quantity)  // cost None: key missing or null

  /** One entry after `parse_itemized_list`: the cost is the text of the parsed amount. */
  datatype ParsedItem = ParsedItem(name: string, cost: string, quantity: Count)

  /** The cost text handed to the price parser: `'0.00'` when the cost is missing or falsy. */
  function CostText(it: RawItem): (s: string)
    ensures it.cost.None? || it.cost.value == "" ==> s == "0.00"
    ensures it.cost.Some? && it.cost.value != "" ==> s == it.cost.value
  {
    if it.cost.None? || it.cost.value == "" then "0.00" else it.cost.value
  }

  /** `Receipt.parse_total_cost`, returning the text of the amount. */
  function ParseTotalCost(s: string, P: Parsers): (r: Result<string, Raised>)
    ensures r.Success? <==> P.readAmount(s).Some?
    ensures r.Success? ==> r.value == P.readAmount(s).value
    ensures r.Failure? ==> r.error == ReceiptError("total_cost", "Invalid total cost '" + s + "'. Please provide a valid number")
  {
    match P.readAmount(s)
    case None => Failure(ReceiptError("total_cost", "Invalid total cost '" + s + "'. Please provide a valid number"))
    case Some(a) => Success(a)
  }

  /** `Receipt.parse_date`: the literal text "None" means today. */
  function ParseDate(s: string, P: Parsers): (r: Result<Date, Raised>)
    ensures s == "None" ==> r == Success(P.today)
    ensures s != "None" ==> (r.Success? <==> P.readDate(s).Some?)
    ensures s != "None" && r.Success? ==> r.value == P.readDate(s).value
    ensures r.Failure? ==> r.error.ReceiptError? && r.error.field == "date"
  {
    if s == "None" then Success(P.today)
    else match P.readDate(s)
      case None =>
        Failure(ReceiptError("date", "Invalid date format: '" + s + "'. If possible, provide a valid date in the format: 'YYYY-MM-DD'"))
      case Some(d) => Success(d)
  }

  /** One iteration of the `parse_itemized_list` loop: cost first, then quantity. */
  function ParseItem(it: RawItem, P: Parsers): (r: Result<ParsedItem, Raised>)
    ensures r.Success? <==> P.readAmount(CostText(it)).Some? && CoerceQuantity(it.quantity, P).Success?
    ensures r.Success? ==> r.value == ParsedItem(it.name, P.readAmount(CostText(it)).value, CoerceQuantity(it.quantity, P).value)
    ensures P.readAmount(CostText(it)).None? ==> r.error.ReceiptError? && r.error.field == "total_cost"
    ensures P.readAmount(CostText(it)).Some? && CoerceQuantity(it.quantity, P).Failure? ==>
              r == Failure(Uncaught("OverflowError"))
  {
    var cost :- ParseTotalCost(CostText(it), P);
    var quantity :- CoerceQuantity(it.quantity, P);
    Success(ParsedItem(it.name, cost, quantity))
  }

  /** `Receipt.parse_itemized_list`: the same entries in the same order, each with
      only its cost and quantity rewritten; the first failing entry's exception escapes. */
  function ParseItemizedList(items: seq<RawItem>, P: Parsers): (r: Result<seq<ParsedItem>, Raised>)
    ensures r.Success? <==> forall i :: 0 <= i < |items| ==> ParseItem(items[i], P).Success?
    ensures r.Success? ==> |r.value| == |items|
    ensures r.Success? ==> forall i :: 0 <= i < |items| ==> r.value[i].name == items[i].name
    ensures r.Success? ==> forall i :: 0 <= i < |items| ==> Success(r.value[i]) == ParseItem(items[i], P)
    ensures r.Failure? ==> exists i :: 0 <= i < |items| && ParseItem(items[i], P) == Failure(r.error)
                                       && forall j :: 0 <= j < i ==> ParseItem(items[j], P).Success?
  {
    if |items| == 0 then Success([])
    else
      match ParseItem(items[0], P)
      case Failure(e) => Failure(e)
      case Success(first) =>
        match ParseItemizedList(items[1..], P)
        case Failure(e) =>
          ghost var k :| 0 <= k < |items[1..]| && ParseItem(items[1..][k], P) == Failure(e)
                         && forall j :: 0 <= j < k ==> ParseItem(items[1..][j], P).Success?;
          assert ParseItem(items[k + 1], P) == Failure(e);
          assert forall j :: 0 <= j < k + 1 ==> ParseItem(items[j], P).Success? by {
            forall j | 0 < j < k + 1 ensures ParseItem(items[j], P).Success? {
              assert items[j] == items[1..][j - 1];
            }
          }
          Failure(e)
        case Success(rest) =>
          assert forall i :: 0 < i < |items| ==> items[i] == items[1..][i - 1];
          Success([first] + rest)
  }

  /** An attribute value as `validate_non_empty` inspects it. */
  datatype AttrValue =
    | StrAttr(s: string)
    | ListAttr(elems: seq<Option<string>>)  // Some(s) for a `str` element, None for any other
    | ObjectAttr(truthy: bool)

  /** The inner loop over a list attribute: `temp` is rebound only by `str` elements. */
  function ListTemp(elems: seq<Option<string>>, temp: Option<bool>): Option<bool> {
    if |elems| == 0 then temp
    else ListTemp(elems[1..], if elems[0].Some? then Some(|Strip(elems[0].value)| > 0) else temp)
  }

  /** The truthiness `temp` holds after one attribute (None: still unbound).
      For a string the stripped value is overwritten by the value itself. */
  function AttrTemp(v: AttrValue, temp: Option<bool>): Option<bool> {
    match v
    case StrAttr(s) => Some(|s| > 0)
    case ListAttr(elems) => ListTemp(elems, temp)
    case ObjectAttr(t) => Some(t)
  }

  function EmptyFieldMessage(attr: string): string {
    "Field '" + attr + "' cannot be empty"
  }

  /** The loop of `validate_non_empty` over `self.__dict__`, carrying `temp` across attributes. */
  function CheckAttrs(attrs: seq<(string, AttrValue)>, temp: Option<bool>): Result<(), Raised> {
    if |attrs| == 0 then Success(())
    else
      var t := AttrTemp(attrs[0].1, temp);
      if t.None? then Failure(Uncaught("UnboundLocalError"))
      else if !t.value then Failure(ReceiptError(attrs[0].0, EmptyFieldMessage(attrs[0].0)))
      else CheckAttrs(attrs[1..], t)
  }

  /** `self.__dict__` of a receipt under construction, in assignment order. Date, price and
      enum objects are truthy; the item list holds dictionaries, none of them a `str`. */
  function ReceiptAttributes(merchantName: string, items: seq<ParsedItem>): seq<(string, AttrValue)> {
    [ ("merchant_name", StrAttr(merchantName)),
      ("_date", ObjectAttr(true)),
      ("_total_cost", ObjectAttr(true)),
      ("_category", ObjectAttr(true)),
      ("_itemized_list", ListAttr(seq(|items|, _ => None))) ]
  }

  /** A list with no `str` element leaves `temp` as it was. */
  lemma {:induction false} ListTempWithoutStrings(elems: seq<Option<string>>, temp: Option<bool>)
    requires forall i :: 0 <= i < |elems| ==> elems[i].None?
    ensures ListTemp(elems, temp) == temp
  {
    if |elems| > 0 {
      ListTempWithoutStrings(elems[1..], temp);
    }
  }

  /** Walks `CheckAttrs` through the five receipt attributes. */
  lemma ReceiptAttributesChecked(merchantName: string, items: seq<ParsedItem>)
    ensures CheckAttrs(ReceiptAttributes(merchantName, items), None)
         == if merchantName == "" then Failure(ReceiptError("merchant_name", EmptyFieldMessage("merchant_name")))
            else Success(())
  {
    var attrs := ReceiptAttributes(merchantName, items);
    if merchantName != "" {
      ListTempWithoutStrings(seq(|items|, _ => None), Some(true));
      assert CheckAttrs(attrs, None) == CheckAttrs(attrs[1..], Some(true));
      assert CheckAttrs(attrs[1..], Some(true)) == CheckAttrs(attrs[2..], Some(true));
      assert CheckAttrs(attrs[2..], Some(true)) == CheckAttrs(attrs[3..], Some(true));
      assert CheckAttrs(attrs[3..], Some(true)) == CheckAttrs(attrs[4..], Some(true));
      assert CheckAttrs(attrs[4..], Some(true)) == CheckAttrs(attrs[5..], Some(true));
      assert attrs[5..] == [];
    } else {
      assert AttrTemp(attrs[0].1, None) == Some(false);
    }
  }

  /** `Receipt.validate_non_empty` on a receipt: only an empty merchant name is rejected. */
  function ValidateNonEmpty(merchantName: string, items: seq<ParsedItem>): (r: Result<(), Raised>)
    ensures r.Failure? <==> merchantName == ""
    ensures r.Failure? ==> r.error == ReceiptError("merchant_name", EmptyFieldMessage("merchant_name"))
  {
    ReceiptAttributesChecked(merchantName, items);
    CheckAttrs(ReceiptAttributes(merchantName, items), None)
  }

  /** A whitespace-only merchant name passes, and so does an empty item list. */
  lemma BlankFieldsAccepted(items: seq<ParsedItem>)
    ensures Strip(" ") == "" && ValidateNonEmpty(" ", items).Success?
    ensures ValidateNonEmpty("Shop", []).Success?
  {
    assert LStrip(" ") == "";
  }

  /** A receipt: merchant, parsed date, total amount text, category and items. */
  datatype Receipt = Receipt(merchantName: string, date: Date, totalCost: string, category: Category, items: seq<ParsedItem>)

  /** The keyword arguments `Receipt(**receipt_dict)` receives from the decoded JSON. */
  datatype RawReceipt = RawReceipt(merchantName: string, date: string, totalCost: string, category: string,
                                   items: Option<seq<RawItem>>)  // None: `itemized_list` is null

  /** Everything `Receipt.__init__` checks, stated declaratively. */
  ghost predicate Acceptable(raw: RawReceipt, P: Parsers) {
    && (raw.date == "None" || P.readDate(raw.date).Some?)
    && P.readAmount(raw.totalCost).Some?
    && raw.category in ValidValues
    && raw.items.Some?
    && (forall i :: 0 <= i < |raw.items.value| ==> ParseItem(raw.items.value[i], P).Success?)
    && raw.merchantName != ""
  }

  /** The constructor's checks before the item list: date, total cost, category. */
  ghost predicate HeadChecksPass(raw: RawReceipt, P: Parsers) {
    ParseDate(raw.date, P).Success? && P.readAmount(raw.totalCost).Some? && raw.category in ValidValues
  }

  /** `Receipt.__init__`: date, total, category, items, then the non-empty check. The first
      check that fails decides the exception: a `ReceiptError` for the date, the total, the
      category, an item's cost or an empty merchant name; a `TypeError` for a null item list
      and an `OverflowError` for an infinite quantity, neither of which `parse` catches. */
  function BuildReceipt(raw: RawReceipt, P: Parsers): (r: Result<Receipt, Raised>)
    ensures r.Success? <==> Acceptable(raw, P)
    ensures r.Success? ==> r.value.merchantName == raw.merchantName
    ensures r.Success? ==> r.value.category.Value() == raw.category
    ensures r.Success? ==> r.value.totalCost == P.readAmount(raw.totalCost).value
    ensures r.Success? ==> r.value.date == if raw.date == "None" then P.today else P.readDate(raw.date).value
    ensures r.Success? ==> |r.value.items| == |raw.items.value|
    ensures r.Success? ==> forall i :: 0 <= i < |raw.items.value| ==> Success(r.value.items[i]) == ParseItem(raw.items.value[i], P)
    ensures ParseDate(raw.date, P).Failure? ==> r.error.ReceiptError? && r.error.field == "date"
    ensures ParseDate(raw.date, P).Success? && P.readAmount(raw.totalCost).None? ==> r.error.ReceiptError? && r.error.field == "total_cost"
    ensures ParseDate(raw.date, P).Failure? ==> r == Failure(ParseDate(raw.date, P).error)
    ensures ParseDate(raw.date, P).Success? && P.readAmount(raw.totalCost).None? ==>
              r == Failure(ReceiptError("total_cost", "Invalid total cost '" + raw.totalCost + "'. Please provide a valid number"))
    ensures ParseDate(raw.date, P).Success? && P.readAmount(raw.totalCost).Some? && raw.category !in ValidValues ==>
              r == Failure(ValidateCategory(raw.category).error)
    ensures HeadChecksPass(raw, P) && raw.items.None? ==> r == Failure(Uncaught("TypeError"))
    ensures HeadChecksPass(raw, P) && raw.items.Some?
            && !(forall i :: 0 <= i < |raw.items.value| ==> ParseItem(raw.items.value[i], P).Success?) ==>
              && r.Failure?
              && exists i :: && 0 <= i < |raw.items.value|
                             && ParseItem(raw.items.value[i], P) == Failure(r.error)
                             && forall j :: 0 <= j < i ==> ParseItem(raw.items.value[j], P).Success?
    ensures HeadChecksPass(raw, P) && raw.items.Some? && (forall i :: 0 <= i < |raw.items.value| ==> ParseItem(raw.items.value[i], P).Success?)
            && raw.merchantName == "" ==>
              r == Failure(ReceiptError("merchant_name", EmptyFieldMessage("merchant_name")))
    ensures r.Failure? && r.error.Uncaught? ==>
              r.error == Uncaught("TypeError") || r.error == Uncaught("OverflowError")
  {
    var date :- ParseDate(raw.date, P);
    var total :- ParseTotalCost(raw.totalCost, P);
    var category :- ValidateCategory(raw.category);
    var items :- if raw.items.None? then Failure(Uncaught("TypeError")) else ParseItemizedList(raw.items.value, P);
    var _ :- ValidateNonEmpty(raw.merchantName, items);
    Success(Receipt(raw.merchantName, date, total, category, items))
  }

  /** JSON values as Python's `json` module sees them. */
  datatype Json = JNull | JBool(b: bool) | JInt(i: int) | JStr(s: string) | JArray(elems: seq<Json>) | JObject(fields: seq<(string, Json)>)

  /** `j[key]` for an object, None for a missing key or a non-object. */
  function Get(j: Json, key: string): Option<Json> {
    if j.JObject? then Pairs.Lookup(j.fields, key) else None
  }

  function CountToJson(c: Count): Json {
    match c
    case Int(n) => JInt(n)
    case Flag(b) => JBool(b)
  }

  /** `Item.to_dict`. */
  function ItemToDict(it: ParsedItem): (j: Json)
    ensures j.JObject? && Pairs.Keys(j.fields) == ["item_name", "item_cost", "item_quantity"]
  {
    JObject([("item_name", JStr(it.name)), ("item_cost", JStr(it.cost)), ("item_quantity", CountToJson(it.quantity))])
  }

  function ItemsToJson(items: seq<ParsedItem>): (js: seq<Json>)
    ensures |js| == |items|
    ensures forall i :: 0 <= i < |items| ==> js[i] == ItemToDict(items[i])
  {
    if |items| == 0 then [] else [ItemToDict(items[0])] + ItemsToJson(items[1..])
  }

  /** `Receipt.to_dict`: the category appears by its enum name, the date as `%d/%m/%Y`. */
  function ReceiptToDict(r: Receipt): (j: Json)
    ensures j.JObject? && Pairs.Keys(j.fields) == ["merchant_name", "date", "total_cost", "category", "itemized_list"]
    ensures j.fields[3] == ("category", JStr(r.category.Name()))
    ensures j.fields[4].1.JArray? && |j.fields[4].1.elems| == |r.items|
  {
    JObject([ ("merchant_name", JStr(r.merchantName)),
              ("date", JStr(FormatDayFirst(r.date))),
              ("total_cost", JStr(r.totalCost)),
              ("category", JStr(r.category.Name())),
              ("itemized_list", JArray(ItemsToJson(r.items))) ])
  }

  function JsonToCount(j: Json): Option<Count> {
    match j
    case JInt(n) => Some(Int(n))
    case JBool(b) => Some(Flag(b))
    case _ => None
  }

  function TextOf(v: Option<Json>): Option<string> {
    if v.Some? && v.value.JStr? then Some(v.value.s) else None
  }

  /** Reads an item dictionary back. */
  function ItemFromDict(j: Json): Option<ParsedItem> {
    var name := TextOf(Get(j, "item_name"));
    var cost := TextOf(Get(j, "item_cost"));
    var quantity := Get(j, "item_quantity");
    if name.Some? && cost.Some? && quantity.Some? && JsonToCount(quantity.value).Some?
    then Some(ParsedItem(name.value, cost.value, JsonToCount(quantity.value).value))
    else None
  }

  function ItemsFromJson(js: seq<Json>): Option<seq<ParsedItem>> {
    if |js| == 0 then Some([])
    else
      var first := ItemFromDict(js[0]);
      var rest := ItemsFromJson(js[1..]);
      if first.Some? && rest.Some? then Some([first.value] + rest.value) else None
  }

  /** Reads a receipt dictionary back: the inverse `to_dict` is checked against. */
  function ReceiptFromDict(j: Json): Option<Receipt> {
    var m := TextOf(Get(j, "merchant_name"));
    var d := TextOf(Get(j, "date"));
    var t := TextOf(Get(j, "total_cost"));
    var c := TextOf(Get(j, "category"));
    var list := Get(j, "itemized_list");
    if m.Some? && d.Some? && t.Some? && c.Some? && list.Some? && list.value.JArray? then
      var date := ReadDayFirst(d.value);
      var category := FindByName(Members, c.value);
      var items := ItemsFromJson(list.value.elems);
      if date.Some? && category.Some? && items.Some?
      then Some(Receipt(m.value, date.value, t.value, category.value, items.value))
      else None
    else None
  }

  lemma ItemRoundTrip(it: ParsedItem)
    ensures ItemFromDict(ItemToDict(it)) == Some(it)
  {
    var fs := ItemToDict(it).fields;
    Pairs.LookupAt(fs, 0, "item_name");
    Pairs.LookupAt(fs, 1, "item_cost");
    Pairs.LookupAt(fs, 2, "item_quantity");
  }

  lemma {:induction false} ItemsRoundTrip(items: seq<ParsedItem>)
    ensures ItemsFromJson(ItemsToJson(items)) == Some(items)
  {
    if |items| > 0 {
      ItemsRoundTrip(items[1..]);
      ItemRoundTrip(items[0]);
      assert ItemsToJson(items)[1..] == ItemsToJson(items[1..]);
      assert [items[0]] + items[1..] == items;
    }
  }

  lemma NameInjective(c1: Category, c2: Category)
    requires c1.Name() == c2.Name()
    ensures c1 == c2
  {
  }

  /** Enum names are distinct, so a category is recovered from its name. */
  lemma CategoryFromName(c: Category)
    ensures FindByName(Members, c.Name()) == Some(c)
  {
    EveryCategoryIsAMember(c);
    var r := FindByName(Members, c.Name());
    assert r.Some? by {
      var i :| 0 <= i < |Members| && Members[i] == c;
    }
    NameInjective(r.value, c);
  }

  /** Looking up each key of a receipt's dictionary layout finds its own value. */
  lemma ReceiptKeysFound(a: Json, b: Json, c: Json, d: Json, e: Json)
    ensures var fs := [("merchant_name", a), ("date", b), ("total_cost", c), ("category", d), ("itemized_list", e)];
            && Pairs.Lookup(fs, "merchant_name") == Some(a) && Pairs.Lookup(fs, "date") == Some(b)
            && Pairs.Lookup(fs, "total_cost") == Some(c) && Pairs.Lookup(fs, "category") == Some(d)
            && Pairs.Lookup(fs, "itemized_list") == Some(e)
  {
    var fs := [("merchant_name", a), ("date", b), ("total_cost", c), ("category", d), ("itemized_list", e)];
    assert fs[0].0[0] == 'm' && fs[1].0[0] == 'd' && fs[2].0[0] == 't' && fs[3].0[0] == 'c' && fs[4].0[0] == 'i';
    Pairs.LookupAt(fs, 0, "merchant_name");
    Pairs.LookupAt(fs, 1, "date");
    Pairs.LookupAt(fs, 2, "total_cost");
    Pairs.LookupAt(fs, 3, "category");
    Pairs.LookupAt(fs, 4, "itemized_list");
  }

  lemma ReceiptDictFields(r: Receipt)
    ensures Get(ReceiptToDict(r), "merchant_name") == Some(JStr(r.merchantName))
    ensures Get(ReceiptToDict(r), "date") == Some(JStr(FormatDayFirst(r.date)))
    ensures Get(ReceiptToDict(r), "total_cost") == Some(JStr(r.totalCost))
    ensures Get(ReceiptToDict(r), "category") == Some(JStr(r.category.Name()))
    ensures Get(ReceiptToDict(r), "itemized_list") == Some(JArray(ItemsToJson(r.items)))
  {
    ReceiptKeysFound(JStr(r.merchantName), JStr(FormatDayFirst(r.date)), JStr(r.totalCost),
                     JStr(r.category.Name()), JArray(ItemsToJson(r.items)));
  }

  /** `to_dict` loses nothing: the dictionary of a receipt with a real date reads back as the receipt. */
  lemma ToDictRoundTrip(r: Receipt)
    requires r.date.Valid()
    ensures ReceiptFromDict(ReceiptToDict(r)) == Some(r)
  {
    var j := ReceiptToDict(r);
    ReceiptDictFields(r);
    DayFirstRoundTrip(r.date);
    CategoryFromName(r.category);
    ItemsRoundTrip(r.items);
    assert TextOf(Get(j, "merchant_name")) == Some(r.merchantName);
    assert TextOf(Get(j, "date")) == Some(FormatDayFirst(r.date));
    assert TextOf(Get(j, "total_cost")) == Some(r.totalCost);
    assert TextOf(Get(j, "category")) == Some(r.category.Name());
  }

  /** What `ReceiptEncoder.default` is handed. */
  datatype Encodable = EncReceipt(receipt: Receipt) | EncItem(item: ParsedItem) | EncEnum(member: Category) | EncOther(typeName: string)

  /** `ReceiptEncoder.default`: receipts and items become their dictionaries, enum members
      their value; anything else goes to the base encoder, which raises TypeError. */
  function EncoderDefault(o: Encodable): (r: Result<Json, Raised>)
    ensures r.Failure? <==> o.EncOther?
    ensures r.Failure? ==> r.error == Uncaught("TypeError")
    ensures o.EncReceipt? ==> r == Success(ReceiptToDict(o.receipt))
    ensures o.EncItem? ==> r == Success(ItemToDict(o.item))
    ensures o.EncEnum? ==> r == Success(JStr(o.member.Value()))
  {
    match o
    case EncReceipt(rc) => Success(ReceiptToDict(rc))
    case EncItem(it) => Success(ItemToDict(it))
    case EncEnum(c) => Success(JStr(c.Value()))
    case EncOther(_) => Failure(Uncaught("TypeError"))
  }

  /** An enum member encoded on its own shows its value, while `to_dict` shows the name. */
  lemma EnumEncodingDiffersFromDictCategory(c: Category)
    ensures EncoderDefault(EncEnum(c)) != Success(JStr(c.Name()))
  {
  }
}
