/**
 * The transaction-start request builder: `TransactionStart.getForApi` turns a
 * typed options record into the nested JSON body of the `transaction/start`
 * call, scaling amounts to minor units, inferring a VAT code per product and
 * renaming the house-number fields of the caller's address objects in place.
 */
module TransactionStartApi {
  import opened Outcomes
  import opened JsNumbers
  import opened JsValues

  /** A JavaScript Date, its time value in milliseconds since the epoch. */
  datatype Date = Date(epochMillis: int)

  /** The date-formatting library: `date` writes "dd-mm-yyyy", `dateTime`
   *  writes "dd-mm-yyyy hh:MM:ss". */
  datatype DateFormats = DateFormats(date: Date -> string, dateTime: Date -> string)

  datatype Product = Product(id: string, name: string, price: real, tax: real, qty: real, productType: string)

  /** The customer; its fields are the ones the builder reads. */
  datatype EndUser = EndUser(
    initials: Option<string>,
    lastName: Option<string>,
    gender: Option<string>,
    dob: Option<Date>,
    phoneNumber: Option<string>,
    emailAddress: Option<string>)

  /** The caller's request. The two addresses are the caller's own objects. */
  datatype TransactionStartOptions = TransactionStartOptions(
    amount: real,
    returnUrl: string,
    ipAddress: string,
    currency: Option<string>,
    expireDate: Option<Date>,
    exchangeUrl: Option<string>,
    paymentMethodId: Option<real>,
    bankId: Option<real>,
    terminalId: Option<string>,
    description: Option<string>,
    orderNumber: Option<string>,
    testMode: Option<bool>,
    language: Option<string>,
    extra1: Option<string>,
    extra2: Option<string>,
    extra3: Option<string>,
    invoiceDate: Option<Date>,
    deliveryDate: Option<Date>,
    products: Option<seq<Product>>,
    enduser: Option<EndUser>,
    address: Option<JsObject>,
    invoiceAddress: Option<JsObject>)
  {
    /** The caller's objects that the builder may edit. */
    function AddressObjects(): set<JsObject>
    {
      Objects(address, invoiceAddress)
    }
  }

  function Objects(a: Option<JsObject>, b: Option<JsObject>): set<JsObject>
  {
    (if a.Some? then {a.value} else {}) + (if b.Some? then {b.value} else {})
  }

  /** The fields of an optional object; none when it is absent. */
  function Fields(a: Option<JsObject>): map<string, Json>
    reads Objects(a, None)
  {
    if a.Some? then a.value.fields else map[]
  }

  /** An optional string is truthy when it is present and not empty. */
  predicate Given(s: Option<string>) { s.Some? && s.value != "" }

  /** An optional number is truthy when it is present and not zero. */
  predicate GivenNumber(n: Option<real>) { n.Some? && n.value != 0.0 }

  // ---------------------------------------------------------------------------
  // VAT code inference

  /** The reference rates with their codes, in the order `Object.keys` lists
   *  the integer keys of `{ 0: "N", 9: "L", 21: "H" }`. */
  const VatCodes: seq<(real, string)> := [(0.0, "N"), (9.0, "L"), (21.0, "H")]

  function Distance(a: real, b: real): real { if a >= b then a - b else b - a }

  /** One step of the reduce: the current entry replaces the previous one only
   *  when it is strictly nearer to the rate. */
  function Nearer(prev: (real, string), curr: (real, string), rate: real): (r: (real, string))
    ensures r == prev || r == curr
    ensures Distance(r.0, rate) <= Distance(prev.0, rate) && Distance(r.0, rate) <= Distance(curr.0, rate)
    ensures Distance(curr.0, rate) == Distance(prev.0, rate) ==> r == prev
  {
    if Distance(curr.0, rate) < Distance(prev.0, rate) then curr else prev
  }

  /** `entries.reduce(Nearer)` with `prev` the accumulated entry. */
  function ReduceNearest(prev: (real, string), rest: seq<(real, string)>, rate: real): (r: (real, string))
    ensures r == prev || r in rest
    ensures Distance(r.0, rate) <= Distance(prev.0, rate)
    ensures forall i :: 0 <= i < |rest| ==> Distance(r.0, rate) <= Distance(rest[i].0, rate)
    decreases |rest|
  {
    if rest == [] then prev else ReduceNearest(Nearer(prev, rest[0], rate), rest[1..], rate)
  }

  /** Entry `idx` of `s` is nearest to `rate`, and every entry before it is strictly farther. */
  ghost predicate IsFirstNearest(s: seq<(real, string)>, idx: int, rate: real)
  {
    && 0 <= idx < |s|
    && (forall j :: 0 <= j < |s| ==> Distance(s[idx].0, rate) <= Distance(s[j].0, rate))
    && (forall j :: 0 <= j < idx ==> Distance(s[idx].0, rate) < Distance(s[j].0, rate))
  }

  /** One step of the reduce keeps the first nearest entry: if the entry it
   *  carries forward is the first nearest of what remains, the entry it ends
   *  with is the first nearest of the whole. */
  lemma FirstNearestStep(prev: (real, string), rest: seq<(real, string)>, rate: real, idx': int)
    requires |rest| > 0
    requires IsFirstNearest([Nearer(prev, rest[0], rate)] + rest[1..], idx', rate)
    ensures var idx := if idx' > 0 then idx' + 1 else if Nearer(prev, rest[0], rate) == prev then 0 else 1;
            && IsFirstNearest([prev] + rest, idx, rate)
            && ([prev] + rest)[idx] == ([Nearer(prev, rest[0], rate)] + rest[1..])[idx']
  {
    var c := Nearer(prev, rest[0], rate);
    var s := [prev] + rest;
    var s' := [c] + rest[1..];
    var idx := if idx' > 0 then idx' + 1 else if c == prev then 0 else 1;
    assert s[0] == prev && s[1] == rest[0] && s'[0] == c;
    assert Distance(c.0, rate) <= Distance(prev.0, rate) && Distance(c.0, rate) <= Distance(rest[0].0, rate);
    assert c != prev ==> c == rest[0] && Distance(rest[0].0, rate) < Distance(prev.0, rate);
    assert s[idx] == s'[idx'];
    forall j | 0 <= j < |s|
      ensures Distance(s[idx].0, rate) <= Distance(s[j].0, rate)
    {
      if j >= 2 {
        assert s[j] == s'[j - 1];
      } else {
        assert Distance(s'[idx'].0, rate) <= Distance(s'[0].0, rate);
      }
    }
    forall j | 0 <= j < idx
      ensures Distance(s[idx].0, rate) < Distance(s[j].0, rate)
    {
      if j >= 2 {
        assert s[j] == s'[j - 1];
      } else if idx' > 0 {
        assert Distance(s'[idx'].0, rate) < Distance(s'[0].0, rate);
      }
    }
  }

  /** The reduce picks the first of the nearest entries. */
  lemma {:induction false} ReduceNearestIsFirstNearest(prev: (real, string), rest: seq<(real, string)>, rate: real)
    ensures exists idx :: IsFirstNearest([prev] + rest, idx, rate) && ([prev] + rest)[idx] == ReduceNearest(prev, rest, rate)
    decreases |rest|
  {
    var s := [prev] + rest;
    if rest == [] {
      assert IsFirstNearest(s, 0, rate);
    } else {
      var c := Nearer(prev, rest[0], rate);
      ReduceNearestIsFirstNearest(c, rest[1..], rate);
      var idx' :| IsFirstNearest([c] + rest[1..], idx', rate) && ([c] + rest[1..])[idx'] == ReduceNearest(c, rest[1..], rate);
      FirstNearestStep(prev, rest, rate, idx');
      var idx := if idx' > 0 then idx' + 1 else if c == prev then 0 else 1;
      assert IsFirstNearest(s, idx, rate) && s[idx] == ReduceNearest(prev, rest, rate);
    }
  }

  /** The implied rate, in percent, of a gross price that includes a VAT amount. */
  function VatRate(priceIncl: real, vatAmount: real): (rate: real)
    requires priceIncl != vatAmount
    ensures rate * (priceIncl - vatAmount) == vatAmount * 100.0
    ensures 0.0 < vatAmount < priceIncl ==> rate > 0.0
  {
    vatAmount / (priceIncl - vatAmount) * 100.0
  }

  /** `calculateVatCode(priceIncl, vatAmount)`. A price equal to its VAT amount
   *  gives JavaScript the rate +Infinity or -Infinity; every distance is then
   *  Infinity, and the reduce keeps its first entry. */
  function CalculateVatCode(priceIncl: real, vatAmount: real): (code: string)
    ensures code == "N" || code == "L" || code == "H"
    ensures vatAmount == 0.0 || priceIncl == 0.0 || priceIncl == vatAmount ==> code == "N"
  {
    var priceExcl := priceIncl - vatAmount;
    if vatAmount == 0.0 || priceIncl == 0.0 then VatCodes[0].1
    else if priceExcl == 0.0 then VatCodes[0].1
    else
      var rate := VatRate(priceIncl, vatAmount);
      ReduceOverVatCodes(rate);
      ReduceNearest(VatCodes[0], VatCodes[1..], rate).1
  }

  /** The reduce over the three reference rates, unfolded. */
  lemma ReduceOverVatCodes(rate: real)
    ensures ReduceNearest(VatCodes[0], VatCodes[1..], rate)
         == Nearer(Nearer(VatCodes[0], VatCodes[1], rate), VatCodes[2], rate)
  {
    var first := Nearer(VatCodes[0], VatCodes[1], rate);
    assert VatCodes[1..][1..] == [VatCodes[2]];
    assert ReduceNearest(first, [VatCodes[2]], rate) == ReduceNearest(Nearer(first, VatCodes[2], rate), [], rate);
  }

  /** The code is that of the first nearest reference rate. */
  lemma VatCodeIsNearest(priceIncl: real, vatAmount: real)
    requires vatAmount != 0.0 && priceIncl != 0.0 && priceIncl != vatAmount
    ensures exists idx :: IsFirstNearest(VatCodes, idx, VatRate(priceIncl, vatAmount))
                          && VatCodes[idx].1 == CalculateVatCode(priceIncl, vatAmount)
  {
    var rate := VatRate(priceIncl, vatAmount);
    ReduceNearestIsFirstNearest(VatCodes[0], VatCodes[1..], rate);
    assert [VatCodes[0]] + VatCodes[1..] == VatCodes;
  }

  /** The rate bands: up to 4.5 is "N", above 4.5 up to 15 is "L", above 15 is
   *  "H"; a rate exactly between two references gets the lower one. */
  lemma VatCodeBands(priceIncl: real, vatAmount: real)
    requires vatAmount != 0.0 && priceIncl != 0.0 && priceIncl != vatAmount
    ensures var rate := VatRate(priceIncl, vatAmount);
            && (CalculateVatCode(priceIncl, vatAmount) == "N" <==> rate <= 4.5)
            && (CalculateVatCode(priceIncl, vatAmount) == "L" <==> 4.5 < rate <= 15.0)
            && (CalculateVatCode(priceIncl, vatAmount) == "H" <==> 15.0 < rate)
  {
    ReduceOverVatCodes(VatRate(priceIncl, vatAmount));
  }

  lemma VatCodeExamples()
    ensures CalculateVatCode(100.0, 21.0) == "H"
    ensures CalculateVatCode(100.0, 9.0) == "L"
    ensures CalculateVatCode(100.0, 0.0) == "N"
    ensures CalculateVatCode(0.0, 5.0) == "N"
    ensures CalculateVatCode(115.0, 15.0) == "L"   // rate 15, halfway between 9 and 21
    ensures CalculateVatCode(104.5, 4.5) == "N"    // rate 4.5, halfway between 0 and 9
  {
    VatCodeBands(100.0, 21.0);
    VatCodeBands(100.0, 9.0);
    VatCodeBands(115.0, 15.0);
    VatCodeBands(104.5, 4.5);
  }

  // ---------------------------------------------------------------------------
  // Order lines

  /** One element of `saleData.orderData`. */
  function OrderLine(p: Product): (line: map<string, Json>)
    ensures line.Keys == {"productId", "description", "price", "quantity", "vatCode", "productType"}
    ensures line["productId"] == Str(p.id) && line["description"] == Str(p.name)
    ensures line["quantity"] == Num(p.qty) && line["productType"] == Str(p.productType)
    ensures "price" in line && line["price"] == Num(Round(p.price * 100.0) as real)
    ensures line["price"].n - 0.5 <= p.price * 100.0 < line["price"].n + 0.5
    ensures line["vatCode"] == Str(CalculateVatCode(p.price, p.tax))
  {
    map[
      "productId" := Str(p.id),
      "description" := Str(p.name),
      "price" := Num(Round(p.price * 100.0) as real),
      "quantity" := Num(p.qty),
      "vatCode" := Str(CalculateVatCode(p.price, p.tax)),
      "productType" := Str(p.productType)
    ]
  }

  /** `products.map(...)`: one order line per product, in the same order. */
  function OrderData(products: seq<Product>): (lines: seq<Json>)
    ensures |lines| == |products|
    ensures forall i :: 0 <= i < |products| ==> lines[i] == Obj(OrderLine(products[i]))
  {
    if products == [] then []
    else
      var rest := OrderData(products[1..]);
      assert forall i :: 1 <= i < |products| ==> products[i] == products[1..][i - 1];
      [Obj(OrderLine(products[0]))] + rest
  }

  // ---------------------------------------------------------------------------
  // The request body, field by field

  /** `if (s) m[k] = s`. */
  function PutString(m: map<string, Json>, k: string, s: Option<string>): (r: map<string, Json>)
    ensures r.Keys == if Given(s) then m.Keys + {k} else m.Keys
    ensures Given(s) ==> r[k] == Str(s.value)
    ensures forall k' :: k' in m && k' != k ==> r[k'] == m[k']
  {
    if Given(s) then m[k := Str(s.value)] else m
  }

  /** `if (d) m[k] = format(d)`. */
  function PutDate(m: map<string, Json>, k: string, d: Option<Date>, format: Date -> string): (r: map<string, Json>)
    ensures r.Keys == if d.Some? then m.Keys + {k} else m.Keys
    ensures d.Some? ==> r[k] == Str(format(d.value))
    ensures forall k' :: k' in m && k' != k ==> r[k'] == m[k']
  {
    if d.Some? then m[k := Str(format(d.value))] else m
  }

  /** Lines 137-144: amount, return URL, IP address and the payment options. */
  function TopLevelFields(o: TransactionStartOptions): (r: map<string, Json>)
    ensures {"amount", "finishUrl", "ipAddress"} <= r.Keys
    ensures r.Keys <= {"amount", "finishUrl", "ipAddress", "paymentOptionId", "paymentOptionSubId", "testMode"}
  {
    var m := map["amount" := Num(Round(o.amount * 100.0) as real), "finishUrl" := Str(o.returnUrl), "ipAddress" := Str(o.ipAddress)];
    var m := if GivenNumber(o.paymentMethodId) then m["paymentOptionId" := Num(o.paymentMethodId.value)] else m;
    var m := if GivenNumber(o.bankId) then m["paymentOptionSubId" := Num(o.bankId.value)] else m;
    var m := if Given(o.terminalId) then m["paymentOptionSubId" := Str(o.terminalId.value)] else m;
    if o.testMode == Some(true) then m["testMode" := Num(1.0)] else m
  }

  /** Lines 146-151: `data.transaction`. */
  function TransactionObject(o: TransactionStartOptions, formats: DateFormats): (r: map<string, Json>)
    ensures r.Keys <= {"currency", "expireDate", "orderExchangeUrl", "description", "orderNumber"}
  {
    var t := PutString(map[], "currency", o.currency);
    var t := PutDate(t, "expireDate", o.expireDate, formats.dateTime);
    var t := PutString(t, "orderExchangeUrl", o.exchangeUrl);
    var t := PutString(t, "description", o.description);
    PutString(t, "orderNumber", o.orderNumber)
  }

  /** Lines 153-157: `data.statsData`. */
  function StatsDataObject(o: TransactionStartOptions): (r: map<string, Json>)
    ensures "object" in r && r["object"] == Str("nodejssdk")
    ensures r.Keys <= {"extra1", "extra2", "extra3", "object"}
  {
    var s := PutString(map[], "extra1", o.extra1);
    var s := PutString(s, "extra2", o.extra2);
    var s := PutString(s, "extra3", o.extra3);
    s["object" := Str("nodejssdk")]
  }

  /** Lines 163-172: the customer's fields of `data.enduser`. */
  function CustomerFields(o: TransactionStartOptions, formats: DateFormats): (r: map<string, Json>)
    ensures r.Keys <= {"language", "initials", "lastName", "gender", "dob", "phoneNumber", "emailAddress"}
    ensures o.enduser.None? ==> r.Keys <= {"language"}
  {
    var e := PutString(map[], "language", o.language);
    if o.enduser.None? then e else
      var u := o.enduser.value;
      var e := PutString(e, "initials", u.initials);
      var e := PutString(e, "lastName", u.lastName);
      var e := PutString(e, "gender", u.gender);
      var e := PutDate(e, "dob", u.dob, formats.date);
      var e := PutString(e, "phoneNumber", u.phoneNumber);
      PutString(e, "emailAddress", u.emailAddress)
  }

  /** `data.enduser`: the customer's fields and the two address objects themselves (lines 174, 181). */
  function EndUserObject(o: TransactionStartOptions, formats: DateFormats): (r: map<string, Json>)
    ensures r.Keys == CustomerFields(o, formats).Keys
                      + (if o.address.Some? then {"address"} else {})
                      + (if o.invoiceAddress.Some? then {"invoiceAddress"} else {})
  {
    var e := CustomerFields(o, formats);
    var e := if o.address.Some? then e["address" := Ref(o.address.value)] else e;
    if o.invoiceAddress.Some? then e["invoiceAddress" := Ref(o.invoiceAddress.value)] else e
  }

  /** Lines 190-204: `data.saleData`. */
  function SaleDataObject(o: TransactionStartOptions, formats: DateFormats): (r: map<string, Json>)
    ensures r.Keys <= {"invoiceDate", "deliveryDate", "orderData"}
    ensures "orderData" in r <==> o.products.Some?
  {
    var s := PutDate(map[], "invoiceDate", o.invoiceDate, formats.date);
    var s := PutDate(s, "deliveryDate", o.deliveryDate, formats.date);
    if o.products.Some? then s["orderData" := Arr(OrderData(o.products.value))] else s
  }

  /** The body `getForApi` returns. */
  function RequestBody(o: TransactionStartOptions, formats: DateFormats): (r: map<string, Json>)
    ensures r.Keys == TopLevelFields(o).Keys + {"transaction", "statsData", "enduser", "saleData"}
  {
    TopLevelFields(o)[
      "transaction" := Obj(TransactionObject(o, formats))][
      "statsData" := Obj(StatsDataObject(o))][
      "enduser" := Obj(EndUserObject(o, formats))][
      "saleData" := Obj(SaleDataObject(o, formats))]
  }

  // ---------------------------------------------------------------------------
  // What the request body holds

  /** The four sub-objects the builder always creates. */
  const SubObjectKeys: set<string> := {"transaction", "statsData", "enduser", "saleData"}

  /** The top-level keys present for these options besides the amount, the
   *  two URLs and the sub-objects. */
  function OptionalKeys(o: TransactionStartOptions): set<string>
  {
    (if GivenNumber(o.paymentMethodId) then {"paymentOptionId"} else {})
    + (if GivenNumber(o.bankId) || Given(o.terminalId) then {"paymentOptionSubId"} else {})
    + (if o.testMode == Some(true) then {"testMode"} else {})
  }

  lemma TopLevelFieldsKeys(o: TransactionStartOptions)
    ensures TopLevelFields(o).Keys == {"amount", "finishUrl", "ipAddress"} + OptionalKeys(o)
  {
    var m := map["amount" := Num(Round(o.amount * 100.0) as real), "finishUrl" := Str(o.returnUrl), "ipAddress" := Str(o.ipAddress)];
    var m1 := if GivenNumber(o.paymentMethodId) then m["paymentOptionId" := Num(o.paymentMethodId.value)] else m;
    var m2 := if GivenNumber(o.bankId) then m1["paymentOptionSubId" := Num(o.bankId.value)] else m1;
    var m3 := if Given(o.terminalId) then m2["paymentOptionSubId" := Str(o.terminalId.value)] else m2;
    assert m2.Keys == m.Keys + (if GivenNumber(o.paymentMethodId) then {"paymentOptionId"} else {})
                     + (if GivenNumber(o.bankId) then {"paymentOptionSubId"} else {});
    assert m3.Keys == m.Keys + (if GivenNumber(o.paymentMethodId) then {"paymentOptionId"} else {})
                     + (if GivenNumber(o.bankId) || Given(o.terminalId) then {"paymentOptionSubId"} else {});
  }

  lemma TopLevelFieldsLeaveSubObjects(o: TransactionStartOptions)
    ensures TopLevelFields(o).Keys !! SubObjectKeys
  {
    TopLevelFieldsKeys(o);
    assert "transaction"[0] == 't' && "statsData"[0] == 's' && "enduser"[0] == 'e' && "saleData"[0] == 's';
    assert "amount"[0] == 'a' && "finishUrl"[0] == 'f' && "ipAddress"[0] == 'i';
    assert "paymentOptionId"[0] == 'p' && "paymentOptionSubId"[0] == 'p';
    assert "testMode"[0] == 't' && |"testMode"| != |"transaction"|;
  }

  lemma TopLevelFieldsValues(o: TransactionStartOptions)
    ensures var t := TopLevelFields(o);
            && t["amount"] == Num(Round(o.amount * 100.0) as real)
            && t["finishUrl"] == Str(o.returnUrl)
            && t["ipAddress"] == Str(o.ipAddress)
            && (GivenNumber(o.paymentMethodId) ==> t["paymentOptionId"] == Num(o.paymentMethodId.value))
            && (Given(o.terminalId) ==> t["paymentOptionSubId"] == Str(o.terminalId.value))
            && (!Given(o.terminalId) && GivenNumber(o.bankId) ==> t["paymentOptionSubId"] == Num(o.bankId.value))
            && ("paymentOptionId" in t <==> GivenNumber(o.paymentMethodId))
            && ("paymentOptionSubId" in t <==> Given(o.terminalId) || GivenNumber(o.bankId))
            && ("testMode" in t <==> o.testMode == Some(true))
            && ("testMode" in t ==> t["testMode"] == Num(1.0))
  {
    assert |"paymentOptionId"| == 15 && |"paymentOptionSubId"| == 18 && |"testMode"| == 8;
    assert "amount"[0] == 'a' && "finishUrl"[0] == 'f' && "ipAddress"[0] == 'i';
  }

  /** The sub-objects are added after the top-level fields and overwrite none of them. */
  lemma RequestBodyExtendsTopLevel(o: TransactionStartOptions, formats: DateFormats)
    ensures RequestBody(o, formats).Keys == TopLevelFields(o).Keys + SubObjectKeys
    ensures forall k :: k in TopLevelFields(o) ==> RequestBody(o, formats)[k] == TopLevelFields(o)[k]
  {
    TopLevelFieldsLeaveSubObjects(o);
  }

  /** A key that is not a sub-object's is in the body exactly when it is
   *  among the top-level fields, with the same value. */
  lemma RequestBodyAgreesOn(o: TransactionStartOptions, formats: DateFormats, k: string)
    requires k !in SubObjectKeys
    ensures k in RequestBody(o, formats) <==> k in TopLevelFields(o)
    ensures k in TopLevelFields(o) ==> RequestBody(o, formats)[k] == TopLevelFields(o)[k]
  {
  }

  lemma PaymentKeysAreTopLevel()
    ensures "paymentOptionId" !in SubObjectKeys && "paymentOptionSubId" !in SubObjectKeys && "testMode" !in SubObjectKeys
  {
    assert "paymentOptionId"[0] == 'p' && "paymentOptionSubId"[0] == 'p' && "testMode"[0] == 't';
    assert "transaction"[0] == 't' && "statsData"[0] == 's' && "enduser"[0] == 'e' && "saleData"[0] == 's';
    assert |"testMode"| != |"transaction"|;
  }

  /** Nothing is placed at top level but the amount, the return URL, the IP
   *  address, the optional payment keys and the four sub-objects; the amount
   *  is in minor units. */
  lemma RequestBodyTopLevel(o: TransactionStartOptions, formats: DateFormats)
    ensures var body := RequestBody(o, formats);
            && body.Keys == {"amount", "finishUrl", "ipAddress"} + OptionalKeys(o) + SubObjectKeys
            && body["amount"] == Num(Round(o.amount * 100.0) as real)
            && body["finishUrl"] == Str(o.returnUrl)
            && body["ipAddress"] == Str(o.ipAddress)
  {
    TopLevelFieldsKeys(o);
    TopLevelFieldsValues(o);
    RequestBodyExtendsTopLevel(o, formats);
  }

  /** `paymentOptionSubId` comes from the terminal when there is one, else
   *  from the bank; `testMode` is 1 exactly when test mode is on. */
  lemma RequestBodyPaymentOptions(o: TransactionStartOptions, formats: DateFormats)
    ensures var body := RequestBody(o, formats);
            && ("paymentOptionId" in body <==> GivenNumber(o.paymentMethodId))
            && (GivenNumber(o.paymentMethodId) ==> body["paymentOptionId"] == Num(o.paymentMethodId.value))
            && ("paymentOptionSubId" in body <==> Given(o.terminalId) || GivenNumber(o.bankId))
            && (Given(o.terminalId) ==> body["paymentOptionSubId"] == Str(o.terminalId.value))
            && (!Given(o.terminalId) && GivenNumber(o.bankId) ==> body["paymentOptionSubId"] == Num(o.bankId.value))
            && ("testMode" in body <==> o.testMode == Some(true))
            && ("testMode" in body ==> body["testMode"] == Num(1.0))
  {
    TopLevelFieldsValues(o);
    PaymentKeysAreTopLevel();
    RequestBodyAgreesOn(o, formats, "paymentOptionId");
    RequestBodyAgreesOn(o, formats, "paymentOptionSubId");
    RequestBodyAgreesOn(o, formats, "testMode");
  }

  /** `transaction` in the body is the object lines 146-151 fill. */
  lemma RequestBodyTransactionObject(o: TransactionStartOptions, formats: DateFormats)
    ensures RequestBody(o, formats)["transaction"] == Obj(TransactionObject(o, formats))
  {
    assert |"transaction"| == 11 && |"statsData"| == 9 && |"enduser"| == 7 && |"saleData"| == 8;
  }

  /** `statsData` in the body is the object lines 153-157 fill. */
  lemma RequestBodyStatsDataObject(o: TransactionStartOptions, formats: DateFormats)
    ensures RequestBody(o, formats)["statsData"] == Obj(StatsDataObject(o))
  {
    assert |"statsData"| == 9 && |"enduser"| == 7 && |"saleData"| == 8;
  }

  /** `transaction` is always there; each of its keys is there exactly when
   *  its source is truthy. */
  lemma RequestBodyTransaction(o: TransactionStartOptions, formats: DateFormats)
    ensures var body := RequestBody(o, formats);
            && body["transaction"].Obj?
            && var t := body["transaction"].members;
            && t.Keys <= {"currency", "expireDate", "orderExchangeUrl", "description", "orderNumber"}
            && ("currency" in t <==> Given(o.currency))
            && ("expireDate" in t <==> o.expireDate.Some?)
            && ("orderExchangeUrl" in t <==> Given(o.exchangeUrl))
            && ("description" in t <==> Given(o.description))
            && ("orderNumber" in t <==> Given(o.orderNumber))
            && (Given(o.currency) ==> t["currency"] == Str(o.currency.value))
            && (o.expireDate.Some? ==> t["expireDate"] == Str(formats.dateTime(o.expireDate.value)))
            && (Given(o.exchangeUrl) ==> t["orderExchangeUrl"] == Str(o.exchangeUrl.value))
            && (Given(o.description) ==> t["description"] == Str(o.description.value))
            && (Given(o.orderNumber) ==> t["orderNumber"] == Str(o.orderNumber.value))
  {
    RequestBodyTransactionObject(o, formats);
    TransactionKeysDistinct();
  }

  /** The keys of `transaction` are pairwise distinct. */
  lemma TransactionKeysDistinct()
    ensures "currency" != "expireDate" && "currency" != "orderExchangeUrl" && "currency" != "description"
    ensures "currency" != "orderNumber" && "expireDate" != "orderExchangeUrl" && "expireDate" != "description"
    ensures "expireDate" != "orderNumber" && "orderExchangeUrl" != "description" && "description" != "orderNumber"
    ensures "orderExchangeUrl" != "orderNumber"
  {
    assert "currency"[0] == 'c' && "expireDate"[0] == 'e' && "orderExchangeUrl"[0] == 'o';
    assert "description"[0] == 'd' && "orderNumber"[0] == 'o';
    assert |"orderExchangeUrl"| != |"orderNumber"|;
  }

  /** `statsData` is always there and always carries the SDK marker, so the
   *  guard that would delete it when empty never fires. */
  lemma RequestBodyStatsData(o: TransactionStartOptions, formats: DateFormats)
    ensures var body := RequestBody(o, formats);
            && body["statsData"].Obj?
            && var s := body["statsData"].members;
            && |s| > 0
            && s.Keys <= {"extra1", "extra2", "extra3", "object"}
            && "object" in s && s["object"] == Str("nodejssdk")
            && ("extra1" in s <==> Given(o.extra1))
            && ("extra2" in s <==> Given(o.extra2))
            && ("extra3" in s <==> Given(o.extra3))
            && (Given(o.extra1) ==> s["extra1"] == Str(o.extra1.value))
            && (Given(o.extra2) ==> s["extra2"] == Str(o.extra2.value))
            && (Given(o.extra3) ==> s["extra3"] == Str(o.extra3.value))
  {
    RequestBodyStatsDataObject(o, formats);
    assert "extra1"[5] == '1' && "extra2"[5] == '2' && "extra3"[5] == '3' && "object"[0] == 'o';
  }

  /** The keys of the customer's fields, one per truthy source. */
  lemma CustomerFieldsKeys(o: TransactionStartOptions, formats: DateFormats)
    ensures CustomerFields(o, formats).Keys
         == (if Given(o.language) then {"language"} else {})
            + (if o.enduser.None? then {} else
                 var u := o.enduser.value;
                 (if Given(u.initials) then {"initials"} else {})
                 + (if Given(u.lastName) then {"lastName"} else {})
                 + (if Given(u.gender) then {"gender"} else {})
                 + (if u.dob.Some? then {"dob"} else {})
                 + (if Given(u.phoneNumber) then {"phoneNumber"} else {})
                 + (if Given(u.emailAddress) then {"emailAddress"} else {}))
  {
  }

  /** The seven customer keys are distinct. */
  lemma CustomerKeysDistinct()
    ensures "language" != "initials" && "language" != "lastName" && "language" != "gender"
    ensures "language" != "dob" && "language" != "phoneNumber" && "language" != "emailAddress"
    ensures "initials" != "lastName" && "initials" != "gender" && "initials" != "dob"
    ensures "initials" != "phoneNumber" && "initials" != "emailAddress" && "lastName" != "gender"
    ensures "lastName" != "dob" && "lastName" != "phoneNumber" && "lastName" != "emailAddress"
    ensures "gender" != "dob" && "gender" != "phoneNumber" && "gender" != "emailAddress"
    ensures "dob" != "phoneNumber" && "dob" != "emailAddress" && "phoneNumber" != "emailAddress"
  {
    assert "language"[2] != "lastName"[2];
    assert "language"[0] == 'l' && "initials"[0] == 'i' && "lastName"[0] == 'l' && "gender"[0] == 'g';
    assert "dob"[0] == 'd' && "phoneNumber"[0] == 'p' && "emailAddress"[0] == 'e';
  }

  /** The customer's fields: each is there exactly when its source is truthy. */
  lemma CustomerFieldsShape(o: TransactionStartOptions, formats: DateFormats)
    ensures var e := CustomerFields(o, formats);
            && e.Keys <= {"language", "initials", "lastName", "gender", "dob", "phoneNumber", "emailAddress"}
            && ("language" in e <==> Given(o.language))
            && ("initials" in e <==> o.enduser.Some? && Given(o.enduser.value.initials))
            && ("lastName" in e <==> o.enduser.Some? && Given(o.enduser.value.lastName))
            && ("gender" in e <==> o.enduser.Some? && Given(o.enduser.value.gender))
            && ("dob" in e <==> o.enduser.Some? && o.enduser.value.dob.Some?)
            && ("phoneNumber" in e <==> o.enduser.Some? && Given(o.enduser.value.phoneNumber))
            && ("emailAddress" in e <==> o.enduser.Some? && Given(o.enduser.value.emailAddress))
  {
    CustomerFieldsKeys(o, formats);
    CustomerKeysDistinct();
  }

  /** The language and the customer's fields keep their values; the date of
   *  birth is formatted as a date. */
  lemma CustomerFieldValues(o: TransactionStartOptions, formats: DateFormats)
    ensures var e := CustomerFields(o, formats);
            && (Given(o.language) ==> e["language"] == Str(o.language.value))
            && (o.enduser.Some? && Given(o.enduser.value.initials) ==> e["initials"] == Str(o.enduser.value.initials.value))
            && (o.enduser.Some? && Given(o.enduser.value.lastName) ==> e["lastName"] == Str(o.enduser.value.lastName.value))
            && (o.enduser.Some? && Given(o.enduser.value.gender) ==> e["gender"] == Str(o.enduser.value.gender.value))
            && (o.enduser.Some? && o.enduser.value.dob.Some? ==> e["dob"] == Str(formats.date(o.enduser.value.dob.value)))
            && (o.enduser.Some? && Given(o.enduser.value.phoneNumber) ==> e["phoneNumber"] == Str(o.enduser.value.phoneNumber.value))
            && (o.enduser.Some? && Given(o.enduser.value.emailAddress) ==> e["emailAddress"] == Str(o.enduser.value.emailAddress.value))
  {
    CustomerKeysDistinct();
  }

  /** `enduser` is the customer's truthy fields and the caller's own address
   *  objects by reference. */
  lemma EndUserObjectShape(o: TransactionStartOptions, formats: DateFormats)
    ensures var e := EndUserObject(o, formats);
            && e.Keys == CustomerFields(o, formats).Keys
                         + (if o.address.Some? then {"address"} else {})
                         + (if o.invoiceAddress.Some? then {"invoiceAddress"} else {})
            && (forall k :: k in CustomerFields(o, formats) ==> e[k] == CustomerFields(o, formats)[k])
            && (o.address.Some? ==> e["address"] == Ref(o.address.value))
            && (o.invoiceAddress.Some? ==> e["invoiceAddress"] == Ref(o.invoiceAddress.value))
  {
    CustomerFieldsLeaveAddresses(o, formats);
  }

  lemma CustomerFieldsLeaveAddresses(o: TransactionStartOptions, formats: DateFormats)
    ensures "address" !in CustomerFields(o, formats) && "invoiceAddress" !in CustomerFields(o, formats)
  {
    CustomerFieldsShape(o, formats);
    AddressKeysAreNotCustomerKeys();
  }

  lemma AddressKeysAreNotCustomerKeys()
    ensures "address" !in {"language", "initials", "lastName", "gender", "dob", "phoneNumber", "emailAddress"}
    ensures "invoiceAddress" !in {"language", "initials", "lastName", "gender", "dob", "phoneNumber", "emailAddress"}
  {
    assert |"invoiceAddress"| == 14 && |"initials"| == 8;
    assert "address"[0] == 'a' && "invoiceAddress"[0] == 'i';
  }

  /** `enduser` is always there. */
  lemma RequestBodyEndUser(o: TransactionStartOptions, formats: DateFormats)
    ensures RequestBody(o, formats)["enduser"] == Obj(EndUserObject(o, formats))
  {
    assert "enduser"[0] == 'e';
  }

  /** `saleData` is always there; `orderData` is there exactly when products
   *  are, one line per product in the same order. */
  lemma RequestBodySaleData(o: TransactionStartOptions, formats: DateFormats)
    ensures var body := RequestBody(o, formats);
            && body["saleData"].Obj?
            && var s := body["saleData"].members;
            && s.Keys <= {"invoiceDate", "deliveryDate", "orderData"}
            && ("invoiceDate" in s <==> o.invoiceDate.Some?)
            && ("deliveryDate" in s <==> o.deliveryDate.Some?)
            && (o.invoiceDate.Some? ==> s["invoiceDate"] == Str(formats.date(o.invoiceDate.value)))
            && (o.deliveryDate.Some? ==> s["deliveryDate"] == Str(formats.date(o.deliveryDate.value)))
            && ("orderData" in s <==> o.products.Some?)
            && (o.products.Some? ==> s["orderData"] == Arr(OrderData(o.products.value)))
  {
  }

  // ---------------------------------------------------------------------------
  // The in-place renaming of the caller's address objects

  const NumberKeys: set<string> := {"houseNumber", "houseNumberExtension", "streetNumber", "streetNumberExtension"}

  /** Lines 175-178 on the shipping address: both house-number fields become
   *  street-number fields (an absent field is copied as undefined). */
  function ShippingRenamed(m: map<string, Json>): (r: map<string, Json>)
    ensures r.Keys == m.Keys - {"houseNumber", "houseNumberExtension"} + {"streetNumber", "streetNumberExtension"}
    ensures r["streetNumber"] == Get(m, "houseNumber")
    ensures r["streetNumberExtension"] == Get(m, "houseNumberExtension")
    ensures forall k :: k in m && k !in NumberKeys ==> r[k] == m[k]
  {
    var m := m["streetNumber" := Get(m, "houseNumber")] - {"houseNumber"};
    m["streetNumberExtension" := Get(m, "houseNumberExtension")] - {"houseNumberExtension"}
  }

  /** Lines 183-186 on the invoice address: the same copies, but only
   *  `houseNumber` is deleted from it. */
  function InvoiceRenamed(m: map<string, Json>): (r: map<string, Json>)
    ensures r.Keys == m.Keys - {"houseNumber"} + {"streetNumber", "streetNumberExtension"}
    ensures r["streetNumber"] == Get(m, "houseNumber")
    ensures r["streetNumberExtension"] == Get(m, "houseNumberExtension")
    ensures "houseNumberExtension" in m ==> r["houseNumberExtension"] == m["houseNumberExtension"]
    ensures forall k :: k in m && k !in NumberKeys ==> r[k] == m[k]
  {
    var m := m["streetNumber" := Get(m, "houseNumber")] - {"houseNumber"};
    m["streetNumberExtension" := Get(m, "houseNumberExtension")]
  }

  /** An address given as `{houseNumber: "12", houseNumberExtension: "A"}` ends
   *  up as `{streetNumber: "12", streetNumberExtension: "A"}`. */
  lemma ShippingRenamedExample()
    ensures ShippingRenamed(map["houseNumber" := Str("12"), "houseNumberExtension" := Str("A")])
         == map["streetNumber" := Str("12"), "streetNumberExtension" := Str("A")]
  {
    var r := ShippingRenamed(map["houseNumber" := Str("12"), "houseNumberExtension" := Str("A")]);
    assert r.Keys == {"streetNumber", "streetNumberExtension"};
  }

  /** Renaming a second time, as a second `getForApi` on the same options does,
   *  replaces the street number by undefined: the builder is not idempotent. */
  lemma ShippingRenamedTwiceLosesNumber(m: map<string, Json>)
    requires Get(m, "houseNumber") != Undefined
    ensures ShippingRenamed(m)["streetNumber"] == Get(m, "houseNumber")
    ensures ShippingRenamed(ShippingRenamed(m))["streetNumber"] == Undefined
    ensures ShippingRenamed(ShippingRenamed(m)) != ShippingRenamed(m)
  {
    var once := ShippingRenamed(m);
    assert "houseNumber" !in once;
    assert ShippingRenamed(once)["streetNumber"] != once["streetNumber"];
  }

  /** When the invoice address is the shipping address object itself, the
   *  second renaming copies the fields the first one deleted: both street
   *  fields end up undefined and both house fields are gone. */
  lemma SharedAddressLosesNumbers(m: map<string, Json>)
    ensures var r := InvoiceRenamed(ShippingRenamed(m)) - {"houseNumberExtension"};
            && r.Keys == m.Keys - {"houseNumber", "houseNumberExtension"} + {"streetNumber", "streetNumberExtension"}
            && r["streetNumber"] == Undefined && r["streetNumberExtension"] == Undefined
            && forall k :: k in m && k !in NumberKeys ==> r[k] == m[k]
  {
  }

  /** Lines 175-178, on the object that `data.enduser.address` refers to. */
  method RenameShippingAddress(address: JsObject)
    modifies address
    ensures address.fields == ShippingRenamed(old(address.fields))
  {
    address.fields := address.fields["streetNumber" := Get(address.fields, "houseNumber")];
    address.fields := address.fields - {"houseNumber"};
    address.fields := address.fields["streetNumberExtension" := Get(address.fields, "houseNumberExtension")];
    address.fields := address.fields - {"houseNumberExtension"};
  }

  /** Lines 183-186, on the object that `data.enduser.invoiceAddress` refers to. */
  method RenameInvoiceAddress(invoiceAddress: JsObject)
    modifies invoiceAddress
    ensures invoiceAddress.fields == InvoiceRenamed(old(invoiceAddress.fields))
  {
    invoiceAddress.fields := invoiceAddress.fields["streetNumber" := Get(invoiceAddress.fields, "houseNumber")];
    invoiceAddress.fields := invoiceAddress.fields - {"houseNumber"};
    invoiceAddress.fields := invoiceAddress.fields["streetNumberExtension" := Get(invoiceAddress.fields, "houseNumberExtension")];
  }

  /** The fields of the caller's address objects after `getForApi`, given
   *  their fields before: the shipping address as ShippingRenamed makes it,
   *  the invoice address as InvoiceRenamed makes it, and the two renamings one
   *  after the other, plus the stray delete of line 187, when both are the
   *  same object. */
  ghost predicate AddressesRenamed(address: Option<JsObject>, invoiceAddress: Option<JsObject>,
                                   before: map<string, Json>, invoiceBefore: map<string, Json>)
    reads Objects(address, invoiceAddress)
    ensures AddressesRenamed(address, invoiceAddress, before, invoiceBefore) && address.Some? ==>
              "houseNumber" !in address.value.fields && "houseNumberExtension" !in address.value.fields
              && "streetNumber" in address.value.fields
    ensures AddressesRenamed(address, invoiceAddress, before, invoiceBefore) && invoiceAddress.Some? ==>
              "houseNumber" !in invoiceAddress.value.fields && "streetNumber" in invoiceAddress.value.fields
  {
    match (address, invoiceAddress)
    case (Some(a), None) => a.fields == ShippingRenamed(before)
    case (None, Some(i)) => i.fields == InvoiceRenamed(invoiceBefore)
    case (Some(a), Some(i)) =>
      if a == i then a.fields == InvoiceRenamed(ShippingRenamed(before)) - {"houseNumberExtension"}
      else a.fields == ShippingRenamed(before) && i.fields == InvoiceRenamed(invoiceBefore)
    case (None, None) => true
  }

  /** Lines 173-188 as they touch the caller's objects; false when line 187
   *  throws because there is no shipping address. */
  method RenameAddresses(address: Option<JsObject>, invoiceAddress: Option<JsObject>) returns (ok: bool)
    modifies Objects(address, invoiceAddress)
    ensures ok <==> !(invoiceAddress.Some? && address.None?)
    ensures AddressesRenamed(address, invoiceAddress, old(Fields(address)), old(Fields(invoiceAddress)))
  {
    if address.Some? {
      RenameShippingAddress(address.value);
    }
    if invoiceAddress.Some? {
      RenameInvoiceAddress(invoiceAddress.value);
      // `delete data.enduser.address.houseNumberExtension`: enduser.address is
      // the shipping address object, or undefined when there is none
      if address.None? {
        return false;
      }
      var a := address.value;
      a.fields := a.fields - {"houseNumberExtension"};
    }
    ok := true;
  }

  /** `statsData` always holds the SDK marker. */
  lemma StatsDataNotEmpty(o: TransactionStartOptions)
    ensures "object" in StatsDataObject(o) && StatsDataObject(o) != map[]
  {
  }

  /** Lines 159-161: `if (Object.keys(obj[key]).length == 0) delete obj[key]`. */
  method DeleteIfEmpty(obj: JsObject, key: string)
    modifies obj
    requires key in obj.fields && obj.fields[key].Obj?
    ensures obj.fields == if old(obj.fields)[key].members == map[] then old(obj.fields) - {key} else old(obj.fields)
  {
    if |obj.fields[key].members| == 0 {
      obj.fields := obj.fields - {key};
    }
  }

  // ---------------------------------------------------------------------------
  // The builder

  class TransactionStart {
    const options: TransactionStartOptions

    constructor (options: TransactionStartOptions)
      ensures this.options == options
    {
      this.options := options;
    }

    /** `getForApi()`: builds the body in a fresh object and renames the
     *  house-number fields of the caller's address objects in place. Line 187
     *  deletes `houseNumberExtension` from the shipping address instead of the
     *  invoice address, and throws a TypeError when there is no shipping
     *  address, after the invoice address has been edited. */
    method GetForApi(formats: DateFormats) returns (r: Result<JsObject>)
      modifies options.AddressObjects()
      ensures r.Err? <==> options.invoiceAddress.Some? && options.address.None?
      ensures r.Err? ==> r.error == TypeError
      ensures r.Ok? ==> fresh(r.value) && r.value.fields == RequestBody(options, formats)
      ensures AddressesRenamed(options.address, options.invoiceAddress, old(Fields(options.address)), old(Fields(options.invoiceAddress)))
    {
      var o := options;
      var data := new JsObject(TopLevelFields(o));
      data.fields := data.fields["transaction" := Obj(TransactionObject(o, formats))];
      data.fields := data.fields["statsData" := Obj(StatsDataObject(o))];
      StatsDataNotEmpty(o);
      DeleteIfEmpty(data, "statsData");
      assert data !in Objects(o.address, o.invoiceAddress);
      var renamed := RenameAddresses(o.address, o.invoiceAddress);
      if !renamed {
        return Err(TypeError);
      }
      data.fields := data.fields["enduser" := Obj(EndUserObject(o, formats))];
      data.fields := data.fields["saleData" := Obj(SaleDataObject(o, formats))];
      r := Ok(data);
    }
  }
}
