# paynl-node: request builder and response classification

This project models the deterministic core of the Pay.nl Node.js client:

- **The transaction-start request builder** (`TransactionStart.getForApi` and
  `calculateVatCode`). It turns the caller's options record into the nested
  JSON body of the `transaction/start` call:
  - amounts become minor units through `Math.round(x * 100)`;
  - an optional field goes into the body only when it is truthy;
  - the `transaction`, `statsData`, `enduser` and `saleData` sub-objects are always created;
  - each product becomes an order line with an inferred VAT letter code;
  - the caller's own address objects are placed in the body and have their
    house-number fields renamed to street-number fields in place.
- **The client** (`Paynl`):
  - the endpoint path;
  - the two error shapes the API answers with;
  - how a response settles the promise of `post`;
  - the credentials written into every request body;
  - the validation of `startTransaction`;
  - the transaction id that `getTransaction` writes into its response.

Files:

- `outcomes.dfy`: `Option`, `Result` and the errors a call can end with
  (`Error`, `PaynlError`, `TypeError`, the parser's `SyntaxError`, transport errors).
- `js_numbers.dfy`: `Math.round`, and numbers written as and read from decimal strings.
- `js_values.dfy`: JSON values and the JavaScript rules the code relies on. These are
  truthiness, property reads (a `TypeError` on null or undefined), conversion to
  string (arrays are joined) and loose `==` against a string literal.
  - `Obj` is an object that nothing else refers to.
  - `Ref` points to a `JsObject` on the heap that is shared with the caller.
- `transaction_start.dfy`:
  - `RequestBody`, the body as a function of the options.
  - `class TransactionStart` with the imperative `GetForApi`. It builds a fresh object and
    edits the caller's address objects. Its contract ties the result to
    `RequestBody` and the new address fields to `ShippingRenamed`/`InvoiceRenamed`.
- `paynl.dfy`:
  - `GetUrl` and its inverse `ParseUrl`.
  - `IsError` and `Classify`.
  - `class Paynl` with `Post`, `StartTransaction` and `GetTransaction`. The network's
    answer to a request is an input (`Exchange`): an error event, or a status code,
    a status message and what `JSON.parse` made of the body.

Behaviour modelled as the code has it:

- **The delete at line 187.** The invoice-address branch deletes `houseNumberExtension`
  from the *shipping* address, `enduser.address`. Two consequences:
  - the invoice address keeps its `houseNumberExtension`;
  - an invoice address without a shipping address makes `getForApi` throw a `TypeError`,
    after the invoice address has already been edited.
- **Shared addresses.** When both addresses are the same object, both street-number
  fields end up undefined (`SharedAddressLosesNumbers`).
- **Not idempotent.** A second `getForApi` on the same options finds the house numbers
  already gone (`ShippingRenamedTwiceLosesNumber`).
- **`statsData` is never dropped.** It always carries `object: "nodejssdk"`, so the
  guarded delete at lines 159-161 never fires.
- **The response buffer.** The `data` chunks are strings (src/Paynl.ts:75), and `Buffer.concat`
  (line 89) throws a TypeError on them, so as written every response with a body rejects
  with that TypeError (`ClassifyAsWritten`, see Findings). The rest of the model, from
  `Classify` on, takes the text of the chunks to reach `JSON.parse`, as intended. Under
  that reading:
  - **Error shapes only for failure statuses.** They are looked at only when the status
    is outside [200, 300). A 2xx response resolves with its body even when the body is
    an error shape.
  - **Parse errors win.** A body that does not parse rejects with the parser's error at
    every status except a missing one.
  - **Unparsable failure bodies.** At a failure status, an unparsable body also rejects
    with the parser's error.

## Model

| member | source | states |
|---|---|---|
| JsNumbers.Round | src/interfaces/TransactionStart.ts:137 | `Math.round(x)` is the integer within half a unit of x, the upper one on a tie |
| JsNumbers.ParseIntToString | src/Paynl.ts:28 | the decimal string of an integer reads back as that integer |
| JsNumbers.ParseNatToString | src/Paynl.ts:101 | the digits of a natural number read back as that number |
| JsNumbers.NumberToString | src/Paynl.ts:43 | `String(n)` is never empty, and a whole number is written as its integer's decimal string, which JavaScript does for whole numbers below 1e21 in size (see "## Left out") |
| JsNumbers.StringToNumber | src/Paynl.ts:39-42 | the number a string converts to in a loose `==`, for the literals "FALSE" and "0" compared against: the empty string is 0, and the model converts only strings of decimal digits (see "## Left out") |
| JsNumbers.IntToString | src/Paynl.ts:101 | the decimal string of an integer is non-empty, starts with "-" exactly for negatives, and is digits otherwise |
| JsValues.Truthy | src/Paynl.ts:39-42 | null, undefined, false, 0 and "" are falsy; every object and array is truthy; a string is truthy iff non-empty |
| JsValues.JsToString | src/Paynl.ts:43 | a string converts to itself, an object to "[object Object]", an empty array or one holding null to "", a one-string array to that string |
| JsValues.LooseEqualsString | src/Paynl.ts:39-42 | null and undefined equal no string; a string equals exactly itself; a number equals "" iff it is 0; a one-string array equals its string |
| JsValues.Member | src/Paynl.ts:39-42 | reading a property of null or undefined throws a TypeError; otherwise a defined result is the object's own property |
| JsValues.TruthyEqualsFalseLiteral | src/Paynl.ts:39 | `v && v == "FALSE"` holds exactly for the string "FALSE" and arrays that join to it |
| JsValues.TruthyEqualsZeroLiteral | src/Paynl.ts:42 | `v && v == "0"` holds exactly for the string "0" and arrays that join to it; the number 0 is excluded by truthiness |
| TransactionStartApi.VatRate | src/interfaces/TransactionStart.ts:119-124 | the rate is `vat/(price-vat)*100`: times the price without VAT it gives 100 times the VAT, and it is positive when the VAT is positive and below the price |
| TransactionStartApi.CalculateVatCode | src/interfaces/TransactionStart.ts:117-133 | the code is always N, L or H; a zero VAT amount, a zero price, or a price equal to its VAT gives "N" |
| TransactionStartApi.Nearer | src/interfaces/TransactionStart.ts:127-129 | one reduce step keeps the previous or the current entry, whichever is nearer to the rate; a tie keeps the previous one |
| TransactionStartApi.ReduceNearest | src/interfaces/TransactionStart.ts:126-130 | the reduce ends on one of the entries, at least as near to the rate as every entry |
| TransactionStartApi.FirstNearestStep | src/interfaces/TransactionStart.ts:129 | one step of the reduce keeps the first nearest entry |
| TransactionStartApi.ReduceNearestIsFirstNearest | src/interfaces/TransactionStart.ts:126-130 | the reduce returns the first entry whose distance to the rate is minimal |
| TransactionStartApi.ReduceOverVatCodes | src/interfaces/TransactionStart.ts:126-130 | the reduce over the keys 0, 9, 21 compares 0 with 9, then the winner with 21 |
| TransactionStartApi.VatCodeIsNearest | src/interfaces/TransactionStart.ts:117-133 | the code is that of the first reference rate nearest to `vat/(price-vat)*100` |
| TransactionStartApi.VatCodeBands | src/interfaces/TransactionStart.ts:117-133 | "N" iff rate <= 4.5, "L" iff 4.5 < rate <= 15, "H" iff rate > 15; ties go to the lower rate |
| TransactionStartApi.VatCodeExamples | src/interfaces/TransactionStart.ts:117-133 | 100/21 gives H, 100/9 gives L, a zero VAT or zero price gives N, rate 15 gives L, rate 4.5 gives N |
| TransactionStartApi.OrderLine | src/interfaces/TransactionStart.ts:195-202 | an order line has exactly the six keys, the product's id, name, quantity and type, the price as `Math.round(price*100)` (so within half a unit of price*100), and the inferred VAT code |
| TransactionStartApi.OrderData | src/interfaces/TransactionStart.ts:193-204 | one order line per product, same length, same order |
| TransactionStartApi.PutString | src/interfaces/TransactionStart.ts:147-151 | `if (s) m[k] = s`: the key is added exactly when the string is truthy, no other key changes |
| TransactionStartApi.PutDate | src/interfaces/TransactionStart.ts:148 | `if (d) m[k] = format(d)`: the key is added exactly when the date is present, no other key changes |
| TransactionStartApi.TopLevelFields | src/interfaces/TransactionStart.ts:136-144 | amount, finishUrl and ipAddress are always set; no scalar key other than the three payment keys is ever added |
| TransactionStartApi.TransactionObject | src/interfaces/TransactionStart.ts:146-151 | `transaction` holds at most currency, expireDate, orderExchangeUrl, description and orderNumber |
| TransactionStartApi.StatsDataObject | src/interfaces/TransactionStart.ts:153-157 | `statsData` always holds `object = "nodejssdk"`, and otherwise at most extra1-3 |
| TransactionStartApi.CustomerFields | src/interfaces/TransactionStart.ts:163-172 | the customer part of `enduser` holds at most the seven customer keys, and only the language when there is no customer |
| TransactionStartApi.EndUserObject | src/interfaces/TransactionStart.ts:163-181 | `enduser` has the customer keys, plus `address` and `invoiceAddress` exactly when given |
| TransactionStartApi.SaleDataObject | src/interfaces/TransactionStart.ts:190-204 | `saleData` holds at most invoiceDate, deliveryDate and orderData, and orderData exactly when products are given |
| TransactionStartApi.RequestBody | src/interfaces/TransactionStart.ts:135-207 | the body's keys are the top-level fields' keys plus transaction, statsData, enduser and saleData |
| TransactionStartApi.TopLevelFieldsKeys | src/interfaces/TransactionStart.ts:137-144 | the top-level scalar keys are exactly amount, finishUrl, ipAddress and the optional payment keys of truthy sources |
| TransactionStartApi.TopLevelFieldsLeaveSubObjects | src/interfaces/TransactionStart.ts:137-146 | no top-level scalar key is one of the four sub-object keys |
| TransactionStartApi.TopLevelFieldsValues | src/interfaces/TransactionStart.ts:137-144 | amount is `round(amount*100)`; finishUrl and ipAddress are copied; each payment key is there iff its source is truthy; the terminal id overrides the bank id; testMode is 1 |
| TransactionStartApi.RequestBodyAgreesOn | src/interfaces/TransactionStart.ts:146-190 | a key other than the sub-object keys is in the body iff it is a top-level field, with the same value |
| TransactionStartApi.RequestBodyExtendsTopLevel | src/interfaces/TransactionStart.ts:146-190 | the four sub-objects are added beside the top-level fields and overwrite none of them |
| TransactionStartApi.RequestBodyTopLevel | src/interfaces/TransactionStart.ts:137-146 | the body's keys are exactly amount, finishUrl, ipAddress, the optional keys and the four sub-objects, with the amount in minor units |
| TransactionStartApi.RequestBodyPaymentOptions | src/interfaces/TransactionStart.ts:141-144 | paymentOptionId iff the method id is truthy; paymentOptionSubId from the terminal, else from the bank, else absent; testMode = 1 iff test mode is on |
| TransactionStartApi.RequestBodyTransactionObject | src/interfaces/TransactionStart.ts:146-151 | the body's `transaction` is the object the builder fills, untouched by the later sub-objects |
| TransactionStartApi.RequestBodyStatsDataObject | src/interfaces/TransactionStart.ts:153-161 | the body's `statsData` is the object the builder fills, untouched by the later sub-objects |
| TransactionStartApi.RequestBodyTransaction | src/interfaces/TransactionStart.ts:146-151 | `transaction` is always an object; each of its five keys is there iff its source is truthy, with the source's value (the expiry date formatted) |
| TransactionStartApi.RequestBodyStatsData | src/interfaces/TransactionStart.ts:153-161 | `statsData` is always a non-empty object holding `object = "nodejssdk"`, with extra1-3 iff truthy |
| TransactionStartApi.StatsDataNotEmpty | src/interfaces/TransactionStart.ts:153-161 | the stats object always holds the SDK marker, so the delete guarded by an empty key list never fires |
| TransactionStartApi.DeleteIfEmpty | src/interfaces/TransactionStart.ts:159-161 | the key is deleted exactly when its object has no keys |
| TransactionStartApi.CustomerFieldsKeys | src/interfaces/TransactionStart.ts:163-172 | the customer keys are the language's and, when there is a customer, one per truthy field |
| TransactionStartApi.CustomerFieldsShape | src/interfaces/TransactionStart.ts:163-172 | language and each customer field are in `enduser` iff truthy (the date of birth iff present) |
| TransactionStartApi.CustomerFieldValues | src/interfaces/TransactionStart.ts:164-171 | each customer field holds its source's value; the date of birth is formatted as a date |
| TransactionStartApi.CustomerFieldsLeaveAddresses | src/interfaces/TransactionStart.ts:163-181 | the customer fields never include `address` or `invoiceAddress`, so the address references overwrite nothing |
| TransactionStartApi.EndUserObjectShape | src/interfaces/TransactionStart.ts:163-181 | `enduser` is the customer fields plus `address` and `invoiceAddress` referring to the caller's own objects, each iff given |
| TransactionStartApi.RequestBodyEndUser | src/interfaces/TransactionStart.ts:163 | `enduser` is always there |
| TransactionStartApi.RequestBodySaleData | src/interfaces/TransactionStart.ts:190-204 | `saleData` is always an object; the two dates iff present; `orderData` iff products are given, as OrderData of them |
| TransactionStartApi.ShippingRenamed | src/interfaces/TransactionStart.ts:175-178 | the shipping address loses both house-number keys and gains streetNumber/streetNumberExtension holding their old values; other keys unchanged |
| TransactionStartApi.InvoiceRenamed | src/interfaces/TransactionStart.ts:183-186 | the invoice address loses houseNumber only, gains both street-number keys with the old values, and keeps houseNumberExtension |
| TransactionStartApi.ShippingRenamedExample | src/interfaces/TransactionStart.ts:173-179 | houseNumber "12" and extension "A" become streetNumber "12" and streetNumberExtension "A", with no house-number keys |
| TransactionStartApi.ShippingRenamedTwiceLosesNumber | src/interfaces/TransactionStart.ts:173-179 | renaming twice replaces the street number by undefined: the builder is not idempotent |
| TransactionStartApi.SharedAddressLosesNumbers | src/interfaces/TransactionStart.ts:173-188 | when both addresses are one object, both street-number fields become undefined and both house-number keys are gone |
| TransactionStartApi.RenameShippingAddress | src/interfaces/TransactionStart.ts:175-178 | the caller's shipping address object now holds ShippingRenamed of its old fields |
| TransactionStartApi.RenameInvoiceAddress | src/interfaces/TransactionStart.ts:183-186 | the caller's invoice address object now holds InvoiceRenamed of its old fields |
| TransactionStartApi.AddressesRenamed | src/interfaces/TransactionStart.ts:173-188 | the caller's addresses after the renaming: each holds its renamed fields; one object used as both gets both renamings and the line-187 delete; either way no address keeps `houseNumber`, both have `streetNumber`, and the shipping address loses `houseNumberExtension` |
| TransactionStartApi.RenameAddresses | src/interfaces/TransactionStart.ts:173-188 | fails exactly when an invoice address comes without a shipping address; the addresses hold their renamed fields, including the wrong-object delete of line 187 |
| TransactionStartApi.TransactionStart.constructor | src/interfaces/TransactionStart.ts:105-107 | the builder keeps the options it is given |
| TransactionStartApi.TransactionStart.GetForApi | src/interfaces/TransactionStart.ts:135-207 | throws a TypeError iff an invoice address comes without a shipping address; otherwise returns a fresh object equal to RequestBody; the caller's addresses are renamed either way |
| PaynlApi.GetUrl | src/Paynl.ts:27-33 | the path starts with "/v" and ends with "/json" |
| PaynlApi.ParseGetUrl | src/Paynl.ts:27-33 | controller, action and version read back from the path when controller and action contain no slash |
| PaynlApi.VersionEightUrl | src/Paynl.ts:148 | a version-8 call, such as transaction/start and transaction/info, goes to "/v8/{controller}/{action}/json" |
| PaynlApi.StatusShape | src/Paynl.ts:39 | the first error shape holds iff `status` is the string "FALSE" or an array joining to it |
| PaynlApi.RequestShape | src/Paynl.ts:42 | the second error shape holds iff `request` is an object whose `result` is "0" or an array joining to it, with truthy `errorId` and `errorMessage` |
| PaynlApi.IsError | src/Paynl.ts:38-46 | throws iff the body is null (or undefined, which the parser never returns); the status shape gives `body.error` and takes priority; the request shape gives "errorId errorMessage"; anything other than false comes from a matched shape |
| PaynlApi.IsErrorStatusExample | src/Paynl.ts:39-41 | `{"status":"FALSE","error":"invalid amount"}` gives "invalid amount" |
| PaynlApi.IsErrorRequestExample | src/Paynl.ts:42-44 | `{"request":{"result":"0","errorId":"101","errorMessage":"bad token"}}` gives "101 bad token" |
| PaynlApi.IsErrorNotFooledByFalsyStatus | src/Paynl.ts:39 | a status of false, 0 or "" matches no shape |
| PaynlApi.ErrorMessage | src/Paynl.ts:98 | the message of `new PaynlError(v)`: a string as is, "" for undefined, "null" for null |
| PaynlApi.Classify | src/Paynl.ts:85-110 | an error event rejects with a transport error and nothing else does; a resolution comes only from a success status with a parsed body, and is that body; a PaynlError only from a failure status with a parsed, non-null body |
| PaynlApi.ClassifyResolves | src/Paynl.ts:85-105 | a call resolves iff a success status came with a parsed body, and then with that body, whatever error shape it has |
| PaynlApi.ClassifyMissingStatus | src/Paynl.ts:85-88 | a missing or zero status code rejects with "Unexpected order of events" whatever the body |
| PaynlApi.ClassifyParseErrorWins | src/Paynl.ts:94-110 | an unparsable body rejects with the parse error at any status that is not missing |
| PaynlApi.ClassifyFailureStatus | src/Paynl.ts:96-103 | at a status outside [200,300), a null body rejects with the TypeError `isError` throws; any other body rejects with a PaynlError carrying the matched error message, else "status statusMessage", which a non-object body always gets |
| PaynlApi.ClassifyStatusShapeExamples | src/Paynl.ts:96-105 | "invalid amount" rejects with exactly that message at 400 and resolves at 200 |
| PaynlApi.ClassifyStatusMessageExample | src/Paynl.ts:101-102 | a 500 whose body has no error shape rejects with "500 " followed by the status message |
| PaynlApi.ClassifyAsWritten | src/Paynl.ts:75-110 | as written, no response resolves: with a status and any chunk it rejects with the TypeError of `Buffer.concat` |
| PaynlApi.ClassifyAsWrittenDiffers | src/Paynl.ts:85-105 | at a success status with a body, the intended handler resolves with the parsed body where the written one rejects with a TypeError |
| PaynlApi.BufferConcatCounterexample | src/Paynl.ts:75-89 | a 200 response with the body `{}`: rejected as written, resolved with `{}` as intended |
| PaynlApi.WithCredentials | src/Paynl.ts:54-55 | token and serviceId are set, overwriting any earlier values; every other key is unchanged |
| PaynlApi.Validate | src/Paynl.ts:135-145 | the first failing check in the order amount, returnUrl, ipAddress gives its message; none iff all three are set; amount 0 counts as not set |
| PaynlApi.EchoTransactionId | src/Paynl.ts:154 | an object response gains `transactionId` with the requested id and keeps every other key; null and primitives throw a TypeError |
| PaynlApi.Paynl.constructor | src/Paynl.ts:13-22 | the credentials are kept, the host is "https://rest-api.pay.nl", verbose defaults to false |
| PaynlApi.Paynl.Post | src/Paynl.ts:52-131 | the caller's data gains the credentials, the request goes to GetUrl's path with that body, and the call settles as Classify says |
| PaynlApi.Paynl.StartTransaction | src/Paynl.ts:133-150 | a failed validation rejects with its message before any request and leaves the addresses alone; otherwise the builder's error, or the credentials-bearing RequestBody posted to transaction/start v8 and settled by Classify |
| PaynlApi.Paynl.GetTransaction | src/Paynl.ts:152-156 | posts `{transactionId}` with credentials to transaction/info v8; a rejection is passed on; a resolved body gets the id written in |

## Left out

- The HTTPS request, the 10-second timeout and its abort, the event listeners and the
  `Content-Length` header are I/O. A call takes the network's answer (`Exchange`) as an
  input instead. The chunk buffering is modelled only as far as the Finding below needs.
- The request's target: `https.request` gets the relative path of `getUrl` as its URL
  (src/Paynl.ts:58-59). Node parses a string URL with `new URL`, which throws
  ERR_INVALID_URL, a TypeError, on a relative path, so as written `post` rejects before
  it sends anything. The hostname option also carries the `https://` scheme (line 61).
  The model takes the request as made.
- PaynlApi.Classify: the model assumes the buffered body reaches `JSON.parse`. As written
  it does not (see Findings): `ClassifyAsWritten` is the code's behaviour, `Classify` the
  intended one that `Post` uses.
- The order in which promise callbacks settle is not modelled, nor events that arrive
  after the promise has settled.
- The verbose logging to the console is a side channel. The `verbose` flag is kept but
  has no effect.
- `JSON.stringify` and `JSON.parse` are library calls.
  - The request carries the body as a map, not as text.
  - The parser's result is an input: a value, or an unparsable body with the parser's message.
- `dateformat` is a library: the two date formats are a `DateFormats` parameter of the builder.
- Numbers are reals, not IEEE-754 doubles. Rounding error in `amount * 100` and in the VAT
  ratio, NaN, infinities and undefined numeric fields are not modelled. Consequences:
  - `!options.amount` rejects only the amount 0;
  - in `calculateVatCode`, a price equal to its VAT amount (where JavaScript divides by zero)
    is an explicit branch giving "N".
- Object key order is not modelled: objects are maps.
- JsNumbers.NumberToString and JsValues.JsToString: numbers that are not whole are written
  as plain decimal fractions cut after 20 digits, not with the shortest digits that read
  back. Whole numbers from 1e21 up in size are written in full, not as "1e+21".
- JsNumbers.StringToNumber and JsValues.LooseEqualsString: a string converts to a number
  only when it is empty or all decimal digits. That covers the literals "FALSE" and "0" the
  client compares against. Whitespace, signs, decimals ("1.5"), exponents and hexadecimal
  ("0x10") are not modelled, so the model has `1.5 == "1.5"` false where JavaScript has it true.
- EchoTransactionId: an array response is returned unchanged. The `transactionId` property
  written on an array is not an element, and the model of arrays holds only elements.
  Throwing on primitives follows strict-mode rules, under which the compiled module runs.
- PaynlApi.GetUrl: the version is an integer, the only kind the client passes.
- StartResult and TransactionResult are read-only wrappers and are not part of this model.
  StartTransaction and GetTransaction settle with the JSON those wrappers would receive.
- The caller's address objects are untyped maps.
  - Address.ts and EndUser.ts are not part of this model.
  - Product.ts, InvoiceData.ts and InvoiceAddress.ts are used only as field lists.

## Findings

| source | as written | input that shows it | evidently intended | confidence | as-written member | corrected member |
|---|---|---|---|---|---|---|
| src/Paynl.ts:75-89 | `setEncoding("utf8")` makes every chunk a string, and `Buffer.concat(chunks)` throws a TypeError on a list of strings; the `catch` rejects with it, so no response with a body resolves | a 200 response with the body `{}` (`PaynlApi.BufferConcatCounterexample`) | the text of the chunks, joined, is handed to `JSON.parse` | not executed; high, `Buffer.concat` accepts only buffers and byte arrays | PaynlApi.ClassifyAsWritten | PaynlApi.Classify |
