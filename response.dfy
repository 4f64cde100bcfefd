/**
 * The pure part of `_process_save` in service.py: finding the transaction
 * list in the captured response body, and feeding it to the transformer of
 * modules/convert.py item by item, with Python's behaviour on items that
 * are not transaction records.
 */
module Response {
  import opened Wrappers
  import opened Json
  import Convert

  // ---------------------------------------------------------------------
  // Where the transaction list sits in the body
  // ---------------------------------------------------------------------

  const TransactionsKey := "transactions"
  const ValueKey := "value"
  const DataKey := "data"

  /** The if/elif chain over the parsed body; `[]` when nothing matches. */
  function Extract(body: Json): Json {
    if body.JArr? then body
    else if body.JObj? then
      var top, value, data := Get(body.fields, TransactionsKey), Get(body.fields, ValueKey), Get(body.fields, DataKey);
      if top.Some? then top.value
      else if value.Some? && value.value.JArr? then value.value
      else if value.Some? && value.value.JObj? && Get(value.value.fields, TransactionsKey).Some? then
        Get(value.value.fields, TransactionsKey).value
      else if data.Some? && data.value.JArr? then data.value
      else JArr([])
    else JArr([])
  }

  /** The shapes the chain recognises, strongest first. */
  datatype Shape = BareList | TopTransactions | ValueList | ValueTransactions | DataList

  const Shapes: seq<Shape> := [BareList, TopTransactions, ValueList, ValueTransactions, DataList]

  /** Whether a body has the given shape. */
  predicate HasShape(s: Shape, body: Json) {
    match s
    case BareList => body.JArr?
    case TopTransactions => body.JObj? && Has(body.fields, TransactionsKey)
    case ValueList => body.JObj? && Has(body.fields, ValueKey) && Get(body.fields, ValueKey).value.JArr?
    case ValueTransactions =>
      body.JObj? && Has(body.fields, ValueKey) && Get(body.fields, ValueKey).value.JObj?
      && Has(Get(body.fields, ValueKey).value.fields, TransactionsKey)
    case DataList => body.JObj? && Has(body.fields, DataKey) && Get(body.fields, DataKey).value.JArr?
  }

  /** The list a shape designates. */
  function Designated(s: Shape, body: Json): Json
    requires HasShape(s, body)
  {
    match s
    case BareList => body
    case TopTransactions => Get(body.fields, TransactionsKey).value
    case ValueList => Get(body.fields, ValueKey).value
    case ValueTransactions => Get(Get(body.fields, ValueKey).value.fields, TransactionsKey).value
    case DataList => Get(body.fields, DataKey).value
  }

  /** Reference rule: the value designated by the first shape in `shapes` the body has. */
  function FirstMatch(shapes: seq<Shape>, body: Json): Json
    decreases |shapes|
  {
    if shapes == [] then JArr([])
    else if HasShape(shapes[0], body) then Designated(shapes[0], body)
    else FirstMatch(shapes[1..], body)
  }

  /** The chain is the priority rule over the five shapes, with `[]` as the fallback. */
  lemma ExtractIsFirstMatch(body: Json)
    ensures Extract(body) == FirstMatch(Shapes, body)
  {
    var s := Shapes;
    assert s[1..][1..][1..][1..][1..] == [];
  }

  /** A matching shape wins over every weaker one, and a top-level `transactions` value is taken whatever its type. */
  lemma ExtractPriority(body: Json)
    ensures body.JArr? ==> Extract(body) == body
    ensures body.JObj? && Has(body.fields, TransactionsKey) ==>
              Extract(body) == Get(body.fields, TransactionsKey).value
    ensures (forall s :: s in Shapes ==> !HasShape(s, body)) ==> Extract(body) == JArr([])
  {
    ExtractIsFirstMatch(body);
    if forall s :: s in Shapes ==> !HasShape(s, body) {
      assert !HasShape(Shapes[0], body) && !HasShape(Shapes[1], body) && !HasShape(Shapes[2], body);
      assert !HasShape(Shapes[3], body) && !HasShape(Shapes[4], body);
    }
  }

  /** A list nested as `document.listTransaction` is not one of the shapes: nothing is extracted. */
  lemma DocumentPathNotRecognised(items: seq<Json>)
    ensures var body := JObj([("document", JObj([("listTransaction", JArr(items))]))]);
            Extract(body) == JArr([]) && Normalize(Extract(body)) == JArr([])
  {
    var f := [("document", JObj([("listTransaction", JArr(items))]))];
    assert !Has(f, TransactionsKey) && !Has(f, ValueKey) && !Has(f, DataKey) by {
      forall i | 0 <= i < |f| ensures f[i].0 == "document" {
      }
      assert "document" != TransactionsKey && "document" != ValueKey && "document" != DataKey;
    }
  }

  /** `if not transactions_list: ... if not isinstance(list): transactions_list = []`. */
  function Normalize(extracted: Json): (r: Json)
    ensures !Truthy(r) ==> r == JArr([])
    ensures Truthy(extracted) ==> r == extracted
    ensures extracted.JArr? ==> r == extracted
  {
    if !Truthy(extracted) && !extracted.JArr? then JArr([]) else extracted
  }

  /** Whether the warning about a missing list is logged. */
  predicate WarnsNoList(extracted: Json) {
    !Truthy(extracted)
  }

  // ---------------------------------------------------------------------
  // Records
  // ---------------------------------------------------------------------

  /** The keys of a transaction record. */
  const IdKey := "id"
  const ArrangementIdKey := "arrangementId"
  const BookingDateKey := "bookingDate"
  const MoneyKey := "transactionAmountCurrency"
  const AmountKey := "amount"
  const CurrencyKey := "currencyCode"
  const IndicatorKey := "creditDebitIndicator"
  const DescriptionKey := "description"
  const NameKey := "counterPartyName"
  const NumberKey := "counterPartyAccountNumber"

  /** A failed lookup `record[key]`: Python's `KeyError` prints the quoted key. */
  function KeyErrorMessage(key: string): string {
    "'" + key + "'"
  }

  const NotSubscriptable := "TypeError: transaction is not a dict"
  const Unhashable := "TypeError: unhashable arrangementId"
  const MalformedRecord := "malformed transaction record"

  /** The amount as `try_real` reads it: a number as is, text through the given parser. */
  function AmountOf(j: Json, parseAmount: string -> Option<real>): Option<real> {
    if j.JNum? then Some(j.n)
    else if j.JStr? then parseAmount(j.s)
    else None
  }

  /** `str(None)`: how a present null prints inside an f-string. */
  const PythonNone := "None"

  /** An optional text field read with `.get`: absent or null is `None`. */
  function OptionalText(fields: seq<(string, Json)>, key: string): Result<Option<string>> {
    var found := Get(fields, key);
    if found.None? then Ok(None)
    else
      var v := found.value;
      if v.JNull? then Ok(None)
      else if v.JStr? then Ok(Some(v.s))
      else Err(MalformedRecord)
  }

  /** A required text field. */
  function Text(fields: seq<(string, Json)>, key: string): Result<string> {
    var found := Get(fields, key);
    if found.None? then Err(KeyErrorMessage(key))
    else if found.value.JStr? then Ok(found.value.s)
    else Err(MalformedRecord)
  }

  /**
   * The counter-party account, tested with `in`: a present key is printed
   * whatever it holds, so a present null becomes the text `None`.
   */
  function AccountNumber(fields: seq<(string, Json)>): Result<Option<string>> {
    var found := Get(fields, NumberKey);
    if found.None? then Ok(None)
    else if found.value.JStr? then Ok(Some(found.value.s))
    else if found.value.JNull? then Ok(Some(PythonNone))
    else Err(MalformedRecord)
  }

  /** The raw amount and the currency code: the two lookups through `transactionAmountCurrency`. */
  function Money(fields: seq<(string, Json)>): Result<(Json, string)> {
    var found := Get(fields, MoneyKey);
    if found.None? then Err(KeyErrorMessage(MoneyKey))
    else
      var money := found.value;
      if !money.JObj? then Err(MalformedRecord)
      else if Get(money.fields, AmountKey).None? then Err(KeyErrorMessage(AmountKey))
      else
        var currency := Text(money.fields, CurrencyKey);
        if currency.Err? then Err(currency.message)
        else Ok((Get(money.fields, AmountKey).value, currency.value))
  }

  /**
   * The rest of the record, failing where the transformer first fails: the
   * id and date lookups, `int(amount)`, the description, the rate lookup of
   * a foreign currency, the indicator, then the counter-party account.
   */
  function Details(fields: seq<(string, Json)>, arrangementId: string, amountField: Json, currency: string,
                   parseAmount: string -> Option<real>, rate: Convert.RateFeed)
    : (r: Result<Convert.RawTransaction>)
    ensures r.Ok? ==> && Text(fields, IdKey) == Ok(r.value.id)
                      && r.value.arrangementId == arrangementId
                      && AmountOf(amountField, parseAmount) == Some(r.value.amount)
                      && r.value.currencyCode == currency
                      && AccountNumber(fields) == Ok(r.value.counterPartyAccountNumber)
  {
    var id := Text(fields, IdKey);
    var date := Text(fields, BookingDateKey);
    var amount := AmountOf(amountField, parseAmount);
    var name := OptionalText(fields, NameKey);
    var description := Text(fields, DescriptionKey);
    var indicator := Text(fields, IndicatorKey);
    var number := AccountNumber(fields);
    if id.Err? then Err(id.message)
    else if date.Err? then Err(date.message)
    else if amount.None? then Err(MalformedRecord)
    else if name.Err? then Err(name.message)
    else if description.Err? then Err(description.message)
    else if currency != Convert.BaseCurrency && rate(currency).None? then Err(Convert.RateFailure(currency))
    else if indicator.Err? then Err(indicator.message)
    else if number.Err? then Err(number.message)
    else Ok(Convert.RawTransaction(
      id.value, arrangementId, date.value, amount.value, currency,
      indicator.value, description.value, name.value, number.value))
  }

  /** The fields of a record the transformer reads, once its arrangement id is known, in its order. */
  function DecodeRecord(fields: seq<(string, Json)>, arrangementId: string,
                        parseAmount: string -> Option<real>, rate: Convert.RateFeed)
    : Result<Convert.RawTransaction>
  {
    var money := Money(fields);
    if money.Err? then Err(money.message)
    else Details(fields, arrangementId, money.value.0, money.value.1, parseAmount, rate)
  }

  /** The record a bank transaction is sent as. */
  function Encode(t: Convert.RawTransaction): Json {
    JObj([
      (IdKey, JStr(t.id)),
      (ArrangementIdKey, JStr(t.arrangementId)),
      (BookingDateKey, JStr(t.bookingDate)),
      (MoneyKey, JObj([(AmountKey, JNum(t.amount)), (CurrencyKey, JStr(t.currencyCode))])),
      (IndicatorKey, JStr(t.creditDebitIndicator)),
      (DescriptionKey, JStr(t.description))]
      + OptionalFields(t))
  }

  /** The counterparty fields, present only when set. */
  function OptionalFields(t: Convert.RawTransaction): seq<(string, Json)> {
    (if t.counterPartyName.Some? then [(NameKey, JStr(t.counterPartyName.value))] else [])
    + (if t.counterPartyAccountNumber.Some? then [(NumberKey, JStr(t.counterPartyAccountNumber.value))] else [])
  }

  /**
   * One item of the list through `convert_to_actual_transaction`: an empty
   * mapping drops it unread; otherwise it must be a dict, its arrangement id
   * is looked up first, and only a mapped record is read further.
   */
  function ConvertItem(item: Json, mapping: map<string, string>, rate: Convert.RateFeed, parseAmount: string -> Option<real>)
    : (r: Result<Option<Convert.LedgerEntry>>)
    ensures |mapping| == 0 ==> r == Ok(None)
    ensures r.Ok? && r.value.Some? ==>
              && item.JObj? && Has(item.fields, ArrangementIdKey)
              && Get(item.fields, ArrangementIdKey).value.JStr?
              && Convert.AccountFor(mapping, Get(item.fields, ArrangementIdKey).value.s) == Some(r.value.value.account)
  {
    if |mapping| == 0 then Ok(None)
    else if !item.JObj? then Err(NotSubscriptable)
    else if Get(item.fields, ArrangementIdKey).None? then Err(KeyErrorMessage(ArrangementIdKey))
    else
      var a := Get(item.fields, ArrangementIdKey).value;
      if a.JArr? || a.JObj? then Err(Unhashable)
      else if !a.JStr? || Convert.AccountFor(mapping, a.s).None? then Ok(None)
      else
        var t := DecodeRecord(item.fields, a.s, parseAmount, rate);
        if t.Err? then Err(t.message) else Convert.ConvertTransaction(t.value, mapping, rate)
  }

  /** The list comprehension and `filter` over the items. */
  function ConvertItems(items: seq<Json>, mapping: map<string, string>, rate: Convert.RateFeed, parseAmount: string -> Option<real>)
    : Result<seq<Convert.LedgerEntry>>
    decreases |items|
  {
    if items == [] then Ok([])
    else
      var head := ConvertItem(items[0], mapping, rate, parseAmount);
      if head.Err? then Err(head.message)
      else
        var rest := ConvertItems(items[1..], mapping, rate, parseAmount);
        if rest.Err? then Err(rest.message)
        else Ok((if head.value.Some? then [head.value.value] else []) + rest.value)
  }

  /** `convert_to_actual_import` applied to whatever the extraction produced. */
  function ConvertResponse(list: Json, mapping: map<string, string>, rate: Convert.RateFeed, parseAmount: string -> Option<real>)
    : (r: Result<seq<Convert.Group>>)
    ensures r.Ok? ==> Iterate(list).Ok? && ConvertItems(Iterate(list).value, mapping, rate, parseAmount).Ok?
    ensures r.Ok? ==> Convert.IsGrouping(ConvertItems(Iterate(list).value, mapping, rate, parseAmount).value, r.value)
  {
    var items := Iterate(list);
    if items.Err? then Err(items.message)
    else
      var a := ConvertItems(items.value, mapping, rate, parseAmount);
      if a.Err? then Err(a.message)
      else Ok(if a.value == [] then [] else Convert.GroupByAccount(a.value))
  }

  // ---------------------------------------------------------------------
  // Properties
  // ---------------------------------------------------------------------

  /**
   * A record built from a bank transaction reads back as that transaction,
   * unless the rate lookup fails, which it does with the transformer's error.
   */
  lemma DecodeEncode(t: Convert.RawTransaction, parseAmount: string -> Option<real>, rate: Convert.RateFeed)
    ensures Encode(t).JObj? && Get(Encode(t).fields, ArrangementIdKey) == Some(JStr(t.arrangementId))
    ensures DecodeRecord(Encode(t).fields, t.arrangementId, parseAmount, rate)
            == if Convert.Magnitude(t, rate).Err? then Err(Convert.Magnitude(t, rate).message) else Ok(t)
  {
    RecordLookup(t, ArrangementIdKey);
    MoneyOfRecord(t);
    DetailsOfRecord(t, parseAmount, rate);
  }

  lemma MoneyOfRecord(t: Convert.RawTransaction)
    ensures Money(Encode(t).fields) == Ok((JNum(t.amount), t.currencyCode))
  {
    RecordLookup(t, MoneyKey);
    var money := [(AmountKey, JNum(t.amount)), (CurrencyKey, JStr(t.currencyCode))];
    GetCons(money[1], [], AmountKey);
    GetCons(money[1], [], CurrencyKey);
    assert money == [money[0]] + [money[1]];
    GetCons(money[0], [money[1]], AmountKey);
    GetCons(money[0], [money[1]], CurrencyKey);
    TextOf(money, CurrencyKey, t.currencyCode);
  }

  lemma DetailsOfRecord(t: Convert.RawTransaction, parseAmount: string -> Option<real>, rate: Convert.RateFeed)
    ensures Details(Encode(t).fields, t.arrangementId, JNum(t.amount), t.currencyCode, parseAmount, rate)
            == if Convert.Magnitude(t, rate).Err? then Err(Convert.Magnitude(t, rate).message) else Ok(t)
  {
    var f := Encode(t).fields;
    RecordLookup(t, IdKey);
    TextOf(f, IdKey, t.id);
    RecordLookup(t, BookingDateKey);
    TextOf(f, BookingDateKey, t.bookingDate);
    RecordLookup(t, IndicatorKey);
    TextOf(f, IndicatorKey, t.creditDebitIndicator);
    RecordLookup(t, DescriptionKey);
    TextOf(f, DescriptionKey, t.description);
    RecordLookup(t, NameKey);
    OptionalTextOf(f, NameKey, t.counterPartyName);
    RecordLookup(t, NumberKey);
    assert AccountNumber(f) == Ok(t.counterPartyAccountNumber);
  }

  /**
   * The counter-party account is tested by presence: a present key, null
   * included, puts ` @ ` and its text at the end of the notes.
   */
  lemma AccountNumberByPresence(fields: seq<(string, Json)>, arrangementId: string,
                                parseAmount: string -> Option<real>, rate: Convert.RateFeed)
    requires DecodeRecord(fields, arrangementId, parseAmount, rate).Ok?
    ensures var t := DecodeRecord(fields, arrangementId, parseAmount, rate).value;
            && (t.counterPartyAccountNumber.Some? <==> Has(fields, NumberKey))
            && (Get(fields, NumberKey) == Some(JNull) ==> t.counterPartyAccountNumber == Some(PythonNone))
            && (Has(fields, NumberKey) && Get(fields, NumberKey).value.JStr? ==>
                  t.counterPartyAccountNumber == Some(Get(fields, NumberKey).value.s))
            && (Has(fields, NumberKey) ==>
                  Convert.Notes(t) == Convert.Notes(t.(counterPartyAccountNumber := None)) + " @ " + t.counterPartyAccountNumber.value)
  {
    var t := DecodeRecord(fields, arrangementId, parseAmount, rate).value;
    assert AccountNumber(fields) == Ok(t.counterPartyAccountNumber);
    Convert.NotesSpec(t);
  }

  lemma TextOf(f: seq<(string, Json)>, k: string, v: string)
    requires Get(f, k) == Some(JStr(v))
    ensures Text(f, k) == Ok(v)
  {
  }

  lemma OptionalTextOf(f: seq<(string, Json)>, k: string, v: Option<string>)
    requires Get(f, k) == if v.Some? then Some(JStr(v.value)) else None
    ensures OptionalText(f, k) == Ok(v)
  {
  }

  /** What a lookup in the record of `t` finds. */
  function RecordField(t: Convert.RawTransaction, k: string): Option<Json> {
    if k == IdKey then Some(JStr(t.id))
    else if k == ArrangementIdKey then Some(JStr(t.arrangementId))
    else if k == BookingDateKey then Some(JStr(t.bookingDate))
    else LowerField(t, k)
  }

  function LowerField(t: Convert.RawTransaction, k: string): Option<Json> {
    if k == MoneyKey then Some(JObj([(AmountKey, JNum(t.amount)), (CurrencyKey, JStr(t.currencyCode))]))
    else if k == IndicatorKey then Some(JStr(t.creditDebitIndicator))
    else if k == DescriptionKey then Some(JStr(t.description))
    else OptionalField(t, k)
  }

  function OptionalField(t: Convert.RawTransaction, k: string): Option<Json> {
    if k == NameKey && t.counterPartyName.Some? then Some(JStr(t.counterPartyName.value))
    else if k == NumberKey && t.counterPartyAccountNumber.Some? then Some(JStr(t.counterPartyAccountNumber.value))
    else None
  }

  /** Every key of an encoded record finds its field; the counterparty keys only when set. */
  lemma RecordLookup(t: Convert.RawTransaction, k: string)
    ensures Get(Encode(t).fields, k) == RecordField(t, k)
  {
    var lower := [
      (MoneyKey, JObj([(AmountKey, JNum(t.amount)), (CurrencyKey, JStr(t.currencyCode))])),
      (IndicatorKey, JStr(t.creditDebitIndicator)),
      (DescriptionKey, JStr(t.description))];
    var upper := [(IdKey, JStr(t.id)), (ArrangementIdKey, JStr(t.arrangementId)), (BookingDateKey, JStr(t.bookingDate))];
    assert Encode(t).fields == upper + (lower + OptionalFields(t));
    OptionalLookup(t, k);
    LowerLookup(t, k, OptionalFields(t));
    UpperLookup(t, k, lower + OptionalFields(t));
  }

  lemma OptionalLookup(t: Convert.RawTransaction, k: string)
    ensures Get(OptionalFields(t), k) == OptionalField(t, k)
  {
    var nameF := if t.counterPartyName.Some? then [(NameKey, JStr(t.counterPartyName.value))] else [];
    var numberF := if t.counterPartyAccountNumber.Some? then [(NumberKey, JStr(t.counterPartyAccountNumber.value))] else [];
    if t.counterPartyAccountNumber.Some? {
      GetCons(numberF[0], [], k);
      assert numberF == [numberF[0]] + [];
    }
    if t.counterPartyName.Some? {
      assert nameF + numberF == [nameF[0]] + numberF;
      GetCons(nameF[0], numberF, k);
    }
  }

  lemma LowerLookup(t: Convert.RawTransaction, k: string, tail: seq<(string, Json)>)
    requires Get(tail, k) == OptionalField(t, k)
    ensures Get([
      (MoneyKey, JObj([(AmountKey, JNum(t.amount)), (CurrencyKey, JStr(t.currencyCode))])),
      (IndicatorKey, JStr(t.creditDebitIndicator)),
      (DescriptionKey, JStr(t.description))] + tail, k) == LowerField(t, k)
  {
    var s2 := [(DescriptionKey, JStr(t.description))] + tail;
    var s1 := [(IndicatorKey, JStr(t.creditDebitIndicator))] + s2;
    var s0 := [(MoneyKey, JObj([(AmountKey, JNum(t.amount)), (CurrencyKey, JStr(t.currencyCode))]))] + s1;
    assert [
      (MoneyKey, JObj([(AmountKey, JNum(t.amount)), (CurrencyKey, JStr(t.currencyCode))])),
      (IndicatorKey, JStr(t.creditDebitIndicator)),
      (DescriptionKey, JStr(t.description))] + tail == s0;
    GetCons(s2[0], tail, k);
    GetCons(s1[0], s2, k);
    GetCons(s0[0], s1, k);
  }

  lemma UpperLookup(t: Convert.RawTransaction, k: string, tail: seq<(string, Json)>)
    requires Get(tail, k) == LowerField(t, k)
    ensures Get([(IdKey, JStr(t.id)), (ArrangementIdKey, JStr(t.arrangementId)), (BookingDateKey, JStr(t.bookingDate))] + tail, k)
            == RecordField(t, k)
  {
    var s2 := [(BookingDateKey, JStr(t.bookingDate))] + tail;
    var s1 := [(ArrangementIdKey, JStr(t.arrangementId))] + s2;
    var s0 := [(IdKey, JStr(t.id))] + s1;
    assert [(IdKey, JStr(t.id)), (ArrangementIdKey, JStr(t.arrangementId)), (BookingDateKey, JStr(t.bookingDate))] + tail == s0;
    GetCons(s2[0], tail, k);
    GetCons(s1[0], s2, k);
    GetCons(s0[0], s1, k);
    UpperKeysNotLower(t);
    if k == IdKey {
      assert Get(s1, k) == None;
    } else if k == ArrangementIdKey {
      assert Get(s2, k) == None;
    } else if k == BookingDateKey {
      assert Get(tail, k) == None;
    } else {
      assert Get(s0, k) == Get(tail, k);
    }
  }

  /** The keys of the first three fields are none of the later ones. */
  lemma UpperKeysNotLower(t: Convert.RawTransaction)
    ensures LowerField(t, IdKey) == None && LowerField(t, ArrangementIdKey) == None && LowerField(t, BookingDateKey) == None
  {
  }

  /** A lookup in a pair followed by more pairs: a later pair wins. */
  lemma GetCons(p: (string, Json), rest: seq<(string, Json)>, k: string)
    ensures Get([p] + rest, k) == if Get(rest, k).Some? then Get(rest, k) else if p.0 == k then Some(p.1) else None
  {
    assert ([p] + rest)[1..] == rest;
  }

  /**
   * With a non-empty mapping, an item fails before its record is read when
   * it is not a dict, has no `arrangementId`, or has a list or dict there;
   * it is dropped when the id is not a string or not mapped to an account.
   */
  lemma ConvertItemErrors(item: Json, mapping: map<string, string>, rate: Convert.RateFeed,
                          parseAmount: string -> Option<real>)
    requires |mapping| > 0
    ensures !item.JObj? ==> ConvertItem(item, mapping, rate, parseAmount) == Err(NotSubscriptable)
    ensures item.JObj? && !Has(item.fields, ArrangementIdKey) ==>
              ConvertItem(item, mapping, rate, parseAmount) == Err(KeyErrorMessage(ArrangementIdKey))
    ensures item.JObj? && Has(item.fields, ArrangementIdKey) ==>
              var a := Get(item.fields, ArrangementIdKey).value;
              && ((a.JArr? || a.JObj?) ==> ConvertItem(item, mapping, rate, parseAmount) == Err(Unhashable))
              && ((a.JNull? || a.JBool? || a.JNum?) ==> ConvertItem(item, mapping, rate, parseAmount) == Ok(None))
              && (a.JStr? && !(a.s in mapping && mapping[a.s] != "") ==> ConvertItem(item, mapping, rate, parseAmount) == Ok(None))
              && (a.JStr? && a.s in mapping && mapping[a.s] != "" ==>
                    (ConvertItem(item, mapping, rate, parseAmount).Err? <==>
                       DecodeRecord(item.fields, a.s, parseAmount, rate).Err?))
  {
  }

  /** Items that are encoded records convert exactly as the records themselves do. */
  lemma {:induction false} ConvertItemsOfRecords(ts: seq<Convert.RawTransaction>, mapping: map<string, string>,
                                                 rate: Convert.RateFeed, parseAmount: string -> Option<real>)
    ensures ConvertItems(seq(|ts|, i requires 0 <= i < |ts| => Encode(ts[i])), mapping, rate, parseAmount)
              == Convert.ConvertAll(ts, mapping, rate)
    decreases |ts|
  {
    if ts != [] {
      var items := seq(|ts|, i requires 0 <= i < |ts| => Encode(ts[i]));
      assert items[1..] == seq(|ts[1..]|, i requires 0 <= i < |ts[1..]| => Encode(ts[1..][i]));
      ConvertItemsOfRecords(ts[1..], mapping, rate, parseAmount);
      DecodeEncode(ts[0], parseAmount, rate);
      assert ConvertItem(items[0], mapping, rate, parseAmount) == Convert.ConvertTransaction(ts[0], mapping, rate);
    }
  }

  /** A list of encoded records converts exactly as `convert_to_actual_import` converts the records. */
  lemma ConvertResponseOfRecords(ts: seq<Convert.RawTransaction>, mapping: map<string, string>,
                                 rate: Convert.RateFeed, parseAmount: string -> Option<real>)
    ensures ConvertResponse(JArr(seq(|ts|, i requires 0 <= i < |ts| => Encode(ts[i]))), mapping, rate, parseAmount)
            == Convert.ConvertToActualImport(ts, mapping, rate)
  {
    ConvertItemsOfRecords(ts, mapping, rate, parseAmount);
  }

  /**
   * With an empty mapping nothing is read from the items: every iterable
   * converts to no groups, and only a value that cannot be iterated raises.
   */
  lemma {:induction false} EmptyMappingIgnoresItems(list: Json, rate: Convert.RateFeed, parseAmount: string -> Option<real>)
    ensures ConvertResponse(list, map[], rate, parseAmount).Err? <==> Iterate(list).Err?
    ensures Iterate(list).Ok? ==> ConvertResponse(list, map[], rate, parseAmount) == Ok([])
  {
    if Iterate(list).Ok? {
      EmptyMappingItems(Iterate(list).value, map[], rate, parseAmount);
    }
  }

  lemma {:induction false} EmptyMappingItems(items: seq<Json>, mapping: map<string, string>, rate: Convert.RateFeed,
                                             parseAmount: string -> Option<real>)
    requires |mapping| == 0
    ensures ConvertItems(items, mapping, rate, parseAmount) == Ok([])
    decreases |items|
  {
    if items != [] {
      EmptyMappingItems(items[1..], mapping, rate, parseAmount);
      assert ConvertItems(items, mapping, rate, parseAmount).value == [];
    }
  }

  /** With a non-empty mapping, a string or dict in place of the list raises on its first element. */
  lemma TextInsteadOfList(s: string, mapping: map<string, string>, rate: Convert.RateFeed, parseAmount: string -> Option<real>)
    requires |mapping| > 0 && s != ""
    ensures ConvertResponse(JStr(s), mapping, rate, parseAmount) == Err(NotSubscriptable)
  {
    var items := Iterate(JStr(s)).value;
    assert items[0] == JStr([s[0]]);
  }
}
