/**
 * The transaction transformer of modules/convert.py: bank transaction records
 * become Actual Budget import entries, grouped by destination account.
 *
 * Amounts are exact rationals here (the source parses them into floats);
 * the exchange-rate feed is a function supplied by the caller, `None` where
 * the lookup raises.
 */
module Convert {
  import opened Wrappers
  import Text

  /** The currency whose amounts need no conversion. */
  const BaseCurrency := "VND"

  /** The credit/debit indicator that marks a debit. */
  const DebitIndicator := "DBIT"

  /** The card-purchase boilerplate stripped from the start of a description. */
  const CardPrefix := "Giao dich thanh toan/Purchase - So The/Card No:"

  /** A bank transaction record with the fields the transformer reads. */
  datatype RawTransaction = RawTransaction(
    id: string,
    arrangementId: string,
    bookingDate: string,
    amount: real,                                // transactionAmountCurrency.amount, parsed
    currencyCode: string,                        // transactionAmountCurrency.currencyCode
    creditDebitIndicator: string,
    description: string,
    counterPartyName: Option<string>,            // None when the key is absent
    counterPartyAccountNumber: Option<string>)   // None when the key is absent

  /** One Actual Budget import entry; `amount` is in minor units (x100). */
  datatype LedgerEntry = LedgerEntry(
    importedId: string,
    date: string,
    amount: int,
    payeeName: Option<string>,
    notes: string,
    account: string)

  /** One key/value pair of the grouped result, in the dict's insertion order. */
  datatype Group = Group(account: string, entries: seq<LedgerEntry>)

  /** A rate lookup: the rate to VND of a currency code, `None` when the feed fails. */
  type RateFeed = string -> Option<real>

  // ---------------------------------------------------------------------
  // Numbers: Python's int() on a float and round() on a float
  // ---------------------------------------------------------------------

  /** `int(x)`: truncation toward zero. */
  function Trunc(x: real): (n: int)
    ensures x >= 0.0 ==> 0 <= n && n as real <= x < n as real + 1.0
    ensures x < 0.0 ==> n <= 0 && n as real - 1.0 < x <= n as real
  {
    if x >= 0.0 then x.Floor else -((-x).Floor)
  }

  /** `round(x)`: the nearest integer, ties to the even one. */
  function RoundHalfEven(x: real): (n: int)
    ensures -0.5 <= x - n as real <= 0.5
    ensures (x - n as real == 0.5 || n as real - x == 0.5) ==> n % 2 == 0
  {
    var f := x.Floor;
    var d := x - f as real;
    if d < 0.5 then f
    else if d > 0.5 then f + 1
    else if f % 2 == 0 then f
    else f + 1
  }

  // ---------------------------------------------------------------------
  // One transaction
  // ---------------------------------------------------------------------

  /**
   * The account a transaction goes to: none when the mapping is empty, when
   * the arrangement is not mapped, or when it maps to the empty (falsy) id.
   */
  function AccountFor(mapping: map<string, string>, arrangementId: string): (r: Option<string>)
    ensures r.Some? <==> arrangementId in mapping && mapping[arrangementId] != ""
    ensures r.Some? ==> r.value == mapping[arrangementId]
    ensures |mapping| == 0 ==> r == None
  {
    if |mapping| == 0 then None
    else if arrangementId in mapping && mapping[arrangementId] != "" then Some(mapping[arrangementId])
    else None
  }

  /** The notes: description without the card prefix, then the counter-party account. */
  function Notes(t: RawTransaction): string {
    Text.RemovePrefix(t.description, CardPrefix)
      + (if t.counterPartyAccountNumber.Some? then " @ " + t.counterPartyAccountNumber.value else "")
  }

  /** The unsigned minor-unit amount: truncated x100 for VND, rounded through the rate otherwise. */
  function Magnitude(t: RawTransaction, rate: RateFeed): Result<int> {
    if t.currencyCode == BaseCurrency then Ok(Trunc(t.amount) * 100)
    else if rate(t.currencyCode).None? then Err(RateFailure(t.currencyCode))
    else Ok(Converted(t.amount, rate(t.currencyCode).value))
  }

  /** `round(amount * rate * 100)`: a foreign amount in VND minor units. */
  function Converted(amount: real, rate: real): (n: int)
    ensures -0.5 <= amount * rate * 100.0 - n as real <= 0.5
  {
    RoundHalfEven(amount * rate * 100.0)
  }

  function RateFailure(currency: string): string {
    "exchange rate lookup failed for " + currency
  }

  /** The sign step: debits are negated, every other indicator keeps the sign. */
  function Signed(t: RawTransaction, magnitude: int): int {
    if t.creditDebitIndicator == DebitIndicator then -magnitude else magnitude
  }

  /**
   * `convert_to_actual_transaction`: `Ok(None)` for a dropped transaction,
   * `Ok(Some(e))` for a converted one, `Err` when the rate lookup raises.
   */
  function ConvertTransaction(t: RawTransaction, mapping: map<string, string>, rate: RateFeed)
    : (r: Result<Option<LedgerEntry>>)
    ensures r == Ok(None) <==> AccountFor(mapping, t.arrangementId) == None
    ensures r.Err? <==> AccountFor(mapping, t.arrangementId).Some? && Magnitude(t, rate).Err?
    ensures r.Ok? && r.value.Some? ==>
              var e := r.value.value;
              && e.importedId == t.id
              && e.date == t.bookingDate
              && e.account == mapping[t.arrangementId]
              && e.payeeName == t.counterPartyName
              && e.notes == Notes(t)
              && e.amount == Signed(t, Magnitude(t, rate).value)
  {
    var account := AccountFor(mapping, t.arrangementId);
    if account.None? then Ok(None)
    else
      var m := Magnitude(t, rate);
      if m.Err? then Err(m.message)
      else Ok(Some(LedgerEntry(t.id, t.bookingDate, Signed(t, m.value), t.counterPartyName, Notes(t), account.value)))
  }

  // ---------------------------------------------------------------------
  // The whole batch
  // ---------------------------------------------------------------------

  /** The list comprehension plus `filter`: converted entries in input order. */
  function ConvertAll(ts: seq<RawTransaction>, mapping: map<string, string>, rate: RateFeed)
    : Result<seq<LedgerEntry>>
    decreases |ts|
  {
    if ts == [] then Ok([])
    else
      var head := ConvertTransaction(ts[0], mapping, rate);
      if head.Err? then Err(head.message)
      else
        var rest := ConvertAll(ts[1..], mapping, rate);
        if rest.Err? then Err(rest.message)
        else Ok((if head.value.Some? then [head.value.value] else []) + rest.value)
  }

  /** The transactions `ConvertAll` keeps: mapped to a non-empty account id. */
  function Kept(ts: seq<RawTransaction>, mapping: map<string, string>): seq<RawTransaction>
    decreases |ts|
  {
    if ts == [] then []
    else (if AccountFor(mapping, ts[0].arrangementId).Some? then [ts[0]] else []) + Kept(ts[1..], mapping)
  }

  /** `convert_to_actual_import`: convert, drop, stable-sort by account, group. */
  function ConvertToActualImport(ts: seq<RawTransaction>, mapping: map<string, string>, rate: RateFeed)
    : Result<seq<Group>>
  {
    var a := ConvertAll(ts, mapping, rate);
    if a.Err? then Err(a.message)
    else Ok(if a.value == [] then [] else GroupByAccount(a.value))
  }

  // ---------------------------------------------------------------------
  // Properties of the conversion
  // ---------------------------------------------------------------------

  /** An empty mapping converts every batch to the empty dict. */
  lemma {:induction false} EmptyMappingConvertsToNothing(ts: seq<RawTransaction>, mapping: map<string, string>, rate: RateFeed)
    requires |mapping| == 0
    ensures ConvertAll(ts, mapping, rate) == Ok([])
    ensures ConvertToActualImport(ts, mapping, rate) == Ok([])
    decreases |ts|
  {
    if ts != [] {
      assert ConvertTransaction(ts[0], mapping, rate) == Ok(None);
      EmptyMappingConvertsToNothing(ts[1..], mapping, rate);
      assert ConvertAll(ts, mapping, rate).value == [];
      assert ConvertAll(ts, mapping, rate).Ok?;
    }
  }

  /**
   * The batch fails exactly when some kept transaction's rate lookup fails;
   * otherwise it holds one entry per kept transaction, in input order.
   */
  lemma ConvertAllSpec(ts: seq<RawTransaction>, mapping: map<string, string>, rate: RateFeed)
    ensures ConvertAll(ts, mapping, rate).Err? <==>
              exists i :: 0 <= i < |ts| && ConvertTransaction(ts[i], mapping, rate).Err?
    ensures ConvertAll(ts, mapping, rate).Ok? ==>
              var es, kept := ConvertAll(ts, mapping, rate).value, Kept(ts, mapping);
              && |es| == |kept|
              && forall i :: 0 <= i < |es| ==> ConvertTransaction(kept[i], mapping, rate) == Ok(Some(es[i]))
  {
    ConvertAllFails(ts, mapping, rate);
    if ConvertAll(ts, mapping, rate).Ok? {
      ConvertAllEntries(ts, mapping, rate);
    }
  }

  lemma {:induction false} ConvertAllFails(ts: seq<RawTransaction>, mapping: map<string, string>, rate: RateFeed)
    ensures ConvertAll(ts, mapping, rate).Err? <==>
              exists i :: 0 <= i < |ts| && ConvertTransaction(ts[i], mapping, rate).Err?
    decreases |ts|
  {
    if ts != [] {
      var tail := ts[1..];
      ConvertAllFails(tail, mapping, rate);
      if exists i :: 0 <= i < |tail| && ConvertTransaction(tail[i], mapping, rate).Err? {
        var i :| 0 <= i < |tail| && ConvertTransaction(tail[i], mapping, rate).Err?;
        assert ConvertTransaction(ts[i + 1], mapping, rate).Err?;
      }
      if exists i :: 0 <= i < |ts| && ConvertTransaction(ts[i], mapping, rate).Err? {
        var i :| 0 <= i < |ts| && ConvertTransaction(ts[i], mapping, rate).Err?;
        if i > 0 {
          assert ConvertTransaction(tail[i - 1], mapping, rate).Err?;
        }
      }
    }
  }

  lemma {:induction false} ConvertAllEntries(ts: seq<RawTransaction>, mapping: map<string, string>, rate: RateFeed)
    requires ConvertAll(ts, mapping, rate).Ok?
    ensures var es, kept := ConvertAll(ts, mapping, rate).value, Kept(ts, mapping);
            && |es| == |kept|
            && forall i :: 0 <= i < |es| ==> ConvertTransaction(kept[i], mapping, rate) == Ok(Some(es[i]))
    decreases |ts|
  {
    if ts != [] {
      var tail := ts[1..];
      ConvertAllEntries(tail, mapping, rate);
      var head := ConvertTransaction(ts[0], mapping, rate);
      var es, rest := ConvertAll(ts, mapping, rate).value, ConvertAll(tail, mapping, rate).value;
      var kept, keptRest := Kept(ts, mapping), Kept(tail, mapping);
      if head.value.Some? {
        assert es == [head.value.value] + rest;
        assert kept == [ts[0]] + keptRest;
      } else {
        assert es == rest;
        assert kept == keptRest;
      }
    }
  }

  /**
   * The grouped result: a grouping of exactly the converted entries, so the
   * group sizes add up to the number of kept transactions.
   */
  lemma ConvertToActualImportSpec(ts: seq<RawTransaction>, mapping: map<string, string>, rate: RateFeed)
    requires ConvertAll(ts, mapping, rate).Ok?
    ensures ConvertToActualImport(ts, mapping, rate).Ok?
    ensures var es, gs := ConvertAll(ts, mapping, rate).value, ConvertToActualImport(ts, mapping, rate).value;
            && IsGrouping(es, gs)
            && multiset(Concat(gs)) == multiset(es)
            && |Concat(gs)| == |Kept(ts, mapping)|
  {
    ConvertAllSpec(ts, mapping, rate);
    var es := ConvertAll(ts, mapping, rate).value;
    if es == [] {
      assert Accounts(es) == {};
    }
    assert |multiset(es)| == |es|;
  }

  /** The example of a VND card purchase: the fraction is cut before scaling and the space after the prefix stays. */
  lemma VndPurchaseExample()
    ensures var t := RawTransaction("T1", "A1", "2024-01-01", 12.5, "VND", "DBIT",
                                    "Giao dich thanh toan/Purchase - So The/Card No: groceries", None, None);
            ConvertTransaction(t, map["A1" := "acct-1"], _ => None)
              == Ok(Some(LedgerEntry("T1", "2024-01-01", -1200, None, " groceries", "acct-1")))
  {
    var t := RawTransaction("T1", "A1", "2024-01-01", 12.5, "VND", "DBIT",
                            "Giao dich thanh toan/Purchase - So The/Card No: groceries", None, None);
    var mapping := map["A1" := "acct-1"];
    assert t.description[..|CardPrefix|] == CardPrefix;
    assert t.description[|CardPrefix|..] == " groceries";
    assert Notes(t) == " groceries";
    assert Trunc(12.5) == 12;
    assert Magnitude(t, _ => None) == Ok(1200);
    assert AccountFor(mapping, "A1") == Some("acct-1");
  }

  /** A VND amount is truncated toward zero, then scaled; the rate feed is not consulted. */
  lemma VndAmount(t: RawTransaction, mapping: map<string, string>, rate: RateFeed, rate': RateFeed)
    requires t.currencyCode == BaseCurrency
    requires AccountFor(mapping, t.arrangementId).Some?
    ensures ConvertTransaction(t, mapping, rate) == ConvertTransaction(t, mapping, rate')
    ensures var r := ConvertTransaction(t, mapping, rate);
            r.Ok? && r.value.Some? && r.value.value.amount % 100 == 0
            && (if t.creditDebitIndicator == DebitIndicator then -r.value.value.amount else r.value.value.amount)
               == 100 * Trunc(t.amount)
  {
  }

  /** A foreign amount is the rounded product of amount, rate and 100, within half a minor unit. */
  lemma ForeignAmount(t: RawTransaction, mapping: map<string, string>, rate: RateFeed)
    requires t.currencyCode != BaseCurrency
    requires AccountFor(mapping, t.arrangementId).Some?
    ensures rate(t.currencyCode).None? <==> ConvertTransaction(t, mapping, rate).Err?
    ensures rate(t.currencyCode).Some? ==>
              var x := t.amount * rate(t.currencyCode).value * 100.0;
              var r := ConvertTransaction(t, mapping, rate);
              var a := if t.creditDebitIndicator == DebitIndicator then -r.value.value.amount else r.value.value.amount;
              r.Ok? && r.value.Some? && -0.5 <= x - a as real <= 0.5
  {
  }

  /** The sign follows the indicator: a debit is the negation of the same record with any other indicator. */
  lemma DebitNegates(t: RawTransaction, other: string, mapping: map<string, string>, rate: RateFeed)
    requires other != DebitIndicator
    requires ConvertTransaction(t, mapping, rate).Ok? && ConvertTransaction(t, mapping, rate).value.Some?
    ensures var debit := ConvertTransaction(t.(creditDebitIndicator := DebitIndicator), mapping, rate);
            var credit := ConvertTransaction(t.(creditDebitIndicator := other), mapping, rate);
            debit.Ok? && debit.value.Some? && credit.Ok? && credit.value.Some?
            && debit.value.value.amount == -credit.value.value.amount
            && debit.value.value.(amount := 0) == credit.value.value.(amount := 0)
  {
    var d, c := t.(creditDebitIndicator := DebitIndicator), t.(creditDebitIndicator := other);
    assert AccountFor(mapping, d.arrangementId) == AccountFor(mapping, t.arrangementId);
    assert AccountFor(mapping, c.arrangementId) == AccountFor(mapping, t.arrangementId);
    assert d.currencyCode == t.currencyCode == c.currencyCode && d.amount == t.amount == c.amount;
    MagnitudeIgnoresIndicator(t, d, rate);
    MagnitudeIgnoresIndicator(t, c, rate);
    assert Notes(d) == Notes(t) == Notes(c);
  }

  lemma MagnitudeIgnoresIndicator(t: RawTransaction, u: RawTransaction, rate: RateFeed)
    requires t.currencyCode == u.currencyCode && t.amount == u.amount
    ensures Magnitude(t, rate) == Magnitude(u, rate)
  {
    if t.currencyCode != BaseCurrency {
      assert rate(t.currencyCode) == rate(u.currencyCode);
    }
  }

  /** The notes keep what follows the card prefix verbatim and gain the account suffix only when present. */
  lemma NotesSpec(t: RawTransaction)
    ensures Text.StartsWith(t.description, CardPrefix) ==>
              Text.StartsWith(Notes(t), t.description[|CardPrefix|..])
    ensures !Text.StartsWith(t.description, CardPrefix) ==> Text.StartsWith(Notes(t), t.description)
    ensures t.counterPartyAccountNumber.None? ==>
              |Notes(t)| <= |t.description| && Notes(t) == t.description[|t.description| - |Notes(t)|..]
    ensures t.counterPartyAccountNumber.Some? ==>
              Notes(t) == Notes(t.(counterPartyAccountNumber := None)) + " @ " + t.counterPartyAccountNumber.value
  {
    var base := Text.RemovePrefix(t.description, CardPrefix);
    assert Notes(t)[..|base|] == base;
    if Text.StartsWith(t.description, CardPrefix) {
      assert t.description[|t.description| - |base|..] == base;
    }
  }

  // ---------------------------------------------------------------------
  // sorted(key=account) and groupby(key=account)
  // ---------------------------------------------------------------------

  /** The entries of account `k`, in their order in `s`. */
  function Filter(s: seq<LedgerEntry>, k: string): seq<LedgerEntry>
    decreases |s|
  {
    if s == [] then []
    else (if s[0].account == k then [s[0]] else []) + Filter(s[1..], k)
  }

  function Accounts(s: seq<LedgerEntry>): set<string> {
    set e | e in s :: e.account
  }

  function Concat(gs: seq<Group>): seq<LedgerEntry>
    decreases |gs|
  {
    if gs == [] then [] else gs[0].entries + Concat(gs[1..])
  }

  ghost predicate SortedByAccount(s: seq<LedgerEntry>) {
    forall i, j :: 0 <= i < j < |s| ==> Text.LessEq(s[i].account, s[j].account)
  }

  /**
   * What the grouped dict must be: keys in strictly increasing order, exactly
   * the accounts present, and each key holding that account's entries in
   * input order.
   */
  ghost predicate IsGrouping(es: seq<LedgerEntry>, gs: seq<Group>) {
    KeysIncreasing(gs) && Keys(gs) == Accounts(es) && GroupsFiltered(es, gs)
  }

  ghost predicate KeysIncreasing(gs: seq<Group>) {
    forall i, j :: 0 <= i < j < |gs| ==> Text.Less(gs[i].account, gs[j].account)
  }

  function Keys(gs: seq<Group>): set<string> {
    set g | g in gs :: g.account
  }

  ghost predicate GroupsFiltered(es: seq<LedgerEntry>, gs: seq<Group>) {
    forall g :: g in gs ==> g.entries == Filter(es, g.account)
  }

  /** Inserts `e` before the first entry whose account is not smaller (keeps earlier equals first). */
  function Insert(e: LedgerEntry, s: seq<LedgerEntry>): seq<LedgerEntry>
    decreases |s|
  {
    if s == [] || Text.LessEq(e.account, s[0].account) then [e] + s
    else [s[0]] + Insert(e, s[1..])
  }

  /** `sorted(a, key=itemgetter("account"))`, a stable sort. */
  function SortByAccount(s: seq<LedgerEntry>): seq<LedgerEntry>
    decreases |s|
  {
    if s == [] then [] else Insert(s[0], SortByAccount(s[1..]))
  }

  /** The length of the leading run of entries of account `k`. */
  function RunLength(s: seq<LedgerEntry>, k: string): (n: nat)
    ensures n <= |s|
    ensures forall i :: 0 <= i < n ==> s[i].account == k
    ensures n < |s| ==> s[n].account != k
    decreases |s|
  {
    if s == [] || s[0].account != k then 0 else 1 + RunLength(s[1..], k)
  }

  /** `groupby`: one group per maximal run of equal accounts. */
  function GroupRuns(s: seq<LedgerEntry>): seq<Group>
    decreases |s|
  {
    if s == [] then []
    else
      var n := RunLength(s, s[0].account);
      [Group(s[0].account, s[..n])] + GroupRuns(s[n..])
  }

  /** The dict comprehension over `groupby(sorted(a))`. */
  function GroupByAccount(es: seq<LedgerEntry>): (gs: seq<Group>)
    ensures IsGrouping(es, gs)
    ensures multiset(Concat(gs)) == multiset(es)
  {
    var s := SortByAccount(es);
    SortByAccountSpec(es);
    GroupRunsSpec(s);
    GroupsTransfer(s, es, GroupRuns(s));
    GroupRuns(s)
  }

  // ---------------------------------------------------------------------
  // Proofs about sorting and grouping
  // ---------------------------------------------------------------------

  lemma {:induction false} FilterConcat(a: seq<LedgerEntry>, b: seq<LedgerEntry>, k: string)
    ensures Filter(a + b, k) == Filter(a, k) + Filter(b, k)
    decreases |a|
  {
    if a == [] {
      assert a + b == b;
    } else {
      var head := if a[0].account == k then [a[0]] else [];
      assert (a + b)[0] == a[0];
      assert (a + b)[1..] == a[1..] + b;
      FilterConcat(a[1..], b, k);
      assert Filter(a + b, k) == head + (Filter(a[1..], k) + Filter(b, k));
      assert Filter(a, k) == head + Filter(a[1..], k);
    }
  }

  lemma {:induction false} FilterAbsent(s: seq<LedgerEntry>, k: string)
    requires k !in Accounts(s)
    ensures Filter(s, k) == []
    decreases |s|
  {
    if s != [] {
      assert Accounts(s[1..]) <= Accounts(s);
      FilterAbsent(s[1..], k);
    }
  }

  lemma {:induction false} FilterAll(s: seq<LedgerEntry>, k: string)
    requires forall i :: 0 <= i < |s| ==> s[i].account == k
    ensures Filter(s, k) == s
    decreases |s|
  {
    if s != [] {
      FilterAll(s[1..], k);
    }
  }

  lemma {:induction false} InsertElements(e: LedgerEntry, s: seq<LedgerEntry>)
    ensures multiset(Insert(e, s)) == multiset(s) + multiset{e}
    decreases |s|
  {
    if s != [] && !Text.LessEq(e.account, s[0].account) {
      InsertElements(e, s[1..]);
      assert s == [s[0]] + s[1..];
    }
  }

  /** Every element of an insertion is the inserted one or an element of the original. */
  lemma InsertedFrom(e: LedgerEntry, s: seq<LedgerEntry>, r: seq<LedgerEntry>, j: int)
    requires multiset(r) == multiset(s) + multiset{e} && 0 <= j < |r|
    ensures r[j] == e || exists i :: 0 <= i < |s| && s[i] == r[j]
  {
    assert r[j] in multiset(r);
    if r[j] != e {
      assert r[j] in multiset(s);
    }
  }

  lemma {:induction false} InsertSorted(e: LedgerEntry, s: seq<LedgerEntry>)
    requires SortedByAccount(s)
    ensures SortedByAccount(Insert(e, s))
    decreases |s|
  {
    if s == [] {
    } else if Text.LessEq(e.account, s[0].account) {
      forall j | 0 < j < |s| + 1
        ensures Text.LessEq(e.account, ([e] + s)[j].account)
      {
        Text.LessEqRefl(s[0].account);
        Text.LessEqTransitive(e.account, s[0].account, s[j - 1].account);
      }
    } else {
      Text.LessEqTotal(e.account, s[0].account);
      InsertSorted(e, s[1..]);
      InsertElements(e, s[1..]);
      var r := Insert(e, s[1..]);
      forall j | 0 <= j < |r|
        ensures Text.LessEq(s[0].account, r[j].account)
      {
        InsertedFrom(e, s[1..], r, j);
        if r[j] != e {
          var i :| 0 <= i < |s[1..]| && s[1..][i] == r[j];
          assert s[i + 1] == r[j];
        }
      }
      assert Insert(e, s) == [s[0]] + r;
    }
  }

  lemma {:induction false} InsertFilter(e: LedgerEntry, s: seq<LedgerEntry>, k: string)
    ensures Filter(Insert(e, s), k) == (if e.account == k then [e] else []) + Filter(s, k)
    decreases |s|
  {
    if s != [] && !Text.LessEq(e.account, s[0].account) {
      if s[0].account == e.account {
        Text.LessEqRefl(e.account);
      }
      var head := if s[0].account == k then [s[0]] else [];
      var ek := if e.account == k then [e] else [];
      calc {
        Filter(Insert(e, s), k);
        Filter([s[0]] + Insert(e, s[1..]), k);
        { FilterConcat([s[0]], Insert(e, s[1..]), k); }
        Filter([s[0]], k) + Filter(Insert(e, s[1..]), k);
        { InsertFilter(e, s[1..], k); }
        head + (ek + Filter(s[1..], k));
        // s[0] and e never both belong to k, since e's account is not below s[0]'s
        ek + (head + Filter(s[1..], k));
        { assert s == [s[0]] + s[1..]; FilterConcat([s[0]], s[1..], k); }
        ek + Filter(s, k);
      }
    }
  }

  lemma {:induction false} SortByAccountSpec(es: seq<LedgerEntry>)
    ensures SortedByAccount(SortByAccount(es))
    ensures multiset(SortByAccount(es)) == multiset(es)
    ensures forall k :: Filter(SortByAccount(es), k) == Filter(es, k)
    decreases |es|
  {
    if es != [] {
      SortByAccountSpec(es[1..]);
      InsertSorted(es[0], SortByAccount(es[1..]));
      InsertElements(es[0], SortByAccount(es[1..]));
      assert es == [es[0]] + es[1..];
      forall k ensures Filter(SortByAccount(es), k) == Filter(es, k) {
        InsertFilter(es[0], SortByAccount(es[1..]), k);
      }
    }
  }

  lemma AccountsOfMultiset(a: seq<LedgerEntry>, b: seq<LedgerEntry>)
    requires multiset(a) == multiset(b)
    ensures Accounts(a) == Accounts(b)
  {
    forall x | x in Accounts(a) ensures x in Accounts(b) {
      var e :| e in a && e.account == x;
      assert e in multiset(b);
    }
    forall x | x in Accounts(b) ensures x in Accounts(a) {
      var e :| e in b && e.account == x;
      assert e in multiset(a);
    }
  }

  /** In a sorted sequence, every account after the leading run of `k` is above `k`. */
  lemma AfterRunAbove(s: seq<LedgerEntry>, n: nat)
    requires SortedByAccount(s) && s != []
    requires n == RunLength(s, s[0].account)
    ensures forall x :: x in Accounts(s[n..]) ==> Text.Less(s[0].account, x)
  {
    var k := s[0].account;
    forall x | x in Accounts(s[n..]) ensures Text.Less(k, x) {
      var e :| e in s[n..] && e.account == x;
      var j :| 0 <= j < |s[n..]| && s[n..][j] == e;
      assert s[n + j] == e;
      assert n > 0;
      assert Text.LessEq(k, x);
      if x == k {
        assert j > 0;
        assert Text.LessEq(s[n].account, x);
        assert Text.LessEq(k, s[n].account);
        Text.LessEqAntisymmetric(k, s[n].account);
      }
    }
  }

  /** Putting a run of `k` in front of a grouping of entries that are all above `k`. */
  lemma ConsGrouping(k: string, run: seq<LedgerEntry>, rest: seq<LedgerEntry>, tail: seq<Group>)
    requires run != [] && forall i :: 0 <= i < |run| ==> run[i].account == k
    requires forall x :: x in Accounts(rest) ==> Text.Less(k, x)
    requires IsGrouping(rest, tail)
    ensures IsGrouping(run + rest, [Group(k, run)] + tail)
  {
    ConsKeys(k, run, rest, tail);
    ConsFiltered(k, run, rest, tail);
    ConsIncreasing(k, run, tail, Accounts(rest));
  }

  lemma ConsKeys(k: string, run: seq<LedgerEntry>, rest: seq<LedgerEntry>, tail: seq<Group>)
    requires run != [] && forall i :: 0 <= i < |run| ==> run[i].account == k
    requires Keys(tail) == Accounts(rest)
    ensures Keys([Group(k, run)] + tail) == Accounts(run + rest)
  {
    assert Accounts(run) == {k} by {
      assert run[0] in run;
    }
    assert Accounts(run + rest) == Accounts(run) + Accounts(rest);
    assert Keys([Group(k, run)] + tail) == {k} + Keys(tail);
  }

  lemma ConsFiltered(k: string, run: seq<LedgerEntry>, rest: seq<LedgerEntry>, tail: seq<Group>)
    requires forall i :: 0 <= i < |run| ==> run[i].account == k
    requires forall x :: x in Accounts(rest) ==> Text.Less(k, x)
    requires Keys(tail) == Accounts(rest)
    requires GroupsFiltered(rest, tail)
    ensures GroupsFiltered(run + rest, [Group(k, run)] + tail)
  {
    var s := run + rest;
    FilterAll(run, k);
    FilterConcat(run, rest, k);
    FilterAbsent(rest, k);
    forall g | g in tail ensures g.entries == Filter(s, g.account) {
      assert g.account in Keys(tail);
      FilterConcat(run, rest, g.account);
      FilterAbsent(run, g.account);
    }
  }

  lemma ConsIncreasing(k: string, run: seq<LedgerEntry>, tail: seq<Group>, above: set<string>)
    requires Keys(tail) == above && forall x :: x in above ==> Text.Less(k, x)
    requires KeysIncreasing(tail)
    ensures KeysIncreasing([Group(k, run)] + tail)
  {
    var gs := [Group(k, run)] + tail;
    forall i, j | 0 <= i < j < |gs| ensures Text.Less(gs[i].account, gs[j].account) {
      assert gs[j] == tail[j - 1];
      if i == 0 {
        assert tail[j - 1] in tail;
      } else {
        assert gs[i] == tail[i - 1];
      }
    }
  }

  lemma {:induction false} GroupRunsSpec(s: seq<LedgerEntry>)
    requires SortedByAccount(s)
    ensures IsGrouping(s, GroupRuns(s))
    ensures Concat(GroupRuns(s)) == s
    decreases |s|
  {
    if s != [] {
      var k := s[0].account;
      var n := RunLength(s, k);
      var run, rest := s[..n], s[n..];
      assert s == run + rest;
      assert SortedByAccount(rest);
      GroupRunsSpec(rest);
      AfterRunAbove(s, n);
      ConsGrouping(k, run, rest, GroupRuns(rest));
    }
  }

  lemma GroupsTransfer(s: seq<LedgerEntry>, es: seq<LedgerEntry>, gs: seq<Group>)
    requires IsGrouping(s, gs) && Concat(gs) == s
    requires multiset(s) == multiset(es)
    requires forall k :: Filter(s, k) == Filter(es, k)
    ensures IsGrouping(es, gs)
    ensures multiset(Concat(gs)) == multiset(es)
  {
    AccountsOfMultiset(s, es);
  }
}
