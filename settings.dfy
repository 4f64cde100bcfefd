/**
 * The account-mapping editor of frontend/src/pages/SettingsPage.jsx: how the
 * stored `accounts_mapping` text becomes the editable list of mappings, how
 * the list is edited row by row, how an imported configuration file is
 * merged into the form, and how a row's arrangement ids are displayed.
 */
module Settings {
  import opened Wrappers
  import Text
  import opened Config

  // ---------------------------------------------------------------------
  // Loading the stored mapping text
  // ---------------------------------------------------------------------

  /** The stored `accounts_mapping` text, as `JSON.parse` sees it. */
  datatype StoredMapping =
    | Missing                                      // empty or absent text: '[]' is parsed instead
    | StoredArray(entries: seq<MappingEntry>)      // the list form
    | StoredObject(fields: seq<(string, string)>)  // the legacy flat dict, in the order `Object.entries` lists it
    | StoredString(s: string)                      // a JSON string: its entries are index/scalar-value pairs
    | StoredScalar                                 // null, a number or a boolean
    | Unparseable                                  // JSON.parse throws

  const LegacyName := "Legacy Import"

  /** The legacy conversion: one `Legacy Import` mapping per key of the flat dict. */
  function LegacyEntries(fields: seq<(string, string)>): (r: seq<MappingEntry>)
    ensures |r| == |fields|
  {
    seq(|fields|, i requires 0 <= i < |fields| => MappingEntry(fields[i].1, LegacyName, List([fields[i].0])))
  }

  /** `Object.entries` of a string: each Unicode scalar value under its decimal index. */
  function StringEntries(s: string): (r: seq<(string, string)>)
    ensures |r| == |s|
    ensures forall i :: 0 <= i < |s| ==> r[i] == (Text.Decimal(i), [s[i]])
  {
    seq(|s|, i requires 0 <= i < |s| => (Text.Decimal(i), [s[i]]))
  }

  /**
   * The mapping list the page starts from: the array itself, the legacy dict
   * converted (a string converts through its characters), and the empty list
   * whenever parsing or conversion throws (`Object.entries(null)` throws; a
   * number or boolean has no entries).
   */
  function LoadMappings(stored: StoredMapping): (r: seq<MappingEntry>)
    ensures stored.StoredArray? ==> r == stored.entries
    ensures stored.StoredObject? ==> r == LegacyEntries(stored.fields)
    ensures stored.StoredString? ==> r == LegacyEntries(StringEntries(stored.s))
    ensures stored.Missing? || stored.StoredScalar? || stored.Unparseable? ==> r == []
  {
    match stored
    case StoredArray(entries) => entries
    case StoredObject(fields) => LegacyEntries(fields)
    case StoredString(s) => LegacyEntries(StringEntries(s))
    case _ => []
  }

  /** The flat dict a list of key/value pairs denotes: a later pair replaces an earlier one. */
  function DictOf(fields: seq<(string, string)>): map<string, string>
    decreases |fields|
  {
    if fields == [] then map[]
    else DictOf(fields[..|fields| - 1])[fields[|fields| - 1].0 := fields[|fields| - 1].1]
  }

  /** Flattening the converted entries gives back the dict. */
  lemma {:induction false} LegacyFlatten(fields: seq<(string, string)>)
    ensures Flatten(LegacyEntries(fields)) == DictOf(fields)
    decreases |fields|
  {
    if fields != [] {
      var n := |fields|;
      var init, last := fields[..n - 1], fields[n - 1];
      var es := LegacyEntries(fields);
      assert es[..n - 1] == LegacyEntries(init);
      LegacyFlatten(init);
      SingleEntryMap(es[n - 1], last.0);
      UpdateIsUnion(DictOf(init), last.0, last.1);
    }
  }

  lemma SingleEntryMap(e: MappingEntry, k: string)
    requires e.arrangementIds == List([k])
    ensures EntryMap(e) == map[k := e.id]
  {
    assert Pieces(e.arrangementIds) == [k];
  }

  lemma UpdateIsUnion(m: map<string, string>, k: string, v: string)
    ensures m[k := v] == m + map[k := v]
  {
  }

  /** Converting a legacy dict and flattening it again gives back the dict. */
  lemma LegacyRoundTrip(fields: seq<(string, string)>)
    ensures Flatten(LoadMappings(StoredObject(fields))) == DictOf(fields)
  {
    LegacyFlatten(fields);
  }

  /** With no key repeated, the dict holds every pair as written. */
  lemma {:induction false} DictOfDistinct(fields: seq<(string, string)>)
    requires forall i, j :: 0 <= i < j < |fields| ==> fields[i].0 != fields[j].0
    ensures forall i :: 0 <= i < |fields| ==> fields[i].0 in DictOf(fields) && DictOf(fields)[fields[i].0] == fields[i].1
    decreases |fields|
  {
    if fields != [] {
      var init := fields[..|fields| - 1];
      DictOfDistinct(init);
      forall i | 0 <= i < |fields| - 1
        ensures fields[i].0 in DictOf(fields) && DictOf(fields)[fields[i].0] == fields[i].1
      {
        assert init[i] == fields[i];
      }
    }
  }

  /** A stored string `"ab"` maps arrangement `0` to account `a` and `1` to `b`. */
  lemma StoredStringFlatten(s: string)
    ensures var m := Flatten(LoadMappings(StoredString(s)));
            forall i :: 0 <= i < |s| ==> Text.Decimal(i) in m && m[Text.Decimal(i)] == [s[i]]
  {
    var f := StringEntries(s);
    forall i, j | 0 <= i < j < |f| ensures f[i].0 != f[j].0 {
      assert Text.DigitsValue(Text.Decimal(i)) != Text.DigitsValue(Text.Decimal(j));
    }
    DictOfDistinct(f);
    LegacyFlatten(f);
  }

  // ---------------------------------------------------------------------
  // Editing one row
  // ---------------------------------------------------------------------

  /** The three fields a row editor writes. */
  datatype Field = IdField | NameField | ArrangementIdsField

  /** `value.split(',').map(s => s.trim())`: empty pieces are kept. */
  function SplitTrim(value: string): (r: seq<string>)
    ensures |r| == |Text.Split(value, ',')| >= 1
    ensures forall i :: 0 <= i < |r| ==> r[i] == Text.Trim(Text.Split(value, ',')[i])
  {
    var pieces := Text.Split(value, ',');
    seq(|pieces|, i requires 0 <= i < |pieces| => Text.Trim(pieces[i]))
  }

  /** One row after `row[field] = value`. */
  function SetField(e: MappingEntry, field: Field, value: string): MappingEntry {
    match field
    case IdField => e.(id := value)
    case NameField => e.(name := value)
    case ArrangementIdsField => e.(arrangementIds := List(SplitTrim(value)))
  }

  /** The list after `handleMappingChange(index, field, value)`; an index with no row changes nothing. */
  function ChangeField(es: seq<MappingEntry>, index: int, field: Field, value: string): seq<MappingEntry> {
    if 0 <= index < |es| then es[index := SetField(es[index], field, value)] else es
  }

  /**
   * Only row `index` changes, and only in the edited field; arrangement ids
   * become the trimmed comma-separated pieces, other fields the text itself.
   */
  lemma ChangeFieldSpec(es: seq<MappingEntry>, index: int, field: Field, value: string)
    requires 0 <= index < |es|
    ensures var r := ChangeField(es, index, field, value);
            && |r| == |es|
            && (forall j :: 0 <= j < |es| && j != index ==> r[j] == es[j])
            && r[index].id == (if field == IdField then value else es[index].id)
            && r[index].name == (if field == NameField then value else es[index].name)
            && r[index].arrangementIds ==
                 (if field == ArrangementIdsField then List(SplitTrim(value)) else es[index].arrangementIds)
  {
  }

  /** Every piece stored for `arrangementIds` is trimmed and holds no comma. */
  lemma SplitTrimPieces(value: string)
    ensures forall i :: 0 <= i < |SplitTrim(value)| ==>
              ',' !in SplitTrim(value)[i] && Text.IsTrimmed(SplitTrim(value)[i])
  {
    var pieces := Text.Split(value, ',');
    forall i | 0 <= i < |pieces| ensures ',' !in Text.Trim(pieces[i]) && Text.IsTrimmed(Text.Trim(pieces[i])) {
      var t := Text.TrimStart(pieces[i]);
      assert Text.Trim(pieces[i]) == Text.TrimEnd(t);
      assert forall c :: c in Text.TrimEnd(t) ==> c in t;
      assert forall c :: c in t ==> c in pieces[i];
      if Text.TrimEnd(t) != [] {
        assert Text.TrimEnd(t)[0] == t[0];
      }
    }
  }

  // ---------------------------------------------------------------------
  // Removing a row: Array.prototype.splice(index, 1)
  // ---------------------------------------------------------------------

  /** Where `splice` starts: a negative index counts from the end, clamped to the array. */
  function SpliceStart(len: nat, index: int): (k: nat)
    ensures k <= len
    ensures 0 <= index <= len ==> k == index
    ensures index < 0 && 0 <= len + index ==> k == len + index
    ensures len + index < 0 ==> k == 0
    ensures index > len ==> k == len
  {
    if index < 0 then (if len + index < 0 then 0 else len + index)
    else if index > len then len
    else index
  }

  /** `s.splice(index, 1)` applied to a copy of `s`. */
  function RemoveAt<T>(s: seq<T>, index: int): seq<T> {
    var k := SpliceStart(|s|, index);
    if k < |s| then s[..k] + s[k + 1..] else s
  }

  /**
   * A row index removes exactly that row, keeping the others in order;
   * a negative index counts from the end; an index past the end removes nothing.
   */
  lemma RemoveAtSpec<T>(s: seq<T>, index: int)
    ensures 0 <= index < |s| ==> RemoveAt(s, index) == s[..index] + s[index + 1..]
    ensures 0 <= index < |s| ==> |RemoveAt(s, index)| == |s| - 1
    ensures -|s| <= index < 0 ==> RemoveAt(s, index) == s[..|s| + index] + s[|s| + index + 1..]
    ensures index >= |s| ==> RemoveAt(s, index) == s
    ensures s != [] && index < -|s| ==> RemoveAt(s, index) == s[1..]
  {
  }

  // ---------------------------------------------------------------------
  // Importing a configuration file
  // ---------------------------------------------------------------------

  /** The six credential fields of the form. */
  datatype Credentials = Credentials(
    tcbUsername: string,
    tcbPassword: string,
    actualUrl: string,
    actualPassword: string,
    actualBudgetId: string,
    actualBudgetPassword: string)

  /** The fields of an imported JSON file the merge reads; `None` where the key is absent or null. */
  datatype ImportedConfig = ImportedConfig(
    tcbUsername: Option<string>,
    tcbPassword: Option<string>,
    actualUrl: Option<string>,
    actualPassword: Option<string>,
    actualBudgetId: Option<string>,
    actualBudgetPassword: Option<string>,
    mappings: Option<seq<MappingEntry>>)

  /**
   * What the file input delivers: no file, a file that does not parse, or a
   * parsed file other than `null`. A number, string, boolean or array has
   * none of the fields, and is a parsed file with every field absent.
   */
  datatype ImportEvent = NoFile | ParseFailed(error: string) | Parsed(json: ImportedConfig)

  /** `imported || previous` for a string field: the empty string is falsy. */
  function Pick(imported: Option<string>, previous: string): (r: string)
    ensures imported.Some? && imported.value != "" ==> r == imported.value
    ensures imported.None? || imported.value == "" ==> r == previous
  {
    if imported.Some? && imported.value != "" then imported.value else previous
  }

  /** The credential part of the merge. */
  function MergeCredentials(prev: Credentials, json: ImportedConfig): Credentials {
    Credentials(
      Pick(json.tcbUsername, prev.tcbUsername),
      Pick(json.tcbPassword, prev.tcbPassword),
      Pick(json.actualUrl, prev.actualUrl),
      Pick(json.actualPassword, prev.actualPassword),
      Pick(json.actualBudgetId, prev.actualBudgetId),
      Pick(json.actualBudgetPassword, prev.actualBudgetPassword))
  }

  /** The mapping part of the merge: any array, even an empty one, is truthy and replaces the list. */
  function MergeMappings(prev: seq<MappingEntry>, json: ImportedConfig): (r: seq<MappingEntry>)
    ensures json.mappings.Some? ==> r == json.mappings.value
    ensures json.mappings.None? ==> r == prev
  {
    if json.mappings.Some? then json.mappings.value else prev
  }

  /** A file with none of the fields leaves the form as it was. */
  lemma MergeNothing(prev: Credentials, ms: seq<MappingEntry>)
    ensures var json := ImportedConfig(None, None, None, None, None, None, None);
            MergeCredentials(prev, json) == prev && MergeMappings(ms, json) == ms
  {
  }

  /** Importing the same file twice is the same as importing it once. */
  lemma MergeIdempotent(prev: Credentials, ms: seq<MappingEntry>, json: ImportedConfig)
    ensures MergeCredentials(MergeCredentials(prev, json), json) == MergeCredentials(prev, json)
    ensures MergeMappings(MergeMappings(ms, json), json) == MergeMappings(ms, json)
  {
  }

  /** An imported non-empty value always ends up in the form, whatever was there before. */
  lemma MergeTakesTruthy(prev: Credentials, json: ImportedConfig)
    requires json.tcbUsername.Some? && json.tcbUsername.value != ""
    ensures MergeCredentials(prev, json).tcbUsername == json.tcbUsername.value
    ensures forall p: Credentials :: MergeCredentials(p, json).tcbUsername == MergeCredentials(prev, json).tcbUsername
  {
  }

  // ---------------------------------------------------------------------
  // Displaying a row's arrangement ids
  // ---------------------------------------------------------------------

  /** `getArrangmentsString`: "" for a falsy value, an array joined with ", ", a string as it is. */
  function GetArrangementsString(f: IdsField): (r: string)
    ensures f.Absent? ==> r == ""
    ensures f.Text? ==> r == f.s
    ensures f.List? && |f.ids| == 1 ==> r == f.ids[0]
  {
    match f
    case Absent => ""
    case List(ids) => Text.Join(ids, ", ")
    case Text(s) => s
  }

  /** The pieces of a displayed list: the first id, then each later id after a space. */
  lemma {:induction false} SplitJoined(ids: seq<string>)
    requires |ids| >= 1
    requires forall i :: 0 <= i < |ids| ==> ',' !in ids[i]
    ensures var pieces := Text.Split(Text.Join(ids, ", "), ',');
            && |pieces| == |ids|
            && pieces[0] == ids[0]
            && forall i :: 1 <= i < |ids| ==> pieces[i] == " " + ids[i]
    decreases |ids|
  {
    if |ids| == 1 {
      Text.SplitNoSeparator(ids[0], ',');
    } else {
      var rest := Text.Join(ids[1..], ", ");
      assert Text.Join(ids, ", ") == ids[0] + [','] + (" " + rest);
      Text.SplitAtSeparator(ids[0], " " + rest, ',');
      SplitJoined(ids[1..]);
      Text.SplitAfterChar(' ', rest, ',');
      var tail := Text.Split(rest, ',');
      assert Text.Split(" " + rest, ',') == [" " + tail[0]] + tail[1..];
      var pieces := Text.Split(Text.Join(ids, ", "), ',');
      assert pieces == [ids[0]] + ([" " + tail[0]] + tail[1..]);
      forall i | 1 <= i < |ids| ensures pieces[i] == " " + ids[i] {
        if i > 1 {
          assert pieces[i] == tail[i - 1] == " " + ids[1..][i - 1];
        }
      }
    }
  }

  /**
   * Displaying a non-empty list of trimmed, comma-free ids and typing the
   * text back into the field stores the same ids.
   */
  lemma DisplayRoundTrip(ids: seq<string>)
    requires |ids| >= 1
    requires forall i :: 0 <= i < |ids| ==> ',' !in ids[i] && Text.IsTrimmed(ids[i])
    ensures SplitTrim(GetArrangementsString(List(ids))) == ids
  {
    var text := Text.Join(ids, ", ");
    assert GetArrangementsString(List(ids)) == text;
    SplitJoined(ids);
    var pieces := Text.Split(text, ',');
    var r := SplitTrim(text);
    assert |r| == |pieces| == |ids|;
    forall i | 0 <= i < |ids| ensures r[i] == ids[i] {
      assert r[i] == Text.Trim(pieces[i]);
      if i == 0 {
        assert pieces[0] == ids[0];
        Text.TrimOfTrimmed(ids[0]);
      } else {
        assert pieces[i] == " " + ids[i];
        Text.TrimAfterSpace(ids[i]);
      }
    }
  }

  /** An empty list is displayed as "", which typed back becomes one empty id. */
  lemma EmptyListEditsToOneEmptyId()
    ensures GetArrangementsString(List([])) == ""
    ensures SplitTrim(GetArrangementsString(List([]))) == [""]
  {
  }

  // ---------------------------------------------------------------------
  // The form state
  // ---------------------------------------------------------------------

  /** One mapping row of the form: a JavaScript object the editor updates in place. */
  class MappingRow {
    var id: string
    var name: string
    var arrangementIds: IdsField

    function Value(): MappingEntry
      reads this
    {
      MappingEntry(id, name, arrangementIds)
    }

    constructor (e: MappingEntry)
      ensures Value() == e
    {
      id, name, arrangementIds := e.id, e.name, e.arrangementIds;
    }
  }

  /** The values of a list of rows. */
  function Values(rows: seq<MappingRow>): (r: seq<MappingEntry>)
    reads rows
    ensures |r| == |rows|
    ensures forall i :: 0 <= i < |rows| ==> r[i] == rows[i].Value()
  {
    seq(|rows|, i reads rows requires 0 <= i < |rows| => rows[i].Value())
  }

  ghost predicate DistinctRows(rows: seq<MappingRow>) {
    forall i, j :: 0 <= i < j < |rows| ==> rows[i] != rows[j]
  }

  /** Splicing a row out of the list splices its value out of the values. */
  lemma RemoveRowValues(rows: seq<MappingRow>, k: nat)
    requires k < |rows|
    ensures Values(rows[..k] + rows[k + 1..]) == Values(rows)[..k] + Values(rows)[k + 1..]
  {
    var rest := rows[..k] + rows[k + 1..];
    var all := Values(rows);
    var vs, want := Values(rest), all[..k] + all[k + 1..];
    assert |vs| == |rest| == |want|;
    forall i | 0 <= i < |rest| ensures vs[i] == want[i] {
      var src := if i < k then i else i + 1;
      assert rest[i] == rows[src];
      assert want[i] == all[src] == rows[src].Value();
      assert vs[i] == rest[i].Value();
    }
  }

  /** Splicing a row out of a list of distinct rows keeps them distinct. */
  lemma RemoveRowDistinct(rows: seq<MappingRow>, k: nat)
    requires k < |rows| && DistinctRows(rows)
    ensures DistinctRows(rows[..k] + rows[k + 1..])
  {
    var rest := rows[..k] + rows[k + 1..];
    forall i, j | 0 <= i < j < |rest| ensures rest[i] != rest[j] {
      assert rest[i] == rows[if i < k then i else i + 1];
      assert rest[j] == rows[if j < k then j else j + 1];
    }
  }

  /** `JSON.parse` building one fresh object per mapping. */
  method NewRows(es: seq<MappingEntry>) returns (rows: seq<MappingRow>)
    ensures Values(rows) == es
    ensures DistinctRows(rows)
    ensures forall r :: r in rows ==> fresh(r)
  {
    rows := [];
    for i := 0 to |es|
      invariant |rows| == i
      invariant forall j :: 0 <= j < i ==> rows[j].Value() == es[j]
      invariant DistinctRows(rows)
      invariant forall r :: r in rows ==> fresh(r)
    {
      var row := new MappingRow(es[i]);
      rows := rows + [row];
    }
  }

  /** The settings form: credentials, the mapping rows and the status message. */
  class SettingsForm {
    var credentials: Credentials
    var mappings: seq<MappingRow>
    var msg: string

    /** No row object appears twice in the list. */
    ghost predicate Valid()
      reads this
    {
      DistinctRows(mappings)
    }

    function Entries(): seq<MappingEntry>
      reads this, mappings
    {
      Values(mappings)
    }

    constructor ()
      ensures Valid()
      ensures credentials == Credentials("", "", "", "", "", "") && Entries() == [] && msg == ""
    {
      credentials := Credentials("", "", "", "", "", "");
      mappings := [];
      msg := "";
    }

    /** The initial fetch: the stored credentials and the parsed mapping list. */
    method Load(data: Credentials, stored: StoredMapping)
      modifies this
      ensures Valid()
      ensures credentials == data && Entries() == LoadMappings(stored) && msg == old(msg)
    {
      credentials := data;
      mappings := NewRows(LoadMappings(stored));
    }

    /**
     * `handleMappingChange`: the array is copied but the row object is shared,
     * so the edit happens in the row itself. A missing row throws.
     */
    method HandleMappingChange(index: int, field: Field, value: string) returns (ok: bool)
      requires Valid()
      modifies mappings
      ensures Valid()
      ensures ok <==> 0 <= index < |mappings|
      ensures mappings == old(mappings)
      ensures Entries() == ChangeField(old(Entries()), index, field, value)
    {
      if !(0 <= index < |mappings|) {
        return false;
      }
      var row := mappings[index];
      match field {
        case IdField => row.id := value;
        case NameField => row.name := value;
        case ArrangementIdsField => row.arrangementIds := List(SplitTrim(value));
      }
      ok := true;
    }

    /** `addMapping`: a fresh blank row at the end. */
    method AddMapping()
      requires Valid()
      modifies this
      ensures Valid()
      ensures Entries() == old(Entries()) + [MappingEntry("", "New Account", List([]))]
      ensures credentials == old(credentials) && msg == old(msg)
    {
      var row := new MappingRow(MappingEntry("", "New Account", List([])));
      mappings := mappings + [row];
    }

    /** `removeMapping`: splice one row out of a copy of the list. */
    method RemoveMapping(index: int)
      requires Valid()
      modifies this
      ensures Valid()
      ensures mappings == RemoveAt(old(mappings), index)
      ensures Entries() == RemoveAt(old(Entries()), index)
      ensures credentials == old(credentials) && msg == old(msg)
    {
      var k := SpliceStart(|mappings|, index);
      if k < |mappings| {
        RemoveRowValues(mappings, k);
        RemoveRowDistinct(mappings, k);
        mappings := mappings[..k] + mappings[k + 1..];
      }
    }

    /** `handleImport`: merge a parsed file into the form, or report why it did not parse. */
    method HandleImport(event: ImportEvent)
      requires Valid()
      modifies this
      ensures Valid()
      ensures event.NoFile? ==> credentials == old(credentials) && Entries() == old(Entries()) && msg == old(msg)
      ensures event.ParseFailed? ==>
                credentials == old(credentials) && Entries() == old(Entries())
                && msg == "Error parsing JSON file: " + event.error
      ensures event.Parsed? ==>
                && credentials == MergeCredentials(old(credentials), event.json)
                && Entries() == MergeMappings(old(Entries()), event.json)
                && msg == "Configuration imported successfully!"
    {
      match event
      case NoFile =>
      case ParseFailed(error) =>
        msg := "Error parsing JSON file: " + error;
      case Parsed(json) =>
        credentials := MergeCredentials(credentials, json);
        if json.mappings.Some? {
          mappings := NewRows(json.mappings.value);
        }
        msg := "Configuration imported successfully!";
    }
  }
}
