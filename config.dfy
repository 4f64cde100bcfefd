/**
 * The arrangement map of modules/config.py: the saved list of account
 * mappings, each naming an Actual account id and the bank arrangement ids
 * that feed it, flattened into one `arrangementId -> accountId` map.
 */
module Config {
  import opened Wrappers

  /**
   * The `arrangementIds` value of a mapping: absent, a list of ids, or a
   * plain string (which Python iterates character by character).
   */
  datatype IdsField = Absent | List(ids: seq<string>) | Text(s: string)

  /** One entry of the `mappings` list: `{id, name, arrangementIds}`. */
  datatype MappingEntry = MappingEntry(id: string, name: string, arrangementIds: IdsField)

  /** What `for x in account.get("arrangementIds", [])` iterates over. */
  function Pieces(f: IdsField): (r: seq<string>)
    ensures f.Absent? ==> r == []
    ensures f.List? ==> r == f.ids
    ensures f.Text? ==> |r| == |f.s| && forall i :: 0 <= i < |r| ==> r[i] == [f.s[i]]
  {
    match f
    case Absent => []
    case List(ids) => ids
    case Text(s) => seq(|s|, i requires 0 <= i < |s| => [s[i]])
  }

  /** The pairs one mapping contributes. */
  function EntryMap(m: MappingEntry): map<string, string> {
    map x | x in Pieces(m.arrangementIds) :: m.id
  }

  /**
   * The dict comprehension: mappings are visited in list order and a later
   * assignment to the same arrangement id replaces the earlier one.
   */
  function Flatten(ms: seq<MappingEntry>): map<string, string>
    decreases |ms|
  {
    if ms == [] then map[] else Flatten(ms[..|ms| - 1]) + EntryMap(ms[|ms| - 1])
  }

  /** Reference lookup: the id of the last mapping that lists `k`. */
  function Lookup(ms: seq<MappingEntry>, k: string): (r: Option<string>)
    decreases |ms|
  {
    if ms == [] then None
    else if k in Pieces(ms[|ms| - 1].arrangementIds) then Some(ms[|ms| - 1].id)
    else Lookup(ms[..|ms| - 1], k)
  }

  /** The number of ids listed over all mappings. */
  function TotalIds(ms: seq<MappingEntry>): nat
    decreases |ms|
  {
    if ms == [] then 0 else TotalIds(ms[..|ms| - 1]) + |Pieces(ms[|ms| - 1].arrangementIds)|
  }

  /** `k` is listed by mapping `i` and by no later one. */
  ghost predicate LastListing(ms: seq<MappingEntry>, k: string, i: int) {
    0 <= i < |ms| && k in Pieces(ms[i].arrangementIds)
    && forall j :: i < j < |ms| ==> k !in Pieces(ms[j].arrangementIds)
  }

  // ---------------------------------------------------------------------
  // Properties of the flattened map
  // ---------------------------------------------------------------------

  /** The comprehension and the reference lookup agree on every key. */
  lemma {:induction false} FlattenIsLookup(ms: seq<MappingEntry>, k: string)
    ensures k in Flatten(ms) <==> Lookup(ms, k).Some?
    ensures k in Flatten(ms) ==> Flatten(ms)[k] == Lookup(ms, k).value
    decreases |ms|
  {
    if ms != [] {
      FlattenIsLookup(ms[..|ms| - 1], k);
    }
  }

  /** The lookup succeeds exactly when some mapping lists the key. */
  lemma {:induction false} LookupFound(ms: seq<MappingEntry>, k: string)
    ensures Lookup(ms, k).Some? <==> exists i :: 0 <= i < |ms| && k in Pieces(ms[i].arrangementIds)
    decreases |ms|
  {
    if ms != [] {
      var init := ms[..|ms| - 1];
      LookupFound(init, k);
      if exists i :: 0 <= i < |ms| && k in Pieces(ms[i].arrangementIds) {
        var i :| 0 <= i < |ms| && k in Pieces(ms[i].arrangementIds);
        if i < |ms| - 1 {
          assert init[i] == ms[i];
        }
      }
      if Lookup(init, k).Some? {
        var i :| 0 <= i < |init| && k in Pieces(init[i].arrangementIds);
        assert ms[i] == init[i];
      }
    }
  }

  /** The lookup returns the id of the last mapping that lists the key. */
  lemma {:induction false} LookupIsLast(ms: seq<MappingEntry>, k: string)
    requires Lookup(ms, k).Some?
    ensures exists i :: LastListing(ms, k, i) && Lookup(ms, k).value == ms[i].id
    decreases |ms|
  {
    var last := |ms| - 1;
    if k in Pieces(ms[last].arrangementIds) {
      assert LastListing(ms, k, last);
    } else {
      var init := ms[..last];
      LookupIsLast(init, k);
      var i :| LastListing(init, k, i) && Lookup(init, k).value == init[i].id;
      assert ms[i] == init[i];
      forall j | i < j < |ms| ensures k !in Pieces(ms[j].arrangementIds) {
        if j < last {
          assert ms[j] == init[j];
        }
      }
      assert LastListing(ms, k, i);
    }
  }

  /**
   * The key set is the union of the listed ids, and each key maps to the id
   * of the last mapping that lists it.
   */
  lemma FlattenSpec(ms: seq<MappingEntry>, k: string)
    ensures k in Flatten(ms) <==> exists i :: 0 <= i < |ms| && k in Pieces(ms[i].arrangementIds)
    ensures k in Flatten(ms) ==> exists i :: LastListing(ms, k, i) && Flatten(ms)[k] == ms[i].id
  {
    FlattenIsLookup(ms, k);
    LookupFound(ms, k);
    if k in Flatten(ms) {
      LookupIsLast(ms, k);
    }
  }

  /** Every id a listed arrangement id maps to is the id of some mapping. */
  lemma FlattenValues(ms: seq<MappingEntry>)
    ensures forall k :: k in Flatten(ms) ==> exists i :: 0 <= i < |ms| && Flatten(ms)[k] == ms[i].id
  {
    forall k | k in Flatten(ms) ensures exists i :: 0 <= i < |ms| && Flatten(ms)[k] == ms[i].id {
      FlattenSpec(ms, k);
    }
  }

  /** Flattening two lists one after the other: the second wins on shared keys. */
  lemma {:induction false} FlattenConcat(a: seq<MappingEntry>, b: seq<MappingEntry>)
    ensures Flatten(a + b) == Flatten(a) + Flatten(b)
    decreases |b|
  {
    if b == [] {
      assert a + b == a;
    } else {
      var b', last := b[..|b| - 1], b[|b| - 1];
      assert (a + b)[..|a + b| - 1] == a + b';
      assert (a + b)[|a + b| - 1] == last;
      FlattenConcat(a, b');
      calc {
        Flatten(a + b);
        Flatten(a + b') + EntryMap(last);
        (Flatten(a) + Flatten(b')) + EntryMap(last);
        { UnionAssociative(Flatten(a), Flatten(b'), EntryMap(last)); }
        Flatten(a) + (Flatten(b') + EntryMap(last));
        Flatten(a) + Flatten(b);
      }
    }
  }

  lemma UnionAssociative(x: map<string, string>, y: map<string, string>, z: map<string, string>)
    ensures (x + y) + z == x + (y + z)
  {
  }

  /** Appending a mapping without `arrangementIds` leaves the map as it was. */
  lemma AppendAbsent(pre: seq<MappingEntry>, m: MappingEntry)
    requires m.arrangementIds.Absent?
    ensures Flatten(pre + [m]) == Flatten(pre)
  {
    assert (pre + [m])[..|pre|] == pre;
    assert EntryMap(m) == map[];
  }

  /** A mapping without `arrangementIds` contributes nothing, wherever it sits. */
  lemma AbsentContributesNothing(ms: seq<MappingEntry>, i: int)
    requires 0 <= i < |ms| && ms[i].arrangementIds.Absent?
    ensures Flatten(ms) == Flatten(ms[..i] + ms[i + 1..])
  {
    var pre, m, post := ms[..i], ms[i], ms[i + 1..];
    assert ms == (pre + [m]) + post;
    FlattenConcat(pre + [m], post);
    AppendAbsent(pre, m);
    FlattenConcat(pre, post);
  }

  lemma EntryMapSize(m: MappingEntry)
    ensures |EntryMap(m)| <= |Pieces(m.arrangementIds)|
  {
    var p := Pieces(m.arrangementIds);
    assert EntryMap(m).Keys == set x | x in p;
    SetOfSeqSize(p);
  }

  lemma {:induction false} SetOfSeqSize(p: seq<string>)
    ensures |set x | x in p| <= |p|
    decreases |p|
  {
    if p != [] {
      var init := p[..|p| - 1];
      SetOfSeqSize(init);
      assert (set x | x in p) == (set x | x in init) + {p[|p| - 1]};
    }
  }

  /** The map has no more keys than ids listed; an empty list gives an empty map. */
  lemma {:induction false} FlattenSize(ms: seq<MappingEntry>)
    ensures |Flatten(ms)| <= TotalIds(ms)
    ensures ms == [] ==> Flatten(ms) == map[]
    decreases |ms|
  {
    if ms != [] {
      var init, last := ms[..|ms| - 1], ms[|ms| - 1];
      FlattenSize(init);
      EntryMapSize(last);
      var f, e := Flatten(init), EntryMap(last);
      assert (f + e).Keys == f.Keys + e.Keys;
      assert |f.Keys + e.Keys| <= |f.Keys| + |e.Keys|;
    }
  }
}
