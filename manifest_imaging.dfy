/**
 * The imaging side of the manifest builder: visit and group normalisation,
 * the reversed description-to-datatype map, the session and group filters,
 * and the per-(subject, visit) datatype lists.
 */
module ManifestImaging {
  import opened Wrappers
  import opened Sequences
  import opened Text
  import opened Records
  import opened DescriptionTree
  import opened ManifestConfig

  /** An imaging row after normalisation: visit code, session, canonical group. */
  datatype NormImaging = NormImaging(
    subject: string,
    visit: string,
    session: Option<string>,
    group: string,
    description: Option<string>)

  /** The (subject, visit) pair the manifest is keyed on. */
  function ImagingKey(row: NormImaging): (string, string)
  {
    (row.subject, row.visit)
  }

  /** The keys of the rows, in row order. */
  function ImagingKeys(rows: seq<NormImaging>): (r: seq<(string, string)>)
    ensures Elems(r) == KeysOf(rows, ImagingKey)
  {
    if rows == [] then []
    else
      var rest := ImagingKeys(rows[1..]);
      assert forall x :: x in rows <==> x == rows[0] || x in rows[1..];
      assert Elems([ImagingKey(rows[0])] + rest) == {ImagingKey(rows[0])} + Elems(rest);
      [ImagingKey(rows[0])] + rest
  }

  predicate VisitMapped(row: ImagingRow)
  {
    row.visit.Some? && row.visit.value in VISIT_IMAGING_MAP
  }

  predicate GroupMapped(row: ImagingRow)
  {
    row.group.Some? && row.group.value in GROUP_IMAGING_MAP
  }

  /** One row mapped: visit code, its session (possibly missing), canonical group. */
  function Normalize(row: ImagingRow): (r: NormImaging)
    requires VisitMapped(row) && GroupMapped(row)
    ensures r.subject == row.subject && r.description == row.description
    ensures r.visit == VISIT_IMAGING_MAP[row.visit.value]
    ensures r.session == VisitSession(r.visit)
    ensures r.group == GROUP_IMAGING_MAP[row.group.value]
  {
    var code := VISIT_IMAGING_MAP[row.visit.value];
    NormImaging(row.subject, code, VisitSession(code), GROUP_IMAGING_MAP[row.group.value], row.description)
  }

  /** Every imaging row has a mapped visit and a mapped group. */
  predicate AllMapped(rows: seq<ImagingRow>)
  {
    forall row :: row in rows ==> VisitMapped(row) && GroupMapped(row)
  }

  /**
   * Visit mapping (fatal on the first unmapped visit), session lookup (a
   * missing session is only warned about) and group mapping (fatal on the
   * first unmapped group), in the order the source applies them.
   */
  function NormalizeImaging(rows: seq<ImagingRow>): (r: Result<seq<NormImaging>, ManifestError>)
    ensures r.Success? <==> AllMapped(rows)
    ensures forall i :: FirstFailure(rows, i, VisitMapped) ==> r == Failure(UnmappedVisit(rows[i].visit))
    ensures (forall row :: row in rows ==> VisitMapped(row)) ==>
      forall i :: FirstFailure(rows, i, GroupMapped) ==> r == Failure(UnmappedGroup(rows[i].group))
    ensures r.Success? ==> |r.value| == |rows| && forall i :: 0 <= i < |rows| ==> r.value[i] == Normalize(rows[i])
    ensures r.Success? ==> forall x :: x in r.value ==> x.session == VisitSession(x.visit)
    ensures r.Failure? ==> r.error.UnmappedVisit? || r.error.UnmappedGroup?
  {
    match FirstFailing(rows, VisitMapped)
    case Some(i) => Failure(UnmappedVisit(rows[i].visit))
    case None =>
      match FirstFailing(rows, GroupMapped)
      case Some(i) => Failure(UnmappedGroup(rows[i].group))
      case None => Success(seq(|rows|, i requires 0 <= i < |rows| => Normalize(rows[i])))
  }

  // ----- reversing the classification -----

  /** Entry `e` sends description (or sub-type key) `d` to its datatype. */
  predicate Assigns(e: Entry, datatypes: seq<string>, d: string)
  {
    e.key in datatypes && d in IteratedItems(e.value)
  }

  /** One entry's contribution: its items now map to its key when it is a datatype. */
  function Overlay(m: map<string, string>, e: Entry, datatypes: seq<string>): (r: map<string, string>)
    ensures forall d :: d in r <==> d in m || Assigns(e, datatypes, d)
    ensures forall d :: d in r ==> r[d] == if Assigns(e, datatypes, d) then e.key else m[d]
  {
    if e.key in datatypes then m + map d | d in IteratedItems(e.value) :: e.key else m
  }

  /**
   * The reversed map after the first `|entries|` entries: entries whose key
   * is not a datatype are skipped, and a later entry overwrites an earlier
   * one. For a nested entry the iterated items are its sub-type keys.
   */
  function ReversedMap(entries: seq<Entry>, datatypes: seq<string>): (r: map<string, string>)
    ensures forall d :: d in r ==> r[d] in datatypes
  {
    if entries == [] then map[]
    else Overlay(ReversedMap(entries[..|entries| - 1], datatypes), entries[|entries| - 1], datatypes)
  }

  /** The reversed map holds exactly the items of datatype entries. */
  lemma {:induction false} ReversedMapDomain(entries: seq<Entry>, datatypes: seq<string>, d: string)
    ensures d in ReversedMap(entries, datatypes) <==>
      exists i :: 0 <= i < |entries| && Assigns(entries[i], datatypes, d)
  {
    if entries != [] {
      var n := |entries| - 1;
      ReversedMapDomain(entries[..n], datatypes, d);
      assert forall i :: 0 <= i < n ==> entries[..n][i] == entries[i];
    }
  }

  /** Each item maps to the datatype of the last entry that lists it. */
  lemma {:induction false} ReversedMapLastWins(entries: seq<Entry>, datatypes: seq<string>, d: string, i: int)
    requires 0 <= i < |entries| && Assigns(entries[i], datatypes, d)
    requires forall j :: i < j < |entries| ==> !Assigns(entries[j], datatypes, d)
    ensures d in ReversedMap(entries, datatypes)
    ensures ReversedMap(entries, datatypes)[d] == entries[i].key
  {
    var n := |entries| - 1;
    if i < n {
      assert entries[..n][i] == entries[i];
      assert forall j :: i < j < n ==> entries[..n][j] == entries[j];
      ReversedMapLastWins(entries[..n], datatypes, d, i);
    }
  }

  /**
   * The inner loop for one classification entry: each item it iterates is
   * mapped to the entry's key, overwriting an earlier datatype.
   */
  method OverlayEntry(m: map<string, string>, e: Entry, datatypes: seq<string>) returns (r: map<string, string>)
    requires e.key in datatypes
    ensures r == Overlay(m, e, datatypes)
  {
    var items := IteratedItems(e.value);
    r := m;
    var j := 0;
    while j < |items|
      invariant 0 <= j <= |items|
      invariant forall d :: d in r <==> d in m || d in items[..j]
      invariant forall d :: d in r ==> r[d] == if d in items[..j] then e.key else m[d]
    {
      assert items[..j + 1] == items[..j] + [items[j]];
      r := r[items[j] := e.key];
      j := j + 1;
    }
    assert items[..j] == items;
  }

  /**
   * The loop that fills `description_datatype_map`: entries whose key is
   * not a datatype are skipped; a repeated description is warned about and
   * overwritten, never an error.
   */
  method ReverseDescriptionMap(classification: seq<Entry>, datatypes: seq<string>)
    returns (m: map<string, string>)
    ensures m == ReversedMap(classification, datatypes)
  {
    m := map[];
    var i := 0;
    while i < |classification|
      invariant 0 <= i <= |classification|
      invariant m == ReversedMap(classification[..i], datatypes)
    {
      assert classification[..i + 1][..i] == classification[..i];
      if classification[i].key in datatypes {
        m := OverlayEntry(m, classification[i], datatypes);
      }
      i := i + 1;
    }
    assert classification[..i] == classification;
  }

  // ----- datatype lists -----

  /** The datatypes of the mapped descriptions, in order, with repetitions. */
  function MappedDatatypes(descriptions: seq<Option<string>>, m: map<string, string>): (r: seq<string>)
    ensures forall t :: t in r <==> exists d :: Some(d) in descriptions && d in m && m[d] == t
  {
    if descriptions == [] then []
    else
      var rest := MappedDatatypes(descriptions[1..], m);
      assert forall o :: o in descriptions <==> o == descriptions[0] || o in descriptions[1..];
      match descriptions[0]
      case Some(d) => if d in m then [m[d]] + rest else rest
      case None => rest
  }

  /**
   * `get_datatype_list`: the sorted distinct datatypes of the descriptions
   * that the map knows; missing and unmapped descriptions are dropped.
   */
  function DatatypeList(descriptions: seq<Option<string>>, m: map<string, string>): (r: seq<string>)
    ensures Ascending(r, StrLess)
    ensures forall t :: t in r <==> exists d :: Some(d) in descriptions && d in m && m[d] == t
  {
    SortedStrings(MappedDatatypes(descriptions, m))
  }

  /** The `seen` set that the datatype-list aggregation updates. */
  class SeenDatatypes {
    var items: set<string>

    constructor ()
      ensures items == {}
    {
      items := {};
    }
  }

  /** `get_datatype_list(descriptions, map, seen=seen)`: also adds the result to `seen`. */
  method GetDatatypeList(descriptions: seq<Option<string>>, m: map<string, string>, seen: SeenDatatypes)
    returns (r: seq<string>)
    modifies seen
    ensures r == DatatypeList(descriptions, m)
    ensures seen.items == old(seen.items) + Elems(r)
  {
    r := DatatypeList(descriptions, m);
    seen.items := seen.items + Elems(r);
  }

  // ----- filtering and grouping -----

  /** Imaging rows kept: the session is one of the configured sessions and the group is kept. */
  predicate ImagingKept(row: NormImaging, cfg: GlobalConfig)
  {
    row.session.Some? && row.session.value in cfg.sessions && row.group in GROUPS_KEEP
  }

  function KeepImaging(rows: seq<NormImaging>, cfg: GlobalConfig): (r: seq<NormImaging>)
    ensures forall row :: row in r <==> row in rows && ImagingKept(row, cfg)
  {
    Filter(rows, (row: NormImaging) => ImagingKept(row, cfg))
  }

  /** The descriptions of the rows with key `k`, in row order. */
  function DescriptionsOf(rows: seq<NormImaging>, k: (string, string)): (r: seq<Option<string>>)
    ensures forall o :: o in r <==> exists row :: row in rows && ImagingKey(row) == k && row.description == o
  {
    if rows == [] then []
    else
      assert forall row :: row in rows <==> row == rows[0] || row in rows[1..];
      (if ImagingKey(rows[0]) == k then [rows[0].description] else []) + DescriptionsOf(rows[1..], k)
  }

  /** A (possibly missing) description that the map sends to datatype `t`. */
  predicate MapsTo(description: Option<string>, m: map<string, string>, t: string)
  {
    description.Some? && description.value in m && m[description.value] == t
  }

  /** Some row of group `k` has a description that the map sends to datatype `t`. */
  ghost predicate GroupHasDatatype(rows: seq<NormImaging>, m: map<string, string>, k: (string, string), t: string)
  {
    exists row :: row in rows && ImagingKey(row) == k && MapsTo(row.description, m, t)
  }

  /** The aggregate of one (subject, visit) group: the sorted datatypes its descriptions map to. */
  function GroupDatatypes(rows: seq<NormImaging>, m: map<string, string>, k: (string, string)): (r: seq<string>)
    ensures Ascending(r, StrLess)
    ensures forall t :: t in r <==> GroupHasDatatype(rows, m, k, t)
  {
    var descriptions := DescriptionsOf(rows, k);
    var r := DatatypeList(descriptions, m);
    forall t ensures t in r <==> GroupHasDatatype(rows, m, k, t) {
      if t in r {
        var d :| Some(d) in descriptions && d in m && m[d] == t;
        var row :| row in rows && ImagingKey(row) == k && row.description == Some(d);
        assert MapsTo(row.description, m, t);
      }
      if GroupHasDatatype(rows, m, k, t) {
        var row :| row in rows && ImagingKey(row) == k && MapsTo(row.description, m, t);
        assert row.description in descriptions;
      }
    }
    r
  }

  /**
   * `groupby([subject, visit, session])` aggregated with the datatype list.
   * The session is a function of the visit code (`GroupSessionAgrees`), so
   * grouping by (subject, visit) gives the same groups, and the session of
   * a group is recovered from its visit when the manifest is joined.
   */
  function GroupImaging(rows: seq<NormImaging>, m: map<string, string>): (r: map<(string, string), seq<string>>)
    ensures r.Keys == KeysOf(rows, ImagingKey)
    ensures forall k :: k in r ==> r[k] == GroupDatatypes(rows, m, k)
  {
    map k | k in KeysOf(rows, ImagingKey) :: GroupDatatypes(rows, m, k)
  }

  /** Two normalised rows of one group have the same session. */
  lemma GroupSessionAgrees(a: NormImaging, b: NormImaging)
    requires a.session == VisitSession(a.visit) && b.session == VisitSession(b.visit)
    requires ImagingKey(a) == ImagingKey(b)
    ensures a.session == b.session
  {
  }

  /** Every datatype in any list of a grouping. */
  function AllDatatypes(groups: map<(string, string), seq<string>>): set<string>
  {
    set k, t | k in groups.Keys && t in groups[k] :: t
  }

  /** Adding a new group adds exactly its datatypes. */
  lemma AllDatatypesAdd(groups: map<(string, string), seq<string>>, k: (string, string), ts: seq<string>)
    requires k !in groups
    ensures AllDatatypes(groups[k := ts]) == AllDatatypes(groups) + Elems(ts)
  {
    var g := groups[k := ts];
    forall t | t in AllDatatypes(g) ensures t in AllDatatypes(groups) + Elems(ts) {
      var k' :| k' in g.Keys && t in g[k'];
      if k' != k {
        assert t in AllDatatypes(groups);
      }
    }
    forall t | t in AllDatatypes(groups) ensures t in AllDatatypes(g) {
      var k' :| k' in groups.Keys && t in groups[k'];
      assert g[k'] == groups[k'];
    }
    forall t | t in Elems(ts) ensures t in AllDatatypes(g) {
      assert t in g[k];
    }
  }

  /** One aggregation step keeps `seen` equal to the initial set plus every datatype so far. */
  lemma SeenStep(initial: set<string>, seen: set<string>, groups: map<(string, string), seq<string>>,
                 k: (string, string), ts: seq<string>)
    requires k !in groups
    requires seen == initial + AllDatatypes(groups)
    ensures seen + Elems(ts) == initial + AllDatatypes(groups[k := ts])
  {
    AllDatatypesAdd(groups, k, ts);
  }

  /** `groups` holds the finished groups and `todo` the keys still to aggregate. */
  ghost predicate Aggregated(rows: seq<NormImaging>, m: map<string, string>,
                             todo: set<(string, string)>, groups: map<(string, string), seq<string>>)
  {
    && todo !! groups.Keys
    && todo + groups.Keys == KeysOf(rows, ImagingKey)
    && forall k :: k in groups ==> groups[k] == GroupDatatypes(rows, m, k)
  }

  lemma AggregatedStep(rows: seq<NormImaging>, m: map<string, string>,
                       todo: set<(string, string)>, groups: map<(string, string), seq<string>>, k: (string, string))
    requires Aggregated(rows, m, todo, groups) && k in todo
    ensures k !in groups
    ensures Aggregated(rows, m, todo - {k}, groups[k := GroupDatatypes(rows, m, k)])
  {
  }

  lemma AggregatedDone(rows: seq<NormImaging>, m: map<string, string>, groups: map<(string, string), seq<string>>)
    requires Aggregated(rows, m, {}, groups)
    ensures groups == GroupImaging(rows, m)
  {
  }

  /**
   * The aggregation: one datatype list per group, each call adding its
   * datatypes to `seen`.
   */
  method AggregateImaging(rows: seq<NormImaging>, m: map<string, string>, seen: SeenDatatypes)
    returns (groups: map<(string, string), seq<string>>)
    modifies seen
    ensures groups == GroupImaging(rows, m)
    ensures seen.items == old(seen.items) + AllDatatypes(groups)
  {
    var todo := KeysOf(rows, ImagingKey);
    groups := map[];
    while todo != {}
      invariant Aggregated(rows, m, todo, groups)
      invariant seen.items == old(seen.items) + AllDatatypes(groups)
      decreases todo
    {
      var k :| k in todo;
      ghost var seenBefore := seen.items;
      var datatypes := GetDatatypeList(DescriptionsOf(rows, k), m, seen);
      AggregatedStep(rows, m, todo, groups, k);
      SeenStep(old(seen.items), seenBefore, groups, k, datatypes);
      groups := groups[k := datatypes];
      todo := todo - {k};
    }
    AggregatedDone(rows, m, groups);
  }
}
