/**
 * The outer join of the kept tabular rows and the imaging availability
 * lists, the manifest's formatting and sort order, and the decision whether
 * to write the manifest file.
 */
module ManifestJoin {
  import opened Wrappers
  import opened Sequences
  import opened Text
  import opened ManifestConfig
  import opened ManifestTabular

  /**
   * One manifest row; the fields are the output columns in order:
   * participant_id, participant_dicom_dir, visit, session, datatype, bids_id.
   */
  datatype ManifestRow = ManifestRow(
    participantId: string,
    dicomDir: Option<string>,
    visit: string,
    session: Option<string>,
    datatypes: seq<string>,
    bidsId: Option<string>)

  function ManifestKey(row: ManifestRow): Key
  {
    (row.participantId, row.visit)
  }

  /** The manifest is sorted by participant, then visit, with one row per pair. */
  predicate SortedByKey(manifest: seq<ManifestRow>)
  {
    Ascending(ManifestKeys(manifest), PairLess)
  }

  /**
   * The row for one key of the join: imaging keys get the BIDS session of
   * their visit and their datatype list; tabular-only keys get no session
   * and an empty list. The DICOM directory and BIDS id columns are empty.
   */
  function RowFor(k: Key, groups: map<Key, seq<string>>): (r: ManifestRow)
    ensures ManifestKey(r) == k
    ensures r.dicomDir.None? && r.bidsId.None?
    ensures k in groups ==> r.datatypes == groups[k] && r.session == FormatSession(VisitSession(k.1))
    ensures k !in groups ==> r.datatypes == [] && r.session.None?
  {
    if k in groups then ManifestRow(k.0, None, k.1, FormatSession(VisitSession(k.1)), groups[k], None)
    else ManifestRow(k.0, None, k.1, None, [], None)
  }

  /** Some tabular row has key `k`. */
  ghost predicate InTabular(tabular: seq<GroupedRow>, k: Key)
  {
    exists t :: t in tabular && RowKey(t) == k
  }

  /** Some manifest row has key `k`. */
  ghost predicate InManifest(manifest: seq<ManifestRow>, k: Key)
  {
    exists row :: row in manifest && ManifestKey(row) == k
  }

  /** The keys of the tabular rows, in row order. */
  function TabularKeys(tabular: seq<GroupedRow>): (r: seq<Key>)
    ensures forall k :: k in r <==> InTabular(tabular, k)
  {
    if tabular == [] then []
    else
      assert forall t :: t in tabular <==> t == tabular[0] || t in tabular[1..];
      [RowKey(tabular[0])] + TabularKeys(tabular[1..])
  }

  /** The keys of the rows, in order. */
  function ManifestKeys(manifest: seq<ManifestRow>): (r: seq<Key>)
    ensures |r| == |manifest|
    ensures forall i :: 0 <= i < |r| ==> r[i] == ManifestKey(manifest[i])
  {
    seq(|manifest|, i requires 0 <= i < |manifest| => ManifestKey(manifest[i]))
  }

  /**
   * The outer merge on (subject, visit) followed by the formatting steps
   * and `sort_values([participant_id, visit])`. `imagingKeys` are the keys
   * of the grouped imaging rows.
   */
  function JoinManifest(tabular: seq<GroupedRow>, imagingKeys: seq<Key>, groups: map<Key, seq<string>>)
    : (r: seq<ManifestRow>)
    requires Elems(imagingKeys) == groups.Keys
    ensures SortedByKey(r)
    ensures forall k :: InManifest(r, k) <==> InTabular(tabular, k) || k in groups
    ensures forall row :: row in r ==> row == RowFor(ManifestKey(row), groups)
  {
    var keys := SortedPairs(TabularKeys(tabular) + imagingKeys);
    var r := seq(|keys|, i requires 0 <= i < |keys| => RowFor(keys[i], groups));
    assert ManifestKeys(r) == keys;
    forall k ensures InManifest(r, k) <==> InTabular(tabular, k) || k in groups {
      if k in keys {
        var i :| 0 <= i < |keys| && keys[i] == k;
        assert r[i] in r;
      }
      if k in groups {
        assert k in Elems(imagingKeys);
      }
    }
    r
  }

  /** Where the run ends after building the manifest. */
  datatype WriteAction = KeepExisting | WriteFile

  /**
   * An existing manifest with the same content is left alone; a different
   * one is replaced only with `overwrite`; with no manifest the file is
   * written.
   */
  function WriteDecision(manifest: seq<ManifestRow>, existing: Option<seq<ManifestRow>>, overwrite: bool)
    : (r: Result<WriteAction, ManifestError>)
    ensures r == Success(KeepExisting) <==> existing == Some(manifest)
    ensures r == Failure(ManifestExists) <==> existing.Some? && existing.value != manifest && !overwrite
    ensures r == Success(WriteFile) <==> existing.None? || (existing.value != manifest && overwrite)
  {
    match existing
    case None => Success(WriteFile)
    case Some(old_manifest) =>
      if old_manifest == manifest then Success(KeepExisting)
      else if !overwrite then Failure(ManifestExists)
      else Success(WriteFile)
  }
}
