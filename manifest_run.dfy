/**
 * The manifest builder's `run`: the steps of the other manifest modules
 * chained in the source's order, first as a specification function and
 * then as the method that performs them, with the properties of the
 * manifest it produces.
 */
module ManifestRun {
  import opened Wrappers
  import opened Sequences
  import opened Text
  import opened Records
  import opened DescriptionTree
  import opened ManifestConfig
  import opened ManifestImaging
  import opened ManifestTabular
  import opened ManifestJoin

  /**
   * What `run` reads: the global configuration, the imaging availability
   * rows, the tabular files, the participant-status groups, the description
   * classification and the datatype names it is keyed by.
   */
  datatype ManifestInputs = ManifestInputs(
    config: GlobalConfig,
    imaging: seq<ImagingRow>,
    tabular: seq<TabularFile>,
    groups: map<string, string>,
    classification: seq<Entry>,
    names: DatatypeNames)

  /** The tabular rows after the group merge and the fill from imaging. */
  function FilledTabular(keys: seq<Key>, groups: map<string, string>, imaging: seq<NormImaging>): (r: seq<GroupedRow>)
    ensures |r| == |keys|
    ensures forall i :: 0 <= i < |r| ==> r[i] == Filled(AttachGroups(keys, groups)[i], imaging)
  {
    var attached := AttachGroups(keys, groups);
    seq(|attached|, i requires 0 <= i < |attached| => Filled(attached[i], imaging))
  }

  /**
   * Everything after the fatal checks: fill, filter both sides, aggregate
   * the imaging side, join and format.
   */
  function Assemble(keys: seq<Key>, groups: map<string, string>, imaging: seq<NormImaging>,
                    cfg: GlobalConfig, m: map<string, string>): (r: seq<ManifestRow>)
    ensures SortedByKey(r)
  {
    var tabular := KeepTabular(FilledTabular(keys, groups, imaging));
    var kept := KeepImaging(imaging, cfg);
    JoinManifest(tabular, ImagingKeys(kept), GroupImaging(kept, m))
  }

  /** The fatal checks, in order; on success the deduplicated tabular keys and the normalised imaging rows. */
  function Checked(inputs: ManifestInputs): (r: Result<(seq<Key>, seq<NormImaging>), ManifestError>)
    ensures r.Success? ==>
      var (keys, imaging) := r.value;
      && (forall i, j :: 0 <= i < j < |keys| ==> keys[i] != keys[j])
      && |imaging| == |inputs.imaging|
      && (forall x :: x in imaging ==> x.session == VisitSession(x.visit))
    ensures r.Failure? ==> r.error != ManifestExists
  {
    var valid := ValidateVisitSessionMap(inputs.config);
    if valid.Fail? then
      assert valid.error == InvalidVisitSessionMap;
      Failure(valid.error)
    else
    var union := UnionTabular(inputs.tabular);
    if union.Failure? then
      assert union.error.NoTabularFiles? || union.error.MissingTabularColumns?;
      Failure(union.error)
    else
    var normalized := NormalizeImaging(inputs.imaging);
    if normalized.Failure? then
      assert normalized.error.UnmappedVisit? || normalized.error.UnmappedGroup?;
      Failure(normalized.error)
    else
    Success((union.value, normalized.value))
  }

  /** The manifest `run` builds, or the first error it raises. */
  function BuildManifest(inputs: ManifestInputs): (r: Result<seq<ManifestRow>, ManifestError>)
    ensures r.Success? ==> SortedByKey(r.value)
    ensures r.Failure? ==> r.error != ManifestExists
  {
    match Checked(inputs)
    case Failure(e) => Failure(e)
    case Success((keys, imaging)) =>
      var m := ReversedMap(inputs.classification, inputs.names.Datatypes());
      Success(Assemble(keys, inputs.groups, imaging, inputs.config, m))
  }

  /** The manifest and what became of the file. */
  datatype RunOutcome = RunOutcome(manifest: seq<ManifestRow>, action: WriteAction)

  /** `run` end to end: build, then compare with the existing file (`None` when absent). */
  function RunSpec(inputs: ManifestInputs, existing: Option<seq<ManifestRow>>, overwrite: bool)
    : (r: Result<RunOutcome, ManifestError>)
    ensures r.Success? ==> BuildManifest(inputs) == Success(r.value.manifest)
    ensures r.Success? && r.value.action == KeepExisting ==> existing == Some(r.value.manifest)
    ensures r == Failure(ManifestExists) ==> existing.Some? && !overwrite
  {
    match BuildManifest(inputs)
    case Failure(e) => Failure(e)
    case Success(manifest) =>
      match WriteDecision(manifest, existing, overwrite)
      case Failure(e) => Failure(e)
      case Success(action) => Success(RunOutcome(manifest, action))
  }

  /**
   * The steps after the fatal checks, performed: the fill loop on an array
   * of tabular rows, the filters, the aggregation with its `seen` set, the
   * join.
   */
  method AssembleManifest(keys: seq<Key>, groups: map<string, string>, imaging: seq<NormImaging>,
                          cfg: GlobalConfig, m: map<string, string>)
    returns (manifest: seq<ManifestRow>)
    ensures manifest == Assemble(keys, groups, imaging, cfg, m)
  {
    var attached := AttachGroups(keys, groups);
    var tabular := new GroupedRow[|attached|](i requires 0 <= i < |attached| => attached[i]);
    FillMissingGroups(tabular, imaging);
    assert tabular[..] == FilledTabular(keys, groups, imaging);

    var kept := KeepImaging(imaging, cfg);
    var seen := new SeenDatatypes();
    var grouped := AggregateImaging(kept, m, seen);
    manifest := JoinManifest(KeepTabular(tabular[..]), ImagingKeys(kept), grouped);
  }

  /**
   * `run`: the steps in the source's order, the reversed map and the fill
   * done by their loops, the datatype lists collected with a `seen` set.
   */
  method Run(inputs: ManifestInputs, existing: Option<seq<ManifestRow>>, overwrite: bool)
    returns (r: Result<RunOutcome, ManifestError>)
    ensures r == RunSpec(inputs, existing, overwrite)
  {
    var valid := ValidateVisitSessionMap(inputs.config);
    if valid.Fail? {
      return Failure(valid.error);
    }
    var union := UnionTabular(inputs.tabular);
    if union.Failure? {
      return Failure(union.error);
    }
    var m := ReverseDescriptionMap(inputs.classification, inputs.names.Datatypes());
    var normalized := NormalizeImaging(inputs.imaging);
    if normalized.Failure? {
      return Failure(normalized.error);
    }
    var imaging := normalized.value;

    var manifest := AssembleManifest(union.value, inputs.groups, imaging, inputs.config, m);

    var decision := WriteDecision(manifest, existing, overwrite);
    if decision.Failure? {
      return Failure(decision.error);
    }
    r := Success(RunOutcome(manifest, decision.value));
  }

  // ----- errors -----

  /**
   * The checks pass exactly when the sessions are covered, there is at
   * least one tabular file, every tabular file has the key columns, and
   * every imaging visit and group has a mapping.
   */
  lemma CheckedSucceeds(inputs: ManifestInputs)
    ensures Checked(inputs).Success? <==>
      && ValidateVisitSessionMap(inputs.config).Pass?
      && inputs.tabular != []
      && AllKeyed(inputs.tabular)
      && AllMapped(inputs.imaging)
  {
    var union := UnionTabular(inputs.tabular);
    var normalized := NormalizeImaging(inputs.imaging);
    if ValidateVisitSessionMap(inputs.config).Fail? {
      assert Checked(inputs).Failure?;
    } else if union.Failure? {
      assert Checked(inputs).Failure?;
      assert !(inputs.tabular != [] && AllKeyed(inputs.tabular));
    } else if normalized.Failure? {
      assert Checked(inputs).Failure?;
      assert !AllMapped(inputs.imaging);
    } else {
      assert Checked(inputs) == Success((union.value, normalized.value));
    }
  }

  /**
   * The errors come in the source's order: the session check, then the
   * tabular files, then the imaging visits, then the imaging groups.
   */
  lemma ErrorPrecedence(inputs: ManifestInputs)
    ensures ValidateVisitSessionMap(inputs.config).Fail? ==> Checked(inputs) == Failure(InvalidVisitSessionMap)
    ensures ValidateVisitSessionMap(inputs.config).Pass? ==>
      forall i :: FirstFailure(inputs.tabular, i, HasKeyColumns) ==>
        Checked(inputs) == Failure(MissingTabularColumns(i))
    ensures ValidateVisitSessionMap(inputs.config).Pass? && UnionTabular(inputs.tabular).Success? ==>
      forall i :: FirstFailure(inputs.imaging, i, VisitMapped) ==>
        Checked(inputs) == Failure(UnmappedVisit(inputs.imaging[i].visit))
    ensures (&& ValidateVisitSessionMap(inputs.config).Pass?
             && UnionTabular(inputs.tabular).Success?
             && forall row :: row in inputs.imaging ==> VisitMapped(row)) ==>
      forall i :: FirstFailure(inputs.imaging, i, GroupMapped) ==>
        Checked(inputs) == Failure(UnmappedGroup(inputs.imaging[i].group))
  {
    forall i | ValidateVisitSessionMap(inputs.config).Pass? && FirstFailure(inputs.tabular, i, HasKeyColumns)
      ensures Checked(inputs) == Failure(MissingTabularColumns(i))
    {
      TabularErrorFirst(inputs, i);
    }
    forall i | && ValidateVisitSessionMap(inputs.config).Pass? && UnionTabular(inputs.tabular).Success?
               && FirstFailure(inputs.imaging, i, VisitMapped)
      ensures Checked(inputs) == Failure(UnmappedVisit(inputs.imaging[i].visit))
    {
      VisitErrorFirst(inputs, i);
    }
    forall i | && ValidateVisitSessionMap(inputs.config).Pass? && UnionTabular(inputs.tabular).Success?
               && (forall row :: row in inputs.imaging ==> VisitMapped(row))
               && FirstFailure(inputs.imaging, i, GroupMapped)
      ensures Checked(inputs) == Failure(UnmappedGroup(inputs.imaging[i].group))
    {
      GroupErrorFirst(inputs, i);
    }
  }

  /** Past the session check, the first tabular file without the key columns is the error. */
  lemma TabularErrorFirst(inputs: ManifestInputs, i: int)
    requires ValidateVisitSessionMap(inputs.config).Pass?
    requires FirstFailure(inputs.tabular, i, HasKeyColumns)
    ensures Checked(inputs) == Failure(MissingTabularColumns(i))
  {
    assert UnionTabular(inputs.tabular) == Failure(MissingTabularColumns(i));
  }

  /** Past the session and tabular checks, the first imaging row with an unmapped visit is the error. */
  lemma VisitErrorFirst(inputs: ManifestInputs, i: int)
    requires ValidateVisitSessionMap(inputs.config).Pass? && UnionTabular(inputs.tabular).Success?
    requires FirstFailure(inputs.imaging, i, VisitMapped)
    ensures Checked(inputs) == Failure(UnmappedVisit(inputs.imaging[i].visit))
  {
    assert NormalizeImaging(inputs.imaging) == Failure(UnmappedVisit(inputs.imaging[i].visit));
  }

  /**
   * Past the session and tabular checks, with every visit mapped, the first
   * imaging row with an unmapped group is the error.
   */
  lemma GroupErrorFirst(inputs: ManifestInputs, i: int)
    requires ValidateVisitSessionMap(inputs.config).Pass? && UnionTabular(inputs.tabular).Success?
    requires forall row :: row in inputs.imaging ==> VisitMapped(row)
    requires FirstFailure(inputs.imaging, i, GroupMapped)
    ensures Checked(inputs) == Failure(UnmappedGroup(inputs.imaging[i].group))
  {
    assert NormalizeImaging(inputs.imaging) == Failure(UnmappedGroup(inputs.imaging[i].group));
  }

  /** The checks' error is the run's error; after them the run always builds a manifest. */
  lemma BuildFailsOnlyInChecks(inputs: ManifestInputs)
    ensures Checked(inputs).Failure? ==> BuildManifest(inputs) == Failure(Checked(inputs).error)
    ensures Checked(inputs).Success? ==> BuildManifest(inputs).Success?
  {
  }

  // ----- the manifest -----

  /**
   * A (subject, visit) pair is in the manifest exactly when a tabular row
   * with that pair has a kept group after the fill, or a kept imaging row
   * has that pair.
   */
  lemma {:induction false} AssembleKeys(keys: seq<Key>, groups: map<string, string>, imaging: seq<NormImaging>,
                                        cfg: GlobalConfig, m: map<string, string>, k: Key)
    ensures InManifest(Assemble(keys, groups, imaging, cfg, m), k) <==>
      || (exists t :: t in FilledTabular(keys, groups, imaging) && TabularKept(t) && RowKey(t) == k)
      || (exists row :: row in imaging && ImagingKept(row, cfg) && ImagingKey(row) == k)
  {
    var tabular := KeepTabular(FilledTabular(keys, groups, imaging));
    var kept := KeepImaging(imaging, cfg);
    var g := GroupImaging(kept, m);
    if InTabular(tabular, k) {
      var t :| t in tabular && RowKey(t) == k;
    }
    if exists t :: t in FilledTabular(keys, groups, imaging) && TabularKept(t) && RowKey(t) == k {
      var t :| t in FilledTabular(keys, groups, imaging) && TabularKept(t) && RowKey(t) == k;
      assert t in tabular;
    }
    if k in g {
      assert k in KeysOf(kept, ImagingKey);
      var row :| row in kept && ImagingKey(row) == k;
    }
    if exists row :: row in imaging && ImagingKept(row, cfg) && ImagingKey(row) == k {
      var row :| row in imaging && ImagingKept(row, cfg) && ImagingKey(row) == k;
      assert row in kept;
      assert ImagingKey(row) in KeysOf(kept, ImagingKey);
    }
  }

  /**
   * A row lists datatype `t` exactly when a kept imaging row with the row's
   * subject and visit has a description that the reversed map sends to `t`;
   * the list is sorted and without repetitions.
   */
  lemma {:induction false} AssembleDatatypes(keys: seq<Key>, groups: map<string, string>, imaging: seq<NormImaging>,
                                             cfg: GlobalConfig, m: map<string, string>, row: ManifestRow, t: string)
    requires row in Assemble(keys, groups, imaging, cfg, m)
    ensures Ascending(row.datatypes, StrLess)
    ensures t in row.datatypes <==> GroupHasDatatype(KeepImaging(imaging, cfg), m, ManifestKey(row), t)
  {
    var kept := KeepImaging(imaging, cfg);
    var g := GroupImaging(kept, m);
    var k := ManifestKey(row);
    if GroupHasDatatype(kept, m, k, t) {
      var x :| x in kept && ImagingKey(x) == k && MapsTo(x.description, m, t);
      assert k in KeysOf(kept, ImagingKey);
    }
  }

  /** Every datatype in the manifest is one of the datatype keys. */
  lemma AssembleDatatypesKnown(inputs: ManifestInputs, keys: seq<Key>, imaging: seq<NormImaging>,
                               row: ManifestRow, t: string)
    requires row in Assemble(keys, inputs.groups, imaging, inputs.config,
                             ReversedMap(inputs.classification, inputs.names.Datatypes()))
    requires t in row.datatypes
    ensures t in inputs.names.Datatypes()
  {
    var m := ReversedMap(inputs.classification, inputs.names.Datatypes());
    AssembleDatatypes(keys, inputs.groups, imaging, inputs.config, m, row, t);
  }

  /**
   * Rows from imaging carry the BIDS session of one of the configured
   * sessions; rows only in the tabular data have no session and an empty
   * datatype list. Neither has a DICOM directory or BIDS id.
   */
  lemma {:induction false} AssembleSessions(keys: seq<Key>, groups: map<string, string>, imaging: seq<NormImaging>,
                                            cfg: GlobalConfig, m: map<string, string>, row: ManifestRow)
    requires forall x :: x in imaging ==> x.session == VisitSession(x.visit)
    requires row in Assemble(keys, groups, imaging, cfg, m)
    ensures row.dicomDir.None? && row.bidsId.None?
    ensures row.session.Some? <==> exists x :: x in imaging && ImagingKept(x, cfg) && ImagingKey(x) == ManifestKey(row)
    ensures row.session.Some? ==> exists s :: s in cfg.sessions && row.session.value == BIDS_SESSION_PREFIX + s
    ensures row.session.None? ==> row.datatypes == []
  {
    var kept := KeepImaging(imaging, cfg);
    var g := GroupImaging(kept, m);
    var k := ManifestKey(row);
    if exists x :: x in imaging && ImagingKept(x, cfg) && ImagingKey(x) == k {
      var x :| x in imaging && ImagingKept(x, cfg) && ImagingKey(x) == k;
      assert x in kept;
      assert k in KeysOf(kept, ImagingKey);
    }
    if k in g {
      assert k in KeysOf(kept, ImagingKey);
      var x :| x in kept && ImagingKey(x) == k;
      assert row.session == FormatSession(x.session);
      assert row.session.value == BIDS_SESSION_PREFIX + x.session.value;
    }
  }

  /** Normalisation gives every imaging row the session of its visit. */
  lemma NormalizedSessions(rows: seq<ImagingRow>)
    requires NormalizeImaging(rows).Success?
    ensures forall x :: x in NormalizeImaging(rows).value ==> x.session == VisitSession(x.visit)
  {
    var r := NormalizeImaging(rows).value;
    forall x | x in r ensures x.session == VisitSession(x.visit) {
      var i :| 0 <= i < |r| && r[i] == x;
      assert x == Normalize(rows[i]);
    }
  }

  // ----- the file -----

  /**
   * Running again on the same inputs after a write finds an identical
   * manifest and leaves the file alone, with or without `overwrite`.
   */
  lemma RerunKeepsFile(inputs: ManifestInputs, existing: Option<seq<ManifestRow>>, overwrite: bool, again: bool)
    requires RunSpec(inputs, existing, overwrite).Success?
    requires RunSpec(inputs, existing, overwrite).value.action == WriteFile
    ensures RunSpec(inputs, Some(RunSpec(inputs, existing, overwrite).value.manifest), again)
      == Success(RunOutcome(RunSpec(inputs, existing, overwrite).value.manifest, KeepExisting))
  {
  }

  /** A different existing manifest stops the run unless `overwrite` is set. */
  lemma ExistingDifferentManifest(inputs: ManifestInputs, existing: seq<ManifestRow>, overwrite: bool)
    requires BuildManifest(inputs).Success? && BuildManifest(inputs).value != existing
    ensures RunSpec(inputs, Some(existing), overwrite) ==
      if overwrite then Success(RunOutcome(BuildManifest(inputs).value, WriteFile)) else Failure(ManifestExists)
  {
  }
}
