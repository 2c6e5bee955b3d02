/**
 * The description classifier's `run`: classifies diffusion and functional
 * descriptions, then the four anatomical sub-types in priority order, each
 * later sub-type excluding (in-modality) what the earlier ones took; then
 * collects every classified description and lists the ones left over.
 */
module ClassifierRun {
  import opened Wrappers
  import opened Sequences
  import opened Text
  import opened Records
  import opened DescriptionTree
  import opened DescriptionFilter

  /**
   * The configuration that `run` reads from the filter module: the datatype
   * keys, the modality names, one rule per datatype or sub-type (the merged
   * `FILTERS` entries) and the two anatomical exclusion lists.
   */
  datatype ClassifierConfig = ClassifierConfig(
    names: DatatypeNames,
    modalities: ModalityNames,
    dwi: FilterRule, func: FilterRule,
    t1: FilterRule, t2: FilterRule, t2star: FilterRule, flair: FilterRule,
    excludeInAnat: seq<string>,
    excludeInAnatT1: seq<string>)

  datatype ClassifierError = OutputExists

  datatype ClassifierOutput = ClassifierOutput(descriptions: DescTree, ignored: seq<Option<string>>)

  /** The rule of a sub-type called with an explicit `exclude_in` argument. */
  function WithExcludeIn(rule: FilterRule, excludeIn: seq<string>): (r: FilterRule)
    ensures ListOrEmpty(r.excludeIn) == excludeIn
    ensures r.(excludeIn := rule.excludeIn) == rule
  {
    rule.(excludeIn := Some(excludeIn))
  }

  /**
   * The rows whose description is in no classified list, as a sorted list of
   * distinct descriptions. A missing description is never "in" the list, so
   * pandas keeps one missing value, which sorts last.
   */
  function IgnoredDescriptions(rows: seq<ImagingRow>, classified: seq<string>): (r: seq<Option<string>>)
    ensures forall d :: Some(d) in r <==>
      (exists row :: row in rows && row.description == Some(d)) && d !in classified
    ensures None in r <==> exists row :: row in rows && row.description.None?
    ensures SortedMissingLast(r)
  {
    var listed := Unclassified(rows, classified);
    var missing := exists row :: row in rows && row.description.None?;
    PresentThenMissing(listed, missing);
    Present(listed) + (if missing then [None] else [])
  }

  /**
   * The order of a sorted pandas column with missing values: the present
   * strings strictly ascending, then at most one missing value, last.
   */
  predicate SortedMissingLast(r: seq<Option<string>>)
  {
    && (forall i, j :: 0 <= i < j < |r| && r[j].Some? ==> r[i].Some? && StrLess(r[i].value, r[j].value))
    && (forall i :: 0 <= i < |r| - 1 ==> r[i].Some?)
  }

  lemma PresentThenMissing(xs: seq<string>, missing: bool)
    requires Ascending(xs, StrLess)
    ensures SortedMissingLast(Present(xs) + (if missing then [None] else []))
  {
    var r := Present(xs) + (if missing then [None] else []);
    assert forall i :: 0 <= i < |xs| ==> r[i] == Some(xs[i]);
  }

  /** The distinct present descriptions not among `classified`, sorted. */
  function Unclassified(rows: seq<ImagingRow>, classified: seq<string>): (r: seq<string>)
    ensures Ascending(r, StrLess)
    ensures forall d :: d in r <==> (exists row :: row in rows && row.description == Some(d)) && d !in classified
  {
    var unclassified := Filter(rows, (row: ImagingRow) =>
                                 row.description.Some? && row.description.value !in classified);
    var r := SortedStrings(PresentDescriptions(unclassified));
    forall d | (exists row :: row in rows && row.description == Some(d)) && d !in classified
      ensures d in r
    {
      var row :| row in rows && row.description == Some(d);
      assert row in unclassified;
    }
    r
  }

  /** Each string as a present value. */
  function Present(xs: seq<string>): (r: seq<Option<string>>)
    ensures |r| == |xs|
    ensures forall i :: 0 <= i < |r| ==> r[i] == Some(xs[i])
    ensures forall o :: o in r <==> o.Some? && o.value in xs
  {
    var r := seq(|xs|, i requires 0 <= i < |xs| => Some(xs[i]));
    forall o ensures o in r <==> o.Some? && o.value in xs {
      if o in r {
        var i :| 0 <= i < |r| && r[i] == o;
      }
      if o.Some? && o.value in xs {
        var i :| 0 <= i < |xs| && xs[i] == o.value;
        assert r[i] == o;
      }
    }
    r
  }

  /** The four anatomical sub-type lists, in priority order. */
  datatype AnatLists = AnatLists(t1: seq<string>, t2: seq<string>, t2star: seq<string>, flair: seq<string>)

  /**
   * The sub-type chain: T1 excludes `EXCLUDE_IN_ANAT_T1`; T2 excludes
   * `EXCLUDE_IN_ANAT` and T1; T2-star and FLAIR both exclude
   * `EXCLUDE_IN_ANAT`, T1 and T2 (FLAIR's list leaves out T2-star).
   */
  function AnatChain(rows: seq<ImagingRow>, cfg: ClassifierConfig): (r: AnatLists)
    ensures Ascending(r.t1, StrLess) && Ascending(r.t2, StrLess)
    ensures Ascending(r.t2star, StrLess) && Ascending(r.flair, StrLess)
  {
    var m := cfg.modalities;
    var t1 := FilterDescriptions(rows, T1, m, WithExcludeIn(cfg.t1, cfg.excludeInAnatT1));
    var t2 := FilterDescriptions(rows, T2, m, WithExcludeIn(cfg.t2, cfg.excludeInAnat + t1));
    AnatLists(
      t1, t2,
      FilterDescriptions(rows, T2Star, m, WithExcludeIn(cfg.t2star, cfg.excludeInAnat + t1 + t2)),
      FilterDescriptions(rows, Flair, m, WithExcludeIn(cfg.flair, cfg.excludeInAnat + t1 + t2)))
  }

  /** The JSON object written by `run`: dwi, func, then anat with its four sub-types. */
  function ClassificationTree(n: DatatypeNames, dwi: seq<string>, func: seq<string>, anat: AnatLists)
    : (r: DescTree)
    ensures IteratedItems(r) == [n.dwi, n.func, n.anat]
    ensures LeafTotal(r) == |dwi| + |func| + |anat.t1| + |anat.t2| + |anat.t2star| + |anat.flair|
  {
    var sub := [Entry(n.t1, Leaf(anat.t1)), Entry(n.t2, Leaf(anat.t2)),
                Entry(n.t2star, Leaf(anat.t2star)), Entry(n.flair, Leaf(anat.flair))];
    var top := [Entry(n.dwi, Leaf(dwi)), Entry(n.func, Leaf(func)), Entry(n.anat, Node(sub))];
    assert LeafTotalEntries(sub[3..]) == |anat.flair|;
    assert LeafTotalEntries(sub[2..]) == |anat.t2star| + |anat.flair|;
    assert LeafTotalEntries(sub[1..]) == |anat.t2| + |anat.t2star| + |anat.flair|;
    assert LeafTotalEntries(top[2..]) == LeafTotalEntries(sub);
    assert LeafTotalEntries(sub) == |anat.t1| + |anat.t2| + |anat.t2star| + |anat.flair|;
    assert LeafTotalEntries(top[1..]) == |func| + LeafTotalEntries(sub);
    assert LeafTotalEntries(top) == |dwi| + LeafTotalEntries(top[1..]);
    Node(top)
  }

  /** The classified descriptions in key order: dwi, func, T1, T2, T2-star, FLAIR. */
  lemma ClassificationFlatten(n: DatatypeNames, dwi: seq<string>, func: seq<string>, anat: AnatLists)
    ensures Flatten(ClassificationTree(n, dwi, func, anat))
         == dwi + func + anat.t1 + anat.t2 + anat.t2star + anat.flair
  {
    var sub := [Entry(n.t1, Leaf(anat.t1)), Entry(n.t2, Leaf(anat.t2)),
                Entry(n.t2star, Leaf(anat.t2star)), Entry(n.flair, Leaf(anat.flair))];
    assert FlattenEntries(sub[3..]) == anat.flair;
    assert FlattenEntries(sub[2..]) == anat.t2star + anat.flair;
    assert FlattenEntries(sub[1..]) == anat.t2 + anat.t2star + anat.flair;
    assert FlattenEntries(sub) == anat.t1 + anat.t2 + anat.t2star + anat.flair;
    var top := [Entry(n.dwi, Leaf(dwi)), Entry(n.func, Leaf(func)), Entry(n.anat, Node(sub))];
    assert FlattenEntries(top[2..]) == FlattenEntries(sub);
    assert FlattenEntries(top[1..]) == func + FlattenEntries(sub);
    assert FlattenEntries(top) == dwi + (func + (anat.t1 + anat.t2 + anat.t2star + anat.flair));
    assert ClassificationTree(n, dwi, func, anat) == Node(top);
  }

  /**
   * `run` without the file handling: builds the classification entry by
   * entry, then fails if an output file exists and `overwrite` is off, else
   * returns the classification and the ignored descriptions.
   */
  method Run(rows: seq<ImagingRow>, cfg: ClassifierConfig,
             descriptionsFileExists: bool, ignoredFileExists: bool, overwrite: bool)
    returns (r: Result<ClassifierOutput, ClassifierError>)
    ensures r.Failure? <==> (descriptionsFileExists || ignoredFileExists) && !overwrite
    ensures r.Success? ==>
      var dwi := FilterDescriptions(rows, Dwi, cfg.modalities, cfg.dwi);
      var func := FilterDescriptions(rows, Func, cfg.modalities, cfg.func);
      var anat := AnatChain(rows, cfg);
      && r.value.descriptions == ClassificationTree(cfg.names, dwi, func, anat)
      && r.value.ignored == IgnoredDescriptions(rows, dwi + func + anat.t1 + anat.t2 + anat.t2star + anat.flair)
  {
    var m := cfg.modalities;
    var n := cfg.names;
    var dwi := FilterDescriptions(rows, Dwi, m, cfg.dwi);
    var func := FilterDescriptions(rows, Func, m, cfg.func);

    var t1 := FilterDescriptions(rows, T1, m, WithExcludeIn(cfg.t1, cfg.excludeInAnatT1));
    var t2 := FilterDescriptions(rows, T2, m, WithExcludeIn(cfg.t2, cfg.excludeInAnat + t1));
    var t2star := FilterDescriptions(rows, T2Star, m, WithExcludeIn(cfg.t2star, cfg.excludeInAnat + t1 + t2));
    // the FLAIR exclusion list leaves out the T2-star descriptions
    var flair := FilterDescriptions(rows, Flair, m, WithExcludeIn(cfg.flair, cfg.excludeInAnat + t1 + t2));
    var anat := AnatLists(t1, t2, t2star, flair);
    assert anat == AnatChain(rows, cfg);

    var descriptions := ClassificationTree(n, dwi, func, anat);
    var all := GetAllDescriptions(descriptions);
    ClassificationFlatten(n, dwi, func, anat);

    if (descriptionsFileExists || ignoredFileExists) && !overwrite {
      return Failure(OutputExists);
    }
    r := Success(ClassifierOutput(descriptions, IgnoredDescriptions(rows, all)));
  }

  /**
   * The sub-type chain keeps earlier sub-types out of later ones in the
   * modality: a description both in an earlier list and in a later list
   * entered the later one only by out-of-modality recovery.
   */
  lemma ChainExcludesEarlierInModality(rows: seq<ImagingRow>, cfg: ClassifierConfig, d: string)
    ensures var c := AnatChain(rows, cfg);
      var anat := cfg.modalities.anat;
      && (d in c.t1 && d in c.t2 ==>
            AddedFromOtherModality(rows, anat, WithExcludeIn(cfg.t2, cfg.excludeInAnat + c.t1), d))
      && ((d in c.t1 || d in c.t2) && d in c.t2star ==>
            AddedFromOtherModality(rows, anat, WithExcludeIn(cfg.t2star, cfg.excludeInAnat + c.t1 + c.t2), d))
      && ((d in c.t1 || d in c.t2) && d in c.flair ==>
            AddedFromOtherModality(rows, anat, WithExcludeIn(cfg.flair, cfg.excludeInAnat + c.t1 + c.t2), d))
  {
    var c := AnatChain(rows, cfg);
    var m := cfg.modalities;
    if d in c.t1 {
      RemovedOnlyReturnsByRecovery(rows, T2, m, WithExcludeIn(cfg.t2, cfg.excludeInAnat + c.t1), d);
    }
    if d in c.t1 || d in c.t2 {
      RemovedOnlyReturnsByRecovery(rows, T2Star, m, WithExcludeIn(cfg.t2star, cfg.excludeInAnat + c.t1 + c.t2), d);
      RemovedOnlyReturnsByRecovery(rows, Flair, m, WithExcludeIn(cfg.flair, cfg.excludeInAnat + c.t1 + c.t2), d);
    }
  }
}
