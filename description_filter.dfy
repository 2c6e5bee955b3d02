/**
 * `filter_descriptions`: decides which free-text scan descriptions belong to
 * one datatype or anatomical sub-type. The steps run in a fixed order, each
 * one narrowing or extending the previous step's result:
 *   1. protocol-column include/exclude filter on the rows;
 *   2. distinct descriptions of the rows in the target modality;
 *   3. removal of the `exclude_in` list;
 *   4. rejection by substring, overridden by exception substrings;
 *   5. recovery of out-of-modality descriptions containing a common substring;
 *   6. sorted, de-duplicated union of 4 and 5.
 * Occurrence counts (`value_counts`) are only printed by the source, so the
 * model keeps descriptions as lists with repetitions; only their set reaches
 * the result.
 */
module DescriptionFilter {
  import opened Wrappers
  import opened Sequences
  import opened Text
  import opened Records

  /** The keys of `DATATYPE_MODALITY_MAP`. */
  datatype Target = Dwi | Func | Anat | T1 | T2 | T2Star | Flair

  /** The values of the imaging "Modality" column for each datatype. */
  datatype ModalityNames = ModalityNames(anat: string, dwi: string, func: string)

  /** `DATATYPE_MODALITY_MAP`: every anatomical sub-type maps to the anatomical modality. */
  function TargetModality(t: Target, names: ModalityNames): (m: string)
    ensures t == Dwi ==> m == names.dwi
    ensures t == Func ==> m == names.func
    ensures t !in {Dwi, Func} ==> m == names.anat
  {
    match t
    case Dwi => names.dwi
    case Func => names.func
    case _ => names.anat
  }

  /**
   * The keyword arguments of one `filter_descriptions` call besides the table
   * and the datatype. `None` is Python's `None`; for the protocol lists and
   * the exceptions an empty list is NOT the same as `None`.
   */
  datatype FilterRule = FilterRule(
    commonSubstrings: seq<string>,
    rejectSubstrings: Option<seq<string>>,
    rejectExceptions: Option<seq<string>>,
    excludeIn: Option<seq<string>>,
    excludeOut: Option<seq<string>>,
    protocolInclude: Option<seq<string>>,
    protocolExclude: Option<seq<string>>)

  /** An optional list whose `None` and empty forms both mean "nothing". */
  function ListOrEmpty(o: Option<seq<string>>): (r: seq<string>)
    ensures o.None? ==> r == []
    ensures o.Some? ==> r == o.value
  {
    match o
    case None => []
    case Some(xs) => xs
  }

  /**
   * Step 1 for one row. A missing protocol never matches (`na=False`), so it
   * fails an include filter and passes an exclude filter.
   */
  predicate ProtocolKept(row: ImagingRow, rule: FilterRule)
    ensures rule.protocolInclude.None? && rule.protocolExclude.None? ==> ProtocolKept(row, rule)
    ensures row.protocol.None? ==> (ProtocolKept(row, rule) <==> rule.protocolInclude.None?)
  {
    && (rule.protocolInclude.Some? ==>
          row.protocol.Some? && MatchesAny(row.protocol.value, rule.protocolInclude.value))
    && (rule.protocolExclude.Some? ==>
          !(row.protocol.Some? && MatchesAny(row.protocol.value, rule.protocolExclude.value)))
  }

  function ProtocolFiltered(rows: seq<ImagingRow>, rule: FilterRule): (r: seq<ImagingRow>)
    ensures forall row :: row in r <==> row in rows && ProtocolKept(row, rule)
  {
    Filter(rows, (row: ImagingRow) => ProtocolKept(row, rule))
  }

  /** The present descriptions of `rows`, in row order, with repetitions. */
  function PresentDescriptions(rows: seq<ImagingRow>): (r: seq<string>)
    ensures forall d :: d in r <==> exists row :: row in rows && row.description == Some(d)
  {
    if rows == [] then []
    else
      (if rows[0].description.Some? then [rows[0].description.value] else [])
      + PresentDescriptions(rows[1..])
  }

  /** Some row of `rows` in modality `m` (or outside it, for `inside == false`) is described by `d`. */
  ghost predicate DescribedIn(rows: seq<ImagingRow>, m: string, inside: bool, d: string)
  {
    exists row :: row in rows && (row.modality == Some(m)) == inside && row.description == Some(d)
  }

  /** Steps 2 and 3: distinct descriptions of rows in modality `m`, minus `exclude_in`. */
  function Candidates(rows: seq<ImagingRow>, m: string, excludeIn: Option<seq<string>>): (r: seq<string>)
    ensures forall d :: d in r <==> DescribedIn(rows, m, true, d) && d !in ListOrEmpty(excludeIn)
  {
    var inModality := PresentDescriptions(Filter(rows, (row: ImagingRow) => row.modality == Some(m)));
    Filter(inModality, d => d !in ListOrEmpty(excludeIn))
  }

  /**
   * Step 4 for one candidate: without reject substrings every candidate
   * survives; otherwise a candidate survives if it contains no reject
   * substring or, when exceptions are given, contains an exception substring.
   */
  predicate Survives(d: string, rule: FilterRule)
    ensures ListOrEmpty(rule.rejectSubstrings) == [] ==> Survives(d, rule)
    ensures rule.rejectExceptions == Some([]) ==> Survives(d, rule)
    ensures !Survives(d, rule) ==>
      && rule.rejectSubstrings.Some?
      && exists k :: 0 <= k < |rule.rejectSubstrings.value|
                     && Contains(Lower(d), Lower(rule.rejectSubstrings.value[k]))
  {
    || ListOrEmpty(rule.rejectSubstrings) == []
    || !MatchesAny(d, rule.rejectSubstrings.value)
    || (rule.rejectExceptions.Some? && MatchesAny(d, rule.rejectExceptions.value))
  }

  /**
   * Step 4: the candidates without a reject substring, followed by the
   * candidates with an exception substring (which may repeat some).
   */
  function Rejected(candidates: seq<string>, rule: FilterRule): (r: seq<string>)
    ensures forall d :: d in r <==> d in candidates && Survives(d, rule)
  {
    match rule.rejectSubstrings
    case None => candidates
    case Some(reject) =>
      if |reject| == 0 then candidates
      else
        var rescued := match rule.rejectExceptions
          case None => []
          case Some(exceptions) => Filter(candidates, d => MatchesAny(d, exceptions));
        Filter(candidates, d => !MatchesAny(d, reject)) + rescued
  }

  /**
   * Step 5 for one row: outside the modality, described, not in
   * `exclude_out`, containing a common substring and not already selected.
   */
  predicate RecoverableRow(row: ImagingRow, m: string, rule: FilterRule, selected: seq<string>)
  {
    && row.modality != Some(m)
    && row.description.Some?
    && row.description.value !in ListOrEmpty(rule.excludeOut)
    && MatchesAny(row.description.value, rule.commonSubstrings)
    && row.description.value !in selected
  }

  function Recovered(rows: seq<ImagingRow>, m: string, rule: FilterRule, selected: seq<string>): (r: seq<string>)
    ensures forall d :: d in r <==>
      && DescribedIn(rows, m, false, d)
      && d !in ListOrEmpty(rule.excludeOut)
      && MatchesAny(d, rule.commonSubstrings)
      && d !in selected
  {
    PresentDescriptions(Filter(rows, (row: ImagingRow) => RecoverableRow(row, m, rule, selected)))
  }

  /** The in-modality survivors of steps 1 to 4. */
  function InModalitySurvivors(rows: seq<ImagingRow>, m: string, rule: FilterRule): seq<string>
  {
    Rejected(Candidates(ProtocolFiltered(rows, rule), m, rule.excludeIn), rule)
  }

  /** `filter_descriptions(df, datatype, **rule)`. */
  function FilterDescriptions(rows: seq<ImagingRow>, target: Target, names: ModalityNames, rule: FilterRule)
    : (r: seq<string>)
    ensures Ascending(r, StrLess)
  {
    var m := TargetModality(target, names);
    var kept := ProtocolFiltered(rows, rule);
    var survivors := Rejected(Candidates(kept, m, rule.excludeIn), rule);
    SortedStrings(survivors + Recovered(kept, m, rule, survivors))
  }

  // ----- the result, described without the intermediate steps -----

  /** `d` is a description of a protocol-kept row in the target modality that steps 3 and 4 let through. */
  ghost predicate SelectedInModality(rows: seq<ImagingRow>, m: string, rule: FilterRule, d: string)
  {
    && (exists row :: row in rows && ProtocolKept(row, rule)
                       && row.modality == Some(m) && row.description == Some(d))
    && d !in ListOrEmpty(rule.excludeIn)
    && Survives(d, rule)
  }

  /** `d` is added from a protocol-kept row outside the target modality. */
  ghost predicate AddedFromOtherModality(rows: seq<ImagingRow>, m: string, rule: FilterRule, d: string)
  {
    && (exists row :: row in rows && ProtocolKept(row, rule)
                       && row.modality != Some(m) && row.description == Some(d))
    && d !in ListOrEmpty(rule.excludeOut)
    && MatchesAny(d, rule.commonSubstrings)
    && !SelectedInModality(rows, m, rule, d)
  }

  /** A row of the protocol-filtered table is a protocol-kept row of the input. */
  lemma DescribedInKept(rows: seq<ImagingRow>, rule: FilterRule, m: string, inside: bool, d: string)
    ensures DescribedIn(ProtocolFiltered(rows, rule), m, inside, d) <==>
      exists row :: row in rows && ProtocolKept(row, rule)
                    && (row.modality == Some(m)) == inside && row.description == Some(d)
  {
    var kept := ProtocolFiltered(rows, rule);
    if DescribedIn(kept, m, inside, d) {
      var row :| row in kept && (row.modality == Some(m)) == inside && row.description == Some(d);
    }
  }

  lemma InModalitySurvivorsMembership(rows: seq<ImagingRow>, m: string, rule: FilterRule, d: string)
    ensures d in InModalitySurvivors(rows, m, rule) <==> SelectedInModality(rows, m, rule, d)
  {
    DescribedInKept(rows, rule, m, true, d);
  }

  /**
   * The result holds exactly the in-modality survivors and the descriptions
   * recovered from other modalities.
   */
  lemma FilterDescriptionsMembership(rows: seq<ImagingRow>, target: Target, names: ModalityNames,
                                     rule: FilterRule, d: string)
    ensures d in FilterDescriptions(rows, target, names, rule) <==>
      || SelectedInModality(rows, TargetModality(target, names), rule, d)
      || AddedFromOtherModality(rows, TargetModality(target, names), rule, d)
  {
    var m := TargetModality(target, names);
    var kept := ProtocolFiltered(rows, rule);
    var survivors := InModalitySurvivors(rows, m, rule);
    var recovered := Recovered(kept, m, rule, survivors);
    var r := FilterDescriptions(rows, target, names, rule);
    assert r == SortedStrings(survivors + recovered);
    InModalitySurvivorsMembership(rows, m, rule, d);
    DescribedInKept(rows, rule, m, false, d);
  }

  /**
   * A row that the protocol filter drops never contributes a description,
   * in or out of the modality: removing it leaves the result unchanged.
   */
  lemma DroppedRowDoesNotContribute(before: seq<ImagingRow>, row: ImagingRow, after: seq<ImagingRow>,
                                    target: Target, names: ModalityNames, rule: FilterRule)
    requires !ProtocolKept(row, rule)
    ensures FilterDescriptions(before + [row] + after, target, names, rule)
         == FilterDescriptions(before + after, target, names, rule)
  {
    var p := (r: ImagingRow) => ProtocolKept(r, rule);
    FilterAppend(before + [row], after, p);
    FilterAppend(before, [row], p);
    FilterAppend(before, after, p);
    assert Filter([row], p) == [];
    assert ProtocolFiltered(before + [row] + after, rule) == ProtocolFiltered(before + after, rule);
  }

  /**
   * A description on the `exclude_in` list, or one that a reject substring
   * removes, can still be in the result, but only through out-of-modality
   * recovery.
   */
  lemma RemovedOnlyReturnsByRecovery(rows: seq<ImagingRow>, target: Target, names: ModalityNames,
                                     rule: FilterRule, d: string)
    requires d in ListOrEmpty(rule.excludeIn) || !Survives(d, rule)
    ensures d in FilterDescriptions(rows, target, names, rule) <==>
      AddedFromOtherModality(rows, TargetModality(target, names), rule, d)
  {
    FilterDescriptionsMembership(rows, target, names, rule, d);
  }

  // ----- diagnostics the source only prints -----

  /** Survivors that contain none of the common substrings ("make sure they are indeed ..."). */
  function Suspicious(survivors: seq<string>, rule: FilterRule): (r: seq<string>)
    ensures forall d :: d in r <==> d in survivors && !MatchesAny(d, rule.commonSubstrings)
  {
    Filter(survivors, d => !MatchesAny(d, rule.commonSubstrings))
  }

  /** Survivors that also describe out-of-modality rows outside `exclude_out`. */
  function SharedWithOtherModalities(kept: seq<ImagingRow>, m: string, rule: FilterRule,
                                     survivors: seq<string>): (r: seq<string>)
    ensures forall d :: d in r <==>
      DescribedIn(kept, m, false, d) && d !in ListOrEmpty(rule.excludeOut) && d in survivors
  {
    PresentDescriptions(Filter(kept, (row: ImagingRow) =>
      && row.modality != Some(m)
      && row.description.Some?
      && row.description.value !in ListOrEmpty(rule.excludeOut)
      && row.description.value in survivors))
  }
}
