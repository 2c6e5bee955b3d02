/**
 * The tabular side of the manifest builder: the union of the tabular files
 * (first row kept per subject and visit), the research group attached from
 * the participant-status file, the missing groups filled in from imaging,
 * and the group filter.
 */
module ManifestTabular {
  import opened Wrappers
  import opened Sequences
  import opened ManifestConfig
  import opened ManifestImaging

  /** A subject and a visit code, the key both sides of the manifest share. */
  type Key = (string, string)

  /**
   * A tabular file as far as the manifest is concerned: its column names
   * and, per row, the subject and visit cells.
   */
  datatype TabularFile = TabularFile(columns: set<string>, keys: seq<Key>)

  predicate HasKeyColumns(f: TabularFile)
  {
    COL_SUBJECT_TABULAR in f.columns && COL_VISIT_TABULAR in f.columns
  }

  /** `pd.concat` of the files' rows, in file order. */
  function ConcatKeys(files: seq<TabularFile>): (r: seq<Key>)
    ensures forall k :: k in r <==> exists f :: f in files && k in f.keys
  {
    if files == [] then []
    else
      assert forall f :: f in files <==> f == files[0] || f in files[1..];
      files[0].keys + ConcatKeys(files[1..])
  }

  function Identity(k: Key): Key
  {
    k
  }

  /** Every tabular file has the key columns. */
  predicate AllKeyed(files: seq<TabularFile>)
  {
    forall f :: f in files ==> HasKeyColumns(f)
  }

  /**
   * Reading the tabular files: the first file without both key columns is
   * an error; no file at all leaves nothing to deduplicate, which is an
   * error too; otherwise the concatenated rows with the first row of each
   * (subject, visit) kept.
   */
  function UnionTabular(files: seq<TabularFile>): (r: Result<seq<Key>, ManifestError>)
    ensures forall i :: FirstFailure(files, i, HasKeyColumns) ==> r == Failure(MissingTabularColumns(i))
    ensures AllKeyed(files) && files == [] ==> r == Failure(NoTabularFiles)
    ensures r.Success? <==> files != [] && AllKeyed(files)
    ensures r.Success? ==> forall i, j :: 0 <= i < j < |r.value| ==> r.value[i] != r.value[j]
    ensures r.Success? ==> forall k :: k in r.value <==> exists f :: f in files && k in f.keys
    ensures r.Failure? ==> r.error.NoTabularFiles? || r.error.MissingTabularColumns?
  {
    match FirstFailing(files, HasKeyColumns)
    case Some(i) => Failure(MissingTabularColumns(i))
    case None =>
      if files == [] then Failure(NoTabularFiles)
      else
        var all := ConcatKeys(files);
        var r := DropDuplicates(all, Identity);
        assert forall k :: k in r <==> k in all by {
          assert KeysOf(r, Identity) == KeysOf(all, Identity);
          forall k ensures k in r <==> k in all {
            if k in all {
              assert Identity(k) in KeysOf(all, Identity);
            }
            if k in r {
              assert Identity(k) in KeysOf(r, Identity);
            }
          }
        }
        Success(r)
  }

  /** A tabular row after the participant-status merge. */
  datatype GroupedRow = GroupedRow(subject: string, visit: string, group: Option<string>)

  function RowKey(row: GroupedRow): Key
  {
    (row.subject, row.visit)
  }

  /**
   * The left merge with the participant-status file, read as a map from
   * subject to research group (a subject without one is absent).
   */
  function AttachGroups(keys: seq<Key>, groups: map<string, string>): (r: seq<GroupedRow>)
    ensures |r| == |keys|
    ensures forall i :: 0 <= i < |r| ==> RowKey(r[i]) == keys[i]
    ensures forall i :: 0 <= i < |r| ==> (r[i].group.Some? <==> keys[i].0 in groups)
    ensures forall i :: 0 <= i < |r| && r[i].group.Some? ==> r[i].group.value == groups[keys[i].0]
  {
    seq(|keys|, i requires 0 <= i < |keys| =>
      GroupedRow(keys[i].0, keys[i].1, if keys[i].0 in groups then Some(groups[keys[i].0]) else None))
  }

  /** The groups of the subject's imaging rows, in row order. */
  function SubjectGroups(imaging: seq<NormImaging>, subject: string): (r: seq<string>)
    ensures forall g :: g in r <==> exists row :: row in imaging && row.subject == subject && row.group == g
  {
    if imaging == [] then []
    else
      assert forall row :: row in imaging <==> row == imaging[0] || row in imaging[1..];
      (if imaging[0].subject == subject then [imaging[0].group] else []) + SubjectGroups(imaging[1..], subject)
  }

  /** The subject has at least one imaging row. */
  ghost predicate HasImaging(imaging: seq<NormImaging>, subject: string)
  {
    exists row :: row in imaging && row.subject == subject
  }

  /** Every imaging row of the subject has group `g`. */
  ghost predicate AllImagingGroup(imaging: seq<NormImaging>, subject: string, g: string)
  {
    forall row :: row in imaging && row.subject == subject ==> row.group == g
  }

  /** All imaging rows of the subject agree on the group. */
  ghost predicate ImagingGroupsAgree(imaging: seq<NormImaging>, subject: string)
  {
    forall a, b :: a in imaging && b in imaging && a.subject == subject && b.subject == subject ==> a.group == b.group
  }

  /**
   * `drop_duplicates().item()` on the subject's imaging groups: a value only
   * when exactly one distinct group remains.
   */
  function UniqueImagingGroup(imaging: seq<NormImaging>, subject: string): (r: Option<string>)
    ensures r.Some? <==> HasImaging(imaging, subject) && ImagingGroupsAgree(imaging, subject)
    ensures r.Some? ==> AllImagingGroup(imaging, subject, r.value)
  {
    var distinct := DropDuplicates(SubjectGroups(imaging, subject), (g: string) => g);
    UniqueGroupOfDistinct(imaging, subject, distinct);
    if |distinct| == 1 then Some(distinct[0]) else None
  }

  /** What the deduplicated group list says about the subject's rows. */
  lemma UniqueGroupOfDistinct(imaging: seq<NormImaging>, subject: string, distinct: seq<string>)
    requires distinct == DropDuplicates(SubjectGroups(imaging, subject), (g: string) => g)
    ensures |distinct| == 1 <==> HasImaging(imaging, subject) && ImagingGroupsAgree(imaging, subject)
    ensures |distinct| == 1 ==> AllImagingGroup(imaging, subject, distinct[0])
  {
    var all := SubjectGroups(imaging, subject);
    var id := (g: string) => g;
    assert forall g :: g in distinct <==> g in all by {
      assert KeysOf(distinct, id) == KeysOf(all, id);
      forall g ensures g in distinct <==> g in all {
        if g in all {
          assert id(g) in KeysOf(all, id);
        }
        if g in distinct {
          assert id(g) in KeysOf(distinct, id);
        }
      }
    }
    if |distinct| == 1 {
      forall row | row in imaging && row.subject == subject ensures row.group == distinct[0] {
        assert row.group in all;
      }
      assert distinct[0] in all;
    } else if HasImaging(imaging, subject) {
      var row :| row in imaging && row.subject == subject;
      assert row.group in distinct;
      assert |distinct| >= 2;
      assert distinct[0] != distinct[1];
      assert distinct[0] in all && distinct[1] in all;
      var a :| a in imaging && a.subject == subject && a.group == distinct[0];
      var b :| b in imaging && b.subject == subject && b.group == distinct[1];
    }
  }

  /** A tabular row after the fill: a missing group taken from imaging when unambiguous. */
  function Filled(row: GroupedRow, imaging: seq<NormImaging>): (r: GroupedRow)
    ensures RowKey(r) == RowKey(row)
    ensures row.group.Some? ==> r == row
    ensures row.group.None? && r.group.Some? ==> AllImagingGroup(imaging, row.subject, r.group.value)
  {
    if row.group.Some? then row else row.(group := UniqueImagingGroup(imaging, row.subject))
  }

  /**
   * The filled group is the merged one when there was one; otherwise it is
   * `g` exactly when the subject has imaging rows and all of them have group
   * `g`; otherwise it stays missing. The key never changes.
   */
  lemma FilledGroup(row: GroupedRow, imaging: seq<NormImaging>, g: string)
    ensures RowKey(Filled(row, imaging)) == RowKey(row)
    ensures Filled(row, imaging).group == Some(g) <==>
      || row.group == Some(g)
      || (row.group.None? && HasImaging(imaging, row.subject) && AllImagingGroup(imaging, row.subject, g))
  {
    if row.group.None? && HasImaging(imaging, row.subject) && AllImagingGroup(imaging, row.subject, g) {
      var x :| x in imaging && x.subject == row.subject;
      assert UniqueImagingGroup(imaging, row.subject).Some?;
    }
  }

  /** One step of the fill loop: row `i` looked up and written when a group is found. */
  method FillRow(tabular: array<GroupedRow>, i: nat, imaging: seq<NormImaging>)
    requires i < tabular.Length
    modifies tabular
    ensures tabular[i] == Filled(old(tabular[i]), imaging)
    ensures forall j :: 0 <= j < tabular.Length && j != i ==> tabular[j] == old(tabular[j])
  {
    var row := tabular[i];
    if row.group.None? {
      var group := UniqueImagingGroup(imaging, row.subject);
      if group.Some? {
        tabular[i] := row.(group := group);
      }
    }
  }

  /**
   * The fill loop: every row whose group is missing gets the subject's
   * single imaging group, when there is one, written in place.
   */
  method FillMissingGroups(tabular: array<GroupedRow>, imaging: seq<NormImaging>)
    modifies tabular
    ensures forall i :: 0 <= i < tabular.Length ==> tabular[i] == Filled(old(tabular[i]), imaging)
  {
    var i := 0;
    while i < tabular.Length
      invariant 0 <= i <= tabular.Length
      invariant forall j :: 0 <= j < tabular.Length ==>
        tabular[j] == if j < i then Filled(old(tabular[j]), imaging) else old(tabular[j])
    {
      FillRow(tabular, i, imaging);
      i := i + 1;
    }
  }

  /** The tabular rows kept: those whose research group is one of `GROUPS_KEEP`. */
  predicate TabularKept(row: GroupedRow)
  {
    row.group.Some? && row.group.value in GROUPS_KEEP
  }

  function KeepTabular(rows: seq<GroupedRow>): (r: seq<GroupedRow>)
    ensures forall row :: row in r <==> row in rows && TabularKept(row)
  {
    Filter(rows, TabularKept)
  }
}
