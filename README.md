# PPMI description classifier and manifest builder

This project models two tabular-curation scripts of the mr_proc PPMI dataset
tooling and proves properties of them.

**Description classifier** (`tabular/filter_image_descriptions.py`). It sorts
the free-text scan descriptions of the imaging-availability export into BIDS
datatypes: diffusion, functional, and the anatomical sub-types T1, T2,
T2-star and FLAIR. For each datatype, `filter_descriptions` runs a fixed
sequence of steps:

1. It drops rows by a protocol include/exclude filter.
2. It takes the distinct descriptions of the rows in the target modality.
3. It removes the `exclude_in` list.
4. It rejects descriptions by substring, with exception substrings that override the rejection.
5. It recovers out-of-modality descriptions that carry a common substring.

The result is sorted and de-duplicated. `run` chains the anatomical
sub-types: T2 excludes T1's list; T2-star and FLAIR exclude T1's and T2's
lists; recovery from other modalities can bring an excluded description back.
It then builds the nested classification object, collects every classified
description with `get_all_descriptions`, and lists the ignored descriptions. The whole result is refused when an output file exists and
overwriting is off.

**Manifest builder** (`tabular/generate_manifest.py`). It builds the
participant/visit manifest in these steps:

1. It validates the visit–session map against the configured sessions.
2. It unions the tabular files and de-duplicates them on (subject, visit).
3. It reverses the description classification into a description→datatype map.
4. It normalises the imaging rows' visit, session and group, failing on an unmapped visit or group.
5. It attaches the participant-status groups and fills missing groups from the imaging rows.
6. It keeps the configured sessions and the kept research groups.
7. It groups the imaging rows by (subject, visit) into sorted datatype lists, using `get_datatype_list`.
8. It outer-joins the tabular and imaging keys.
9. It formats sessions as `ses-<n>` and sorts by (subject, visit).
10. It decides whether to keep, refuse or write the manifest file.

Module layout:

- `wrappers.dfy`, `sequences.dfy` and `text.dfy` hold generic helpers:
  - `Option`/`Result`;
  - order-preserving filter, keep-first de-duplication, sorted distinct lists and the first failing element;
  - ASCII lower-casing, substring search and lexicographic order.
- `records.dfy` holds the shared imaging row.
- `description_tree.dfy`, `description_filter.dfy` and `classifier_run.dfy` model the classifier.
- `description_examples.dfy` works through concrete description matches and a small diffusion example.
- `manifest_config.dfy`, `manifest_imaging.dfy`, `manifest_tabular.dfy`, `manifest_join.dfy` and `manifest_run.dfy` model the manifest builder.
- `manifest_classification.dfy` connects the two scripts.

Pandas tables become sequences of rows. A missing cell (NaN) is `None`. An
operation that raises becomes a failure (`Result` or `Outcome`) naming the
error, with the offending value where the source's message has one.
File existence and the previous manifest's contents are parameters. The steps
that update state in the source are methods proved against specification
functions:

- The loop that reverses the classification: `ReverseDescriptionMap` and `OverlayEntry`.
- The set of datatypes seen while grouping: the `SeenDatatypes` class, `GetDatatypeList` and `AggregateImaging`.
- The in-place fill of missing groups on the tabular table: `FillMissingGroups` over an `array`.
- The recursive collector that extends one list: the `DescriptionList` class and `Collect`.

Points where the model follows the code as written:

- **FLAIR exclusions.** FLAIR's `exclude_in` list holds the anatomical exclusions plus the T1 and T2 lists, but not the T2-star list (`filter_image_descriptions.py:119`). T2-star's list does hold all three. `ClassifierRun.AnatChain` keeps that asymmetry.
- **Excluded descriptions can return.** A description removed by `exclude_in` or by a reject substring can come back through out-of-modality recovery. `RemovedOnlyReturnsByRecovery` and `ChainExcludesEarlierInModality` state exactly when.
- **Anatomical descriptions in the reversed map.** For a datatype key, the manifest builder iterates the value with `for description in descriptions`. The anatomical value is a nested object, so the loop yields its sub-type keys. The reversed map therefore holds `T1w`-style keys mapped to `anat`. It does not hold the anatomical descriptions themselves (`ClassificationReversed`).
- **Where the session comes from.** The imaging groupby is over (subject, visit, session). A row's session is a function of its visit (`GroupSessionAgrees`), so the model groups by (subject, visit) and recovers the session from the visit at the join.

## Model

| member | source | states |
|---|---|---|
| `DescriptionFilter.TargetModality` | tabular/filter_image_descriptions.py:36-44 | diffusion and functional map to their own modality; every anatomical datatype or sub-type maps to the anatomical modality |
| `DescriptionFilter.ProtocolKept` | tabular/filter_image_descriptions.py:196-208 | with neither an include nor an exclude list every row is kept; a row without a protocol is kept iff there is no include list |
| `DescriptionFilter.ProtocolFiltered` | tabular/filter_image_descriptions.py:196-208 | a row survives iff it matches an include pattern (when given) and no exclude pattern (when given); a missing protocol fails an include filter and passes an exclude filter |
| `DescriptionFilter.PresentDescriptions` | tabular/filter_image_descriptions.py:211-212 | the listed descriptions are exactly the present descriptions of the rows; missing ones are dropped as `value_counts` drops NaN |
| `DescriptionFilter.Candidates` | tabular/filter_image_descriptions.py:210-217 | a description is a candidate iff some row of the target modality carries it and it is not on `exclude_in` |
| `DescriptionFilter.Survives` | tabular/filter_image_descriptions.py:224-241 | with no (or an empty) reject list, or an empty exception list, every description survives; a description that does not survive contains one of the reject substrings |
| `DescriptionFilter.Rejected` | tabular/filter_image_descriptions.py:224-241 | a candidate is kept iff there is no (or an empty) reject list, or it contains no reject substring, or an exception list is given and it contains an exception substring |
| `DescriptionFilter.Recovered` | tabular/filter_image_descriptions.py:277-284 | a recovered description is one outside the modality, not on `exclude_out`, containing a common substring and not already selected |
| `DescriptionFilter.FilterDescriptions` | tabular/filter_image_descriptions.py:294-297 | the result is strictly ascending, so it is sorted and free of duplicates |
| `DescriptionFilter.DescribedInKept` | tabular/filter_image_descriptions.py:196-211 | a description of the protocol-filtered table (in or out of the modality) is one of a protocol-kept input row |
| `DescriptionFilter.InModalitySurvivorsMembership` | tabular/filter_image_descriptions.py:196-241 | the in-modality result of steps 1–4 is exactly the protocol-kept, in-modality descriptions not on `exclude_in` that survive rejection |
| `DescriptionFilter.FilterDescriptionsMembership` | tabular/filter_image_descriptions.py:155-297 | a description is returned iff it is selected in the modality, or added from another modality (protocol-kept, not on `exclude_out`, containing a common substring, not selected in the modality) |
| `DescriptionFilter.DroppedRowDoesNotContribute` | tabular/filter_image_descriptions.py:196-208 | a row the protocol filter drops is not considered at all, even as out-of-modality: removing it leaves the result unchanged |
| `DescriptionFilter.RemovedOnlyReturnsByRecovery` | tabular/filter_image_descriptions.py:215-295 | a description on `exclude_in` or rejected by substring is in the result iff it is recovered from another modality |
| `DescriptionFilter.Suspicious` | tabular/filter_image_descriptions.py:245-250 | the suspicious descriptions are exactly the survivors without any common substring |
| `DescriptionFilter.SharedWithOtherModalities` | tabular/filter_image_descriptions.py:252-275 | the shared descriptions are exactly the survivors that also describe an out-of-modality row not on `exclude_out` |
| `ClassifierRun.WithExcludeIn` | tabular/filter_image_descriptions.py:86-122 | an explicit `exclude_in` argument replaces that field of the rule and nothing else |
| `ClassifierRun.Unclassified` | tabular/filter_image_descriptions.py:147-150 | the unclassified descriptions are sorted, distinct, and exactly the present descriptions not among the classified ones |
| `ClassifierRun.IgnoredDescriptions` | tabular/filter_image_descriptions.py:146-151 | the ignored list holds each unclassified description once, in ascending order, followed by one missing value iff some row has no description; only the last entry can be missing |
| `ClassifierRun.PresentThenMissing` | tabular/filter_image_descriptions.py:147-150 | an ascending list of descriptions followed by at most one missing value is sorted with missing values last, as `sort_values` places NaN |
| `ClassifierRun.AnatChain` | tabular/filter_image_descriptions.py:86-122 | each of the four anatomical sub-type lists (T1, T2, T2-star, FLAIR) is sorted and free of duplicates |
| `ClassifierRun.ClassificationTree` | tabular/filter_image_descriptions.py:65-122 | the nested object has top-level keys dwi, func and anat in that order, and its leaf lists hold as many descriptions as the six datatype and sub-type lists together |
| `ClassifierRun.ClassificationFlatten` | tabular/filter_image_descriptions.py:65-122 | the classified descriptions are collected in key order: dwi, func, T1, T2, T2-star, FLAIR |
| `ClassifierRun.Run` | tabular/filter_image_descriptions.py:47-152 | fails iff an output file exists without overwrite; otherwise returns the nested classification built by the sub-type chain and the ignored list computed from all classified descriptions |
| `ClassifierRun.ChainExcludesEarlierInModality` | tabular/filter_image_descriptions.py:94-122 | a description in an earlier sub-type list reaches a later sub-type (T2 after T1; T2-star and FLAIR after T1 or T2) only by out-of-modality recovery |
| `DescriptionTree.FlattenLength` | tabular/filter_image_descriptions.py:300-314 | the collected list is as long as the sum of the leaf list lengths |
| `DescriptionTree.IteratedItems` | tabular/generate_manifest.py:141 | iterating a list value yields its strings; iterating an object value yields its keys in order |
| `DescriptionTree.DescriptionList.constructor` | tabular/filter_image_descriptions.py:314 | collection starts from an empty list |
| `DescriptionTree.DescriptionList.Extend` | tabular/filter_image_descriptions.py:311 | extending appends the leaf list to the accumulated list |
| `DescriptionTree.Collect` | tabular/filter_image_descriptions.py:302-312 | the walk appends every leaf list of the subtree, in key order, to the accumulator |
| `DescriptionTree.GetAllDescriptions` | tabular/filter_image_descriptions.py:300-314 | returns every leaf list concatenated in key order, of total length the sum of the leaf lengths |
| `Text.SortedStrings` | tabular/filter_image_descriptions.py:295 | `sorted(...drop_duplicates())` is strictly ascending with the same elements |
| `Text.MatchesAnyOccurs` | tabular/filter_image_descriptions.py:237 | a text matches the joined patterns iff the pattern list is empty or some pattern occurs in it, both lower-cased |
| `DescriptionExamples.CalibrationMatches` | tabular/filter_image_descriptions.py:237 | 'dti_calibration' contains the reject substring 'calibration' |
| `DescriptionExamples.CalibrationMissing` | tabular/filter_image_descriptions.py:237 | 'dti_32dir' does not contain 'calibration' |
| `DescriptionExamples.DtiMissing` | tabular/filter_image_descriptions.py:280 | 't1_mprage' does not contain the common substring 'dti' |
| `DescriptionExamples.DiffusionSelected` | tabular/filter_image_descriptions.py:210-241 | with rows dti_32dir and dti_calibration (DTI) and t1_mprage (T1), a diffusion rule rejecting 'calibration' selects dti_32dir in the modality |
| `DescriptionExamples.OthersNotSelected` | tabular/filter_image_descriptions.py:210-241 | in that example no other description is selected in the modality |
| `DescriptionExamples.NothingRecovered` | tabular/filter_image_descriptions.py:277-284 | in that example no description is recovered from another modality: t1_mprage lacks 'dti' |
| `DescriptionExamples.DiffusionExample` | tabular/filter_image_descriptions.py:155-297 | on that example `filter_descriptions` for diffusion returns exactly ['dti_32dir'] |
| `ManifestConfig.UncoveredSessions` | tabular/generate_manifest.py:370 | the uncovered sessions are exactly the configured sessions not among the session codes |
| `ManifestConfig.ValidateVisitSessionMap` | tabular/generate_manifest.py:369-373 | fails, with the invalid-map error, iff some configured session is not a value of `VISIT_SESSION_MAP` |
| `ManifestConfig.VisitSession` | tabular/generate_manifest.py:164-168 | a visit code has a session iff it is a key of `VISIT_SESSION_MAP`, and then it is the mapped value |
| `ManifestConfig.FormatSession` | tabular/generate_manifest.py:310-314 | a present session becomes `ses-` followed by the session; a missing one stays missing |
| `ManifestConfig.EveryImagingVisitHasSession` | tabular/generate_manifest.py:40-78 | every visit code produced by `VISIT_IMAGING_MAP` has a session in `VISIT_SESSION_MAP` |
| `ManifestConfig.Month12IsSession5` | tabular/generate_manifest.py:40-92 | 'Month 12' is visit V04 and session `ses-5` |
| `ManifestImaging.ImagingKeys` | tabular/generate_manifest.py:265 | the listed keys are exactly the (subject, visit) keys of the rows |
| `ManifestImaging.Normalize` | tabular/generate_manifest.py:149-177 | a row keeps subject and description, takes the mapped visit code, that code's session and the mapped group |
| `ManifestImaging.NormalizeImaging` | tabular/generate_manifest.py:155-177 | succeeds iff every visit and group is mapped; the first unmapped visit fails first, otherwise the first unmapped group; on success the rows are normalised one for one |
| `ManifestImaging.Overlay` | tabular/generate_manifest.py:141-144 | after one entry, each of its items maps to its key and every other description keeps its datatype |
| `ManifestImaging.ReversedMapDomain` | tabular/generate_manifest.py:136-144 | a description is in the reversed map iff some entry with a datatype key lists it |
| `ManifestImaging.ReversedMapLastWins` | tabular/generate_manifest.py:141-144 | a description maps to the key of the last datatype entry that lists it |
| `ManifestImaging.ReversedMap` | tabular/generate_manifest.py:136-144 | every value of the reversed map is one of the datatypes; entries with other keys are skipped |
| `ManifestImaging.OverlayEntry` | tabular/generate_manifest.py:141-144 | the inner loop computes the overlay of one entry |
| `ManifestImaging.ReverseDescriptionMap` | tabular/generate_manifest.py:137-144 | the loops compute the reversed map of the classification |
| `ManifestImaging.MappedDatatypes` | tabular/generate_manifest.py:377-378 | the mapped values are exactly the datatypes of the present, mapped descriptions |
| `ManifestImaging.DatatypeList` | tabular/generate_manifest.py:375-379 | the datatype list is sorted, distinct, and holds exactly the datatypes of the mapped descriptions |
| `ManifestImaging.SeenDatatypes.constructor` | tabular/generate_manifest.py:264 | the seen set starts empty |
| `ManifestImaging.GetDatatypeList` | tabular/generate_manifest.py:375-384 | returns the datatype list and adds its datatypes to the seen set |
| `ManifestImaging.KeepImaging` | tabular/generate_manifest.py:240-257 | a row is kept iff its session is one of the configured sessions and its group is one of the kept groups |
| `ManifestImaging.DescriptionsOf` | tabular/generate_manifest.py:265 | the descriptions of a group are exactly those of the rows with that (subject, visit) key |
| `ManifestImaging.GroupDatatypes` | tabular/generate_manifest.py:265-267 | a group's datatype list is sorted and holds a datatype iff some row of the group has a description mapped to it |
| `ManifestImaging.GroupImaging` | tabular/generate_manifest.py:263-268 | the grouped table has one entry per (subject, visit) key of the rows, holding that group's datatype list |
| `ManifestImaging.GroupSessionAgrees` | tabular/generate_manifest.py:265 | two normalised rows with the same (subject, visit) have the same session, so grouping by (subject, visit) loses nothing |
| `ManifestImaging.AggregateImaging` | tabular/generate_manifest.py:263-268 | the aggregation loop computes the grouped table and adds every datatype in it to the seen set |
| `ManifestTabular.ConcatKeys` | tabular/generate_manifest.py:126-130 | the concatenation holds exactly the keys of the files |
| `ManifestTabular.UnionTabular` | tabular/generate_manifest.py:125-131 | the first file without both key columns fails with its index; no files fails; otherwise the keys are distinct and exactly those of the files |
| `ManifestTabular.AttachGroups` | tabular/generate_manifest.py:186-191 | the left merge keeps each key in place and gives it a group iff the subject has one in the participant-status table |
| `ManifestTabular.SubjectGroups` | tabular/generate_manifest.py:206-209 | the listed groups are exactly those of the subject's imaging rows |
| `ManifestTabular.UniqueImagingGroup` | tabular/generate_manifest.py:206-214 | a subject has an imaging group iff it has imaging rows whose groups all agree, and then it is that group |
| `ManifestTabular.UniqueGroupOfDistinct` | tabular/generate_manifest.py:209-212 | the de-duplicated groups have exactly one element iff the subject has imaging rows and they agree |
| `ManifestTabular.Filled` | tabular/generate_manifest.py:203-216 | a filled row keeps its key; a row with a group is unchanged; a group filled in is the one all the subject's imaging rows have |
| `ManifestTabular.FilledGroup` | tabular/generate_manifest.py:203-216 | a filled row keeps its key; it has group g iff it already had g, or it had none and all the subject's imaging rows (at least one) have g |
| `ManifestTabular.FillRow` | tabular/generate_manifest.py:204-216 | one loop step fills that row and changes no other row |
| `ManifestTabular.FillMissingGroups` | tabular/generate_manifest.py:192-216 | every row of the table is filled in place |
| `ManifestTabular.KeepTabular` | tabular/generate_manifest.py:283-285 | a tabular row is kept iff its group is present and one of the kept groups |
| `ManifestJoin.RowFor` | tabular/generate_manifest.py:293-320 | a manifest row has its key and no DICOM dir or BIDS id; with imaging it has the group's datatypes and the formatted session, otherwise no datatypes and no session |
| `ManifestJoin.JoinManifest` | tabular/generate_manifest.py:291-323 | the outer join is sorted by (subject, visit), holds a key iff it is in the tabular rows or the imaging groups, and each row is the row for its key |
| `ManifestJoin.WriteDecision` | tabular/generate_manifest.py:349-363 | an identical existing manifest is kept; a different one fails without overwrite; otherwise the file is written |
| `ManifestRun.FilledTabular` | tabular/generate_manifest.py:190-216 | the tabular rows after the merge and the fill are each attached row, filled |
| `ManifestRun.Assemble` | tabular/generate_manifest.py:283-323 | the assembled manifest is strictly sorted by (subject, visit), one row per key |
| `ManifestRun.Checked` | tabular/generate_manifest.py:112-177 | when the checks pass, the tabular keys are distinct, every imaging row is normalised and carries its visit's session; a failure is never the file-exists error |
| `ManifestRun.BuildManifest` | tabular/generate_manifest.py:101-323 | a built manifest is strictly sorted by (subject, visit); a failure is never the file-exists error |
| `ManifestRun.RunSpec` | tabular/generate_manifest.py:101-363 | a successful run returns the built manifest; keeping the file means the existing manifest equals it; the file-exists error needs an existing file and no overwrite |
| `ManifestRun.AssembleManifest` | tabular/generate_manifest.py:190-323 | performs the merge, fill, filters, grouping and join, and returns the assembled manifest |
| `ManifestRun.Run` | tabular/generate_manifest.py:101-367 | performs the whole run and agrees with the end-to-end specification |
| `ManifestRun.CheckedSucceeds` | tabular/generate_manifest.py:112-177 | the checks pass iff the session map is valid, there is a tabular file, every file has both key columns, and every imaging visit and group is mapped |
| `ManifestRun.ErrorPrecedence` | tabular/generate_manifest.py:112-177 | the errors are raised in source order: session map, then tabular columns, then unmapped visit, then unmapped group |
| `ManifestRun.TabularErrorFirst` | tabular/generate_manifest.py:126-129 | past the session check, the first tabular file without both key columns is the error |
| `ManifestRun.VisitErrorFirst` | tabular/generate_manifest.py:155-161 | past the session and tabular checks, the first imaging row with an unmapped visit is the error |
| `ManifestRun.GroupErrorFirst` | tabular/generate_manifest.py:170-176 | past those checks and with every visit mapped, the first imaging row with an unmapped group is the error |
| `ManifestRun.BuildFailsOnlyInChecks` | tabular/generate_manifest.py:101-323 | building fails with exactly the first check's error, and succeeds whenever the checks pass |
| `ManifestRun.AssembleKeys` | tabular/generate_manifest.py:283-295 | a key is in the manifest iff a kept, filled tabular row or a kept imaging row has it |
| `ManifestRun.AssembleDatatypes` | tabular/generate_manifest.py:263-308 | each row's datatype list is sorted, and holds a datatype iff some kept imaging row with the row's key has a description mapped to it |
| `ManifestRun.AssembleDatatypesKnown` | tabular/generate_manifest.py:137-144 | every datatype listed in the manifest is one of the top-level datatypes |
| `ManifestRun.AssembleSessions` | tabular/generate_manifest.py:240-320 | a row has a session iff a kept imaging row has its key; the session is `ses-` plus a configured session; a row without session has no datatypes |
| `ManifestRun.NormalizedSessions` | tabular/generate_manifest.py:164-168 | every normalised imaging row's session is its visit's session |
| `ManifestRun.RerunKeepsFile` | tabular/generate_manifest.py:349-358 | re-running on the manifest just written keeps it, whatever the overwrite flag |
| `ManifestRun.ExistingDifferentManifest` | tabular/generate_manifest.py:349-363 | an existing different manifest is replaced with overwrite and refused without it |
| `ManifestClassification.ClassificationReversed` | tabular/generate_manifest.py:136-144 | on the classifier's output, the reversed map holds the diffusion and functional descriptions and the anatomical sub-type keys (mapped to anat), and no other anatomical description |

## Left out

- Reading and writing files, JSON and CSV formatting, `chmod`, the temporary file, logging, warnings and `print` output are left out. File existence and the previous manifest are inputs.
- Values that `tabular.filters` and `tabular.ppmi_utils` supply are parameters (`ClassifierConfig`, `ModalityNames`, `DatatypeNames`). These are the datatype and suffix names, the modality names, the `FILTERS` rules and the two anatomical exclusion lists. Those files are not part of this model. Each sub-type's rule is taken already merged from its `FILTERS` entries.
- ClassifierRun.WithExcludeIn: the model replaces the rule's `exclude_in` field. If a `FILTERS` entry already held `exclude_in`, Python would raise `TypeError` for the duplicate keyword argument. That error is not modelled, because the `FILTERS` table is not part of this model.
- Text.MatchesAny: each pattern is matched as a literal substring. The source joins the patterns with `|` into a regular expression, so regex metacharacters in a pattern are not modelled.
- Text.Lower: lower-cases ASCII letters only, where Python's `str.lower` covers all of Unicode.
- `value_counts` occurrence counts are only printed, so they are not modelled. Descriptions are lists, and only their set reaches a result.
- ManifestJoin.RowFor: the `bids_id` column is always missing. The source fills it through `read_manifest` of the DICOM catalog, which also raises when a session has no entries (`generate_manifest.py:325-342`). The catalog is not part of this model.
- ManifestJoin.WriteDecision: "same manifest" is value equality of the rows. The source compares with a manifest read back from CSV, and the CSV round trip is not modelled.
- ManifestTabular.AttachGroups: the participant-status table is a map from subject to group. A subject listed twice (which would duplicate rows in the merge) and a subject with a missing group cell (treated as absent) are not distinguished.
- ManifestTabular.UnionTabular: tabular keys are present strings, so missing subject or visit cells are not modelled. The order of the de-duplicated keys is not stated, because the manifest is sorted afterwards.
- Tabular columns other than subject, visit and group are not modelled, nor are name clashes between them and the manifest columns in the outer join.
- The builder's warnings are left out. These cover missing session mappings, missing groups after the fill, sessions or groups never seen, datatypes never seen, and imaging without tabular rows. The seen-datatype set that feeds the datatype warning is modelled.
