/**
 * A worked example of `filter_descriptions` for diffusion: a calibration
 * scan is rejected by substring, an anatomical scan is neither in the
 * modality nor recoverable, and only the diffusion scan remains.
 */
module DescriptionExamples {
  import opened Wrappers
  import opened Sequences
  import opened Text
  import opened Records
  import opened DescriptionFilter

  /** "calibration" occurs in "dti_calibration". */
  lemma CalibrationMatches()
    ensures MatchesAny("dti_calibration", ["calibration"])
  {
    var text, pattern := "dti_calibration", "calibration";
    LowerOfLowerCase(text);
    LowerOfLowerCase(pattern);
    assert text[4..][..|pattern|] == pattern;
    assert Contains(text[4..], pattern);
    ContainsInSuffix(text, pattern, 4);
    assert Contains(Lower(text), Lower([pattern][0]));
  }

  /** "calibration" is longer than "dti_32dir", so it does not occur in it. */
  lemma CalibrationMissing()
    ensures !MatchesAny("dti_32dir", ["calibration"])
  {
    NotContainsLonger(Lower("dti_32dir"), Lower("calibration"));
  }

  /** "t1_mprage" has no 'd', so "dti" does not occur in it. */
  lemma DtiMissing()
    ensures !MatchesAny("t1_mprage", ["dti"])
  {
    assert Lower("dti") == "dti";
    assert Lower("t1_mprage") == "t1_mprage";
    NotContainsWithoutFirst(Lower("t1_mprage"), Lower("dti"));
  }

  /** Three rows of one subject: two diffusion scans and one T1 scan. */
  ghost predicate ExampleRows(rows: seq<ImagingRow>)
  {
    rows == [ImagingRow("1", None, None, Some("dti_32dir"), Some("DTI"), None),
             ImagingRow("1", None, None, Some("dti_calibration"), Some("DTI"), None),
             ImagingRow("1", None, None, Some("t1_mprage"), Some("T1"), None)]
  }

  /** A diffusion rule: common substring "dti", reject "calibration", nothing else. */
  ghost predicate ExampleRule(rule: FilterRule)
  {
    rule == FilterRule(["dti"], Some(["calibration"]), None, None, None, None, None)
  }

  /** The diffusion scan is selected in the modality. */
  lemma DiffusionSelected(rows: seq<ImagingRow>, rule: FilterRule)
    requires ExampleRows(rows) && ExampleRule(rule)
    ensures SelectedInModality(rows, "DTI", rule, "dti_32dir")
  {
    CalibrationMissing();
    assert ProtocolKept(rows[0], rule);
  }

  /** No other description is selected in the modality: the calibration scan is rejected. */
  lemma OthersNotSelected(rows: seq<ImagingRow>, rule: FilterRule, d: string)
    requires ExampleRows(rows) && ExampleRule(rule) && d != "dti_32dir"
    ensures !SelectedInModality(rows, "DTI", rule, d)
  {
    if d == "dti_calibration" {
      CalibrationMatches();
      assert !Survives(d, rule);
    } else {
      forall row | row in rows && row.modality == Some("DTI")
        ensures row.description != Some(d)
      {
        assert row == rows[0] || row == rows[1];
      }
    }
  }

  /** Nothing is recovered: the only other-modality scan lacks "dti". */
  lemma NothingRecovered(rows: seq<ImagingRow>, rule: FilterRule, d: string)
    requires ExampleRows(rows) && ExampleRule(rule)
    ensures !AddedFromOtherModality(rows, "DTI", rule, d)
  {
    DtiMissing();
    forall row | row in rows && row.modality != Some("DTI")
      ensures row.description == Some("t1_mprage")
    {
      assert row == rows[2];
    }
  }

  /** Filtering the three rows for diffusion returns only the diffusion scan. */
  lemma DiffusionExample(rows: seq<ImagingRow>, names: ModalityNames, rule: FilterRule)
    requires ExampleRows(rows) && ExampleRule(rule)
    requires names == ModalityNames("T1", "DTI", "fMRI")
    ensures FilterDescriptions(rows, Dwi, names, rule) == ["dti_32dir"]
  {
    var r := FilterDescriptions(rows, Dwi, names, rule);
    assert TargetModality(Dwi, names) == "DTI";
    forall d ensures d in r <==> d == "dti_32dir" {
      FilterDescriptionsMembership(rows, Dwi, names, rule, d);
      NothingRecovered(rows, rule, d);
      if d == "dti_32dir" {
        DiffusionSelected(rows, rule);
      } else {
        OthersNotSelected(rows, rule, d);
      }
    }
    StrLessIsStrictTotalOrder();
    AscendingUnique(r, ["dti_32dir"], StrLess);
  }
}
