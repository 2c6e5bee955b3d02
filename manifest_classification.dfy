/**
 * How the manifest builder reads the classifier's output: the reversed
 * description map computed on the classification tree that the classifier's
 * `run` writes.
 */
module ManifestClassification {
  import opened Records
  import opened DescriptionTree
  import opened ClassifierRun
  import opened ManifestImaging

  /** The anatomical sub-type keys of the classification, in key order. */
  function SubtypeKeys(n: DatatypeNames): seq<string>
  {
    [n.t1, n.t2, n.t2star, n.flair]
  }

  /**
   * Reading the classifier's own output, the reversed map iterates the
   * nested anatomical object, so it holds the sub-type keys (each mapped to
   * the anatomical datatype) and not the anatomical descriptions: those are
   * mapped only when they also appear in the diffusion or functional list.
   */
  lemma ClassificationReversed(n: DatatypeNames, dwi: seq<string>, func: seq<string>, anat: AnatLists, d: string)
    ensures var m := ReversedMap(ClassificationTree(n, dwi, func, anat).entries, n.Datatypes());
      && (d in m <==> d in dwi || d in func || d in SubtypeKeys(n))
      && (d in SubtypeKeys(n) ==> m[d] == n.anat)
  {
    var entries := ClassificationTree(n, dwi, func, anat).entries;
    var items := IteratedItems(entries[2].value);
    assert items == SubtypeKeys(n) by {
      assert |items| == 4;
      forall i | 0 <= i < 4 ensures items[i] == SubtypeKeys(n)[i] {
        assert items[i] == entries[2].value.entries[i].key;
      }
    }
    ReversedMapDomain(entries, n.Datatypes(), d);
    assert IteratedItems(entries[0].value) == dwi && IteratedItems(entries[1].value) == func;
    assert d in dwi ==> Assigns(entries[0], n.Datatypes(), d);
    assert d in func ==> Assigns(entries[1], n.Datatypes(), d);
    assert d in SubtypeKeys(n) ==> Assigns(entries[2], n.Datatypes(), d);
    forall i | 0 <= i < |entries| && Assigns(entries[i], n.Datatypes(), d)
      ensures d in dwi || d in func || d in SubtypeKeys(n)
    {
      assert i == 0 || i == 1 || i == 2;
    }
    if d in SubtypeKeys(n) {
      ReversedMapLastWins(entries, n.Datatypes(), d, 2);
    }
  }
}
