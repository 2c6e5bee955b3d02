/**
 * The classification artifact: a JSON object whose values are lists of
 * description strings or, for the anatomical datatype, an object of lists
 * keyed by sub-type. Key order is insertion order, as in a Python dict.
 */
module DescriptionTree {

  datatype DescTree = Leaf(items: seq<string>) | Node(entries: seq<Entry>)

  datatype Entry = Entry(key: string, value: DescTree)

  /** All leaf lists concatenated in key order. */
  function Flatten(t: DescTree): seq<string>
    decreases t
  {
    match t
    case Leaf(items) => items
    case Node(entries) => FlattenEntries(entries)
  }

  function FlattenEntries(entries: seq<Entry>): seq<string>
    decreases entries
  {
    if entries == [] then [] else Flatten(entries[0].value) + FlattenEntries(entries[1..])
  }

  /** The sum of the lengths of the leaf lists. */
  function LeafTotal(t: DescTree): nat
    decreases t
  {
    match t
    case Leaf(items) => |items|
    case Node(entries) => LeafTotalEntries(entries)
  }

  function LeafTotalEntries(entries: seq<Entry>): nat
    decreases entries
  {
    if entries == [] then 0 else LeafTotal(entries[0].value) + LeafTotalEntries(entries[1..])
  }

  lemma {:induction false} FlattenLength(t: DescTree)
    ensures |Flatten(t)| == LeafTotal(t)
    decreases t
  {
    match t
    case Leaf(_) =>
    case Node(entries) => FlattenEntriesLength(entries);
  }

  lemma {:induction false} FlattenEntriesLength(entries: seq<Entry>)
    ensures |FlattenEntries(entries)| == LeafTotalEntries(entries)
    decreases entries
  {
    if entries != [] {
      FlattenLength(entries[0].value);
      FlattenEntriesLength(entries[1..]);
    }
  }

  /** Flattening a prefix extended by one entry appends that entry's leaves. */
  lemma {:induction false} FlattenEntriesSnoc(entries: seq<Entry>, e: Entry)
    ensures FlattenEntries(entries + [e]) == FlattenEntries(entries) + Flatten(e.value)
  {
    if entries == [] {
      assert entries + [e] == [e];
    } else {
      assert (entries + [e])[1..] == entries[1..] + [e];
      FlattenEntriesSnoc(entries[1..], e);
    }
  }

  /**
   * What `for x in value` yields for the value of a JSON key: the strings of
   * a list, or the keys of a nested object.
   */
  function IteratedItems(t: DescTree): (r: seq<string>)
    ensures t.Leaf? ==> r == t.items
    ensures t.Node? ==> |r| == |t.entries| && forall i :: 0 <= i < |r| ==> r[i] == t.entries[i].key
  {
    match t
    case Leaf(items) => items
    case Node(entries) => seq(|entries|, i requires 0 <= i < |entries| => entries[i].key)
  }

  /** The list that the description collector extends as it walks the tree. */
  class DescriptionList {
    var items: seq<string>

    constructor ()
      ensures items == []
    {
      items := [];
    }

    method Extend(xs: seq<string>)
      modifies this
      ensures items == old(items) + xs
    {
      items := items + xs;
    }
  }

  /** Walks the tree in key order, extending `acc` with every leaf list. */
  method Collect(t: DescTree, acc: DescriptionList)
    modifies acc
    ensures acc.items == old(acc.items) + Flatten(t)
    decreases t
  {
    match t
    case Leaf(items) =>
      acc.Extend(items);
    case Node(entries) =>
      var i := 0;
      while i < |entries|
        invariant 0 <= i <= |entries|
        invariant acc.items == old(acc.items) + FlattenEntries(entries[..i])
      {
        assert entries[..i + 1] == entries[..i] + [entries[i]];
        FlattenEntriesSnoc(entries[..i], entries[i]);
        Collect(entries[i].value, acc);
        i := i + 1;
      }
      assert entries[..|entries|] == entries;
  }

  /** `get_all_descriptions`: every leaf list of the tree, concatenated in key order. */
  method GetAllDescriptions(t: DescTree) returns (all: seq<string>)
    ensures all == Flatten(t)
    ensures |all| == LeafTotal(t)
  {
    var acc := new DescriptionList();
    Collect(t, acc);
    all := acc.items;
    FlattenLength(t);
  }
}
