/**
 * The item record that radar/run.py builds for each new entry and hands to the
 * markdown and digest builders, and the partition of items by label.
 */
module Items {
  import opened Wrappers

  /**
   * One new item. `labelName` (the `label` field) is a string because the builders accept any label; `policyUsed`
   * is None when the field is missing.
   */
  datatype Item = Item(
    date: string,
    sourceId: string,
    sourceName: string,
    title: string,
    link: string,
    published: string,
    score: int,
    labelName: string,
    policyUsed: Option<string>,
    matches: string,
    excerpt: string)

  /** The section titles that the digest and the markdown report share. */
  const RedTag: string := "\U{1F534} RED"
  const WatchTag: string := "\U{1F7E0} WATCH"
  const GreenTag: string := "\U{1F7E2} GREEN"

  /** `[x for x in items if x["label"] == l]`. */
  function WithLabel(items: seq<Item>, l: string): (r: seq<Item>)
    ensures |r| <= |items|
    ensures forall i :: 0 <= i < |r| ==> r[i].labelName == l
    decreases |items|
  {
    if items == [] then []
    else (if items[0].labelName == l then [items[0]] else []) + WithLabel(items[1..], l)
  }

  predicate KnownLabel(l: string) {
    l == "RED" || l == "WATCH" || l == "GREEN"
  }

  /** The items with any other label. */
  function Unlabelled(items: seq<Item>): seq<Item>
    decreases |items|
  {
    if items == [] then []
    else (if !KnownLabel(items[0].labelName) then [items[0]] else []) + Unlabelled(items[1..])
  }

  /** The three label partitions and the rest account for every item exactly once. */
  lemma {:induction false} PartitionCount(items: seq<Item>)
    ensures |WithLabel(items, "RED")| + |WithLabel(items, "WATCH")| + |WithLabel(items, "GREEN")|
              + |Unlabelled(items)| == |items|
    decreases |items|
  {
    if items != [] {
      PartitionCount(items[1..]);
    }
  }

  /** An item lands in the partition of its label and in no other. */
  lemma {:induction false} WithLabelMembers(items: seq<Item>, l: string, x: Item)
    ensures x in WithLabel(items, l) <==> x in items && x.labelName == l
    decreases |items|
  {
    if items != [] {
      WithLabelMembers(items[1..], l, x);
      assert items == [items[0]] + items[1..];
    }
  }
}
