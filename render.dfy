/**
 * The daily markdown report (radar/render.py, `render_daily_markdown`). The generation
 * timestamp, which the source reads from the clock, is a parameter.
 */
module Render {
  import opened Wrappers
  import opened Text
  import opened Items
  import opened Seqs

  /** The policy an item shows; an item without one shows RSS_ONLY. */
  function PolicyName(p: Option<string>): string {
    p.GetOr("RSS_ONLY")
  }

  function HeadingLine(i: int, it: Item): (r: string)
    ensures |r| >= 4 && r[..4] == "### "
  {
    "### " + IntToString(i) + ". [" + it.title + "](" + it.link + ")"
  }

  function SourceLine(it: Item): string {
    "- Source: **" + it.sourceName + "** (`" + it.sourceId + "`)"
  }

  function PublishedLine(published: string): string {
    "- Published: " + published
  }

  function PolicyLine(it: Item): string {
    "- Policy Used: `" + PolicyName(it.policyUsed) + "` | Score: **" + IntToString(it.score)
      + "** | Label: **" + it.labelName + "**"
  }

  function MatchesLine(matches: string): string {
    "- Matches: " + matches
  }

  /** The lines between a heading and the next one, for the `i`-th item of a section. */
  function ItemLines(i: int, it: Item): seq<string> {
    [HeadingLine(i, it)] + [SourceLine(it)]
      + (if it.published != "" then [PublishedLine(it.published)] else [])
      + [PolicyLine(it)]
      + (if it.matches != "" then [MatchesLine(it.matches)] else [])
      + [""]
      + (if it.excerpt != "" then ["**Excerpt**", "", it.excerpt, ""] else [])
      + ["---"] + [""]
  }

  /** The lines of all items of a section, numbered from 1 in order. */
  function ItemsLines(xs: seq<Item>): seq<string>
    decreases |xs|
  {
    if xs == [] then [] else ItemsLines(xs[..|xs| - 1]) + ItemLines(|xs|, xs[|xs| - 1])
  }

  function SectionHeading(title: string, n: int): (r: string)
    ensures |r| >= 3 && r[..3] == "## "
  {
    "## " + title + " (" + IntToString(n) + ")"
  }

  /** `section(title, xs)`: its heading with the item count, a blank line, then the items. */
  function SectionText(title: string, xs: seq<Item>): string {
    Join("\n", [SectionHeading(title, |xs|), ""] + ItemsLines(xs))
  }

  function TitleLine(date: string): string {
    "# Propaganda Radar Daily \U{2014} " + date
  }

  function CountsLine(total: int, red: int, watch: int, green: int): string {
    "- New Items: " + IntToString(total) + " | RED: " + IntToString(red)
      + " | WATCH: " + IntToString(watch) + " | GREEN: " + IntToString(green)
  }

  function GeneratedLine(generated: string): string {
    "- Generated: " + generated
  }

  /**
   * The report's header: title, blank, generation time, the counts of all items and of
   * each label, blank.
   */
  function HeaderParts(date: string, generated: string, items: seq<Item>): (r: seq<string>)
    ensures |r| == 5
    ensures r[3] == CountsLine(|items|, |WithLabel(items, "RED")|, |WithLabel(items, "WATCH")|, |WithLabel(items, "GREEN")|)
  {
    [TitleLine(date)] + [""] + [GeneratedLine(generated)]
      + [CountsLine(|items|, |WithLabel(items, "RED")|, |WithLabel(items, "WATCH")|, |WithLabel(items, "GREEN")|)]
      + [""]
  }

  /** The sections: RED and WATCH always, even when empty, and GREEN last and only when enabled. */
  function SectionParts(items: seq<Item>, includeGreen: bool): (r: seq<string>)
    ensures |r| == if includeGreen then 3 else 2
    ensures r[0] == SectionText(RedTag, WithLabel(items, "RED"))
    ensures r[1] == SectionText(WatchTag, WithLabel(items, "WATCH"))
    ensures includeGreen ==> r[2] == SectionText(GreenTag, WithLabel(items, "GREEN"))
  {
    [SectionText(RedTag, WithLabel(items, "RED"))]
      + [SectionText(WatchTag, WithLabel(items, "WATCH"))]
      + (if includeGreen then [SectionText(GreenTag, WithLabel(items, "GREEN"))] else [])
  }

  /** The top-level parts that the report joins with newlines. */
  function MarkdownParts(date: string, generated: string, items: seq<Item>, includeGreen: bool): seq<string> {
    HeaderParts(date, generated, items) + SectionParts(items, includeGreen)
  }

  function Markdown(date: string, generated: string, items: seq<Item>, includeGreen: bool): string {
    Join("\n", MarkdownParts(date, generated, items, includeGreen))
  }

  /** Appends `line` when the field it shows is non-empty. */
  method AppendIfPresent(lines: seq<string>, field: string, line: string) returns (out: seq<string>)
    ensures out == lines + (if field != "" then [line] else [])
  {
    out := lines;
    if field != "" {
      out := out + [line];
    } else {
      assert lines + [] == lines;
    }
  }

  /** Appends the excerpt block when there is an excerpt. */
  method AppendExcerpt(lines: seq<string>, excerpt: string) returns (out: seq<string>)
    ensures out == lines + (if excerpt != "" then ["**Excerpt**", "", excerpt, ""] else [])
  {
    out := lines;
    if excerpt != "" {
      out := out + ["**Excerpt**"];
      out := out + [""];
      out := out + [excerpt];
      out := out + [""];
      Assoc4(lines, ["**Excerpt**"], [""], [excerpt], [""]);
    } else {
      assert lines + [] == lines;
    }
  }

  /** Appends the lines of the `i`-th item one by one, skipping the empty optional fields. */
  method AppendItem(lines: seq<string>, i: int, it: Item) returns (out: seq<string>)
    ensures out == lines + ItemLines(i, it)
  {
    out := lines + [HeadingLine(i, it)];
    out := out + [SourceLine(it)];
    out := AppendIfPresent(out, it.published, PublishedLine(it.published));
    out := out + [PolicyLine(it)];
    out := AppendIfPresent(out, it.matches, MatchesLine(it.matches));
    out := out + [""];
    out := AppendExcerpt(out, it.excerpt);
    out := out + ["---"];
    out := out + [""];
    Assoc9(lines, [HeadingLine(i, it)], [SourceLine(it)],
      if it.published != "" then [PublishedLine(it.published)] else [],
      [PolicyLine(it)],
      if it.matches != "" then [MatchesLine(it.matches)] else [],
      [""],
      if it.excerpt != "" then ["**Excerpt**", "", it.excerpt, ""] else [],
      ["---"], [""]);
  }

  lemma ItemsLinesSnoc(xs: seq<Item>, i: nat)
    requires i < |xs|
    ensures ItemsLines(xs[..i + 1]) == ItemsLines(xs[..i]) + ItemLines(i + 1, xs[i])
  {
    assert xs[..i + 1][..i] == xs[..i];
  }

  /** `section`: one loop over the items, numbering them from 1. */
  method Section(title: string, xs: seq<Item>) returns (text: string)
    ensures text == SectionText(title, xs)
  {
    var lines := [SectionHeading(title, |xs|), ""];
    ghost var head := lines;
    for i := 0 to |xs|
      invariant lines == head + ItemsLines(xs[..i])
    {
      ItemsLinesSnoc(xs, i);
      Assoc(head, ItemsLines(xs[..i]), ItemLines(i + 1, xs[i]));
      lines := AppendItem(lines, i + 1, xs[i]);
    }
    assert xs[..|xs|] == xs;
    text := Join("\n", lines);
  }

  /** `render_daily_markdown`, with the generation time given. */
  method RenderDailyMarkdown(date: string, generated: string, items: seq<Item>, includeGreen: bool)
    returns (md: string)
    ensures md == Markdown(date, generated, items, includeGreen)
  {
    var red := WithLabel(items, "RED");
    var watch := WithLabel(items, "WATCH");
    var green := WithLabel(items, "GREEN");
    var out: seq<string> := [];
    out := out + [TitleLine(date)];
    assert out == [TitleLine(date)];
    out := out + [""];
    out := out + [GeneratedLine(generated)];
    out := out + [CountsLine(|items|, |red|, |watch|, |green|)];
    out := out + [""];
    ghost var header := out;
    var s := Section(RedTag, red);
    out := out + [s];
    s := Section(WatchTag, watch);
    out := out + [s];
    ghost var green' := [];
    if includeGreen {
      s := Section(GreenTag, green);
      out := out + [s];
      green' := [s];
    } else {
      assert out + [] == out;
    }
    Assoc(header + [SectionText(RedTag, red)], [SectionText(WatchTag, watch)], green');
    Assoc(header, [SectionText(RedTag, red)], [SectionText(WatchTag, watch)] + green');
    assert out == MarkdownParts(date, generated, items, includeGreen);
    md := Join("\n", out);
  }

  // ---------------------------------------------------------------------------
  // Lemmas

  /** An empty section is still emitted: its heading with a count of 0 and a blank line. */
  lemma EmptySection(title: string)
    ensures SectionText(title, []) == SectionHeading(title, 0) + "\n"
  {
    assert [SectionHeading(title, 0), ""] + ItemsLines([]) == [SectionHeading(title, 0), ""];
    assert Join("\n", [""]) == "";
  }

  /** Every section text starts with its heading, which shows the number of items, and a newline. */
  lemma SectionStartsWithHeading(title: string, xs: seq<Item>)
    ensures var h := SectionHeading(title, |xs|);
            |h| < |SectionText(title, xs)| && SectionText(title, xs)[..|h| + 1] == h + "\n"
  {
    var h := SectionHeading(title, |xs|);
    var parts := [h, ""] + ItemsLines(xs);
    assert parts[0] == h && |parts| >= 2;
    var rest := Join("\n", parts[1..]);
    assert SectionText(title, xs) == h + "\n" + rest;
    assert (h + "\n" + rest)[..|h| + 1] == h + "\n";
  }

  /** The report is its five header parts followed by its sections, seven parts or eight with GREEN. */
  lemma MarkdownLayout(date: string, generated: string, items: seq<Item>, includeGreen: bool)
    ensures |MarkdownParts(date, generated, items, includeGreen)| == if includeGreen then 8 else 7
    ensures MarkdownParts(date, generated, items, includeGreen)[3] ==
              CountsLine(|items|, |WithLabel(items, "RED")|, |WithLabel(items, "WATCH")|, |WithLabel(items, "GREEN")|)
    ensures MarkdownParts(date, generated, items, includeGreen)[5..] == SectionParts(items, includeGreen)
  {
    var h := HeaderParts(date, generated, items);
    assert (h + SectionParts(items, includeGreen))[3] == h[3];
  }

  /** An item without a policy is shown exactly like one whose policy is RSS_ONLY. */
  lemma MissingPolicyShowsRssOnly(it: Item)
    requires it.policyUsed.None?
    ensures PolicyLine(it) == PolicyLine(it.(policyUsed := Some("RSS_ONLY")))
  {
  }

  /** Where the fields of an item land among its upper lines, whatever the lines are. */
  lemma FieldsAt<T>(h: T, src: T, pub: seq<T>, pol: T, mat: seq<T>)
    requires |pub| <= 1 && |mat| <= 1
    ensures var r := [h] + [src] + pub + [pol] + mat;
            |r| == 3 + |pub| + |mat| && r[0] == h && r[1] == src && r[2 + |pub|] == pol
            && (pub != [] ==> r[2] == pub[0]) && (mat != [] ==> r[3 + |pub|] == mat[0])
  {
  }

  /** The heading, source, publication, policy and matches lines of an item. */
  function UpperLines(i: int, it: Item): seq<string> {
    [HeadingLine(i, it)] + [SourceLine(it)]
      + (if it.published != "" then [PublishedLine(it.published)] else [])
      + [PolicyLine(it)]
      + (if it.matches != "" then [MatchesLine(it.matches)] else [])
  }

  /** The blank, excerpt and closing-rule lines of an item. */
  function LowerLines(it: Item): seq<string> {
    [""] + (if it.excerpt != "" then ["**Excerpt**", "", it.excerpt, ""] else []) + ["---"] + [""]
  }

  /** An item's lines are its field lines, then the blank, excerpt and rule lines. */
  lemma ItemLinesSplit(i: int, it: Item)
    ensures ItemLines(i, it) == UpperLines(i, it) + LowerLines(it)
  {
    Assoc4(UpperLines(i, it), [""], if it.excerpt != "" then ["**Excerpt**", "", it.excerpt, ""] else [], ["---"], [""]);
  }

  /**
   * The field lines: heading and source, then Published exactly when there is a publication
   * date, then the policy line, then Matches exactly when there are matches.
   */
  lemma UpperLinesShape(i: int, it: Item)
    ensures var r := UpperLines(i, it);
            var p := if it.published != "" then 3 else 2;
            |r| == p + (if it.matches != "" then 2 else 1)
            && r[0] == HeadingLine(i, it) && r[1] == SourceLine(it)
            && (it.published != "" ==> r[2] == PublishedLine(it.published))
            && r[p] == PolicyLine(it)
            && (it.matches != "" ==> r[p + 1] == MatchesLine(it.matches))
  {
    FieldsAt(HeadingLine(i, it), SourceLine(it),
      if it.published != "" then [PublishedLine(it.published)] else [],
      PolicyLine(it),
      if it.matches != "" then [MatchesLine(it.matches)] else []);
  }

  /** The lower lines hold the four excerpt lines exactly when there is an excerpt. */
  lemma LowerLinesShape(it: Item)
    ensures LowerLines(it) == if it.excerpt != "" then ["", "**Excerpt**", "", it.excerpt, "", "---", ""] else ["", "---", ""]
  {
  }

  /** The lines of the first `j` items are a prefix of the lines of all of them. */
  lemma {:induction false} ItemsLinesPrefix(xs: seq<Item>, j: nat)
    requires j <= |xs|
    ensures |ItemsLines(xs[..j])| <= |ItemsLines(xs)|
    ensures ItemsLines(xs[..j]) == ItemsLines(xs)[..|ItemsLines(xs[..j])|]
    decreases |xs| - j
  {
    if j == |xs| {
      assert xs[..j] == xs;
    } else {
      ItemsLinesPrefix(xs, j + 1);
      ItemsLinesSnoc(xs, j);
      var a := ItemsLines(xs[..j]);
      var b := ItemsLines(xs[..j + 1]);
      var all := ItemsLines(xs);
      PrefixOfPrefix(a, b, all, ItemLines(j + 1, xs[j]));
    }
  }

  /** Item k of a section starts, after the lines of the items before it, with its heading numbered k + 1. */
  lemma ItemHeadingAt(xs: seq<Item>, k: nat)
    requires k < |xs|
    ensures |ItemsLines(xs[..k])| < |ItemsLines(xs)|
    ensures ItemsLines(xs)[|ItemsLines(xs[..k])|] == HeadingLine(k + 1, xs[k])
  {
    ItemsLinesPrefix(xs, k + 1);
    ItemsLinesSnoc(xs, k);
    var a := ItemsLines(xs[..k]);
    var b := ItemsLines(xs[..k + 1]);
    assert b[|a|] == HeadingLine(k + 1, xs[k]);
  }

  /** An item whose label is none of RED, WATCH and GREEN is in no section, though it is counted. */
  lemma UnknownLabelInNoSection(items: seq<Item>, x: Item)
    requires x in items && !KnownLabel(x.labelName)
    ensures x !in WithLabel(items, "RED") && x !in WithLabel(items, "WATCH") && x !in WithLabel(items, "GREEN")
  {
    WithLabelMembers(items, "RED", x);
    WithLabelMembers(items, "WATCH", x);
    WithLabelMembers(items, "GREEN", x);
  }
}
