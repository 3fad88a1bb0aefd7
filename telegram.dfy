/**
 * The once-a-day digest message (radar/telegram.py, `build_digest_message`). Sending the
 * message over the network is not modelled: the send outcome is an input of Run.
 */
module Telegram {
  import opened Wrappers
  import opened Text
  import opened Items
  import opened Seqs

  const MaxLength: nat := 3800
  const TruncationMarker: string := "\n\U{2026}(truncated)"

  const Footer: seq<string> := ["\U{2014}", "Repo\U{C758} out/daily/ \U{D30C}\U{C77C}\U{C5D0}\U{C11C} \U{C804}\U{CCB4} \U{B0B4}\U{C6A9} \U{D655}\U{C778}"]

  /** A title on one line: newlines become spaces, then the ends are stripped. */
  function OneLineTitle(t: string): (r: string)
    ensures '\n' !in r
  {
    var flat := ReplaceChar(t, '\n', ' ');
    StripFacts(flat);
    Strip(flat)
  }

  function TitleLine(date: string): (r: string)
    ensures r != "" && r[0] == '\U{1F6F0}'
  {
    "\U{1F6F0}\U{FE0F} Propaganda Radar \U{2014} " + date
  }

  function CountsLine(total: int, red: int, watch: int, green: int): (r: string)
    ensures r != "" && r[0] == 'N'
  {
    "NEW: " + IntToString(total) + " | RED " + IntToString(red)
      + " | WATCH " + IntToString(watch) + " | GREEN " + IntToString(green)
  }

  /** "i) title (score s)": the line that numbers an item. */
  function EntryHead(i: int, it: Item): (r: string)
    ensures i >= 0 ==> NumberedLine(r)
  {
    IntToString(i) + ") " + OneLineTitle(it.title) + " (score " + IntToString(it.score) + ")"
  }

  function LinkLine(link: string): (r: string)
    ensures r != "" && r[0] == ' '
  {
    "   " + link
  }

  /** "… and K more". */
  function OverflowLine(k: int): (r: string)
    ensures r != "" && r[0] == '\U{2026}'
  {
    "\U{2026} and " + IntToString(k) + " more"
  }

  /** The lines for the `i`-th listed item: its head line, then the link when there is one. */
  function EntryLines(i: int, it: Item): seq<string> {
    [EntryHead(i, it)] + (if it.link != "" then [LinkLine(it.link)] else [])
  }

  /** The lines for a list of items, numbered from 1 in order. */
  function EntriesLines(xs: seq<Item>): seq<string>
    decreases |xs|
  {
    if xs == [] then [] else EntriesLines(xs[..|xs| - 1]) + EntryLines(|xs|, xs[|xs| - 1])
  }

  /** `add_section`: nothing for no items; otherwise the tag, the first `maxItems` items, the overflow line and a blank. */
  function SectionLines(tag: string, xs: seq<Item>, maxItems: int): seq<string> {
    if xs == [] then []
    else
      [tag] + EntriesLines(PyTake(xs, maxItems))
        + (if |xs| > maxItems then [OverflowLine(|xs| - maxItems)] else [])
        + [""]
  }

  function HeaderLines(date: string, items: seq<Item>): seq<string> {
    [TitleLine(date),
     CountsLine(|items|, |WithLabel(items, "RED")|, |WithLabel(items, "WATCH")|, |WithLabel(items, "GREEN")|),
     ""]
  }

  function DigestLines(date: string, items: seq<Item>, maxItems: int, includeGreen: bool): seq<string> {
    HeaderLines(date, items)
      + SectionLines(RedTag, WithLabel(items, "RED"), maxItems)
      + SectionLines(WatchTag, WithLabel(items, "WATCH"), maxItems)
      + (if includeGreen then SectionLines(GreenTag, WithLabel(items, "GREEN"), maxItems) else [])
      + Footer
  }

  /** A message over the length limit keeps its first 3800 characters and gets the truncation marker. */
  function Truncate(msg: string): (r: string)
    ensures |msg| <= MaxLength ==> r == msg
    ensures |msg| > MaxLength ==> |r| == MaxLength + |TruncationMarker| && r[..MaxLength] == msg[..MaxLength]
    ensures |msg| > MaxLength ==> r[MaxLength..] == TruncationMarker
  {
    if |msg| > MaxLength then msg[..MaxLength] + TruncationMarker else msg
  }

  function Digest(date: string, items: seq<Item>, maxItems: int, includeGreen: bool): string {
    Truncate(Join("\n", DigestLines(date, items, maxItems, includeGreen)))
  }

  method AppendEntries(prefix: seq<string>, shown: seq<Item>) returns (out: seq<string>)
    ensures out == prefix + EntriesLines(shown)
  {
    out := prefix;
    for i := 0 to |shown|
      invariant out == prefix + EntriesLines(shown[..i])
    {
      var it := shown[i];
      EntriesLinesSnoc(shown, i);
      ghost var before := out;
      out := out + [EntryHead(i + 1, it)];
      if it.link != "" {
        out := out + [LinkLine(it.link)];
      }
      Assoc(prefix, EntriesLines(shown[..i]), EntryLines(i + 1, it));
      Assoc(before, [EntryHead(i + 1, it)], if it.link != "" then [LinkLine(it.link)] else []);
    }
    assert shown[..|shown|] == shown;
  }

  method AddSection(lines: seq<string>, tag: string, xs: seq<Item>, maxItems: int) returns (out: seq<string>)
    ensures out == lines + SectionLines(tag, xs, maxItems)
  {
    if xs == [] {
      assert lines + [] == lines;
      return lines;
    }
    var shown := PyTake(xs, maxItems);
    out := AppendEntries(lines + [tag], shown);
    var over: seq<string> := [];
    if |xs| > maxItems {
      over := [OverflowLine(|xs| - maxItems)];
    }
    out := out + over;
    out := out + [""];
    Assoc4(lines, [tag], EntriesLines(shown), over, [""]);
  }

  /** `build_digest_message`: the header, the sections in order, the footer, then the length cap. */
  method BuildDigestMessage(date: string, items: seq<Item>, maxItems: int, includeGreen: bool)
    returns (msg: string)
    ensures msg == Digest(date, items, maxItems, includeGreen)
  {
    var red := WithLabel(items, "RED");
    var watch := WithLabel(items, "WATCH");
    var green := WithLabel(items, "GREEN");
    var lines: seq<string> := [];
    lines := lines + [TitleLine(date)];
    lines := lines + [CountsLine(|items|, |red|, |watch|, |green|)];
    lines := lines + [""];
    assert lines == HeaderLines(date, items);
    lines := AddSection(lines, RedTag, red, maxItems);
    lines := AddSection(lines, WatchTag, watch, maxItems);
    if includeGreen {
      lines := AddSection(lines, GreenTag, green, maxItems);
    } else {
      assert lines + [] == lines;
    }
    ghost var body := lines;
    lines := lines + [Footer[0]];
    lines := lines + [Footer[1]];
    Assoc(body, [Footer[0]], [Footer[1]]);
    assert [Footer[0]] + [Footer[1]] == Footer;
    msg := Join("\n", lines);
    if |msg| > MaxLength {
      msg := msg[..MaxLength] + TruncationMarker;
    }
  }

  lemma EntriesLinesSnoc(xs: seq<Item>, i: nat)
    requires i < |xs|
    ensures EntriesLines(xs[..i + 1]) == EntriesLines(xs[..i]) + EntryLines(i + 1, xs[i])
  {
    assert xs[..i + 1][..i] == xs[..i];
  }

  // ---------------------------------------------------------------------------
  // Lemmas

  /** A line that is not a section tag: empty, or not starting with one of the three tag emoji. */
  predicate PlainLine(l: string) {
    l == "" || (l[0] != '\U{1F534}' && l[0] != '\U{1F7E0}' && l[0] != '\U{1F7E2}')
  }

  predicate NumberedLine(l: string) {
    l != "" && '0' <= l[0] <= '9'
  }

  /** The lines that start with a digit, in order: the head lines of the listed items. */
  function NumberedLines(ls: seq<string>): seq<string>
    decreases |ls|
  {
    if ls == [] then []
    else NumberedLines(ls[..|ls| - 1]) + (if NumberedLine(ls[|ls| - 1]) then [ls[|ls| - 1]] else [])
  }

  lemma {:induction false} NumberedLinesAppend(a: seq<string>, b: seq<string>)
    ensures NumberedLines(a + b) == NumberedLines(a) + NumberedLines(b)
    decreases |b|
  {
    if b == [] {
      assert a + b == a;
    } else {
      var b' := b[..|b| - 1];
      assert (a + b)[..|a + b| - 1] == a + b';
      NumberedLinesAppend(a, b');
      var last := if NumberedLine(b[|b| - 1]) then [b[|b| - 1]] else [];
      Assoc(NumberedLines(a), NumberedLines(b'), last);
    }
  }

  /** A single line is numbered or not. */
  lemma NumberedSingle(l: string)
    ensures NumberedLines([l]) == if NumberedLine(l) then [l] else []
  {
    assert [l][..0] == [];
  }

  /** A line of an item: its numbered head line, or its indented link. */
  predicate EntryLine(l: string) {
    NumberedLine(l) || (l != "" && l[0] == ' ')
  }

  /** An item's lines hold one numbered line, its head, and only item lines. */
  lemma EntryLinesFacts(i: int, it: Item)
    requires i >= 0
    ensures NumberedLines(EntryLines(i, it)) == [EntryHead(i, it)]
    ensures forall l :: l in EntryLines(i, it) ==> EntryLine(l)
  {
    var first := EntryHead(i, it);
    NumberedSingle(first);
    if it.link != "" {
      NumberedLinesAppend([first], [LinkLine(it.link)]);
      NumberedSingle(LinkLine(it.link));
    }
  }

  /** The head lines of a list of items, numbered from 1. */
  function Heads(xs: seq<Item>): (r: seq<string>)
    ensures |r| == |xs|
    decreases |xs|
  {
    if xs == [] then [] else Heads(xs[..|xs| - 1]) + [EntryHead(|xs|, xs[|xs| - 1])]
  }

  /** The k-th head line names the k-th item under the number k + 1. */
  lemma {:induction false} HeadsAt(xs: seq<Item>, k: nat)
    requires k < |xs|
    ensures Heads(xs)[k] == EntryHead(k + 1, xs[k])
    decreases |xs|
  {
    var init := xs[..|xs| - 1];
    if k < |init| {
      HeadsAt(init, k);
      assert xs[k] == init[k];
    }
  }

  /** Each item gives exactly one numbered line: its head line. */
  lemma {:induction false} EntriesHeads(xs: seq<Item>)
    ensures NumberedLines(EntriesLines(xs)) == Heads(xs)
    decreases |xs|
  {
    if xs != [] {
      var init := xs[..|xs| - 1];
      var it := xs[|xs| - 1];
      EntriesHeads(init);
      EntryLinesFacts(|xs|, it);
      NumberedLinesAppend(EntriesLines(init), EntryLines(|xs|, it));
    }
  }

  /** Every line of the listed items is an item line. */
  lemma {:induction false} EntriesAreEntryLines(xs: seq<Item>)
    ensures forall l :: l in EntriesLines(xs) ==> EntryLine(l)
    decreases |xs|
  {
    if xs != [] {
      EntriesAreEntryLines(xs[..|xs| - 1]);
      EntryLinesFacts(|xs|, xs[|xs| - 1]);
    }
  }

  /** The parts a non-empty section is made of. */
  lemma SectionParts(tag: string, xs: seq<Item>, maxItems: int)
    requires xs != []
    ensures SectionLines(tag, xs, maxItems) ==
              [tag] + EntriesLines(PyTake(xs, maxItems))
                + (if |xs| > maxItems then [OverflowLine(|xs| - maxItems)] else []) + [""]
  {
  }

  /** A non-empty section starts with its tag; an empty one has no lines at all. */
  lemma SectionStart(tag: string, xs: seq<Item>, maxItems: int)
    ensures xs == [] <==> SectionLines(tag, xs, maxItems) == []
    ensures xs != [] ==> SectionLines(tag, xs, maxItems)[0] == tag
  {
  }

  /** Around the item lines, a section's tag, overflow line and blank are not numbered. */
  lemma FrameNotNumbered(tag: string, body: seq<string>, over: seq<string>)
    requires !NumberedLine(tag) && NumberedLines(over) == []
    ensures NumberedLines([tag] + body + over + [""]) == NumberedLines(body)
  {
    NumberedLinesAppend([tag], body);
    NumberedLinesAppend([tag] + body, over);
    NumberedLinesAppend([tag] + body + over, [""]);
    NumberedSingle(tag);
    NumberedSingle("");
    assert [] + NumberedLines(body) + [] + [] == NumberedLines(body);
  }

  /** A section's numbered lines are the head lines of its first `maxItems` items. */
  lemma SectionNumbering(tag: string, xs: seq<Item>, maxItems: int)
    requires !NumberedLine(tag)
    ensures NumberedLines(SectionLines(tag, xs, maxItems)) == Heads(PyTake(xs, maxItems))
  {
    if xs != [] {
      var shown := PyTake(xs, maxItems);
      EntriesHeads(shown);
      var over := if |xs| > maxItems then [OverflowLine(|xs| - maxItems)] else [];
      if over != [] {
        NumberedSingle(over[0]);
      } else {
        assert NumberedLines(over) == [];
      }
      SectionParts(tag, xs, maxItems);
      FrameNotNumbered(tag, EntriesLines(shown), over);
    } else {
      assert NumberedLines([]) == [];
    }
  }

  /** For maxItems >= 0, a section lists min(maxItems, |xs|) items. */
  lemma SectionListsAtMost(tag: string, xs: seq<Item>, maxItems: int)
    requires maxItems >= 0 && !NumberedLine(tag)
    ensures |NumberedLines(SectionLines(tag, xs, maxItems))| == Min(maxItems, |xs|)
  {
    SectionNumbering(tag, xs, maxItems);
  }

  /** The k-th listed item of a section is the k-th item of its partition, numbered k + 1. */
  lemma SectionInOrder(tag: string, xs: seq<Item>, maxItems: int, k: nat)
    requires !NumberedLine(tag) && k < |NumberedLines(SectionLines(tag, xs, maxItems))|
    ensures k < |xs| && NumberedLines(SectionLines(tag, xs, maxItems))[k] == EntryHead(k + 1, xs[k])
  {
    SectionNumbering(tag, xs, maxItems);
    var shown := PyTake(xs, maxItems);
    HeadsAt(shown, k);
    assert shown[k] == xs[k];
  }

  /** The section's own tag is its only line that is not plain. */
  lemma SectionOnlyTag(tag: string, xs: seq<Item>, maxItems: int)
    ensures forall l :: l in SectionLines(tag, xs, maxItems) ==> l == tag || PlainLine(l)
  {
    if xs != [] {
      var shown := PyTake(xs, maxItems);
      var body := EntriesLines(shown);
      EntriesAreEntryLines(shown);
      var over := if |xs| > maxItems then [OverflowLine(|xs| - maxItems)] else [];
      SectionParts(tag, xs, maxItems);
      forall l | l in SectionLines(tag, xs, maxItems) ensures l == tag || PlainLine(l) {
        InParts(l, [tag], body, over, [""]);
      }
    }
  }

  /** The overflow line "… and K more" appears exactly when the section has more than maxItems items. */
  lemma SectionOverflow(tag: string, xs: seq<Item>, maxItems: int)
    requires xs != [] && !PlainLine(tag)
    ensures OverflowLine(|xs| - maxItems) in SectionLines(tag, xs, maxItems) <==> |xs| > maxItems
  {
    var shown := PyTake(xs, maxItems);
    var body := EntriesLines(shown);
    EntriesAreEntryLines(shown);
    var o := OverflowLine(|xs| - maxItems);
    var over := if |xs| > maxItems then [o] else [];
    SectionParts(tag, xs, maxItems);
    InParts(o, [tag], body, over, [""]);
    forall l | l in body
      ensures l != o
    {
      assert EntryLine(l);
    }
  }

  /** A tag is absent from lines that hold only another tag and plain lines. */
  lemma TagNotIn(t: string, ls: seq<string>, own: string)
    requires !PlainLine(t) && t != own
    requires forall l :: l in ls ==> l == own || PlainLine(l)
    ensures t !in ls
  {
  }

  lemma TagsDiffer()
    ensures !PlainLine(RedTag) && !PlainLine(WatchTag) && !PlainLine(GreenTag)
    ensures RedTag != WatchTag && RedTag != GreenTag && WatchTag != GreenTag
  {
    assert RedTag[0] != WatchTag[0] && RedTag[0] != GreenTag[0] && WatchTag[0] != GreenTag[0];
  }

  lemma FramePlain(date: string, items: seq<Item>)
    ensures forall l :: l in HeaderLines(date, items) ==> PlainLine(l)
    ensures forall l :: l in Footer ==> PlainLine(l)
  {
    assert Footer[0][0] == '\U{2014}' && Footer[1][0] == 'R';
  }

  /** A tag is in its own section exactly when the section's partition has items. */
  lemma OwnTag(tag: string, xs: seq<Item>, maxItems: int)
    ensures tag in SectionLines(tag, xs, maxItems) <==> xs != []
  {
    SectionStart(tag, xs, maxItems);
  }

  /**
   * A section is in the digest exactly when its partition has items, and GREEN only when
   * it is enabled.
   */
  lemma SectionPresence(date: string, items: seq<Item>, maxItems: int, includeGreen: bool)
    ensures RedTag in DigestLines(date, items, maxItems, includeGreen) <==> WithLabel(items, "RED") != []
    ensures WatchTag in DigestLines(date, items, maxItems, includeGreen) <==> WithLabel(items, "WATCH") != []
    ensures GreenTag in DigestLines(date, items, maxItems, includeGreen) <==>
              includeGreen && WithLabel(items, "GREEN") != []
  {
    var h := HeaderLines(date, items);
    var red, watch, green := WithLabel(items, "RED"), WithLabel(items, "WATCH"), WithLabel(items, "GREEN");
    var r := SectionLines(RedTag, red, maxItems);
    var w := SectionLines(WatchTag, watch, maxItems);
    var g := if includeGreen then SectionLines(GreenTag, green, maxItems) else [];
    TagsDiffer();
    FramePlain(date, items);
    SectionOnlyTag(RedTag, red, maxItems);
    SectionOnlyTag(WatchTag, watch, maxItems);
    SectionOnlyTag(GreenTag, green, maxItems);
    OwnTag(RedTag, red, maxItems);
    OwnTag(WatchTag, watch, maxItems);
    OwnTag(GreenTag, green, maxItems);
    TagNotIn(RedTag, h, "");
    TagNotIn(WatchTag, h, "");
    TagNotIn(GreenTag, h, "");
    TagNotIn(RedTag, Footer, "");
    TagNotIn(WatchTag, Footer, "");
    TagNotIn(GreenTag, Footer, "");
    TagNotIn(RedTag, w, WatchTag);
    TagNotIn(GreenTag, w, WatchTag);
    TagNotIn(WatchTag, r, RedTag);
    TagNotIn(GreenTag, r, RedTag);
    if includeGreen {
      TagNotIn(RedTag, g, GreenTag);
      TagNotIn(WatchTag, g, GreenTag);
    }
    assert DigestLines(date, items, maxItems, includeGreen) == h + r + w + g + Footer;
    OnlyInOne(RedTag, h, r, w, g, Footer, 0);
    OnlyInOne(WatchTag, h, r, w, g, Footer, 1);
    OnlyInOne(GreenTag, h, r, w, g, Footer, 2);
  }

  /** The header's three label counts never add up to more than the item count. */
  lemma HeaderCounts(items: seq<Item>)
    ensures |WithLabel(items, "RED")| + |WithLabel(items, "WATCH")| + |WithLabel(items, "GREEN")| <= |items|
  {
    PartitionCount(items);
  }

  /** The message never exceeds 3800 characters plus the marker, and it always starts like the full text. */
  lemma TruncateBound(msg: string)
    ensures |Truncate(msg)| <= MaxLength + |TruncationMarker|
    ensures Truncate(msg)[..Min(|msg|, MaxLength)] == msg[..Min(|msg|, MaxLength)]
  {
  }
}
