/**
 * Text clean-up after article extraction, and the lead-paragraph excerpt
 * (radar/extract.py). The extraction library is not modelled: its output is the
 * `Option<string>` that `CleanText` receives.
 */
module Extract {
  import opened Wrappers
  import opened Text

  // ---------------------------------------------------------------------------
  // Cleaning extracted text

  /** The stripped form of every line that is not blank, in order. */
  function CleanLines(ls: seq<string>): seq<string>
    decreases |ls|
  {
    if ls == [] then []
    else
      var line := Strip(ls[|ls| - 1]);
      CleanLines(ls[..|ls| - 1]) + (if line != "" then [line] else [])
  }

  /**
   * The clean-up inside `extract_text_from_html`: None for a missing or empty text;
   * otherwise the stripped non-blank lines joined by "\n", or None when that is blank.
   */
  function CleanText(text: Option<string>): Option<string> {
    if text == None || text.value == "" then None
    else
      var cleaned := Join("\n", CleanLines(SplitLines(text.value)));
      if Strip(cleaned) != "" then Some(cleaned) else None
  }

  // ---------------------------------------------------------------------------
  // Lead paragraphs

  /** The state of the line walk in `lead_paragraphs`: finished chunks and the open block's lines. */
  datatype LineScan = LineScan(chunks: seq<string>, buf: seq<string>)

  /** The line walk: a blank line closes the open block, any other line joins it stripped. */
  function ScanLines(ls: seq<string>): LineScan
    decreases |ls|
  {
    if ls == [] then LineScan([], [])
    else
      var st := ScanLines(ls[..|ls| - 1]);
      var line := Strip(ls[|ls| - 1]);
      if line == "" then
        (if st.buf != [] then LineScan(st.chunks + [Strip(Join(" ", st.buf))], []) else st)
      else LineScan(st.chunks, st.buf + [line])
  }

  /** Closing the last open block after the walk. */
  function Flush(st: LineScan): seq<string> {
    if st.buf != [] then st.chunks + [Strip(Join(" ", st.buf))] else st.chunks
  }

  /** `[c for c in cs if c]`. */
  function NonEmpty(cs: seq<string>): seq<string>
    decreases |cs|
  {
    if cs == [] then [] else (if cs[0] != "" then [cs[0]] else []) + NonEmpty(cs[1..])
  }

  /** All paragraphs of a list of lines, as `lead_paragraphs` computes them. */
  function Paragraphs(ls: seq<string>): seq<string> {
    NonEmpty(Flush(ScanLines(ls)))
  }

  /** What `lead_paragraphs(text, n)` returns. */
  function Lead(text: string, n: int): string {
    if text == "" then "" else Join("\n\n", PyTake(Paragraphs(SplitLines(text)), n))
  }

  /** `lead_paragraphs`: the line walk with its `chunks` and `buf` lists, then the filter and the slice. */
  method LeadParagraphs(text: string, n: int) returns (r: string)
    ensures r == Lead(text, n)
  {
    if text == "" {
      return "";
    }
    var lines := SplitLines(text);
    var chunks: seq<string> := [];
    var buf: seq<string> := [];
    for i := 0 to |lines|
      invariant LineScan(chunks, buf) == ScanLines(lines[..i])
    {
      assert lines[..i + 1][..i] == lines[..i];
      var line := Strip(lines[i]);
      if line == "" {
        if buf != [] {
          chunks := chunks + [Strip(Join(" ", buf))];
          buf := [];
        }
        continue;
      }
      buf := buf + [line];
    }
    assert lines[..|lines|] == lines;
    if buf != [] {
      chunks := chunks + [Strip(Join(" ", buf))];
    }
    chunks := NonEmpty(chunks);
    r := Join("\n\n", PyTake(chunks, n));
  }

  // ---------------------------------------------------------------------------
  // The reference: blocks of lines between blank lines

  /**
   * The blocks of `ls`: a blank line belongs to no block; a non-blank line extends the
   * block of the line before it when that line is non-blank, and starts a new block otherwise.
   * A block holds its lines stripped.
   */
  function Blocks(ls: seq<string>): seq<seq<string>>
    decreases |ls|
  {
    if ls == [] then []
    else
      var init := ls[..|ls| - 1];
      var prev := Blocks(init);
      var l := ls[|ls| - 1];
      if IsBlank(l) then prev
      else if init != [] && !IsBlank(init[|init| - 1]) && prev != [] then
        prev[..|prev| - 1] + [prev[|prev| - 1] + [Strip(l)]]
      else prev + [[Strip(l)]]
  }

  /** Each block's lines joined by single spaces. */
  function JoinBlocks(bs: seq<seq<string>>): seq<string>
    decreases |bs|
  {
    if bs == [] then [] else JoinBlocks(bs[..|bs| - 1]) + [Join(" ", bs[|bs| - 1])]
  }

  /** The blocks laid end to end. */
  function Flatten(bs: seq<seq<string>>): seq<string>
    decreases |bs|
  {
    if bs == [] then [] else Flatten(bs[..|bs| - 1]) + bs[|bs| - 1]
  }

  /** A line as `strip()` leaves a non-blank one: non-empty, no white space at either end. */
  predicate CleanLine(x: string) {
    x != "" && !IsSpace(x[0]) && !IsSpace(x[|x| - 1])
  }

  predicate GoodBlock(b: seq<string>) {
    |b| > 0 && forall k :: 0 <= k < |b| ==> CleanLine(b[k])
  }

  // ---------------------------------------------------------------------------
  // Lemmas

  /** A stripped non-blank line is clean and is its own strip. */
  lemma StrippedIsClean(l: string)
    requires Strip(l) != ""
    ensures CleanLine(Strip(l)) && Strip(Strip(l)) == Strip(l)
  {
    StripFacts(l);
    StripFacts(Strip(l));
  }

  /** Joining clean pieces gives a clean string, whatever the separator. */
  lemma {:induction false} JoinOfClean(sep: string, parts: seq<string>)
    requires |parts| > 0 && forall k :: 0 <= k < |parts| ==> CleanLine(parts[k])
    ensures CleanLine(Join(sep, parts))
    ensures Strip(Join(sep, parts)) == Join(sep, parts)
    decreases |parts|
  {
    if |parts| > 1 {
      JoinOfClean(sep, parts[1..]);
      var rest := Join(sep, parts[1..]);
      var j := parts[0] + sep + rest;
      assert j[0] == parts[0][0];
      assert j[|j| - 1] == rest[|rest| - 1];
    }
    StripFacts(Join(sep, parts));
  }

  /** Every block is non-empty and holds clean lines; with newline-free input its lines are newline-free. */
  lemma {:induction false} BlocksWellFormed(ls: seq<string>)
    ensures forall i :: 0 <= i < |Blocks(ls)| ==> GoodBlock(Blocks(ls)[i])
    ensures (forall k :: 0 <= k < |ls| ==> '\n' !in ls[k]) ==>
              forall i, k :: 0 <= i < |Blocks(ls)| && 0 <= k < |Blocks(ls)[i]| ==> '\n' !in Blocks(ls)[i][k]
    decreases |ls|
  {
    if ls != [] {
      var init := ls[..|ls| - 1];
      var l := ls[|ls| - 1];
      BlocksWellFormed(init);
      var prev := Blocks(init);
      if !IsBlank(l) {
        StrippedIsClean(l);
        StripFacts(l);
        assert forall k :: 0 <= k < |init| ==> init[k] == ls[k];
      }
    }
  }

  /** The walk and the blocks agree: `buf` is the open (last) block, `chunks` the joined closed blocks. */
  lemma {:induction false} ScanMatchesBlocks(ls: seq<string>)
    ensures ScanLines(ls).buf != [] <==> ls != [] && !IsBlank(ls[|ls| - 1])
    ensures ScanLines(ls).buf == [] ==> JoinBlocks(Blocks(ls)) == ScanLines(ls).chunks
    ensures ScanLines(ls).buf != [] ==>
              |Blocks(ls)| > 0 && Blocks(ls)[|Blocks(ls)| - 1] == ScanLines(ls).buf &&
              JoinBlocks(Blocks(ls)[..|Blocks(ls)| - 1]) == ScanLines(ls).chunks
    decreases |ls|
  {
    if ls != [] {
      var init := ls[..|ls| - 1];
      var l := ls[|ls| - 1];
      ScanMatchesBlocks(init);
      BlocksWellFormed(init);
      var st := ScanLines(init);
      var prev := Blocks(init);
      if IsBlank(l) {
        if st.buf != [] {
          var last := prev[|prev| - 1];
          JoinOfClean(" ", last);
          assert prev == prev[..|prev| - 1] + [last];
        }
      } else {
        var b := Blocks(ls);
        if st.buf != [] {
          var ext := prev[|prev| - 1] + [Strip(l)];
          assert b == prev[..|prev| - 1] + [ext];
          assert b[..|b| - 1] == prev[..|prev| - 1];
        } else {
          assert b == prev + [[Strip(l)]];
          assert b[..|b| - 1] == prev;
        }
      }
    }
  }

  lemma {:induction false} NonEmptyKeepsNonEmpty(cs: seq<string>)
    requires forall k :: 0 <= k < |cs| ==> cs[k] != ""
    ensures NonEmpty(cs) == cs
    decreases |cs|
  {
    if cs != [] {
      NonEmptyKeepsNonEmpty(cs[1..]);
      assert [cs[0]] + cs[1..] == cs;
    }
  }

  /** Joined blocks of good blocks are all non-empty, and newline-free when their lines are. */
  lemma {:induction false} JoinBlocksFacts(bs: seq<seq<string>>)
    requires forall i :: 0 <= i < |bs| ==> GoodBlock(bs[i])
    ensures |JoinBlocks(bs)| == |bs|
    ensures forall i :: 0 <= i < |bs| ==> JoinBlocks(bs)[i] == Join(" ", bs[i]) && JoinBlocks(bs)[i] != ""
    ensures (forall i, k :: 0 <= i < |bs| && 0 <= k < |bs[i]| ==> '\n' !in bs[i][k]) ==>
              forall i :: 0 <= i < |bs| ==> '\n' !in JoinBlocks(bs)[i]
    decreases |bs|
  {
    if bs != [] {
      var init := bs[..|bs| - 1];
      var last := bs[|bs| - 1];
      assert forall i :: 0 <= i < |init| ==> init[i] == bs[i];
      JoinBlocksFacts(init);
      JoinOfClean(" ", last);
      if forall i, k :: 0 <= i < |bs| && 0 <= k < |bs[i]| ==> '\n' !in bs[i][k] {
        forall k | 0 <= k < |last| ensures '\n' !in last[k] {
          assert last == bs[|bs| - 1];
        }
        JoinNoNewline(" ", last);
      }
    }
  }

  /** The paragraphs are exactly the blocks with their lines joined by single spaces. */
  lemma ParagraphsAreJoinedBlocks(ls: seq<string>)
    ensures Paragraphs(ls) == JoinBlocks(Blocks(ls))
  {
    ScanMatchesBlocks(ls);
    BlocksWellFormed(ls);
    var st := ScanLines(ls);
    var bs := Blocks(ls);
    if st.buf != [] {
      var last := bs[|bs| - 1];
      JoinOfClean(" ", last);
      assert bs == bs[..|bs| - 1] + [last];
    }
    JoinBlocksFacts(bs);
    NonEmptyKeepsNonEmpty(JoinBlocks(bs));
  }

  /**
   * `lead_paragraphs`: "" for "" and, otherwise, at most n (for n >= 0) paragraphs joined by
   * "\n\n", each non-empty and newline-free, each the space-joined lines of one block, and
   * together a prefix of the text's paragraphs in order.
   */
  lemma LeadShape(text: string, n: int)
    ensures text == "" ==> Lead(text, n) == ""
    ensures text != "" ==>
              var ls := SplitLines(text);
              var ps := PyTake(Paragraphs(ls), n);
              Lead(text, n) == Join("\n\n", ps) &&
              (n >= 0 ==> |ps| <= n) &&
              ps == Paragraphs(ls)[..|ps|] &&
              |Paragraphs(ls)| == |Blocks(ls)| &&
              forall k :: 0 <= k < |ps| ==>
                ps[k] != "" && '\n' !in ps[k] && ps[k] == Join(" ", Blocks(ls)[k])
  {
    if text != "" {
      var ls := SplitLines(text);
      ParagraphsAreJoinedBlocks(ls);
      BlocksWellFormed(ls);
      JoinBlocksFacts(Blocks(ls));
    }
  }

  /** A blank line never opens a block: it adds no paragraph, however many follow each other. */
  lemma BlankLineAddsNoBlock(ls: seq<string>, l: string)
    requires IsBlank(l)
    ensures Blocks(ls + [l]) == Blocks(ls)
  {
    assert (ls + [l])[..|ls|] == ls;
  }

  /** The blocks, laid end to end, are exactly the stripped non-blank lines. */
  lemma {:induction false} FlattenBlocks(ls: seq<string>)
    ensures Flatten(Blocks(ls)) == CleanLines(ls)
    decreases |ls|
  {
    if ls != [] {
      var init := ls[..|ls| - 1];
      var l := ls[|ls| - 1];
      FlattenBlocks(init);
      var prev := Blocks(init);
      if !IsBlank(l) {
        var b := Blocks(ls);
        if init != [] && !IsBlank(init[|init| - 1]) && prev != [] {
          var front := prev[..|prev| - 1];
          var last := prev[|prev| - 1];
          assert prev == front + [last];
          assert b[..|b| - 1] == front;
          assert Flatten(prev) == Flatten(front) + last;
          assert Flatten(b) == Flatten(front) + (last + [Strip(l)]);
          assert Flatten(front) + (last + [Strip(l)]) == (Flatten(front) + last) + [Strip(l)];
        } else {
          assert b[..|b| - 1] == prev;
        }
      }
    }
  }

  /** Lines that are all clean form a single block. */
  lemma {:induction false} CleanLinesFormOneBlock(cl: seq<string>)
    requires |cl| > 0 && forall k :: 0 <= k < |cl| ==> CleanLine(cl[k])
    ensures Blocks(cl) == [cl]
    decreases |cl|
  {
    var init := cl[..|cl| - 1];
    var l := cl[|cl| - 1];
    StripFacts(l);
    assert Strip(l) == l;
    if |cl| > 1 {
      assert forall k :: 0 <= k < |init| ==> init[k] == cl[k];
      CleanLinesFormOneBlock(init);
      var p := init[|init| - 1];
      StripFacts(p);
      assert !IsBlank(p);
      assert init + [l] == cl;
    } else {
      assert !IsBlank(l);
      assert cl == [l];
    }
  }

  /** The cleaned lines are all clean. */
  lemma {:induction false} CleanLinesAreClean(ls: seq<string>)
    ensures forall k :: 0 <= k < |CleanLines(ls)| ==> CleanLine(CleanLines(ls)[k])
    ensures (forall k :: 0 <= k < |ls| ==> '\n' !in ls[k]) ==>
              forall k :: 0 <= k < |CleanLines(ls)| ==> '\n' !in CleanLines(ls)[k]
    ensures CleanLines(ls) == [] <==> forall k :: 0 <= k < |ls| ==> IsBlank(ls[k])
    decreases |ls|
  {
    if ls != [] {
      var init := ls[..|ls| - 1];
      var l := ls[|ls| - 1];
      CleanLinesAreClean(init);
      assert forall k :: 0 <= k < |init| ==> init[k] == ls[k];
      if Strip(l) != "" {
        StrippedIsClean(l);
        StripFacts(l);
      }
    }
  }

  /**
   * Cleaning yields None exactly for a missing text or one whose lines are all blank; otherwise
   * its lines, split again, are the stripped non-blank lines of the input, none of them blank.
   */
  lemma CleanTextFacts(text: Option<string>)
    ensures CleanText(text) == None <==>
              text == None || forall k :: 0 <= k < |SplitLines(text.value)| ==> IsBlank(SplitLines(text.value)[k])
    ensures CleanText(text).Some? ==>
              var c := CleanText(text).value;
              SplitLines(c) == CleanLines(SplitLines(text.value)) &&
              |SplitLines(c)| > 0 &&
              forall k :: 0 <= k < |SplitLines(c)| ==> CleanLine(SplitLines(c)[k])
  {
    if text.Some? {
      var cl := CleanLines(SplitLines(text.value));
      CleanLinesAreClean(SplitLines(text.value));
      if cl != [] {
        JoinOfClean("\n", cl);
        SplitLinesOfJoin(cl);
        assert text.value != "";
        assert CleanText(text) == Some(Join("\n", cl));
        var c := Join("\n", cl);
        assert SplitLines(c) == cl;
        forall k | 0 <= k < |SplitLines(c)| ensures CleanLine(SplitLines(c)[k]) {
          assert SplitLines(c)[k] == cl[k];
        }
        assert CleanText(text) != None;
        assert CleanText(text).value == c;
        assert SplitLines(c) == CleanLines(SplitLines(text.value));
        assert |SplitLines(c)| > 0;
        assert !(forall k :: 0 <= k < |SplitLines(text.value)| ==> IsBlank(SplitLines(text.value)[k]));
      } else {
        assert Strip(Join("\n", cl)) == "";
      }
    }
  }

  /**
   * Cleaned text has no blank line, so for n >= 1 its lead is a single paragraph: all its
   * lines joined by single spaces.
   */
  lemma LeadOfCleanedText(text: Option<string>, n: int)
    requires CleanText(text).Some? && n >= 1
    ensures var c := CleanText(text).value;
            Paragraphs(SplitLines(c)) == [Join(" ", SplitLines(c))] &&
            Lead(c, n) == Join(" ", SplitLines(c))
  {
    var c := CleanText(text).value;
    CleanTextFacts(text);
    var cl := SplitLines(c);
    CleanLinesFormOneBlock(cl);
    ParagraphsAreJoinedBlocks(cl);
    assert [cl][..0] == [];
    assert JoinBlocks([cl]) == [Join(" ", cl)];
  }
}
