/**
 * Keyword and context-rule scoring of one feed entry, and the three-way label
 * (radar/score.py).
 */
module Score {
  import opened Wrappers
  import opened Text

  /** A keyword rule as configured: `term` and `weight` may be missing. */
  datatype KeywordRule = KeywordRule(term: Option<string>, weight: Option<int>)

  /** A context rule as configured: every field may be missing. */
  datatype ContextRule = ContextRule(
    name: Option<string>,
    patterns: Option<seq<string>>,
    weight: Option<int>,
    matchMode: Option<string>)

  /** Evidence for one keyword: its stripped term, its weight and how often it occurred. */
  datatype KeywordMatch = KeywordMatch(term: string, weight: int, count: nat)

  /** Evidence for one fired context rule: its name and what it added to the score. */
  datatype RuleMatch = RuleMatch(name: string, added: int)

  datatype ScoreResult = ScoreResult(
    score: int,
    matchedKeywords: seq<KeywordMatch>,
    matchedRules: seq<RuleMatch>)

  datatype Label = Red | Watch | Green

  /** What one keyword that occurs yields: its (capped) contribution and its evidence. */
  datatype KeywordHit = KeywordHit(part: int, evidence: KeywordMatch)

  /** The state of an accumulation loop: the running total and the evidence so far. */
  datatype Tally<M> = Tally(total: int, evidence: seq<M>)

  // ---------------------------------------------------------------------------
  // Keywords

  /** Case-insensitive, non-overlapping count of `term` in `text`; 0 when either is empty. */
  function CountOccurrences(text: string, term: string): nat {
    if text == "" || term == "" then 0 else CountFrom(LowerStr(text), LowerStr(term))
  }

  predicate IsAggressive(mode: string) {
    LowerStr(mode) == "aggressive"
  }

  function KeywordTerm(kw: KeywordRule): string {
    Strip(kw.term.GetOr(""))
  }

  function KeywordWeight(kw: KeywordRule): int {
    kw.weight.GetOr(1)
  }

  /** The most one keyword may contribute. */
  function Cap(w: int, aggressive: bool): int {
    w * 12 + (if aggressive then 3 else 0)
  }

  /** A keyword's contribution before the cap; aggressive mode triples title hits and adds a title bonus. */
  function RawPart(cTitle: nat, cOther: nat, w: int, aggressive: bool): int {
    if aggressive then cTitle * w * 3 + cOther * w + (if cTitle > 0 then 2 else 0)
    else (cTitle + cOther) * w
  }

  /** A keyword's contribution: the raw part, but never more than the cap. */
  function Part(cTitle: nat, cOther: nat, w: int, aggressive: bool): (r: int)
    ensures r <= Cap(w, aggressive)
    ensures r <= RawPart(cTitle, cOther, w, aggressive)
    ensures r == RawPart(cTitle, cOther, w, aggressive) || r == Cap(w, aggressive)
  {
    Min(RawPart(cTitle, cOther, w, aggressive), Cap(w, aggressive))
  }

  /**
   * What one keyword rule yields: None when its stripped term is empty or occurs
   * nowhere; otherwise its contribution and its evidence.
   */
  function KeywordEval(kw: KeywordRule, title: string, other: string, aggressive: bool): Option<KeywordHit> {
    var term := KeywordTerm(kw);
    if term == "" then None
    else
      var cTitle := CountOccurrences(title, term);
      var cOther := CountOccurrences(other, term);
      if cTitle + cOther <= 0 then None
      else
        var w := KeywordWeight(kw);
        Some(KeywordHit(Part(cTitle, cOther, w, aggressive), KeywordMatch(term, w, cTitle + cOther)))
  }

  /** The keyword loop: the summed contributions and the evidence list, in rule order. */
  function KeywordScan(kws: seq<KeywordRule>, title: string, other: string, aggressive: bool): Tally<KeywordMatch>
    decreases |kws|
  {
    if kws == [] then Tally(0, [])
    else
      var prev := KeywordScan(kws[..|kws| - 1], title, other, aggressive);
      var e := KeywordEval(kws[|kws| - 1], title, other, aggressive);
      if e.None? then prev
      else Tally(prev.total + e.value.part, prev.evidence + [e.value.evidence])
  }

  // ---------------------------------------------------------------------------
  // Context rules

  function RuleName(rule: ContextRule): string {
    Strip(rule.name.GetOr("rule"))
  }

  /** `rule.get("patterns", []) or []`. */
  function RulePatterns(rule: ContextRule): seq<string> {
    rule.patterns.GetOr([])
  }

  function RuleWeight(rule: ContextRule): int {
    rule.weight.GetOr(1)
  }

  /** The match mode, lowered but not stripped. */
  function RuleMatchMode(rule: ContextRule): string {
    LowerStr(rule.matchMode.GetOr("any"))
  }

  /** A pattern hits when it is non-empty after stripping and occurs in the lowered blob. */
  predicate PatternHit(p: string, lowerBlob: string) {
    var q := Strip(p);
    q != "" && Contains(lowerBlob, LowerStr(q))
  }

  function PatternHits(ps: seq<string>, lowerBlob: string): (n: nat)
    ensures n <= |ps|
    decreases |ps|
  {
    if ps == [] then 0
    else PatternHits(ps[..|ps| - 1], lowerBlob) + (if PatternHit(ps[|ps| - 1], lowerBlob) then 1 else 0)
  }

  /** "any" needs one hit; every other mode needs every pattern to hit, and at least one pattern. */
  predicate RuleFires(rule: ContextRule, blob: string) {
    var ps := RulePatterns(rule);
    var hits := PatternHits(ps, LowerStr(blob));
    if RuleMatchMode(rule) == "any" then hits > 0 else hits == |ps| && |ps| > 0
  }

  /** What a fired rule adds: twice its weight in aggressive mode. */
  function RuleAdd(rule: ContextRule, aggressive: bool): int {
    RuleWeight(rule) * (if aggressive then 2 else 1)
  }

  /** The context-rule loop: the summed additions and the fired rules, in rule order. */
  function RuleScan(rules: seq<ContextRule>, blob: string, aggressive: bool): Tally<RuleMatch>
    decreases |rules|
  {
    if rules == [] then Tally(0, [])
    else
      var prev := RuleScan(rules[..|rules| - 1], blob, aggressive);
      var rule := rules[|rules| - 1];
      if RuleFires(rule, blob) then
        var add := RuleAdd(rule, aggressive);
        Tally(prev.total + add, prev.evidence + [RuleMatch(RuleName(rule), add)])
      else prev
  }

  // ---------------------------------------------------------------------------
  // The scorer

  /** Title, summary and body on separate lines, stripped: what context patterns are searched in. */
  function Blob(title: string, summary: string, body: string): string {
    Strip(title + "\n" + summary + "\n" + body)
  }

  /** Keywords are counted in the title and, separately, in summary and body. */
  function Other(summary: string, body: string): string {
    summary + "\n" + body
  }

  /** The score of an entry: capped keyword parts plus the additions of the fired rules. */
  function Score(title: string, summary: string, body: string,
                 keywords: seq<KeywordRule>, rules: seq<ContextRule>, mode: string): ScoreResult
  {
    var aggressive := IsAggressive(mode);
    var k := KeywordScan(keywords, title, Other(summary, body), aggressive);
    var r := RuleScan(rules, Blob(title, summary, body), aggressive);
    ScoreResult(k.total + r.total, k.evidence, r.evidence)
  }

  /** The inner loop of `score_item`: how many patterns, stripped and non-empty, occur in the blob. */
  method CountHits(patterns: seq<string>, blob: string) returns (hits: nat)
    ensures hits == PatternHits(patterns, LowerStr(blob))
  {
    hits := 0;
    for j := 0 to |patterns|
      invariant hits == PatternHits(patterns[..j], LowerStr(blob))
    {
      assert patterns[..j + 1][..j] == patterns[..j];
      var p := Strip(patterns[j]);
      if p != "" && Contains(LowerStr(blob), LowerStr(p)) {
        hits := hits + 1;
      }
    }
    assert patterns[..|patterns|] == patterns;
  }

  lemma KeywordScanSnoc(kws: seq<KeywordRule>, i: nat, title: string, other: string, aggressive: bool)
    requires i < |kws|
    ensures var prev := KeywordScan(kws[..i], title, other, aggressive);
            var e := KeywordEval(kws[i], title, other, aggressive);
            KeywordScan(kws[..i + 1], title, other, aggressive) ==
              if e.None? then prev else Tally(prev.total + e.value.part, prev.evidence + [e.value.evidence])
  {
    assert kws[..i + 1][..i] == kws[..i];
  }

  lemma RuleScanSnoc(rules: seq<ContextRule>, i: nat, blob: string, aggressive: bool)
    requires i < |rules|
    ensures var prev := RuleScan(rules[..i], blob, aggressive);
            RuleScan(rules[..i + 1], blob, aggressive) ==
              if RuleFires(rules[i], blob)
              then Tally(prev.total + RuleAdd(rules[i], aggressive), prev.evidence + [RuleMatch(RuleName(rules[i]), RuleAdd(rules[i], aggressive))])
              else prev
  {
    assert rules[..i + 1][..i] == rules[..i];
  }

  /** One keyword's contribution, computed as in `score_item`, capped. */
  method KeywordPart(cTitle: nat, cOther: nat, w: int, aggressive: bool) returns (part: int)
    ensures part == Part(cTitle, cOther, w, aggressive)
  {
    if aggressive {
      part := cTitle * w * 3 + cOther * w;
      if cTitle > 0 {
        part := part + 2;
      }
    } else {
      part := (cTitle + cOther) * w;
    }
    part := Min(part, w * 12 + (if aggressive then 3 else 0));
  }

  /** One context rule, evaluated as in the body of the rule loop of `score_item`. */
  method EvalRule(rule: ContextRule, blob: string, aggressive: bool) returns (ok: bool, name: string, add: int)
    ensures ok == RuleFires(rule, blob) && name == RuleName(rule) && add == RuleAdd(rule, aggressive)
  {
    name := Strip(rule.name.GetOr("rule"));
    var patterns := rule.patterns.GetOr([]);
    var w := rule.weight.GetOr(1);
    var matchMode := LowerStr(rule.matchMode.GetOr("any"));
    var hits := CountHits(patterns, blob);
    ok := if matchMode == "any" then hits > 0 else hits == |patterns| && |patterns| > 0;
    add := w * (if aggressive then 2 else 1);
  }

  /** The keyword loop of `score_item`: the capped parts summed, the evidence in rule order. */
  method ScanKeywords(keywords: seq<KeywordRule>, title: string, other: string, aggressive: bool)
    returns (total: int, mk: seq<KeywordMatch>)
    ensures Tally(total, mk) == KeywordScan(keywords, title, other, aggressive)
  {
    total := 0;
    mk := [];
    for i := 0 to |keywords|
      invariant Tally(total, mk) == KeywordScan(keywords[..i], title, other, aggressive)
    {
      KeywordScanSnoc(keywords, i, title, other, aggressive);
      var kw := keywords[i];
      var term := Strip(kw.term.GetOr(""));
      if term == "" {
        continue;
      }
      var w := kw.weight.GetOr(1);
      var cTitle := CountOccurrences(title, term);
      var cOther := CountOccurrences(other, term);
      var c := cTitle + cOther;
      if c <= 0 {
        continue;
      }
      var part := KeywordPart(cTitle, cOther, w, aggressive);
      total := total + part;
      mk := mk + [KeywordMatch(term, w, c)];
    }
    assert keywords[..|keywords|] == keywords;
  }

  /** The context-rule loop of `score_item`: what the fired rules add, and their evidence in order. */
  method ScanRules(contextRules: seq<ContextRule>, blob: string, aggressive: bool)
    returns (total: int, mr: seq<RuleMatch>)
    ensures Tally(total, mr) == RuleScan(contextRules, blob, aggressive)
  {
    total := 0;
    mr := [];
    for i := 0 to |contextRules|
      invariant Tally(total, mr) == RuleScan(contextRules[..i], blob, aggressive)
    {
      RuleScanSnoc(contextRules, i, blob, aggressive);
      var rule := contextRules[i];
      var ok, name, add := EvalRule(rule, blob, aggressive);
      if ok {
        total := total + add;
        mr := mr + [RuleMatch(name, add)];
      }
    }
    assert contextRules[..|contextRules|] == contextRules;
  }

  /** `score_item`: the keyword loop, then the context-rule loop, adding to one total. */
  method ScoreItem(title: string, summary: string, body: string,
                   keywords: seq<KeywordRule>, contextRules: seq<ContextRule>, mode: string)
    returns (r: ScoreResult)
    ensures r == Score(title, summary, body, keywords, contextRules, mode)
  {
    var blob := Strip(title + "\n" + summary + "\n" + body);
    var aggressive := LowerStr(mode) == "aggressive";
    var keywordTotal, mk := ScanKeywords(keywords, title, summary + "\n" + body, aggressive);
    var ruleTotal, mr := ScanRules(contextRules, blob, aggressive);
    r := ScoreResult(keywordTotal + ruleTotal, mk, mr);
  }

  // ---------------------------------------------------------------------------
  // The classifier

  /** RED from the red threshold up, WATCH from the watch threshold up, GREEN below both. */
  function Classify(score: int, watchThreshold: int, redThreshold: int): (l: Label)
    ensures l == Red <==> score >= redThreshold
    ensures l == Watch <==> watchThreshold <= score < redThreshold
    ensures l == Green <==> score < watchThreshold && score < redThreshold
  {
    if score >= redThreshold then Red
    else if score >= watchThreshold then Watch
    else Green
  }

  /** Severity rank: RED 0, WATCH 1, GREEN 2. */
  function Severity(l: Label): nat {
    match l
    case Red => 0
    case Watch => 1
    case Green => 2
  }

  /** With watch <= red, a higher score never gives a less severe label. */
  lemma ClassifyMonotone(s1: int, s2: int, watchThreshold: int, redThreshold: int)
    requires watchThreshold <= redThreshold && s1 <= s2
    ensures Severity(Classify(s2, watchThreshold, redThreshold)) <= Severity(Classify(s1, watchThreshold, redThreshold))
  {
  }

  // ---------------------------------------------------------------------------
  // Lemmas: keywords

  /** The count is positive exactly when both strings are non-empty and the lowered text contains the lowered term. */
  lemma CountOccurrencesMeaning(text: string, term: string)
    ensures CountOccurrences(text, term) > 0 <==>
              text != "" && term != "" && Contains(LowerStr(text), LowerStr(term))
    ensures CountOccurrences(text, term) * |term| <= |text|
  {
    if text != "" && term != "" {
      CountPositiveIffContains(LowerStr(text), LowerStr(term));
      CountBound(LowerStr(text), LowerStr(term));
    }
  }

  /** With a non-negative weight, aggressive mode never gives less than standard mode, and a title hit gives strictly more. */
  lemma AggressiveDominatesStandard(cTitle: nat, cOther: nat, w: int)
    requires w >= 0
    ensures Part(cTitle, cOther, w, true) >= Part(cTitle, cOther, w, false)
    ensures cTitle > 0 ==> Part(cTitle, cOther, w, true) > Part(cTitle, cOther, w, false)
  {
    assert cTitle * w * 3 >= cTitle * w by {
      assert cTitle * w >= 0;
    }
    assert (cTitle + cOther) * w == cTitle * w + cOther * w;
  }

  /** The keyword scan of a concatenation combines the scans of the parts. */
  lemma {:induction false} KeywordScanAppend(a: seq<KeywordRule>, b: seq<KeywordRule>, title: string, other: string, aggressive: bool)
    ensures KeywordScan(a + b, title, other, aggressive) ==
              Tally(KeywordScan(a, title, other, aggressive).total + KeywordScan(b, title, other, aggressive).total,
                    KeywordScan(a, title, other, aggressive).evidence + KeywordScan(b, title, other, aggressive).evidence)
    decreases |b|
  {
    var sa := KeywordScan(a, title, other, aggressive);
    if b == [] {
      assert a + b == a;
      assert sa.evidence + [] == sa.evidence;
    } else {
      var b' := b[..|b| - 1];
      assert (a + b)[..|a + b| - 1] == a + b';
      assert (a + b)[|a + b| - 1] == b[|b| - 1];
      KeywordScanAppend(a, b', title, other, aggressive);
      var sb := KeywordScan(b', title, other, aggressive);
      var e := KeywordEval(b[|b| - 1], title, other, aggressive);
      if e.Some? {
        assert (sa.evidence + sb.evidence) + [e.value.evidence] == sa.evidence + (sb.evidence + [e.value.evidence]);
      }
    }
  }

  /** A skipped keyword rule (empty term, or no occurrence) adds nothing to the total or the evidence. */
  lemma SkippedKeywordAddsNothing(kws: seq<KeywordRule>, i: nat, title: string, other: string, aggressive: bool)
    requires i < |kws|
    requires KeywordEval(kws[i], title, other, aggressive) == None
    ensures KeywordScan(kws, title, other, aggressive) ==
              KeywordScan(kws[..i] + kws[i + 1..], title, other, aggressive)
  {
    var pre, rest := kws[..i], kws[i + 1..];
    
    var single := [kws[i]];
    assert kws == pre + (single + rest);
    assert single[..|single| - 1] == [];
    assert KeywordScan([], title, other, aggressive) == Tally(0, []);
    assert KeywordScan(single, title, other, aggressive) == Tally(0, []);
    KeywordScanAppend(single, rest, title, other, aggressive);
    var r := KeywordScan(rest, title, other, aggressive);
    assert [] + r.evidence == r.evidence;
    assert KeywordScan(single + rest, title, other, aggressive) == r;
    KeywordScanAppend(pre, single + rest, title, other, aggressive);
    KeywordScanAppend(pre, rest, title, other, aggressive);
  }

  /** The evidence list, defined on its own: (term, weight, total count) of every keyword that occurs, in rule order. */
  function Evidence(kws: seq<KeywordRule>, title: string, other: string): seq<KeywordMatch>
    decreases |kws|
  {
    if kws == [] then []
    else
      var term := KeywordTerm(kws[0]);
      var c := CountOccurrences(title, term) + CountOccurrences(other, term);
      (if term != "" && c > 0 then [KeywordMatch(term, KeywordWeight(kws[0]), c)] else [])
        + Evidence(kws[1..], title, other)
  }

  /** Every occurring keyword is recorded, whether or not its contribution was capped, and in either mode. */
  lemma {:induction false} KeywordEvidenceIsUncapped(kws: seq<KeywordRule>, title: string, other: string, aggressive: bool)
    ensures KeywordScan(kws, title, other, aggressive).evidence == Evidence(kws, title, other)
    decreases |kws|
  {
    if kws != [] {
      assert kws == [kws[0]] + kws[1..];
      KeywordScanAppend([kws[0]], kws[1..], title, other, aggressive);
      KeywordEvidenceIsUncapped(kws[1..], title, other, aggressive);
      assert [kws[0]][..0] == [];
    }
  }

  /** A keyword with a non-negative weight never lowers the score; one with a positive weight that occurs raises it. */
  lemma PartSign(cTitle: nat, cOther: nat, w: int, aggressive: bool)
    requires w >= 0
    ensures Part(cTitle, cOther, w, aggressive) >= 0
    ensures w > 0 && cTitle + cOther > 0 ==> Part(cTitle, cOther, w, aggressive) > 0
  {
    assert cTitle * w >= 0 && cOther * w >= 0;
    assert (cTitle + cOther) * w == cTitle * w + cOther * w;
    if w > 0 {
      assert cTitle > 0 ==> cTitle * w > 0;
      assert cOther > 0 ==> cOther * w > 0;
    }
  }

  /** With non-negative weights the keyword total is non-negative. */
  lemma {:induction false} KeywordScanNonNegative(kws: seq<KeywordRule>, title: string, other: string, aggressive: bool)
    requires forall i :: 0 <= i < |kws| ==> KeywordWeight(kws[i]) >= 0
    ensures KeywordScan(kws, title, other, aggressive).total >= 0
    decreases |kws|
  {
    if kws != [] {
      KeywordScanNonNegative(kws[..|kws| - 1], title, other, aggressive);
      var kw := kws[|kws| - 1];
      var term := KeywordTerm(kw);
      PartSign(CountOccurrences(title, term), CountOccurrences(other, term), KeywordWeight(kw), aggressive);
    }
  }

  /** With positive weights the keyword total is zero exactly when no keyword is recorded. */
  lemma {:induction false} KeywordScanZeroIff(kws: seq<KeywordRule>, title: string, other: string, aggressive: bool)
    requires forall i :: 0 <= i < |kws| ==> KeywordWeight(kws[i]) > 0
    ensures KeywordScan(kws, title, other, aggressive).total >= 0
    ensures KeywordScan(kws, title, other, aggressive).total == 0 <==> KeywordScan(kws, title, other, aggressive).evidence == []
    decreases |kws|
  {
    if kws != [] {
      KeywordScanZeroIff(kws[..|kws| - 1], title, other, aggressive);
      var kw := kws[|kws| - 1];
      var term := KeywordTerm(kw);
      PartSign(CountOccurrences(title, term), CountOccurrences(other, term), KeywordWeight(kw), aggressive);
    }
  }

  // ---------------------------------------------------------------------------
  // Lemmas: context rules

  lemma {:induction false} PatternHitsPositiveIff(ps: seq<string>, lowerBlob: string)
    ensures PatternHits(ps, lowerBlob) > 0 <==> exists i :: 0 <= i < |ps| && PatternHit(ps[i], lowerBlob)
    decreases |ps|
  {
    if ps != [] {
      var init := ps[..|ps| - 1];
      PatternHitsPositiveIff(init, lowerBlob);
      if PatternHits(ps, lowerBlob) > 0 && !PatternHit(ps[|ps| - 1], lowerBlob) {
        var i :| 0 <= i < |init| && PatternHit(init[i], lowerBlob);
        assert ps[i] == init[i];
      }
      if exists i :: 0 <= i < |ps| && PatternHit(ps[i], lowerBlob) {
        var i :| 0 <= i < |ps| && PatternHit(ps[i], lowerBlob);
        if i < |init| { assert init[i] == ps[i]; }
      }
    }
  }

  lemma {:induction false} PatternHitsAllIff(ps: seq<string>, lowerBlob: string)
    ensures PatternHits(ps, lowerBlob) == |ps| <==> forall i :: 0 <= i < |ps| ==> PatternHit(ps[i], lowerBlob)
    decreases |ps|
  {
    if ps != [] {
      var init := ps[..|ps| - 1];
      PatternHitsAllIff(init, lowerBlob);
      if forall i :: 0 <= i < |ps| ==> PatternHit(ps[i], lowerBlob) {
        forall i | 0 <= i < |init| ensures PatternHit(init[i], lowerBlob) {
          assert init[i] == ps[i];
        }
      }
      if PatternHits(ps, lowerBlob) == |ps| {
        forall i | 0 <= i < |ps| ensures PatternHit(ps[i], lowerBlob) {
          if i < |init| { assert init[i] == ps[i]; }
        }
      }
    }
  }

  /**
   * An "any" rule fires when some non-empty stripped pattern occurs (case-insensitively)
   * in the blob; a rule of any other mode fires when it has patterns and every one of them occurs.
   */
  lemma RuleFiresIff(rule: ContextRule, blob: string)
    ensures RuleMatchMode(rule) == "any" ==>
              (RuleFires(rule, blob) <==>
                 exists i :: 0 <= i < |RulePatterns(rule)| && PatternHit(RulePatterns(rule)[i], LowerStr(blob)))
    ensures RuleMatchMode(rule) != "any" ==>
              (RuleFires(rule, blob) <==>
                 |RulePatterns(rule)| > 0 &&
                 forall i :: 0 <= i < |RulePatterns(rule)| ==> PatternHit(RulePatterns(rule)[i], LowerStr(blob)))
  {
    PatternHitsPositiveIff(RulePatterns(rule), LowerStr(blob));
    PatternHitsAllIff(RulePatterns(rule), LowerStr(blob));
  }

  /** A pattern that is empty after stripping blocks every rule whose mode is not "any". */
  lemma EmptyPatternBlocksAllRule(rule: ContextRule, blob: string, i: nat)
    requires RuleMatchMode(rule) != "any"
    requires i < |RulePatterns(rule)| && Strip(RulePatterns(rule)[i]) == ""
    ensures !RuleFires(rule, blob)
  {
    RuleFiresIff(rule, blob);
  }

  /** The fired rules, defined on their own: name and addition of each rule that fires, in rule order. */
  function FiredRules(rules: seq<ContextRule>, blob: string, aggressive: bool): seq<RuleMatch>
    decreases |rules|
  {
    if rules == [] then []
    else
      (if RuleFires(rules[0], blob) then [RuleMatch(RuleName(rules[0]), RuleAdd(rules[0], aggressive))] else [])
        + FiredRules(rules[1..], blob, aggressive)
  }

  function SumAdded(ms: seq<RuleMatch>): int
    decreases |ms|
  {
    if ms == [] then 0 else ms[0].added + SumAdded(ms[1..])
  }

  lemma {:induction false} SumAddedAppend(a: seq<RuleMatch>, b: seq<RuleMatch>)
    ensures SumAdded(a + b) == SumAdded(a) + SumAdded(b)
    decreases |a|
  {
    if a == [] {
      assert a + b == b;
    } else {
      assert (a + b)[0] == a[0];
      assert (a + b)[1..] == a[1..] + b;
      SumAddedAppend(a[1..], b);
    }
  }

  lemma {:induction false} FiredRulesAppend(a: seq<ContextRule>, b: seq<ContextRule>, blob: string, aggressive: bool)
    ensures FiredRules(a + b, blob, aggressive) == FiredRules(a, blob, aggressive) + FiredRules(b, blob, aggressive)
    decreases |a|
  {
    if a == [] {
      assert a + b == b;
    } else {
      assert (a + b)[0] == a[0];
      assert (a + b)[1..] == a[1..] + b;
      FiredRulesAppend(a[1..], b, blob, aggressive);
    }
  }

  /**
   * The rule scan records exactly the fired rules, each with w*2 (aggressive) or w (standard),
   * and its total is the sum of what it records.
   */
  lemma {:induction false} RuleScanRecordsAdditions(rules: seq<ContextRule>, blob: string, aggressive: bool)
    ensures RuleScan(rules, blob, aggressive).evidence == FiredRules(rules, blob, aggressive)
    ensures RuleScan(rules, blob, aggressive).total == SumAdded(RuleScan(rules, blob, aggressive).evidence)
    decreases |rules|
  {
    if rules != [] {
      var init := rules[..|rules| - 1];
      var last := rules[|rules| - 1];
      RuleScanRecordsAdditions(init, blob, aggressive);
      assert rules == init + [last];
      FiredRulesAppend(init, [last], blob, aggressive);
      assert [last][1..] == [];
      var prev := RuleScan(init, blob, aggressive);
      if RuleFires(last, blob) {
        var m := RuleMatch(RuleName(last), RuleAdd(last, aggressive));
        SumAddedAppend(prev.evidence, [m]);
        assert SumAdded([m]) == m.added;
      }
    }
  }

  lemma {:induction false} RuleScanNonNegative(rules: seq<ContextRule>, blob: string, aggressive: bool)
    requires forall i :: 0 <= i < |rules| ==> RuleWeight(rules[i]) >= 0
    ensures RuleScan(rules, blob, aggressive).total >= 0
    decreases |rules|
  {
    if rules != [] {
      RuleScanNonNegative(rules[..|rules| - 1], blob, aggressive);
    }
  }

  lemma {:induction false} RuleScanZeroIff(rules: seq<ContextRule>, blob: string, aggressive: bool)
    requires forall i :: 0 <= i < |rules| ==> RuleWeight(rules[i]) > 0
    ensures RuleScan(rules, blob, aggressive).total >= 0
    ensures RuleScan(rules, blob, aggressive).total == 0 <==> RuleScan(rules, blob, aggressive).evidence == []
    decreases |rules|
  {
    if rules != [] {
      RuleScanZeroIff(rules[..|rules| - 1], blob, aggressive);
    }
  }

  // ---------------------------------------------------------------------------
  // Lemmas: the whole score

  /** With non-negative weights throughout, the score is non-negative. */
  lemma ScoreNonNegative(title: string, summary: string, body: string,
                         keywords: seq<KeywordRule>, rules: seq<ContextRule>, mode: string)
    requires forall i :: 0 <= i < |keywords| ==> KeywordWeight(keywords[i]) >= 0
    requires forall i :: 0 <= i < |rules| ==> RuleWeight(rules[i]) >= 0
    ensures Score(title, summary, body, keywords, rules, mode).score >= 0
  {
    KeywordScanNonNegative(keywords, title, Other(summary, body), IsAggressive(mode));
    RuleScanNonNegative(rules, Blob(title, summary, body), IsAggressive(mode));
  }

  /** With positive weights throughout, the score is 0 exactly when no keyword and no rule contributed. */
  lemma ScoreZeroIffNoEvidence(title: string, summary: string, body: string,
                               keywords: seq<KeywordRule>, rules: seq<ContextRule>, mode: string)
    requires forall i :: 0 <= i < |keywords| ==> KeywordWeight(keywords[i]) > 0
    requires forall i :: 0 <= i < |rules| ==> RuleWeight(rules[i]) > 0
    ensures var r := Score(title, summary, body, keywords, rules, mode);
            r.score == 0 <==> r.matchedKeywords == [] && r.matchedRules == []
  {
    KeywordScanZeroIff(keywords, title, Other(summary, body), IsAggressive(mode));
    RuleScanZeroIff(rules, Blob(title, summary, body), IsAggressive(mode));
  }
}
