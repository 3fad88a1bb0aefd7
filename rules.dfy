/**
 * How `score_item` reads a source's raw keyword and context-rule entries
 * (radar/score.py, lines 35-39 and 59-67). The configuration keeps them as loaded; each
 * scoring reads them again, and a reading that raises makes that scoring fail.
 */
module Rules {
  import opened Wrappers
  import opened Text
  import opened Values
  import opened Score

  /** Converts every element, or fails at the first that does not convert. */
  function AllOf<T, U>(f: T -> Option<U>, xs: seq<T>): (r: Option<seq<U>>)
    ensures r.Some? <==> forall i :: 0 <= i < |xs| ==> f(xs[i]).Some?
    ensures r.Some? ==> |r.value| == |xs| && forall i :: 0 <= i < |xs| ==> f(xs[i]) == Some(r.value[i])
    decreases |xs|
  {
    if xs == [] then Some([])
    else
      var init :- AllOf(f, xs[..|xs| - 1]);
      var last :- f(xs[|xs| - 1]);
      Some(init + [last])
  }

  /** An optional field converted by `conv`: Some(None) when absent, None when converting it raises. */
  function Field<T>(d: Json, k: string, conv: Json -> Option<T>): Option<Option<T>> {
    if !d.JObj? || k !in d.fields then Some(None)
    else
      match conv(d.fields[k])
      case Some(v) => Some(Some(v))
      case None => None
  }

  /**
   * One keyword entry: it must be a mapping; `str(term)` always runs, `int(weight)` only
   * once the stripped term is non-empty.
   */
  function KeywordRuleOf(kw: Json): Option<KeywordRule> {
    if !kw.JObj? then None
    else
      var term :- Field(kw, "term", StrOf);
      if Strip(term.GetOr("")) == "" then Some(KeywordRule(term, None))
      else
        var weight :- Field(kw, "weight", IntOf);
        Some(KeywordRule(term, weight))
  }

  /**
   * `rule.get("patterns", []) or []`, iterated with `str(p)` on each element. A non-empty
   * mapping, which Python would iterate by its keys, reads as a failed conversion.
   */
  function PatternsOf(v: Json): Option<seq<string>> {
    if !Truthy(v) then Some([])
    else
      match v
      case JList(es) => AllOf(StrOf, es)
      case JStr(s) => Some(seq(|s|, i requires 0 <= i < |s| => [s[i]]))
      case _ => None
  }

  /** One context-rule entry: a mapping whose name, patterns, weight and match mode all convert. */
  function ContextRuleOf(rule: Json): Option<ContextRule> {
    if !rule.JObj? then None
    else
      var name :- Field(rule, "name", StrOf);
      var patterns :- PatternsOf(Get(rule, "patterns", JList([])));
      var weight :- Field(rule, "weight", IntOf);
      var mode :- Field(rule, "match", StrOf);
      Some(ContextRule(name, Some(patterns), weight, mode))
  }

  /** The typed rules of a source, or None when scoring its entries raises. */
  function SourceRules(keywords: seq<Json>, rules: seq<Json>): Option<(seq<KeywordRule>, seq<ContextRule>)> {
    var ks :- AllOf(KeywordRuleOf, keywords);
    var rs :- AllOf(ContextRuleOf, rules);
    Some((ks, rs))
  }

  // ---------------------------------------------------------------------------
  // Lemmas

  /** A source's rules read exactly when every keyword entry and every context-rule entry does. */
  lemma SourceRulesIff(keywords: seq<Json>, rules: seq<Json>)
    ensures SourceRules(keywords, rules).Some? <==>
              (forall i :: 0 <= i < |keywords| ==> KeywordRuleOf(keywords[i]).Some?) &&
              (forall i :: 0 <= i < |rules| ==> ContextRuleOf(rules[i]).Some?)
    ensures SourceRules(keywords, rules).Some? ==>
              |SourceRules(keywords, rules).value.0| == |keywords| &&
              |SourceRules(keywords, rules).value.1| == |rules|
  {
  }

  /** A keyword without a term reads whatever its weight is, and then counts nothing. */
  lemma TermlessKeyword(kw: Json, title: string, other: string, aggressive: bool)
    requires kw.JObj? && "term" !in kw.fields
    ensures KeywordRuleOf(kw) == Some(KeywordRule(None, None))
    ensures KeywordEval(KeywordRuleOf(kw).value, title, other, aggressive) == None
  {
    StripFacts("");
  }

  /** A keyword with a non-empty string term and an integer weight reads as them. */
  lemma TypedKeyword(kw: Json, t: string, w: int)
    requires kw.JObj? && "term" in kw.fields && "weight" in kw.fields
    requires kw.fields["term"] == JStr(t) && kw.fields["weight"] == JInt(w) && Strip(t) != ""
    ensures KeywordRuleOf(kw) == Some(KeywordRule(Some(t), Some(w)))
    ensures KeywordTerm(KeywordRuleOf(kw).value) == Strip(t) && KeywordWeight(KeywordRuleOf(kw).value) == w
  {
  }

  /** A weight that `int()` rejects fails the reading once the term is non-empty. */
  lemma BadWeight(kw: Json, t: string)
    requires kw.JObj? && "term" in kw.fields && "weight" in kw.fields
    requires kw.fields["term"] == JStr(t) && Strip(t) != "" && IntOf(kw.fields["weight"]) == None
    ensures KeywordRuleOf(kw) == None
  {
  }

  /** A rule whose patterns are missing or falsy never fires, whatever its mode. */
  lemma RuleWithoutPatterns(rule: Json, blob: string)
    requires ContextRuleOf(rule).Some?
    requires !Truthy(Get(rule, "patterns", JList([])))
    ensures RulePatterns(ContextRuleOf(rule).value) == []
    ensures !RuleFires(ContextRuleOf(rule).value, blob)
  {
  }

  /** A non-empty string given as the patterns is iterated: each character is a pattern. */
  lemma StringPatterns(s: string)
    requires s != ""
    ensures PatternsOf(JStr(s)).Some?
    ensures |PatternsOf(JStr(s)).value| == |s|
    ensures forall i :: 0 <= i < |s| ==> PatternsOf(JStr(s)).value[i] == [s[i]]
  {
  }
}
