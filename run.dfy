/**
 * One run of the monitor (radar/run.py, `main` from line 99 on, and its helpers): the key
 * of an entry, the per-entry policy ladder, the entry loop over the seen store, the sort,
 * and the once-a-day digest gate. Feeds, fetched pages, the clock, the environment and
 * the outcome of sending the digest are inputs.
 */
module Run {
  import opened Wrappers
  import opened Text
  import opened Seqs
  import opened Sorting
  import opened Items
  import opened Score
  import opened Extract
  import opened State
  import opened Config
  import opened Rules
  import Telegram
  import Render

  // ---------------------------------------------------------------------------
  // Inputs

  /** Fetching an entry's page: an error, or what the extractor returned (None when it found nothing). */
  datatype PageFetch = FetchFailed | Fetched(extracted: Option<string>)

  /** A feed entry; every field may be missing. `page` is what fetching its link gives. */
  datatype FeedEntry = FeedEntry(
    id: Option<string>,
    link: Option<string>,
    title: Option<string>,
    summary: Option<string>,
    description: Option<string>,
    published: Option<string>,
    updated: Option<string>,
    page: PageFetch)

  /** Fetching a source's feed: an error, or its entries in feed order. */
  datatype FeedOutcome = FeedFailed | FeedOk(entries: seq<FeedEntry>)

  /** `x or ""` for an optional string. */
  function OrEmpty(o: Option<string>): string {
    o.GetOr("")
  }

  // ---------------------------------------------------------------------------
  // Entry fields

  /** The base string `stable_key` hashes: the source id, "::" and the first non-empty of id, link and title. */
  function KeyBase(sourceId: string, e: FeedEntry): string {
    var guid := OrEmpty(e.id);
    var link := OrEmpty(e.link);
    var title := OrEmpty(e.title);
    Strip(sourceId + "::" + (if guid != "" then guid else if link != "" then link else title))
  }

  function StableKey(sourceId: string, e: FeedEntry): Key {
    Sha1Hex(KeyBase(sourceId, e))
  }

  /** `get_entry_published`: the published date, else the updated date, else "". */
  function EntryPublished(e: FeedEntry): string {
    if OrEmpty(e.published) != "" then e.published.value
    else if OrEmpty(e.updated) != "" then e.updated.value
    else ""
  }

  function EntryTitle(e: FeedEntry): string {
    Strip(OrEmpty(e.title))
  }

  function EntryLink(e: FeedEntry): string {
    Strip(OrEmpty(e.link))
  }

  /** The summary, or the description when the summary is missing or empty, stripped. */
  function EntrySummary(e: FeedEntry): string {
    Strip(if OrEmpty(e.summary) != "" then e.summary.value else OrEmpty(e.description))
  }

  /** `try_fetch_and_extract`: nothing without a link or when the fetch fails; else the cleaned extraction. */
  function ExtractedText(link: string, page: PageFetch): Option<string> {
    if link == "" then None
    else
      match page
      case FetchFailed => None
      case Fetched(raw) => CleanText(raw)
  }

  // ---------------------------------------------------------------------------
  // Match summaries

  /** Keywords rank by weight, then count, both descending. */
  function KeywordKey(m: KeywordMatch): (int, int) {
    (-m.weight, -(m.count as int))
  }

  /** Rules rank by what they added, descending. */
  function RuleKey(m: RuleMatch): (int, int) {
    (-m.added, 0)
  }

  function KeywordText(m: KeywordMatch): string {
    m.term + "*" + IntToString(m.weight) + "(" + NatToString(m.count) + ")"
  }

  function RuleText(m: RuleMatch): string {
    m.name + "(+" + IntToString(m.added) + ")"
  }

  function KeywordTexts(ms: seq<KeywordMatch>): seq<string> {
    seq(|ms|, i requires 0 <= i < |ms| => KeywordText(ms[i]))
  }

  function RuleTexts(ms: seq<RuleMatch>): seq<string> {
    seq(|ms|, i requires 0 <= i < |ms| => RuleText(ms[i]))
  }

  /** The first five of a stably sorted list. */
  function Top<T>(s: seq<T>, key: T -> (int, int)): seq<T> {
    PyTake(SortBy(s, key), 5)
  }

  function CompactParts(mk: seq<KeywordMatch>, mr: seq<RuleMatch>): seq<string> {
    (if mk != [] then ["KW: " + Join(", ", KeywordTexts(Top(mk, KeywordKey)))] else [])
      + (if mr != [] then ["CTX: " + Join(", ", RuleTexts(Top(mr, RuleKey)))] else [])
  }

  /** `compact_matches`: the top keywords and the top rules, joined by " | ". */
  function CompactMatches(mk: seq<KeywordMatch>, mr: seq<RuleMatch>): string {
    Join(" | ", CompactParts(mk, mr))
  }

  // ---------------------------------------------------------------------------
  // The policy ladder

  /** What scoring an entry needs besides its text: the source's rules and the global settings. */
  datatype Scoring = Scoring(
    keywords: seq<KeywordRule>,
    rules: seq<ContextRule>,
    mode: string,
    watch: int,
    red: int)

  /** The score, label, policy used and excerpt that the ladder settles on. */
  datatype Outcome = Outcome(result: ScoreResult, level: Label, policyUsed: string, excerpt: string)

  function NormPolicy(policy: string): string {
    UpperStr(Strip(if policy == "" then "RSS_ONLY" else policy))
  }

  function NormScope(scope: string): string {
    UpperStr(Strip(if scope == "" then "RED" else scope))
  }

  /** `summary[:1200] if summary else ""`. */
  function RssExcerpt(summary: string): string {
    if summary != "" then PyTake(summary, 1200) else ""
  }

  /** `if text:` on what extraction returned. */
  predicate HasText(text: Option<string>) {
    text.Some? && text.value != ""
  }

  /** The RSS-only outcome: title and summary scored, the summary as excerpt. */
  function RssOutcome(title: string, summary: string, sc: Scoring): Outcome {
    var sr := Score.Score(title, summary, "", sc.keywords, sc.rules, sc.mode);
    Outcome(sr, Classify(sr.score, sc.watch, sc.red), "RSS_ONLY", RssExcerpt(summary))
  }

  /** The first three paragraphs' excerpt, or the summary's when they are empty. */
  function LeadExcerpt(lead: string, summary: string): string {
    if lead != "" then lead else RssExcerpt(summary)
  }

  /** LEAD_3_PARAGRAPHS with page text: the lead is scored and becomes the excerpt. */
  function LeadOutcome(title: string, summary: string, t: string, sc: Scoring): Outcome {
    var lead := Lead(t, 3);
    var sr := Score.Score(title, summary, lead, sc.keywords, sc.rules, sc.mode);
    Outcome(sr, Classify(sr.score, sc.watch, sc.red), "LEAD_3_PARAGRAPHS", LeadExcerpt(lead, summary))
  }

  /**
   * FULL_TEXT with page text: the lead is scored; the full text becomes the excerpt only when
   * the scope is ALL or the lead scores RED, and otherwise the entry stays at the lead.
   */
  function FullOutcome(title: string, summary: string, t: string, scope: string, sc: Scoring): Outcome {
    var lead := Lead(t, 3);
    var sr := Score.Score(title, summary, lead, sc.keywords, sc.rules, sc.mode);
    var level := Classify(sr.score, sc.watch, sc.red);
    if NormScope(scope) == "ALL" || level == Red then Outcome(sr, level, "FULL_TEXT", PyTake(t, 2500))
    else Outcome(sr, level, "LEAD_3_PARAGRAPHS", LeadExcerpt(lead, summary))
  }

  /** The ladder: the policy, named case-insensitively, falls back to RSS_ONLY without page text. */
  function Evaluate(title: string, summary: string, text: Option<string>,
                    policy: string, scope: string, sc: Scoring): Outcome
  {
    var p := NormPolicy(policy);
    if p == "LEAD_3_PARAGRAPHS" && HasText(text) then LeadOutcome(title, summary, text.value, sc)
    else if p == "FULL_TEXT" && HasText(text) then FullOutcome(title, summary, text.value, scope, sc)
    else RssOutcome(title, summary, sc)
  }

  /** The LEAD_3_PARAGRAPHS branch once there is text (lines 156-165). */
  method ScoreLead(title: string, summary: string, t: string, sc: Scoring) returns (o: Outcome)
    ensures o == LeadOutcome(title, summary, t, sc)
  {
    var lead := LeadParagraphs(t, 3);
    var sr := ScoreItem(title, summary, lead, sc.keywords, sc.rules, sc.mode);
    var level := Classify(sr.score, sc.watch, sc.red);
    var excerpt := if summary != "" then PyTake(summary, 1200) else "";
    excerpt := if lead != "" then lead else excerpt;
    o := Outcome(sr, level, "LEAD_3_PARAGRAPHS", excerpt);
  }

  /** The FULL_TEXT branch once there is text (lines 167-187). */
  method ScoreFull(title: string, summary: string, t: string, scope: string, sc: Scoring) returns (o: Outcome)
    ensures o == FullOutcome(title, summary, t, scope, sc)
  {
    var lead := LeadParagraphs(t, 3);
    var sr2 := ScoreItem(title, summary, lead, sc.keywords, sc.rules, sc.mode);
    var level2 := Classify(sr2.score, sc.watch, sc.red);
    var s := UpperStr(Strip(if scope == "" then "RED" else scope));
    if s == "ALL" || level2 == Red {
      o := Outcome(sr2, level2, "FULL_TEXT", PyTake(t, 2500));
    } else {
      var excerpt := if lead != "" then lead else (if summary != "" then PyTake(summary, 1200) else "");
      o := Outcome(sr2, level2, "LEAD_3_PARAGRAPHS", excerpt);
    }
  }

  /** Lines 139-190: the RSS-only score first, then the branch the policy names. */
  method EvaluateEntry(title: string, summary: string, link: string, page: PageFetch,
                       policy: string, scope: string, sc: Scoring)
    returns (o: Outcome)
    ensures o == Evaluate(title, summary, ExtractedText(link, page), policy, scope, sc)
  {
    var sr := ScoreItem(title, summary, "", sc.keywords, sc.rules, sc.mode);
    var level := Classify(sr.score, sc.watch, sc.red);
    var excerpt := if summary != "" then PyTake(summary, 1200) else "";
    o := Outcome(sr, level, "RSS_ONLY", excerpt);
    var p := UpperStr(Strip(if policy == "" then "RSS_ONLY" else policy));
    if p == "RSS_ONLY" {
    } else if p == "LEAD_3_PARAGRAPHS" {
      var text := ExtractedText(link, page);
      if text.Some? && text.value != "" {
        o := ScoreLead(title, summary, text.value, sc);
      }
    } else if p == "FULL_TEXT" {
      var text := ExtractedText(link, page);
      if text.Some? && text.value != "" {
        o := ScoreFull(title, summary, text.value, scope, sc);
      }
    }
  }

  // ---------------------------------------------------------------------------
  // Items

  function LabelName(l: Label): string {
    match l
    case Red => "RED"
    case Watch => "WATCH"
    case Green => "GREEN"
  }

  /** The item dictionary of lines 192-204. */
  function MakeItem(date: string, src: SourceConfig, title: string, link: string,
                    published: string, o: Outcome): Item
  {
    Item(date, src.id, src.name, if title != "" then title else "(no title)", link, published,
         o.result.score, LabelName(o.level), Some(o.policyUsed),
         CompactMatches(o.result.matchedKeywords, o.result.matchedRules), Strip(o.excerpt))
  }

  /** The metadata stored with the seen record: title and link cut to 200 and 500 characters. */
  function Meta(it: Item): map<string, MetaValue> {
    map["date" := MStr(it.date),
        "source_id" := MStr(it.sourceId),
        "title" := MStr(PyTake(it.title, 200)),
        "link" := MStr(PyTake(it.link, 500)),
        "label" := MStr(it.labelName),
        "score" := MInt(it.score)]
  }

  // ---------------------------------------------------------------------------
  // The entry loop as a fold

  /** What a run fixes for every entry: the date, the clock reading and the global settings. */
  datatype RunCtx = RunCtx(date: string, now: int, g: GlobalConfig)

  /** One entry of one source, in the order the loops visit them. */
  datatype Job = Job(src: SourceConfig, entry: FeedEntry)

  /** The feed fetched for source `i`; a missing outcome counts as a failed fetch. */
  function FeedOf(feeds: seq<FeedOutcome>, i: nat): FeedOutcome {
    if i < |feeds| then feeds[i] else FeedFailed
  }

  function JobsOf(src: SourceConfig, es: seq<FeedEntry>): seq<Job> {
    seq(|es|, j requires 0 <= j < |es| => Job(src, es[j]))
  }

  /** The entries of one source that the loop examines: the first `maxFeed` of a fetched feed. */
  function SourceJobs(src: SourceConfig, feed: FeedOutcome, maxFeed: int): seq<Job> {
    match feed
    case FeedFailed => []
    case FeedOk(es) => JobsOf(src, PyTake(es, maxFeed))
  }

  function Jobs(srcs: seq<SourceConfig>, feeds: seq<FeedOutcome>, maxFeed: int): seq<Job>
    decreases |srcs|
  {
    if srcs == [] then []
    else Jobs(srcs[..|srcs| - 1], feeds, maxFeed) + SourceJobs(srcs[|srcs| - 1], FeedOf(feeds, |srcs| - 1), maxFeed)
  }

  function ScoringOf(g: GlobalConfig, rules: (seq<KeywordRule>, seq<ContextRule>)): Scoring {
    Scoring(rules.0, rules.1, g.mode, g.watchThreshold, g.redThreshold)
  }

  /** The item a new entry yields. */
  function EntryItem(ctx: RunCtx, src: SourceConfig, sc: Scoring, e: FeedEntry): Item {
    var title := EntryTitle(e);
    var link := EntryLink(e);
    var summary := EntrySummary(e);
    var o := Evaluate(title, summary, ExtractedText(link, e.page), src.policy, ctx.g.fullTextScope, sc);
    MakeItem(ctx.date, src, title, link, EntryPublished(e), o)
  }

  /** What one entry does: skipped (seen, or processing raised), or emitted and marked seen. */
  datatype StepOutcome = Skipped | Emitted(item: Item, key: Key, seen: SeenSlot)

  function StepOf(seen: SeenSlot, ctx: RunCtx, job: Job): StepOutcome {
    var key := StableKey(job.src.id, job.entry);
    if SeenIn(seen, key) != Some(false) then Skipped
    else
      match SourceRules(job.src.keywords, job.src.contextRules)
      case None => Skipped
      case Some(rules) =>
        var item := EntryItem(ctx, job.src, ScoringOf(ctx.g, rules), job.entry);
        match MarkSlot(seen, key, Meta(item), ctx.now)
        case None => Skipped
        case Some(seen') => Emitted(item, key, seen')
  }

  /** The loop state: the seen store, the new items and (for the proofs) their keys. */
  datatype Acc = Acc(seen: SeenSlot, items: seq<Item>, keys: seq<Key>)

  function Step(acc: Acc, ctx: RunCtx, job: Job): Acc {
    match StepOf(acc.seen, ctx, job)
    case Skipped => acc
    case Emitted(it, k, s) => Acc(s, acc.items + [it], acc.keys + [k])
  }

  /** The loop over `jobs`, one step per entry. */
  function StepFn(ctx: RunCtx): (Acc, Job) -> Acc {
    (a: Acc, job: Job) => Step(a, ctx, job)
  }

  function RunFold(acc: Acc, ctx: RunCtx, jobs: seq<Job>): Acc {
    FoldLeft(StepFn(ctx), acc, jobs)
  }

  // ---------------------------------------------------------------------------
  // Sorting

  /** RED 0, WATCH 1, GREEN 2, any other label 9. */
  function Rank(name: string): int {
    if name == "RED" then 0 else if name == "WATCH" then 1 else if name == "GREEN" then 2 else 9
  }

  function ItemKey(it: Item): (int, int) {
    (Rank(it.labelName), -it.score)
  }

  function SortItems(items: seq<Item>): seq<Item> {
    SortBy(items, ItemKey)
  }

  // ---------------------------------------------------------------------------
  // The digest gate

  /** `SEND_TELEGRAM` (default "false"), overridden by `--send-telegram`, stripped and lowered. */
  predicate SendRequested(env: Option<string>, arg: Option<string>) {
    var v := if arg.Some? then arg.value else env.GetOr("false");
    LowerStr(Strip(v)) in ["1", "true", "yes", "y"]
  }

  datatype GateOutcome =
    | NotEnabled
    | AlreadySent
    | NoItems
    | SendFailed(message: string)
    | Sent(message: string, recorded: bool)

  /**
   * Lines 241-267: send only when asked, with a token and a chat id, not yet sent for the
   * date, and with items; record the date once the send succeeded.
   */
  function Gate(enabled: bool, botToken: string, chatId: string, date: string, items: seq<Item>,
                g: GlobalConfig, sendOk: bool, slot: TelegramSlot): GateOutcome
  {
    if !(enabled && Strip(botToken) != "" && Strip(chatId) != "") then NotEnabled
    else if LastSent(slot) == Some(date) then AlreadySent
    else if |items| == 0 then NoItems
    else
      var msg := Telegram.Digest(date, items, g.maxItemsPerSection, g.includeGreenInTelegram);
      if !sendOk then SendFailed(msg) else Sent(msg, SetSent(slot, date).Some?)
  }

  // ---------------------------------------------------------------------------
  // The run

  /** The body of the entry loop (lines 128-218) for one entry. */
  method ProcessEntry(st: RadarState, ctx: RunCtx, job: Job) returns (r: StepOutcome)
    modifies st
    ensures r == StepOf(old(st.seen), ctx, job)
    ensures st.seen == (if r.Emitted? then r.seen else old(st.seen))
    ensures st.telegram == old(st.telegram) && st.version == old(st.version)
  {
    var key := StableKey(job.src.id, job.entry);
    var seen := st.IsSeen(key);
    if seen != Some(false) {
      return Skipped;
    }
    var rules := SourceRules(job.src.keywords, job.src.contextRules);
    if rules.None? {
      return Skipped;
    }
    var e := job.entry;
    var title := EntryTitle(e);
    var link := EntryLink(e);
    var summary := EntrySummary(e);
    var published := EntryPublished(e);
    var o := EvaluateEntry(title, summary, link, e.page, job.src.policy, ctx.g.fullTextScope,
                           ScoringOf(ctx.g, rules.value));
    var item := MakeItem(ctx.date, job.src, title, link, published, o);
    var ok := st.MarkSeen(key, Meta(item), ctx.now);
    if !ok {
      return Skipped;
    }
    return Emitted(item, key, st.seen);
  }

  lemma JobsSnoc(srcs: seq<SourceConfig>, feeds: seq<FeedOutcome>, maxFeed: int, i: nat)
    requires i < |srcs|
    ensures Jobs(srcs[..i + 1], feeds, maxFeed) ==
              Jobs(srcs[..i], feeds, maxFeed) + SourceJobs(srcs[i], FeedOf(feeds, i), maxFeed)
  {
    assert srcs[..i + 1][..i] == srcs[..i];
  }

  lemma FoldSnoc(acc: Acc, ctx: RunCtx, jobs: seq<Job>)
    requires jobs != []
    ensures RunFold(acc, ctx, jobs) == Step(RunFold(acc, ctx, jobs[..|jobs| - 1]), ctx, jobs[|jobs| - 1])
  {
  }

  /** Lines 128-218 for one source: its examined entries in feed order. */
  method CollectSource(st: RadarState, ctx: RunCtx, src: SourceConfig, entries: seq<FeedEntry>,
                       items0: seq<Item>, ghost keys0: seq<Key>)
    returns (newItems: seq<Item>, ghost keys: seq<Key>)
    modifies st
    ensures var acc := RunFold(Acc(old(st.seen), items0, keys0), ctx, JobsOf(src, entries));
            st.seen == acc.seen && newItems == acc.items && keys == acc.keys
    ensures st.telegram == old(st.telegram) && st.version == old(st.version)
  {
    ghost var acc0 := Acc(st.seen, items0, keys0);
    ghost var todo := JobsOf(src, entries);
    newItems := items0;
    keys := keys0;
    for j := 0 to |entries|
      invariant RunFold(acc0, ctx, todo[..j]) == Acc(st.seen, newItems, keys)
      invariant st.telegram == old(st.telegram) && st.version == old(st.version)
    {
      var job := Job(src, entries[j]);
      var r := ProcessEntry(st, ctx, job);
      if r.Emitted? {
        newItems := newItems + [r.item];
        keys := keys + [r.key];
      }
      assert todo[..j + 1][..j] == todo[..j];
      FoldSnoc(acc0, ctx, todo[..j + 1]);
    }
    assert todo[..|entries|] == todo;
  }

  /** Lines 118-218: every source in order, the first entries of each fetched feed in order. */
  method CollectItems(st: RadarState, ctx: RunCtx, sources: seq<SourceConfig>, feeds: seq<FeedOutcome>)
    returns (newItems: seq<Item>, ghost keys: seq<Key>)
    modifies st
    ensures var acc := RunFold(Acc(old(st.seen), [], []), ctx, Jobs(sources, feeds, ctx.g.maxFeedItemsPerSource));
            st.seen == acc.seen && newItems == acc.items && keys == acc.keys
    ensures st.telegram == old(st.telegram) && st.version == old(st.version)
  {
    var maxFeed := ctx.g.maxFeedItemsPerSource;
    ghost var acc0 := Acc(st.seen, [], []);
    newItems := [];
    keys := [];
    for i := 0 to |sources|
      invariant RunFold(acc0, ctx, Jobs(sources[..i], feeds, maxFeed)) == Acc(st.seen, newItems, keys)
      invariant st.telegram == old(st.telegram) && st.version == old(st.version)
    {
      var src := sources[i];
      var feed := FeedOf(feeds, i);
      ghost var done := Jobs(sources[..i], feeds, maxFeed);
      JobsSnoc(sources, feeds, maxFeed, i);
      FoldLeftAppend(StepFn(ctx), acc0, done, SourceJobs(src, feed, maxFeed));
      if feed.FeedOk? {
        var entries := PyTake(feed.entries, maxFeed);
        newItems, keys := CollectSource(st, ctx, src, entries, newItems, keys);
      }
    }
    assert sources[..|sources|] == sources;
  }

  /**
   * Lines 94-267 without the file writes: read the send flag, prune, collect the new items,
   * sort them, render the report, then the digest gate. `generated` is the report's
   * timestamp, `now` the clock reading, `feeds` what fetching each source's feed gave, and
   * `sendOk` whether posting the digest succeeded.
   */
  method RunMain(st: RadarState, cfg: AppConfig, date: string, now: int, generated: string,
                 feeds: seq<FeedOutcome>, sendEnv: Option<string>, sendArg: Option<string>,
                 botToken: string, chatId: string, sendOk: bool)
    returns (items: seq<Item>, md: string, gate: GateOutcome)
    modifies st
    ensures var g := cfg.globalCfg;
            var pruned := PruneSlot(old(st.seen), Cutoff(g.keepDays, now)).0;
            var acc := RunFold(Acc(pruned, [], []), RunCtx(date, now, g),
                               Jobs(cfg.sources, feeds, g.maxFeedItemsPerSource));
            st.seen == acc.seen && items == SortItems(acc.items)
    ensures md == Render.Markdown(date, generated, items, cfg.globalCfg.includeGreenInMd)
    ensures gate == Gate(SendRequested(sendEnv, sendArg), botToken, chatId, date, items, cfg.globalCfg, sendOk, old(st.telegram))
    ensures st.telegram == (if gate.Sent? && gate.recorded then TelegramMap(Some(date)) else old(st.telegram))
    ensures st.version == old(st.version)
  {
    var sendEnabled := SendRequested(sendEnv, sendArg);
    var g := cfg.globalCfg;
    var ctx := RunCtx(date, now, g);
    var removed := st.PruneSeen(g.keepDays, now);
    var newItems, keys := CollectItems(st, ctx, cfg.sources, feeds);
    items := SortItems(newItems);
    md := Render.RenderDailyMarkdown(date, generated, items, g.includeGreenInMd);

    var token := Strip(botToken);
    var chat := Strip(chatId);
    var lastSent := st.GetLastSentDate();
    if sendEnabled && token != "" && chat != "" {
      if lastSent == Some(date) {
        gate := AlreadySent;
      } else if |items| == 0 {
        gate := NoItems;
      } else {
        var msg := Telegram.BuildDigestMessage(date, items, g.maxItemsPerSection, g.includeGreenInTelegram);
        if !sendOk {
          gate := SendFailed(msg);
        } else {
          var recorded := st.SetLastSentDate(date);
          gate := Sent(msg, recorded);
        }
      }
    } else {
      gate := NotEnabled;
    }
  }

  // ---------------------------------------------------------------------------
  // Lemmas: keys and fields

  /** The key is chosen from the id, else the link, else the title; entries agreeing on that field share a key. */
  lemma KeyChoice(sourceId: string, e1: FeedEntry, e2: FeedEntry)
    ensures (OrEmpty(e1.id) != "" && e1.id == e2.id) ==>
              StableKey(sourceId, e1) == StableKey(sourceId, e2)
    ensures (OrEmpty(e1.id) == "" && OrEmpty(e2.id) == "" && OrEmpty(e1.link) != "" && e1.link == e2.link) ==>
              StableKey(sourceId, e1) == StableKey(sourceId, e2)
    ensures (OrEmpty(e1.id) == "" && OrEmpty(e2.id) == "" && OrEmpty(e1.link) == "" && OrEmpty(e2.link) == "" &&
             OrEmpty(e1.title) == OrEmpty(e2.title)) ==>
              StableKey(sourceId, e1) == StableKey(sourceId, e2)
  {
  }

  /** A page with text is needed: without a link, or when fetching fails, there is nothing to extract. */
  lemma ExtractedTextFacts(link: string, page: PageFetch)
    ensures link == "" || page.FetchFailed? ==> ExtractedText(link, page) == None
    ensures HasText(ExtractedText(link, page)) <==> ExtractedText(link, page).Some?
    ensures ExtractedText(link, page).Some? ==>
              var t := ExtractedText(link, page).value;
              Lead(t, 3) == Join(" ", SplitLines(t))
  {
    if ExtractedText(link, page).Some? {
      CleanTextFacts(page.extracted);
      LeadOfCleanedText(page.extracted, 3);
    }
  }

  // ---------------------------------------------------------------------------
  // Lemmas: the policy ladder

  /**
   * The entry stays RSS-only exactly when the policy is not one of the two that read the
   * page, or the page gave no text; it then keeps the RSS-only score, label and excerpt.
   */
  lemma RssOnlyIff(title: string, summary: string, text: Option<string>, policy: string, scope: string, sc: Scoring)
    ensures Evaluate(title, summary, text, policy, scope, sc).policyUsed == "RSS_ONLY" <==>
              !HasText(text) || (NormPolicy(policy) != "LEAD_3_PARAGRAPHS" && NormPolicy(policy) != "FULL_TEXT")
    ensures Evaluate(title, summary, text, policy, scope, sc).policyUsed == "RSS_ONLY" ==>
              Evaluate(title, summary, text, policy, scope, sc) == RssOutcome(title, summary, sc) &&
              |RssOutcome(title, summary, sc).excerpt| <= 1200
  {
  }

  /**
   * FULL_TEXT is used exactly when asked for, with page text, and the scope is ALL or the
   * lead scores RED; its excerpt is the first 2500 characters of the text.
   */
  lemma FullTextIff(title: string, summary: string, text: Option<string>, policy: string, scope: string, sc: Scoring)
    ensures Evaluate(title, summary, text, policy, scope, sc).policyUsed == "FULL_TEXT" <==>
              NormPolicy(policy) == "FULL_TEXT" && HasText(text) &&
              (NormScope(scope) == "ALL" ||
               Classify(Score.Score(title, summary, Lead(text.value, 3), sc.keywords, sc.rules, sc.mode).score,
                        sc.watch, sc.red) == Red)
    ensures Evaluate(title, summary, text, policy, scope, sc).policyUsed == "FULL_TEXT" ==>
              Evaluate(title, summary, text, policy, scope, sc).excerpt == PyTake(text.value, 2500) &&
              |Evaluate(title, summary, text, policy, scope, sc).excerpt| <= 2500
  {
  }

  /** FULL_TEXT that does not qualify stays at the lead, with the lead (or the summary) as excerpt. */
  lemma FullTextFallsBackToLead(title: string, summary: string, t: string, policy: string, scope: string, sc: Scoring)
    requires NormPolicy(policy) == "FULL_TEXT" && t != ""
    requires Evaluate(title, summary, Some(t), policy, scope, sc).policyUsed != "FULL_TEXT"
    ensures Evaluate(title, summary, Some(t), policy, scope, sc) == LeadOutcome(title, summary, t, sc)
  {
  }

  /**
   * With page text the score and label come from the title, the summary and the lead; the
   * full text is never scored. The label always agrees with the score.
   */
  lemma ScoredBody(title: string, summary: string, text: Option<string>, policy: string, scope: string, sc: Scoring)
    ensures var o := Evaluate(title, summary, text, policy, scope, sc);
            var usesPage := HasText(text) && (NormPolicy(policy) == "LEAD_3_PARAGRAPHS" || NormPolicy(policy) == "FULL_TEXT");
            o.result == Score.Score(title, summary, if usesPage then Lead(text.value, 3) else "", sc.keywords, sc.rules, sc.mode) &&
            o.level == Classify(o.result.score, sc.watch, sc.red)
  {
  }

  /** Only the three policy names are ever reported. */
  lemma PolicyUsedKnown(title: string, summary: string, text: Option<string>, policy: string, scope: string, sc: Scoring)
    ensures Evaluate(title, summary, text, policy, scope, sc).policyUsed in ["RSS_ONLY", "LEAD_3_PARAGRAPHS", "FULL_TEXT"]
  {
  }

  /**
   * Extracted text has no blank line, so the "lead" that gets scored is the whole extracted
   * text with its lines joined by spaces.
   */
  lemma ExtractedPageScoredWhole(title: string, summary: string, link: string, page: PageFetch,
                                 policy: string, scope: string, sc: Scoring)
    requires ExtractedText(link, page).Some?
    requires NormPolicy(policy) == "LEAD_3_PARAGRAPHS" || NormPolicy(policy) == "FULL_TEXT"
    ensures var t := ExtractedText(link, page).value;
            Evaluate(title, summary, Some(t), policy, scope, sc).result ==
              Score.Score(title, summary, Join(" ", SplitLines(t)), sc.keywords, sc.rules, sc.mode)
  {
    ExtractedTextFacts(link, page);
    ScoredBody(title, summary, ExtractedText(link, page), policy, scope, sc);
  }

  // ---------------------------------------------------------------------------
  // Lemmas: match summaries and items

  /** The top five of a list in key order: a prefix of the sorted list, ranked at or above the rest. */
  lemma TopFacts<T>(s: seq<T>, key: T -> (int, int))
    ensures var sorted := SortBy(s, key);
            var top := Top(s, key);
            |top| == Min(5, |s|) && top == sorted[..|top|] && SortedBy(top, key) &&
            multiset(top) <= multiset(s) &&
            forall i, j :: 0 <= i < |top| <= j < |sorted| ==> KeyLe(key(sorted[i]), key(sorted[j]))
  {
    SortByFacts(s, key);
    var sorted := SortBy(s, key);
    var top := Top(s, key);
    assert sorted == top + sorted[|top|..];
    assert multiset(sorted) == multiset(top) + multiset(sorted[|top|..]);
  }

  /** At most five keywords are shown, by weight and then count, both descending. */
  lemma TopKeywordsRanked(mk: seq<KeywordMatch>)
    ensures var top := Top(mk, KeywordKey);
            |top| == Min(5, |mk|) && multiset(top) <= multiset(mk) &&
            forall i, j :: 0 <= i < j < |top| ==>
              top[i].weight > top[j].weight || (top[i].weight == top[j].weight && top[i].count >= top[j].count)
  {
    TopFacts(mk, KeywordKey);
    var top := Top(mk, KeywordKey);
    forall i, j | 0 <= i < j < |top|
      ensures top[i].weight > top[j].weight || (top[i].weight == top[j].weight && top[i].count >= top[j].count)
    {
      assert KeyLe(KeywordKey(top[i]), KeywordKey(top[j]));
    }
  }

  /** At most five rules are shown, by what they added, descending. */
  lemma TopRulesRanked(mr: seq<RuleMatch>)
    ensures var top := Top(mr, RuleKey);
            |top| == Min(5, |mr|) && multiset(top) <= multiset(mr) &&
            forall i, j :: 0 <= i < j < |top| ==> top[i].added >= top[j].added
  {
    TopFacts(mr, RuleKey);
    var top := Top(mr, RuleKey);
    forall i, j | 0 <= i < j < |top| ensures top[i].added >= top[j].added {
      assert KeyLe(RuleKey(top[i]), RuleKey(top[j]));
    }
  }

  /** The summary is empty exactly when there is no evidence at all. */
  lemma CompactEmptyIff(mk: seq<KeywordMatch>, mr: seq<RuleMatch>)
    ensures CompactMatches(mk, mr) == "" <==> mk == [] && mr == []
  {
    var parts := CompactParts(mk, mr);
    if mk != [] || mr != [] {
      assert |parts[0]| >= 4;
      JoinNonEmpty(" | ", parts);
    }
  }

  /** With both kinds of evidence, the keyword part comes first, then " | ", then the rule part. */
  lemma CompactBoth(mk: seq<KeywordMatch>, mr: seq<RuleMatch>)
    requires mk != [] && mr != []
    ensures CompactMatches(mk, mr) ==
              ("KW: " + Join(", ", KeywordTexts(Top(mk, KeywordKey)))) + " | " +
              ("CTX: " + Join(", ", RuleTexts(Top(mr, RuleKey))))
  {
    var a := "KW: " + Join(", ", KeywordTexts(Top(mk, KeywordKey)));
    var b := "CTX: " + Join(", ", RuleTexts(Top(mr, RuleKey)));
    assert CompactParts(mk, mr) == [a, b];
    assert [a, b][1..] == [b];
    assert Join(" | ", [b]) == b;
    assert Join(" | ", [a, b]) == a + " | " + b;
  }

  /** An item always has a title, a known label matching its outcome, and its outcome's score. */
  lemma MakeItemFacts(date: string, src: SourceConfig, title: string, link: string, published: string, o: Outcome)
    ensures var it := MakeItem(date, src, title, link, published, o);
            it.title != "" && (title != "" ==> it.title == title) &&
            KnownLabel(it.labelName) && Rank(it.labelName) == Severity(o.level) &&
            it.score == o.result.score && it.sourceId == src.id && it.policyUsed == Some(o.policyUsed) &&
            (it.matches == "" <==> o.result.matchedKeywords == [] && o.result.matchedRules == [])
  {
    CompactEmptyIff(o.result.matchedKeywords, o.result.matchedRules);
  }

  /** The stored metadata has six fields, with the title and link cut to 200 and 500 characters. */
  lemma MetaFacts(it: Item)
    ensures Meta(it).Keys == {"date", "source_id", "title", "link", "label", "score"}
    ensures |Meta(it)["title"].s| <= 200 && it.title[..|Meta(it)["title"].s|] == Meta(it)["title"].s
    ensures |Meta(it)["link"].s| <= 500 && it.link[..|Meta(it)["link"].s|] == Meta(it)["link"].s
    ensures Meta(it)["score"] == MInt(it.score)
  {
  }

  // ---------------------------------------------------------------------------
  // Lemmas: the entry loop

  /**
   * A fetched feed contributes the entries of `entries[:maxFeed]`, in feed order: the first
   * `maxFeed` for a non-negative bound, all but the last |maxFeed| for a negative one.
   * A failed feed adds none.
   */
  lemma SourceJobsExamined(src: SourceConfig, feed: FeedOutcome, maxFeed: int)
    ensures feed.FeedFailed? ==> SourceJobs(src, feed, maxFeed) == []
    ensures feed.FeedOk? ==> |SourceJobs(src, feed, maxFeed)| == |PyTake(feed.entries, maxFeed)|
    ensures feed.FeedOk? && maxFeed >= 0 ==> |SourceJobs(src, feed, maxFeed)| == Min(maxFeed, |feed.entries|)
    ensures feed.FeedOk? && maxFeed < 0 ==>
              |SourceJobs(src, feed, maxFeed)| == (if |feed.entries| + maxFeed < 0 then 0 else |feed.entries| + maxFeed)
    ensures feed.FeedOk? ==>
              forall j :: 0 <= j < |SourceJobs(src, feed, maxFeed)| ==> SourceJobs(src, feed, maxFeed)[j] == Job(src, feed.entries[j])
  {
  }

  /** An entry whose key is already recorded is skipped and changes nothing, not even its `last_seen`. */
  lemma SeenEntrySkipped(acc: Acc, ctx: RunCtx, job: Job)
    requires StableKey(job.src.id, job.entry) in Records(acc.seen)
    ensures Step(acc, ctx, job) == acc
  {
  }

  /** A step only adds records. */
  lemma StepKeepsRecords(acc: Acc, ctx: RunCtx, job: Job)
    ensures Records(acc.seen).Keys <= Records(Step(acc, ctx, job).seen).Keys
    ensures acc.seen.SeenOther? ==> Step(acc, ctx, job) == acc
  {
    var key := StableKey(job.src.id, job.entry);
    var r := StepOf(acc.seen, ctx, job);
    if r.Emitted? {
      var item := r.item;
      MarkedFacts(Records(acc.seen), key, Meta(item), ctx.now);
    }
  }

  /** The loop's bookkeeping: one key per item, no key twice, and every key recorded in the store. */
  predicate Consistent(acc: Acc) {
    |acc.keys| == |acc.items| &&
    (forall i, j :: 0 <= i < j < |acc.keys| ==> acc.keys[i] != acc.keys[j]) &&
    (forall i :: 0 <= i < |acc.keys| ==> acc.keys[i] in Records(acc.seen))
  }

  lemma StepConsistent(acc: Acc, ctx: RunCtx, job: Job)
    requires Consistent(acc)
    ensures Consistent(Step(acc, ctx, job))
  {
    var key := StableKey(job.src.id, job.entry);
    var r := StepOf(acc.seen, ctx, job);
    if r.Emitted? {
      MarkedFacts(Records(acc.seen), key, Meta(r.item), ctx.now);
      assert key !in Records(acc.seen);
      var out := Step(acc, ctx, job);
      assert out.keys == acc.keys + [key];
      forall i | 0 <= i < |out.keys| ensures out.keys[i] in Records(out.seen) {
        if i < |acc.keys| {
          assert out.keys[i] == acc.keys[i];
        }
      }
    }
  }

  lemma FoldConsistent(acc: Acc, ctx: RunCtx, jobs: seq<Job>)
    requires Consistent(acc)
    ensures Consistent(RunFold(acc, ctx, jobs))
  {
    var f := StepFn(ctx);
    forall a: Acc, job: Job | Consistent(a) ensures Consistent(f(a, job)) {
      StepConsistent(a, ctx, job);
    }
    FoldInvariant(f, Consistent, acc, jobs);
  }

  /**
   * Within one run no key yields two items, and every emitted item's key is recorded in the
   * store the run leaves behind.
   */
  lemma NoKeyTwice(seen: SeenSlot, ctx: RunCtx, jobs: seq<Job>)
    ensures var out := RunFold(Acc(seen, [], []), ctx, jobs);
            |out.keys| == |out.items| &&
            (forall i, j :: 0 <= i < j < |out.keys| ==> out.keys[i] != out.keys[j]) &&
            (forall i :: 0 <= i < |out.keys| ==> out.keys[i] in Records(out.seen))
  {
    FoldConsistent(Acc(seen, [], []), ctx, jobs);
  }

  function ItemCount(a: Acc): int {
    |a.items|
  }

  /** Items already collected stay first. */
  predicate Extends(base: seq<Item>, a: Acc) {
    base <= a.items
  }

  /** A run emits at most one item per examined entry, after those it started with. */
  lemma FoldItemsBound(acc: Acc, ctx: RunCtx, jobs: seq<Job>)
    ensures |RunFold(acc, ctx, jobs).items| <= |acc.items| + |jobs|
    ensures acc.items <= RunFold(acc, ctx, jobs).items
  {
    var f := StepFn(ctx);
    FoldMeasure(f, ItemCount, acc, jobs);
    var inv := (a: Acc) => Extends(acc.items, a);
    forall a: Acc, job: Job | inv(a) ensures inv(f(a, job)) {
      assert a.items <= Step(a, ctx, job).items;
    }
    FoldInvariant(f, inv, acc, jobs);
  }

  /** An entry is settled once it would be skipped from then on: its key is recorded, the store is unusable, or its rules do not read. */
  predicate Settled(seen: SeenSlot, job: Job) {
    StableKey(job.src.id, job.entry) in Records(seen) || seen.SeenOther? ||
    SourceRules(job.src.keywords, job.src.contextRules).None?
  }

  lemma SettledSkips(seen: SeenSlot, ctx: RunCtx, job: Job)
    requires Settled(seen, job)
    ensures StepOf(seen, ctx, job) == Skipped
  {
  }

  lemma StepSettles(acc: Acc, ctx: RunCtx, job: Job, other: Job)
    ensures Settled(Step(acc, ctx, job).seen, job)
    ensures Settled(acc.seen, other) ==> Settled(Step(acc, ctx, job).seen, other)
  {
    StepKeepsRecords(acc, ctx, job);
    var r := StepOf(acc.seen, ctx, job);
    if r.Emitted? {
      MarkedFacts(Records(acc.seen), r.key, Meta(r.item), ctx.now);
    }
  }

  predicate SettledIn(a: Acc, job: Job) {
    Settled(a.seen, job)
  }

  lemma FoldSettled(acc: Acc, ctx: RunCtx, jobs: seq<Job>)
    ensures forall k :: 0 <= k < |jobs| ==> Settled(RunFold(acc, ctx, jobs).seen, jobs[k])
  {
    var f := StepFn(ctx);
    forall a: Acc, job: Job ensures SettledIn(f(a, job), job) {
      StepSettles(a, ctx, job, job);
    }
    forall a: Acc, job: Job, other: Job | SettledIn(a, other) ensures SettledIn(f(a, job), other) {
      StepSettles(a, ctx, job, other);
    }
    FoldSettles(f, SettledIn, acc, jobs);
  }

  lemma SettledFoldNoop(acc: Acc, ctx: RunCtx, jobs: seq<Job>)
    requires forall k :: 0 <= k < |jobs| ==> Settled(acc.seen, jobs[k])
    ensures RunFold(acc, ctx, jobs) == acc
  {
    var f := StepFn(ctx);
    forall k | 0 <= k < |jobs| ensures f(acc, jobs[k]) == acc {
      SettledSkips(acc.seen, ctx, jobs[k]);
    }
    FoldFixed(f, acc, jobs);
  }

  /**
   * Running the same entries again over the store a run left behind emits nothing and
   * changes nothing, whatever the date and clock of the second run.
   */
  lemma RerunEmitsNothing(acc: Acc, ctx: RunCtx, ctx2: RunCtx, jobs: seq<Job>)
    ensures RunFold(RunFold(acc, ctx, jobs), ctx2, jobs) == RunFold(acc, ctx, jobs)
  {
    FoldSettled(acc, ctx, jobs);
    SettledFoldNoop(RunFold(acc, ctx, jobs), ctx2, jobs);
  }

  // ---------------------------------------------------------------------------
  // Lemmas: sorting

  /**
   * The output is a permutation of the new items, ordered by label rank and then by score
   * descending, and items with equal rank and score keep their discovery order.
   */
  lemma SortItemsFacts(items: seq<Item>)
    ensures var out := SortItems(items);
            multiset(out) == multiset(items) && |out| == |items| &&
            forall i, j :: 0 <= i < j < |out| ==>
              Rank(out[i].labelName) < Rank(out[j].labelName) ||
              (Rank(out[i].labelName) == Rank(out[j].labelName) && out[i].score >= out[j].score)
    ensures forall k: (int, int) :: WithKey(SortItems(items), ItemKey, k) == WithKey(items, ItemKey, k)
  {
    SortByFacts(items, ItemKey);
    var out := SortItems(items);
    forall i, j | 0 <= i < j < |out|
      ensures Rank(out[i].labelName) < Rank(out[j].labelName) ||
              (Rank(out[i].labelName) == Rank(out[j].labelName) && out[i].score >= out[j].score)
    {
      assert KeyLe(ItemKey(out[i]), ItemKey(out[j]));
    }
    forall k: (int, int) ensures WithKey(SortItems(items), ItemKey, k) == WithKey(items, ItemKey, k) {
      SortByStable(items, ItemKey, k);
    }
  }

  /** RED items come first and items with an unknown label last. */
  lemma RedFirst(items: seq<Item>)
    ensures var out := SortItems(items);
            (forall i, j :: 0 <= i < j < |out| && out[j].labelName == "RED" ==> out[i].labelName == "RED") &&
            (forall i, j :: 0 <= i < j < |out| && !KnownLabel(out[i].labelName) ==> !KnownLabel(out[j].labelName))
  {
    SortItemsFacts(items);
  }

  // ---------------------------------------------------------------------------
  // Lemmas: the digest gate

  /**
   * A send is attempted exactly when it is enabled with a token and a chat id, nothing was
   * sent for the date, and there are items; the message is the digest, within the limit.
   */
  lemma GateAttemptIff(enabled: bool, botToken: string, chatId: string, date: string, items: seq<Item>,
                       g: GlobalConfig, sendOk: bool, slot: TelegramSlot)
    ensures var out := Gate(enabled, botToken, chatId, date, items, g, sendOk, slot);
            (out.Sent? || out.SendFailed?) <==>
              enabled && Strip(botToken) != "" && Strip(chatId) != "" && LastSent(slot) != Some(date) && |items| > 0
    ensures var out := Gate(enabled, botToken, chatId, date, items, g, sendOk, slot);
            (out.Sent? || out.SendFailed?) ==>
              out.message == Telegram.Digest(date, items, g.maxItemsPerSection, g.includeGreenInTelegram) &&
              |out.message| <= Telegram.MaxLength + |Telegram.TruncationMarker|
    ensures var out := Gate(enabled, botToken, chatId, date, items, g, sendOk, slot);
            out.Sent? ==> (out.recorded <==> !slot.TelegramOther?)
  {
    Telegram.TruncateBound(Join("\n", Telegram.DigestLines(date, items, g.maxItemsPerSection, g.includeGreenInTelegram)));
  }

  /** Once a digest is sent and recorded for a date, a later run on the same date never sends again. */
  lemma SecondRunSameDaySkips(enabled: bool, botToken: string, chatId: string, date: string, items: seq<Item>,
                              g: GlobalConfig, sendOk: bool, slot: TelegramSlot,
                              enabled2: bool, botToken2: string, chatId2: string, items2: seq<Item>,
                              g2: GlobalConfig, sendOk2: bool)
    requires Gate(enabled, botToken, chatId, date, items, g, sendOk, slot).Sent?
    requires Gate(enabled, botToken, chatId, date, items, g, sendOk, slot).recorded
    ensures var again := Gate(enabled2, botToken2, chatId2, date, items2, g2, sendOk2, SetSent(slot, date).value);
            again == NotEnabled || again == AlreadySent
  {
  }

  /**
   * When `telegram` is not a dictionary, a successful send is not recorded, so the store
   * keeps a slot on which the same date sends again.
   */
  lemma UnrecordedSendRepeats(botToken: string, chatId: string, date: string, items: seq<Item>, g: GlobalConfig)
    requires Strip(botToken) != "" && Strip(chatId) != "" && |items| > 0
    ensures Gate(true, botToken, chatId, date, items, g, true, TelegramOther) ==
              Sent(Telegram.Digest(date, items, g.maxItemsPerSection, g.includeGreenInTelegram), false)
  {
  }

  /** Without a flag the digest is off; "1", "true", "yes" and "y" turn it on, in any case and with spaces; the argument wins. */
  lemma SendDefaultsOff()
    ensures !SendRequested(None, None)
  {
    assert LowerStr(Strip("false")) == "false";
  }

  lemma SendArgumentWins(env: Option<string>, arg: string)
    ensures SendRequested(env, Some(arg)) == SendRequested(Some(arg), None)
    ensures SendRequested(Some("true"), Some("no")) == false
  {
    assert LowerStr(Strip("no")) == "no";
  }

  lemma SendPaddedYes()
    ensures SendRequested(None, Some(" Yes "))
  {
    assert Strip(" Yes ") == "Yes";
    assert LowerStr("Yes") == "yes";
  }
}
