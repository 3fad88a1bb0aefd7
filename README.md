# Propaganda Radar, modelled in Dafny

Propaganda Radar is a daily monitor. It reads a list of RSS sources and scores each new feed
entry for propaganda-style language:
- keyword counts, with title hits weighted up in aggressive mode;
- context rules matched on "any" or "all" patterns.

It labels each entry RED, WATCH or GREEN from two thresholds. For sources that ask for it, it
rescores the entry from the lead paragraphs of the article page, with a gated escalation to the
full text.

A JSON dedup store makes an entry count as new only while its record lasts: records expire
after a retention window. The new items are sorted by label and score and rendered as a daily Markdown
report. At most one Telegram digest is sent per date once that date has been recorded. A long digest
is cut to 3800 characters plus a truncation marker.

This project models the core of that program:
- scoring and classification;
- text clean-up and lead paragraphs;
- the dedup and cooldown store (a class whose methods update its fields);
- configuration loading;
- the run loop with its policy ladder, sort and digest gate;
- the digest and report builders.

It proves properties of that model.

Modules, one per source file and a few shared helpers:

- `Wrappers`, `Seqs`, `Text`, `Sorting`: Option/Result, a left fold with generic lemmas,
  ASCII Python string operations, and a stable sort.
- `Items`: the item record and the label partitions.
- `Values`, `Config`, `Rules`: parsed configuration values, `load_config`, and how scoring
  reads a source's raw keyword and rule entries.
- `Score`, `Extract`, `State`, `Telegram`, `Render`, `Run`: the modules for the source files
  of the same names.

The loops of the source are `method`s with `while`/`for` loops. Each method is proved equal to
a specification function, and the properties are lemmas about those functions. `State.RadarState`
is a class with `version`, `seen` and `telegram` fields. `Run.RunMain` runs one whole pass over
such an object.

Three consequences of the code are worth knowing:

- A seen entry is skipped before `mark_seen` runs (`radar/run.py:130-131`), so its `last_seen`
  is never refreshed (`Run.SeenEntrySkipped`). An entry that stays in a feed therefore expires
  after `keep_days`, and the next run reports it as new again.
- Escalating to FULL_TEXT changes only the excerpt and `policy_used`; the score stays the
  lead's (`radar/run.py:171-180`, `Run.ScoredBody`).
- The extractor's clean-up (`radar/extract.py:17`) removes every blank line. The three "lead
  paragraphs" of extracted text are therefore the whole text with its lines joined by spaces
  (`Run.ExtractedPageScoredWhole`, `Extract.LeadOfCleanedText`).

## Model

| member | source | states |
|---|---|---|
| Score.Part | radar/score.py:47-54 | a keyword's part is its raw part or the cap, and never more than either |
| Score.KeywordPart | radar/score.py:47-54 | the aggressive/standard arithmetic of one keyword, then the cap `w*12 (+3)`, equals `Part` |
| Score.PatternHits | radar/score.py:65-69 | the hit count never exceeds the number of patterns |
| Score.CountHits | radar/score.py:65-69 | the inner pattern loop counts the stripped, non-empty patterns found in the lowered blob |
| Score.EvalRule | radar/score.py:59-75 | one rule's name, fire decision and addition (`w*2` aggressive, `w` otherwise) |
| Score.ScanKeywords | radar/score.py:35-56 | the keyword loop's total and evidence list equal the keyword scan |
| Score.ScanRules | radar/score.py:58-75 | the rule loop's total and fired-rule list equal the rule scan |
| Score.ScoreItem | radar/score.py:16-77 | `score_item` equals the score specification: keyword parts plus rule additions, with the evidence |
| Score.Classify | radar/score.py:79-84 | RED iff score >= red; WATCH iff watch <= score < red; GREEN iff below both |
| Score.ClassifyMonotone | radar/score.py:79-84 | with watch <= red, a higher score never gives a less severe label |
| Score.CountOccurrencesMeaning | radar/score.py:11-14 | the count is positive iff both strings are non-empty and the lowered text contains the lowered term; matches fit the text |
| Score.AggressiveDominatesStandard | radar/score.py:47-54 | with weight >= 0, aggressive mode never scores lower, and strictly higher with a title hit |
| Score.KeywordScanAppend | radar/score.py:35-56 | scanning a concatenation adds the totals and concatenates the evidence |
| Score.SkippedKeywordAddsNothing | radar/score.py:36-45 | a keyword with an empty term or no occurrence changes neither total nor evidence |
| Score.KeywordEvidenceIsUncapped | radar/score.py:54-56 | every occurring keyword is recorded with its total count, whether capped or not, in either mode |
| Score.PartSign | radar/score.py:47-54 | a non-negative weight never lowers the score; a positive one that occurs raises it |
| Score.KeywordScanNonNegative | radar/score.py:35-56 | non-negative weights give a non-negative keyword total |
| Score.KeywordScanZeroIff | radar/score.py:35-56 | with positive weights the keyword total is 0 iff no keyword is recorded |
| Score.PatternHitsPositiveIff | radar/score.py:65-71 | some hit iff some pattern hits |
| Score.PatternHitsAllIff | radar/score.py:65-71 | hits equal the pattern count iff every pattern hits |
| Score.RuleFiresIff | radar/score.py:65-71 | an "any" rule fires iff some pattern hits; any other mode needs patterns, all of them hitting |
| Score.EmptyPatternBlocksAllRule | radar/score.py:66-71 | one pattern that is empty after stripping blocks every non-"any" rule |
| Score.RuleScanRecordsAdditions | radar/score.py:72-75 | the rule scan records exactly the fired rules with their additions, and its total is their sum |
| Score.RuleScanNonNegative | radar/score.py:58-75 | non-negative weights give a non-negative rule total |
| Score.RuleScanZeroIff | radar/score.py:58-75 | with positive weights the rule total is 0 iff no rule fired |
| Score.ScoreNonNegative | radar/score.py:16-77 | non-negative weights give a non-negative score |
| Score.ScoreZeroIffNoEvidence | radar/score.py:16-77 | with positive weights the score is 0 iff nothing was matched |
| Rules.AllOf | radar/score.py:35-39 | element-wise conversion succeeds iff every element converts, with the results in order |
| Rules.SourceRulesIff | radar/score.py:35-63 | a source's rules read iff every keyword and every rule entry reads, one result per entry |
| Rules.TermlessKeyword | radar/score.py:36-38 | a keyword without a term reads and yields nothing |
| Rules.TypedKeyword | radar/score.py:36-39 | a string term and an integer weight read as the stripped term and that weight |
| Rules.BadWeight | radar/score.py:39 | a weight `int()` rejects fails the reading once the term is non-empty |
| Rules.RuleWithoutPatterns | radar/score.py:61-71 | a rule with missing or falsy patterns has none and never fires |
| Rules.StringPatterns | radar/score.py:61-67 | a string given as patterns is iterated character by character |
| Values.StrOf | radar/config.py:50 | `str()` succeeds on scalars and leaves a string unchanged |
| Values.IntRoundTrip | radar/config.py:51 | `int(str(i)) == i` |
| Values.NoDigitNoInt | radar/config.py:51 | a string without digits is rejected by `int()` |
| Extract.LeadParagraphs | radar/extract.py:22-38 | the chunk/buf loop of `lead_paragraphs` equals `Lead` |
| Extract.LeadShape | radar/extract.py:22-38 | "" gives ""; otherwise the result joins the first n non-empty, newline-free paragraphs with a blank line, each one a block of lines joined by spaces |
| Extract.ParagraphsAreJoinedBlocks | radar/extract.py:25-37 | the paragraphs are the blocks (maximal runs of non-blank lines) joined by spaces |
| Extract.BlankLineAddsNoBlock | radar/extract.py:28-33 | a blank line never adds a paragraph, however many follow each other |
| Extract.FlattenBlocks | radar/extract.py:27-36 | laid end to end, the blocks are exactly the stripped non-blank lines |
| Extract.ScanMatchesBlocks | radar/extract.py:27-36 | the line walk's `buf` is the open block and `chunks` the joined closed blocks |
| Extract.CleanTextFacts | radar/extract.py:15-18 | the clean-up gives None iff the text is missing or all blank; otherwise its lines are the stripped non-blank lines, all clean |
| Extract.LeadOfCleanedText | radar/extract.py:15-38 | cleaned text is one paragraph: its lead is all its lines joined by spaces |
| Items.WithLabel | radar/telegram.py:6-8 | a partition holds only items of its label, and no more items than the input |
| Items.PartitionCount | radar/render.py:7-9 | the three partitions and the unknown-label items account for every item exactly once |
| Items.WithLabelMembers | radar/telegram.py:6-8 | an item is in a partition iff it is an input item with that label |
| Sorting.SortByFacts | radar/run.py:222 | the sort's result is sorted by the key and is a permutation of the input |
| Sorting.SortByStable | radar/run.py:222 | items with equal keys keep their relative order |
| State.SeenIn | radar/state.py:19-20 | true iff the key is in the records; undefined (None) only for a truthy non-dictionary `seen` |
| State.RadarState.Default | radar/state.py:11 | the default state: version 1, empty `seen`, no last-sent date |
| State.RadarState.IsSeen | radar/state.py:19-20 | `is_seen` on the object equals `SeenIn` of its `seen` field |
| State.RadarState.MarkSeen | radar/state.py:22-27 | `seen` becomes the upserted slot, or is unchanged when `mark_seen` raises; other fields unchanged |
| State.RadarState.PruneSeen | radar/state.py:29-48 | `seen` and the removed count are the pruned slot and its count; other fields unchanged |
| State.RadarState.GetLastSentDate | radar/state.py:50-54 | the stored date, None when `telegram` is not a dictionary |
| State.RadarState.SetLastSentDate | radar/state.py:56-58 | the date is stored and read back, unless `telegram` is not a dictionary; other fields unchanged |
| State.CollectExpired | radar/state.py:35-45 | the collecting loop finds exactly the expired keys |
| State.DeleteKeys | radar/state.py:46-47 | the deleting loop removes exactly the collected keys |
| State.MarkedFacts | radar/state.py:22-27 | the key is present; `first_seen` kept or set to now; `last_seen` now; meta overlaid on old meta; other records untouched |
| State.MarkedIdempotent | radar/state.py:22-27 | marking twice at the same instant equals marking once |
| State.MarkSlotThenSeen | radar/state.py:19-27 | marking succeeds iff `seen` is absent or a dictionary, and afterwards the key is seen |
| State.PrunedFacts | radar/state.py:29-48 | a record survives iff it has not expired, survivors are unchanged, and removed plus kept is the old count |
| State.PruneKeeps | radar/state.py:38-43 | a record with no usable timestamp, or one within the window, is kept |
| State.PruneIdempotent | radar/state.py:29-48 | pruning again at the same cutoff removes nothing and changes nothing |
| State.PruneOtherSlot | radar/state.py:30-33 | a truthy non-dictionary `seen` is reset to empty with 0 removed |
| State.PruneDecidesMembership | radar/state.py:19-33 | after a prune, `is_seen` is defined for every key |
| State.SetThenGet | radar/state.py:50-58 | setting the date succeeds iff `telegram` is not another value, and then reading gives that date |
| Config.Must | radar/config.py:34-37 | succeeds iff the value is a mapping with the key, and returns that key's value |
| Config.MessageNamesKey | radar/config.py:36 | the error message quotes the key and ends with the context path |
| Config.LoadSources | radar/config.py:63-76 | the enumerate loop over the sources equals `ParseSources` |
| Config.LoadConfig | radar/config.py:39-78 | `load_config` on a parsed document equals `ConfigOf` |
| Config.TryEachFacts | radar/config.py:65-76 | loading succeeds iff every source parses, with one record per source, in order |
| Config.FirstErrorReported | radar/config.py:65-76 | with an earlier source failing, the load reports the first failing source's error |
| Config.ErrorPersists | radar/config.py:65-76 | a failing prefix makes the whole list fail with the same error |
| Config.SourcesFacts | radar/config.py:63-76 | sources load iff each one does; the result lists them in order; the first failure is what is reported |
| Config.SourceWithoutId | radar/config.py:66-72 | a source's keys are required in the order id, name, url, policy: once the earlier ones read, a missing key fails with `Missing required key '<key>' in root.sources[i].<key>` |
| Config.EmptyDocument | radar/config.py:41-43 | an empty or falsy document fails for the missing `global` |
| Config.FirstMissingSection | radar/config.py:43-47 | the first missing section among thresholds, request, dedupe, digest is the one reported |
| Config.MustMissing | radar/config.py:35-36 | a key missing from a mapping is reported as missing, before `str()` or `int()` runs |
| Config.FirstMissingField | radar/config.py:49-58 | the nine required fields are read in the order mode, watch, red, full_text_scope, timeout_sec, user_agent, max_feed_items_per_source, keep_days, max_items_per_section: once the earlier ones read and convert, a missing one is the error reported, with its own context path |
| Config.FirstMissingGlobalField | radar/config.py:43-58 | for a document whose `global` block has its four sections, `load_config` reports that first missing field |
| Config.MissingMode | radar/config.py:50 | a missing `mode` is reported as `root.global.mode` |
| Config.MissingWatch | radar/config.py:50-51 | after `mode` reads, a missing `watch` is reported as `root.global.thresholds.watch` |
| Config.MissingRed | radar/config.py:50-52 | after `mode` and `watch`, a missing `red` is reported as `root.global.thresholds.red` |
| Config.MissingScope | radar/config.py:50-53 | after the three before it, a missing `full_text_scope` is reported with its path |
| Config.MissingTimeout | radar/config.py:50-54 | after the four before it, a missing `timeout_sec` is reported with its path |
| Config.MissingUserAgent | radar/config.py:50-55 | after the five before it, a missing `user_agent` is reported with its path |
| Config.MissingMaxFeed | radar/config.py:50-56 | after the six before it, a missing `max_feed_items_per_source` is reported with its path |
| Config.MissingKeepDays | radar/config.py:50-57 | after the seven before it, a missing `keep_days` is reported with its path |
| Config.MissingMaxItems | radar/config.py:50-58 | after the eight before it, a missing `max_items_per_section` is reported with its path |
| Config.GlobalComplete | radar/config.py:43-58 | a loaded global block had every required section and key |
| Config.FieldsPresent | radar/config.py:50-58 | reading the global fields succeeded only if every required field was present |
| Config.LimitsPresent | radar/config.py:54-58 | the request, dedupe and digest fields read only if present |
| Config.ConfigStages | radar/config.py:43-78 | a successful load had a good global block and a `sources` key, and its global settings are that block's |
| Config.SourceListsDefault | radar/config.py:73-74 | absent `keywords` or `context_rules` give empty lists |
| Config.SourceKeys | radar/config.py:69-72 | a loaded source had id, name, url and policy |
| Config.LoadedIsComplete | radar/config.py:43-78 | a loaded document is complete and every listed source had its four required keys |
| Config.GreenDefaults | radar/config.py:59-60 | without the flags, GREEN is in the report and not in the digest |
| Config.SourceStripped | radar/config.py:69-72 | a source's four strings are stripped |
| Config.GlobalFieldsStripped | radar/config.py:50-53 | mode and full_text_scope are stripped |
| Config.LimitsKeep | radar/config.py:54-60 | the remaining fields keep mode, thresholds and scope, take the user agent verbatim, and default the green flags |
| Config.GlobalOfFacts | radar/config.py:43-61 | the user agent and both green flags come from the request and digest sections as read |
| Config.GlobalStripped | radar/config.py:49-61 | the loaded mode and scope are stripped |
| Config.SourcesStripped | radar/config.py:65-76 | every loaded source's strings are stripped |
| Config.ConfigStripped | radar/config.py:43-78 | every string the loader strips is stripped in the result |
| Config.UserAgentVerbatim | radar/config.py:55 | the user agent is not stripped: it is the configured string exactly |
| Config.GlobalOfLookups | radar/config.py:43-61 | given the lookups, the global settings are exactly the converted values, mode and scope stripped |
| Config.SampleGlobal | radar/config.py:43-61 | a concrete global block with " aggressive " mode loads with the mode stripped and the defaults filled |
| Config.AnyThresholdsLoad | radar/config.py:39-78 | any pair of thresholds loads unchanged from an otherwise fixed document |
| Telegram.OneLineTitle | radar/telegram.py:20 | the title has no newline |
| Telegram.TitleLine | radar/telegram.py:11 | helper for `Telegram.SectionOnlyTag`: the header line starts with the satellite emoji, so it is no section tag |
| Telegram.CountsLine | radar/telegram.py:12 | helper for `Telegram.SectionOnlyTag` and the numbered-line lemmas: the counts line starts with "N", so it is neither a tag nor numbered |
| Telegram.EntryHead | radar/telegram.py:22 | helper for `Telegram.EntriesHeads`: an item's head line starts with a digit, so `NumberedLines` picks it out |
| Telegram.LinkLine | radar/telegram.py:23-24 | helper for `Telegram.EntriesHeads`: the link line starts with a space, so it is not numbered |
| Telegram.OverflowLine | radar/telegram.py:26 | helper for `Telegram.SectionNumbering` and `Telegram.SectionOnlyTag`: the overflow line starts with the ellipsis, so it is neither numbered nor a tag |
| Telegram.Truncate | radar/telegram.py:37-38 | a message within 3800 characters is unchanged; a longer one is 3800 + 13 characters, its first 3800 followed by the marker "\n…(truncated)" |
| Telegram.AppendEntries | radar/telegram.py:19-24 | the enumerate loop appends each shown item's lines, numbered from 1 |
| Telegram.AddSection | radar/telegram.py:15-27 | `add_section` appends exactly the section's lines |
| Telegram.BuildDigestMessage | radar/telegram.py:5-39 | the message equals `Digest`: header, sections, footer, joined and capped |
| Telegram.EntriesHeads | radar/telegram.py:19-24 | each listed item yields exactly one numbered line, its head |
| Telegram.SectionNumbering | radar/telegram.py:15-27 | a section's numbered lines are the heads of its first maxItems items |
| Telegram.SectionListsAtMost | radar/telegram.py:19 | with maxItems >= 0 a section lists min(maxItems, its size) items |
| Telegram.SectionInOrder | radar/telegram.py:19-22 | the k-th listed item is the k-th of its partition, numbered k+1 |
| Telegram.SectionOnlyTag | radar/telegram.py:15-27 | a section's tag is its only tag line |
| Telegram.SectionOverflow | radar/telegram.py:25-26 | the "… and K more" line appears iff the partition exceeds maxItems |
| Telegram.SectionPresence | radar/telegram.py:15-32 | RED and WATCH tags appear iff those partitions are non-empty; GREEN also needs the flag |
| Telegram.HeaderCounts | radar/telegram.py:6-12 | the three label counts never exceed the item count |
| Telegram.TruncateBound | radar/telegram.py:37-38 | the message is at most 3800 characters plus the marker, and starts like the full text |
| Render.HeadingLine | radar/render.py:14 | helper for `Render.ItemHeadingAt` and `Render.UpperLinesShape`: an item heading starts with "### " |
| Render.SectionHeading | radar/render.py:12 | helper for `Render.SectionStartsWithHeading`: the section heading starts with "## " |
| Render.HeaderParts | radar/render.py:32-36 | the header has five lines, the fourth holding the total and the three label counts |
| Render.SectionParts | radar/render.py:37-40 | RED and WATCH sections always, GREEN last and only when enabled, each over its partition |
| Render.AppendIfPresent | radar/render.py:16-20 | an optional line is appended only when its field is non-empty |
| Render.AppendExcerpt | radar/render.py:22-26 | the excerpt block is appended only when there is an excerpt |
| Render.AppendItem | radar/render.py:14-28 | the loop body appends exactly the item's lines |
| Render.Section | radar/render.py:11-29 | `section` equals the section text: heading with count, blank, items numbered from 1 |
| Render.RenderDailyMarkdown | radar/render.py:5-41 | the report equals `Markdown` |
| Render.EmptySection | radar/render.py:11-12 | an empty section is still emitted, with count 0 |
| Render.SectionStartsWithHeading | radar/render.py:11-12 | a section text starts with its heading and a newline |
| Render.MarkdownLayout | radar/render.py:31-41 | seven top-level parts, or eight with GREEN; the counts line; then the sections |
| Render.MissingPolicyShowsRssOnly | radar/render.py:18 | an item without a policy shows RSS_ONLY |
| Render.UpperLinesShape | radar/render.py:14-20 | heading and source always; the published line only when published is set; the policy line; matches only when set |
| Render.LowerLinesShape | radar/render.py:21-28 | the excerpt block is present iff there is an excerpt, then the rule and a blank |
| Render.ItemHeadingAt | radar/render.py:13-14 | the k-th item's lines start with its heading numbered k+1 |
| Render.UnknownLabelInNoSection | radar/render.py:7-9 | an item with an unknown label is counted but in no section |
| Run.KeyChoice | radar/run.py:46-51 | the key comes from the id, else the link, else the title: entries agreeing on the chosen field share a key |
| Run.ExtractedTextFacts | radar/run.py:108-116 | no link or a failed fetch gives no text; text is truthy whenever present; its lead is all its lines joined |
| Run.ScoreLead | radar/run.py:156-165 | the LEAD branch with text equals `LeadOutcome` |
| Run.ScoreFull | radar/run.py:167-187 | the FULL_TEXT branch with text equals `FullOutcome` |
| Run.EvaluateEntry | radar/run.py:139-190 | the policy ladder equals `Evaluate` on the extracted text |
| Run.RssOnlyIff | radar/run.py:149-190 | RSS_ONLY is reported iff the policy reads no page or there is no text, and then the RSS-only outcome stands, with the excerpt at most 1200 characters |
| Run.FullTextIff | radar/run.py:167-187 | FULL_TEXT is reported iff asked for, with text, and the scope is ALL or the lead scores RED; its excerpt is the text's first 2500 characters |
| Run.FullTextFallsBackToLead | radar/run.py:176-185 | a non-escalated FULL_TEXT entry is exactly the LEAD outcome |
| Run.ScoredBody | radar/run.py:139-187 | the score always comes from title, summary and (with page text) the lead, and the label agrees with it |
| Run.PolicyUsedKnown | radar/run.py:149-190 | only the three policy names are reported |
| Run.ExtractedPageScoredWhole | radar/run.py:156-180 | with a page policy and extracted text, the scored body is the whole text with lines joined by spaces |
| Run.TopFacts | radar/run.py:68-71 | the top of a list is the first min(5, n) of its stable sort, ranked at or above the rest |
| Run.TopKeywordsRanked | radar/run.py:68 | at most five keywords are shown, by weight and then count descending, all taken from the evidence |
| Run.TopRulesRanked | radar/run.py:71 | at most five rules are shown, by addition descending |
| Run.CompactEmptyIff | radar/run.py:65-73 | the summary is empty iff there is no evidence |
| Run.CompactBoth | radar/run.py:65-73 | with both kinds, the keyword part, " \| ", then the rule part |
| Run.MakeItemFacts | radar/run.py:192-204 | an item always has a title, a known label matching its outcome, the outcome's score and policy, and matches iff evidence |
| Run.MetaFacts | radar/run.py:206-213 | the stored metadata has the six fields, the title and link cut to 200 and 500 characters |
| Run.ProcessEntry | radar/run.py:128-218 | processing one entry on the object equals `StepOf` on its old `seen` |
| Run.CollectSource | radar/run.py:126-218 | the loop over one source's entries equals the fold of the step over them |
| Run.CollectItems | radar/run.py:118-218 | the loop over all sources equals the fold of the step over all examined entries in order |
| Run.RunMain | radar/run.py:94-267 | the store is the fold over the pruned store; items are the sorted new items; the report and the gate are their functions; `telegram` changes only on a recorded send |
| Run.SourceJobsExamined | radar/run.py:120-127 | a failed feed contributes nothing; a fetched one contributes the entries of `entries[:maxFeed]` in feed order: the first maxFeed for a non-negative bound, all but the last -maxFeed for a negative one |
| Run.SeenEntrySkipped | radar/run.py:129-131 | a recorded key is skipped and changes nothing, not even its `last_seen` |
| Run.StepKeepsRecords | radar/run.py:128-218 | a step never removes a record; with an unusable store it does nothing |
| Run.StepConsistent | radar/run.py:128-218 | one key per item, no key twice, and every key recorded are kept by a step |
| Run.FoldConsistent | radar/run.py:118-218 | the same bookkeeping holds after any sequence of steps |
| Run.NoKeyTwice | radar/run.py:118-218 | within a run no key yields two items, and every emitted key is recorded in the final store |
| Run.FoldItemsBound | radar/run.py:118-218 | a run emits at most one item per examined entry, after the items it started with |
| Run.SettledSkips | radar/run.py:129-131 | a settled entry is skipped |
| Run.StepSettles | radar/run.py:128-218 | a step settles its own entry and keeps every settled entry settled |
| Run.FoldSettled | radar/run.py:118-218 | after a run every examined entry is settled |
| Run.SettledFoldNoop | radar/run.py:118-218 | a run over settled entries changes nothing |
| Run.RerunEmitsNothing | radar/run.py:118-218 | running the same entries again over the resulting store, at any date and time, emits nothing and changes nothing |
| Run.SortItemsFacts | radar/run.py:221-222 | the sort is a permutation ordered by label rank then score descending, stable among equal keys |
| Run.RedFirst | radar/run.py:221-222 | RED items come first, unknown labels last |
| Run.GateAttemptIff | radar/run.py:241-267 | a send is attempted iff enabled with token and chat id, not yet sent for the date, and with items; the message is the capped digest; a send is recorded iff `telegram` is a dictionary or absent |
| Run.SecondRunSameDaySkips | radar/run.py:245-249 | after a recorded send, a later run on the same date never sends again |
| Run.UnrecordedSendRepeats | radar/run.py:247-261 | when `telegram` is not a dictionary, a successful send is not recorded (`set_last_sent_date` raises), so the cooldown does not hold |
| Run.SendDefaultsOff | radar/run.py:94-97 | without the variable or argument, no digest is sent |
| Run.SendArgumentWins | radar/run.py:94-97 | the argument overrides the variable |
| Run.SendPaddedYes | radar/run.py:96-97 | " Yes " turns sending on |

## Left out

- File and network I/O are inputs, not modelled operations:
  - loading and saving `state.json`;
  - writing the Markdown file;
  - log lines;
  - fetching feeds and pages;
  - posting to Telegram.
- Feeds arrive as `FeedOutcome`s, the page of each entry as a `PageFetch`, and whether the post succeeded as `sendOk`.
- The clock is a parameter:
  - `now` is the one instant a run uses for pruning and marking, where the source reads the clock again on every call;
  - `generated` is the report time.
- The environment variables are parameters: `SEND_TELEGRAM`, `TELEGRAM_BOT_TOKEN`, `TELEGRAM_CHAT_ID`.
- The fetch module and the article extraction library are not part of this model. The extractor's output is an `Option<string>` input, and only its clean-up is modelled.
- SHA-1 is left symbolic: a key is `Sha1Hex(base)`, so two keys are equal exactly when their bases are. Hash collisions are not modelled.
- YAML parsing is not modelled; the document arrives as a `Json` value.
- `str()` of a list or mapping is not modelled: it is a failed conversion.
- YAML floats are not represented in `Json`; Python's `int()` would truncate them. `Values.ParseInt` also rejects digit-group underscores, so `"1_000"` fails, where Python's `int("1_000")` is 1000.
- `list()` of a non-empty mapping, which would give its keys, is not modelled.
- Timestamps are integer microseconds. `datetime.fromisoformat`, time zones and the `Z` replacement are not modelled: a record's `last_seen` is a value or None ("missing or unparseable"). A non-dictionary record value gets no separate case: it simply has no usable timestamp.
- An exception inside `prune_seen` (an overflowing `timedelta`, say), which `main` would log and ignore, is not modelled.
- Strings are sequences of characters. `lower`, `upper`, `strip` and `isspace` are the ASCII versions, and `splitlines` splits on "\n" only.
- Python's built-in sort is modelled by a stable insertion sort function on values. The in-place `list.sort` of `radar/run.py:222` is therefore not modelled as an in-place update.
- Config.Must: only a mapping is looked into. For a list or a string without the key, Python's `k not in d` succeeds and `_must` raises its missing-key error; the model reports `WrongType` instead. The load stops either way, and only the error differs.
- Rules.PatternsOf: a non-empty mapping given as `patterns` is iterated by its keys in `radar/score.py:66-71`, and `len` counts them, so the rule is scored. The model reads it as a failed conversion, so every entry of that source is skipped. A `Json` mapping has no key order to iterate in.
- State.SeenIn: a truthy `seen` that is not a dictionary gives None, not Python's `in` on a list or string. `main` always prunes first, which resets such a value (`State.PruneDecidesMembership`).
- Run.RunMain: when asked to send, the model does not check the outcome of `send_telegram_message` beyond the `sendOk` input. A failure of `set_last_sent_date` after a successful send is reported as `recorded == false`.
- Config.LoadConfig: the required values must be typed scalars. A `Json` list or mapping where the source would `str()` it fails as a bad value.
- The backup copies (`*_minimal_backup.py`) and the command-line parsing of `main` are not part of this model.
