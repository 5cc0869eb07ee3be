# Session memory: consolidation, generation and trace loading

This project models the deterministic core of claude-sessions-explorer, a tool
that turns transcripts of coding-agent sessions into long-lived project memory.
The pipeline has five stages.

1. **Trace loading** (`memory/extractor.py`). A session's JSON-lines transcript
   is rendered as a plain-text execution trace. Meta events and blank events are
   dropped. Text blocks come before tool blocks, tool payloads are cut at 500
   characters, and each kept event is labelled `USER` or `ASSISTANT`. The
   whole trace is then capped at `max_trace_chars`.
2. **Records** (`models.py`). Per-session extractions hold five lists:
   incidents, facts, workflows, decisions and gotchas. The consolidated
   project memory holds one entry per normalised key. Every record is a
   datatype with its defaults.
3. **Consolidation without the language model** (`memory/consolidator.py`,
   `simple_consolidate`). Items are keyed by their lower-cased, stripped text
   and merged in Python dict insertion order.
   - Incidents count occurrences, sessions and the last date.
   - Facts count frequency; confidence becomes "high" at three sightings.
   - Workflows count uses and keep the first longest step list.
   - Decisions: the last sighting wins and the key keeps its first place.
   - Gotchas count frequency and take the union of their tags.

   `consolidate_project` wraps this. It rejects an empty extraction list, picks
   the latest `extracted_at`, and uses the language model's data only when it
   is asked for and there is more than one extraction.
4. **Generation without the language model** (`memory/generator.py`).
   - The frequency filter and the stale-item filter.
   - Clean-up of a generated CLAUDE.md reply (`extract_final_markdown`).
   - The template CLAUDE.md with its top-k sections.
   - The skills dictionary.
   - The file names of task files.

### How the model is proved

`simple_consolidate` is an imperative method (`Consolidator.SimpleConsolidate`)
with one loop per extraction and one loop per category. It updates a dict
(a map beside a sequence of keys, for Python's insertion order). It is proved
equal to a fold over the flat list of "sightings", where a sighting is an item
with its session id and extraction time. Lemmas then characterise the fold
entry by entry, from the sightings that share a key.

The other loops of the source are methods proved against functions:
- the keyword loop of `filter_stale_items`;
- the line scans of `extract_final_markdown`;
- the appends of `generate_claudemd_simple`;
- the skills loop;
- the block and message loops of `load_session_trace`.

Properties are stated about those functions.

### Behaviour worth knowing

- **Consolidation depends on input order.** `simple_consolidate`
  (consolidator.py:102-113) keeps the first sighting's text and resolution
  for each key. Two sightings of one incident with different resolutions
  therefore consolidate differently in the two orders, as
  `Consolidator.ConsolidationDependsOnOrder` proves. In the program,
  `load_extractions` sorts the extractions by `extracted_at` before
  consolidation (consolidator.py:38). So inside `consolidate_project` only
  extractions with equal timestamps can appear in either order.
  `Consolidator.ConsolidateProject` takes the extractions as given and does not
  require them to be sorted. Its contract holds for any order.
- **Stale filtering drops tasks.** The docstring of `filter_stale_items`
  calls its result a cleaned copy (generator.py:31). The code builds a new
  `ProjectMemory` without passing `tasks` (generator.py:77-88), so the tasks
  are emptied whenever there are stale items. `Generator.StaleFilteredKeeps`
  states this.

## Model

| member | source | states |
|---|---|---|
| Models.NewEpisodicMemory | src/claude_sessions_explorer/models.py:6-13 | an incident record keeps its three texts and defaults to no file, severity "info" and universal scope |
| Models.NewSemanticMemory | src/claude_sessions_explorer/models.py:16-20 | a fact defaults to "medium" confidence |
| Models.NewProceduralMemory | src/claude_sessions_explorer/models.py:23-27 | a workflow keeps its steps and has no trigger by default |
| Models.NewDecision | src/claude_sessions_explorer/models.py:30-35 | a decision defaults to no alternatives and no date |
| Models.NewGotcha | src/claude_sessions_explorer/models.py:38-44 | a gotcha defaults to no cause, no solution, no tags and universal scope |
| Models.NewSessionExtraction | src/claude_sessions_explorer/models.py:47-57 | an extraction keeps its identity fields and starts with five empty lists |
| Models.NewConsolidatedEpisodic | src/claude_sessions_explorer/models.py:60-67 | a consolidated incident defaults to one occurrence, no sessions, no last date and universal scope |
| Models.NewConsolidatedSemantic | src/claude_sessions_explorer/models.py:70-75 | a consolidated fact defaults to frequency 1 and "medium" confidence |
| Models.NewConsolidatedProcedural | src/claude_sessions_explorer/models.py:78-83 | a consolidated workflow defaults to one use and no trigger |
| Models.NewConsolidatedDecision | src/claude_sessions_explorer/models.py:86-92 | a consolidated decision defaults to "active" status, no alternatives and no date |
| Models.NewConsolidatedGotcha | src/claude_sessions_explorer/models.py:95-102 | a consolidated gotcha defaults to frequency 1, no tags and universal scope |
| Models.NewActionableTask | src/claude_sessions_explorer/models.py:105-113 | a task defaults to type "fix", priority "medium", no source issue or approach, and no tags |
| Models.NewProjectMemory | src/claude_sessions_explorer/models.py:116-128 | a project memory starts with no path, zero sessions, no last session and six empty lists |
| Consolidator.SightingsIn | src/claude_sessions_explorer/memory/consolidator.py:99-100 | the items of one extraction, in order, each paired with that extraction's session id and time |
| Consolidator.KeysOf | src/claude_sessions_explorer/memory/consolidator.py:101 | the i-th key is the key of the i-th item |
| Consolidator.Values | src/claude_sessions_explorer/memory/consolidator.py:167-172 | `list(map.values())`: one value per key, in key insertion order |
| Consolidator.MatchingSnoc | src/claude_sessions_explorer/memory/consolidator.py:102 | a new sighting joins only the group of its own key |
| Consolidator.FoldOrder | src/claude_sessions_explorer/memory/consolidator.py:102-113 | the merged dict is well formed, and its keys are the distinct item keys in order of first appearance |
| Consolidator.FoldEntryAt | src/claude_sessions_explorer/memory/consolidator.py:102-113 | a key is present iff some sighting has it, and its entry is the merge of exactly the sightings with that key |
| Consolidator.FoldEntries | src/claude_sessions_explorer/memory/consolidator.py:102-113 | the same, for every key at once |
| Consolidator.EpisodicEntry | src/claude_sessions_explorer/memory/consolidator.py:100-113 | an incident keeps the first sighting's incident and resolution; occurrences equal the number of sightings; sessions list every sighting's session in order, repeats kept; last_seen is the last sighting's date; scope is universal |
| Consolidator.SemanticEntry | src/claude_sessions_explorer/memory/consolidator.py:115-127 | a fact keeps the first sighting's text and category; frequency equals the number of sightings; confidence is "high" from three sightings on, else the first sighting's |
| Consolidator.ProceduralStep | src/claude_sessions_explorer/memory/consolidator.py:131-134 | merging one more sighting preserves the workflow entry's meaning |
| Consolidator.ProceduralEntry | src/claude_sessions_explorer/memory/consolidator.py:129-141 | a workflow keeps the first sighting's name and trigger, counts one use per sighting, and holds the steps of the earliest sighting whose step list is longest |
| Consolidator.DecisionDate | src/claude_sessions_explorer/memory/consolidator.py:150 | the decision's own date unless it is missing or empty, else the first ten characters of the extraction time |
| Consolidator.DecisionEntryLast | src/claude_sessions_explorer/memory/consolidator.py:143-151 | a decision is the last sighting with its key, stored as "active" with that sighting's date |
| Consolidator.DedupConcatMembers | src/claude_sessions_explorer/memory/consolidator.py:157 | the deduplicated concatenation holds exactly the tags of either list |
| Consolidator.TagOfSnoc | src/claude_sessions_explorer/memory/consolidator.py:157 | one more sighting adds exactly its own tags to the tags seen |
| Consolidator.GotchaStep | src/claude_sessions_explorer/memory/consolidator.py:155-157 | merging one more sighting preserves the gotcha entry's meaning |
| Consolidator.GotchaEntry | src/claude_sessions_explorer/memory/consolidator.py:153-165 | a gotcha keeps the first sighting's issue, cause and solution; frequency equals the number of sightings; its tags are exactly the union of all sightings' tags, without repeats once merged |
| Consolidator.FoldNextItem | src/claude_sessions_explorer/memory/consolidator.py:100-113 | one more item of the same extraction is one more fold step |
| Consolidator.SightingsNext | src/claude_sessions_explorer/memory/consolidator.py:99 | one more extraction appends its items' sightings |
| Consolidator.MergeEpisodicItems | src/claude_sessions_explorer/memory/consolidator.py:100-113 | the incident loop of one extraction leaves the dict equal to the fold over all sightings so far |
| Consolidator.MergeSemanticItems | src/claude_sessions_explorer/memory/consolidator.py:115-127 | the same for facts |
| Consolidator.MergeProceduralItems | src/claude_sessions_explorer/memory/consolidator.py:129-141 | the same for workflows |
| Consolidator.MergeDecisionItems | src/claude_sessions_explorer/memory/consolidator.py:143-151 | the same for decisions, where reassigning a key keeps its place |
| Consolidator.MergeGotchaItems | src/claude_sessions_explorer/memory/consolidator.py:153-165 | the same for gotchas |
| Consolidator.SimpleConsolidate | src/claude_sessions_explorer/memory/consolidator.py:91-173 | the five lists returned are the values of the folds over all sightings of each category |
| Consolidator.ValuesAreEntries | src/claude_sessions_explorer/memory/consolidator.py:167-172 | the i-th value listed is the merge of the sightings with the i-th distinct key |
| Consolidator.ConsolidatedEpisodicMeaning | src/claude_sessions_explorer/memory/consolidator.py:100-113 | one incident per distinct key, in first-seen order, each with the meaning EpisodicEntry gives |
| Consolidator.ConsolidatedSemanticMeaning | src/claude_sessions_explorer/memory/consolidator.py:115-127 | one fact per distinct key, in first-seen order, each with the meaning SemanticEntry gives |
| Consolidator.ConsolidatedProceduralMeaning | src/claude_sessions_explorer/memory/consolidator.py:129-141 | one workflow per distinct key, in first-seen order, each with the meaning ProceduralEntry gives |
| Consolidator.ConsolidatedDecisionsMeaning | src/claude_sessions_explorer/memory/consolidator.py:143-151 | one decision per distinct key, in first-seen order, each the last sighting of its key |
| Consolidator.ConsolidatedGotchasMeaning | src/claude_sessions_explorer/memory/consolidator.py:153-165 | one gotcha per distinct key, in first-seen order, each with the meaning GotchaEntry gives |
| Consolidator.EveryIncidentKept | src/claude_sessions_explorer/memory/consolidator.py:100-113 | every incident of every extraction has its key among the consolidated keys |
| Consolidator.SightingOfItem | src/claude_sessions_explorer/memory/consolidator.py:99-100 | every item of every extraction appears among the sightings |
| Consolidator.ConsolidationDependsOnOrder | src/claude_sessions_explorer/memory/consolidator.py:102-113 | two sightings of one incident with different resolutions consolidate differently in the two orders |
| Consolidator.FirstResolutionKept | src/claude_sessions_explorer/memory/consolidator.py:102-109 | two sightings of one incident give one entry carrying the first sighting's resolution |
| Consolidator.TwoSightings | src/claude_sessions_explorer/memory/consolidator.py:99-100 | two one-incident extractions give exactly those two sightings, in order |
| Consolidator.SameKeyTwice | src/claude_sessions_explorer/memory/consolidator.py:101-102 | two sightings with one key give a single key whose group is both, in order |
| Consolidator.LatestExtractedAt | src/claude_sessions_explorer/memory/consolidator.py:187 | the result is the extraction time of some extraction, and no extraction time is greater |
| Consolidator.LaterStillLatest | src/claude_sessions_explorer/memory/consolidator.py:187 | a time above the maximum is above every extraction time |
| Consolidator.LatestIsUnique | src/claude_sessions_explorer/memory/consolidator.py:187 | any two maximal extraction times are equal, so the last session is determined |
| Consolidator.ConsolidateProject | src/claude_sessions_explorer/memory/consolidator.py:176-199 | an error naming the project iff there are no extractions; otherwise the count, the latest time, the clock's time and no tasks; the model's data iff it is asked for and there is more than one extraction, else the simple consolidation |
| Generator.AtLeastMembers | src/claude_sessions_explorer/memory/generator.py:366-370 | an item survives the threshold iff it was present and its count reaches the threshold |
| Generator.FilterLowFrequencyItems | src/claude_sessions_explorer/memory/generator.py:355-372 | the identity fields, decisions and tasks are unchanged; incidents, facts, workflows and gotchas are kept iff their count reaches the minimum |
| Generator.FilterThresholds | src/claude_sessions_explorer/memory/generator.py:366-370 | filtering at one threshold and then another equals filtering once at the larger |
| Generator.FilterLowFrequencyTwice | src/claude_sessions_explorer/memory/generator.py:355-372 | filtering the memory twice equals filtering once at the larger minimum, so the filter is idempotent |
| Generator.RaisedSnoc | src/claude_sessions_explorer/memory/generator.py:40-45 | one more issue raises exactly the words it mentions |
| Generator.AddIssueKeywords | src/claude_sessions_explorer/memory/generator.py:41-45 | the keywords grow by exactly the issue words this issue raises |
| Generator.StaleKeywords | src/claude_sessions_explorer/memory/generator.py:37-45 | the keywords are the five base keywords plus each issue word that a stale error's description mentions |
| Generator.FilterStaleItems | src/claude_sessions_explorer/memory/generator.py:28-88 | the result is the stale-filtered memory |
| Generator.StaleFilteredKeeps | src/claude_sessions_explorer/memory/generator.py:28-88 | without stale items the memory is returned unchanged; otherwise identity fields and facts are kept, tasks are emptied, and incidents, gotchas, workflows and decisions are kept iff none of their texts mentions a keyword (and incidents and gotchas are not environment-specific) |
| Generator.BaseKeywordsAlwaysDropped | src/claude_sessions_explorer/memory/generator.py:37-56 | an incident mentioning a base keyword, or environment-specific, never survives |
| Generator.StaleFilteredIdempotent | src/claude_sessions_explorer/memory/generator.py:28-88 | filtering twice with the same verification equals filtering once |
| Generator.ReplyLines | src/claude_sessions_explorer/memory/generator.py:93 | a reply always splits into at least one line |
| Generator.LinesFrom | src/claude_sessions_explorer/memory/generator.py:114-143 | rejoined lines come back stripped |
| Generator.ExtractFinalMarkdown | src/claude_sessions_explorer/memory/generator.py:91-143 | the result is the cleaned reply with the summary marks as written (garbled check mark included), and it never starts or ends with white space |
| Generator.FindProjectHeading | src/claude_sessions_explorer/memory/generator.py:114-118 | the index of the first line that is a "# " heading without a summary word, or none |
| Generator.FindTitleLine | src/claude_sessions_explorer/memory/generator.py:123-141 | the index of the first non-blank, non-preamble "#" line that is no shebang and has no summary word, else 0 |
| Generator.CutAtHeading | src/claude_sessions_explorer/memory/generator.py:114-143 | cutting at a heading line gives a text that starts with "#" |
| Generator.WholeReply | src/claude_sessions_explorer/memory/generator.py:143 | keeping every line gives back the stripped reply |
| Generator.ProjectHeadingStart | src/claude_sessions_explorer/memory/generator.py:117 | a project heading's stripped text starts with "#" |
| Generator.TitleLineStart | src/claude_sessions_explorer/memory/generator.py:137 | a title line's stripped text starts with "#" |
| Generator.SummaryWithoutHeading | src/claude_sessions_explorer/memory/generator.py:111-120 | a summary-like reply without a project heading gives the failure text |
| Generator.SummaryCutAtHeading | src/claude_sessions_explorer/memory/generator.py:111-118 | a summary-like reply is cut at its first project heading, and the result starts with "#" |
| Generator.ReplyCutAtTitle | src/claude_sessions_explorer/memory/generator.py:123-143 | any other reply is cut at its first title line, and the result starts with "#" |
| Generator.ReplyWithoutTitle | src/claude_sessions_explorer/memory/generator.py:123-143 | any other reply without a title line is returned whole, stripped |
| Generator.CheckmarkReplyShape | src/claude_sessions_explorer/memory/generator.py:93-110 | the one-line checkmark reply is its own lower case, its own strip and a single line |
| Generator.CheckmarkNotPreamble | src/claude_sessions_explorer/memory/generator.py:129-135 | the checkmark reply is no preamble |
| Generator.CheckmarkTitleHeading | src/claude_sessions_explorer/memory/generator.py:137-139 | the checkmark reply passes the title-heading test |
| Generator.CheckmarkIsTitle | src/claude_sessions_explorer/memory/generator.py:124-141 | the checkmark reply is a title line |
| Generator.CheckmarkNotSummaryAsWritten | src/claude_sessions_explorer/memory/generator.py:96-111 | with the patterns as written, the checkmark reply is not recognised as a summary |
| Generator.CheckmarkSummaryKeptAsWritten | src/claude_sessions_explorer/memory/generator.py:91-143 | as written, the checkmark summary is returned as if it were the document |
| Generator.CheckmarkSummaryDetected | src/claude_sessions_explorer/memory/generator.py:96-111 | with the corrected pattern, any reply starting with the checkmark heading looks like a summary |
| Generator.CheckmarkSummaryRejected | src/claude_sessions_explorer/memory/generator.py:96-120 | with the corrected pattern, the checkmark reply gives the failure text |
| Generator.StepLines | src/claude_sessions_explorer/memory/generator.py:306-307 | one numbered line per step |
| Generator.AppendEach | src/claude_sessions_explorer/memory/generator.py:292-293 | the loop appends one rendered line per item, in order |
| Generator.AppendSteps | src/claude_sessions_explorer/memory/generator.py:306-307 | the loop appends the numbered step lines |
| Generator.AppendWorkflow | src/claude_sessions_explorer/memory/generator.py:305-308 | one workflow adds its heading, its steps and a blank line |
| Generator.AppendWorkflows | src/claude_sessions_explorer/memory/generator.py:304-308 | the loop appends every workflow's lines, in order |
| Generator.AppendSection | src/claude_sessions_explorer/memory/generator.py:290-294 | a section is its heading, a blank line, its items and a blank line when present, else nothing |
| Generator.AppendWorkflowsSection | src/claude_sessions_explorer/memory/generator.py:302-308 | the workflows section is added only when there are workflows |
| Generator.GenerateClaudemdSimple | src/claude_sessions_explorer/memory/generator.py:280-324 | the text is the template document for the memory and the day |
| Generator.NoHeadingsInHeader | src/claude_sessions_explorer/memory/generator.py:282-288 | the document header holds no section heading |
| Generator.SectionHeadings | src/claude_sessions_explorer/memory/generator.py:290-294 | a section's only heading is its own, and only when it is present |
| Generator.ErrorsHeadings | src/claude_sessions_explorer/memory/generator.py:290-294 | the errors section holds its heading iff there are incidents |
| Generator.ConventionsHeadings | src/claude_sessions_explorer/memory/generator.py:296-300 | the conventions section holds its heading iff there are facts |
| Generator.DecisionsHeadings | src/claude_sessions_explorer/memory/generator.py:310-315 | the decisions section holds its heading iff there are decisions |
| Generator.GotchasHeadings | src/claude_sessions_explorer/memory/generator.py:317-322 | the gotchas section holds its heading iff there are gotchas |
| Generator.WorkflowLinesNoHeading | src/claude_sessions_explorer/memory/generator.py:305-308 | a workflow's own "###" and step lines are no section headings |
| Generator.LeadingHeading | src/claude_sessions_explorer/memory/generator.py:303 | a heading followed by heading-free lines contributes just itself |
| Generator.NoHeadingsInWorkflowLines | src/claude_sessions_explorer/memory/generator.py:304-308 | all workflows' lines together hold no section heading |
| Generator.NoHeadingsInWorkflows | src/claude_sessions_explorer/memory/generator.py:302-308 | the workflows section holds its heading iff there are workflows |
| Generator.ClaudeMdSections | src/claude_sessions_explorer/memory/generator.py:280-324 | among the document's lines (before they are joined), the section headings are exactly those of the non-empty categories, in the fixed order |
| Generator.ClaudeMdPicksTop | src/claude_sessions_explorer/memory/generator.py:290-322 | each section lists at most 10, 15, 5 and 10 items by descending count, and none left out counts more than one listed; decisions are the first 10 |
| Generator.ClaudeMdTiesInOrder | src/claude_sessions_explorer/memory/generator.py:290-322 | items with equal counts keep their memory order (the sort is stable) |
| Generator.StepNumbering | src/claude_sessions_explorer/memory/generator.py:306-307 | the i-th step line is the number i+1, ". " and the step |
| Generator.SkillName | src/claude_sessions_explorer/memory/generator.py:335-336 | a skill name holds only lower-case letters, digits and "-" |
| Generator.BuildSkillContent | src/claude_sessions_explorer/memory/generator.py:338-350 | the skill text is the rendered skill of the workflow |
| Generator.GenerateSkillsSimple | src/claude_sessions_explorer/memory/generator.py:327-352 | the dictionary is the skills of the memory's workflows |
| Generator.SkillsKeys | src/claude_sessions_explorer/memory/generator.py:331-350 | a name is a key iff some workflow used at least twice has that name |
| Generator.SkillsLastWins | src/claude_sessions_explorer/memory/generator.py:350 | a name holds the skill of the last qualifying workflow with that name |
| Generator.SkillTrigger | src/claude_sessions_explorer/memory/generator.py:338-348 | a truthy trigger ends the skill with a "When to Use" section, else the skill is name, steps header and steps only |
| Generator.SkillNameIdempotent | src/claude_sessions_explorer/memory/generator.py:335-336 | naming a skill name again changes nothing |
| Generator.Pad2 | src/claude_sessions_explorer/memory/generator.py:464 | the number is written with at least two digits |
| Generator.Pad2Value | src/claude_sessions_explorer/memory/generator.py:464 | the padded digits read back as the number |
| Generator.SafeTitle | src/claude_sessions_explorer/memory/generator.py:461-463 | a sanitised title is at most 40 characters of lower-case letters, digits and "-" |
| Generator.SafeTitleIdempotent | src/claude_sessions_explorer/memory/generator.py:461-463 | sanitising again changes nothing |
| Generator.TaskFileNameIndex | src/claude_sessions_explorer/memory/generator.py:459-464 | a task file name starts with its task's one-based number, then "-" |
| Generator.TaskFileNamesDistinct | src/claude_sessions_explorer/memory/generator.py:459-464 | different tasks never get the same file name, whatever their titles |
| Extractor.Truncate | src/claude_sessions_explorer/memory/extractor.py:75-83 | a payload over 500 characters becomes its first 500 and "..."; a shorter one is kept |
| Extractor.TruncateIdempotent | src/claude_sessions_explorer/memory/extractor.py:76-82 | shortening twice equals shortening once |
| Extractor.RenderBlocks | src/claude_sessions_explorer/memory/extractor.py:64-85 | the block loop renders the text parts, then the tool parts, joined by newlines |
| Extractor.BlockPartsConcat | src/claude_sessions_explorer/memory/extractor.py:67-83 | the parts of concatenated blocks are the concatenated parts |
| Extractor.BlockPartsSplit | src/claude_sessions_explorer/memory/extractor.py:67-83 | the same for three pieces |
| Extractor.IgnoredBlock | src/claude_sessions_explorer/memory/extractor.py:67-83 | a non-dict block or a block of another type changes nothing |
| Extractor.SwappedPair | src/claude_sessions_explorer/memory/extractor.py:69-83 | a tool block and a text block yield the same parts in either order |
| Extractor.TextBeforeTools | src/claude_sessions_explorer/memory/extractor.py:85 | swapping a tool block with a following text block leaves the content unchanged |
| Extractor.Parsed | src/claude_sessions_explorer/memory/extractor.py:48-54 | the decoded events are among the lines and no more numerous |
| Extractor.ParsedConcat | src/claude_sessions_explorer/memory/extractor.py:50-54 | decoding line by line distributes over concatenation |
| Extractor.UnparsableSkipped | src/claude_sessions_explorer/memory/extractor.py:53-54 | an undecodable line is skipped without a trace |
| Extractor.DecodedMessages | src/claude_sessions_explorer/memory/extractor.py:48-54 | the decoding loop keeps the decodable lines, in order |
| Extractor.RenderMessage | src/claude_sessions_explorer/memory/extractor.py:57-91 | an event yields its labelled part iff it is not meta and its content is not blank |
| Extractor.LoadSessionTrace | src/claude_sessions_explorer/memory/extractor.py:46-93 | the trace is the labelled parts of the kept events, joined by blank lines |
| Extractor.TracePartsConcat | src/claude_sessions_explorer/memory/extractor.py:57-91 | the parts of concatenated events are the concatenated parts |
| Extractor.DroppedMessage | src/claude_sessions_explorer/memory/extractor.py:57-88 | a meta or blank event adds nothing to the trace |
| Extractor.KeptMessage | src/claude_sessions_explorer/memory/extractor.py:87-91 | any other event adds exactly its own part, in place |
| Extractor.NoBreakSpaceDropped | src/claude_sessions_explorer/memory/extractor.py:87-88 | an event whose content is only a no-break space is dropped, as `str.strip()` treats it as white space |
| Extractor.PartsFromKeptEvents | src/claude_sessions_explorer/memory/extractor.py:57-91 | every part of the trace is the part of a kept event of the session |
| Extractor.PartLabel | src/claude_sessions_explorer/memory/extractor.py:61-91 | a part is labelled USER iff the event's type is "user", else ASSISTANT |
| Extractor.CapTrace | src/claude_sessions_explorer/memory/extractor.py:108-109 | a trace within the cap is unchanged |
| Extractor.CapTraceCut | src/claude_sessions_explorer/memory/extractor.py:108-109 | a trace over a non-negative cap keeps exactly its first `max_trace_chars` characters, then the marker |
| Extractor.CapTraceBounded | src/claude_sessions_explorer/memory/extractor.py:108-109 | the capped trace is never longer than the cap plus the marker, and is the trace or a marked prefix of it |
| Extractor.CapTraceNegative | src/claude_sessions_explorer/memory/extractor.py:108-109 | a negative cap that reaches past the start leaves only the marker, as Python's negative slice does |
| Text.Strip | src/claude_sessions_explorer/memory/consolidator.py:101 | `str.strip()`: empty iff the text is blank, otherwise no white space at either end |
| Text.StripIdempotent | src/claude_sessions_explorer/memory/consolidator.py:101 | stripping twice equals stripping once |
| Text.Lower | src/claude_sessions_explorer/memory/consolidator.py:101 | `str.lower()` character by character, same length |
| Text.JoinSplit | src/claude_sessions_explorer/memory/generator.py:93-143 | joining the split lines with the separator gives the text back |
| Text.SlicePrefix | src/claude_sessions_explorer/memory/extractor.py:109 | Python's `s[:n]` for a negative `n` too |
| Seqs.SortDesc | src/claude_sessions_explorer/memory/generator.py:292 | `sorted(key=-count)`: a permutation of its input with counts descending |
| Seqs.SortDescStable | src/claude_sessions_explorer/memory/generator.py:292 | the sort keeps the order of items with equal counts |
| Seqs.TopK | src/claude_sessions_explorer/memory/generator.py:292 | the first k of the sorted list are k items none of which counts less than any item left out |
| Seqs.Dedup | src/claude_sessions_explorer/memory/consolidator.py:157 | the union of tags without repeats: no duplicates, and the same members |

## Left out

- Language model calls (`consolidate_with_llm`, the LLM generators and verifiers, and LLM task generation). The data the model would return is a parameter of `Consolidator.ConsolidateProject`.
- JSON decoding and encoding. Transcript lines arrive already decoded, with `None` for a line that does not decode. A `tool_use` input arrives as the text `json.dumps` writes. A non-string `tool_result` content arrives as the text `str()` gives it.
- Transcript events that are not dicts, or whose `message` is not a dict, make the source raise. So does content that is neither a string nor a list but is truthy. The model has no such events. A missing or null content is given as the empty string, which the source also skips.
- A `tool_use` block whose `name` is present but null renders as "None" in the source. The model's `name` is an `Option`, where absent means "tool".
- Extractor.RenderBlocks: a `text` block whose `"text"` is present but null makes the source's join raise a TypeError (extractor.py:70, 85). The model has no such block: `TextBlock` always carries a string, and a missing text is "".
- Generator.StaleKeywords: an issue whose `"description"` is present but null makes the source raise an AttributeError on `.lower()` (generator.py:42). The model treats it like a missing description, as "".
- Generator.TaskFileNameIndex: a task whose `"title"` is present but null makes the source raise on `.lower()` (generator.py:461). The model's title is an `Option` in which `None` stands for a missing key, named "task". The model has no null title.
- `isMeta` is modelled by its truthiness.
- File access: finding sessions and projects, loading extractions, writing CLAUDE.md, skills and task files. The current date and time are parameters (`today`, `now`).
- Text.Lower: lower-cases ASCII letters only. Python's `str.lower()` lower-cases every cased character, so non-ASCII capitals stay capitals in the model. This affects every lower-cased comparison: the keys of `simple_consolidate`, the summary, heading and preamble tests of `extract_final_markdown`, the stale-keyword tests of `filter_stale_items`, the skill names and the task file names.
- Generator.SafeTitle: `isalnum()` also accepts non-ASCII letters and digits. The model keeps only ASCII ones.
- Generator.SkillName: the same ASCII-only lower case, so a non-ASCII capital that Python lower-cases into ASCII (the Kelvin sign) is dropped rather than kept.
- Consolidator.NormKey: `lower()` is ASCII-only (see `Text.Lower`), so keys that differ only in non-ASCII case stay apart. Whitespace stripping follows Python's full set of whitespace characters.
- Consolidator.GotchaEntry: `list(set(...))` orders the merged tags by hash. The model lists them as `Dedup(a + b)`, and the contract states only their members and the absence of repeats.
- Generator.StaleFilteredKeeps: the contents of `stale_items` are lower-cased and never used. Only whether the list is non-empty matters, and that is all the model keeps.
- The body of a task file (everything after its name) is not modelled. It is I/O formatting with no logic beyond string defaults.
- Python's `max` returns the first of several equal maxima. Only the extraction time is used, so `Consolidator.LatestExtractedAt` returns the time itself.
- Integers are unbounded in Python and in the model, so no widths are involved.

## Findings

| source | as written | input that shows it | evidently intended | confidence | as-written member | corrected member |
|---|---|---|---|---|---|---|
| src/claude_sessions_explorer/memory/generator.py:100 | the summary pattern `'### âœ…'` is the UTF-8 bytes of "### ✅" misread as cp1252 (U+00E2 U+0153 U+2026) and never matches a real reply | the reply "### ✅" (a checkmark summary heading) | "### ✅" marks a summary, so the reply is replaced by the failure text | not executed | Generator.CheckmarkSummaryKeptAsWritten | Generator.CheckmarkSummaryRejected |
