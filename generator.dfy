/** The template-based half of the generator: the filters applied to a project
    memory before anything is written, the clean-up of a model's CLAUDE.md
    answer, the CLAUDE.md and skill files produced without a model, and the
    file names given to generated tasks. */
module Generator {
  import opened Wrappers
  import opened Text
  import opened Seqs
  import opened Models

  // ---------------------------------------------------------------------------
  // filter_low_frequency_items
  // ---------------------------------------------------------------------------

  function Occurrences(e: ConsolidatedEpisodic): int { e.occurrences }
  function Frequency(s: ConsolidatedSemantic): int { s.frequency }
  function TimesUsed(p: ConsolidatedProcedural): int { p.timesUsed }
  function GotchaFrequency(g: ConsolidatedGotcha): int { g.frequency }

  /** The condition "seen at least `n` times" for a count `key`. */
  function AtLeast<T>(key: T -> int, n: int): T -> bool {
    (x: T) => key(x) >= n
  }

  lemma AtLeastMembers<T>(s: seq<T>, key: T -> int, n: int)
    ensures forall x :: x in Filter(s, AtLeast(key, n)) <==> x in s && key(x) >= n
  {
    FilterMembers(s, AtLeast(key, n));
    assert forall x :: AtLeast(key, n)(x) == (key(x) >= n);
  }

  /** `filter_low_frequency_items` (generator.py lines 355-372): keeps the
      incidents, facts, workflows and gotchas seen at least `minFrequency`
      times, in their order; decisions, tasks and the metadata are kept as
      they are. */
  function FilterLowFrequencyItems(memory: ProjectMemory, minFrequency: int): (r: ProjectMemory)
    ensures r.project == memory.project && r.projectPath == memory.projectPath
    ensures r.generatedAt == memory.generatedAt && r.sessionsAnalyzed == memory.sessionsAnalyzed
    ensures r.lastSession == memory.lastSession
    ensures r.decisions == memory.decisions && r.tasks == memory.tasks
    ensures forall e :: e in r.episodic <==> e in memory.episodic && e.occurrences >= minFrequency
    ensures forall s :: s in r.semantic <==> s in memory.semantic && s.frequency >= minFrequency
    ensures forall p :: p in r.procedural <==> p in memory.procedural && p.timesUsed >= minFrequency
    ensures forall g :: g in r.gotchas <==> g in memory.gotchas && g.frequency >= minFrequency
    // the survivors keep their original order
    ensures r.episodic == Filter(memory.episodic, AtLeast(Occurrences, minFrequency))
    ensures r.semantic == Filter(memory.semantic, AtLeast(Frequency, minFrequency))
    ensures r.procedural == Filter(memory.procedural, AtLeast(TimesUsed, minFrequency))
    ensures r.gotchas == Filter(memory.gotchas, AtLeast(GotchaFrequency, minFrequency))
  {
    AtLeastMembers(memory.episodic, Occurrences, minFrequency);
    AtLeastMembers(memory.semantic, Frequency, minFrequency);
    AtLeastMembers(memory.procedural, TimesUsed, minFrequency);
    AtLeastMembers(memory.gotchas, GotchaFrequency, minFrequency);
    memory.(episodic := Filter(memory.episodic, AtLeast(Occurrences, minFrequency)),
            semantic := Filter(memory.semantic, AtLeast(Frequency, minFrequency)),
            procedural := Filter(memory.procedural, AtLeast(TimesUsed, minFrequency)),
            gotchas := Filter(memory.gotchas, AtLeast(GotchaFrequency, minFrequency)))
  }

  /** Raising the threshold in two steps is the same as raising it once to
      the larger of the two. */
  lemma {:induction false} FilterThresholds<T>(s: seq<T>, key: T -> int, a: int, b: int)
    ensures Filter(Filter(s, AtLeast(key, a)), AtLeast(key, b)) == Filter(s, AtLeast(key, if a < b then b else a))
  {
    if |s| > 0 {
      FilterThresholds(s[1..], key, a, b);
      var pa := AtLeast(key, a);
      var head := if pa(s[0]) then [s[0]] else [];
      FilterConcat(head, Filter(s[1..], pa), AtLeast(key, b));
      FilterSingle(s[0], AtLeast(key, b));
    }
  }

  /** Filtering with threshold `a` and then `b` equals filtering once with the
      larger threshold; in particular, filtering twice with the same
      threshold changes nothing more. */
  lemma FilterLowFrequencyTwice(memory: ProjectMemory, a: int, b: int)
    ensures FilterLowFrequencyItems(FilterLowFrequencyItems(memory, a), b)
         == FilterLowFrequencyItems(memory, if a < b then b else a)
  {
    FilterThresholds(memory.episodic, Occurrences, a, b);
    FilterThresholds(memory.semantic, Frequency, a, b);
    FilterThresholds(memory.procedural, TimesUsed, a, b);
    FilterThresholds(memory.gotchas, GotchaFrequency, a, b);
  }

  // ---------------------------------------------------------------------------
  // filter_stale_items
  // ---------------------------------------------------------------------------

  /** One issue reported by the verification step; absent keys are `None`. */
  datatype Issue = Issue(issueType: Option<string>, severity: Option<string>, description: Option<string>)

  /** The verification result: its `stale_items` and `issues` lists (an absent
      key is an empty list). */
  datatype Verification = Verification(staleItems: seq<string>, issues: seq<Issue>)

  /** The keywords every stale filter uses. */
  const BaseStaleKeywords: set<string> := {"zoxide", "zsh", "__zoxide_z", "oh-my-zsh", "environment-specific"}

  /** The words looked for in the descriptions of stale errors. */
  const IssueStaleWords: seq<string> := ["zoxide", "zsh", "oh-my-zsh", "shell configuration"]

  /** An issue of type "stale" and severity "error" whose description, lower-cased,
      mentions `word`. */
  predicate RaisesKeyword(issue: Issue, word: string) {
    && issue.issueType == Some("stale")
    && issue.severity == Some("error")
    && Contains(Lower(issue.description.GetOr("")), word)
  }

  /** The words of `words` that some issue of `issues` raises. */
  function Raised(issues: seq<Issue>, words: seq<string>): set<string> {
    set w | w in words && exists i :: 0 <= i < |issues| && RaisesKeyword(issues[i], w)
  }

  /** The stale keywords: the base ones, plus each issue word that some stale
      error mentions. */
  function StaleKeywordsOf(issues: seq<Issue>): set<string> {
    BaseStaleKeywords + Raised(issues, IssueStaleWords)
  }

  lemma RaisedSnoc(issues: seq<Issue>, i: nat, words: seq<string>)
    requires i < |issues|
    ensures Raised(issues[..i + 1], words)
         == Raised(issues[..i], words) + set w | w in words && RaisesKeyword(issues[i], w)
  {
    var pre := issues[..i + 1];
    forall w | w in Raised(pre, words)
      ensures w in Raised(issues[..i], words) || RaisesKeyword(issues[i], w)
    {
      var k :| 0 <= k < |pre| && RaisesKeyword(pre[k], w);
      if k < i { assert pre[k] == issues[..i][k]; }
    }
    forall w | w in Raised(issues[..i], words) ensures w in Raised(pre, words) {
      var k :| 0 <= k < i && RaisesKeyword(issues[..i][k], w);
      assert pre[k] == issues[..i][k];
    }
    forall w | w in words && RaisesKeyword(issues[i], w) ensures w in Raised(pre, words) {
      assert pre[i] == issues[i];
    }
  }

  /** The inner loop: the words of `words` the issue's description mentions,
      when it is a stale error. */
  method AddIssueKeywords(keywords0: set<string>, issue: Issue, words: seq<string>) returns (keywords: set<string>)
    ensures keywords == keywords0 + set w | w in words && RaisesKeyword(issue, w)
  {
    keywords := keywords0;
    if issue.issueType == Some("stale") && issue.severity == Some("error") {
      var desc := Lower(issue.description.GetOr(""));
      var j := 0;
      while j < |words|
        invariant 0 <= j <= |words|
        invariant keywords == keywords0 + set w | w in words[..j] && RaisesKeyword(issue, w)
      {
        assert words[..j + 1] == words[..j] + [words[j]];
        if Contains(desc, words[j]) {
          keywords := keywords + {words[j]};
        }
        j := j + 1;
      }
      assert words[..j] == words;
    }
  }

  /** The keyword loop of `filter_stale_items` (generator.py lines 37-45). */
  method StaleKeywords(issues: seq<Issue>) returns (keywords: set<string>)
    ensures keywords == StaleKeywordsOf(issues)
  {
    keywords := BaseStaleKeywords;
    var i := 0;
    while i < |issues|
      invariant 0 <= i <= |issues|
      invariant keywords == BaseStaleKeywords + Raised(issues[..i], IssueStaleWords)
    {
      RaisedSnoc(issues, i, IssueStaleWords);
      keywords := AddIssueKeywords(keywords, issues[i], IssueStaleWords);
      i := i + 1;
    }
    assert issues[..i] == issues;
  }

  /** `is_stale`: the lower-cased text contains one of the keywords. */
  predicate IsStale(keywords: set<string>, text: string) {
    exists kw :: kw in keywords && Contains(Lower(text), kw)
  }

  /** An incident is kept when neither its text nor its resolution is stale and
      it is not environment-specific. */
  function EpisodicFresh(keywords: set<string>): ConsolidatedEpisodic -> bool {
    (e: ConsolidatedEpisodic) =>
      !IsStale(keywords, e.incident) && !IsStale(keywords, e.resolution) && e.scope != EnvironmentSpecific
  }

  /** A gotcha is kept when neither its issue nor its solution (empty when
      absent) is stale and it is not environment-specific. */
  function GotchaFresh(keywords: set<string>): ConsolidatedGotcha -> bool {
    (g: ConsolidatedGotcha) =>
      !IsStale(keywords, g.issue) && !IsStale(keywords, g.solution.GetOr("")) && g.scope != EnvironmentSpecific
  }

  /** A workflow is kept when neither its name nor any step is stale. */
  function ProceduralFresh(keywords: set<string>): ConsolidatedProcedural -> bool {
    (p: ConsolidatedProcedural) =>
      !IsStale(keywords, p.workflow) && !exists i :: 0 <= i < |p.steps| && IsStale(keywords, p.steps[i])
  }

  /** A decision is kept when neither its text nor its rationale is stale. */
  function DecisionFresh(keywords: set<string>): ConsolidatedDecision -> bool {
    (d: ConsolidatedDecision) => !IsStale(keywords, d.decision) && !IsStale(keywords, d.rationale)
  }

  /** Whether the verification result asks for filtering at all. */
  predicate HasStaleItems(verification: Option<Verification>) {
    verification.Some? && |verification.value.staleItems| > 0
  }

  /** What `filter_stale_items` returns (generator.py lines 28-88). The
      rebuilt memory passes no tasks, so it has none. */
  function StaleFiltered(memory: ProjectMemory, verification: Option<Verification>): ProjectMemory {
    if !HasStaleItems(verification) then memory
    else
      var keywords := StaleKeywordsOf(verification.value.issues);
      ProjectMemory(
        memory.project, memory.projectPath, memory.generatedAt, memory.sessionsAnalyzed, memory.lastSession,
        Filter(memory.episodic, EpisodicFresh(keywords)),
        memory.semantic,
        Filter(memory.procedural, ProceduralFresh(keywords)),
        Filter(memory.decisions, DecisionFresh(keywords)),
        Filter(memory.gotchas, GotchaFresh(keywords)),
        [])
  }

  /** `filter_stale_items` (generator.py lines 28-88). */
  method FilterStaleItems(memory: ProjectMemory, verification: Option<Verification>) returns (r: ProjectMemory)
    ensures r == StaleFiltered(memory, verification)
  {
    if verification.None? || |verification.value.staleItems| == 0 {
      return memory;
    }
    var keywords := StaleKeywords(verification.value.issues);
    r := ProjectMemory(
      memory.project, memory.projectPath, memory.generatedAt, memory.sessionsAnalyzed, memory.lastSession,
      Filter(memory.episodic, EpisodicFresh(keywords)),
      memory.semantic,
      Filter(memory.procedural, ProceduralFresh(keywords)),
      Filter(memory.decisions, DecisionFresh(keywords)),
      Filter(memory.gotchas, GotchaFresh(keywords)),
      []);
  }

  /** Without stale items the memory comes back unchanged; with them, an
      incident, workflow, decision or gotcha is kept exactly when it is fresh,
      facts are all kept, and the metadata is carried over. */
  lemma StaleFilteredKeeps(memory: ProjectMemory, verification: Option<Verification>)
    ensures !HasStaleItems(verification) ==> StaleFiltered(memory, verification) == memory
    ensures HasStaleItems(verification) ==>
      var r := StaleFiltered(memory, verification);
      var keywords := StaleKeywordsOf(verification.value.issues);
      && r.project == memory.project && r.projectPath == memory.projectPath
      && r.generatedAt == memory.generatedAt && r.sessionsAnalyzed == memory.sessionsAnalyzed
      && r.lastSession == memory.lastSession && r.semantic == memory.semantic && r.tasks == []
      && (forall e :: e in r.episodic <==> e in memory.episodic && EpisodicFresh(keywords)(e))
      && (forall p :: p in r.procedural <==> p in memory.procedural && ProceduralFresh(keywords)(p))
      && (forall d :: d in r.decisions <==> d in memory.decisions && DecisionFresh(keywords)(d))
      && (forall g :: g in r.gotchas <==> g in memory.gotchas && GotchaFresh(keywords)(g))
  {
    if HasStaleItems(verification) {
      var keywords := StaleKeywordsOf(verification.value.issues);
      FilterMembers(memory.episodic, EpisodicFresh(keywords));
      FilterMembers(memory.procedural, ProceduralFresh(keywords));
      FilterMembers(memory.decisions, DecisionFresh(keywords));
      FilterMembers(memory.gotchas, GotchaFresh(keywords));
    }
  }

  /** Once there are stale items, an incident mentioning a base keyword in any
      letter case, or marked environment-specific, is always dropped. */
  lemma BaseKeywordsAlwaysDropped(memory: ProjectMemory, verification: Option<Verification>, e: ConsolidatedEpisodic, kw: string)
    requires HasStaleItems(verification)
    requires kw in BaseStaleKeywords
    requires Contains(Lower(e.incident), kw) || e.scope == EnvironmentSpecific
    ensures e !in StaleFiltered(memory, verification).episodic
  {
    var keywords := StaleKeywordsOf(verification.value.issues);
    assert kw in keywords;
    assert !EpisodicFresh(keywords)(e);
    FilterMembers(memory.episodic, EpisodicFresh(keywords));
  }

  /** Filtering a second time with the same verification removes nothing more. */
  lemma StaleFilteredIdempotent(memory: ProjectMemory, verification: Option<Verification>)
    ensures StaleFiltered(StaleFiltered(memory, verification), verification) == StaleFiltered(memory, verification)
  {
    if HasStaleItems(verification) {
      var keywords := StaleKeywordsOf(verification.value.issues);
      FilterIdempotent(memory.episodic, EpisodicFresh(keywords));
      FilterIdempotent(memory.procedural, ProceduralFresh(keywords));
      FilterIdempotent(memory.decisions, DecisionFresh(keywords));
      FilterIdempotent(memory.gotchas, GotchaFresh(keywords));
    }
  }

  // ---------------------------------------------------------------------------
  // extract_final_markdown
  // ---------------------------------------------------------------------------

  /** The marks of a change summary as the source lists them. The fourth is
      the check-mark emoji's UTF-8 bytes read back as Windows-1252 text
      (U+00E2 U+0153 U+2026), so it never matches a real check mark. */
  const SummaryPatternsAsWritten: seq<string> := [
    "## key changes", "## changes made", "## summary of", "### \U{E2}\U{153}\U{2026}",
    "### removed", "### verified", "### kept", "the file now contains",
    "i have removed", "i have fixed"]

  /** The same marks with the check-mark heading spelled with U+2705. */
  const SummaryPatterns: seq<string> := [
    "## key changes", "## changes made", "## summary of", "### \U{2705}",
    "### removed", "### verified", "### kept", "the file now contains",
    "i have removed", "i have fixed"]

  /** Words that disqualify a heading inside a summary. */
  const SummaryHeadingWords: seq<string> := ["changes", "summary", "removed", "verified", "fixed"]

  /** Words that disqualify a title heading in a normal reply. */
  const TitleRejectWords: seq<string> := SummaryHeadingWords + ["key "]

  /** Openings of chatty lines that precede the document. */
  const PreamblePrefixes: seq<string> := [
    "perfect", "now i", "let me", "i can see", "i'll", "here's",
    "based on", "looking at", "after", "this is", "the following",
    "great", "okay", "alright", "sure", "certainly"]

  const GenerationFailed: string :=
    "# Error: Generation Failed\n\n"
    + "The generator produced a summary instead of actual CLAUDE.md content. Please regenerate."

  lemma GenerationFailedStripped()
    ensures !IsSpace(GenerationFailed[0]) && !IsSpace(GenerationFailed[|GenerationFailed| - 1])
  {
  }

  /** The reply's first 200 characters, lower-cased, hold one of `patterns`. */
  predicate LooksLikeSummaryWith(patterns: seq<string>, text: string) {
    ContainsAny(Lower(Prefix(text, 200)), patterns)
  }

  predicate LooksLikeSummary(text: string) {
    LooksLikeSummaryWith(SummaryPatterns, text)
  }

  /** A stripped, lower-cased line that opens a `# ` heading not itself
      announcing a summary. */
  predicate IsProjectHeadingText(lowered: string) {
    StartsWith(lowered, "# ") && !ContainsAny(lowered, SummaryHeadingWords)
  }

  predicate IsProjectHeading(line: string) {
    IsProjectHeadingText(Lower(Strip(line)))
  }

  /** A stripped line that opens with chatter. */
  predicate IsPreamble(stripped: string) {
    StartsWithAny(Lower(stripped), PreamblePrefixes)
  }

  /** A stripped line that is a heading (not a shebang) naming no change or
      summary. */
  predicate IsTitleHeading(stripped: string) {
    && StartsWith(stripped, "#") && !StartsWith(stripped, "#!/")
    && !ContainsAny(Lower(stripped), TitleRejectWords)
  }

  /** A non-blank line that is not preamble and is a title heading. */
  predicate IsTitleLine(line: string) {
    var s := Strip(line);
    s != [] && !IsPreamble(s) && IsTitleHeading(s)
  }

  /** The reply's lines once the whole reply is stripped. */
  function ReplyLines(text: string): (lines: seq<string>)
    ensures |lines| >= 1
  {
    Split(Strip(text), '\n')
  }

  /** The stripped text from line `i` on. */
  function LinesFrom(lines: seq<string>, i: nat): (r: string)
    requires i < |lines|
    ensures r == [] || (!IsSpace(r[0]) && !IsSpace(r[|r| - 1]))
  {
    Strip(Join(lines[i..], "\n"))
  }

  /** What the extraction returns when `patterns` mark a summary: in a summary,
      the text from the first project heading, or the error document when
      there is none; otherwise the text from the first title line, or the whole
      reply when there is none. */
  function FinalMarkdownWith(patterns: seq<string>, text: string): string {
    var lines := ReplyLines(text);
    if LooksLikeSummaryWith(patterns, text) then
      match FirstIndex(lines, IsProjectHeading)
      case Some(i) => LinesFrom(lines, i)
      case None => GenerationFailed
    else
      match FirstIndex(lines, IsTitleLine)
      case Some(i) => LinesFrom(lines, i)
      case None => LinesFrom(lines, 0)
  }

  /** The extraction with the summary marks as the source writes them. */
  function FinalMarkdownAsWritten(text: string): string {
    FinalMarkdownWith(SummaryPatternsAsWritten, text)
  }

  /** The extraction with the check-mark mark spelled correctly. */
  function FinalMarkdown(text: string): string {
    FinalMarkdownWith(SummaryPatterns, text)
  }

  /** `extract_final_markdown` as the source writes it, with the garbled
      check-mark mark: cuts the reply at the first usable heading. */
  method ExtractFinalMarkdown(text: string) returns (r: string)
    ensures r == FinalMarkdownAsWritten(text)
    ensures r == [] || (!IsSpace(r[0]) && !IsSpace(r[|r| - 1]))
  {
    GenerationFailedStripped();
    var lines := Split(Strip(text), '\n');
    if LooksLikeSummaryWith(SummaryPatternsAsWritten, text) {
      var heading := FindProjectHeading(lines);
      if heading.Some? {
        return LinesFrom(lines, heading.value);
      }
      return GenerationFailed;
    }
    var start := FindTitleLine(lines);
    r := LinesFrom(lines, start);
  }

  /** The loop over a summary's lines: the index of the first project
      heading. */
  method FindProjectHeading(lines: seq<string>) returns (heading: Option<nat>)
    ensures heading == FirstIndex(lines, IsProjectHeading)
  {
    var i := 0;
    while i < |lines|
      invariant 0 <= i <= |lines|
      invariant forall k :: 0 <= k < i ==> !IsProjectHeading(lines[k])
    {
      if IsProjectHeadingText(Lower(Strip(lines[i]))) {
        FirstIndexUnique(lines, IsProjectHeading, i);
        return Some(i);
      }
      i := i + 1;
    }
    return None;
  }

  /** The loop over a normal reply's lines: blank lines and preamble are
      skipped, and the first title line gives the start (0 when there is
      none). */
  method FindTitleLine(lines: seq<string>) returns (start: nat)
    ensures start == match FirstIndex(lines, IsTitleLine) case Some(i) => i case None => 0
  {
    start := 0;
    ghost var found := false;
    var i := 0;
    while i < |lines|
      invariant 0 <= i <= |lines|
      invariant !found && start == 0
      invariant forall k :: 0 <= k < i ==> !IsTitleLine(lines[k])
    {
      var stripped := Strip(lines[i]);
      if stripped == [] {
        i := i + 1;
        continue;
      }
      if IsPreamble(stripped) {
        i := i + 1;
        continue;
      }
      if IsTitleHeading(stripped) {
        start := i;
        found := true;
        break;
      }
      i := i + 1;
    }
    if found {
      FirstIndexUnique(lines, IsTitleLine, start);
    }
  }

  /** Cutting at a line whose stripped form starts with `#` gives a text that
      starts with `#`. */
  lemma CutAtHeading(lines: seq<string>, i: nat)
    requires i < |lines| && Strip(lines[i]) != [] && Strip(lines[i])[0] == '#'
    ensures |LinesFrom(lines, i)| > 0 && LinesFrom(lines, i)[0] == '#'
  {
    var l := lines[i];
    JoinFirst(lines[i..], "\n");
    var tail := if |lines[i..]| == 1 then "" else "\n" + Join(lines[i..][1..], "\n");
    assert Join(lines[i..], "\n") == l + tail;
    StripFirst(l);
    LStripConcat(l, tail);
    StripBothEnds(l + tail);
    RStripKeepsFirst(LStrip(l) + tail);
  }

  /** Cutting at the first line returns the whole reply, stripped. */
  lemma WholeReply(text: string)
    ensures LinesFrom(ReplyLines(text), 0) == Strip(text)
  {
    var lines := ReplyLines(text);
    assert lines[0..] == lines;
    JoinSplit(Strip(text), '\n');
    StripIdempotent(text);
  }

  /** A project heading starts with `#` once stripped. */
  lemma ProjectHeadingStart(line: string)
    requires IsProjectHeading(line)
    ensures Strip(line) != [] && Strip(line)[0] == '#'
  {
    LowerHash(Strip(line));
  }

  lemma LowerHash(s: string)
    requires StartsWith(Lower(s), "# ")
    ensures s != [] && s[0] == '#'
  {
    assert Lower(s)[0] == "# "[0];
  }

  /** A title line starts with `#` once stripped. */
  lemma TitleLineStart(line: string)
    requires IsTitleLine(line)
    ensures Strip(line) != [] && Strip(line)[0] == '#'
  {
    assert Strip(line)[..1] == "#";
  }

  /** A summary without any project heading is replaced by the error
      document. */
  lemma SummaryWithoutHeading(patterns: seq<string>, text: string)
    requires LooksLikeSummaryWith(patterns, text)
    requires forall k :: 0 <= k < |ReplyLines(text)| ==> !IsProjectHeading(ReplyLines(text)[k])
    ensures FinalMarkdownWith(patterns, text) == GenerationFailed
  {
  }

  /** A summary is cut at its first project heading, and the result starts
      with `#`. */
  lemma SummaryCutAtHeading(patterns: seq<string>, text: string, i: nat)
    requires LooksLikeSummaryWith(patterns, text)
    requires i < |ReplyLines(text)| && IsProjectHeading(ReplyLines(text)[i])
    requires forall k :: 0 <= k < i ==> !IsProjectHeading(ReplyLines(text)[k])
    ensures var r := FinalMarkdownWith(patterns, text);
      r == LinesFrom(ReplyLines(text), i) && |r| > 0 && r[0] == '#'
  {
    var lines := ReplyLines(text);
    FirstIndexUnique(lines, IsProjectHeading, i);
    ProjectHeadingStart(lines[i]);
    CutAtHeading(lines, i);
  }

  /** A normal reply is cut at its first title line, and the result starts
      with `#`. */
  lemma ReplyCutAtTitle(patterns: seq<string>, text: string, i: nat)
    requires !LooksLikeSummaryWith(patterns, text)
    requires i < |ReplyLines(text)| && IsTitleLine(ReplyLines(text)[i])
    requires forall k :: 0 <= k < i ==> !IsTitleLine(ReplyLines(text)[k])
    ensures var r := FinalMarkdownWith(patterns, text);
      r == LinesFrom(ReplyLines(text), i) && |r| > 0 && r[0] == '#'
  {
    var lines := ReplyLines(text);
    FirstIndexUnique(lines, IsTitleLine, i);
    TitleLineStart(lines[i]);
    CutAtHeading(lines, i);
  }

  /** A normal reply without a title line comes back whole, stripped. */
  lemma ReplyWithoutTitle(patterns: seq<string>, text: string)
    requires !LooksLikeSummaryWith(patterns, text)
    requires forall k :: 0 <= k < |ReplyLines(text)| ==> !IsTitleLine(ReplyLines(text)[k])
    ensures FinalMarkdownWith(patterns, text) == Strip(text)
  {
    WholeReply(text);
  }

  /** A reply consisting of one check-mark summary heading. */
  const CheckmarkReply: string := "### \U{2705}"

  lemma CheckmarkReplyShape()
    ensures Lower(Prefix(CheckmarkReply, 200)) == CheckmarkReply
    ensures Lower(CheckmarkReply) == CheckmarkReply
    ensures Strip(CheckmarkReply) == CheckmarkReply
    ensures ReplyLines(CheckmarkReply) == [CheckmarkReply]
  {
    var t := CheckmarkReply;
    assert Prefix(t, 200) == t;
    assert Lower(t) == t;
    StripUnchanged(t);
    SplitNoSep(t, '\n');
  }

  lemma CheckmarkNotPreamble()
    ensures !IsPreamble(CheckmarkReply)
  {
    CheckmarkReplyShape();
    NoneStarts(CheckmarkReply, PreamblePrefixes);
  }

  lemma CheckmarkTitleHeading()
    ensures IsTitleHeading(CheckmarkReply)
  {
    CheckmarkReplyShape();
    NoneOccurs(CheckmarkReply, TitleRejectWords);
  }

  lemma CheckmarkIsTitle()
    ensures IsTitleLine(CheckmarkReply)
  {
    CheckmarkReplyShape();
    CheckmarkNotPreamble();
    CheckmarkTitleHeading();
  }

  /** A reply shorter than every mark is never taken for a summary. */
  lemma ShortReplyNotSummary(patterns: seq<string>, text: string)
    requires forall k :: 0 <= k < |patterns| ==> |patterns[k]| > |text|
    ensures !LooksLikeSummaryWith(patterns, text)
  {
    NoneLonger(Lower(Prefix(text, 200)), patterns);
  }

  lemma CheckmarkNotSummaryAsWritten()
    ensures !LooksLikeSummaryWith(SummaryPatternsAsWritten, CheckmarkReply)
  {
    ShortReplyNotSummary(SummaryPatternsAsWritten, CheckmarkReply);
  }

  /** With the marks as written, a reply opening with a check-mark summary
      heading is not recognised as a summary, and that heading is returned as
      the document. */
  lemma CheckmarkSummaryKeptAsWritten()
    ensures !LooksLikeSummaryWith(SummaryPatternsAsWritten, CheckmarkReply)
    ensures FinalMarkdownAsWritten(CheckmarkReply) == CheckmarkReply
  {
    var t := CheckmarkReply;
    CheckmarkReplyShape();
    CheckmarkNotSummaryAsWritten();
    CheckmarkIsTitle();
    ReplyCutAtTitle(SummaryPatternsAsWritten, t, 0);
    WholeReply(t);
  }

  /** With the corrected marks, any reply opening with a check-mark heading is
      recognised as a summary. */
  lemma CheckmarkSummaryDetected(text: string)
    requires StartsWith(text, "### \U{2705}")
    ensures LooksLikeSummary(text)
  {
    var lowered := Lower(Prefix(text, 200));
    assert lowered[..5] == "### \U{2705}";
    assert StartsWith(lowered, SummaryPatterns[3]);
    ContainsAnyExists(lowered, SummaryPatterns);
  }

  /** The same reply with the corrected marks: it has no project heading, so the
      error document is returned. */
  lemma CheckmarkSummaryRejected()
    ensures FinalMarkdown(CheckmarkReply) == GenerationFailed
  {
    var t := CheckmarkReply;
    CheckmarkSummaryDetected(t);
    CheckmarkReplyShape();
    assert !StartsWith(Lower(Strip(t)), "# ");
    SummaryWithoutHeading(SummaryPatterns, t);
  }

  // ---------------------------------------------------------------------------
  // generate_claudemd_simple
  // ---------------------------------------------------------------------------

  /** The five opening lines: title, session count and date of generation. */
  function Header(memory: ProjectMemory, today: string): seq<string> {
    ["# Project: " + memory.project,
     "",
     "> Auto-generated from " + IntToString(memory.sessionsAnalyzed) + " Claude Code sessions",
     "> Last updated: " + today,
     ""]
  }

  function ErrorLine(e: ConsolidatedEpisodic): string {
    "- **" + e.incident + "**: " + e.resolution
  }

  function ConventionLine(s: ConsolidatedSemantic): string {
    "- " + s.knowledge
  }

  /** `f"{i}. {step}"` with `i` counting from 1. */
  function StepLines(steps: seq<string>): (r: seq<string>)
    ensures |r| == |steps|
  {
    seq(|steps|, i requires 0 <= i < |steps| => NatToString(i + 1) + ". " + steps[i])
  }

  function WorkflowLines(p: ConsolidatedProcedural): seq<string> {
    ["### " + p.workflow] + StepLines(p.steps) + [""]
  }

  function Alternatives(d: ConsolidatedDecision): string {
    if d.alternativesConsidered == [] then ""
    else " (alternatives: " + Join(d.alternativesConsidered, ", ") + ")"
  }

  function DecisionLine(d: ConsolidatedDecision): string {
    "- **" + d.decision + "**: " + d.rationale + Alternatives(d)
  }

  /** Python's truth value of an optional string. */
  predicate Truthy(o: Option<string>) {
    o.Some? && o.value != ""
  }

  function GotchaLine(g: ConsolidatedGotcha): string {
    "- " + g.issue + (if Truthy(g.solution) then " - " + g.solution.value else "")
  }

  function TopErrors(memory: ProjectMemory): seq<ConsolidatedEpisodic> {
    Take(SortDesc(memory.episodic, Occurrences), 10)
  }

  function TopConventions(memory: ProjectMemory): seq<ConsolidatedSemantic> {
    Take(SortDesc(memory.semantic, Frequency), 15)
  }

  function TopWorkflows(memory: ProjectMemory): seq<ConsolidatedProcedural> {
    Take(SortDesc(memory.procedural, TimesUsed), 5)
  }

  function TopGotchas(memory: ProjectMemory): seq<ConsolidatedGotcha> {
    Take(SortDesc(memory.gotchas, GotchaFrequency), 10)
  }

  /** A second-level heading. */
  function H2(title: string): string {
    "## " + title
  }

  /** A `## ` section with a blank line after its heading and after its
      items; absent when its category is empty. */
  function Section(heading: string, present: bool, items: seq<string>): seq<string> {
    if present then [heading, ""] + items + [""] else []
  }

  function ErrorsSection(memory: ProjectMemory): seq<string> {
    Section(H2("Common Errors"), memory.episodic != [], MapSeq(TopErrors(memory), ErrorLine))
  }

  function ConventionsSection(memory: ProjectMemory): seq<string> {
    Section(H2("Conventions"), memory.semantic != [], MapSeq(TopConventions(memory), ConventionLine))
  }

  function DecisionsSection(memory: ProjectMemory): seq<string> {
    Section(H2("Decisions"), memory.decisions != [], MapSeq(Take(memory.decisions, 10), DecisionLine))
  }

  function GotchasSection(memory: ProjectMemory): seq<string> {
    Section(H2("Gotchas"), memory.gotchas != [], MapSeq(TopGotchas(memory), GotchaLine))
  }

  /** The workflows section, whose last workflow's blank line closes it. */
  function WorkflowsSection(memory: ProjectMemory): seq<string> {
    if memory.procedural == [] then []
    else [H2("Workflows"), ""] + Flatten(MapSeq(TopWorkflows(memory), WorkflowLines))
  }

  /** The lines of the template CLAUDE.md. */
  function ClaudeMdLines(memory: ProjectMemory, today: string): seq<string> {
    Header(memory, today)
    + ErrorsSection(memory)
    + ConventionsSection(memory)
    + WorkflowsSection(memory)
    + DecisionsSection(memory)
    + GotchasSection(memory)
  }

  function ClaudeMd(memory: ProjectMemory, today: string): string {
    Join(ClaudeMdLines(memory, today), "\n")
  }

  /** `for item in items: lines.append(line(item))`. */
  method AppendEach<T>(lines0: seq<string>, items: seq<T>, line: T -> string) returns (lines: seq<string>)
    ensures lines == lines0 + MapSeq(items, line)
  {
    lines := lines0;
    var j := 0;
    while j < |items|
      invariant 0 <= j <= |items|
      invariant lines == lines0 + MapSeq(items[..j], line)
    {
      MapSeqSnoc(items, j, line);
      lines := lines + [line(items[j])];
      j := j + 1;
    }
    assert items[..j] == items;
  }

  /** `for i, step in enumerate(steps, 1): lines.append(f"{i}. {step}")`. */
  method AppendSteps(lines0: seq<string>, steps: seq<string>) returns (lines: seq<string>)
    ensures lines == lines0 + StepLines(steps)
  {
    lines := lines0;
    var i := 0;
    while i < |steps|
      invariant 0 <= i <= |steps|
      invariant lines == lines0 + StepLines(steps[..i])
    {
      assert StepLines(steps[..i + 1]) == StepLines(steps[..i]) + [NatToString(i + 1) + ". " + steps[i]];
      lines := lines + [NatToString(i + 1) + ". " + steps[i]];
      i := i + 1;
    }
    assert steps[..i] == steps;
  }

  /** One workflow's lines. */
  method AppendWorkflow(lines0: seq<string>, item: ConsolidatedProcedural) returns (lines: seq<string>)
    ensures lines == lines0 + WorkflowLines(item)
  {
    lines := lines0 + ["### " + item.workflow];
    lines := AppendSteps(lines, item.steps);
    lines := lines + [""];
  }

  /** The workflows loop: a `### ` heading, the numbered steps and a blank
      line per workflow. */
  method AppendWorkflows(lines0: seq<string>, workflows: seq<ConsolidatedProcedural>) returns (lines: seq<string>)
    ensures lines == lines0 + Flatten(MapSeq(workflows, WorkflowLines))
  {
    lines := lines0;
    var j := 0;
    while j < |workflows|
      invariant 0 <= j <= |workflows|
      invariant lines == lines0 + Flatten(MapSeq(workflows[..j], WorkflowLines))
    {
      FlattenMapSnoc(workflows, j, WorkflowLines);
      lines := AppendWorkflow(lines, workflows[j]);
      j := j + 1;
    }
    assert workflows[..j] == workflows;
  }

  /** One `if category: lines.extend(...); for ...; lines.append("")` block. */
  method AppendSection<T>(lines0: seq<string>, heading: string, present: bool, items: seq<T>, line: T -> string)
    returns (lines: seq<string>)
    ensures lines == lines0 + Section(heading, present, MapSeq(items, line))
  {
    lines := lines0;
    if present {
      lines := lines + [heading, ""];
      lines := AppendEach(lines, items, line);
      lines := lines + [""];
    }
  }

  /** The `if memory.procedural:` block. */
  method AppendWorkflowsSection(lines0: seq<string>, memory: ProjectMemory) returns (lines: seq<string>)
    ensures lines == lines0 + WorkflowsSection(memory)
  {
    lines := lines0;
    if memory.procedural != [] {
      lines := lines + [H2("Workflows"), ""];
      lines := AppendWorkflows(lines, TopWorkflows(memory));
    }
  }

  /** `generate_claudemd_simple`, with the date of generation as `today`. */
  method GenerateClaudemdSimple(memory: ProjectMemory, today: string) returns (text: string)
    ensures text == ClaudeMd(memory, today)
  {
    var lines := Header(memory, today);
    lines := AppendSection(lines, H2("Common Errors"), memory.episodic != [], TopErrors(memory), ErrorLine);
    lines := AppendSection(lines, H2("Conventions"), memory.semantic != [], TopConventions(memory), ConventionLine);
    lines := AppendWorkflowsSection(lines, memory);
    lines := AppendSection(lines, H2("Decisions"), memory.decisions != [], Take(memory.decisions, 10), DecisionLine);
    lines := AppendSection(lines, H2("Gotchas"), memory.gotchas != [], TopGotchas(memory), GotchaLine);
    text := Join(lines, "\n");
  }

  /** A `## ` section heading. */
  predicate IsSectionHeading(line: string) {
    StartsWith(line, "## ")
  }

  lemma H2Heading(title: string)
    ensures IsSectionHeading(H2(title))
  {
    assert H2(title)[..3] == "## ";
  }

  /** The section headings the document should have: one per non-empty
      category, in the fixed order. */
  function PresentSections(memory: ProjectMemory): seq<string> {
    OnlyIf(memory.episodic != [], H2("Common Errors"))
    + OnlyIf(memory.semantic != [], H2("Conventions"))
    + OnlyIf(memory.procedural != [], H2("Workflows"))
    + OnlyIf(memory.decisions != [], H2("Decisions"))
    + OnlyIf(memory.gotchas != [], H2("Gotchas"))
  }

  function OnlyIf(present: bool, heading: string): seq<string> {
    if present then [heading] else []
  }

  lemma NotHeadingByFirst(line: string)
    requires |line| > 0 && line[0] != '#'
    ensures !IsSectionHeading(line)
  {
    if |line| >= 3 {
      assert line[..3][0] == line[0];
    }
  }

  lemma NoHeadingsInHeader(memory: ProjectMemory, today: string)
    ensures Filter(Header(memory, today), IsSectionHeading) == []
  {
    var h := Header(memory, today);
    assert h[0][..3] == "# P";
    NotHeadingByFirst(h[2]);
    NotHeadingByFirst(h[3]);
    FilterNone(h, IsSectionHeading);
  }

  /** A section contributes exactly its own heading when present, nothing
      otherwise, provided none of its items looks like a heading. */
  lemma SectionHeadings(heading: string, present: bool, items: seq<string>)
    requires IsSectionHeading(heading)
    requires forall i :: 0 <= i < |items| ==> !IsSectionHeading(items[i])
    ensures Filter(Section(heading, present, items), IsSectionHeading)
         == if present then [heading] else []
  {
    if present {
      var h := heading;
      FilterConcat([h, ""] + items, [""], IsSectionHeading);
      FilterConcat([h, ""], items, IsSectionHeading);
      FilterConcat([h], [""], IsSectionHeading);
      FilterSingle(h, IsSectionHeading);
      FilterSingle("", IsSectionHeading);
      FilterNone(items, IsSectionHeading);
    }
  }

  lemma DashItems<T>(items: seq<T>, line: T -> string)
    requires forall i :: 0 <= i < |items| ==> |line(items[i])| > 0 && line(items[i])[0] == '-'
    ensures forall i :: 0 <= i < |MapSeq(items, line)| ==> !IsSectionHeading(MapSeq(items, line)[i])
  {
    forall i | 0 <= i < |items| ensures !IsSectionHeading(MapSeq(items, line)[i]) {
      NotHeadingByFirst(line(items[i]));
    }
  }

  lemma ErrorsHeadings(memory: ProjectMemory)
    ensures Filter(ErrorsSection(memory), IsSectionHeading)
         == OnlyIf(memory.episodic != [], H2("Common Errors"))
  {
    DashItems(TopErrors(memory), ErrorLine);
    H2Heading("Common Errors");
    SectionHeadings(H2("Common Errors"), memory.episodic != [], MapSeq(TopErrors(memory), ErrorLine));
  }

  lemma ConventionsHeadings(memory: ProjectMemory)
    ensures Filter(ConventionsSection(memory), IsSectionHeading)
         == OnlyIf(memory.semantic != [], H2("Conventions"))
  {
    DashItems(TopConventions(memory), ConventionLine);
    H2Heading("Conventions");
    SectionHeadings(H2("Conventions"), memory.semantic != [], MapSeq(TopConventions(memory), ConventionLine));
  }

  lemma DecisionsHeadings(memory: ProjectMemory)
    ensures Filter(DecisionsSection(memory), IsSectionHeading)
         == OnlyIf(memory.decisions != [], H2("Decisions"))
  {
    DashItems(Take(memory.decisions, 10), DecisionLine);
    H2Heading("Decisions");
    SectionHeadings(H2("Decisions"), memory.decisions != [], MapSeq(Take(memory.decisions, 10), DecisionLine));
  }

  lemma GotchasHeadings(memory: ProjectMemory)
    ensures Filter(GotchasSection(memory), IsSectionHeading)
         == OnlyIf(memory.gotchas != [], H2("Gotchas"))
  {
    DashItems(TopGotchas(memory), GotchaLine);
    H2Heading("Gotchas");
    SectionHeadings(H2("Gotchas"), memory.gotchas != [], MapSeq(TopGotchas(memory), GotchaLine));
  }

  lemma WorkflowLinesNoHeading(p: ConsolidatedProcedural)
    ensures forall j :: 0 <= j < |WorkflowLines(p)| ==> !IsSectionHeading(WorkflowLines(p)[j])
  {
    var w := WorkflowLines(p);
    forall j | 0 <= j < |w| ensures !IsSectionHeading(w[j]) {
      if j == 0 {
        assert w[0][..3] == "###";
      } else if j <= |p.steps| {
        assert w[j] == StepLines(p.steps)[j - 1];
        NotHeadingByFirst(w[j]);
      } else {
        assert w[j] == "";
      }
    }
  }

  /** A heading and a blank line, then lines none of which is a heading. */
  lemma LeadingHeading(heading: string, rest: seq<string>)
    requires IsSectionHeading(heading)
    requires Filter(rest, IsSectionHeading) == []
    ensures Filter([heading, ""] + rest, IsSectionHeading) == [heading]
  {
    FilterConcat([heading, ""], rest, IsSectionHeading);
    FilterConcat([heading], [""], IsSectionHeading);
    FilterSingle(heading, IsSectionHeading);
    FilterSingle("", IsSectionHeading);
  }

  lemma NoHeadingsInWorkflowLines(ps: seq<ConsolidatedProcedural>)
    ensures Filter(Flatten(MapSeq(ps, WorkflowLines)), IsSectionHeading) == []
  {
    var ss := MapSeq(ps, WorkflowLines);
    forall i | 0 <= i < |ss|
      ensures forall j :: 0 <= j < |ss[i]| ==> !IsSectionHeading(ss[i][j])
    {
      WorkflowLinesNoHeading(ps[i]);
    }
    FilterFlattenNone(ss, IsSectionHeading);
  }

  lemma NoHeadingsInWorkflows(memory: ProjectMemory)
    ensures Filter(WorkflowsSection(memory), IsSectionHeading)
         == OnlyIf(memory.procedural != [], H2("Workflows"))
  {
    if memory.procedural != [] {
      NoHeadingsInWorkflowLines(TopWorkflows(memory));
      H2Heading("Workflows");
      LeadingHeading(H2("Workflows"), Flatten(MapSeq(TopWorkflows(memory), WorkflowLines)));
    }
  }

  /** The document's `## ` headings are exactly those of the non-empty
      categories, in the order Common Errors, Conventions, Workflows,
      Decisions, Gotchas. */
  lemma ClaudeMdSections(memory: ProjectMemory, today: string)
    ensures Filter(ClaudeMdLines(memory, today), IsSectionHeading) == PresentSections(memory)
  {
    NoHeadingsInHeader(memory, today);
    ErrorsHeadings(memory);
    ConventionsHeadings(memory);
    NoHeadingsInWorkflows(memory);
    DecisionsHeadings(memory);
    GotchasHeadings(memory);
    FilterPieces(
      Header(memory, today),
      ErrorsSection(memory),
      ConventionsSection(memory),
      WorkflowsSection(memory),
      DecisionsSection(memory),
      GotchasSection(memory),
      IsSectionHeading,
      OnlyIf(memory.episodic != [], H2("Common Errors")),
      OnlyIf(memory.semantic != [], H2("Conventions")),
      OnlyIf(memory.procedural != [], H2("Workflows")),
      OnlyIf(memory.decisions != [], H2("Decisions")),
      OnlyIf(memory.gotchas != [], H2("Gotchas")));
  }

  /** Errors, conventions, workflows and gotchas list the 10, 15, 5 and 10
      entries with the largest counts (all of them when there are fewer);
      decisions list the first 10 in their stored order. */
  lemma ClaudeMdPicksTop(memory: ProjectMemory)
    ensures IsTopK(memory.episodic, Occurrences, 10, TopErrors(memory))
    ensures IsTopK(memory.semantic, Frequency, 15, TopConventions(memory))
    ensures IsTopK(memory.procedural, TimesUsed, 5, TopWorkflows(memory))
    ensures IsTopK(memory.gotchas, GotchaFrequency, 10, TopGotchas(memory))
    ensures Take(memory.decisions, 10) == memory.decisions[..if |memory.decisions| < 10 then |memory.decisions| else 10]
  {
    TopK(memory.episodic, Occurrences, 10);
    TopK(memory.semantic, Frequency, 15);
    TopK(memory.procedural, TimesUsed, 5);
    TopK(memory.gotchas, GotchaFrequency, 10);
  }

  /** Entries with equal counts are listed in their stored order. */
  lemma ClaudeMdTiesInOrder(memory: ProjectMemory, n: int)
    ensures Filter(SortDesc(memory.episodic, Occurrences), HasKey(Occurrences, n))
         == Filter(memory.episodic, HasKey(Occurrences, n))
    ensures Filter(SortDesc(memory.semantic, Frequency), HasKey(Frequency, n))
         == Filter(memory.semantic, HasKey(Frequency, n))
    ensures Filter(SortDesc(memory.procedural, TimesUsed), HasKey(TimesUsed, n))
         == Filter(memory.procedural, HasKey(TimesUsed, n))
    ensures Filter(SortDesc(memory.gotchas, GotchaFrequency), HasKey(GotchaFrequency, n))
         == Filter(memory.gotchas, HasKey(GotchaFrequency, n))
  {
    SortDescStable(memory.episodic, Occurrences, n);
    SortDescStable(memory.semantic, Frequency, n);
    SortDescStable(memory.procedural, TimesUsed, n);
    SortDescStable(memory.gotchas, GotchaFrequency, n);
  }

  /** Step `i` of a workflow is rendered with the number `i + 1`, which reads
      back from the digits before the `. `. */
  lemma StepNumbering(steps: seq<string>, i: nat)
    requires i < |steps|
    ensures var line := StepLines(steps)[i];
      var digits := NatToString(i + 1);
      && line == digits + ". " + steps[i]
      && DecimalValue(digits) == i + 1
  {
    DecimalRoundTrip(i + 1);
  }

  // ---------------------------------------------------------------------------
  // generate_skills_simple
  // ---------------------------------------------------------------------------

  /** The characters a skill or task file name keeps: `[a-z0-9-]`. */
  predicate IsNameChar(c: char) {
    IsLowerAlnum(c) || c == '-'
  }

  /** `re.sub(r"[^a-z0-9-]", "", workflow.lower().replace(" ", "-"))`. */
  function SkillName(workflow: string): (r: string)
    ensures forall i :: 0 <= i < |r| ==> IsNameChar(r[i])
  {
    FilterSound(Replace(Lower(workflow), ' ', '-'), IsNameChar);
    Filter(Replace(Lower(workflow), ' ', '-'), IsNameChar)
  }

  /** The lines of one skill file. */
  function SkillLines(p: ConsolidatedProcedural): seq<string> {
    [p.workflow, "", "## Steps", ""]
    + StepLines(p.steps)
    + (if Truthy(p.trigger) then ["", "## When to Use", "", p.trigger.value] else [])
  }

  function SkillContent(p: ConsolidatedProcedural): string {
    Join(SkillLines(p), "\n")
  }

  /** The skills dictionary after the loop has seen `ps`: workflows used
      fewer than twice are skipped, and a later workflow overwrites an earlier
      one with the same name. */
  function Skills(ps: seq<ConsolidatedProcedural>): map<string, string> {
    if |ps| == 0 then map[]
    else
      var skills := Skills(ps[..|ps| - 1]);
      var p := ps[|ps| - 1];
      if p.timesUsed < 2 then skills else skills[SkillName(p.workflow) := SkillContent(p)]
  }

  /** The `content` list of one skill, built by appends. */
  method BuildSkillContent(item: ConsolidatedProcedural) returns (text: string)
    ensures text == SkillContent(item)
  {
    var content := [item.workflow, "", "## Steps", ""];
    content := AppendSteps(content, item.steps);
    if item.trigger.Some? && item.trigger.value != "" {
      content := content + ["", "## When to Use", "", item.trigger.value];
    }
    assert content == SkillLines(item);
    text := Join(content, "\n");
  }

  /** `generate_skills_simple`. */
  method GenerateSkillsSimple(memory: ProjectMemory) returns (skills: map<string, string>)
    ensures skills == Skills(memory.procedural)
  {
    skills := map[];
    var ps := memory.procedural;
    var i := 0;
    while i < |ps|
      invariant 0 <= i <= |ps|
      invariant skills == Skills(ps[..i])
    {
      assert ps[..i + 1][..i] == ps[..i];
      var item := ps[i];
      if item.timesUsed < 2 {
        i := i + 1;
        continue;
      }
      var name := SkillName(item.workflow);
      var content := BuildSkillContent(item);
      skills := skills[name := content];
      i := i + 1;
    }
    assert ps[..i] == ps;
  }

  /** A name is a skill exactly when some workflow used at least twice has
      that name. */
  lemma {:induction false} SkillsKeys(ps: seq<ConsolidatedProcedural>, name: string)
    ensures name in Skills(ps) <==>
      exists i :: 0 <= i < |ps| && ps[i].timesUsed >= 2 && SkillName(ps[i].workflow) == name
  {
    if |ps| > 0 {
      var init := ps[..|ps| - 1];
      SkillsKeys(init, name);
      if exists i :: 0 <= i < |init| && init[i].timesUsed >= 2 && SkillName(init[i].workflow) == name {
        var i :| 0 <= i < |init| && init[i].timesUsed >= 2 && SkillName(init[i].workflow) == name;
        assert ps[i] == init[i];
      }
      if exists i :: 0 <= i < |ps| && ps[i].timesUsed >= 2 && SkillName(ps[i].workflow) == name {
        var i :| 0 <= i < |ps| && ps[i].timesUsed >= 2 && SkillName(ps[i].workflow) == name;
        if i < |init| { assert init[i] == ps[i]; }
      }
    }
  }

  /** A skill's content is that of the last qualifying workflow with its
      name. */
  lemma {:induction false} SkillsLastWins(ps: seq<ConsolidatedProcedural>, i: nat)
    requires i < |ps| && ps[i].timesUsed >= 2
    requires forall j :: i < j < |ps| && ps[j].timesUsed >= 2 ==> SkillName(ps[j].workflow) != SkillName(ps[i].workflow)
    ensures SkillName(ps[i].workflow) in Skills(ps)
    ensures Skills(ps)[SkillName(ps[i].workflow)] == SkillContent(ps[i])
  {
    if i < |ps| - 1 {
      var init := ps[..|ps| - 1];
      assert init[i] == ps[i];
      forall j | i < j < |init| && init[j].timesUsed >= 2
        ensures SkillName(init[j].workflow) != SkillName(init[i].workflow)
      {
        assert init[j] == ps[j];
      }
      SkillsLastWins(init, i);
    }
  }

  /** "When to Use" is written exactly when the workflow has a non-empty
      trigger; it is then the second-to-last heading line before the trigger
      itself, which ends the file. */
  lemma SkillTrigger(p: ConsolidatedProcedural)
    ensures var lines := SkillLines(p);
      && (Truthy(p.trigger) ==> lines[|lines| - 3..] == ["## When to Use", "", p.trigger.value])
      && (!Truthy(p.trigger) ==> lines == [p.workflow, "", "## Steps", ""] + StepLines(p.steps))
  {
  }

  /** Slugifying a skill name again changes nothing. */
  lemma SkillNameIdempotent(workflow: string)
    ensures SkillName(SkillName(workflow)) == SkillName(workflow)
  {
    var n := SkillName(workflow);
    assert Lower(n) == n;
    assert Replace(n, ' ', '-') == n;
    FilterAll(n, IsNameChar);
  }

  // ---------------------------------------------------------------------------
  // generate_all: task file names
  // ---------------------------------------------------------------------------

  /** `f"{n:02d}"`: the decimal digits of `n`, zero-padded to two. */
  function Pad2(n: nat): (r: string)
    ensures |r| >= 2
    ensures forall i :: 0 <= i < |r| ==> IsDigit(r[i])
  {
    if n < 10 then "0" + NatToString(n) else NatToString(n)
  }

  /** The padded digits read back as the number. */
  lemma Pad2Value(n: nat)
    ensures DecimalValue(Pad2(n)) == n
  {
    if n < 10 {
      var r := Pad2(n);
      assert r[..|r| - 1] == "0";
      assert DecimalValue("0") == 0 by {
        assert "0"[..0] == [];
      }
    } else {
      DecimalRoundTrip(n);
    }
  }

  /** The sanitised title: lower-cased, spaces and path separators turned
      into `-`, everything but `[a-z0-9-]` dropped, cut to 40 characters. */
  function SafeTitle(title: string): (r: string)
    ensures |r| <= 40
    ensures forall i :: 0 <= i < |r| ==> IsNameChar(r[i])
  {
    var dashed := Replace(Replace(Replace(Lower(title), ' ', '-'), '/', '-'), '\\', '-');
    FilterSound(dashed, IsNameChar);
    Take(Filter(dashed, IsNameChar), 40)
  }

  /** The file name of a task at 0-based position `index`; a task without a
      title is named after "task". */
  function TaskFileName(index: nat, title: Option<string>): string {
    Pad2(index + 1) + "-" + SafeTitle(title.GetOr("task")) + ".md"
  }

  /** Sanitising a sanitised title changes nothing. */
  lemma SafeTitleIdempotent(title: string)
    ensures SafeTitle(SafeTitle(title)) == SafeTitle(title)
  {
    var t := SafeTitle(title);
    assert Lower(t) == t;
    assert Replace(Replace(Replace(t, ' ', '-'), '/', '-'), '\\', '-') == t;
    FilterAll(t, IsNameChar);
  }

  /** The name opens with the 1-based position in at least two digits,
      followed by `-`, and the digits read back as that position. */
  lemma TaskFileNameIndex(index: nat, title: Option<string>)
    ensures var name := TaskFileName(index, title);
      var digits := Pad2(index + 1);
      && name[..|digits|] == digits && name[|digits|] == '-'
      && DecimalValue(digits) == index + 1
  {
    Pad2Value(index + 1);
  }

  /** Tasks at different positions never share a file name. */
  lemma TaskFileNamesDistinct(i: nat, j: nat, a: Option<string>, b: Option<string>)
    requires i != j
    ensures TaskFileName(i, a) != TaskFileName(j, b)
  {
    var x := TaskFileName(i, a);
    var y := TaskFileName(j, b);
    var di := Pad2(i + 1);
    var dj := Pad2(j + 1);
    TaskFileNameIndex(i, a);
    TaskFileNameIndex(j, b);
    if |di| < |dj| {
      assert x[|di|] == '-' && IsDigit(y[|di|]);
    } else if |dj| < |di| {
      assert y[|dj|] == '-' && IsDigit(x[|dj|]);
    } else {
      assert di != dj;
      assert x[..|di|] != y[..|dj|];
    }
  }
}
