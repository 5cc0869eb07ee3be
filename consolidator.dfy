/** The rule-based consolidator: merges the extractions of one project into one
    project memory without a language model.

    Each of the five categories has its own dictionary, keyed by the item's
    lower-cased, stripped text. A Python dict remembers insertion order, and the
    consolidated lists are read out in that order, so the model keeps each
    dictionary as a `map` plus the sequence of its keys in insertion order
    (a `Table`).

    The specification of the merge is a left fold over the category's
    "sightings": every item of that category in every extraction, in loop
    order, with the session id and timestamp of its extraction. The method
    `SimpleConsolidate` is proved to compute that fold; the lemmas then say
    what every consolidated entry is in terms of the sightings sharing its key. */
module Consolidator {
  import opened Wrappers
  import opened Text
  import opened Seqs
  import opened Models

  /** The dictionary key of an item: `text.lower().strip()`. */
  function NormKey(text: string): string {
    Strip(Lower(text))
  }

  /** `extracted_at[:10]`: the date part of an ISO timestamp. */
  function DatePart(extractedAt: string): string {
    Prefix(extractedAt, 10)
  }

  /** One item of one category, met in the extraction of session `sessionId`. */
  datatype Sighting<T> = Sighting(sessionId: string, extractedAt: string, item: T)

  /** The sightings of the items `items` of extraction `ext`, in list order. */
  function SightingsIn<T>(ext: SessionExtraction, items: seq<T>): (r: seq<Sighting<T>>)
    ensures |r| == |items|
    ensures forall i :: 0 <= i < |items| ==> r[i] == Sighting(ext.sessionId, ext.extractedAt, items[i])
  {
    seq(|items|, i requires 0 <= i < |items| => Sighting(ext.sessionId, ext.extractedAt, items[i]))
  }

  /** Every sighting of one category over all extractions, in the order the
      consolidation loop visits them. */
  function Sightings<T>(exts: seq<SessionExtraction>, category: SessionExtraction -> seq<T>): seq<Sighting<T>> {
    if |exts| == 0 then []
    else Sightings(exts[..|exts| - 1], category) + SightingsIn(exts[|exts| - 1], category(exts[|exts| - 1]))
  }

  function EpisodicOf(e: SessionExtraction): seq<EpisodicMemory> { e.episodic }
  function SemanticOf(e: SessionExtraction): seq<SemanticMemory> { e.semantic }
  function ProceduralOf(e: SessionExtraction): seq<ProceduralMemory> { e.procedural }
  function DecisionsOf(e: SessionExtraction): seq<Decision> { e.decisions }
  function GotchasOf(e: SessionExtraction): seq<Gotcha> { e.gotchas }

  function EpisodicKey(item: EpisodicMemory): string { NormKey(item.incident) }
  function SemanticKey(item: SemanticMemory): string { NormKey(item.knowledge) }
  function ProceduralKey(item: ProceduralMemory): string { NormKey(item.workflow) }
  function DecisionKey(item: Decision): string { NormKey(item.decision) }
  function GotchaKey(item: Gotcha): string { NormKey(item.issue) }


  // ---------------------------------------------------------------------------
  // Keyed tables: a dict with its insertion order
  // ---------------------------------------------------------------------------

  datatype Table<V> = Table(order: seq<string>, entries: map<string, V>)

  /** One key per entry, each key listed once. */
  ghost predicate Valid<V>(t: Table<V>) {
    NoDup(t.order) && forall k :: k in t.entries <==> k in t.order
  }

  /** `list(d.values())`: the entries in insertion order. */
  function Values<V>(t: Table<V>): (r: seq<V>)
    requires forall k :: k in t.order ==> k in t.entries
    ensures |r| == |t.order|
    ensures forall i :: 0 <= i < |r| ==> r[i] == t.entries[t.order[i]]
  {
    seq(|t.order|, i requires 0 <= i < |t.order| => t.entries[t.order[i]])
  }

  /** How one category merges an item into its dict: the key it is filed
      under, the entry a first sighting creates, and how a later sighting
      updates the entry already there. */
  datatype Merge<!I, !V> = Merge(key: I -> string, create: Sighting<I> -> V, update: (V, Sighting<I>) -> V)

  /** One iteration of a category's inner loop:
      `if key in d: <update d[key]> else: d[key] = <new entry>`. */
  function Step<I, V>(t: Table<V>, s: Sighting<I>, m: Merge<I, V>): Table<V> {
    var k := m.key(s.item);
    if k in t.entries then Table(t.order, t.entries[k := m.update(t.entries[k], s)])
    else Table(t.order + [k], t.entries[k := m.create(s)])
  }

  /** The dict after merging the sightings `ss` in order, from an empty one. */
  function Fold<I, V>(ss: seq<Sighting<I>>, m: Merge<I, V>): Table<V> {
    if |ss| == 0 then Table([], map[]) else Step(Fold(ss[..|ss| - 1], m), ss[|ss| - 1], m)
  }

  /** The entry that a list of sightings sharing one key produces: created by
      the first, updated by each of the others in turn. */
  function Entry<I, V>(ms: seq<Sighting<I>>, m: Merge<I, V>): V
    requires |ms| > 0
  {
    if |ms| == 1 then m.create(ms[0]) else m.update(Entry(ms[..|ms| - 1], m), ms[|ms| - 1])
  }

  /** The keys of the sightings, in order, repeats included. */
  function KeysOf<I>(ss: seq<Sighting<I>>, key: I -> string): (r: seq<string>)
    ensures |r| == |ss|
    ensures forall i :: 0 <= i < |ss| ==> r[i] == key(ss[i].item)
  {
    if |ss| == 0 then [] else KeysOf(ss[..|ss| - 1], key) + [key(ss[|ss| - 1].item)]
  }

  function KeyIs<I>(key: I -> string, k: string): Sighting<I> -> bool {
    (s: Sighting<I>) => key(s.item) == k
  }

  /** The sightings whose item has key `k`, in order. */
  function Matching<I>(ss: seq<Sighting<I>>, key: I -> string, k: string): seq<Sighting<I>> {
    Filter(ss, KeyIs(key, k))
  }

  lemma MatchingSnoc<I>(ss: seq<Sighting<I>>, x: Sighting<I>, key: I -> string, k: string)
    ensures Matching(ss + [x], key, k) == Matching(ss, key, k) + (if key(x.item) == k then [x] else [])
  {
    FilterConcat(ss, [x], KeyIs(key, k));
    FilterSingle(x, KeyIs(key, k));
  }

  /** Whatever the category, merging gives one entry per distinct key, listed
      in the order the keys were first seen. */
  lemma {:induction false} FoldOrder<I, V>(ss: seq<Sighting<I>>, m: Merge<I, V>)
    ensures Valid(Fold(ss, m))
    ensures Fold(ss, m).order == Dedup(KeysOf(ss, m.key))
  {
    if |ss| > 0 {
      var pre, x := ss[..|ss| - 1], ss[|ss| - 1];
      FoldOrder(pre, m);
      var t := Fold(pre, m);
      var ks := KeysOf(ss, m.key);
      assert ks[..|ks| - 1] == KeysOf(pre, m.key);
      var kx := m.key(x.item);
      if kx !in t.entries {
        forall i | 0 <= i < |t.order| ensures t.order[i] != kx {
          assert t.order[i] in t.entries;
        }
      }
    }
  }

  /** A key has an entry exactly when some sighting has that key, and that
      entry is the one the sightings with that key produce on their own, in
      order. */
  lemma {:induction false} FoldEntryAt<I, V>(ss: seq<Sighting<I>>, m: Merge<I, V>, k: string)
    ensures k in Fold(ss, m).entries <==> Matching(ss, m.key, k) != []
    ensures k in Fold(ss, m).entries ==> Fold(ss, m).entries[k] == Entry(Matching(ss, m.key, k), m)
  {
    if |ss| > 0 {
      var pre, x := ss[..|ss| - 1], ss[|ss| - 1];
      FoldEntryAt(pre, m, k);
      MatchingSnoc(pre, x, m.key, k);
      assert pre + [x] == ss;
      var t := Fold(pre, m);
      var ms0 := Matching(pre, m.key, k);
      var ms := Matching(ss, m.key, k);
      if m.key(x.item) != k {
        assert ms == ms0;
      } else if k in t.entries {
        assert ms == ms0 + [x];
        assert ms[..|ms| - 1] == ms0;
        assert Entry(ms, m) == m.update(Entry(ms0, m), x);
      } else {
        assert ms == [x];
      }
    }
  }

  lemma FoldEntries<I, V>(ss: seq<Sighting<I>>, m: Merge<I, V>)
    ensures forall k :: k in Fold(ss, m).entries <==> Matching(ss, m.key, k) != []
    ensures forall k :: k in Fold(ss, m).entries ==> Fold(ss, m).entries[k] == Entry(Matching(ss, m.key, k), m)
  {
    forall k
      ensures k in Fold(ss, m).entries <==> Matching(ss, m.key, k) != []
      ensures k in Fold(ss, m).entries ==> Fold(ss, m).entries[k] == Entry(Matching(ss, m.key, k), m)
    {
      FoldEntryAt(ss, m, k);
    }
  }

  // ---------------------------------------------------------------------------
  // Episodic: occurrences, provenance and last-seen date
  // ---------------------------------------------------------------------------

  /** A first sighting of an incident. The dict written by the source has no
      scope, so the entry takes the default. */
  function CreateEpisodic(s: Sighting<EpisodicMemory>): ConsolidatedEpisodic {
    NewConsolidatedEpisodic(s.item.incident, s.item.resolution)
      .(sessions := [s.sessionId], lastSeen := Some(DatePart(s.extractedAt)))
  }

  /** A later sighting: one more occurrence, its session appended, its date. */
  function UpdateEpisodic(e: ConsolidatedEpisodic, s: Sighting<EpisodicMemory>): ConsolidatedEpisodic {
    e.(occurrences := e.occurrences + 1, sessions := e.sessions + [s.sessionId], lastSeen := Some(DatePart(s.extractedAt)))
  }

  const EpisodicMerge := Merge(EpisodicKey, CreateEpisodic, UpdateEpisodic)

  /** What a consolidated incident is, given the sightings with its key: the
      text of the first, one occurrence and one session id per sighting (in
      order, repeats kept), the date of the last, and the default scope. */
  ghost predicate EpisodicEntryOk(e: ConsolidatedEpisodic, ms: seq<Sighting<EpisodicMemory>>) {
    && |ms| > 0
    && e.incident == ms[0].item.incident
    && e.resolution == ms[0].item.resolution
    && e.occurrences == |ms|
    && e.sessions == MapSeq(ms, SessionIdOf)
    && e.lastSeen == Some(DatePart(ms[|ms| - 1].extractedAt))
    && e.scope == Universal
  }

  function SessionIdOf<I>(s: Sighting<I>): string { s.sessionId }

  lemma {:induction false} EpisodicEntry(ms: seq<Sighting<EpisodicMemory>>)
    requires |ms| > 0
    ensures EpisodicEntryOk(Entry(ms, EpisodicMerge), ms)
  {
    if |ms| > 1 {
      var pre := ms[..|ms| - 1];
      EpisodicEntry(pre);
      assert MapSeq(ms, SessionIdOf) == MapSeq(pre, SessionIdOf) + [ms[|ms| - 1].sessionId];
    }
  }

  // ---------------------------------------------------------------------------
  // Semantic: frequency and confidence
  // ---------------------------------------------------------------------------

  function CreateSemantic(s: Sighting<SemanticMemory>): ConsolidatedSemantic {
    ConsolidatedSemantic(s.item.knowledge, s.item.category, 1, s.item.confidence)
  }

  /** A later sighting: one more count, and "high" confidence from the third on. */
  function UpdateSemantic(e: ConsolidatedSemantic, s: Sighting<SemanticMemory>): ConsolidatedSemantic {
    var f := e.frequency + 1;
    e.(frequency := f, confidence := if f >= 3 then "high" else e.confidence)
  }

  const SemanticMerge := Merge(SemanticKey, CreateSemantic, UpdateSemantic)

  /** A consolidated fact: the first sighting's text and category, one count
      per sighting, and the first sighting's confidence until there are three
      sightings, "high" from then on. */
  ghost predicate SemanticEntryOk(e: ConsolidatedSemantic, ms: seq<Sighting<SemanticMemory>>) {
    && |ms| > 0
    && e.knowledge == ms[0].item.knowledge
    && e.category == ms[0].item.category
    && e.frequency == |ms|
    && e.confidence == (if |ms| >= 3 then "high" else ms[0].item.confidence)
  }

  lemma {:induction false} SemanticEntry(ms: seq<Sighting<SemanticMemory>>)
    requires |ms| > 0
    ensures SemanticEntryOk(Entry(ms, SemanticMerge), ms)
  {
    if |ms| > 1 {
      SemanticEntry(ms[..|ms| - 1]);
    }
  }

  // ---------------------------------------------------------------------------
  // Procedural: usage count and the longest step list
  // ---------------------------------------------------------------------------

  function CreateProcedural(s: Sighting<ProceduralMemory>): ConsolidatedProcedural {
    ConsolidatedProcedural(s.item.workflow, s.item.steps, s.item.trigger, 1)
  }

  /** A later sighting: one more use, and its steps when there are strictly more. */
  function UpdateProcedural(e: ConsolidatedProcedural, s: Sighting<ProceduralMemory>): ConsolidatedProcedural {
    e.(timesUsed := e.timesUsed + 1, steps := if |s.item.steps| > |e.steps| then s.item.steps else e.steps)
  }

  const ProceduralMerge := Merge(ProceduralKey, CreateProcedural, UpdateProcedural)

  /** The steps of sighting `i` are as long as any, and strictly longer than
      those of every sighting before it. */
  ghost predicate FirstLongest(ms: seq<Sighting<ProceduralMemory>>, i: int) {
    && 0 <= i < |ms|
    && (forall j :: 0 <= j < |ms| ==> |ms[j].item.steps| <= |ms[i].item.steps|)
    && (forall j :: 0 <= j < i ==> |ms[j].item.steps| < |ms[i].item.steps|)
  }

  /** A consolidated workflow: the first sighting's name and trigger, one use
      per sighting, and the step list of the first sighting whose list is
      longest. */
  ghost predicate ProceduralEntryOk(e: ConsolidatedProcedural, ms: seq<Sighting<ProceduralMemory>>) {
    && |ms| > 0
    && e.workflow == ms[0].item.workflow
    && e.trigger == ms[0].item.trigger
    && e.timesUsed == |ms|
    && exists i :: FirstLongest(ms, i) && e.steps == ms[i].item.steps
  }

  /** One more sighting of a workflow keeps its entry correct. */
  lemma ProceduralStep(pre: seq<Sighting<ProceduralMemory>>, x: Sighting<ProceduralMemory>)
    requires |pre| > 0 && ProceduralEntryOk(Entry(pre, ProceduralMerge), pre)
    ensures ProceduralEntryOk(Entry(pre + [x], ProceduralMerge), pre + [x])
  {
    var ms := pre + [x];
    assert ms[..|ms| - 1] == pre;
    var e := Entry(pre, ProceduralMerge);
    assert Entry(ms, ProceduralMerge) == UpdateProcedural(e, x);
    var i :| FirstLongest(pre, i) && e.steps == pre[i].item.steps;
    assert ms[0] == pre[0];
    if |x.item.steps| > |e.steps| {
      forall j | 0 <= j < |ms| ensures |ms[j].item.steps| <= |x.item.steps| {
        if j < |pre| { assert ms[j] == pre[j]; }
      }
      forall j | 0 <= j < |pre| ensures |ms[j].item.steps| < |x.item.steps| {
        assert ms[j] == pre[j];
      }
      assert FirstLongest(ms, |ms| - 1);
    } else {
      assert ms[i] == pre[i];
      forall j | 0 <= j < |ms| ensures |ms[j].item.steps| <= |ms[i].item.steps| {
        if j < |pre| { assert ms[j] == pre[j]; }
      }
      forall j | 0 <= j < i ensures |ms[j].item.steps| < |ms[i].item.steps| {
        assert ms[j] == pre[j];
      }
      assert FirstLongest(ms, i);
    }
  }

  lemma {:induction false} ProceduralEntry(ms: seq<Sighting<ProceduralMemory>>)
    requires |ms| > 0
    ensures ProceduralEntryOk(Entry(ms, ProceduralMerge), ms)
  {
    if |ms| == 1 {
      assert FirstLongest(ms, 0);
    } else {
      var pre, x := ms[..|ms| - 1], ms[|ms| - 1];
      ProceduralEntry(pre);
      ProceduralStep(pre, x);
      assert pre + [x] == ms;
    }
  }

  // ---------------------------------------------------------------------------
  // Decisions: last one wins
  // ---------------------------------------------------------------------------

  /** The date recorded for a decision: its own date unless that is missing or
      empty, otherwise the date of the extraction (`item.date or
      extracted_at[:10]`). */
  function DecisionDate(s: Sighting<Decision>): (d: string)
    ensures s.item.date.Some? && s.item.date.value != "" ==> d == s.item.date.value
    ensures s.item.date.None? || s.item.date.value == "" ==> d == DatePart(s.extractedAt)
  {
    if s.item.date.Some? && s.item.date.value != "" then s.item.date.value else DatePart(s.extractedAt)
  }

  /** The dict a decision sighting is stored as: always "active". */
  function DecisionEntry(s: Sighting<Decision>): ConsolidatedDecision {
    ConsolidatedDecision(s.item.decision, s.item.rationale, s.item.alternativesConsidered, "active", Some(DecisionDate(s)))
  }

  /** A later sighting overwrites the entry; the key keeps its place. */
  function UpdateDecision(e: ConsolidatedDecision, s: Sighting<Decision>): ConsolidatedDecision {
    DecisionEntry(s)
  }

  const DecisionMerge := Merge(DecisionKey, DecisionEntry, UpdateDecision)

  /** A consolidated decision is the last sighting with its key, stored as
      active, with that sighting's date or else its extraction's date. */
  ghost predicate DecisionEntryOk(e: ConsolidatedDecision, ms: seq<Sighting<Decision>>) {
    && |ms| > 0
    && var last := ms[|ms| - 1];
    && e.decision == last.item.decision
    && e.rationale == last.item.rationale
    && e.alternativesConsidered == last.item.alternativesConsidered
    && e.status == "active"
    && e.date == Some(DecisionDate(last))
  }

  lemma DecisionEntryLast(ms: seq<Sighting<Decision>>)
    requires |ms| > 0
    ensures DecisionEntryOk(Entry(ms, DecisionMerge), ms)
  {
  }

  // ---------------------------------------------------------------------------
  // Gotchas: frequency and the union of tags
  // ---------------------------------------------------------------------------

  /** A first sighting of a gotcha; the dict has no scope, so the entry takes
      the default. */
  function CreateGotcha(s: Sighting<Gotcha>): ConsolidatedGotcha {
    NewConsolidatedGotcha(s.item.issue).(cause := s.item.cause, solution := s.item.solution, tags := s.item.tags)
  }

  /** A later sighting: one more count, and the union of the tags.
      `list(set(a + b))` lists the union in hash order; the model lists it as
      `Dedup(a + b)`. */
  function UpdateGotcha(e: ConsolidatedGotcha, s: Sighting<Gotcha>): ConsolidatedGotcha {
    e.(frequency := e.frequency + 1, tags := Dedup(e.tags + s.item.tags))
  }

  const GotchaMerge := Merge(GotchaKey, CreateGotcha, UpdateGotcha)

  /** A tag carried by one of the sightings. */
  ghost predicate TagOf(ms: seq<Sighting<Gotcha>>, tag: string) {
    exists j :: 0 <= j < |ms| && tag in ms[j].item.tags
  }

  /** A consolidated gotcha: the first sighting's issue, cause and solution,
      one count per sighting, the default scope, and as tags the union of all
      sightings' tags (the first sighting's list as it was while it is alone,
      without repeats once a second one is merged). */
  ghost predicate GotchaEntryOk(e: ConsolidatedGotcha, ms: seq<Sighting<Gotcha>>) {
    && |ms| > 0
    && e.issue == ms[0].item.issue
    && e.cause == ms[0].item.cause
    && e.solution == ms[0].item.solution
    && e.frequency == |ms|
    && e.scope == Universal
    && (|ms| == 1 ==> e.tags == ms[0].item.tags)
    && (|ms| > 1 ==> NoDup(e.tags))
    && forall tag :: tag in e.tags <==> TagOf(ms, tag)
  }

  lemma DedupConcatMembers(a: seq<string>, b: seq<string>, tag: string)
    ensures tag in Dedup(a + b) <==> tag in a || tag in b
  {
    var d := Dedup(a + b);
    if tag in a {
      var i :| 0 <= i < |a| && a[i] == tag;
      assert (a + b)[i] == tag;
    } else if tag in b {
      var i :| 0 <= i < |b| && b[i] == tag;
      assert (a + b)[|a| + i] == tag;
    }
    if tag in d {
      var i :| 0 <= i < |d| && d[i] == tag;
      assert tag in a + b;
    }
  }

  lemma TagOfSnoc(pre: seq<Sighting<Gotcha>>, x: Sighting<Gotcha>, tag: string)
    ensures TagOf(pre + [x], tag) <==> TagOf(pre, tag) || tag in x.item.tags
  {
    var ms := pre + [x];
    if TagOf(ms, tag) {
      var j :| 0 <= j < |ms| && tag in ms[j].item.tags;
      if j < |pre| { assert ms[j] == pre[j]; }
    }
    if TagOf(pre, tag) {
      var j :| 0 <= j < |pre| && tag in pre[j].item.tags;
      assert ms[j] == pre[j];
    }
    if tag in x.item.tags {
      assert ms[|pre|] == x;
    }
  }

  /** One more sighting of a gotcha keeps its entry correct. */
  lemma GotchaStep(pre: seq<Sighting<Gotcha>>, x: Sighting<Gotcha>)
    requires |pre| > 0 && GotchaEntryOk(Entry(pre, GotchaMerge), pre)
    ensures GotchaEntryOk(Entry(pre + [x], GotchaMerge), pre + [x])
  {
    var ms := pre + [x];
    assert ms[..|ms| - 1] == pre;
    var e := Entry(pre, GotchaMerge);
    var e' := Entry(ms, GotchaMerge);
    assert e' == UpdateGotcha(e, x);
    assert ms[0] == pre[0];
    forall tag ensures tag in e'.tags <==> TagOf(ms, tag) {
      DedupConcatMembers(e.tags, x.item.tags, tag);
      TagOfSnoc(pre, x, tag);
    }
  }

  lemma {:induction false} GotchaEntry(ms: seq<Sighting<Gotcha>>)
    requires |ms| > 0
    ensures GotchaEntryOk(Entry(ms, GotchaMerge), ms)
  {
    if |ms| == 1 {
      forall tag ensures tag in ms[0].item.tags <==> TagOf(ms, tag) {
      }
    } else {
      var pre, x := ms[..|ms| - 1], ms[|ms| - 1];
      GotchaEntry(pre);
      GotchaStep(pre, x);
      assert pre + [x] == ms;
    }
  }

  // ---------------------------------------------------------------------------
  // The whole consolidation
  // ---------------------------------------------------------------------------

  /** The five lists `simple_consolidate` returns. */
  datatype ConsolidatedData = ConsolidatedData(
    episodic: seq<ConsolidatedEpisodic>,
    semantic: seq<ConsolidatedSemantic>,
    procedural: seq<ConsolidatedProcedural>,
    decisions: seq<ConsolidatedDecision>,
    gotchas: seq<ConsolidatedGotcha>)

  function EpisodicTable(exts: seq<SessionExtraction>): Table<ConsolidatedEpisodic> {
    Fold(Sightings(exts, EpisodicOf), EpisodicMerge)
  }
  function SemanticTable(exts: seq<SessionExtraction>): Table<ConsolidatedSemantic> {
    Fold(Sightings(exts, SemanticOf), SemanticMerge)
  }
  function ProceduralTable(exts: seq<SessionExtraction>): Table<ConsolidatedProcedural> {
    Fold(Sightings(exts, ProceduralOf), ProceduralMerge)
  }
  function DecisionTable(exts: seq<SessionExtraction>): Table<ConsolidatedDecision> {
    Fold(Sightings(exts, DecisionsOf), DecisionMerge)
  }
  function GotchaTable(exts: seq<SessionExtraction>): Table<ConsolidatedGotcha> {
    Fold(Sightings(exts, GotchasOf), GotchaMerge)
  }

  /** What `simple_consolidate(exts)` returns: each category's entries in the
      order their keys were first seen. */
  function Consolidated(exts: seq<SessionExtraction>): ConsolidatedData {
    FoldOrder(Sightings(exts, EpisodicOf), EpisodicMerge);
    FoldOrder(Sightings(exts, SemanticOf), SemanticMerge);
    FoldOrder(Sightings(exts, ProceduralOf), ProceduralMerge);
    FoldOrder(Sightings(exts, DecisionsOf), DecisionMerge);
    FoldOrder(Sightings(exts, GotchasOf), GotchaMerge);
    ConsolidatedData(
      Values(EpisodicTable(exts)),
      Values(SemanticTable(exts)),
      Values(ProceduralTable(exts)),
      Values(DecisionTable(exts)),
      Values(GotchaTable(exts)))
  }

  /** One more item of the current extraction is one more step of the fold. */
  lemma FoldNextItem<I, V>(pre: seq<Sighting<I>>, ext: SessionExtraction, items: seq<I>, j: nat, m: Merge<I, V>)
    requires j < |items|
    ensures Fold(pre + SightingsIn(ext, items[..j + 1]), m)
         == Step(Fold(pre + SightingsIn(ext, items[..j]), m), Sighting(ext.sessionId, ext.extractedAt, items[j]), m)
  {
    var a := pre + SightingsIn(ext, items[..j]);
    var b := pre + SightingsIn(ext, items[..j + 1]);
    assert b[..|b| - 1] == a;
  }

  /** Once the items of extraction `i` are all merged, the fold covers the
      first `i + 1` extractions. */
  lemma SightingsNext<I>(exts: seq<SessionExtraction>, i: nat, category: SessionExtraction -> seq<I>)
    requires i < |exts|
    ensures Sightings(exts[..i + 1], category) == Sightings(exts[..i], category) + SightingsIn(exts[i], category(exts[i]))
  {
    assert exts[..i + 1][..i] == exts[..i];
  }

  lemma NoItemsYet<I>(pre: seq<Sighting<I>>, ext: SessionExtraction, items: seq<I>)
    ensures pre + SightingsIn(ext, items[..0]) == pre
  {
  }

  /** The inner loop over an extraction's incidents (consolidator.py lines
      100-113), given the dict and its key order so far. */
  method MergeEpisodicItems(ghost pre: seq<Sighting<EpisodicMemory>>, ext: SessionExtraction,
                         keys0: seq<string>, dict0: map<string, ConsolidatedEpisodic>)
    returns (keys: seq<string>, dict: map<string, ConsolidatedEpisodic>)
    requires Table(keys0, dict0) == Fold(pre, EpisodicMerge)
    ensures Table(keys, dict) == Fold(pre + SightingsIn(ext, ext.episodic), EpisodicMerge)
  {
    keys, dict := keys0, dict0;
    NoItemsYet(pre, ext, ext.episodic);
    var j := 0;
    while j < |ext.episodic|
      invariant 0 <= j <= |ext.episodic|
      invariant Table(keys, dict) == Fold(pre + SightingsIn(ext, ext.episodic[..j]), EpisodicMerge)
    {
      FoldNextItem(pre, ext, ext.episodic, j, EpisodicMerge);
      var item := ext.episodic[j];
      var x := Sighting(ext.sessionId, ext.extractedAt, item);
      var key := NormKey(item.incident);
      if key in dict {
        dict := dict[key := UpdateEpisodic(dict[key], x)];
      } else {
        dict := dict[key := CreateEpisodic(x)];
        keys := keys + [key];
      }
      j := j + 1;
    }
    assert ext.episodic[..j] == ext.episodic;
  }

  /** The inner loop over an extraction's facts (consolidator.py lines
      115-127), given the dict and its key order so far. */
  method MergeSemanticItems(ghost pre: seq<Sighting<SemanticMemory>>, ext: SessionExtraction,
                         keys0: seq<string>, dict0: map<string, ConsolidatedSemantic>)
    returns (keys: seq<string>, dict: map<string, ConsolidatedSemantic>)
    requires Table(keys0, dict0) == Fold(pre, SemanticMerge)
    ensures Table(keys, dict) == Fold(pre + SightingsIn(ext, ext.semantic), SemanticMerge)
  {
    keys, dict := keys0, dict0;
    NoItemsYet(pre, ext, ext.semantic);
    var j := 0;
    while j < |ext.semantic|
      invariant 0 <= j <= |ext.semantic|
      invariant Table(keys, dict) == Fold(pre + SightingsIn(ext, ext.semantic[..j]), SemanticMerge)
    {
      FoldNextItem(pre, ext, ext.semantic, j, SemanticMerge);
      var item := ext.semantic[j];
      var x := Sighting(ext.sessionId, ext.extractedAt, item);
      var key := NormKey(item.knowledge);
      if key in dict {
        dict := dict[key := UpdateSemantic(dict[key], x)];
      } else {
        dict := dict[key := CreateSemantic(x)];
        keys := keys + [key];
      }
      j := j + 1;
    }
    assert ext.semantic[..j] == ext.semantic;
  }

  /** The inner loop over an extraction's workflows (consolidator.py lines
      129-141), given the dict and its key order so far. */
  method MergeProceduralItems(ghost pre: seq<Sighting<ProceduralMemory>>, ext: SessionExtraction,
                         keys0: seq<string>, dict0: map<string, ConsolidatedProcedural>)
    returns (keys: seq<string>, dict: map<string, ConsolidatedProcedural>)
    requires Table(keys0, dict0) == Fold(pre, ProceduralMerge)
    ensures Table(keys, dict) == Fold(pre + SightingsIn(ext, ext.procedural), ProceduralMerge)
  {
    keys, dict := keys0, dict0;
    NoItemsYet(pre, ext, ext.procedural);
    var j := 0;
    while j < |ext.procedural|
      invariant 0 <= j <= |ext.procedural|
      invariant Table(keys, dict) == Fold(pre + SightingsIn(ext, ext.procedural[..j]), ProceduralMerge)
    {
      FoldNextItem(pre, ext, ext.procedural, j, ProceduralMerge);
      var item := ext.procedural[j];
      var x := Sighting(ext.sessionId, ext.extractedAt, item);
      var key := NormKey(item.workflow);
      if key in dict {
        dict := dict[key := UpdateProcedural(dict[key], x)];
      } else {
        dict := dict[key := CreateProcedural(x)];
        keys := keys + [key];
      }
      j := j + 1;
    }
    assert ext.procedural[..j] == ext.procedural;
  }

  /** The inner loop over an extraction's decisions (consolidator.py lines
      143-151), given the dict and its key order so far. */
  method MergeDecisionItems(ghost pre: seq<Sighting<Decision>>, ext: SessionExtraction,
                         keys0: seq<string>, dict0: map<string, ConsolidatedDecision>)
    returns (keys: seq<string>, dict: map<string, ConsolidatedDecision>)
    requires Table(keys0, dict0) == Fold(pre, DecisionMerge)
    ensures Table(keys, dict) == Fold(pre + SightingsIn(ext, ext.decisions), DecisionMerge)
  {
    keys, dict := keys0, dict0;
    NoItemsYet(pre, ext, ext.decisions);
    var j := 0;
    while j < |ext.decisions|
      invariant 0 <= j <= |ext.decisions|
      invariant Table(keys, dict) == Fold(pre + SightingsIn(ext, ext.decisions[..j]), DecisionMerge)
    {
      FoldNextItem(pre, ext, ext.decisions, j, DecisionMerge);
      var item := ext.decisions[j];
      var x := Sighting(ext.sessionId, ext.extractedAt, item);
      var key := NormKey(item.decision);
      if key !in dict {
        keys := keys + [key];
      }
      dict := dict[key := DecisionEntry(x)];
      j := j + 1;
    }
    assert ext.decisions[..j] == ext.decisions;
  }

  /** The inner loop over an extraction's gotchas (consolidator.py lines
      153-165), given the dict and its key order so far. */
  method MergeGotchaItems(ghost pre: seq<Sighting<Gotcha>>, ext: SessionExtraction,
                         keys0: seq<string>, dict0: map<string, ConsolidatedGotcha>)
    returns (keys: seq<string>, dict: map<string, ConsolidatedGotcha>)
    requires Table(keys0, dict0) == Fold(pre, GotchaMerge)
    ensures Table(keys, dict) == Fold(pre + SightingsIn(ext, ext.gotchas), GotchaMerge)
  {
    keys, dict := keys0, dict0;
    NoItemsYet(pre, ext, ext.gotchas);
    var j := 0;
    while j < |ext.gotchas|
      invariant 0 <= j <= |ext.gotchas|
      invariant Table(keys, dict) == Fold(pre + SightingsIn(ext, ext.gotchas[..j]), GotchaMerge)
    {
      FoldNextItem(pre, ext, ext.gotchas, j, GotchaMerge);
      var item := ext.gotchas[j];
      var x := Sighting(ext.sessionId, ext.extractedAt, item);
      var key := NormKey(item.issue);
      if key in dict {
        dict := dict[key := UpdateGotcha(dict[key], x)];
      } else {
        dict := dict[key := CreateGotcha(x)];
        keys := keys + [key];
      }
      j := j + 1;
    }
    assert ext.gotchas[..j] == ext.gotchas;
  }

  /** `simple_consolidate` (consolidator.py lines 91-173): one pass over the
      extractions, merging each item into its category's dict, then the
      dicts' values in insertion order. */
  method SimpleConsolidate(exts: seq<SessionExtraction>) returns (r: ConsolidatedData)
    ensures r == Consolidated(exts)
  {
    var episodic: map<string, ConsolidatedEpisodic> := map[];
    var episodicKeys: seq<string> := [];
    var semantic: map<string, ConsolidatedSemantic> := map[];
    var semanticKeys: seq<string> := [];
    var procedural: map<string, ConsolidatedProcedural> := map[];
    var proceduralKeys: seq<string> := [];
    var decisions: map<string, ConsolidatedDecision> := map[];
    var decisionKeys: seq<string> := [];
    var gotchas: map<string, ConsolidatedGotcha> := map[];
    var gotchaKeys: seq<string> := [];

    var i := 0;
    while i < |exts|
      invariant 0 <= i <= |exts|
      invariant Table(episodicKeys, episodic) == EpisodicTable(exts[..i])
      invariant Table(semanticKeys, semantic) == SemanticTable(exts[..i])
      invariant Table(proceduralKeys, procedural) == ProceduralTable(exts[..i])
      invariant Table(decisionKeys, decisions) == DecisionTable(exts[..i])
      invariant Table(gotchaKeys, gotchas) == GotchaTable(exts[..i])
    {
      var ext := exts[i];
      SightingsNext(exts, i, EpisodicOf);
      SightingsNext(exts, i, SemanticOf);
      SightingsNext(exts, i, ProceduralOf);
      SightingsNext(exts, i, DecisionsOf);
      SightingsNext(exts, i, GotchasOf);
      episodicKeys, episodic := MergeEpisodicItems(Sightings(exts[..i], EpisodicOf), ext, episodicKeys, episodic);
      semanticKeys, semantic := MergeSemanticItems(Sightings(exts[..i], SemanticOf), ext, semanticKeys, semantic);
      proceduralKeys, procedural := MergeProceduralItems(Sightings(exts[..i], ProceduralOf), ext, proceduralKeys, procedural);
      decisionKeys, decisions := MergeDecisionItems(Sightings(exts[..i], DecisionsOf), ext, decisionKeys, decisions);
      gotchaKeys, gotchas := MergeGotchaItems(Sightings(exts[..i], GotchasOf), ext, gotchaKeys, gotchas);
      i := i + 1;
    }
    assert exts[..i] == exts;
    FoldOrder(Sightings(exts, EpisodicOf), EpisodicMerge);
    FoldOrder(Sightings(exts, SemanticOf), SemanticMerge);
    FoldOrder(Sightings(exts, ProceduralOf), ProceduralMerge);
    FoldOrder(Sightings(exts, DecisionsOf), DecisionMerge);
    FoldOrder(Sightings(exts, GotchasOf), GotchaMerge);
    r := ConsolidatedData(
      Values(Table(episodicKeys, episodic)),
      Values(Table(semanticKeys, semantic)),
      Values(Table(proceduralKeys, procedural)),
      Values(Table(decisionKeys, decisions)),
      Values(Table(gotchaKeys, gotchas)));
  }

  // ---------------------------------------------------------------------------
  // What the consolidated lists hold
  // ---------------------------------------------------------------------------

  /** The distinct keys of the sightings, in the order they were first seen. */
  function KeyOrder<I>(ss: seq<Sighting<I>>, key: I -> string): seq<string> {
    Dedup(KeysOf(ss, key))
  }

  /** The values of a merged dict are, key by key in first-seen order, the
      entries that the sightings with each key produce. */
  lemma ValuesAreEntries<I, V>(ss: seq<Sighting<I>>, m: Merge<I, V>)
    ensures var t := Fold(ss, m);
      && (forall k :: k in t.order ==> k in t.entries)
      && |Values(t)| == |KeyOrder(ss, m.key)|
      && forall i :: 0 <= i < |Values(t)| ==>
           Matching(ss, m.key, KeyOrder(ss, m.key)[i]) != []
           && Values(t)[i] == Entry(Matching(ss, m.key, KeyOrder(ss, m.key)[i]), m)
  {
    FoldOrder(ss, m);
    FoldEntries(ss, m);
  }

  /** `simple_consolidate` lists one incident per distinct key, in the order
      the keys were first seen; each has the first sighting's text, one
      occurrence and one session id per sighting, and the last sighting's
      date. */
  lemma ConsolidatedEpisodicMeaning(exts: seq<SessionExtraction>)
    ensures var ss := Sightings(exts, EpisodicOf); var keys := KeyOrder(ss, EpisodicKey);
      && |Consolidated(exts).episodic| == |keys|
      && forall i :: 0 <= i < |keys| ==> EpisodicEntryOk(Consolidated(exts).episodic[i], Matching(ss, EpisodicKey, keys[i]))
  {
    var ss := Sightings(exts, EpisodicOf);
    ValuesAreEntries(ss, EpisodicMerge);
    forall i | 0 <= i < |KeyOrder(ss, EpisodicKey)| {
      EpisodicEntry(Matching(ss, EpisodicKey, KeyOrder(ss, EpisodicKey)[i]));
    }
  }

  /** One fact per distinct key, first-seen order, counted per sighting, with
      "high" confidence from three sightings on. */
  lemma ConsolidatedSemanticMeaning(exts: seq<SessionExtraction>)
    ensures var ss := Sightings(exts, SemanticOf); var keys := KeyOrder(ss, SemanticKey);
      && |Consolidated(exts).semantic| == |keys|
      && forall i :: 0 <= i < |keys| ==> SemanticEntryOk(Consolidated(exts).semantic[i], Matching(ss, SemanticKey, keys[i]))
  {
    var ss := Sightings(exts, SemanticOf);
    ValuesAreEntries(ss, SemanticMerge);
    forall i | 0 <= i < |KeyOrder(ss, SemanticKey)| {
      SemanticEntry(Matching(ss, SemanticKey, KeyOrder(ss, SemanticKey)[i]));
    }
  }

  /** One workflow per distinct key, first-seen order, counted per use, with
      the first longest step list. */
  lemma ConsolidatedProceduralMeaning(exts: seq<SessionExtraction>)
    ensures var ss := Sightings(exts, ProceduralOf); var keys := KeyOrder(ss, ProceduralKey);
      && |Consolidated(exts).procedural| == |keys|
      && forall i :: 0 <= i < |keys| ==> ProceduralEntryOk(Consolidated(exts).procedural[i], Matching(ss, ProceduralKey, keys[i]))
  {
    var ss := Sightings(exts, ProceduralOf);
    ValuesAreEntries(ss, ProceduralMerge);
    forall i | 0 <= i < |KeyOrder(ss, ProceduralKey)| {
      ProceduralEntry(Matching(ss, ProceduralKey, KeyOrder(ss, ProceduralKey)[i]));
    }
  }

  /** One decision per distinct key, listed where the key was first seen but
      holding the last decision with that key. */
  lemma ConsolidatedDecisionsMeaning(exts: seq<SessionExtraction>)
    ensures var ss := Sightings(exts, DecisionsOf); var keys := KeyOrder(ss, DecisionKey);
      && |Consolidated(exts).decisions| == |keys|
      && forall i :: 0 <= i < |keys| ==> DecisionEntryOk(Consolidated(exts).decisions[i], Matching(ss, DecisionKey, keys[i]))
  {
    var ss := Sightings(exts, DecisionsOf);
    ValuesAreEntries(ss, DecisionMerge);
    forall i | 0 <= i < |KeyOrder(ss, DecisionKey)| {
      DecisionEntryLast(Matching(ss, DecisionKey, KeyOrder(ss, DecisionKey)[i]));
    }
  }

  /** One gotcha per distinct key, first-seen order, counted per sighting,
      with the union of the sightings' tags. */
  lemma ConsolidatedGotchasMeaning(exts: seq<SessionExtraction>)
    ensures var ss := Sightings(exts, GotchasOf); var keys := KeyOrder(ss, GotchaKey);
      && |Consolidated(exts).gotchas| == |keys|
      && forall i :: 0 <= i < |keys| ==> GotchaEntryOk(Consolidated(exts).gotchas[i], Matching(ss, GotchaKey, keys[i]))
  {
    var ss := Sightings(exts, GotchasOf);
    ValuesAreEntries(ss, GotchaMerge);
    forall i | 0 <= i < |KeyOrder(ss, GotchaKey)| {
      GotchaEntry(Matching(ss, GotchaKey, KeyOrder(ss, GotchaKey)[i]));
    }
  }

  /** Every incident of every extraction is represented: its key is among the
      consolidated keys. */
  lemma EveryIncidentKept(exts: seq<SessionExtraction>, e: nat, n: nat)
    requires e < |exts| && n < |exts[e].episodic|
    ensures EpisodicKey(exts[e].episodic[n]) in KeyOrder(Sightings(exts, EpisodicOf), EpisodicKey)
  {
    SightingOfItem(exts, e, n, EpisodicOf);
    var ss := Sightings(exts, EpisodicOf);
    var p :| 0 <= p < |ss| && ss[p].item == exts[e].episodic[n];
    assert KeysOf(ss, EpisodicKey)[p] == EpisodicKey(exts[e].episodic[n]);
  }

  /** Every item of every extraction is one of the category's sightings. */
  lemma {:induction false} SightingOfItem<T>(exts: seq<SessionExtraction>, e: nat, n: nat, category: SessionExtraction -> seq<T>)
    requires e < |exts| && n < |category(exts[e])|
    ensures exists p :: 0 <= p < |Sightings(exts, category)| && Sightings(exts, category)[p].item == category(exts[e])[n]
  {
    var pre := exts[..|exts| - 1];
    var last := SightingsIn(exts[|exts| - 1], category(exts[|exts| - 1]));
    var ss := Sightings(exts, category);
    assert ss == Sightings(pre, category) + last;
    if e == |exts| - 1 {
      assert ss[|Sightings(pre, category)| + n] == last[n];
    } else {
      assert exts[e] == pre[e];
      SightingOfItem(pre, e, n, category);
      var p :| 0 <= p < |Sightings(pre, category)| && Sightings(pre, category)[p].item == category(pre[e])[n];
      assert ss[p] == Sightings(pre, category)[p];
    }
  }

  /** The consolidation depends on the order of the extractions: when two
      sessions report the same incident with different resolutions, the first
      one's resolution is kept, so swapping the sessions changes the result. */
  lemma ConsolidationDependsOnOrder(a: SessionExtraction, b: SessionExtraction)
    requires |a.episodic| == 1 && |b.episodic| == 1
    requires a.episodic[0].incident == b.episodic[0].incident
    requires a.episodic[0].resolution != b.episodic[0].resolution
    ensures Consolidated([a, b]).episodic != Consolidated([b, a]).episodic
  {
    FirstResolutionKept(a, b);
    FirstResolutionKept(b, a);
  }

  lemma FirstResolutionKept(a: SessionExtraction, b: SessionExtraction)
    requires |a.episodic| == 1 && |b.episodic| == 1 && a.episodic[0].incident == b.episodic[0].incident
    ensures |Consolidated([a, b]).episodic| == 1
    ensures Consolidated([a, b]).episodic[0].resolution == a.episodic[0].resolution
  {
    var sa := Sighting(a.sessionId, a.extractedAt, a.episodic[0]);
    var sb := Sighting(b.sessionId, b.extractedAt, b.episodic[0]);
    var ss := Sightings([a, b], EpisodicOf);
    TwoSightings(a, b);
    assert ss == [sa, sb];
    var k := EpisodicKey(a.episodic[0]);
    SameKeyTwice(sa, sb, EpisodicKey);
    ConsolidatedEpisodicMeaning([a, b]);
    assert Matching(ss, EpisodicKey, k)[0] == sa;
  }

  lemma TwoSightings(a: SessionExtraction, b: SessionExtraction)
    requires |a.episodic| == 1 && |b.episodic| == 1
    ensures Sightings([a, b], EpisodicOf)
         == [Sighting(a.sessionId, a.extractedAt, a.episodic[0]), Sighting(b.sessionId, b.extractedAt, b.episodic[0])]
  {
    assert [a, b][..1] == [a];
    assert [a][..0] == [];
    assert Sightings([a], EpisodicOf) == SightingsIn(a, a.episodic);
    assert SightingsIn(a, a.episodic) == [Sighting(a.sessionId, a.extractedAt, a.episodic[0])];
    assert SightingsIn(b, b.episodic) == [Sighting(b.sessionId, b.extractedAt, b.episodic[0])];
  }

  /** Two sightings with the same key: one key, both sightings match it. */
  lemma SameKeyTwice<I>(x: Sighting<I>, y: Sighting<I>, key: I -> string)
    requires key(x.item) == key(y.item)
    ensures KeyOrder([x, y], key) == [key(x.item)]
    ensures Matching([x, y], key, key(x.item)) == [x, y]
  {
    var k := key(x.item);
    assert KeysOf([x, y], key) == [k, k];
    assert [k, k][..1] == [k];
    assert [k][..0] == [];
    assert Dedup([k]) == [k];
    assert [x, y] == [x] + [y];
    FilterConcat([x], [y], KeyIs(key, k));
    FilterSingle(x, KeyIs(key, k));
    FilterSingle(y, KeyIs(key, k));
  }

  // ---------------------------------------------------------------------------
  // consolidate_project without the language model
  // ---------------------------------------------------------------------------

  /** `max(extractions, key=lambda e: e.extracted_at).extracted_at`: the
      greatest timestamp, in Python's string order. */
  function LatestExtractedAt(exts: seq<SessionExtraction>): (r: string)
    requires |exts| > 0
    ensures exists i :: 0 <= i < |exts| && exts[i].extractedAt == r
    ensures forall i :: 0 <= i < |exts| ==> !LexLess(r, exts[i].extractedAt)
  {
    if |exts| == 1 then
      LexLessAsymmetric(exts[0].extractedAt, exts[0].extractedAt);
      exts[0].extractedAt
    else
      var pre := exts[..|exts| - 1];
      var best := LatestExtractedAt(pre);
      var last := exts[|exts| - 1].extractedAt;
      if LexLess(best, last) then
        LaterStillLatest(pre, best, last);
        LexLessAsymmetric(last, last);
        last
      else
        best
  }

  lemma LaterStillLatest(exts: seq<SessionExtraction>, best: string, later: string)
    requires LexLess(best, later)
    requires forall i :: 0 <= i < |exts| ==> !LexLess(best, exts[i].extractedAt)
    ensures forall i :: 0 <= i < |exts| ==> !LexLess(later, exts[i].extractedAt)
  {
    forall i | 0 <= i < |exts| ensures !LexLess(later, exts[i].extractedAt) {
      LexLessTransitive(best, later, exts[i].extractedAt);
    }
  }

  /** The greatest timestamp does not depend on the order of the extractions. */
  lemma LatestIsUnique(exts: seq<SessionExtraction>, r1: string, r2: string)
    requires (exists i :: 0 <= i < |exts| && exts[i].extractedAt == r1) && forall i :: 0 <= i < |exts| ==> !LexLess(r1, exts[i].extractedAt)
    requires (exists i :: 0 <= i < |exts| && exts[i].extractedAt == r2) && forall i :: 0 <= i < |exts| ==> !LexLess(r2, exts[i].extractedAt)
    ensures r1 == r2
  {
    LexLessTotal(r1, r2);
  }

  /** `consolidate_project` (consolidator.py lines 176-199) once the
      extractions are loaded: `llmData` stands for what the language model
      would return, and `now` for the clock. */
  function ConsolidateProject(project: string, exts: seq<SessionExtraction>, useLlm: bool,
                              llmData: ConsolidatedData, now: string): (r: Result<ProjectMemory, string>)
    ensures |exts| == 0 <==> r.Err?
    ensures r.Err? ==> r.error == "No extractions found for project: " + project
    ensures r.Ok? ==>
      && r.value.project == project && r.value.projectPath == None && r.value.generatedAt == now
      && r.value.sessionsAnalyzed == |exts|
      && r.value.lastSession.Some?
      && (exists i :: 0 <= i < |exts| && exts[i].extractedAt == r.value.lastSession.value)
      && (forall i :: 0 <= i < |exts| ==> !LexLess(r.value.lastSession.value, exts[i].extractedAt))
      && r.value.tasks == []
    ensures r.Ok? && (!useLlm || |exts| == 1) ==>
      var data := Consolidated(exts);
      && r.value.episodic == data.episodic && r.value.semantic == data.semantic
      && r.value.procedural == data.procedural && r.value.decisions == data.decisions
      && r.value.gotchas == data.gotchas
    ensures r.Ok? && useLlm && |exts| > 1 ==>
      && r.value.episodic == llmData.episodic && r.value.semantic == llmData.semantic
      && r.value.procedural == llmData.procedural && r.value.decisions == llmData.decisions
      && r.value.gotchas == llmData.gotchas
  {
    if |exts| == 0 then Err("No extractions found for project: " + project)
    else
      var data := if useLlm && |exts| > 1 then llmData else Consolidated(exts);
      Ok(NewProjectMemory(project, now).(
        sessionsAnalyzed := |exts|,
        lastSession := Some(LatestExtractedAt(exts)),
        episodic := data.episodic,
        semantic := data.semantic,
        procedural := data.procedural,
        decisions := data.decisions,
        gotchas := data.gotchas))
  }
}
