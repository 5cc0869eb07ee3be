/** The record types of the session-memory pipeline: what one session's
    extraction holds, what the consolidated project memory holds, and the
    defaults each record takes for the fields a producer leaves out. Each
    `New...` function builds a record from its required fields alone, as the
    Python model class does when only those are given. */
module Models {
  import opened Wrappers

  const Universal: string := "universal"
  const EnvironmentSpecific: string := "environment-specific"

  /** A specific incident met during a session. */
  datatype EpisodicMemory = EpisodicMemory(
    incident: string,
    context: string,
    resolution: string,
    file: Option<string>,
    severity: string,
    scope: string)

  function NewEpisodicMemory(incident: string, context: string, resolution: string): (m: EpisodicMemory)
    ensures m.incident == incident && m.context == context && m.resolution == resolution
    ensures m.file == None && m.severity == "info" && m.scope == Universal
  {
    EpisodicMemory(incident, context, resolution, None, "info", Universal)
  }

  /** A fact learned about the codebase. */
  datatype SemanticMemory = SemanticMemory(knowledge: string, category: string, confidence: string)

  function NewSemanticMemory(knowledge: string, category: string): (m: SemanticMemory)
    ensures m.knowledge == knowledge && m.category == category && m.confidence == "medium"
  {
    SemanticMemory(knowledge, category, "medium")
  }

  /** A workflow discovered during a session. */
  datatype ProceduralMemory = ProceduralMemory(workflow: string, steps: seq<string>, trigger: Option<string>)

  function NewProceduralMemory(workflow: string, steps: seq<string>): (m: ProceduralMemory)
    ensures m.workflow == workflow && m.steps == steps && m.trigger == None
  {
    ProceduralMemory(workflow, steps, None)
  }

  /** A design decision taken during a session. */
  datatype Decision = Decision(
    decision: string,
    rationale: string,
    alternativesConsidered: seq<string>,
    date: Option<string>)

  function NewDecision(decision: string, rationale: string): (d: Decision)
    ensures d.decision == decision && d.rationale == rationale
    ensures d.alternativesConsidered == [] && d.date == None
  {
    Decision(decision, rationale, [], None)
  }

  /** A pitfall discovered in the codebase. */
  datatype Gotcha = Gotcha(
    issue: string,
    cause: Option<string>,
    solution: Option<string>,
    tags: seq<string>,
    scope: string)

  function NewGotcha(issue: string): (g: Gotcha)
    ensures g.issue == issue && g.cause == None && g.solution == None
    ensures g.tags == [] && g.scope == Universal
  {
    Gotcha(issue, None, None, [], Universal)
  }

  /** Everything extracted from one session. */
  datatype SessionExtraction = SessionExtraction(
    sessionId: string,
    project: string,
    extractedAt: string,
    sessionSummary: string,
    episodic: seq<EpisodicMemory>,
    semantic: seq<SemanticMemory>,
    procedural: seq<ProceduralMemory>,
    decisions: seq<Decision>,
    gotchas: seq<Gotcha>)

  function NewSessionExtraction(sessionId: string, project: string, extractedAt: string, summary: string): (e: SessionExtraction)
    ensures e.sessionId == sessionId && e.project == project
    ensures e.extractedAt == extractedAt && e.sessionSummary == summary
    ensures e.episodic == [] && e.semantic == [] && e.procedural == [] && e.decisions == [] && e.gotchas == []
  {
    SessionExtraction(sessionId, project, extractedAt, summary, [], [], [], [], [])
  }

  /** An incident with the sessions it was seen in. */
  datatype ConsolidatedEpisodic = ConsolidatedEpisodic(
    incident: string,
    resolution: string,
    occurrences: int,
    sessions: seq<string>,
    lastSeen: Option<string>,
    scope: string)

  function NewConsolidatedEpisodic(incident: string, resolution: string): (e: ConsolidatedEpisodic)
    ensures e.incident == incident && e.resolution == resolution
    ensures e.occurrences == 1 && e.sessions == [] && e.lastSeen == None && e.scope == Universal
  {
    ConsolidatedEpisodic(incident, resolution, 1, [], None, Universal)
  }

  /** A fact with how often it was seen. */
  datatype ConsolidatedSemantic = ConsolidatedSemantic(
    knowledge: string,
    category: string,
    frequency: int,
    confidence: string)

  function NewConsolidatedSemantic(knowledge: string, category: string): (s: ConsolidatedSemantic)
    ensures s.knowledge == knowledge && s.category == category
    ensures s.frequency == 1 && s.confidence == "medium"
  {
    ConsolidatedSemantic(knowledge, category, 1, "medium")
  }

  /** A workflow with how often it was used. */
  datatype ConsolidatedProcedural = ConsolidatedProcedural(
    workflow: string,
    steps: seq<string>,
    trigger: Option<string>,
    timesUsed: int)

  function NewConsolidatedProcedural(workflow: string, steps: seq<string>): (p: ConsolidatedProcedural)
    ensures p.workflow == workflow && p.steps == steps && p.trigger == None && p.timesUsed == 1
  {
    ConsolidatedProcedural(workflow, steps, None, 1)
  }

  /** A decision with its status. */
  datatype ConsolidatedDecision = ConsolidatedDecision(
    decision: string,
    rationale: string,
    alternativesConsidered: seq<string>,
    status: string,
    date: Option<string>)

  function NewConsolidatedDecision(decision: string, rationale: string): (d: ConsolidatedDecision)
    ensures d.decision == decision && d.rationale == rationale
    ensures d.alternativesConsidered == [] && d.status == "active" && d.date == None
  {
    ConsolidatedDecision(decision, rationale, [], "active", None)
  }

  /** A pitfall with how often it was seen. */
  datatype ConsolidatedGotcha = ConsolidatedGotcha(
    issue: string,
    cause: Option<string>,
    solution: Option<string>,
    tags: seq<string>,
    frequency: int,
    scope: string)

  function NewConsolidatedGotcha(issue: string): (g: ConsolidatedGotcha)
    ensures g.issue == issue && g.cause == None && g.solution == None && g.tags == []
    ensures g.frequency == 1 && g.scope == Universal
  {
    ConsolidatedGotcha(issue, None, None, [], 1, Universal)
  }

  /** A task proposed to fix a root cause. */
  datatype ActionableTask = ActionableTask(
    title: string,
    description: string,
    taskType: string,
    priority: string,
    sourceIssue: Option<string>,
    suggestedApproach: Option<string>,
    tags: seq<string>)

  function NewActionableTask(title: string, description: string): (t: ActionableTask)
    ensures t.title == title && t.description == description
    ensures t.taskType == "fix" && t.priority == "medium"
    ensures t.sourceIssue == None && t.suggestedApproach == None && t.tags == []
  {
    ActionableTask(title, description, "fix", "medium", None, None, [])
  }

  /** The consolidated memory of one project. */
  datatype ProjectMemory = ProjectMemory(
    project: string,
    projectPath: Option<string>,
    generatedAt: string,
    sessionsAnalyzed: int,
    lastSession: Option<string>,
    episodic: seq<ConsolidatedEpisodic>,
    semantic: seq<ConsolidatedSemantic>,
    procedural: seq<ConsolidatedProcedural>,
    decisions: seq<ConsolidatedDecision>,
    gotchas: seq<ConsolidatedGotcha>,
    tasks: seq<ActionableTask>)

  function NewProjectMemory(project: string, generatedAt: string): (m: ProjectMemory)
    ensures m.project == project && m.generatedAt == generatedAt
    ensures m.projectPath == None && m.sessionsAnalyzed == 0 && m.lastSession == None
    ensures m.episodic == [] && m.semantic == [] && m.procedural == []
    ensures m.decisions == [] && m.gotchas == [] && m.tasks == []
  {
    ProjectMemory(project, None, generatedAt, 0, None, [], [], [], [], [], [])
  }
}
