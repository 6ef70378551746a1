/** The claim-evaluation graph: six nodes run in a fixed order over one shared
    state record. Each node maps the current state (and what the outside
    services answer) to a partial update; the runner merges the update into the
    state, appending messages and overwriting every other key it names. Two
    nodes also write to the evaluation audit log. */
module AgentOrchestrator {
  import opened Wrappers
  import opened Text
  import opened Documents

  // ---------------------------------------------------------------------------
  // Shared state

  /** Who a message is from: the nodes send system messages; the messages the
      caller seeds may be of either kind. */
  datatype Role = SystemRole | HumanRole

  datatype Message = Message(role: Role, content: string)

  function SystemMessage(content: string): Message
  {
    Message(SystemRole, content)
  }

  /** `AgentState`. The caller seeds the messages, the three identifiers and
      the risk score; the keys the nodes produce are absent (`None`) until the
      node owning them has run. */
  datatype AgentState = AgentState(
    messages: seq<Message>,
    clientId: string,
    submissionDate: string,
    instanceId: string,
    policyCategory: Option<string>,
    policyContext: Option<string>,
    riskScore: int,
    complianceReport: Option<string>,
    finalVerdict: Option<string>)

  /** The dictionary a node returns: the messages to append and the keys to
      overwrite. A node never returns the identifiers. */
  datatype Update = Update(
    messages: seq<Message>,
    policyCategory: Option<string>,
    policyContext: Option<string>,
    riskScore: Option<int>,
    complianceReport: Option<string>,
    finalVerdict: Option<string>)

  const NoChange: Update := Update([], None, None, None, None, None)

  /** How the runner folds an update into the state: `messages` through
      `add_messages` (appending), every other key by replacement. */
  function Merge(s: AgentState, u: Update): AgentState
  {
    AgentState(
      s.messages + u.messages,
      s.clientId,
      s.submissionDate,
      s.instanceId,
      if u.policyCategory.Some? then u.policyCategory else s.policyCategory,
      if u.policyContext.Some? then u.policyContext else s.policyContext,
      if u.riskScore.Some? then u.riskScore.value else s.riskScore,
      if u.complianceReport.Some? then u.complianceReport else s.complianceReport,
      if u.finalVerdict.Some? then u.finalVerdict else s.finalVerdict)
  }

  /** The keys of `AgentState`, for stating which node may write which. */
  datatype Field =
    | MessagesKey | ClientIdKey | SubmissionDateKey | InstanceIdKey | PolicyCategoryKey
    | PolicyContextKey | RiskScoreKey | ComplianceReportKey | FinalVerdictKey

  /** The keys an update names. */
  function Keys(u: Update): set<Field>
  {
    (if u.messages != [] then {MessagesKey} else {})
    + (if u.policyCategory.Some? then {PolicyCategoryKey} else {})
    + (if u.policyContext.Some? then {PolicyContextKey} else {})
    + (if u.riskScore.Some? then {RiskScoreKey} else {})
    + (if u.complianceReport.Some? then {ComplianceReportKey} else {})
    + (if u.finalVerdict.Some? then {FinalVerdictKey} else {})
  }

  /** Two states agree on one key. */
  predicate SameAt(s: AgentState, t: AgentState, f: Field)
  {
    match f
    case MessagesKey => s.messages == t.messages
    case ClientIdKey => s.clientId == t.clientId
    case SubmissionDateKey => s.submissionDate == t.submissionDate
    case InstanceIdKey => s.instanceId == t.instanceId
    case PolicyCategoryKey => s.policyCategory == t.policyCategory
    case PolicyContextKey => s.policyContext == t.policyContext
    case RiskScoreKey => s.riskScore == t.riskScore
    case ComplianceReportKey => s.complianceReport == t.complianceReport
    case FinalVerdictKey => s.finalVerdict == t.finalVerdict
  }

  // ---------------------------------------------------------------------------
  // The audit log

  /** The `status` metadata value of a record: `In_Progress` or `Completed`. */
  datatype AuditStatus = InProgress | Completed

  /** One `add_texts` call on `evaluation_audit_log`: the text and its metadata.
      `time` is `start_time` for a start record and `completion_time` for a
      completion record; only the completion record has a risk score. */
  datatype AuditRecord = AuditRecord(
    text: string,
    clientId: string,
    instanceId: string,
    submissionDate: string,
    status: AuditStatus,
    time: string,
    riskScore: Option<int>)

  /** The `evaluation_audit_log` collection as the graph uses it: records are
      only ever appended. */
  class AuditLog {
    var records: seq<AuditRecord>

    constructor ()
      ensures records == []
    {
      records := [];
    }

    method AddTexts(r: AuditRecord)
      modifies this
      ensures records == old(records) + [r]
    {
      records := records + [r];
    }
  }

  // ---------------------------------------------------------------------------
  // The outside world

  /** The answers of the services the nodes call. `search(collection, query,
      k, clientFilter)` is a similarity search returning a ranked list;
      `llm(prompt)` the model's reply; `store(record)` whether the audit write
      goes through; `startTime` and `completionTime` are the clock readings
      (`datetime.now().isoformat()`) at the two writes. Each call may raise,
      which is `Err`/`Fail` carrying the reason. */
  datatype Services = Services(
    search: (Collection, string, nat, Option<string>) -> Result<seq<Document>, string>,
    llm: string -> Result<string, string>,
    store: AuditRecord -> Outcome,
    startTime: string,
    completionTime: string)

  /** Why a node raised: a service call failed, or a key or index it reads is
      not there (`KeyError`, `IndexError`). */
  datatype Failure = ServiceFailed(reason: string) | LookupFailed(key: string)

  /** What a node does when it succeeds: the update it returns and the audit
      record it wrote, if it writes one. */
  datatype Effect = Effect(update: Update, audit: Option<AuditRecord>)

  // ---------------------------------------------------------------------------
  // The six nodes

  function AuditInitText(instanceId: string): string
  {
    "Audit Log Initialized for Instance: " + instanceId
  }

  function StartRecord(s: AgentState, time: string): AuditRecord
  {
    AuditRecord("Investigation started for client " + s.clientId + ".",
                s.clientId, s.instanceId, s.submissionDate, InProgress, time, None)
  }

  /** `initialization_node`: writes the start record, then announces it. */
  function InitializationNode(s: AgentState, svc: Services): Result<Effect, Failure>
  {
    var rec := StartRecord(s, svc.startTime);
    match svc.store(rec)
    case Fail(e) => Err(ServiceFailed(e))
    case Pass => Ok(Effect(NoChange.(messages := [SystemMessage(AuditInitText(s.instanceId))]), Some(rec)))
  }

  const PolicyK: nat := 3
  const HistoryK: nat := 5
  const CategoryKey: string := "document_category"
  const DefaultCategory: string := "General"

  /** The category of the best-ranked policy document, `General` when there is
      none or it carries no category. */
  function TopCategory(docs: seq<Document>): string
  {
    if |docs| > 0 && CategoryKey in docs[0].metadata then docs[0].metadata[CategoryKey] else DefaultCategory
  }

  function ContextText(category: string): string
  {
    "Context fetched for category: " + category
  }

  /** `policy_selector_node`: searches the policy collection with the first
      message's text and keeps the category and the joined texts. */
  function PolicySelectorNode(s: AgentState, svc: Services): Result<Effect, Failure>
  {
    if |s.messages| == 0 then Err(LookupFailed("messages[0]"))
    else
      match svc.search(PolicyCollection, s.messages[0].content, PolicyK, None)
      case Err(e) => Err(ServiceFailed(e))
      case Ok(docs) =>
        var category := TopCategory(docs);
        Ok(Effect(NoChange.(policyCategory := Some(category),
                            policyContext := Some(JoinWith('\n', Texts(docs))),
                            messages := [SystemMessage(ContextText(category))]), None))
  }

  const NoHistory: string := "No history."

  /** The matched claim texts one per line, or the sentinel when nothing matched. */
  function HistoryText(past: seq<Document>): string
  {
    if |past| > 0 then JoinWith('\n', Texts(past)) else NoHistory
  }

  function HistoryPrompt(clientId: string, history: string): string
  {
    "Analyze claim history for " + clientId + ":\n" + history
  }

  const SuspicionIncrement: int := 25
  const ViolationIncrement: int := 40

  /** The risk a reply adds: the whole increment when the lower-cased reply
      contains the word, nothing otherwise. */
  function FlagRisk(reply: string, word: string, increment: int): (r: int)
    ensures r == 0 || r == increment
    ensures r == increment <==> (Contains(Lower(reply), word) || increment == 0)
  {
    if Contains(Lower(reply), word) then increment else 0
  }

  function SuspicionRisk(analysis: string): int
  {
    FlagRisk(analysis, "suspicious", SuspicionIncrement)
  }

  function ViolationRisk(report: string): int
  {
    FlagRisk(report, "violation", ViolationIncrement)
  }

  const HistoryDone: string := "History analyzed."

  /** `history_investigator_node`: searches the client's past claims by the
      submission date, asks the model to analyse them and raises the risk by
      25 on a suspicious analysis. */
  function HistoryInvestigatorNode(s: AgentState, svc: Services): Result<Effect, Failure>
  {
    match svc.search(ClaimsCollection, s.submissionDate, HistoryK, Some(s.clientId))
    case Err(e) => Err(ServiceFailed(e))
    case Ok(past) =>
      match svc.llm(HistoryPrompt(s.clientId, HistoryText(past)))
      case Err(e) => Err(ServiceFailed(e))
      case Ok(analysis) =>
        Ok(Effect(NoChange.(riskScore := Some(s.riskScore + SuspicionRisk(analysis)),
                            messages := [SystemMessage(HistoryDone)]), None))
  }

  const Rules: string := "1. 30-day submission limit. 2. VAT Invoice for >2000 AED. 3. Police Report for accidents."

  function CompliancePrompt(claimContext: string): string
  {
    "Apply Rules:\n" + Rules + "\n\nClaim Context: " + claimContext
  }

  /** `compliance_evaluator_node`: applies the fixed rules to the first
      message, keeps the raw report and raises the risk by 40 on a violation. */
  function ComplianceEvaluatorNode(s: AgentState, svc: Services): Result<Effect, Failure>
  {
    if |s.messages| == 0 then Err(LookupFailed("messages[0]"))
    else
      match svc.llm(CompliancePrompt(s.messages[0].content))
      case Err(e) => Err(ServiceFailed(e))
      case Ok(report) =>
        Ok(Effect(NoChange.(complianceReport := Some(report),
                            riskScore := Some(s.riskScore + ViolationRisk(report))), None))
  }

  function VerdictPrompt(risk: int, report: string): string
  {
    "Provide final APPROVED/DENIED verdict based on:\n" + "Risk: " + IntToDecimal(risk) + "\nCompliance: " + report
  }

  /** `orchestrator_node`: asks for the verdict on the current risk and report. */
  function OrchestratorNode(s: AgentState, svc: Services): Result<Effect, Failure>
  {
    if s.complianceReport.None? then Err(LookupFailed("compliance_report"))
    else
      match svc.llm(VerdictPrompt(s.riskScore, s.complianceReport.value))
      case Err(e) => Err(ServiceFailed(e))
      case Ok(verdict) => Ok(Effect(NoChange.(finalVerdict := Some(verdict)), None))
  }

  function VerdictText(verdict: string, report: string): string
  {
    "Verdict: " + verdict + "\nReport: " + report
  }

  function CompletedRecord(s: AgentState, verdict: string, report: string, time: string): AuditRecord
  {
    AuditRecord(VerdictText(verdict, report), s.clientId, s.instanceId, s.submissionDate,
                Completed, time, Some(s.riskScore))
  }

  const ArchivedText: string := "Final result archived to Audit Log."

  /** `evaluation_archiver_node`: writes the completion record with the
      verdict, the report and the final risk. */
  function EvaluationArchiverNode(s: AgentState, svc: Services): Result<Effect, Failure>
  {
    if s.finalVerdict.None? then Err(LookupFailed("final_verdict"))
    else if s.complianceReport.None? then Err(LookupFailed("compliance_report"))
    else
      var rec := CompletedRecord(s, s.finalVerdict.value, s.complianceReport.value, svc.completionTime);
      match svc.store(rec)
      case Fail(e) => Err(ServiceFailed(e))
      case Pass => Ok(Effect(NoChange.(messages := [SystemMessage(ArchivedText)]), Some(rec)))
  }

  // ---------------------------------------------------------------------------
  // The graph

  /** The six nodes, registered as `initializer`, `selector`, `investigator`,
      `compliance`, `orchestrator` and `archiver`. */
  datatype Stage = Initializer | Selector | Investigator | Compliance | Orchestrator | Archiver

  /** The edges from the entry point to the end, as a list of the nodes in order. */
  const Graph: seq<Stage> := [Initializer, Selector, Investigator, Compliance, Orchestrator, Archiver]

  function Step(st: Stage, s: AgentState, svc: Services): Result<Effect, Failure>
  {
    match st
    case Initializer => InitializationNode(s, svc)
    case Selector => PolicySelectorNode(s, svc)
    case Investigator => HistoryInvestigatorNode(s, svc)
    case Compliance => ComplianceEvaluatorNode(s, svc)
    case Orchestrator => OrchestratorNode(s, svc)
    case Archiver => EvaluationArchiverNode(s, svc)
  }

  /** The keys each node's update may name. */
  function Writes(st: Stage): set<Field>
  {
    match st
    case Initializer => {MessagesKey}
    case Selector => {PolicyCategoryKey, PolicyContextKey, MessagesKey}
    case Investigator => {RiskScoreKey, MessagesKey}
    case Compliance => {ComplianceReportKey, RiskScoreKey}
    case Orchestrator => {FinalVerdictKey}
    case Archiver => {MessagesKey}
  }

  datatype Status = Done | Halted(stage: Stage, failure: Failure)

  /** A run: how it ended, the state it ended in (the last merged state when a
      node raised), the nodes that completed in order, and the audit records
      it appended. */
  datatype Run = Run(status: Status, state: AgentState, trace: seq<Stage>, appended: seq<AuditRecord>)

  function AuditOf(e: Effect): seq<AuditRecord>
  {
    if e.audit.Some? then [e.audit.value] else []
  }

  /** Runs `stages` in order from `s`, stopping at the first node that raises. */
  function Exec(stages: seq<Stage>, s: AgentState, svc: Services): Run
    decreases |stages|
  {
    if stages == [] then Run(Done, s, [], [])
    else
      match Step(stages[0], s, svc)
      case Err(f) => Run(Halted(stages[0], f), s, [], [])
      case Ok(e) =>
        var rest := Exec(stages[1..], Merge(s, e.update), svc);
        rest.(trace := [stages[0]] + rest.trace, appended := AuditOf(e) + rest.appended)
  }

  /** A run of `rest` seen as the tail of a longer run that had already
      completed `trace` and appended `appended`. */
  function After(trace: seq<Stage>, appended: seq<AuditRecord>, rest: Run): Run
  {
    rest.(trace := trace + rest.trace, appended := appended + rest.appended)
  }

  /** Two `After`s in a row are one, over the concatenated prefixes. */
  lemma AfterAfter(t1: seq<Stage>, a1: seq<AuditRecord>, t2: seq<Stage>, a2: seq<AuditRecord>, rest: Run)
    ensures After(t1, a1, After(t2, a2, rest)) == After(t1 + t2, a1 + a2, rest)
  {
    assert t1 + (t2 + rest.trace) == t1 + t2 + rest.trace;
    assert a1 + (a2 + rest.appended) == a1 + a2 + rest.appended;
  }

  /** One step of `Exec`, stated through `After`. */
  lemma ExecStep(stages: seq<Stage>, s: AgentState, svc: Services, step: Result<Effect, Failure>)
    requires |stages| > 0 && step == Step(stages[0], s, svc)
    ensures step.Err? ==> Exec(stages, s, svc) == Run(Halted(stages[0], step.error), s, [], [])
    ensures step.Ok? ==> Exec(stages, s, svc)
                         == After([stages[0]], AuditOf(step.value), Exec(stages[1..], Merge(s, step.value.update), svc))
  {
  }

  /** The runner: executes `stages` one after the other, merging each
      update and performing each audit write, and stops at the first node that
      raises. The log gains exactly the records the run appended. */
  method RunStages(stages: seq<Stage>, init: AgentState, svc: Services, log: AuditLog) returns (r: Run)
    modifies log
    ensures r == Exec(stages, init, svc)
    ensures log.records == old(log.records) + r.appended
  {
    var state := init;
    var trace: seq<Stage> := [];
    var appended: seq<AuditRecord> := [];
    var i := 0;
    while i < |stages|
      invariant 0 <= i <= |stages|
      invariant Exec(stages, init, svc) == After(trace, appended, Exec(stages[i..], state, svc))
      invariant log.records == old(log.records) + appended
    {
      var stage := stages[i];
      var step := Step(stage, state, svc);
      assert stages[i..][0] == stage && stages[i..][1..] == stages[i + 1..];
      ExecStep(stages[i..], state, svc, step);
      if step.Err? {
        assert trace + [] == trace && appended + [] == appended;
        return Run(Halted(stage, step.error), state, trace, appended);
      }
      var e := step.value;
      AfterAfter(trace, appended, [stage], AuditOf(e), Exec(stages[i + 1..], Merge(state, e.update), svc));
      if e.audit.Some? {
        log.AddTexts(e.audit.value);
      }
      appended := appended + AuditOf(e);
      trace := trace + [stage];
      state := Merge(state, e.update);
      i := i + 1;
    }
    r := Run(Done, state, trace, appended);
  }

  /** `agent_system.invoke(state)`: the compiled graph, its node list run by
      the runner. */
  method Invoke(init: AgentState, svc: Services, log: AuditLog) returns (r: Run)
    modifies log
    ensures r == Exec(Graph, init, svc)
    ensures log.records == old(log.records) + r.appended
  {
    r := RunStages(Graph, init, svc, log);
  }
}
