/** What the evaluation graph guarantees: per node, which keys it writes and
    how it moves the risk score; per run of any node list, the trace, the
    growth of the messages and the tags on the audit records; and for the
    compiled six-node graph, the complete outcome of a successful run and the
    audit trail of a failed one. */
module OrchestratorProps {
  import opened Wrappers
  import opened Text
  import opened Documents
  import opened AgentOrchestrator

  // ---------------------------------------------------------------------------
  // One node

  /** Merging keeps every key the update does not name, and only appends
      messages. */
  lemma MergeKeepsUnnamedKeys(s: AgentState, u: Update)
    ensures forall f :: f !in Keys(u) ==> SameAt(s, Merge(s, u), f)
    ensures Merge(s, u).messages[..|s.messages|] == s.messages
    ensures Merge(s, u).clientId == s.clientId && Merge(s, u).instanceId == s.instanceId
    ensures Merge(s, u).submissionDate == s.submissionDate
  {
    var t := Merge(s, u);
    forall f | f !in Keys(u) ensures SameAt(s, t, f) {
      match f
      case MessagesKey => assert u.messages == [];
      case _ =>
    }
  }

  /** Merging writes what the update names: its messages behind the old
      ones, and every other key it names with the update's value. */
  lemma MergeWritesNamedKeys(s: AgentState, u: Update)
    ensures Merge(s, u).messages == s.messages + u.messages
    ensures u.policyCategory.Some? ==> Merge(s, u).policyCategory == u.policyCategory
    ensures u.policyContext.Some? ==> Merge(s, u).policyContext == u.policyContext
    ensures u.riskScore.Some? ==> Merge(s, u).riskScore == u.riskScore.value
    ensures u.complianceReport.Some? ==> Merge(s, u).complianceReport == u.complianceReport
    ensures u.finalVerdict.Some? ==> Merge(s, u).finalVerdict == u.finalVerdict
  {
  }

  /** Each node's update names only the keys that node owns, so the merged
      state agrees with the old one on every other key; the orchestrator node
      writes the verdict and nothing else. */
  lemma StepWritesOnlyItsKeys(st: Stage, s: AgentState, svc: Services)
    requires Step(st, s, svc).Ok?
    ensures Keys(Step(st, s, svc).value.update) <= Writes(st)
    ensures forall f :: f !in Writes(st) ==> SameAt(s, Merge(s, Step(st, s, svc).value.update), f)
    ensures st == Orchestrator ==> Keys(Step(st, s, svc).value.update) == {FinalVerdictKey}
  {
    var u := Step(st, s, svc).value.update;
    MergeKeepsUnnamedKeys(s, u);
  }

  /** The investigator adds 0 or 25 to the risk, the compliance node 0 or 40,
      and no other node touches it. */
  lemma StepRisk(st: Stage, s: AgentState, svc: Services)
    requires Step(st, s, svc).Ok?
    ensures var d := Merge(s, Step(st, s, svc).value.update).riskScore - s.riskScore;
            (st == Investigator ==> d == 0 || d == SuspicionIncrement)
            && (st == Compliance ==> d == 0 || d == ViolationIncrement)
            && (st != Investigator && st != Compliance ==> d == 0)
  {
  }

  /** The risk flags read the reply case-insensitively: replies that differ
      only in the case of their letters raise the risk alike. */
  lemma FlagRiskIgnoresCase(reply: string, other: string, word: string, increment: int)
    requires SameUpToCase(reply, other)
    ensures FlagRisk(reply, word, increment) == FlagRisk(other, word, increment)
  {
    LowerIgnoresCase(reply, other);
  }

  /** The audit records a node writes: the initializer a start record and the
      archiver a completion record, both tagged with the state's identifiers;
      the other nodes none. */
  lemma StepAudit(st: Stage, s: AgentState, svc: Services)
    requires Step(st, s, svc).Ok?
    ensures var a := Step(st, s, svc).value.audit;
            (a.Some? <==> st == Initializer || st == Archiver)
            && (a.Some? ==> a.value.clientId == s.clientId && a.value.instanceId == s.instanceId
                            && a.value.submissionDate == s.submissionDate)
            && (st == Initializer ==> a == Some(StartRecord(s, svc.startTime)))
            && (st == Archiver ==> a.Some? && a.value.status == Completed && a.value.riskScore == Some(s.riskScore))
  {
  }

  // ---------------------------------------------------------------------------
  // A run of any node list

  /** The completed nodes are a prefix of the list: all of it when the run is
      done, and otherwise everything before the node that raised. */
  lemma {:induction false} ExecTrace(stages: seq<Stage>, s: AgentState, svc: Services)
    ensures var r := Exec(stages, s, svc);
            |r.trace| <= |stages| && r.trace == stages[..|r.trace|]
            && (r.status.Done? ==> r.trace == stages)
            && (r.status.Halted? ==> |r.trace| < |stages| && stages[|r.trace|] == r.status.stage)
    decreases |stages|
  {
    if stages != [] {
      var step := Step(stages[0], s, svc);
      ExecStep(stages, s, svc, step);
      if step.Ok? {
        ExecTrace(stages[1..], Merge(s, step.value.update), svc);
      }
    }
  }

  /** Along any run the risk never falls, the messages only grow at the end,
      the identifiers stay put, and every appended record carries them. */
  lemma {:induction false} ExecMonotone(stages: seq<Stage>, s: AgentState, svc: Services)
    ensures var r := Exec(stages, s, svc);
            r.state.riskScore >= s.riskScore
            && |r.state.messages| >= |s.messages| && r.state.messages[..|s.messages|] == s.messages
            && r.state.clientId == s.clientId && r.state.instanceId == s.instanceId
            && r.state.submissionDate == s.submissionDate
            && (forall k :: 0 <= k < |r.appended| ==>
                  r.appended[k].clientId == s.clientId && r.appended[k].instanceId == s.instanceId
                  && r.appended[k].submissionDate == s.submissionDate)
    decreases |stages|
  {
    if stages != [] {
      var step := Step(stages[0], s, svc);
      ExecStep(stages, s, svc, step);
      if step.Ok? {
        var t := Merge(s, step.value.update);
        StepRisk(stages[0], s, svc);
        StepAudit(stages[0], s, svc);
        MergeKeepsUnnamedKeys(s, step.value.update);
        ExecMonotone(stages[1..], t, svc);
        var r := Exec(stages[1..], t, svc);
        assert r.state.messages[..|s.messages|] == r.state.messages[..|t.messages|][..|s.messages|];
      }
    }
  }

  /** A completion record is appended only by an archiver that completed, and
      a start record only by an initializer that completed. */
  lemma {:induction false} ExecAuditSources(stages: seq<Stage>, s: AgentState, svc: Services)
    ensures var r := Exec(stages, s, svc);
            forall k :: 0 <= k < |r.appended| ==>
              (r.appended[k].status == Completed ==> Archiver in r.trace)
              && (r.appended[k].status == InProgress ==> Initializer in r.trace)
    decreases |stages|
  {
    if stages != [] {
      var step := Step(stages[0], s, svc);
      ExecStep(stages, s, svc, step);
      if step.Ok? {
        StepAudit(stages[0], s, svc);
        ExecAuditSources(stages[1..], Merge(s, step.value.update), svc);
      }
    }
  }

  /** Running two lists one after the other is running their concatenation. */
  lemma {:induction false} ExecSplit(a: seq<Stage>, b: seq<Stage>, s: AgentState, svc: Services)
    ensures var ra := Exec(a, s, svc);
            Exec(a + b, s, svc) == if ra.status.Done? then After(ra.trace, ra.appended, Exec(b, ra.state, svc)) else ra
    decreases |a|
  {
    if a == [] {
      assert a + b == b;
    } else {
      var step := Step(a[0], s, svc);
      assert (a + b)[0] == a[0] && (a + b)[1..] == a[1..] + b;
      ExecStep(a, s, svc, step);
      ExecStep(a + b, s, svc, step);
      if step.Ok? {
        var s1 := Merge(s, step.value.update);
        ExecSplit(a[1..], b, s1, svc);
        var r1 := Exec(a[1..], s1, svc);
        if r1.status.Done? {
          AfterAfter([a[0]], AuditOf(step.value), r1.trace, r1.appended, Exec(b, r1.state, svc));
        }
      }
    }
  }

  /** The risk never decreases across a run: the state reached after a longer
      prefix of the node list carries at least the risk of a shorter one. */
  lemma RiskNeverDecreases(stages: seq<Stage>, s: AgentState, svc: Services, i: nat, j: nat)
    requires i <= j <= |stages|
    ensures Exec(stages[..i], s, svc).state.riskScore <= Exec(stages[..j], s, svc).state.riskScore
  {
    var a, b := stages[..i], stages[i..j];
    assert a + b == stages[..j];
    ExecSplit(a, b, s, svc);
    var ra := Exec(a, s, svc);
    if ra.status.Done? {
      ExecMonotone(b, ra.state, svc);
    }
  }

  // ---------------------------------------------------------------------------
  // The compiled graph

  /** The selector's query. The initializer has already appended its message,
      so `messages[0]` always exists: it is the caller's first message, or the
      initializer's own announcement when the caller sent none. */
  function FirstQuery(init: AgentState): string
  {
    if |init.messages| > 0 then init.messages[0].content else AuditInitText(init.instanceId)
  }

  /** What the policy search answers to the selector. */
  function PolicyHits(init: AgentState, svc: Services): Result<seq<Document>, string>
  {
    svc.search(PolicyCollection, FirstQuery(init), PolicyK, None)
  }

  /** What the history search answers to the investigator. */
  function PastHits(init: AgentState, svc: Services): Result<seq<Document>, string>
  {
    svc.search(ClaimsCollection, init.submissionDate, HistoryK, Some(init.clientId))
  }

  /** The model's analysis of the client's history. */
  function AnalysisReply(init: AgentState, svc: Services): Result<string, string>
  {
    match PastHits(init, svc)
    case Err(e) => Err(e)
    case Ok(past) => svc.llm(HistoryPrompt(init.clientId, HistoryText(past)))
  }

  /** The model's compliance report on the first message. */
  function ReportReply(init: AgentState, svc: Services): Result<string, string>
  {
    svc.llm(CompliancePrompt(FirstQuery(init)))
  }

  /** The seeded risk plus the increments the analysis and the report trigger. */
  function FinalRisk(init: AgentState, svc: Services): int
  {
    init.riskScore
    + (if AnalysisReply(init, svc).Ok? then SuspicionRisk(AnalysisReply(init, svc).value) else 0)
    + (if ReportReply(init, svc).Ok? then ViolationRisk(ReportReply(init, svc).value) else 0)
  }

  /** The model's verdict on the post-compliance risk and the report. */
  function VerdictReply(init: AgentState, svc: Services): Result<string, string>
  {
    match ReportReply(init, svc)
    case Err(e) => Err(e)
    case Ok(report) => svc.llm(VerdictPrompt(FinalRisk(init, svc), report))
  }

  /** Every call the graph makes answers: both audit writes go through and the
      two searches and three model calls return. */
  ghost predicate AllAnswer(init: AgentState, svc: Services)
  {
    && svc.store(StartRecord(init, svc.startTime)) == Pass
    && PolicyHits(init, svc).Ok? && PastHits(init, svc).Ok?
    && AnalysisReply(init, svc).Ok? && ReportReply(init, svc).Ok? && VerdictReply(init, svc).Ok?
    && svc.store(CompletedRecord(init.(riskScore := FinalRisk(init, svc)), VerdictReply(init, svc).value,
                                 ReportReply(init, svc).value, svc.completionTime)) == Pass
  }

  lemma DoneStep(stages: seq<Stage>, s: AgentState, svc: Services)
    requires |stages| > 0 && Exec(stages, s, svc).status == Done
    ensures Step(stages[0], s, svc).Ok?
    ensures var e := Step(stages[0], s, svc).value;
            var rest := Exec(stages[1..], Merge(s, e.update), svc);
            rest.status == Done && Exec(stages, s, svc) == After([stages[0]], AuditOf(e), rest)
  {
    ExecStep(stages, s, svc, Step(stages[0], s, svc));
  }

  /** A run of the graph that completes has had every call answered, has run
      every node once in the order of the graph, and ends in the state and the
      audit trail the answers determine: the category and context from the
      policy search on the first message, the risk raised by the analysis of
      the history and by the compliance report on that same first message, the
      verdict asked for on the post-compliance risk, and exactly a start and a
      completion record. */
  lemma GraphDone(init: AgentState, svc: Services)
    requires Exec(Graph, init, svc).status == Done
    ensures AllAnswer(init, svc)
    ensures Exec(Graph, init, svc).trace == Graph
    ensures Exec(Graph, init, svc).state.messages
            == init.messages + [SystemMessage(AuditInitText(init.instanceId)),
                                SystemMessage(ContextText(TopCategory(PolicyHits(init, svc).value))),
                                SystemMessage(HistoryDone),
                                SystemMessage(ArchivedText)]
    ensures Exec(Graph, init, svc).state.policyCategory == Some(TopCategory(PolicyHits(init, svc).value))
    ensures Exec(Graph, init, svc).state.policyContext == Some(JoinWith('\n', Texts(PolicyHits(init, svc).value)))
    ensures Exec(Graph, init, svc).state.riskScore == FinalRisk(init, svc)
    ensures Exec(Graph, init, svc).state.complianceReport == Some(ReportReply(init, svc).value)
    ensures Exec(Graph, init, svc).state.finalVerdict == Some(VerdictReply(init, svc).value)
    ensures var t := Exec(Graph, init, svc).state;
            t.clientId == init.clientId && t.instanceId == init.instanceId && t.submissionDate == init.submissionDate
    ensures Exec(Graph, init, svc).appended
            == [StartRecord(init, svc.startTime),
                CompletedRecord(Exec(Graph, init, svc).state, VerdictReply(init, svc).value,
                                ReportReply(init, svc).value, svc.completionTime)]
  {
    var g0 := Graph;
    DoneStep(g0, init, svc);
    var s1 := Merge(init, Step(Initializer, init, svc).value.update);
    var g1 := g0[1..];
    assert g1 == [Selector, Investigator, Compliance, Orchestrator, Archiver];
    DoneStep(g1, s1, svc);
    var s2 := Merge(s1, Step(Selector, s1, svc).value.update);
    var g2 := g1[1..];
    assert g2 == [Investigator, Compliance, Orchestrator, Archiver];
    DoneStep(g2, s2, svc);
    var s3 := Merge(s2, Step(Investigator, s2, svc).value.update);
    var g3 := g2[1..];
    assert g3 == [Compliance, Orchestrator, Archiver];
    DoneStep(g3, s3, svc);
    var s4 := Merge(s3, Step(Compliance, s3, svc).value.update);
    var g4 := g3[1..];
    assert g4 == [Orchestrator, Archiver];
    DoneStep(g4, s4, svc);
    var s5 := Merge(s4, Step(Orchestrator, s4, svc).value.update);
    var g5 := g4[1..];
    assert g5 == [Archiver];
    DoneStep(g5, s5, svc);
    assert g5[1..] == [];
    assert s1.messages[0].content == FirstQuery(init);
    assert s3.messages[0] == s1.messages[0];
    assert s5.riskScore == FinalRisk(init, svc);
  }

  /** Conversely, when every call answers the graph completes: nothing but a
      failing call stops it. */
  lemma GraphAnswered(init: AgentState, svc: Services)
    requires AllAnswer(init, svc)
    ensures Exec(Graph, init, svc).status == Done
  {
    var g1 := [Selector, Investigator, Compliance, Orchestrator, Archiver];
    var g2, g3, g4, g5 := g1[1..], g1[2..], g1[3..], g1[4..];
    assert Graph[1..] == g1 && g1[1..] == g2 && g2[1..] == g3 && g3[1..] == g4 && g4[1..] == g5 && g5[1..] == [];
    var st1 := Step(Initializer, init, svc);
    assert st1.Ok?;
    var s1 := Merge(init, st1.value.update);
    var st2 := Step(Selector, s1, svc);
    assert s1.messages[0].content == FirstQuery(init);
    assert st2.Ok?;
    var s2 := Merge(s1, st2.value.update);
    var st3 := Step(Investigator, s2, svc);
    assert st3.Ok?;
    var s3 := Merge(s2, st3.value.update);
    var st4 := Step(Compliance, s3, svc);
    assert s3.messages[0] == s1.messages[0];
    assert st4.Ok?;
    var s4 := Merge(s3, st4.value.update);
    var st5 := Step(Orchestrator, s4, svc);
    assert s4.riskScore == FinalRisk(init, svc);
    assert st5.Ok?;
    var s5 := Merge(s4, st5.value.update);
    var st6 := Step(Archiver, s5, svc);
    assert st6.Ok?;
    var s6 := Merge(s5, st6.value.update);
    ExecStep(g5, s5, svc, st6);
    assert Exec(g5, s5, svc).status == Done;
    ExecStep(g4, s4, svc, st5);
    assert Exec(g4, s4, svc).status == Done;
    ExecStep(g3, s3, svc, st4);
    assert Exec(g3, s3, svc).status == Done;
    ExecStep(g2, s2, svc, st3);
    assert Exec(g2, s2, svc).status == Done;
    ExecStep(g1, s1, svc, st2);
    assert Exec(g1, s1, svc).status == Done;
    ExecStep(Graph, init, svc, st1);
  }

  /** The graph completes exactly when every call it makes answers. */
  lemma GraphDoneIff(init: AgentState, svc: Services)
    ensures Exec(Graph, init, svc).status == Done <==> AllAnswer(init, svc)
  {
    if Exec(Graph, init, svc).status == Done {
      GraphDone(init, svc);
    }
    if AllAnswer(init, svc) {
      GraphAnswered(init, svc);
    }
  }

  /** A run that stops has met a failing call, never a missing key, and its
      audit trail holds the start record alone, or nothing when the start
      record itself could not be written: never a completion record. */
  lemma GraphHalted(init: AgentState, svc: Services)
    requires Exec(Graph, init, svc).status.Halted?
    ensures Exec(Graph, init, svc).status.failure.ServiceFailed?
    ensures Exec(Graph, init, svc).appended
            == if Exec(Graph, init, svc).status.stage == Initializer then [] else [StartRecord(init, svc.startTime)]
    ensures forall k :: 0 <= k < |Exec(Graph, init, svc).appended| ==> Exec(Graph, init, svc).appended[k].status != Completed
  {
    var g1 := [Selector, Investigator, Compliance, Orchestrator, Archiver];
    var st1 := Step(Initializer, init, svc);
    assert Graph[0] == Initializer && Graph[1..] == g1;
    ExecStep(Graph, init, svc, st1);
    if st1.Ok? {
      var s1 := Merge(init, st1.value.update);
      assert st1.value.audit == Some(StartRecord(init, svc.startTime));
      assert |s1.messages| > 0;
      HaltedAfterStart(g1, s1, svc);
      var rest := Exec(g1, s1, svc);
      assert Exec(Graph, init, svc) == After([Initializer], [StartRecord(init, svc.startTime)], rest);
      assert rest.status.stage != Initializer by {
        ExecTrace(g1, s1, svc);
      }
      assert Exec(Graph, init, svc).appended == [StartRecord(init, svc.startTime)];
    }
  }

  /** After the start record: a stop in the rest of the graph comes from a
      failing call and appends nothing. */
  lemma HaltedAfterStart(g: seq<Stage>, s: AgentState, svc: Services)
    requires g == [Selector, Investigator, Compliance, Orchestrator, Archiver]
    requires |s.messages| > 0
    requires Exec(g, s, svc).status.Halted?
    ensures Exec(g, s, svc).status.failure.ServiceFailed? && Exec(g, s, svc).appended == []
  {
    var st2 := Step(Selector, s, svc);
    ExecStep(g, s, svc, st2);
    if st2.Err? { return; }
    var s2 := Merge(s, st2.value.update);
    var g2 := g[1..];
    assert g2 == [Investigator, Compliance, Orchestrator, Archiver];
    var st3 := Step(Investigator, s2, svc);
    ExecStep(g2, s2, svc, st3);
    if st3.Err? { return; }
    var s3 := Merge(s2, st3.value.update);
    var g3 := g2[1..];
    assert g3 == [Compliance, Orchestrator, Archiver];
    assert |s3.messages| > 0;
    HaltedFromCompliance(g3, s3, svc);
  }

  lemma HaltedFromCompliance(g: seq<Stage>, s: AgentState, svc: Services)
    requires g == [Compliance, Orchestrator, Archiver]
    requires |s.messages| > 0
    requires Exec(g, s, svc).status.Halted?
    ensures Exec(g, s, svc).status.failure.ServiceFailed? && Exec(g, s, svc).appended == []
  {
    var st4 := Step(Compliance, s, svc);
    ExecStep(g, s, svc, st4);
    if st4.Err? { return; }
    var s4 := Merge(s, st4.value.update);
    var g4 := g[1..];
    assert g4 == [Orchestrator, Archiver];
    var st5 := Step(Orchestrator, s4, svc);
    ExecStep(g4, s4, svc, st5);
    if st5.Err? { return; }
    var s5 := Merge(s4, st5.value.update);
    var g5 := g4[1..];
    assert g5 == [Archiver];
    var st6 := Step(Archiver, s5, svc);
    ExecStep(g5, s5, svc, st6);
    assert g5[1..] == [];
  }

  lemma FinalRiskIncrease(init: AgentState, svc: Services)
    ensures FinalRisk(init, svc) - init.riskScore in {0, 25, 40, 65}
  {
    var a := if AnalysisReply(init, svc).Ok? then SuspicionRisk(AnalysisReply(init, svc).value) else 0;
    var b := if ReportReply(init, svc).Ok? then ViolationRisk(ReportReply(init, svc).value) else 0;
    assert a == 0 || a == 25;
    assert b == 0 || b == 40;
    assert FinalRisk(init, svc) - init.riskScore == a + b;
  }

  /** A completed run raises the risk by one of 0, 25, 40 or 65, and its
      completion record carries the final risk. */
  lemma GraphRiskIncrease(init: AgentState, svc: Services)
    requires Exec(Graph, init, svc).status == Done
    ensures Exec(Graph, init, svc).state.riskScore - init.riskScore in {0, 25, 40, 65}
    ensures |Exec(Graph, init, svc).appended| == 2
            && Exec(Graph, init, svc).appended[1].riskScore == Some(Exec(Graph, init, svc).state.riskScore)
  {
    GraphDone(init, svc);
    FinalRiskIncrease(init, svc);
    var r := Exec(Graph, init, svc);
    var done := CompletedRecord(r.state, VerdictReply(init, svc).value, ReportReply(init, svc).value, svc.completionTime);
    assert r.appended == [StartRecord(init, svc.startTime), done];
    assert done.riskScore == Some(r.state.riskScore);
  }

  /** A flagged analysis and a flagged report together raise the risk by 65. */
  lemma BothFlagsRaiseBy65(init: AgentState, svc: Services)
    requires Exec(Graph, init, svc).status == Done
    requires AnalysisReply(init, svc).Ok? && Contains(Lower(AnalysisReply(init, svc).value), "suspicious")
    requires ReportReply(init, svc).Ok? && Contains(Lower(ReportReply(init, svc).value), "violation")
    ensures Exec(Graph, init, svc).state.riskScore == init.riskScore + 65
  {
    GraphDone(init, svc);
  }

  /** When both searches find nothing, the category falls back to `General`,
      the context is empty and the history prompt carries the sentinel. */
  lemma EmptySearchesFallBack(init: AgentState, svc: Services)
    requires Exec(Graph, init, svc).status == Done
    requires PolicyHits(init, svc) == Ok([]) && PastHits(init, svc) == Ok([])
    ensures Exec(Graph, init, svc).state.policyCategory == Some(DefaultCategory)
    ensures Exec(Graph, init, svc).state.policyContext == Some("")
    ensures AnalysisReply(init, svc) == svc.llm(HistoryPrompt(init.clientId, NoHistory))
  {
    GraphDone(init, svc);
    assert Texts([]) == [];
  }

  /** The prompts and the completion text carry what they are built from: the
      history prompt the client and the history, the compliance prompt the
      claim context, the verdict prompt the printed risk and the report, and
      the completion text the verdict and the report. */
  lemma TextsCarryTheirParts(clientId: string, history: string, context: string,
                             risk: int, report: string, verdict: string)
    ensures Contains(HistoryPrompt(clientId, history), clientId)
    ensures Contains(HistoryPrompt(clientId, history), history)
    ensures Contains(CompliancePrompt(context), context)
    ensures Contains(VerdictPrompt(risk, report), IntToDecimal(risk))
    ensures Contains(VerdictPrompt(risk, report), report)
    ensures Contains(VerdictText(verdict, report), verdict)
    ensures Contains(VerdictText(verdict, report), report)
  {
    ContainsMiddle("Analyze claim history for ", clientId, ":\n" + history);
    assert HistoryPrompt(clientId, history) == "Analyze claim history for " + clientId + (":\n" + history);
    ContainsMiddle("Analyze claim history for " + clientId + ":\n", history, "");
    assert HistoryPrompt(clientId, history) == "Analyze claim history for " + clientId + ":\n" + history + "";
    ContainsMiddle("Apply Rules:\n" + Rules + "\n\nClaim Context: ", context, "");
    assert CompliancePrompt(context) == "Apply Rules:\n" + Rules + "\n\nClaim Context: " + context + "";
    var head := "Provide final APPROVED/DENIED verdict based on:\n" + "Risk: ";
    ContainsMiddle(head, IntToDecimal(risk), "\nCompliance: " + report);
    assert VerdictPrompt(risk, report) == head + IntToDecimal(risk) + ("\nCompliance: " + report);
    ContainsMiddle(head + IntToDecimal(risk) + "\nCompliance: ", report, "");
    assert VerdictPrompt(risk, report) == head + IntToDecimal(risk) + "\nCompliance: " + report + "";
    ContainsMiddle("Verdict: ", verdict, "\nReport: " + report);
    assert VerdictText(verdict, report) == "Verdict: " + verdict + ("\nReport: " + report);
    ContainsMiddle("Verdict: " + verdict + "\nReport: ", report, "");
    assert VerdictText(verdict, report) == "Verdict: " + verdict + "\nReport: " + report + "";
  }
}
