/** The scripted multi-agent workflow animation
    (components/orchestration/OrchestrationPanel.tsx): a fixed eight-step
    table, the panel state it drives, and the entry, exit and completion
    transitions. Timers are not modelled; the step index and the log
    timestamps are explicit. */
module WorkflowAnimator {
  import opened Common

  datatype Agent = Architect | Backend | UiUx | DevOps | Reviewer | MetaGemini | MetaOpenAi

  datatype AgentStatus = Idle | Active | Handoff | Failing

  datatype LinkKind = A2A | Api

  datatype Link = Link(from: Agent, to: Agent, kind: LinkKind)

  /** One row of the workflow table. `duration` (milliseconds) only paces
      the timers and plays no part in the transitions. */
  datatype Step = Step(agent: Agent, task: string, handoff: Option<Agent>, duration: nat,
                       parent: Option<Agent>, link: Option<Link>)

  datatype FileStatus = Synced | Updating

  datatype KnowledgeFile = KnowledgeFile(id: int, name: string, version: int, status: FileStatus)

  datatype Speaker = AgentSpeaker(agent: Agent) | System

  datatype LogEntry = LogEntry(speaker: Speaker, text: string, timestamp: int)

  /** The panel state: whether the run is on, the index of the step last
      entered (-1 before the first), the status of each agent shown, the
      log, the knowledge-file table and the highlighted link. */
  datatype Panel = Panel(
    simulating: bool,
    currentStep: int,
    status: map<Agent, AgentStatus>,
    log: seq<LogEntry>,
    files: seq<KnowledgeFile>,
    link: Option<Link>)

  const Workflow: seq<Step> := [
    Step(Architect, "Received user request. Scaffolding Vue app with Vite and designing component architecture.",
         Some(Backend), 2500, None, Some(Link(Architect, Backend, A2A))),
    Step(Backend, "Received frontend plan. Defining Node.js/Express API endpoints for tasks.",
         Some(UiUx), 2000, None, Some(Link(Backend, UiUx, Api))),
    Step(UiUx, "Designing UI with Shadcn-Vue. Defining layout and component states.",
         Some(Architect), 3000, None, Some(Link(UiUx, Architect, A2A))),
    Step(MetaGemini, "Supervisory check: Optimizing Vue component reactivity and performance.",
         None, 1500, Some(Architect), None),
    Step(Backend, "Implementing API endpoints and database logic.",
         Some(Reviewer), 2500, None, Some(Link(Backend, Reviewer, Api))),
    Step(MetaOpenAi, "Supervisory check: Adding security middleware to Node.js server.",
         None, 1500, Some(Backend), None),
    Step(DevOps, "Configuring vite.config.ts for production build and setting up CI pipeline.",
         Some(Reviewer), 2000, None, Some(Link(DevOps, Reviewer, A2A))),
    Step(Reviewer, "Performing final code review, merging branches, and preparing for deployment.",
         None, 2000, None, None)
  ]

  const InitialFiles: seq<KnowledgeFile> := [
    KnowledgeFile(1, "vite.config.ts", 1, Synced),
    KnowledgeFile(2, "api/routes.js", 1, Synced),
    KnowledgeFile(3, "src/App.vue", 1, Synced),
    KnowledgeFile(4, "package.json", 1, Synced)
  ]

  /** The agents the status table starts with (the meta-agents join it when
      a step first names them). */
  const BaseAgents: set<Agent> := {Architect, Backend, UiUx, DevOps, Reviewer}

  const CompletedText: string := "Workflow completed."

  /** The file a step's agent works on, if any: DevOps edits file 1 and the
      architect edits file 3. */
  function OwnedFile(a: Agent): Option<int>
  {
    if a == DevOps then Some(1) else if a == Architect then Some(3) else None
  }

  /** `resetState`: before any step, every base agent idle, empty log,
      initial files, no link. The run flag is left as it was. */
  function Reset(p: Panel): (r: Panel)
    ensures r.currentStep == -1 && r.log == [] && r.files == InitialFiles && r.link == None
    ensures r.status.Keys == BaseAgents
    ensures forall a :: a in r.status ==> r.status[a] == Idle
    ensures r.simulating == p.simulating
  {
    Panel(p.simulating, -1, map a | a in BaseAgents :: Idle, [], InitialFiles, None)
  }

  /** Marks the files with id `id` as updating one version up. */
  function BeginEdit(files: seq<KnowledgeFile>, id: int): seq<KnowledgeFile>
  {
    seq(|files|, i requires 0 <= i < |files| =>
      if files[i].id == id then files[i].(status := Updating, version := files[i].version + 1) else files[i])
  }

  /** Marks the files with id `id` as synced again, version kept. */
  function EndEdit(files: seq<KnowledgeFile>, id: int): seq<KnowledgeFile>
  {
    seq(|files|, i requires 0 <= i < |files| =>
      if files[i].id == id then files[i].(status := Synced) else files[i])
  }

  /** Entering step `i`: record it as current, log its agent and task, make
      its agent and supervising parent active, show its link if it has one,
      and start the edit of the agent's file. */
  function Enter(p: Panel, i: nat, now: int): (r: Panel)
    requires i < |Workflow|
    ensures r.currentStep == i && r.simulating == p.simulating
    ensures r.log == p.log + [LogEntry(AgentSpeaker(Workflow[i].agent), Workflow[i].task, now)]
    ensures r.status.Keys == p.status.Keys + {Workflow[i].agent}
                             + (if Workflow[i].parent.Some? then {Workflow[i].parent.value} else {})
    ensures r.status[Workflow[i].agent] == Active
    ensures Workflow[i].parent.Some? ==> r.status[Workflow[i].parent.value] == Active
    ensures forall a :: a in p.status && a != Workflow[i].agent && Some(a) != Workflow[i].parent ==>
              r.status[a] == p.status[a]
    ensures r.link == if Workflow[i].link.Some? then Workflow[i].link else p.link
    ensures |r.files| == |p.files|
    ensures forall j :: 0 <= j < |p.files| ==>
              r.files[j] == if Some(p.files[j].id) == OwnedFile(Workflow[i].agent)
                            then p.files[j].(status := Updating, version := p.files[j].version + 1)
                            else p.files[j]
  {
    var step := Workflow[i];
    var status := p.status[step.agent := Active];
    var status := if step.parent.Some? then status[step.parent.value := Active] else status;
    var files := if step.agent == DevOps then BeginEdit(p.files, 1) else p.files;
    var files := if step.agent == Architect then BeginEdit(files, 3) else files;
    Panel(p.simulating, i, status, p.log + [LogEntry(AgentSpeaker(step.agent), step.task, now)],
          files, if step.link.Some? then step.link else p.link)
  }

  /** Leaving step `i` when its duration has passed: the agent hands off if
      the step names a recipient and goes idle otherwise, the parent goes
      idle, and the agent's file edit is finished at its new version. */
  function Exit(p: Panel, i: nat): (r: Panel)
    requires i < |Workflow|
    ensures r.currentStep == p.currentStep && r.simulating == p.simulating
    ensures r.log == p.log && r.link == p.link
    ensures r.status.Keys == p.status.Keys + {Workflow[i].agent}
                             + (if Workflow[i].parent.Some? then {Workflow[i].parent.value} else {})
    ensures r.status[Workflow[i].agent] == (if Workflow[i].handoff.Some? then Handoff else Idle)
    ensures Workflow[i].parent.Some? ==> r.status[Workflow[i].parent.value] == Idle
    ensures forall a :: a in p.status && a != Workflow[i].agent && Some(a) != Workflow[i].parent ==>
              r.status[a] == p.status[a]
    ensures |r.files| == |p.files|
    ensures forall j :: 0 <= j < |p.files| ==>
              r.files[j] == if Some(p.files[j].id) == OwnedFile(Workflow[i].agent)
                            then p.files[j].(status := Synced)
                            else p.files[j]
  {
    var step := Workflow[i];
    var status := p.status[step.agent := if step.handoff.Some? then Handoff else Idle];
    var status := if step.parent.Some? then status[step.parent.value := Idle] else status;
    var files := if step.agent == DevOps then EndEdit(p.files, 1) else p.files;
    var files := if step.agent == Architect then EndEdit(files, 3) else files;
    p.(status := status, files := files)
  }

  /** Running past the last step: stop, clear the link, set every agent in
      the status table idle and log the completion line. */
  function Complete(p: Panel, now: int): (r: Panel)
    ensures !r.simulating && r.link == None
    ensures r.status.Keys == p.status.Keys && forall a :: a in r.status ==> r.status[a] == Idle
    ensures r.log == p.log + [LogEntry(System, CompletedText, now)]
    ensures r.currentStep == p.currentStep && r.files == p.files
  {
    Panel(false, p.currentStep, map a | a in p.status :: Idle,
          p.log + [LogEntry(System, CompletedText, now)], p.files, None)
  }

  /** `runSimulationStep`: enter the step after the current one, or
      complete the run when there is none. */
  function Advance(p: Panel, now: int): (r: Panel)
    requires p.currentStep >= -1
    ensures p.currentStep + 1 >= |Workflow| ==> r == Complete(p, now)
    ensures p.currentStep + 1 < |Workflow| ==> r == Enter(p, p.currentStep + 1, now)
    ensures |r.log| == |p.log| + 1 && r.log[..|p.log|] == p.log
    ensures r.currentStep == if p.currentStep + 1 < |Workflow| then p.currentStep + 1 else p.currentStep
    ensures r.simulating <==> p.simulating && p.currentStep + 1 < |Workflow|
    ensures p.currentStep + 1 < |Workflow| ==>
              r.log[|p.log|] == LogEntry(AgentSpeaker(Workflow[p.currentStep + 1].agent), Workflow[p.currentStep + 1].task, now)
    ensures p.currentStep + 1 >= |Workflow| ==>
              r.log[|p.log|] == LogEntry(System, CompletedText, now) && r.link == None
  {
    var next := p.currentStep + 1;
    if next >= |Workflow| then Complete(p, now) else Enter(p, next, now)
  }

  /** Starting the run: the flag goes on and the panel is reset. */
  function Start(p: Panel): (r: Panel)
    ensures r.simulating && r.currentStep == -1 && r.log == [] && r.files == InitialFiles && r.link == None
    ensures r.status.Keys == BaseAgents && forall a :: a in r.status ==> r.status[a] == Idle
  {
    Reset(p.(simulating := true))
  }

  /** Every run starts from the same panel, whatever an earlier run left
      behind. */
  lemma StartForgetsEarlierRuns(p: Panel, q: Panel)
    ensures Start(p) == Start(q)
  {
  }

  /** How many of the first `k` steps are performed by agent `a`. */
  function StepsBy(a: Agent, k: nat): nat
    requires k <= |Workflow|
  {
    if k == 0 then 0 else StepsBy(a, k - 1) + (if Workflow[k - 1].agent == a then 1 else 0)
  }

  /** The file table after the first `k` steps have been entered and left:
      files 1 and 3 carry one version per step of their owner, all synced. */
  function FilesAfter(k: nat): seq<KnowledgeFile>
    requires k <= |Workflow|
  {
    [KnowledgeFile(1, "vite.config.ts", 1 + StepsBy(DevOps, k), Synced),
     KnowledgeFile(2, "api/routes.js", 1, Synced),
     KnowledgeFile(3, "src/App.vue", 1 + StepsBy(Architect, k), Synced),
     KnowledgeFile(4, "package.json", 1, Synced)]
  }

  /** The panel between two steps, after the first `k` steps have run
      with log timestamps `times`. */
  ghost predicate Settled(p: Panel, k: nat, times: seq<int>)
    requires k <= |Workflow| && k <= |times|
  {
    && p.simulating
    && p.currentStep == k - 1
    && |p.log| == k
    && (forall j :: 0 <= j < k ==>
          p.log[j] == LogEntry(AgentSpeaker(Workflow[j].agent), Workflow[j].task, times[j]))
    && p.files == FilesAfter(k)
    && BaseAgents <= p.status.Keys
    && (forall a :: a in p.status ==> p.status[a] == Idle || p.status[a] == Handoff)
  }

  lemma StepsByWholeTable()
    ensures StepsBy(DevOps, |Workflow|) == 1 && StepsBy(Architect, |Workflow|) == 1
  {
    assert StepsBy(DevOps, 6) == 0 && StepsBy(Architect, 1) == 1;
    assert StepsBy(DevOps, 7) == 1 && StepsBy(Architect, 3) == 1;
    assert StepsBy(Architect, 6) == 1;
  }

  /** Entering and then leaving the next step keeps the panel settled. */
  lemma StepKeepsSettled(p: Panel, k: nat, times: seq<int>)
    requires k < |Workflow| && k < |times| && Settled(p, k, times)
    ensures Settled(Exit(Advance(p, times[k]), k), k + 1, times)
  {
    FilesAfterStep(p.files, k, times[k]);
    StatusAfterStep(p, k, times[k]);
  }

  lemma StartSettled(p: Panel, times: seq<int>)
    ensures Settled(Start(p), 0, times)
  {
  }

  /** Running past the last step of a settled panel. */
  lemma CompletionOfSettled(p: Panel, times: seq<int>)
    requires |times| == |Workflow| + 1 && Settled(p, |Workflow|, times)
    ensures var r := Advance(p, times[|Workflow|]);
            && |r.log| == |Workflow| + 1
            && (forall j :: 0 <= j < |Workflow| ==>
                  r.log[j] == LogEntry(AgentSpeaker(Workflow[j].agent), Workflow[j].task, times[j]))
            && r.log[|Workflow|] == LogEntry(System, CompletedText, times[|Workflow|])
            && BaseAgents <= r.status.Keys && (forall a :: a in r.status ==> r.status[a] == Idle)
            && r.files == [KnowledgeFile(1, "vite.config.ts", 2, Synced), KnowledgeFile(2, "api/routes.js", 1, Synced),
                           KnowledgeFile(3, "src/App.vue", 2, Synced), KnowledgeFile(4, "package.json", 1, Synced)]
            && !r.simulating && r.link == None
  {
    StepsByWholeTable();
  }

  /** The file table part of StepKeepsSettled. */
  lemma FilesAfterStep(files: seq<KnowledgeFile>, k: nat, now: int)
    requires k < |Workflow| && files == FilesAfter(k)
    ensures forall p: Panel :: p.files == files ==> Exit(Enter(p, k, now), k).files == FilesAfter(k + 1)
  {
    forall p: Panel | p.files == files
      ensures Exit(Enter(p, k, now), k).files == FilesAfter(k + 1)
    {
      var r := Exit(Enter(p, k, now), k);
      assert |r.files| == 4;
      forall j | 0 <= j < 4 ensures r.files[j] == FilesAfter(k + 1)[j] {
      }
    }
  }

  /** The status part of StepKeepsSettled: the step's agent and parent end
      up handing off or idle, every other agent keeps its status. */
  lemma StatusAfterStep(p: Panel, k: nat, now: int)
    requires k < |Workflow|
    requires BaseAgents <= p.status.Keys
    requires forall a :: a in p.status ==> p.status[a] == Idle || p.status[a] == Handoff
    ensures var r := Exit(Enter(p, k, now), k);
            && BaseAgents <= r.status.Keys
            && (forall a :: a in r.status ==> r.status[a] == Idle || r.status[a] == Handoff)
  {
    var q := Enter(p, k, now);
    var r := Exit(q, k);
    forall a | a in r.status ensures r.status[a] == Idle || r.status[a] == Handoff {
      if a != Workflow[k].agent && Some(a) != Workflow[k].parent {
        assert r.status[a] == q.status[a] == p.status[a];
      }
    }
  }

  /** A whole run from the start button to completion, one timestamp per
      log line: each step is entered and then left in table order, and the
      step after the last completes the run. */
  method RunWorkflow(p: Panel, times: seq<int>) returns (r: Panel)
    requires |times| == |Workflow| + 1
    ensures |r.log| == |Workflow| + 1
    ensures forall j :: 0 <= j < |Workflow| ==>
              r.log[j] == LogEntry(AgentSpeaker(Workflow[j].agent), Workflow[j].task, times[j])
    ensures r.log[|Workflow|] == LogEntry(System, CompletedText, times[|Workflow|])
    ensures BaseAgents <= r.status.Keys && forall a :: a in r.status ==> r.status[a] == Idle
    ensures r.files == [KnowledgeFile(1, "vite.config.ts", 2, Synced), KnowledgeFile(2, "api/routes.js", 1, Synced),
                        KnowledgeFile(3, "src/App.vue", 2, Synced), KnowledgeFile(4, "package.json", 1, Synced)]
    ensures !r.simulating && r.link == None
  {
    r := Start(p);
    StartSettled(p, times);
    var k: nat := 0;
    while k < |Workflow|
      invariant k <= |Workflow|
      invariant Settled(r, k, times)
    {
      StepKeepsSettled(r, k, times);
      var entered := Advance(r, times[k]);
      assert entered == Enter(r, k, times[k]);
      r := Exit(entered, k);
      k := k + 1;
    }
    CompletionOfSettled(r, times);
    var completed := Advance(r, times[k]);
    assert completed == Complete(r, times[k]);
    r := completed;
  }
}
