/** The flow runner of jc/__init__.py: JCState, JCStep, JCFlow.run, the
    research planning handler, the research_then_summarize flow and run_flow.

    A handler is a function from the state it is given to what it does: the
    state it returns, or the message of the exception it raises together with
    the state as it left it (a handler may change the state in place before
    raising). Flows may loop, so a run is given `fuel`, the largest number of
    steps it may start. The clock is a function from the number of steps
    started so far to the time. */
module Flow {
  import opened Wrappers

  /** A message dictionary: its optional "role" and its "content". */
  datatype Message = Message(role: Option<string>, content: string)

  datatype Task = Task(id: string, question: string, status: string)

  /** A `step_history` entry (its duration is not modelled). */
  datatype HistoryEntry = HistoryEntry(step: string, role: string, startedAt: int)

  datatype JCState = JCState(
    threadId: string,
    flowId: string,
    stepId: string,
    messages: seq<Message>,
    tasks: seq<Task>,
    toolsUsed: seq<string>,
    errors: seq<string>,
    stepHistory: seq<HistoryEntry>)

  datatype HandlerOutcome = Returned(state: JCState) | Raised(left: JCState, message: string)
  {
    /** The state the handler leaves, whether it returns or raises. */
    function After(): JCState {
      if Returned? then state else left
    }
  }

  datatype JCStep = JCStep(name: string, handler: JCState -> HandlerOutcome, nextSteps: seq<string>, role: string)

  datatype JCFlow = JCFlow(id: string, initialStep: string, steps: map<string, JCStep>, terminalSteps: seq<string>)

  /** The final state and the ids of the steps started, in order. */
  datatype Run = Run(state: JCState, started: seq<string>)

  /** The state a step's handler receives: its history entry appended first. */
  function Entered(state: JCState, step: JCStep, at: int): JCState {
    state.(stepHistory := state.stepHistory + [HistoryEntry(step.name, step.role, at)])
  }

  /** What one turn of the loop leaves: the run stops, or goes on from a state. */
  datatype TurnOut = Stop(state: JCState) | Continue(state: JCState)

  /** One turn on a known step: its handler runs on the entered state; an
      exception is recorded as "<name>: <message>" and stops the run, a step
      without `next_steps` stops it, and otherwise `step_id` becomes the first
      of them. */
  function Turn(flow: JCFlow, state: JCState, clock: nat -> int, k: nat): TurnOut
    requires state.stepId in flow.steps
  {
    var step := flow.steps[state.stepId];
    match step.handler(Entered(state, step, clock(k)))
    case Raised(left, msg) => Stop(left.(errors := left.errors + [step.name + ": " + msg]))
    case Returned(after) =>
      if step.nextSteps == [] then Stop(after) else Continue(after.(stepId := step.nextSteps[0]))
  }

  /** The loop of `JCFlow.run` from `state`, `k` steps having been started. */
  function RunFrom(flow: JCFlow, state: JCState, clock: nat -> int, k: nat, fuel: nat): Run
    decreases fuel
  {
    if fuel == 0 || state.stepId in flow.terminalSteps || state.stepId !in flow.steps then Run(state, [])
    else
      match Turn(flow, state, clock, k)
      case Stop(s) => Run(s, [state.stepId])
      case Continue(s) =>
        var rest := RunFrom(flow, s, clock, k + 1, fuel - 1);
        Run(rest.state, [state.stepId] + rest.started)
  }

  lemma RunFromStops(flow: JCFlow, state: JCState, clock: nat -> int, k: nat, fuel: nat)
    requires fuel > 0 && state.stepId !in flow.terminalSteps && state.stepId in flow.steps
    requires Turn(flow, state, clock, k).Stop?
    ensures RunFrom(flow, state, clock, k, fuel) == Run(Turn(flow, state, clock, k).state, [state.stepId])
  {
  }

  lemma RunFromContinues(flow: JCFlow, state: JCState, clock: nat -> int, k: nat, fuel: nat)
    requires fuel > 0 && state.stepId !in flow.terminalSteps && state.stepId in flow.steps
    requires Turn(flow, state, clock, k).Continue?
    ensures var rest := RunFrom(flow, Turn(flow, state, clock, k).state, clock, k + 1, fuel - 1);
            RunFrom(flow, state, clock, k, fuel) == Run(rest.state, [state.stepId] + rest.started)
  {
  }

  lemma RunFromEnds(flow: JCFlow, state: JCState, clock: nat -> int, k: nat, fuel: nat)
    requires fuel == 0 || state.stepId in flow.terminalSteps || state.stepId !in flow.steps
    ensures RunFrom(flow, state, clock, k, fuel) == Run(state, [])
  {
  }

  lemma ThenStep(done: seq<string>, id: string, rest: Run)
    ensures Then(done, Run(rest.state, [id] + rest.started)) == Then(done + [id], rest)
  {
    assert done + ([id] + rest.started) == (done + [id]) + rest.started;
  }

  /** `JCFlow.run`: an empty `step_id` starts at `initial_step`. */
  function RunSpec(flow: JCFlow, state: JCState, clock: nat -> int, fuel: nat): Run {
    RunFrom(flow, if state.stepId == [] then state.(stepId := flow.initialStep) else state, clock, 0, fuel)
  }

  /** `JCFlow.run`, as the while loop that updates the state. */
  method RunFlow(flow: JCFlow, state0: JCState, clock: nat -> int, fuel: nat) returns (state: JCState, started: seq<string>)
    ensures Run(state, started) == RunSpec(flow, state0, clock, fuel)
  {
    state := state0;
    if state.stepId == [] {
      state := state.(stepId := flow.initialStep);
    }
    started := [];
    var k: nat := 0;
    ghost var remaining: nat := fuel;
    while state.stepId !in flow.terminalSteps && k < fuel
      invariant k == |started| && remaining == fuel - k
      invariant RunSpec(flow, state0, clock, fuel) == Then(started, RunFrom(flow, state, clock, k, remaining))
      decreases remaining
    {
      if state.stepId !in flow.steps {
        break;
      }
      var id := state.stepId;
      ghost var before := state;
      var more;
      state, more := RunStep(flow, state, clock, k);
      if !more {
        RunFromStops(flow, before, clock, k, remaining);
        ThenStep(started, id, Run(state, []));
        started := started + [id];
        return;
      }
      RunFromContinues(flow, before, clock, k, remaining);
      ThenStep(started, id, RunFrom(flow, state, clock, k + 1, remaining - 1));
      started := started + [id];
      k := k + 1;
      remaining := remaining - 1;
    }
    RunFromEnds(flow, state, clock, k, remaining);
    assert started + [] == started;
  }

  /** A run that had already started the steps `done`. */
  function Then(done: seq<string>, rest: Run): Run {
    Run(rest.state, done + rest.started)
  }

  /** The body of the loop for a known step: the history entry, the handler
      call, and the choice of the next `step_id`. */
  method RunStep(flow: JCFlow, state0: JCState, clock: nat -> int, k: nat) returns (state: JCState, more: bool)
    requires state0.stepId in flow.steps
    ensures Turn(flow, state0, clock, k) == if more then Continue(state) else Stop(state)
  {
    var step := flow.steps[state0.stepId];
    state := Entered(state0, step, clock(k));
    match step.handler(state) {
      case Raised(left, msg) =>
        state := left.(errors := left.errors + [step.name + ": " + msg]);
        return state, false;
      case Returned(after) =>
        state := after;
    }
    if step.nextSteps != [] {
      state := state.(stepId := step.nextSteps[0]);
      more := true;
    } else {
      more := false;
    }
  }

  // ---------------------------------------------------------------------------
  // Properties of the loop
  // ---------------------------------------------------------------------------

  /** Every step started is a known, non-terminal step, and each one after the
      first is the first `next_steps` entry of the one before; at most `fuel`
      steps are started. */
  lemma {:induction false} StartedSteps(flow: JCFlow, state: JCState, clock: nat -> int, k: nat, fuel: nat)
    decreases fuel
    ensures var run := RunFrom(flow, state, clock, k, fuel);
            |run.started| <= fuel &&
            (run.started != [] ==> run.started[0] == state.stepId) &&
            (forall i :: 0 <= i < |run.started| ==>
               run.started[i] !in flow.terminalSteps && run.started[i] in flow.steps) &&
            (forall i :: 0 <= i < |run.started| - 1 ==>
               flow.steps[run.started[i]].nextSteps != [] &&
               run.started[i + 1] == flow.steps[run.started[i]].nextSteps[0])
  {
    if fuel == 0 || state.stepId in flow.terminalSteps || state.stepId !in flow.steps {
      RunFromEnds(flow, state, clock, k, fuel);
    } else {
      var t := Turn(flow, state, clock, k);
      if t.Stop? {
        RunFromStops(flow, state, clock, k, fuel);
      } else {
        TurnContinuesToNext(flow, state, clock, k);
        RunFromContinues(flow, state, clock, k, fuel);
        StartedSteps(flow, t.state, clock, k + 1, fuel - 1);
        var rest := RunFrom(flow, t.state, clock, k + 1, fuel - 1);
        var started := [state.stepId] + rest.started;
        forall i | 0 <= i < |started|
          ensures started[i] !in flow.terminalSteps && started[i] in flow.steps
        {
          if i > 0 {
            assert started[i] == rest.started[i - 1];
          }
        }
        forall i | 0 <= i < |started| - 1
          ensures flow.steps[started[i]].nextSteps != [] && started[i + 1] == flow.steps[started[i]].nextSteps[0]
        {
          assert started[i + 1] == rest.started[i];
          if i > 0 {
            assert started[i] == rest.started[i - 1];
          }
        }
      }
    }
  }

  /** A turn that goes on does so from the first of the step's `next_steps`. */
  lemma TurnContinuesToNext(flow: JCFlow, state: JCState, clock: nat -> int, k: nat)
    requires state.stepId in flow.steps && Turn(flow, state, clock, k).Continue?
    ensures flow.steps[state.stepId].nextSteps != []
    ensures Turn(flow, state, clock, k).state.stepId == flow.steps[state.stepId].nextSteps[0]
  {
  }

  /** A handler that keeps the history as it received it. */
  ghost predicate KeepsHistory(h: JCState -> HandlerOutcome) {
    forall s :: h(s).After().stepHistory == s.stepHistory
  }

  /** The history entries a run appends, one per step started. */
  function Entries(flow: JCFlow, started: seq<string>, clock: nat -> int, k: nat): seq<HistoryEntry>
    requires forall id :: id in started ==> id in flow.steps
  {
    if started == [] then []
    else
      var step := flow.steps[started[0]];
      [HistoryEntry(step.name, step.role, clock(k))] + Entries(flow, started[1..], clock, k + 1)
  }

  /** A turn whose handler leaves the history alone appends exactly the step's entry. */
  lemma TurnAppendsEntry(flow: JCFlow, state: JCState, clock: nat -> int, k: nat)
    requires state.stepId in flow.steps && KeepsHistory(flow.steps[state.stepId].handler)
    ensures var step := flow.steps[state.stepId];
            Turn(flow, state, clock, k).state.stepHistory
            == state.stepHistory + [HistoryEntry(step.name, step.role, clock(k))]
  {
    var step := flow.steps[state.stepId];
    var entered := Entered(state, step, clock(k));
    assert step.handler(entered).After().stepHistory == entered.stepHistory;
  }

  /** With handlers that leave the history alone, the run appends exactly one
      history entry per step started, naming that step, and nothing else. */
  lemma {:induction false} OneEntryPerStep(flow: JCFlow, state: JCState, clock: nat -> int, k: nat, fuel: nat)
    requires forall id :: id in flow.steps ==> KeepsHistory(flow.steps[id].handler)
    decreases fuel
    ensures var run := RunFrom(flow, state, clock, k, fuel);
            (forall id :: id in run.started ==> id in flow.steps) &&
            run.state.stepHistory == state.stepHistory + Entries(flow, run.started, clock, k)
  {
    StartedSteps(flow, state, clock, k, fuel);
    var run := RunFrom(flow, state, clock, k, fuel);
    if !(fuel == 0 || state.stepId in flow.terminalSteps || state.stepId !in flow.steps) {
      var step := flow.steps[state.stepId];
      var entry := HistoryEntry(step.name, step.role, clock(k));
      TurnAppendsEntry(flow, state, clock, k);
      var t := Turn(flow, state, clock, k);
      if t.Continue? {
        RunFromContinues(flow, state, clock, k, fuel);
        OneEntryPerStep(flow, t.state, clock, k + 1, fuel - 1);
        var rest := RunFrom(flow, t.state, clock, k + 1, fuel - 1);
        assert run == Run(rest.state, [state.stepId] + rest.started);
        assert run.started[1..] == rest.started;
        assert Entries(flow, run.started, clock, k) == [entry] + Entries(flow, rest.started, clock, k + 1);
        assert (state.stepHistory + [entry]) + Entries(flow, rest.started, clock, k + 1)
               == state.stepHistory + ([entry] + Entries(flow, rest.started, clock, k + 1));
      } else {
        RunFromStops(flow, state, clock, k, fuel);
        assert Entries(flow, run.started, clock, k) == [entry] + Entries(flow, [], clock, k + 1);
      }
    } else {
      RunFromEnds(flow, state, clock, k, fuel);
    }
  }

  /** A handler exception is recorded as "<name>: <message>" and ends the run
      after that step. */
  lemma HandlerErrorStops(flow: JCFlow, state: JCState, clock: nat -> int, k: nat, fuel: nat)
    requires fuel > 0 && state.stepId !in flow.terminalSteps && state.stepId in flow.steps
    requires var step := flow.steps[state.stepId]; step.handler(Entered(state, step, clock(k))).Raised?
    ensures var step := flow.steps[state.stepId];
            var out := step.handler(Entered(state, step, clock(k)));
            RunFrom(flow, state, clock, k, fuel)
            == Run(out.left.(errors := out.left.errors + [step.name + ": " + out.message]), [state.stepId])
  {
  }

  /** A step with no `next_steps` ends the run with its `step_id` unchanged
      when its handler leaves `step_id` alone. */
  lemma LastStepKeepsStepId(flow: JCFlow, state: JCState, clock: nat -> int, k: nat, fuel: nat)
    requires fuel > 0 && state.stepId !in flow.terminalSteps && state.stepId in flow.steps
    requires var step := flow.steps[state.stepId];
             var out := step.handler(Entered(state, step, clock(k)));
             step.nextSteps == [] && out.Returned? && out.state.stepId == state.stepId
    ensures RunFrom(flow, state, clock, k, fuel).state.stepId == state.stepId
    ensures RunFrom(flow, state, clock, k, fuel).started == [state.stepId]
  {
  }

  /** An unknown `step_id` ends the run quietly: nothing is started and the state is unchanged. */
  lemma UnknownStepStops(flow: JCFlow, state: JCState, clock: nat -> int, k: nat, fuel: nat)
    requires state.stepId !in flow.steps
    ensures RunFrom(flow, state, clock, k, fuel) == Run(state, [])
  {
  }

  // ---------------------------------------------------------------------------
  // Handlers and the research flow
  // ---------------------------------------------------------------------------

  /** The content of the latest message whose role is "user", or "". */
  function LatestUserMessage(messages: seq<Message>): (r: string)
    ensures r == "" || exists i :: 0 <= i < |messages| && messages[i].role == Some("user") && messages[i].content == r
    ensures (forall i :: 0 <= i < |messages| ==> messages[i].role != Some("user")) ==> r == ""
  {
    if messages == [] then ""
    else
      var last := messages[|messages| - 1];
      if last.role == Some("user") then last.content
      else LatestUserMessage(messages[..|messages| - 1])
  }

  /** Every message after the one `LatestUserMessage` picks is from another role. */
  lemma {:induction false} LatestUserMessageIsLatest(messages: seq<Message>, i: nat)
    requires i < |messages| && messages[i].role == Some("user")
    requires forall j :: i < j < |messages| ==> messages[j].role != Some("user")
    ensures LatestUserMessage(messages) == messages[i].content
  {
    if i < |messages| - 1 {
      LatestUserMessageIsLatest(messages[..|messages| - 1], i);
    }
  }

  /** `plan_research_handler`: the tasks become one pending task for the latest user message. */
  function PlanResearch(state: JCState): (r: HandlerOutcome)
    ensures r.Returned? && r.state == state.(tasks := r.state.tasks)
    ensures |r.state.tasks| == 1 && r.state.tasks[0].id == "q1" && r.state.tasks[0].status == "pending"
    ensures r.state.tasks[0].question == LatestUserMessage(state.messages)
  {
    Returned(state.(tasks := [Task("q1", LatestUserMessage(state.messages), "pending")]))
  }

  /** The research_then_summarize flow, its researching and summarising
      handlers given (the first uses the network). */
  function ResearchFlow(research: JCState -> HandlerOutcome, summarize: JCState -> HandlerOutcome): JCFlow {
    JCFlow("research_then_summarize", "plan_research",
           map["plan_research" := JCStep("plan_research", PlanResearch, ["run_research"], "planner"),
               "run_research" := JCStep("run_research", research, ["draft_summary"], "researcher"),
               "draft_summary" := JCStep("draft_summary", summarize, [], "assistant")],
           ["draft_summary"])
  }

  /** In research_then_summarize the terminal step is never started, so the
      summary handler never runs: a run from a fresh state starts
      plan_research and then at most run_research, and ends on draft_summary
      when the research handler returns a state. */
  lemma ResearchFlowNeverSummarizes(research: JCState -> HandlerOutcome, summarize: JCState -> HandlerOutcome,
                                    state: JCState, clock: nat -> int, fuel: nat)
    requires state.stepId == [] && fuel >= 2
    ensures var run := RunSpec(ResearchFlow(research, summarize), state, clock, fuel);
            "draft_summary" !in run.started &&
            run.started[..1] == ["plan_research"] && |run.started| <= 2 &&
            (run.started == ["plan_research", "run_research"] &&
             research(Entered(PlanResearch(Entered(state.(stepId := "plan_research"),
                                                   ResearchFlow(research, summarize).steps["plan_research"], clock(0))).state.(stepId := "run_research"),
                              ResearchFlow(research, summarize).steps["run_research"], clock(1))).Returned?
             ==> run.state.stepId == "draft_summary")
  {
    var flow := ResearchFlow(research, summarize);
    var s0 := state.(stepId := "plan_research");
    var planned := PlanResearch(Entered(s0, flow.steps["plan_research"], clock(0))).state;
    var s1 := planned.(stepId := "run_research");
    assert RunFrom(flow, s0, clock, 0, fuel).started == ["plan_research"] + RunFrom(flow, s1, clock, 1, fuel - 1).started;
    match research(Entered(s1, flow.steps["run_research"], clock(1)))
    case Raised(_, _) =>
    case Returned(after) =>
      var s2 := after.(stepId := "draft_summary");
      assert RunFrom(flow, s2, clock, 2, fuel - 2) == Run(s2, []);
  }

  // ---------------------------------------------------------------------------
  // run_flow
  // ---------------------------------------------------------------------------

  /** The `initial_state` dictionary: each key present or absent. */
  datatype InitialState = InitialState(
    threadId: Option<string>,
    flowId: Option<string>,
    stepId: Option<string>,
    messages: Option<seq<Message>>,
    tasks: Option<seq<Task>>,
    toolsUsed: Option<seq<string>>,
    errors: Option<seq<string>>,
    stepHistory: Option<seq<HistoryEntry>>)

  datatype FlowError =
    | FlowNotFound(name: string)   // ValueError
    | DuplicateFlowId              // TypeError: flow_id given twice to JCState

  function OrElse<T>(o: Option<T>, d: T): T {
    if o.Some? then o.value else d
  }

  /** The registry FLOWS. */
  function Flows(research: JCState -> HandlerOutcome, summarize: JCState -> HandlerOutcome): map<string, JCFlow> {
    map["research_then_summarize" := ResearchFlow(research, summarize)]
  }

  /** `run_flow(flow_name, initial_state)`: a missing or empty thread id is
      replaced by `freshId`; an unknown flow name is an error. */
  function RunFlowByName(flowName: string, init: InitialState, freshId: string,
                         research: JCState -> HandlerOutcome, summarize: JCState -> HandlerOutcome,
                         clock: nat -> int, fuel: nat): (r: Result<JCState, FlowError>)
    ensures flowName !in Flows(research, summarize) <==> r == Err(FlowNotFound(flowName))
    ensures r == Err(DuplicateFlowId) <==> flowName in Flows(research, summarize) && init.flowId.Some?
  {
    if flowName !in Flows(research, summarize) then Err(FlowNotFound(flowName))
    else if init.flowId.Some? then Err(DuplicateFlowId)
    else
      var flow := Flows(research, summarize)[flowName];
      Ok(RunSpec(flow, RunStart(flow, init, freshId), clock, fuel).state)
  }

  /** `JCState(**initial_state, flow_id=flow.id)` after the thread id is filled in. */
  function RunStart(flow: JCFlow, init: InitialState, freshId: string): JCState {
    var threadId := if init.threadId.Some? && init.threadId.value != [] then init.threadId.value else freshId;
    JCState(threadId, flow.id, OrElse(init.stepId, ""), OrElse(init.messages, []), OrElse(init.tasks, []),
            OrElse(init.toolsUsed, []), OrElse(init.errors, []), OrElse(init.stepHistory, []))
  }

  /** A handler that keeps the thread id (the planner does). */
  ghost predicate KeepsThread(h: JCState -> HandlerOutcome) {
    forall s :: h(s).After().threadId == s.threadId
  }

  /** The loop itself never changes the thread id. */
  lemma {:induction false} RunKeepsThread(flow: JCFlow, state: JCState, clock: nat -> int, k: nat, fuel: nat)
    requires forall id :: id in flow.steps ==> KeepsThread(flow.steps[id].handler)
    decreases fuel
    ensures RunFrom(flow, state, clock, k, fuel).state.threadId == state.threadId
  {
    if !(fuel == 0 || state.stepId in flow.terminalSteps || state.stepId !in flow.steps) {
      var step := flow.steps[state.stepId];
      var entered := Entered(state, step, clock(k));
      assert KeepsThread(step.handler);
      assert step.handler(entered).After().threadId == entered.threadId;
      var t := Turn(flow, state, clock, k);
      assert t.state.threadId == state.threadId;
      if t.Continue? {
        RunKeepsThread(flow, t.state, clock, k + 1, fuel - 1);
      }
    }
  }

  /** With a researching and a summarising handler that keep the thread id,
      `run_flow` returns the state under the given thread id, or a fresh one
      when the given one is missing or empty. */
  lemma RunFlowThreadId(flowName: string, init: InitialState, freshId: string,
                        research: JCState -> HandlerOutcome, summarize: JCState -> HandlerOutcome,
                        clock: nat -> int, fuel: nat)
    requires KeepsThread(research) && KeepsThread(summarize)
    ensures var r := RunFlowByName(flowName, init, freshId, research, summarize, clock, fuel);
            r.Ok? ==> r.value.threadId == (if init.threadId.Some? && init.threadId.value != [] then init.threadId.value else freshId)
  {
    var r := RunFlowByName(flowName, init, freshId, research, summarize, clock, fuel);
    if r.Ok? {
      var flow := ResearchFlow(research, summarize);
      assert flowName == "research_then_summarize" && Flows(research, summarize)[flowName] == flow;
      forall id | id in flow.steps
        ensures KeepsThread(flow.steps[id].handler)
      {
        if id == "plan_research" {
          assert flow.steps[id].handler == PlanResearch;
        } else if id == "run_research" {
          assert flow.steps[id].handler == research;
        } else {
          assert flow.steps[id].handler == summarize;
        }
      }
      var start := RunStart(flow, init, freshId);
      var first := if start.stepId == [] then start.(stepId := flow.initialStep) else start;
      RunKeepsThread(flow, first, clock, 0, fuel);
      assert r.value == RunFrom(flow, first, clock, 0, fuel).state;
    }
  }
}
