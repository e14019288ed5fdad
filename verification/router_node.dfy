/** The planning node (backend/app/nodes/router_node.py): the batch planner
    `group_parallel_agents`, the `router_node` that stores a plan once, and
    the `routing_logic` cursor. */
module RouterNode {
  import opened Strings
  import opened Values
  import opened WorkflowState
  import RouterAgent

  /** Tasks that must run in a batch of their own. */
  predicate IsSpecial(task: string) {
    task == "translate" || task == "compliance"
  }

  /** A batch with no special task in it. */
  predicate Free(batch: seq<string>) {
    forall j | 0 <= j < |batch| :: !IsSpecial(batch[j])
  }

  /** The batches joined back together, in order. */
  function Flatten(batches: seq<seq<string>>): seq<string> {
    if batches == [] then [] else Flatten(batches[..|batches| - 1]) + batches[|batches| - 1]
  }

  /** The grouping rules as invariants: no batch is empty, a special task
      sits alone, and no two neighbouring batches could have been merged. */
  predicate WellGrouped(batches: seq<seq<string>>) {
    && (forall i | 0 <= i < |batches| :: batches[i] != [])
    && (forall i, j | 0 <= i < |batches| && 0 <= j < |batches[i]| :: IsSpecial(batches[i][j]) ==> |batches[i]| == 1)
    && (forall i | 0 <= i < |batches| - 1 :: !(Free(batches[i]) && Free(batches[i + 1])))
  }

  /** The planner's loop variables `batches` and `current_batch`. */
  datatype Acc = Acc(batches: seq<seq<string>>, current: seq<string>)

  /** `batches.append(current_batch)` when `current_batch` is non-empty. */
  function Flush(batches: seq<seq<string>>, current: seq<string>): seq<seq<string>> {
    if current != [] then batches + [current] else batches
  }

  /** One loop iteration on `task`. */
  function Feed(acc: Acc, task: string): Acc {
    if IsSpecial(task) then Acc(Flush(acc.batches, acc.current) + [[task]], [])
    else Acc(acc.batches, acc.current + [task])
  }

  /** The loop variables after visiting every task. */
  function FeedAll(tasks: seq<string>): Acc {
    if tasks == [] then Acc([], []) else Feed(FeedAll(tasks[..|tasks| - 1]), tasks[|tasks| - 1])
  }

  /** What `group_parallel_agents(tasks)` returns. */
  function Plan(tasks: seq<string>): seq<seq<string>> {
    var acc := FeedAll(tasks);
    Flush(acc.batches, acc.current)
  }

  /** `group_parallel_agents(tasks)`. */
  method GroupParallelAgents(tasks: seq<string>) returns (batches: seq<seq<string>>)
    ensures batches == Plan(tasks)
  {
    if tasks == [] {
      return [];
    }
    batches := [];
    var current: seq<string> := [];
    for i := 0 to |tasks|
      invariant Acc(batches, current) == FeedAll(tasks[..i])
    {
      assert tasks[..i + 1][..i] == tasks[..i];
      var task := tasks[i];
      if task == "translate" {
        if current != [] {
          batches := batches + [current];
          current := [];
        }
        batches := batches + [[task]];
      } else if task == "compliance" {
        if current != [] {
          batches := batches + [current];
          current := [];
        }
        batches := batches + [[task]];
      } else {
        current := current + [task];
      }
    }
    assert tasks[..|tasks|] == tasks;
    if current != [] {
      batches := batches + [current];
    }
  }

  lemma PlanEmpty()
    ensures Plan([]) == []
  {
  }

  lemma FlattenSnoc(batches: seq<seq<string>>, b: seq<string>)
    ensures Flatten(batches + [b]) == Flatten(batches) + b
  {
    assert (batches + [b])[..|batches|] == batches;
  }

  lemma FlattenFlush(batches: seq<seq<string>>, current: seq<string>)
    ensures Flatten(Flush(batches, current)) == Flatten(batches) + current
  {
    if current != [] {
      FlattenSnoc(batches, current);
    } else {
      assert Flatten(batches) + current == Flatten(batches);
    }
  }

  /** The loop keeps: everything seen so far is the closed batches followed
      by the open one. */
  lemma {:induction false} FeedAllFlatten(tasks: seq<string>)
    ensures Flatten(FeedAll(tasks).batches) + FeedAll(tasks).current == tasks
  {
    if tasks != [] {
      var init := tasks[..|tasks| - 1];
      var t := tasks[|tasks| - 1];
      var acc := FeedAll(init);
      FeedAllFlatten(init);
      assert init + [t] == tasks;
      if IsSpecial(t) {
        FlattenFlush(acc.batches, acc.current);
        FlattenSnoc(Flush(acc.batches, acc.current), [t]);
      }
    }
  }

  /** Joining the batches gives back the task list, order and duplicates
      included. */
  lemma PlanFlatten(tasks: seq<string>)
    ensures Flatten(Plan(tasks)) == tasks
  {
    FeedAllFlatten(tasks);
    FlattenFlush(FeedAll(tasks).batches, FeedAll(tasks).current);
  }

  /** The loop's shape invariant: closed batches are well grouped and end in
      a special singleton, and the open batch holds only ordinary tasks. */
  predicate AccShape(acc: Acc) {
    && WellGrouped(acc.batches)
    && (acc.batches != [] ==> |acc.batches[|acc.batches| - 1]| == 1 && IsSpecial(acc.batches[|acc.batches| - 1][0]))
    && Free(acc.current)
  }

  lemma FlushShape(acc: Acc)
    requires AccShape(acc)
    ensures WellGrouped(Flush(acc.batches, acc.current))
  {
    if acc.current != [] {
      var bs := acc.batches + [acc.current];
      assert forall i | 0 <= i < |acc.batches| :: bs[i] == acc.batches[i];
      if acc.batches != [] {
        var last := acc.batches[|acc.batches| - 1];
        assert !Free(last) by {
          assert IsSpecial(last[0]);
        }
      }
    }
  }

  lemma FeedShape(acc: Acc, t: string)
    requires AccShape(acc)
    ensures AccShape(Feed(acc, t))
  {
    if IsSpecial(t) {
      FlushShape(acc);
      var flushed := Flush(acc.batches, acc.current);
      var bs := flushed + [[t]];
      assert forall i | 0 <= i < |flushed| :: bs[i] == flushed[i];
      assert !Free([t]) by {
        assert IsSpecial([t][0]);
      }
    }
  }

  lemma {:induction false} FeedAllShape(tasks: seq<string>)
    ensures AccShape(FeedAll(tasks))
  {
    if tasks != [] {
      FeedAllShape(tasks[..|tasks| - 1]);
      FeedShape(FeedAll(tasks[..|tasks| - 1]), tasks[|tasks| - 1]);
    }
  }

  /** The plan has no empty batch, every translate or compliance task is a
      batch of its own, and no two neighbouring batches are both free of
      them. */
  lemma PlanWellGrouped(tasks: seq<string>)
    ensures WellGrouped(Plan(tasks))
  {
    FeedAllShape(tasks);
    FlushShape(FeedAll(tasks));
  }

  /** A task list with no special task is planned as one batch: in
      particular a `str` decision, whose items are single characters. */
  lemma {:induction false} FreeTasksOneBatch(tasks: seq<string>)
    requires tasks != [] && Free(tasks)
    ensures Plan(tasks) == [tasks]
  {
    FreeFeedAll(tasks);
  }

  lemma {:induction false} FreeFeedAll(tasks: seq<string>)
    requires Free(tasks)
    ensures FeedAll(tasks) == Acc([], tasks)
  {
    if tasks != [] {
      var init := tasks[..|tasks| - 1];
      assert forall j | 0 <= j < |init| :: init[j] == tasks[j];
      FreeFeedAll(init);
      assert !IsSpecial(tasks[|tasks| - 1]);
      assert init + [tasks[|tasks| - 1]] == tasks;
    }
  }

  /** `not steps`. */
  predicate StepsTruthy(steps: Option<Steps>) {
    steps.Some? && Elements(steps.value) != []
  }

  /** The partial update `router_node` returns. */
  datatype RouterUpdate =
    | NoChange
    | Planned(nextSteps: Steps, parallelBatches: seq<seq<string>>, currentBatchIndex: int, currentStepIndex: int)

  /** `router_node(state)`: a plan is made only when `next_steps` is empty or
      absent, from the router's decision; `state["user_request"]` must then
      be present. */
  function Route(f: StateDict, llm: RouterAgent.RouterLlm): (r: Outcome<RouterUpdate>)
    ensures StepsTruthy(f.nextSteps) ==> r == Done(NoChange)
    ensures !StepsTruthy(f.nextSteps) && f.userRequest.None? ==> r == Raised(KeyError("user_request"))
    ensures !StepsTruthy(f.nextSteps) && f.userRequest.Some? ==>
      r.Done? && r.value.Planned? && r.value.nextSteps == StepText(RouterAgent.Decide(llm, f.userRequest.value))
    ensures r.Done? && r.value.Planned? ==>
      && r.value.currentBatchIndex == 0 && r.value.currentStepIndex == 0
      && r.value.parallelBatches == Plan(Elements(r.value.nextSteps))
  {
    if StepsTruthy(f.nextSteps) then Done(NoChange)
    else if f.userRequest.None? then Raised(KeyError("user_request"))
    else
      var decisions := StepText(RouterAgent.Decide(llm, f.userRequest.value));
      Done(Planned(decisions, Plan(Elements(decisions)), 0, 0))
  }

  /** The decision is a single name held as a `str`, so the stored plan is
      one batch of its characters, none of which is a known agent. */
  lemma RouterPlansCharacters(f: StateDict, llm: RouterAgent.RouterLlm)
    requires !StepsTruthy(f.nextSteps) && f.userRequest.Some?
    ensures Route(f, llm).Done? && Route(f, llm).value.Planned?
    ensures var u := Route(f, llm).value;
      && |u.parallelBatches| == 1
      && |u.parallelBatches[0]| == |RouterAgent.Decide(llm, f.userRequest.value)|
      && forall t | t in u.parallelBatches[0] :: |t| == 1 && t !in TaskNames
  {
    var d := RouterAgent.Decide(llm, f.userRequest.value);
    var tasks := Elements(StepText(d));
    assert d != "";
    forall j | 0 <= j < |tasks|
      ensures |tasks[j]| == 1 && tasks[j] !in TaskNames && !IsSpecial(tasks[j])
    {
      CharIsNoTask(tasks[j]);
    }
    FreeTasksOneBatch(tasks);
  }

  /** A one-character string names no task. */
  lemma CharIsNoTask(t: string)
    requires |t| == 1
    ensures t !in TaskNames && !IsSpecial(t)
  {
    assert forall name | name in TaskNames :: |name| > 1;
  }

  /** The seven task names the graph has a channel for. */
  const TaskNames: set<string> := {"summarize", "translate", "analyze", "recommend", "ideate", "copywrite", "compliance"}

  const ValidChannels: set<string> :=
    {"to_summarize", "to_translate", "to_analyze", "to_recommend", "to_ideate", "to_copywrite", "to_compliance"}

  lemma ChannelIff(task: string)
    ensures "to_" + task in ValidChannels <==> task in TaskNames
  {
    var c := "to_" + task;
    assert c[3..] == task;
    if c in ValidChannels {
      assert c == "to_summarize" || c == "to_translate" || c == "to_analyze" || c == "to_recommend"
          || c == "to_ideate" || c == "to_copywrite" || c == "to_compliance";
      assert "to_summarize"[3..] == "summarize";
      assert "to_translate"[3..] == "translate";
      assert "to_analyze"[3..] == "analyze";
      assert "to_recommend"[3..] == "recommend";
      assert "to_ideate"[3..] == "ideate";
      assert "to_copywrite"[3..] == "copywrite";
      assert "to_compliance"[3..] == "compliance";
    }
    if task in TaskNames {
      assert task == "summarize" || task == "translate" || task == "analyze" || task == "recommend"
          || task == "ideate" || task == "copywrite" || task == "compliance";
      assert "to_" + "summarize" == "to_summarize";
      assert "to_" + "translate" == "to_translate";
      assert "to_" + "analyze" == "to_analyze";
      assert "to_" + "recommend" == "to_recommend";
      assert "to_" + "ideate" == "to_ideate";
      assert "to_" + "copywrite" == "to_copywrite";
      assert "to_" + "compliance" == "to_compliance";
    }
  }

  /** The `IndexError` that `steps[index]` raises below `-len(steps)`. */
  function IndexError(steps: Steps): Exc {
    if steps.StepText? then Exc("IndexError", "string index out of range")
    else Exc("IndexError", "list index out of range")
  }

  /** `routing_logic(state)`: the channel for the task under the step cursor,
      or `"end"` past the last task or for an unknown task. */
  function RoutingLogic(f: StateDict): (r: Outcome<string>)
    ensures r.Done? ==> r.value == "end" || r.value in ValidChannels
  {
    var steps := if f.nextSteps.Some? then f.nextSteps.value else StepList([]);
    var items := Elements(steps);
    var index := StepIndex(f);
    if index < |items| then
      if index < -|items| then Raised(IndexError(steps))
      else
        var channel := "to_" + PyIndex(items, index);
        if channel in ValidChannels then Done(channel) else Done("end")
    else Done("end")
  }

  /** The cursor at or past the end routes to `"end"`; a cursor on a task
      routes to its channel exactly when the task is one of the seven. */
  lemma RoutingLogicCases(f: StateDict)
    ensures var items := if f.nextSteps.Some? then Elements(f.nextSteps.value) else [];
      && (StepIndex(f) >= |items| ==> RoutingLogic(f) == Done("end"))
      && (0 <= StepIndex(f) < |items| && items[StepIndex(f)] in TaskNames ==>
            RoutingLogic(f) == Done("to_" + items[StepIndex(f)]))
      && (0 <= StepIndex(f) < |items| && items[StepIndex(f)] !in TaskNames ==>
            RoutingLogic(f) == Done("end"))
  {
    var items := if f.nextSteps.Some? then Elements(f.nextSteps.value) else [];
    assert Elements(StepList([])) == [];
    if 0 <= StepIndex(f) < |items| {
      ChannelIff(items[StepIndex(f)]);
    }
  }
}
