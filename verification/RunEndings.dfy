/**
 What the steps of a run say about how it ends: why it stopped, with which status, answer and
 error, and what each phase was handed by the one before.
 */
module RunEndings {
  import opened Basics
  import opened RunSnapshots
  import opened AgentLoop
  import opened PauseResume
  import opened LastAnswers

  // ----- endings ----------------------------------------------------------------------------

  /** A step after which the run goes on: no failure, no complete plan, no act that is done. */
  predicate GoesOn(step: Step) {
    && step.result.Ok?
    && (step.phase == Plan && step.result.value.PlanOutput? ==> !step.result.value.isComplete)
    && (step.phase == Act ==> step.result.value.ActOutput? && step.result.value.shouldContinue)
  }

  ghost predicate AllGoOn(steps: seq<Step>) { forall k | 0 <= k < |steps| :: GoesOn(steps[k]) }

  predicate Says(halt: Halt, status: Status, output: string, error: Option<string>) {
    halt.status == status && halt.output == output && halt.error == error
  }

  /** The first text that is not empty. */
  predicate IsOr(text: string, first: string, second: string) {
    if first != "" then text == first else text == second
  }

  /** The last step is the one that stopped the run, and how it did. */
  ghost predicate StoppedBy(halt: Halt, steps: seq<Step>) {
    && steps != [] && AllGoOn(steps[..|steps| - 1]) && halt.snapshot.None?
    && var last := steps[|steps| - 1];
       match halt.ending
       case PhaseFailed => last.result.Err? && Says(halt, Failed, "", Some(last.result.error))
       case PlanComplete =>
         && last.phase == Plan && last.result.Ok? && last.result.value.PlanOutput? && last.result.value.isComplete
         && IsOr(halt.output, last.result.value.completionReason, "Goal already satisfied.")
         && halt.status == Completed && halt.error == None
       case ActFinished =>
         && last.phase == Act && last.result.Ok? && halt.status == Completed && halt.error == None
         && (last.result.value.ActOutput? ==>
               !last.result.value.shouldContinue && halt.output == last.result.value.finalResponse)
         && (last.result.value.OtherOutput? ==> halt.output == last.result.value.data)
         && (last.result.value.PlanOutput? ==> halt.output == last.result.value.completionReason)
       case _ => false
  }

  /** How a run that started at phase p, with an answer so far, must have ended, by its steps and signals. */
  ghost predicate Ends(env: Env, p: nat, final: string, signals: seq<Signal>, r: RunResult) {
    var n := |r.steps|;
    match r.halt.ending
    case Interrupted =>
      && AllGoOn(r.steps) && n < |signals| && signals[n] != Clear
      && (signals[n] == CancelRequested ==> Says(r.halt, Cancelled, "", None) && r.halt.snapshot == None)
      && (signals[n] == PauseRequested ==>
            Says(r.halt, Paused, "", None) && r.halt.snapshot == Some((ToSnapshot(r.context), (p + n) % 4)))
    case LimitExceeded =>
      && AllGoOn(r.steps) && env.limit(r.context).Some?
      && Says(r.halt, Failed, LastAnswer(final, r.steps), env.limit(r.context)) && r.halt.snapshot == None
    case Exhausted =>
      && AllGoOn(r.steps) && r.halt.status == Completed && r.halt.error == None && r.halt.snapshot == None
      && IsOr(r.halt.output, LastAnswer(final, r.steps), "Max iterations reached.")
    case _ => StoppedBy(r.halt, r.steps)
  }

  /** A phase is executed exactly if no interrupt is found and no limit is exceeded; an interrupt comes first. */
  lemma PhaseRunsIff(env: Env, c: Context, p: nat, final: string, signal: Signal)
    requires p < 4
    ensures var turn := OneTurn(env, c, p, final, signal);
            && (turn.GoOn? || turn.steps != [] <==> signal == Clear && env.limit(c).None?)
            && (turn.Stop? && turn.halt.ending == Interrupted <==> signal != Clear)
            && (turn.Stop? && turn.halt.ending == LimitExceeded <==> signal == Clear && env.limit(c).Some?)
            && (turn.Stop? && turn.steps == [] ==> turn.context == c)
  {
  }

  lemma TurnEnds(env: Env, c: Context, p: nat, final: string, signal: Signal, more: seq<Signal>)
    requires p < 4
    ensures var turn := OneTurn(env, c, p, final, signal);
            && (turn.Stop? ==>
                  Ends(env, p, final, [signal] + more, RunResult(turn.halt, turn.context, turn.steps, more)))
            && (turn.GoOn? ==> GoesOn(turn.step) && turn.output == LastAnswer(final, [turn.step]) && signal == Clear)
  {
    if OneTurn(env, c, p, final, signal).Stop? {
      var steps := OneTurn(env, c, p, final, signal).steps;
      assert steps != [] ==> steps[..|steps| - 1] == [];
    }
  }

  lemma AllGoOnCons(step: Step, rest: seq<Step>)
    requires GoesOn(step)
    ensures AllGoOn([step] + rest) <==> AllGoOn(rest)
  {
    if AllGoOn([step] + rest) {
      forall k | 0 <= k < |rest|
        ensures GoesOn(rest[k])
      {
        assert ([step] + rest)[k + 1] == rest[k];
      }
    }
  }

  /** A step that goes on does not change how the rest ends. */
  lemma EndsCons(env: Env, p: nat, final: string, signals: seq<Signal>, step: Step, r: RunResult)
    requires GoesOn(step) && SignalOf(signals) == Clear
    requires Ends(env, p + 1, LastAnswer(final, [step]), Tail(signals), r)
    ensures Ends(env, p, final, signals, WithSteps([step], r))
  {
    hide GoesOn, LastAnswer, Answers;
    AllGoOnCons(step, r.steps);
    LastAnswerConcat(final, [step], r.steps);
    if r.steps != [] {
      AllGoOnCons(step, r.steps[..|r.steps| - 1]);
      var all := [step] + r.steps;
      assert all[..|all| - 1] == [step] + r.steps[..|r.steps| - 1];
    }
  }

  lemma EndsNextIteration(env: Env, final: string, signals: seq<Signal>, r: RunResult)
    requires Ends(env, 0, final, signals, r)
    ensures Ends(env, 4, final, signals, r)
  {
    hide AllGoOn, LastAnswer, StoppedBy;
    assert (4 + |r.steps|) % 4 == |r.steps| % 4;
  }

  lemma ExhaustedEnds(env: Env, p: nat, c: Context, final: string, signals: seq<Signal>)
    ensures Ends(env, p, final, signals, Exhaust(c, final, signals))
  {
  }

  /**
   Every run of the loop ends as its steps and signals say: interrupted at the first check that finds a
   signal, by a limit, by the step that failed, completed the plan or finished, or exhausted; and no
   step before the last is one that stops a run.
   */
  lemma {:induction false} LoopEnds(env: Env, c: Context, iteration: nat, max: int, p: nat, final: string,
                                    signals: seq<Signal>)
    requires p <= 4
    ensures Ends(env, p, final, signals, Loop(env, c, iteration, max, p, final, signals))
    decreases max - iteration, 4 - p
  {
    hide OneTurn, Loop, Ends, GoesOn, Exhaust, LastAnswer;
    if p == 4 {
      LoopTurns(env, c, iteration, max, final, signals);
      if iteration + 1 < max {
        var d := c.(iteration := iteration + 1);
        LoopEnds(env, d, iteration + 1, max, 0, final, signals);
        EndsNextIteration(env, final, signals, Loop(env, d, iteration + 1, max, 0, final, signals));
      } else {
        ExhaustedEnds(env, 4, c, final, signals);
      }
    } else {
      LoopUnfolds(env, c, iteration, max, p, final, signals);
      TurnEnds(env, c, p, final, SignalOf(signals), Tail(signals));
      var turn := OneTurn(env, c, p, final, SignalOf(signals));
      if turn.GoOn? {
        LoopEnds(env, turn.context, iteration, max, p + 1, turn.output, Tail(signals));
        EndsCons(env, p, final, signals, turn.step,
                 Loop(env, turn.context, iteration, max, p + 1, turn.output, Tail(signals)));
      } else if signals == [] {
        assert [SignalOf(signals)] + Tail(signals) == [Clear];
        ClearIsSilent(env, p, final, RunResult(turn.halt, turn.context, turn.steps, []));
      } else {
        assert [SignalOf(signals)] + Tail(signals) == signals;
      }
    }
  }

  lemma ClearIsSilent(env: Env, p: nat, final: string, r: RunResult)
    requires Ends(env, p, final, [Clear], r)
    ensures Ends(env, p, final, [], r)
  {
    hide AllGoOn, LastAnswer, StoppedBy;
  }

  /** One call of run ends so, too, apart from what is booked in the metadata afterwards. */
  lemma SegmentEnds(env: Env, c: Context, p: nat, signals: seq<Signal>) returns (r: RunResult)
    ensures Ends(env, if p < 4 then p else 0, "", signals, r)
    ensures var s := Segment(env, c, p, signals);
            && s.halt == r.halt && s.steps == r.steps && s.left == r.left
            && s.context.(metadata := r.context.metadata) == r.context
            && s.context.metadata == if r.context.iteration == 0 then r.context.metadata
                                     else r.context.metadata[LOOP_ITERATIONS := Json(Digits(r.context.iteration))]
  {
    hide Ends, Start, Loop, Exhaust;
    var ready, first := Start(env, c), if p < 4 then p else 0;
    if ready.iteration < ready.settings.maxIterations {
      r := Loop(env, ready, ready.iteration, ready.settings.maxIterations, first, "", signals);
      LoopEnds(env, ready, ready.iteration, ready.settings.maxIterations, first, "", signals);
    } else {
      r := Exhaust(ready, "", signals);
      ExhaustedEnds(env, first, ready, "", signals);
    }
  }

  // ----- what a phase is handed -----------------------------------------------------------------

  /** Phases leave the outputs of phases to the loop. */
  ghost predicate KeepsOutputs(env: Env) {
    forall ph, c :: env.execute(ph, c).context.phaseOutputs == c.phaseOutputs
  }

  /** The plan as it was made, but for the tools that the run does not have. */
  predicate Checked(made: PlanStep, seen: PlanStep, names: set<string>) {
    if made.toolName.Some? && made.toolName.value != "" && made.toolName.value !in names
    then seen == PlanStep(made.action, None, None)
    else seen == made
  }

  predicate AllChecked(made: seq<PlanStep>, seen: seq<PlanStep>, names: set<string>) {
    |seen| == |made| && forall i | 0 <= i < |made| :: Checked(made[i], seen[i], names)
  }

  /** What a phase leaves for the next one: its output, a plan with its tools checked. */
  ghost predicate Leaves(made: Output, seen: Output, phase: PhaseName) {
    if phase == Plan && made.PlanOutput? then
      && seen.PlanOutput? && seen.isComplete == made.isComplete && seen.completionReason == made.completionReason
      && exists names :: AllChecked(made.plan, seen.plan, names)
    else seen == made
  }

  /** The output of the phase that is at p is in the context, as the next phase will see it. */
  ghost predicate Left(c: Context, p: nat, made: Output) {
    PhaseAt(p) in c.phaseOutputs && Leaves(made, c.phaseOutputs[PhaseAt(p)], PhaseAt(p))
  }

  /** A plan's tools are checked against the ones the run has; no other is left, and none of those is lost. */
  lemma PlansNameKnownTools(env: Env, c: Context, final: string, signal: Signal)
    requires OneTurn(env, c, 2, final, signal).GoOn? && OneTurn(env, c, 2, final, signal).step.result.value.PlanOutput?
    ensures var turn := OneTurn(env, c, 2, final, signal);
            var made, names := turn.step.result.value, env.planNames(turn.context.gathered.tools, turn.context.gathered.agents);
            && Plan in turn.context.phaseOutputs && turn.context.phaseOutputs[Plan].PlanOutput?
            && var seen := turn.context.phaseOutputs[Plan];
               && seen.isComplete == made.isComplete && seen.completionReason == made.completionReason
               && AllChecked(made.plan, seen.plan, names)
  {
  }

  lemma TurnLeaves(env: Env, c: Context, p: nat, final: string, signal: Signal)
    requires p < 4 && KeepsOutputs(env)
    ensures var turn := OneTurn(env, c, p, final, signal);
            && (turn.Stop? ==> forall k | 0 <= k < |turn.steps| :: turn.steps[k].input == PreviousOutput(c, p))
            && (turn.GoOn? ==>
                  && turn.step.phase == PhaseAt(p) && turn.step.result.Ok?
                  && turn.step.input == PreviousOutput(c, p) && Left(turn.context, p, turn.step.result.value))
  {
    assert env.execute(PhaseAt(p), c).context.phaseOutputs == c.phaseOutputs;
    var turn := OneTurn(env, c, p, final, signal);
    if p == 2 && turn.GoOn? && turn.step.result.value.PlanOutput? {
      PlansNameKnownTools(env, c, final, signal);
    }
  }

  /** A step's input is what the step before left, but for the first phase, which has none. */
  ghost predicate Handed(before: Step, after: Step) {
    if after.phase == Sense then after.input == None
    else before.result.Ok? && after.input.Some? && Leaves(before.result.value, after.input.value, before.phase)
  }

  lemma {:induction false} FirstInput(env: Env, c: Context, iteration: nat, max: int, p: nat, final: string,
                                      signals: seq<Signal>)
    requires p <= 4 && KeepsOutputs(env)
    ensures var r := Loop(env, c, iteration, max, p, final, signals);
            r.steps != [] ==>
              && r.steps[0].phase == PhaseAt(p % 4)
              && r.steps[0].input == if p == 4 then None else PreviousOutput(c, p)
    decreases max - iteration, 4 - p
  {
    hide OneTurn, Loop, KeepsOutputs, Left;
    if p == 4 {
      LoopTurns(env, c, iteration, max, final, signals);
      if iteration + 1 < max {
        FirstInput(env, c.(iteration := iteration + 1), iteration + 1, max, 0, final, signals);
      }
    } else {
      LoopUnfolds(env, c, iteration, max, p, final, signals);
      TurnLeaves(env, c, p, final, SignalOf(signals));
      TurnPhase(env, c, p, final, SignalOf(signals));
    }
  }

  lemma TurnPhase(env: Env, c: Context, p: nat, final: string, signal: Signal)
    requires p < 4
    ensures var turn := OneTurn(env, c, p, final, signal);
            turn.Stop? ==> |turn.steps| <= 1 && forall k | 0 <= k < |turn.steps| :: turn.steps[k].phase == PhaseAt(p)
  {
  }

  /**
   Each phase is handed what the phase before it left, across a whole run: its output as it was, and for
   the act phase the plan without the tools that the run does not have.
   */
  lemma {:induction false} InputsAreOutputs(env: Env, c: Context, iteration: nat, max: int, p: nat, final: string,
                                            signals: seq<Signal>, k: nat)
    requires p <= 4 && KeepsOutputs(env)
    requires 0 < k < |Loop(env, c, iteration, max, p, final, signals).steps|
    ensures var steps := Loop(env, c, iteration, max, p, final, signals).steps; Handed(steps[k - 1], steps[k])
    decreases max - iteration, 4 - p
  {
    hide OneTurn, Loop, KeepsOutputs, Leaves;
    if p == 4 {
      LoopTurns(env, c, iteration, max, final, signals);
      InputsAreOutputs(env, c.(iteration := iteration + 1), iteration + 1, max, 0, final, signals, k);
    } else {
      LoopUnfolds(env, c, iteration, max, p, final, signals);
      TurnPhase(env, c, p, final, SignalOf(signals));
      var turn := OneTurn(env, c, p, final, SignalOf(signals));
      var rest := Loop(env, turn.context, iteration, max, p + 1, turn.output, Tail(signals)).steps;
      if k > 1 {
        InputsAreOutputs(env, turn.context, iteration, max, p + 1, turn.output, Tail(signals), k - 1);
      } else {
        TurnLeaves(env, c, p, final, SignalOf(signals));
        FirstInput(env, turn.context, iteration, max, p + 1, turn.output, Tail(signals));
        assert p < 3 ==> PhaseAt((p + 1) % 4) != Sense;
      }
      assert ([turn.step] + rest)[k] == rest[k - 1];
    }
  }

  // ----- the skills --------------------------------------------------------------------------------

  /** Phases leave the prompt alone, and the flag that the skills are in it. */
  ghost predicate KeepsPrompt(env: Env) {
    forall ph, c :: var d := env.execute(ph, c).context; d.systemPrompt == c.systemPrompt && (Ready(c) ==> Ready(d))
  }

  /** The run has this prompt, and so has the snapshot it may have left, ready to go on from. */
  ghost predicate Prompted(r: RunResult, prompt: string) {
    && r.context.systemPrompt == prompt
    && (r.halt.snapshot.Some? ==>
          r.halt.snapshot.value.0.systemPrompt == prompt && Ready(FromSnapshot(r.halt.snapshot.value.0)))
  }

  lemma TurnKeepsPrompt(env: Env, c: Context, p: nat, final: string, signal: Signal)
    requires KeepsPrompt(env) && Ready(c) && p < 4
    ensures var turn := OneTurn(env, c, p, final, signal);
            && turn.context.systemPrompt == c.systemPrompt
            && (turn.GoOn? ==> Ready(turn.context))
            && (turn.Stop? ==> Prompted(RunResult(turn.halt, turn.context, turn.steps, []), c.systemPrompt))
  {
    assert env.execute(PhaseAt(p), c).context.systemPrompt == c.systemPrompt;
    SnapshotIsReady(c);
  }

  lemma SnapshotIsReady(c: Context)
    requires Ready(c)
    ensures Ready(FromSnapshot(ToSnapshot(c))) && ToSnapshot(c).systemPrompt == c.systemPrompt
    ensures FromSnapshot(ToSnapshot(c)).systemPrompt == c.systemPrompt
  {
    assert SKILLS_INLINED in c.metadata ==> SKILLS_INLINED in SafeMetadata(c.metadata);
  }

  lemma {:induction false} LoopKeepsPrompt(env: Env, c: Context, iteration: nat, max: int, p: nat, final: string,
                                           signals: seq<Signal>)
    requires KeepsPrompt(env) && Ready(c) && p <= 4
    ensures Prompted(Loop(env, c, iteration, max, p, final, signals), c.systemPrompt)
    decreases max - iteration, 4 - p
  {
    hide OneTurn, Loop, KeepsPrompt, FromSnapshot;
    if p == 4 {
      LoopTurns(env, c, iteration, max, final, signals);
      if iteration + 1 < max {
        LoopKeepsPrompt(env, c.(iteration := iteration + 1), iteration + 1, max, 0, final, signals);
      }
    } else {
      LoopUnfolds(env, c, iteration, max, p, final, signals);
      TurnKeepsPrompt(env, c, p, final, SignalOf(signals));
      var turn := OneTurn(env, c, p, final, SignalOf(signals));
      if turn.GoOn? {
        LoopKeepsPrompt(env, turn.context, iteration, max, p + 1, turn.output, Tail(signals));
      }
    }
  }

  function Flag(c: Context): Option<Meta> {
    if SKILLS_INLINED in c.metadata then Some(c.metadata[SKILLS_INLINED]) else None
  }

  /** Where the skills of a context go: into its prompt, unless there are none or they are there already. */
  ghost predicate Folds(env: Env, c: Context, prompt: string) {
    if c.skills == [] || Flag(c) == Some(Json("true"))
    then prompt == c.systemPrompt
    else prompt == env.inline(c.systemPrompt, env.select(c.model, c.settings.userInput, c.skills).0)
  }

  lemma StartFolds(env: Env, c: Context)
    requires Flag(c) in {None, Some(Json("true")), Some(Json("false"))}
    ensures Folds(env, c, Start(env, c).systemPrompt) && Ready(Start(env, c))
  {
  }

  lemma ReadyStarts(env: Env, c: Context)
    requires Ready(c)
    ensures Start(env, c).systemPrompt == c.systemPrompt && Ready(Start(env, c))
  {
  }

  lemma SegmentKeepsPrompt(env: Env, c: Context, p: nat, signals: seq<Signal>)
    requires KeepsPrompt(env) && Ready(Start(env, c))
    ensures Prompted(Segment(env, c, p, signals), Start(env, c).systemPrompt)
  {
    hide Loop, Start, KeepsPrompt, FromSnapshot;
    var d := Start(env, c);
    LoopKeepsPrompt(env, d, d.iteration, d.settings.maxIterations, if p < 4 then p else 0, "", signals);
  }

  lemma {:induction false} WholeKeepsPrompt(env: Env, c: Context, p: nat, signals: seq<Signal>)
    requires KeepsPrompt(env) && Ready(Start(env, c))
    ensures Whole(env, c, p, signals).context.systemPrompt == Start(env, c).systemPrompt
    decreases |signals|
  {
    hide Segment, Start, KeepsPrompt, FromSnapshot, Whole;
    SegmentKeepsPrompt(env, c, p, signals);
    WholeUnfolds(env, c, p, signals);
    var r := Segment(env, c, p, signals);
    if r.halt.snapshot.Some? {
      var back := FromSnapshot(r.halt.snapshot.value.0);
      SnapshotPrompt(r.halt.snapshot.value.0);
      ReadyStarts(env, back);
      WholeKeepsPrompt(env, back, r.halt.snapshot.value.1, r.left);
    }
  }

  lemma SnapshotPrompt(s: Snapshot)
    ensures FromSnapshot(s).systemPrompt == s.systemPrompt
  {
  }

  /**
   The bodies of the selected skills are folded into the prompt once in a whole run, however often it is
   paused and resumed, and not at all if they are there already or there are none.
   */
  lemma SkillsAreFoldedOnce(env: Env, c: Context, p: nat, signals: seq<Signal>)
    requires KeepsPrompt(env) && Flag(c) in {None, Some(Json("true")), Some(Json("false"))}
    ensures Folds(env, c, Whole(env, c, p, signals).context.systemPrompt)
  {
    hide Whole, KeepsPrompt, Folds, Start;
    StartFolds(env, c);
    WholeKeepsPrompt(env, c, p, signals);
  }

  // ----- the number of iterations -------------------------------------------------------------------

  /** What a decimal numeral says. */
  function ValueOf(text: string): int {
    if text == "" then 0 else 10 * ValueOf(text[..|text| - 1]) + (text[|text| - 1] as int - '0' as int)
  }

  lemma {:induction false} DigitsSay(n: nat)
    ensures ValueOf(Digits(n)) == n && Digits(n) != "" && (n > 0 ==> Digits(n)[0] != '0')
    ensures forall d | d in Digits(n) :: '0' <= d <= '9'
  {
    if n >= 10 {
      DigitsSay(n / 10);
      assert Digits(n)[..|Digits(n)| - 1] == Digits(n / 10);
    } else {
      assert Digits(n)[..0] == "";
    }
  }

  // ----- what a run spends ----------------------------------------------------------------------------

  function Plus(a: Usage, b: Usage): Usage {
    Usage(a.promptTokens + b.promptTokens, a.completionTokens + b.completionTokens, a.cost + b.cost)
  }

  const NOTHING := Usage(0, 0, 0.0)

  function StepCost(cost: (PhaseName, Output) -> Option<Usage>, step: Step): Usage {
    if step.result.Ok? && cost(step.phase, step.result.value).Some? then cost(step.phase, step.result.value).value
    else NOTHING
  }

  /** The usage of these steps, by what each phase's output cost. */
  function Spending(cost: (PhaseName, Output) -> Option<Usage>, steps: seq<Step>): Usage {
    if steps == [] then NOTHING else Plus(StepCost(cost, steps[0]), Spending(cost, steps[1..]))
  }

  lemma SpendingCons(cost: (PhaseName, Output) -> Option<Usage>, step: Step, rest: seq<Step>)
    ensures Spending(cost, []) == NOTHING
    ensures Spending(cost, [step] + rest) == Plus(StepCost(cost, step), Spending(cost, rest))
  {
    hide Plus, StepCost;
    assert ([step] + rest)[1..] == rest;
  }

  lemma PlusPlus(a: Usage, b: Usage, c: Usage)
    ensures Plus(Plus(a, b), c) == Plus(a, Plus(b, c)) && Plus(a, NOTHING) == a && Plus(NOTHING, b) == b
  {
  }

  /** Phases report what their output cost, and leave the bill to the loop. */
  ghost predicate Metered(env: Env, cost: (PhaseName, Output) -> Option<Usage>) {
    forall ph, c :: var o := env.execute(ph, c);
                    o.context.spent == c.spent && (o.Done? ==> o.usage == cost(ph, o.output))
  }

  lemma TurnSpends(env: Env, c: Context, p: nat, final: string, signal: Signal,
                   cost: (PhaseName, Output) -> Option<Usage>)
    requires Metered(env, cost) && p < 4
    ensures var turn := OneTurn(env, c, p, final, signal);
            && (turn.GoOn? ==> turn.context.spent == Plus(c.spent, StepCost(cost, turn.step)))
            && (turn.Stop? ==>
                  && |turn.steps| <= 1
                  && turn.context.spent == if turn.steps == [] then c.spent else Plus(c.spent, StepCost(cost, turn.steps[0])))
  {
    hide Validated, TextOf;
    assert env.execute(PhaseAt(p), c).context.spent == c.spent;
  }

  /** A run's bill is what it had spent and the usage of each of its steps, once. */
  lemma {:induction false} UsageIsTotalled(env: Env, c: Context, iteration: nat, max: int, p: nat, final: string,
                                           signals: seq<Signal>, cost: (PhaseName, Output) -> Option<Usage>)
    requires Metered(env, cost) && p <= 4
    ensures var r := Loop(env, c, iteration, max, p, final, signals);
            r.context.spent == Plus(c.spent, Spending(cost, r.steps))
    decreases max - iteration, 4 - p
  {
    hide OneTurn, Loop, Metered, Spending, Plus, StepCost;
    if p == 4 {
      LoopTurns(env, c, iteration, max, final, signals);
      if iteration + 1 < max {
        UsageIsTotalled(env, c.(iteration := iteration + 1), iteration + 1, max, 0, final, signals, cost);
      } else {
        NothingSpent(c, cost);
      }
    } else {
      LoopUnfolds(env, c, iteration, max, p, final, signals);
      TurnSpends(env, c, p, final, SignalOf(signals), cost);
      var turn := OneTurn(env, c, p, final, SignalOf(signals));
      if turn.GoOn? {
        var rest := Loop(env, turn.context, iteration, max, p + 1, turn.output, Tail(signals)).steps;
        UsageIsTotalled(env, turn.context, iteration, max, p + 1, turn.output, Tail(signals), cost);
        SpendingCons(cost, turn.step, rest);
        PlusPlus(c.spent, StepCost(cost, turn.step), Spending(cost, rest));
      } else if turn.steps == [] {
        NothingSpent(c, cost);
      } else {
        assert turn.steps == [turn.steps[0]] + [];
        SpendingCons(cost, turn.steps[0], []);
        PlusPlus(c.spent, StepCost(cost, turn.steps[0]), NOTHING);
        PlusPlus(StepCost(cost, turn.steps[0]), NOTHING, NOTHING);
      }
    }
  }

  lemma NothingSpent(c: Context, cost: (PhaseName, Output) -> Option<Usage>)
    ensures c.spent == Plus(c.spent, Spending(cost, []))
  {
  }

  /** Starting a run bills the selection of its skills, if there is one, and gives it the process's live objects. */
  lemma StartOutcome(env: Env, c: Context)
    ensures var d := Start(env, c);
            && d.spent == (if Started(c) then c.spent
                           else Plus(c.spent, SelectionCost(env, c)))
            && d.process == c.process.(messenger := env.process.messenger, memoryConfig := env.process.memoryConfig)
            && d.phaseOutputs == c.phaseOutputs && d.history == c.history && d.iteration == c.iteration
            && d.settings == c.settings && d.model == c.model && d.gathered == c.gathered
            && d.skills == (if Started(c) then c.skills else env.select(c.model, c.settings.userInput, c.skills).0)
            && d.metadata == (if Started(c) then c.metadata else c.metadata[SKILLS_INLINED := Json("true")])
  {
  }

  function SelectionCost(env: Env, c: Context): Usage {
    var usage := env.select(c.model, c.settings.userInput, c.skills).1;
    if usage.Some? then usage.value else NOTHING
  }

  /** The bill so far, and that of the snapshot that a pause leaves. */
  ghost predicate Billed(r: RunResult, total: Usage) {
    && r.context.spent == total
    && (r.halt.snapshot.Some? ==>
          FromSnapshot(r.halt.snapshot.value.0).spent == total && Started(FromSnapshot(r.halt.snapshot.value.0)))
  }

  lemma SegmentIsTotalled(env: Env, c: Context, p: nat, signals: seq<Signal>,
                          cost: (PhaseName, Output) -> Option<Usage>)
    requires Metered(env, cost) && KeepsPrompt(env) && Ready(Start(env, c))
    ensures var r := Segment(env, c, p, signals); Billed(r, Plus(Start(env, c).spent, Spending(cost, r.steps)))
  {
    hide Metered, KeepsPrompt, Start, Loop, Ends, Spending, Ready, ToSnapshot, FromSnapshot, Prompted;
    var d, first := Start(env, c), if p < 4 then p else 0;
    SegmentKeepsPrompt(env, c, p, signals);
    PromptedIsStarted(Segment(env, c, p, signals), d.systemPrompt);
    if d.iteration < d.settings.maxIterations {
      var r := Loop(env, d, d.iteration, d.settings.maxIterations, first, "", signals);
      UsageIsTotalled(env, d, d.iteration, d.settings.maxIterations, first, "", signals, cost);
      LoopEnds(env, d, d.iteration, d.settings.maxIterations, first, "", signals);
      PausesWithContext(env, first, signals, r);
    } else {
      NothingSpent(d, cost);
    }
  }

  lemma PromptedIsStarted(r: RunResult, prompt: string)
    requires Prompted(r, prompt)
    ensures r.halt.snapshot.Some? ==> Started(FromSnapshot(r.halt.snapshot.value.0))
  {
  }

  lemma PausesWithContext(env: Env, p: nat, signals: seq<Signal>, r: RunResult)
    requires Ends(env, p, "", signals, r)
    ensures r.halt.snapshot.Some? ==> FromSnapshot(r.halt.snapshot.value.0).spent == r.context.spent
  {
    hide AllGoOn, LastAnswer, IsOr;
  }

  /**
   However often a run is paused and resumed, its bill is what it had spent, the selection of its skills
   once, and the usage of each of its steps once.
   */
  lemma {:induction false} WholeIsTotalled(env: Env, c: Context, p: nat, signals: seq<Signal>,
                                           cost: (PhaseName, Output) -> Option<Usage>)
    requires Metered(env, cost) && KeepsPrompt(env) && Ready(Start(env, c))
    ensures var w := Whole(env, c, p, signals);
            w.context.spent == Plus(if Started(c) then c.spent else Plus(c.spent, SelectionCost(env, c)),
                                    Spending(cost, w.steps))
    decreases |signals|
  {
    hide Segment, Start, KeepsPrompt, Metered, FromSnapshot, Whole, Spending, Plus, Ready, Started, Prompted;
    var r := Segment(env, c, p, signals);
    StartOutcome(env, c);
    SegmentIsTotalled(env, c, p, signals, cost);
    SegmentKeepsPrompt(env, c, p, signals);
    WholeUnfolds(env, c, p, signals);
    if r.halt.snapshot.Some? {
      var back, q := FromSnapshot(r.halt.snapshot.value.0), r.halt.snapshot.value.1;
      PromptedIsReady(env, r, Start(env, c).systemPrompt);
      WholeIsTotalled(env, back, q, r.left, cost);
      var rest := Whole(env, back, q, r.left);
      SpendingConcat(cost, r.steps, rest.steps);
      PlusPlus(Start(env, c).spent, Spending(cost, r.steps), Spending(cost, rest.steps));
    }
  }

  lemma PromptedIsReady(env: Env, r: RunResult, prompt: string)
    requires Prompted(r, prompt) && r.halt.snapshot.Some?
    ensures Ready(Start(env, FromSnapshot(r.halt.snapshot.value.0)))
  {
    ReadyStarts(env, FromSnapshot(r.halt.snapshot.value.0));
  }

  lemma {:induction false} SpendingConcat(cost: (PhaseName, Output) -> Option<Usage>, a: seq<Step>, b: seq<Step>)
    ensures Spending(cost, a + b) == Plus(Spending(cost, a), Spending(cost, b))
    decreases |a|
  {
    hide Plus, StepCost, Spending;
    if a == [] {
      assert a + b == b;
      EmptyBill(cost);
      PlusPlus(NOTHING, Spending(cost, b), NOTHING);
    } else {
      assert a == [a[0]] + a[1..] && a + b == [a[0]] + (a[1..] + b);
      SpendingCons(cost, a[0], a[1..]);
      SpendingCons(cost, a[0], a[1..] + b);
      SpendingConcat(cost, a[1..], b);
      PlusPlus(StepCost(cost, a[0]), Spending(cost, a[1..]), Spending(cost, b));
    }
  }

  lemma EmptyBill(cost: (PhaseName, Output) -> Option<Usage>)
    ensures Spending(cost, []) == NOTHING
  {
  }

  // ----- the history of a run --------------------------------------------------------------------------

  /** Phases leave the history, and how much of it is kept, to the loop. */
  ghost predicate KeepsHistory(env: Env) {
    forall ph, c :: var d := env.execute(ph, c).context;
                    d.history == c.history && d.settings.maxHistory == c.settings.maxHistory
  }

  /** The summaries of the steps that produced an output. */
  function Summaries(env: Env, steps: seq<Step>): seq<HistoryEntry> {
    if steps == [] then [] else Summary(env, steps[0]) + Summaries(env, steps[1..])
  }

  function Summary(env: Env, step: Step): seq<HistoryEntry> {
    if step.result.Ok? then [HistoryEntry(step.phase, step.iteration, env.summarise(step.result.value))] else []
  }

  lemma TurnBooks(env: Env, c: Context, p: nat, final: string, signal: Signal)
    requires p < 4 && KeepsHistory(env)
    ensures var turn := OneTurn(env, c, p, final, signal);
            && turn.context.settings.maxHistory == c.settings.maxHistory && (turn.Stop? ==> |turn.steps| <= 1)
            && var steps := if turn.GoOn? then [turn.step] else turn.steps;
               turn.context.history == if steps == [] || steps[0].result.Err? then c.history
                                       else Capped(c.history + Summary(env, steps[0]), c.settings.maxHistory)
  {
    hide Capped, Validated, TextOf, ToSnapshot;
    assert env.execute(PhaseAt(p), c).context.history == c.history;
  }

  lemma TurnIsRecorded(env: Env, c: Context, p: nat, final: string, signal: Signal)
    requires p < 4 && KeepsHistory(env) && |c.history| <= c.settings.maxHistory
    ensures var turn := OneTurn(env, c, p, final, signal);
            && |turn.context.history| <= turn.context.settings.maxHistory == c.settings.maxHistory
            && IsNewest(turn.context.history,
                        c.history + Summaries(env, if turn.GoOn? then [turn.step] else turn.steps), c.settings.maxHistory)
  {
    hide OneTurn, KeepsHistory, Summaries, Summary, IsNewest;
    TurnBooks(env, c, p, final, signal);
    NothingRecorded(env, c);
    NewestOfFew(c.history, c.settings.maxHistory);
    var turn := OneTurn(env, c, p, final, signal);
    var steps := if turn.GoOn? then [turn.step] else turn.steps;
    if steps != [] {
      assert steps == [steps[0]];
      OneSummary(env, steps[0]);
      if steps[0].result.Ok? {
        NewestOfMore(c.history, c.history, Summary(env, steps[0])[0], c.settings.maxHistory);
      } else {
        assert c.history + Summaries(env, steps) == c.history;
      }
    }
  }

  lemma OneSummary(env: Env, step: Step)
    ensures Summaries(env, [step]) == Summary(env, step)
    ensures if step.result.Ok? then |Summary(env, step)| == 1 && Summary(env, step) == [Summary(env, step)[0]]
            else Summary(env, step) == []
  {
    assert [step][1..] == [];
    assert Summaries(env, [step]) == Summary(env, step) + Summaries(env, []);
  }

  /** The newest of what is kept and some more are the newest of all. */
  lemma NewestOfNewest(last: seq<HistoryEntry>, kept: seq<HistoryEntry>, all: seq<HistoryEntry>, more: seq<HistoryEntry>,
                       cap: int)
    requires IsNewest(kept, all, cap) && IsNewest(last, kept + more, cap)
    ensures IsNewest(last, all + more, cap)
  {
    forall i | 0 <= i < |last|
      ensures last[i] == (all + more)[|all + more| - |last| + i]
    {
      var at := |kept + more| - |last| + i;
      assert last[i] == (kept + more)[at];
      if at < |kept| {
        assert (kept + more)[at] == kept[at] == all[|all| - |kept| + at];
      }
    }
  }

  /**
   The history of a run is the newest of what there was and the summaries of its steps, in their order
   and each with its phase and iteration, as many as the context keeps.
   */
  lemma {:induction false} HistoryIsOfTheSteps(env: Env, c: Context, iteration: nat, max: int, p: nat, final: string,
                                               signals: seq<Signal>)
    requires p <= 4 && KeepsHistory(env) && |c.history| <= c.settings.maxHistory
    ensures var r := Loop(env, c, iteration, max, p, final, signals);
            IsNewest(r.context.history, c.history + Summaries(env, r.steps), c.settings.maxHistory)
    decreases max - iteration, 4 - p
  {
    hide OneTurn, Loop, KeepsHistory, Summaries, IsNewest;
    if p == 4 {
      LoopTurns(env, c, iteration, max, final, signals);
      if iteration + 1 < max {
        HistoryIsOfTheSteps(env, c.(iteration := iteration + 1), iteration + 1, max, 0, final, signals);
      } else {
        NothingRecorded(env, c);
      }
    } else {
      LoopUnfolds(env, c, iteration, max, p, final, signals);
      TurnIsRecorded(env, c, p, final, SignalOf(signals));
      var turn := OneTurn(env, c, p, final, SignalOf(signals));
      if turn.GoOn? {
        var rest := Loop(env, turn.context, iteration, max, p + 1, turn.output, Tail(signals));
        HistoryIsOfTheSteps(env, turn.context, iteration, max, p + 1, turn.output, Tail(signals));
        SummariesCons(env, turn.step, rest.steps);
        NewestOfNewest(rest.context.history, turn.context.history, c.history + Summaries(env, [turn.step]),
                       Summaries(env, rest.steps), c.settings.maxHistory);
        assert c.history + Summaries(env, [turn.step]) + Summaries(env, rest.steps) ==
               c.history + (Summaries(env, [turn.step]) + Summaries(env, rest.steps));
      }
    }
  }

  lemma NothingRecorded(env: Env, c: Context)
    requires |c.history| <= c.settings.maxHistory
    ensures IsNewest(c.history, c.history + Summaries(env, []), c.settings.maxHistory)
  {
  }

  lemma SummariesCons(env: Env, step: Step, rest: seq<Step>)
    ensures Summaries(env, [step] + rest) == Summaries(env, [step]) + Summaries(env, rest)
  {
    assert ([step] + rest)[1..] == rest && [step][1..] == [];
    assert Summaries(env, [step][1..]) == [];
  }
}
