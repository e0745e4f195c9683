/**
 The sense, reason, plan, act loop of one run: early exits, interrupts before every phase, and
 continuation from a paused run's snapshot.
 */
module AgentLoop {
  import opened Basics
  import opened RunSnapshots

  /** What one check for interrupts finds. */
  datatype Signal = Clear | PauseRequested | CancelRequested

  datatype Outcome = Raised(error: string, context: Context) | Done(output: Output, usage: Option<Usage>, context: Context)

  /** Everything a run calls on: its phases, the product's limit check, and the skill selector. */
  datatype Env = Env(
    execute: (PhaseName, Context) -> Outcome,
    summarise: Output -> string,
    limit: Context -> Option<string>,
    planNames: (string, string) -> set<string>,
    select: (ModelConfig, string, seq<Skill>) -> (seq<Skill>, Option<Usage>),
    inline: (string, seq<Skill>) -> string,
    process: Process)

  datatype Status = Completed | Failed | Cancelled | Paused

  /** Why a run stopped. */
  datatype Ending = PlanComplete | ActFinished | Exhausted | PhaseFailed | LimitExceeded | Interrupted

  datatype Step = Step(phase: PhaseName, iteration: nat, input: Option<Output>, result: Result<Output, string>)

  datatype Halt = Halt(status: Status, ending: Ending, output: string, error: Option<string>,
                       snapshot: Option<(Snapshot, nat)>)

  /** What one run of the loop produced; the signals it has not looked at are left. */
  datatype RunResult = RunResult(halt: Halt, context: Context, steps: seq<Step>, left: seq<Signal>)

  const SKILLS_INLINED := "skills_inlined"
  const LOOP_ITERATIONS := "loop_iterations"

  function PhaseAt(p: nat): PhaseName {
    if p == 0 then Sense else if p == 1 then Reason else if p == 2 then Plan else Act
  }

  /** The output of the phase before. */
  function PreviousOutput(c: Context, p: nat): Option<Output> {
    if p > 0 && PhaseAt(p - 1) in c.phaseOutputs then Some(c.phaseOutputs[PhaseAt(p - 1)]) else None
  }

  // ----- the start of a run -----------------------------------------------------------------

  predicate Truthy(m: Meta) { m.Live? || m.text !in {"", "false", "null", "0", "0.0", "\"\"", "[]", "{}"} }

  /** The skill bodies are in the prompt already, or there are none. */
  predicate Started(c: Context) {
    c.skills == [] || (SKILLS_INLINED in c.metadata && Truthy(c.metadata[SKILLS_INLINED]))
  }

  /** Give the context this process's live objects, and fold the relevant skills into the prompt, once. */
  function Start(env: Env, c: Context): Context {
    var here := c.(process := c.process.(messenger := env.process.messenger, memoryConfig := env.process.memoryConfig));
    if Started(here) then here
    else
      var (chosen, usage) := env.select(here.model, here.settings.userInput, here.skills);
      var paid := if usage.Some? then AddUsage(here, usage.value) else here;
      paid.(skills := chosen,
            systemPrompt := env.inline(here.systemPrompt, chosen),
            metadata := here.metadata[SKILLS_INLINED := Json("true")])
  }

  lemma StartedAfterStart(env: Env, c: Context)
    ensures Started(Start(env, c))
    ensures Start(env, Start(env, c)) == Start(env, c)
  {
  }

  // ----- one phase ------------------------------------------------------------------------------

  /** A planned tool that the run does not have is cleared. */
  function ValidatedStep(step: PlanStep, names: set<string>): PlanStep {
    if step.toolName.Some? && step.toolName.value != "" && step.toolName.value !in names
    then step.(toolName := None, toolArgs := None)
    else step
  }

  function Validated(plan: Output, names: set<string>): Output
    requires plan.PlanOutput?
  {
    plan.(plan := seq(|plan.plan|, i requires 0 <= i < |plan.plan| => ValidatedStep(plan.plan[i], names)))
  }

  /** What one turn of the inner loop does: stop the run, or go on. */
  datatype Turn = Stop(halt: Halt, context: Context, steps: seq<Step>) | GoOn(output: string, context: Context, step: Step)

  function Stopped(status: Status, ending: Ending, output: string): Halt {
    Halt(status, ending, output, None, None)
  }

  /** Book a finished phase: its usage, then its output and summary. */
  function Booked(env: Env, phase: PhaseName, o: Outcome): Context
    requires o.Done?
  {
    var paid := if o.usage.Some? then AddUsage(o.context, o.usage.value) else o.context;
    Recorded(paid, phase, o.output, env.summarise(o.output))
  }

  /** What the loop makes of a phase's output. */
  function AfterPhase(env: Env, p: nat, output: Output, context: Context, step: Step, final: string): Turn {
    if PhaseAt(p) == Plan && output.PlanOutput? then
      if output.isComplete then
        var reason := if output.completionReason != "" then output.completionReason else "Goal already satisfied.";
        Stop(Stopped(Completed, PlanComplete, reason), context, [step])
      else
        var checked := Validated(output, env.planNames(context.gathered.tools, context.gathered.agents));
        GoOn(final, context.(phaseOutputs := context.phaseOutputs[Plan := checked]), step)
    else if PhaseAt(p) == Act then
      if output.ActOutput? then
        if output.shouldContinue then GoOn(output.finalResponse, context, step)
        else Stop(Stopped(Completed, ActFinished, output.finalResponse), context, [step])
      else Stop(Stopped(Completed, ActFinished, TextOf(output)), context, [step])
    else GoOn(final, context, step)
  }

  function TextOf(output: Output): string {
    match output
    case OtherOutput(_, data) => data
    case PlanOutput(_, reason, _) => reason
    case ActOutput(response, _, _) => response
  }

  function OneTurn(env: Env, c: Context, p: nat, final: string, signal: Signal): Turn {
    if signal == CancelRequested then Stop(Stopped(Cancelled, Interrupted, ""), c, [])
    else if signal == PauseRequested then
      Stop(Halt(Paused, Interrupted, "", None, Some((ToSnapshot(c), p))), c, [])
    else if env.limit(c).Some? then
      Stop(Halt(Failed, LimitExceeded, final, env.limit(c), None), c, [])
    else
      var o := env.execute(PhaseAt(p), c);
      match o
      case Raised(error, after) =>
        Stop(Halt(Failed, PhaseFailed, "", Some(error), None), after,
             [Step(PhaseAt(p), after.iteration, PreviousOutput(after, p), Err(error))])
      case Done(output, _, _) =>
        var booked := Booked(env, PhaseAt(p), o);
        var step := Step(PhaseAt(p), booked.iteration, PreviousOutput(booked, p), Ok(output));
        AfterPhase(env, p, output, booked, step, final)
  }

  // ----- the loop ---------------------------------------------------------------------------------

  function SignalOf(signals: seq<Signal>): Signal { if signals == [] then Clear else signals[0] }

  function Tail(signals: seq<Signal>): seq<Signal> { if signals == [] then [] else signals[1..] }

  function WithSteps(steps: seq<Step>, r: RunResult): RunResult { r.(steps := steps + r.steps) }

  function Exhaust(c: Context, final: string, signals: seq<Signal>): RunResult {
    RunResult(Stopped(Completed, Exhausted, if final != "" then final else "Max iterations reached."), c, [], signals)
  }

  /** From phase p of an iteration on; p beyond the last phase means that the iteration is over. */
  function Loop(env: Env, c: Context, iteration: nat, max: int, p: nat, final: string, signals: seq<Signal>): (r: RunResult)
    ensures r.halt.status == Paused <==> r.halt.snapshot.Some?
    ensures r.halt.snapshot.Some? ==> |r.left| < |signals|
    decreases max - iteration, if p < 4 then 4 - p else 0
  {
    if p < 4 then
      var turn := OneTurn(env, c, p, final, SignalOf(signals));
      match turn
      case Stop(halt, context, steps) => RunResult(halt, context, steps, Tail(signals))
      case GoOn(output, context, step) =>
        WithSteps([step], Loop(env, context, iteration, max, p + 1, output, Tail(signals)))
    else if iteration + 1 < max then
      Loop(env, c.(iteration := iteration + 1), iteration + 1, max, 0, final, signals)
    else Exhaust(c, final, signals)
  }

  function Digits(n: nat): string {
    (if n >= 10 then Digits(n / 10) else "") + [(n % 10 + '0' as int) as char]
  }

  /** A run that went round tells how often. */
  function Concluded(r: RunResult): RunResult {
    if r.context.iteration > 0 then
      r.(context := r.context.(metadata := r.context.metadata[LOOP_ITERATIONS := Json(Digits(r.context.iteration))]))
    else r
  }

  /** One call of run: a fresh start, or a continuation at phase p of the context's iteration. */
  function Segment(env: Env, c: Context, p: nat, signals: seq<Signal>): (r: RunResult)
    ensures r.halt.snapshot.Some? ==> |r.left| < |signals|
  {
    var ready := Start(env, c);
    Concluded(
      if ready.iteration < ready.settings.maxIterations
      then Loop(env, ready, ready.iteration, ready.settings.maxIterations, if p < 4 then p else 0, "", signals)
      else Exhaust(ready, "", signals))
  }

  /** Run, and as long as it pauses, restore the snapshot and run on from the phase it paused at. */
  function Whole(env: Env, c: Context, p: nat, signals: seq<Signal>): RunResult
    decreases |signals|, 1
  {
    Finished(env, Segment(env, c, p, signals), |signals|)
  }

  function Finished(env: Env, r: RunResult, n: nat): RunResult
    requires r.halt.snapshot.Some? ==> |r.left| < n
    decreases n, 0
  {
    if r.halt.snapshot.Some? then
      var (snapshot, p) := r.halt.snapshot.value;
      WithSteps(r.steps, Whole(env, FromSnapshot(snapshot), p, r.left))
    else r
  }

  /** One turn of the loop, with the steps made so far in front. */
  lemma LoopStep(env: Env, c: Context, iteration: nat, max: int, p: nat, final: string, signals: seq<Signal>,
                 steps: seq<Step>)
    requires p < 4
    ensures WithSteps(steps, Loop(env, c, iteration, max, p, final, signals)) ==
            match OneTurn(env, c, p, final, SignalOf(signals))
            case Stop(halt, context, made) => RunResult(halt, context, steps + made, Tail(signals))
            case GoOn(output, context, step) =>
              WithSteps(steps + [step], Loop(env, context, iteration, max, p + 1, output, Tail(signals)))
  {
    match OneTurn(env, c, p, final, SignalOf(signals))
    case Stop(_, _, _) =>
    case GoOn(output, context, step) =>
      var rest := Loop(env, context, iteration, max, p + 1, output, Tail(signals));
      assert steps + ([step] + rest.steps) == (steps + [step]) + rest.steps;
  }

  // ----- the shape of a run --------------------------------------------------------------------------

  /** The phases leave the iteration counter to the loop. */
  ghost predicate KeepsIteration(env: Env) {
    forall ph, c :: env.execute(ph, c).context.iteration == c.iteration
  }

  /** Step k of a run that started at phase p of an iteration, counted from there. */
  predicate InOrder(step: Step, iteration: nat, p: nat, k: nat) {
    step.phase == [Sense, Reason, Plan, Act][(p + k) % 4] && step.iteration == iteration + (p + k) / 4
  }

  lemma TurnMakes(env: Env, c: Context, p: nat, final: string, signal: Signal)
    requires KeepsIteration(env) && p < 4
    ensures match OneTurn(env, c, p, final, signal)
            case Stop(_, _, steps) =>
              |steps| <= 1 && (signal != Clear ==> steps == [])
              && forall k | 0 <= k < |steps| :: steps[k].phase == PhaseAt(p) && steps[k].iteration == c.iteration
            case GoOn(_, context, step) =>
              signal == Clear && step.phase == PhaseAt(p) && step.iteration == context.iteration == c.iteration
  {
    assert env.execute(PhaseAt(p), c).context.iteration == c.iteration;
  }

  /** One more step in front of a rest that is in order. */
  lemma InOrderFrom(step: Step, rest: seq<Step>, iteration: nat, p: nat)
    requires p < 4 && step.phase == PhaseAt(p) && step.iteration == iteration
    requires forall k | 0 <= k < |rest| :: InOrder(rest[k], iteration, p + 1, k)
    ensures forall k | 0 <= k < |[step] + rest| :: InOrder(([step] + rest)[k], iteration, p, k)
  {
    forall k | 0 <= k < |[step] + rest|
      ensures InOrder(([step] + rest)[k], iteration, p, k)
    {
      if k > 0 {
        assert InOrder(rest[k - 1], iteration, p + 1, k - 1);
      }
    }
  }

  lemma InOrderNext(rest: seq<Step>, iteration: nat)
    requires forall k | 0 <= k < |rest| :: InOrder(rest[k], iteration + 1, 0, k)
    ensures forall k | 0 <= k < |rest| :: InOrder(rest[k], iteration, 4, k)
  {
    forall k | 0 <= k < |rest|
      ensures InOrder(rest[k], iteration, 4, k)
    {
      assert InOrder(rest[k], iteration + 1, 0, k);
      assert (4 + k) % 4 == k % 4 && (4 + k) / 4 == 1 + k / 4;
    }
  }

  /**
   The phases run in their order, iteration after iteration; an interrupt stops the run before the
   phase it is found at; and a run that is exhausted has executed every phase of every iteration.
   */
  lemma {:induction false} StepsInOrder(env: Env, c: Context, iteration: nat, max: int, p: nat, final: string,
                                        signals: seq<Signal>)
    requires KeepsIteration(env) && c.iteration == iteration < max && p <= 4
    ensures var r := Loop(env, c, iteration, max, p, final, signals);
            && (forall k | 0 <= k < |r.steps| :: InOrder(r.steps[k], iteration, p, k))
            && |r.steps| <= 4 * (max - iteration) - p
            && (r.halt.ending == Exhausted ==> |r.steps| == 4 * (max - iteration) - p)
            && (forall j | 0 <= j < |signals| && signals[j] != Clear :: |r.steps| <= j)
    decreases max - iteration, 4 - p
  {
    hide OneTurn, Loop, InOrder;
    var r := Loop(env, c, iteration, max, p, final, signals);
    if p == 4 {
      LoopTurns(env, c, iteration, max, final, signals);
      if iteration + 1 < max {
        StepsInOrder(env, c.(iteration := iteration + 1), iteration + 1, max, 0, final, signals);
        InOrderNext(r.steps, iteration);
      }
    } else {
      var turn := OneTurn(env, c, p, final, SignalOf(signals));
      TurnMakes(env, c, p, final, SignalOf(signals));
      LoopUnfolds(env, c, iteration, max, p, final, signals);
      match turn
      case Stop(_, _, steps) =>
        OneInOrder(steps, iteration, p);
      case GoOn(output, context, step) =>
        StepsInOrder(env, context, iteration, max, p + 1, output, Tail(signals));
        var rest := Loop(env, context, iteration, max, p + 1, output, Tail(signals));
        InOrderFrom(step, rest.steps, iteration, p);
        forall j | 0 <= j < |signals| && signals[j] != Clear
          ensures |r.steps| <= j
        {
          assert j > 0 && Tail(signals)[j - 1] == signals[j];
        }
    }
  }

  lemma OneInOrder(steps: seq<Step>, iteration: nat, p: nat)
    requires |steps| <= 1 && p < 4
    requires forall k | 0 <= k < |steps| :: steps[k].phase == PhaseAt(p) && steps[k].iteration == iteration
    ensures forall k | 0 <= k < |steps| :: InOrder(steps[k], iteration, p, k)
  {
  }

  lemma LoopUnfolds(env: Env, c: Context, iteration: nat, max: int, p: nat, final: string, signals: seq<Signal>)
    requires p < 4
    ensures Loop(env, c, iteration, max, p, final, signals) ==
            match OneTurn(env, c, p, final, SignalOf(signals))
            case Stop(halt, context, steps) => RunResult(halt, context, steps, Tail(signals))
            case GoOn(output, context, step) =>
              WithSteps([step], Loop(env, context, iteration, max, p + 1, output, Tail(signals)))
    ensures OneTurn(env, c, p, final, SignalOf(signals)).Stop? ==>
              OneTurn(env, c, p, final, SignalOf(signals)).halt.ending != Exhausted
  {
  }

  // ----- the code -----------------------------------------------------------------------------------

  class AgentRuntime {
    const env: Env
    var steps: seq<Step>

    constructor (env: Env)
      ensures this.env == env && steps == []
    {
      this.env := env;
      steps := [];
    }

    /** Execute a phase, book its usage and output in the context, and record a step either way. */
    method ExecutePhase(p: nat, context: RunContext) returns (o: Result<Output, string>)
      requires p < 4
      modifies this, context
      ensures var done := env.execute(PhaseAt(p), old(context.View()));
              && o == (if done.Raised? then Err(done.error) else Ok(done.output))
              && context.View() == (if done.Raised? then done.context else Booked(env, PhaseAt(p), done))
      ensures steps == old(steps) +
                       [Step(PhaseAt(p), context.View().iteration, PreviousOutput(context.View(), p), o)]
    {
      var done := env.execute(PhaseAt(p), context.View());
      context.Become(done.context);
      match done {
        case Raised(error, _) =>
          o := Err(error);
        case Done(output, usage, _) =>
          if usage.Some? {
            context.AddLlmUsage(usage.value);
          }
          context.RecordPhaseOutput(PhaseAt(p), output, env.summarise(output));
          o := Ok(output);
      }
      steps := steps + [Step(PhaseAt(p), context.iteration, PreviousOutput(context.View(), p), o)];
    }

    /** Inject the live objects and, unless a snapshot brought them, the skill bodies. */
    method BeginRun(context: RunContext)
      modifies context
      ensures context.View() == Start(env, old(context.View()))
    {
      context.process := context.process.(messenger := env.process.messenger, memoryConfig := env.process.memoryConfig);
      var here := context.View();
      if !Started(here) {
        var (chosen, usage) := env.select(here.model, here.settings.userInput, here.skills);
        if usage.Some? {
          context.AddLlmUsage(usage.value);
        }
        context.skills := chosen;
        context.systemPrompt := env.inline(here.systemPrompt, chosen);
        context.metadata := here.metadata[SKILLS_INLINED := Json("true")];
      }
    }

    /** One pass through the body of the inner loop. */
    method TakeTurn(context: RunContext, p: nat, final: string, signal: Signal)
      returns (output: string, halt: Option<Halt>)
      requires p < 4
      modifies this, context
      ensures match OneTurn(env, old(context.View()), p, final, signal)
              case Stop(h, c, made) => halt == Some(h) && context.View() == c && steps == old(steps) + made
              case GoOn(out, c, made) => halt == None && output == out && context.View() == c && steps == old(steps) + [made]
    {
      output, halt := final, None;
      if signal == CancelRequested {
        halt := Some(Stopped(Cancelled, Interrupted, ""));
        return;
      }
      if signal == PauseRequested {
        halt := Some(Halt(Paused, Interrupted, "", None, Some((ToSnapshot(context.View()), p))));
        return;
      }
      var limited := env.limit(context.View());
      if limited.Some? {
        halt := Some(Halt(Failed, LimitExceeded, final, limited, None));
        return;
      }
      var o := ExecutePhase(p, context);
      if o.Err? {
        halt := Some(Halt(Failed, PhaseFailed, "", Some(o.error), None));
      } else if PhaseAt(p) == Plan && o.value.PlanOutput? {
        if o.value.isComplete {
          var reason := if o.value.completionReason != "" then o.value.completionReason else "Goal already satisfied.";
          halt := Some(Stopped(Completed, PlanComplete, reason));
        } else {
          context.UpdatePhaseOutput(Plan, Validated(o.value, env.planNames(context.gathered.tools, context.gathered.agents)));
        }
      } else if PhaseAt(p) == Act {
        if o.value.ActOutput? {
          output := o.value.finalResponse;
          if !o.value.shouldContinue {
            halt := Some(Stopped(Completed, ActFinished, output));
          }
        } else {
          output := TextOf(o.value);
          halt := Some(Stopped(Completed, ActFinished, output));
        }
      }
    }

    /** The inner loop: the phases of one iteration, from phase p on. */
    method RunIteration(context: RunContext, iteration: nat, max: int, p: nat, before: string, signals: seq<Signal>)
      returns (final: string, left: seq<Signal>, halt: Option<Halt>)
      requires p < 4
      modifies this, context
      ensures WithSteps(old(steps), Loop(env, old(context.View()), iteration, max, p, before, signals)) ==
              if halt.Some? then RunResult(halt.value, context.View(), steps, left)
              else WithSteps(steps, Loop(env, context.View(), iteration, max, 4, final, left))
    {
      hide OneTurn, Loop, WithSteps;
      final, left, halt := before, signals, None;
      ghost var goal := WithSteps(steps, Loop(env, context.View(), iteration, max, p, final, left));
      var phase := p;
      while phase < 4 && halt.None?
        invariant phase <= 4
        invariant halt.None? ==>
                    goal == WithSteps(steps, Loop(env, context.View(), iteration, max, phase, final, left))
        invariant halt.Some? ==> goal == RunResult(halt.value, context.View(), steps, left)
        decreases 4 - phase
      {
        LoopStep(env, context.View(), iteration, max, phase, final, left, steps);
        final, halt := TakeTurn(context, phase, final, SignalOf(left));
        left := Tail(left);
        phase := phase + 1;
      }
    }

    /**
     The nested loops with their early exits: from the context's iteration and phase p on, the
     run is the one that Segment describes.
     */
    method Run(context: RunContext, p: nat, signals: seq<Signal>) returns (r: RunResult)
      requires steps == []
      modifies this, context
      ensures r == Segment(env, old(context.View()), p, signals)
      ensures context.View() == r.context && steps == r.steps
    {
      hide Loop, WithSteps, Start;
      BeginRun(context);
      var max, iteration := context.settings.maxIterations, context.iteration;
      var first: nat := if p < 4 then p else 0;
      var final, left, halt: Option<Halt> := "", signals, None;
      ghost var goal := if iteration < max then Loop(env, context.View(), iteration, max, first, "", signals)
                        else Exhaust(context.View(), "", signals);
      NoSteps(goal);
      while iteration < max && halt.None?
        invariant halt.None? && iteration < max ==>
                    goal == WithSteps(steps, Loop(env, context.View().(iteration := iteration), iteration, max,
                                                  first, final, left))
        invariant halt.None? && iteration >= max ==> goal == WithSteps(steps, Exhaust(context.View(), final, left))
        invariant halt.Some? ==> goal == RunResult(halt.value, context.View(), steps, left)
        invariant first < 4
      {
        context.iteration := iteration;
        final, left, halt := RunIteration(context, iteration, max, first, final, left);
        LoopTurns(env, context.View(), iteration, max, final, left);
        iteration, first := iteration + 1, 0;
      }
      if halt.Some? {
        r := RunResult(halt.value, context.View(), steps, left);
      } else {
        r := Exhaust(context.View(), final, left).(steps := steps);
        ExhaustedSteps(context.View(), final, left, steps);
      }
      if context.iteration > 0 {
        context.metadata := context.metadata[LOOP_ITERATIONS := Json(Digits(context.iteration))];
        r := r.(context := context.View());
      }
    }
  }

  lemma NoSteps(r: RunResult)
    ensures WithSteps([], r) == r
  {
  }

  lemma ExhaustedSteps(c: Context, final: string, left: seq<Signal>, steps: seq<Step>)
    ensures WithSteps(steps, Exhaust(c, final, left)) == Exhaust(c, final, left).(steps := steps)
  {
    assert steps + [] == steps;
  }

  /** The end of an iteration. */
  lemma LoopTurns(env: Env, c: Context, iteration: nat, max: int, final: string, signals: seq<Signal>)
    ensures Loop(env, c, iteration, max, 4, final, signals) ==
            if iteration + 1 < max then Loop(env, c.(iteration := iteration + 1), iteration + 1, max, 0, final, signals)
            else Exhaust(c, final, signals)
  {
  }
}
