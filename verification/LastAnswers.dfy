/**
 When a paused run gives the answer that the unpaused run gives.

 Only a run that a resource limit stops can differ: it answers with the last answer of the act
 phase, and a resumed run has forgotten the ones before the pause.
 */
module LastAnswers {
  import opened Basics
  import opened RunSnapshots
  import opened AgentLoop
  import opened PauseResume

  // ----- the last answer ------------------------------------------------------------------------

  /** The act phase answered. */
  predicate Answers(step: Step) {
    step.phase == Act && step.result.Ok? && step.result.value.ActOutput?
  }

  predicate SomeAnswer(steps: seq<Step>) {
    exists k | 0 <= k < |steps| :: Answers(steps[k])
  }

  /** The answer of the last step that answered, or the one given. */
  function LastAnswer(final: string, steps: seq<Step>): string
    decreases |steps|
  {
    if steps == [] then final
    else LastAnswer(if Answers(steps[0]) then steps[0].result.value.finalResponse else final, steps[1..])
  }

  lemma {:induction false} LastAnswerConcat(final: string, a: seq<Step>, b: seq<Step>)
    ensures LastAnswer(final, a + b) == LastAnswer(LastAnswer(final, a), b)
    decreases |a|
  {
    if a == [] {
      assert a + b == b;
    } else {
      assert (a + b)[1..] == a[1..] + b;
      LastAnswerConcat(if Answers(a[0]) then a[0].result.value.finalResponse else final, a[1..], b);
    }
  }

  /** What was answered before matters exactly as long as nothing has been answered since. */
  lemma {:induction false} LastAnswerForgets(x: string, y: string, steps: seq<Step>)
    ensures LastAnswer(x, steps) == LastAnswer(y, steps) <==> SomeAnswer(steps) || x == y
    ensures !SomeAnswer(steps) ==> LastAnswer(x, steps) == x
    decreases |steps|
  {
    if steps != [] {
      var rest := steps[1..];
      assert SomeAnswer(rest) ==> SomeAnswer(steps);
      if Answers(steps[0]) {
        LastAnswerForgets(steps[0].result.value.finalResponse, steps[0].result.value.finalResponse, rest);
      } else {
        assert SomeAnswer(steps) ==> SomeAnswer(rest) by {
          if k :| 0 <= k < |steps| && Answers(steps[k]) {
            assert rest[k - 1] == steps[k];
          }
        }
        LastAnswerForgets(x, y, rest);
      }
    }
  }

  lemma TurnAnswers(env: Env, c: Context, p: nat, final: string, signal: Signal)
    requires p < 4
    ensures var turn := OneTurn(env, c, p, final, signal);
            && (turn.Stop? && turn.halt.ending == LimitExceeded ==> turn.steps == [] && turn.halt.output == final)
            && (turn.GoOn? ==> turn.output == LastAnswer(final, [turn.step]))
  {
  }

  /** A run that a limit stops answers with the last answer of its act phase. */
  lemma {:induction false} LimitAnswersLast(env: Env, c: Context, iteration: nat, max: int, p: nat, final: string,
                                            signals: seq<Signal>)
    requires p <= 4
    ensures var r := Loop(env, c, iteration, max, p, final, signals);
            r.halt.ending == LimitExceeded ==> r.halt.output == LastAnswer(final, r.steps)
    decreases max - iteration, 4 - p
  {
    hide OneTurn, Loop, Answers;
    if p == 4 {
      LoopTurns(env, c, iteration, max, final, signals);
      if iteration + 1 < max {
        LimitAnswersLast(env, c.(iteration := iteration + 1), iteration + 1, max, 0, final, signals);
      }
    } else {
      var turn := OneTurn(env, c, p, final, SignalOf(signals));
      TurnAnswers(env, c, p, final, SignalOf(signals));
      LoopUnfolds(env, c, iteration, max, p, final, signals);
      if turn.GoOn? {
        LimitAnswersLast(env, turn.context, iteration, max, p + 1, turn.output, Tail(signals));
        LastAnswerConcat(final, [turn.step],
                         Loop(env, turn.context, iteration, max, p + 1, turn.output, Tail(signals)).steps);
      }
    }
  }

  lemma SegmentAnswersLast(env: Env, c: Context, p: nat, signals: seq<Signal>)
    ensures var r := Segment(env, c, p, signals);
            r.halt.ending == LimitExceeded ==> r.halt.output == LastAnswer("", r.steps)
  {
    hide Loop, Start, LastAnswer;
    var ready := Start(env, c);
    if ready.iteration < ready.settings.maxIterations {
      LimitAnswersLast(env, ready, ready.iteration, ready.settings.maxIterations, if p < 4 then p else 0, "", signals);
    }
  }

  // ----- before and after the last resume ---------------------------------------------------------

  /** The steps made before the last resume. */
  function StepsBefore(env: Env, c: Context, p: nat, signals: seq<Signal>): seq<Step>
    decreases |signals|
  {
    var r := Segment(env, c, p, signals);
    if r.halt.snapshot.Some? then
      var (snapshot, q) := r.halt.snapshot.value;
      r.steps + StepsBefore(env, FromSnapshot(snapshot), q, r.left)
    else []
  }

  /** The run since the last resume. */
  function LastSegment(env: Env, c: Context, p: nat, signals: seq<Signal>): RunResult
    decreases |signals|
  {
    var r := Segment(env, c, p, signals);
    if r.halt.snapshot.Some? then
      var (snapshot, q) := r.halt.snapshot.value;
      LastSegment(env, FromSnapshot(snapshot), q, r.left)
    else r
  }

  lemma Regroup(a: seq<Step>, b: seq<Step>, c: seq<Step>)
    ensures a + (b + c) == (a + b) + c
  {
  }

  lemma WholeUnfolds(env: Env, c: Context, p: nat, signals: seq<Signal>)
    ensures var r := Segment(env, c, p, signals);
            Whole(env, c, p, signals) ==
            if r.halt.snapshot.Some? then
              WithSteps(r.steps, Whole(env, FromSnapshot(r.halt.snapshot.value.0), r.halt.snapshot.value.1, r.left))
            else r
  {
    hide Segment, FromSnapshot;
  }

  /** A run ends as its last segment ends, and that answers by itself. */
  lemma {:induction false} WholeEndsWithLast(env: Env, c: Context, p: nat, signals: seq<Signal>)
    ensures var w, last := Whole(env, c, p, signals), LastSegment(env, c, p, signals);
            && w.halt == last.halt && w.steps == StepsBefore(env, c, p, signals) + last.steps
            && (w.halt.ending == LimitExceeded ==> w.halt.output == LastAnswer("", last.steps))
    decreases |signals|
  {
    hide Segment, LastAnswer, Whole, FromSnapshot;
    var r := Segment(env, c, p, signals);
    WholeUnfolds(env, c, p, signals);
    if r.halt.snapshot.Some? {
      var (snapshot, q) := r.halt.snapshot.value;
      WholeEndsWithLast(env, FromSnapshot(snapshot), q, r.left);
      var rest := Whole(env, FromSnapshot(snapshot), q, r.left);
      Regroup(r.steps, StepsBefore(env, FromSnapshot(snapshot), q, r.left),
              LastSegment(env, FromSnapshot(snapshot), q, r.left).steps);
    } else {
      SegmentAnswersLast(env, c, p, signals);
    }
  }

  /**
   A paused run gives the answer of the unpaused run exactly if that run is not stopped by a limit,
   or the act phase has answered since the last resume, or nothing had been answered before it.
   */
  lemma AnswerIsKeptIff(env: Env, c: Context, p: nat, signals: seq<Signal>)
    requires Faithful(env) && PlainFlag(c)
    ensures var w, u := Whole(env, c, p, signals), Segment(env, c, p, NoPauses(signals));
            var before, since := StepsBefore(env, c, p, signals), LastSegment(env, c, p, signals).steps;
            && u.steps == w.steps == before + since
            && (w.halt.output == u.halt.output <==>
                u.halt.ending != LimitExceeded || SomeAnswer(since) || LastAnswer("", before) == "")
  {
    hide Faithful, Whole, Segment, StepsBefore, LastSegment, LastAnswer, SomeAnswer, Same, PlainFlag;
    var before, since := StepsBefore(env, c, p, signals), LastSegment(env, c, p, signals).steps;
    PausingIsInvisible(env, c, p, signals);
    WholeEndsWithLast(env, c, p, signals);
    SegmentAnswersLast(env, c, p, NoPauses(signals));
    LastAnswerConcat("", before, since);
    LastAnswerForgets("", LastAnswer("", before), since);
  }

  // ----- a run that forgets ------------------------------------------------------------------------

  /** Phases that say nothing until act answers, once, and spends a token; the product's limit is one token. */
  function ExampleEnv(): Env {
    Env((ph: PhaseName, c: Context) =>
          if ph == Act then Done(ActOutput("done", true, ""), Some(Usage(1, 0, 0.0)), c)
          else Done(OtherOutput("", ""), None, c),
        (o: Output) => "",
        (c: Context) => if c.spent.promptTokens >= 1 then Some("Resource limits exceeded: tokens") else None,
        (tools: string, agents: string) => {}, (model: ModelConfig, input: string, skills: seq<Skill>) => (skills, None),
        (prompt: string, skills: seq<Skill>) => prompt,
        Process(None, None, None, None, ""))
  }

  /** A run that has not started, with two iterations to go. */
  function NewContext(): Context {
    Context(Settings("", "", None, None, "", 2, 50, "", None), ModelConfig("", None), "", [], map[], [],
            Gathered("", "", ""), Usage(0, 0, 0.0), 0, map[], Process(None, None, None, None, ""))
  }

  /** Where the example's runs are: the tokens spent, and nothing that would start them again. */
  predicate Spent(c: Context, iteration: nat, tokens: nat) {
    && c.iteration == iteration && c.settings == NewContext().settings && c.skills == [] && PlainFlag(c)
    && c.spent.promptTokens == tokens
  }

  /** The example's phases see only what a snapshot holds, so there are such phases. */
  lemma ExampleIsFaithful()
    ensures Faithful(ExampleEnv())
  {
    forall ph, a, b | Same(a, b)
      ensures SameOutcome(ExampleEnv().execute(ph, a), ExampleEnv().execute(ph, b))
      ensures ExampleEnv().limit(a) == ExampleEnv().limit(b)
    {
      ExampleSeesSnapshots(ph, a, b);
    }
    forall ph, c
      ensures KeepsControl(c, ExampleEnv().execute(ph, c).context)
    {
    }
  }

  lemma ExampleSeesSnapshots(ph: PhaseName, a: Context, b: Context)
    requires Same(a, b)
    ensures SameOutcome(ExampleEnv().execute(ph, a), ExampleEnv().execute(ph, b))
    ensures ExampleEnv().limit(a) == ExampleEnv().limit(b)
  {
  }

  lemma ExampleTurn(c: Context, p: nat, final: string)
    requires Spent(c, 0, 0) && p < 4
    ensures var turn := OneTurn(ExampleEnv(), c, p, final, Clear);
            && turn.GoOn? && Spent(turn.context, 0, if p == 3 then 1 else 0)
            && turn.output == if p == 3 then "done" else final
  {
  }

  /** The first iteration answers and spends. */
  lemma {:induction false} FirstIteration(c: Context, p: nat, final: string, signals: seq<Signal>)
    returns (d: Context, steps: seq<Step>)
    requires Spent(c, 0, 0) && p < 4 && |signals| >= 4 - p && forall k | 0 <= k < 4 - p :: signals[k] == Clear
    ensures Spent(d, 1, 1)
    ensures Loop(ExampleEnv(), c, 0, 2, p, final, signals) ==
            WithSteps(steps, Loop(ExampleEnv(), d, 1, 2, 0, "done", signals[4 - p..]))
    decreases 4 - p
  {
    hide OneTurn, Loop, ExampleEnv, WithSteps;
    ExampleTurn(c, p, final);
    LoopUnfolds(ExampleEnv(), c, 0, 2, p, final, signals);
    var turn := OneTurn(ExampleEnv(), c, p, final, Clear);
    if p == 3 {
      LoopTurns(ExampleEnv(), turn.context, 0, 2, "done", signals[1..]);
      d, steps := turn.context.(iteration := 1), [turn.step];
    } else {
      var rest;
      d, rest := FirstIteration(turn.context, p + 1, turn.output, signals[1..]);
      assert signals[1..][4 - p - 1..] == signals[4 - p..];
      steps := [turn.step] + rest;
      MoreSteps(turn.step, rest, Loop(ExampleEnv(), d, 1, 2, 0, "done", signals[4 - p..]));
    }
  }

  lemma MoreSteps(step: Step, rest: seq<Step>, r: RunResult)
    ensures WithSteps([step], WithSteps(rest, r)) == WithSteps([step] + rest, r)
  {
    assert [step] + (rest + r.steps) == ([step] + rest) + r.steps;
  }

  /** At the next check the limit stops the run, with the answer it has. */
  lemma ExampleStops(d: Context, final: string)
    requires Spent(d, 1, 1)
    ensures var halt := Loop(ExampleEnv(), d, 1, 2, 0, final, []).halt;
            halt.ending == LimitExceeded && halt.output == final && halt.snapshot.None?
  {
    LoopUnfolds(ExampleEnv(), d, 1, 2, 0, final, []);
  }

  lemma EndsAsItsRest(env: Env, steps: seq<Step>, r: RunResult, n: nat)
    requires r.halt.snapshot.Some? ==> |r.left| < n
    ensures Concluded(WithSteps(steps, r)).halt == r.halt
    ensures Finished(env, Concluded(WithSteps(steps, r)), n).halt == Resumed(env, r).halt
  {
  }

  lemma ExampleStart()
    ensures Start(ExampleEnv(), NewContext()) == NewContext() && Spent(NewContext(), 0, 0) && Ready(NewContext())
  {
  }

  /** Resuming keeps the tokens and not the answer. */
  lemma ExampleResumes(d: Context)
    requires Spent(d, 1, 1)
    ensures var r := Resumed(ExampleEnv(), Loop(ExampleEnv(), d, 1, 2, 0, "done", [PauseRequested]));
            r.halt.ending == LimitExceeded && r.halt.output == ""
  {
    hide Loop, ExampleEnv, Start, Resumed;
    assert [PauseRequested][1..] == [];
    PauseStep(ExampleEnv(), d, 1, 2, 0, "done", [PauseRequested]);
    RestoredIsReady(ExampleEnv(), d);
    var e := Start(ExampleEnv(), FromSnapshot(ToSnapshot(d)));
    ExampleStops(e, "");
    StopsAsItIs(ExampleEnv(), Loop(ExampleEnv(), e, 1, 2, 0, "", []));
  }

  lemma StopsAsItIs(env: Env, r: RunResult)
    requires r.halt.snapshot.None?
    ensures Resumed(env, r).halt == r.halt
  {
  }

  /**
   So a limit right after a pause loses the answer of a run from its very start: unpaused the run
   answers, and paused once, before the check that finds the limit, it does not.
   */
  lemma LimitAfterPauseForgets()
    ensures var signals := [Clear, Clear, Clear, Clear, PauseRequested];
            && Faithful(ExampleEnv()) && PlainFlag(NewContext())
            && Segment(ExampleEnv(), NewContext(), 0, NoPauses(signals)).halt.ending == LimitExceeded
            && Segment(ExampleEnv(), NewContext(), 0, NoPauses(signals)).halt.output == "done"
            && Whole(ExampleEnv(), NewContext(), 0, signals).halt.output == ""
  {
    hide Loop, ExampleEnv, Start, Resumed, Concluded, Finished;
    var signals := [Clear, Clear, Clear, Clear, PauseRequested];
    ExampleIsFaithful();
    ExampleStart();
    ExampleUnpaused();
    ExamplePaused();
    OnlyPauseDropped();
  }

  lemma OnlyPauseDropped()
    ensures NoPauses([Clear, Clear, Clear, Clear, PauseRequested]) == [Clear, Clear, Clear, Clear]
  {
    assert NoPauses([PauseRequested]) == [] && NoPauses([Clear, PauseRequested]) == [Clear];
    assert NoPauses([Clear, Clear, PauseRequested]) == [Clear, Clear];
    assert NoPauses([Clear, Clear, Clear, PauseRequested]) == [Clear, Clear, Clear];
  }

  lemma ExampleUnpaused()
    ensures var r := Segment(ExampleEnv(), NewContext(), 0, [Clear, Clear, Clear, Clear]);
            r.halt.ending == LimitExceeded && r.halt.output == "done"
  {
    hide Loop, ExampleEnv, Start, Concluded, WithSteps;
    var signals := [Clear, Clear, Clear, Clear];
    ExampleStart();
    var d, steps := FirstIteration(NewContext(), 0, "", signals);
    assert signals[4..] == [];
    ExampleStops(d, "done");
    EndsAsItsRest(ExampleEnv(), steps, Loop(ExampleEnv(), d, 1, 2, 0, "done", []), 1);
  }

  lemma ExamplePaused()
    ensures Whole(ExampleEnv(), NewContext(), 0, [Clear, Clear, Clear, Clear, PauseRequested]).halt.output == ""
  {
    hide Loop, ExampleEnv, Start, Concluded, WithSteps, Finished, Resumed;
    var signals := [Clear, Clear, Clear, Clear, PauseRequested];
    ExampleStart();
    var d, steps := FirstIteration(NewContext(), 0, "", signals);
    assert signals[4..] == [PauseRequested];
    ExampleResumes(d);
    EndsAsItsRest(ExampleEnv(), steps, Loop(ExampleEnv(), d, 1, 2, 0, "done", [PauseRequested]), 5);
  }
}
