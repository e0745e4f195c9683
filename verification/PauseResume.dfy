/**
 Pausing is invisible: a run that is paused any number of times, each time restored from its
 snapshot at the phase it paused at, does what the unpaused run does.

 The phases may do anything, as long as it depends only on what a snapshot holds.
 */
module PauseResume {
  import opened Basics
  import opened RunSnapshots
  import opened AgentLoop

  // ----- what is asked of the phases ------------------------------------------------------

  /** The skill flag, if there is one, is one that a snapshot keeps. */
  predicate PlainFlag(c: Context) {
    SKILLS_INLINED in c.metadata ==> c.metadata[SKILLS_INLINED].Json?
  }

  predicate Ready(c: Context) { Started(c) && PlainFlag(c) }

  predicate SameOutcome(a: Outcome, b: Outcome) {
    && Same(a.context, b.context)
    && (a.Raised? <==> b.Raised?)
    && (a.Raised? ==> a.error == b.error)
    && (a.Done? ==> a.output == b.output && a.usage == b.usage)
  }

  /** A phase leaves the loop's own bookkeeping alone. */
  predicate KeepsControl(before: Context, after: Context) {
    && after.iteration == before.iteration && after.settings.maxIterations == before.settings.maxIterations
    && (Ready(before) ==> Ready(after))
  }

  /** Phases and limits see only what a snapshot holds. */
  ghost predicate Faithful(env: Env) {
    && (forall ph, a, b | Same(a, b) :: SameOutcome(env.execute(ph, a), env.execute(ph, b)))
    && (forall ph, c :: KeepsControl(c, env.execute(ph, c).context))
    && (forall a, b | Same(a, b) :: env.limit(a) == env.limit(b))
  }

  // ----- runs that do the same -----------------------------------------------------------------

  /** The same end; a run stopped by a resource limit may have forgotten its last answer (see LastAnswers). */
  predicate SameHalt(a: Halt, b: Halt) {
    && a.status == b.status && a.ending == b.ending && a.error == b.error
    && a.snapshot.None? && b.snapshot.None?
    && (a.output == b.output || (a.ending == LimitExceeded && a.output == ""))
  }

  /** The same steps, the same end, and a final context that a pause cannot tell apart. */
  predicate Agree(a: RunResult, b: RunResult) {
    SameHalt(a.halt, b.halt) && a.steps == b.steps && Same(a.context, b.context)
  }

  function NoPauses(signals: seq<Signal>): seq<Signal> {
    if signals == [] then []
    else if signals[0] == PauseRequested then NoPauses(signals[1..])
    else [signals[0]] + NoPauses(signals[1..])
  }

  // ----- one turn ------------------------------------------------------------------------------

  lemma SameBooked(env: Env, ph: PhaseName, a: Outcome, b: Outcome)
    requires SameOutcome(a, b) && a.Done?
    ensures Same(Booked(env, ph, a), Booked(env, ph, b))
    ensures KeepsControl(a.context, Booked(env, ph, a))
  {
  }

  /** What a turn may differ in: the answer so far, if it has not been replaced. */
  predicate SameTurn(a: Turn, b: Turn, first: string, second: string) {
    match a
    case Stop(halt, context, steps) =>
      b.Stop? && SameHalt(halt, b.halt) && Same(context, b.context) && steps == b.steps
    case GoOn(output, context, step) =>
      && b.GoOn? && Same(context, b.context) && step == b.step
      && (output == b.output || (output == first && b.output == second))
  }

  lemma SameAfterPhase(env: Env, p: nat, output: Output, a: Context, b: Context, step: Step,
                       first: string, second: string)
    requires Same(a, b) && p < 4
    ensures var x, y := AfterPhase(env, p, output, a, step, first), AfterPhase(env, p, output, b, step, second);
            SameTurn(x, y, first, second) && (x.GoOn? ==> KeepsControl(a, x.context))
            && (p == 3 && x.GoOn? ==> x.output == y.output)
  {
  }

  lemma TurnsAgree(env: Env, a: Context, b: Context, p: nat, first: string, second: string, signal: Signal)
    requires Faithful(env) && Same(a, b) && p < 4 && signal != PauseRequested
    requires first == second || first == ""
    ensures var x, y := OneTurn(env, a, p, first, signal), OneTurn(env, b, p, second, signal);
            SameTurn(x, y, first, second) && (x.GoOn? ==> KeepsControl(a, x.context))
            && (p == 3 && x.GoOn? ==> x.output == y.output)
  {
    var ph := PhaseAt(p);
    var o, q := env.execute(ph, a), env.execute(ph, b);
    assert SameOutcome(o, q);
    assert KeepsControl(a, o.context);
    if o.Done? && signal == Clear && env.limit(a).None? {
      SameBooked(env, ph, o, q);
      var x, y := Booked(env, ph, o), Booked(env, ph, q);
      var step := Step(ph, x.iteration, PreviousOutput(x, p), Ok(o.output));
      SameAfterPhase(env, p, o.output, x, y, step, first, second);
    }
  }

  // ----- resuming ------------------------------------------------------------------------------

  /** A restored context starts without folding anything in, at the same place. */
  lemma RestoredIsReady(env: Env, c: Context)
    requires Ready(c)
    ensures var d := Start(env, FromSnapshot(ToSnapshot(c)));
            Same(d, c) && Ready(d) && d.iteration == c.iteration && d.settings == c.settings
  {
    var back := FromSnapshot(ToSnapshot(c));
    RestoredIsSame(c);
    assert SKILLS_INLINED in c.metadata ==> SKILLS_INLINED in SafeMetadata(c.metadata);
    assert Ready(back);
  }

  /** The result after all its pauses have been resumed from. */
  function Resumed(env: Env, r: RunResult): RunResult {
    Finished(env, Concluded(r), |r.left| + 1)
  }

  lemma ResumedWithStep(env: Env, step: Step, r: RunResult)
    ensures Resumed(env, WithSteps([step], r)) == WithSteps([step], Resumed(env, r))
  {
    if r.halt.snapshot.Some? {
      var (snapshot, p) := r.halt.snapshot.value;
      var rest := Whole(env, FromSnapshot(snapshot), p, r.left);
      assert ([step] + r.steps) + rest.steps == [step] + (r.steps + rest.steps);
    }
  }

  lemma AgreeWithStep(step: Step, a: RunResult, b: RunResult)
    requires Agree(a, b)
    ensures Agree(WithSteps([step], a), WithSteps([step], b))
  {
  }

  lemma AgreeConcluded(a: RunResult, b: RunResult)
    requires Agree(a, b)
    ensures Agree(Concluded(a), Concluded(b))
  {
    var x, y := Concluded(a).context, Concluded(b).context;
    assert SafeMetadata(a.context.metadata) == SafeMetadata(b.context.metadata);
    assert LOOP_ITERATIONS != RUNTIME_KEY;
    assert a.context.iteration == b.context.iteration;
    if a.context.iteration > 0 {
      var text := Digits(a.context.iteration);
      assert SafeMetadata(x.metadata) == SafeMetadata(a.context.metadata)[LOOP_ITERATIONS := text];
      assert SafeMetadata(y.metadata) == SafeMetadata(b.context.metadata)[LOOP_ITERATIONS := text];
    }
  }

  /** A pause is resumed from in the same place. */
  lemma PauseStep(env: Env, a: Context, iteration: nat, max: int, p: nat, first: string, signals: seq<Signal>)
    requires Ready(a) && a.iteration == iteration < max == a.settings.maxIterations && p < 4
    requires signals != [] && signals[0] == PauseRequested
    ensures var d := Start(env, FromSnapshot(ToSnapshot(a)));
            Resumed(env, Loop(env, a, iteration, max, p, first, signals)) ==
            Resumed(env, Loop(env, d, iteration, max, p, "", signals[1..]))
  {
    hide Loop, Start, OneTurn, ToSnapshot, FromSnapshot;
    var r := RunResult(Halt(Paused, Interrupted, "", None, Some((ToSnapshot(a), p))), a, [], signals[1..]);
    PausedLoop(env, a, iteration, max, p, first, signals);
    RestoredIsReady(env, a);
    var d := Start(env, FromSnapshot(ToSnapshot(a)));
    var rest := Loop(env, d, iteration, max, p, "", signals[1..]);
    assert Segment(env, FromSnapshot(ToSnapshot(a)), p, signals[1..]) == Concluded(rest);
    var whole := Whole(env, FromSnapshot(ToSnapshot(a)), p, signals[1..]);
    assert whole == Finished(env, Concluded(rest), |signals[1..]|);
    assert whole == Resumed(env, rest);
    assert [] + whole.steps == whole.steps;
  }

  lemma PausedLoop(env: Env, a: Context, iteration: nat, max: int, p: nat, first: string, signals: seq<Signal>)
    requires signals != [] && signals[0] == PauseRequested && p < 4
    ensures Loop(env, a, iteration, max, p, first, signals) ==
            RunResult(Halt(Paused, Interrupted, "", None, Some((ToSnapshot(a), p))), a, [], signals[1..])
  {
  }

  lemma SameChain(a: Context, b: Context, c: Context)
    requires Same(a, b) && Same(b, c)
    ensures Same(a, c)
  {
  }

  lemma ReadyStays(before: Context, after: Context)
    requires KeepsControl(before, after) && Ready(before)
    ensures Ready(after)
    ensures after.iteration == before.iteration && after.settings.maxIterations == before.settings.maxIterations
  {
  }

  lemma AgreeExhausted(env: Env, a: Context, b: Context, final: string, left: seq<Signal>, right: seq<Signal>)
    requires Same(a, b)
    ensures Agree(Resumed(env, Exhaust(a, final, left)), Concluded(Exhaust(b, final, right)))
  {
    AgreeConcluded(Exhaust(a, final, left), Exhaust(b, final, right));
  }

  lemma NextIteration(env: Env, a: Context, b: Context, iteration: nat, max: int, final: string, signals: seq<Signal>)
    requires Same(a, b) && Ready(a)
    ensures var x, y := a.(iteration := iteration + 1), b.(iteration := iteration + 1);
            Same(x, y) && Ready(x)
    ensures iteration + 1 < max ==>
              Loop(env, a, iteration, max, 4, final, signals) ==
              Loop(env, a.(iteration := iteration + 1), iteration + 1, max, 0, final, signals)
    ensures iteration + 1 < max ==>
              Loop(env, b, iteration, max, 4, final, NoPauses(signals)) ==
              Loop(env, b.(iteration := iteration + 1), iteration + 1, max, 0, final, NoPauses(signals))
    ensures iteration + 1 >= max ==>
              Agree(Resumed(env, Loop(env, a, iteration, max, 4, final, signals)),
                    Concluded(Loop(env, b, iteration, max, 4, final, NoPauses(signals))))
  {
    hide NoPauses, Resumed, Agree, Concluded, Exhaust;
    LoopTurns(env, a, iteration, max, final, signals);
    LoopTurns(env, b, iteration, max, final, NoPauses(signals));
    AgreeExhausted(env, a, b, final, signals, NoPauses(signals));
  }

  lemma NoPausesHead(signals: seq<Signal>)
    requires SignalOf(signals) != PauseRequested
    ensures SignalOf(NoPauses(signals)) == SignalOf(signals) && Tail(NoPauses(signals)) == NoPauses(Tail(signals))
  {
  }

  lemma StoppedAgrees(env: Env, a: RunResult, b: RunResult)
    requires Agree(a, b)
    ensures Agree(Resumed(env, a), Concluded(b))
  {
    AgreeConcluded(a, b);
  }

  lemma TurnStep(env: Env, a: Context, b: Context, iteration: nat, max: int, p: nat,
                 first: string, second: string, signals: seq<Signal>)
    requires p < 4 && SignalOf(signals) != PauseRequested
    requires SameTurn(OneTurn(env, a, p, first, SignalOf(signals)), OneTurn(env, b, p, second, SignalOf(signals)),
                      first, second)
    ensures var x, y := OneTurn(env, a, p, first, SignalOf(signals)), OneTurn(env, b, p, second, SignalOf(signals));
            (x.GoOn? ==>
               && y.GoOn?
               && Agree(Resumed(env, Loop(env, x.context, iteration, max, p + 1, x.output, Tail(signals))),
                        Concluded(Loop(env, y.context, iteration, max, p + 1, y.output, NoPauses(Tail(signals))))))
            ==> Agree(Resumed(env, Loop(env, a, iteration, max, p, first, signals)),
                      Concluded(Loop(env, b, iteration, max, p, second, NoPauses(signals))))
  {
    hide OneTurn, Loop, NoPauses, Resumed, Concluded, Same;
    NoPausesHead(signals);
    LoopUnfolds(env, a, iteration, max, p, first, signals);
    LoopUnfolds(env, b, iteration, max, p, second, NoPauses(signals));
    var x, y := OneTurn(env, a, p, first, SignalOf(signals)), OneTurn(env, b, p, second, SignalOf(signals));
    match x
    case Stop(halt, context, steps) =>
      StoppedAgrees(env, RunResult(halt, context, steps, Tail(signals)),
                    RunResult(y.halt, y.context, y.steps, NoPauses(Tail(signals))));
    case GoOn(output, context, step) =>
      var r := Loop(env, context, iteration, max, p + 1, output, Tail(signals));
      var q := Loop(env, y.context, iteration, max, p + 1, y.output, NoPauses(Tail(signals)));
      ResumedWithStep(env, step, r);
      ConcludedWithStep(step, q);
      if Agree(Resumed(env, r), Concluded(q)) {
        AgreeWithStep(step, Resumed(env, r), Concluded(q));
      }
  }

  lemma ConcludedWithStep(step: Step, r: RunResult)
    ensures Concluded(WithSteps([step], r)) == WithSteps([step], Concluded(r))
  {
  }

  /**
   Two runs at the same place, of contexts that a pause cannot tell apart, one of them paused
   where its signals say so: they agree.
   */
  lemma {:induction false} PausedAgrees(env: Env, a: Context, b: Context, iteration: nat, max: int, p: nat,
                                        first: string, second: string, signals: seq<Signal>)
    requires Faithful(env) && Same(a, b) && Ready(a) && p <= 4
    requires a.iteration == iteration < max == a.settings.maxIterations
    requires first == second || (first == "" && p < 4)
    ensures Agree(Resumed(env, Loop(env, a, iteration, max, p, first, signals)),
                  Concluded(Loop(env, b, iteration, max, p, second, NoPauses(signals))))
    decreases |signals|, max - iteration, 4 - p
  {
    hide Faithful, OneTurn, Concluded, Start, Same, Ready;
    if p == 4 {
      NextIteration(env, a, b, iteration, max, first, signals);
      if iteration + 1 < max {
        PausedAgrees(env, a.(iteration := iteration + 1), b.(iteration := iteration + 1),
                     iteration + 1, max, 0, first, second, signals);
      }
    } else if signals != [] && signals[0] == PauseRequested {
      PauseStep(env, a, iteration, max, p, first, signals);
      RestoredIsReady(env, a);
      SameChain(Start(env, FromSnapshot(ToSnapshot(a))), a, b);
      PausedAgrees(env, Start(env, FromSnapshot(ToSnapshot(a))), b, iteration, max, p, "", second, signals[1..]);
    } else {
      var signal := SignalOf(signals);
      TurnsAgree(env, a, b, p, first, second, signal);
      TurnStep(env, a, b, iteration, max, p, first, second, signals);
      var x, y := OneTurn(env, a, p, first, signal), OneTurn(env, b, p, second, signal);
      if x.GoOn? {
        ReadyStays(a, x.context);
        PausedAgrees(env, x.context, y.context, iteration, max, p + 1, x.output, y.output, Tail(signals));
      }
    }
  }

  /**
   Pausing before any phase, any number of times, and resuming each time from the snapshot at that
   phase, gives the same steps, outputs, history, usage, status and prompt as not pausing.
   */
  lemma PausingIsInvisible(env: Env, c: Context, p: nat, signals: seq<Signal>)
    requires Faithful(env) && PlainFlag(c)
    ensures Agree(Whole(env, c, p, signals), Segment(env, c, p, NoPauses(signals)))
  {
    var a := Start(env, c);
    var start := if p < 4 then p else 0;
    assert Ready(a);
    if a.iteration < a.settings.maxIterations {
      PausedAgrees(env, a, a, a.iteration, a.settings.maxIterations, start, "", "", signals);
    } else {
      AgreeExhausted(env, a, a, "", signals, NoPauses(signals));
    }
  }
}
