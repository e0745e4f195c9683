/**
 The context of one run: what phases read and write, what the loop books in it, and what of it
 survives a pause.
 */
module RunSnapshots {
  import opened Basics

  datatype PhaseName = Sense | Reason | Plan | Act

  datatype PlanStep = PlanStep(action: string, toolName: Option<string>, toolArgs: Option<string>)

  /** A phase's output, restored exactly from its class name and its data. */
  datatype Output =
    | PlanOutput(isComplete: bool, completionReason: string, plan: seq<PlanStep>)
    | ActOutput(finalResponse: string, shouldContinue: bool, results: string)
    | OtherOutput(className: string, data: string)

  datatype Skill = Skill(name: string, description: string, body: string)

  datatype HistoryEntry = HistoryEntry(phase: PhaseName, iteration: nat, summary: string)

  /** A value in the free-form metadata: one that JSON can hold, or a live object. */
  datatype Meta = Json(text: string) | Live(handle: nat)

  /** A model configuration; serialising it leaves the API key out. */
  datatype ModelConfig = ModelConfig(facts: string, apiKey: Option<string>)

  /** Settings a run keeps and a pause keeps. */
  datatype Settings = Settings(goal: string, userInput: string, ownerId: Option<nat>, workspaceId: Option<string>,
                               ambientMeta: string, maxIterations: int, maxHistory: int,
                               currentPhase: string, patternConfig: Option<string>)

  /** What belongs to the process rather than to the run's state. */
  datatype Process = Process(agentId: Option<nat>, agentName: Option<string>, runId: Option<nat>,
                             messenger: Option<nat>, memoryConfig: string)

  datatype Usage = Usage(promptTokens: nat, completionTokens: nat, cost: real)

  /** What the first phase found for the later ones. */
  datatype Gathered = Gathered(tools: string, agents: string, memories: string)

  datatype Context = Context(settings: Settings, model: ModelConfig, systemPrompt: string, skills: seq<Skill>,
                             phaseOutputs: map<PhaseName, Output>, history: seq<HistoryEntry>,
                             gathered: Gathered, spent: Usage,
                             iteration: nat, metadata: map<string, Meta>, process: Process)

  const RUNTIME_KEY := "_runtime"

  // ----- booking -------------------------------------------------------------------------

  function AddUsage(c: Context, u: Usage): Context {
    c.(spent := Usage(c.spent.promptTokens + u.promptTokens,
                      c.spent.completionTokens + u.completionTokens,
                      c.spent.cost + u.cost))
  }

  /** The newest entries, as many as the cap allows. */
  function Capped(history: seq<HistoryEntry>, cap: int): (r: seq<HistoryEntry>)
    ensures cap >= 0 ==> |r| <= cap
    ensures |history| <= cap ==> r == history
  {
    if |history| <= cap then history else if cap < 0 then [] else history[|history| - cap..]
  }

  /** Keep the output for later phases, and its summary in the bounded history. */
  function Recorded(c: Context, phase: PhaseName, output: Output, summary: string): Context {
    c.(phaseOutputs := c.phaseOutputs[phase := output],
       history := Capped(c.history + [HistoryEntry(phase, c.iteration, summary)], c.settings.maxHistory))
  }

  /** The last entries of all, as many as there are or the cap allows, in their order. */
  predicate IsNewest(kept: seq<HistoryEntry>, all: seq<HistoryEntry>, cap: int) {
    && |kept| == (if |all| <= cap then |all| else if cap < 0 then 0 else cap)
    && forall i | 0 <= i < |kept| :: kept[i] == all[|all| - |kept| + i]
  }

  lemma NewestOfMore(kept: seq<HistoryEntry>, all: seq<HistoryEntry>, x: HistoryEntry, cap: int)
    requires IsNewest(kept, all, cap)
    ensures IsNewest(Capped(kept + [x], cap), all + [x], cap)
  {
  }

  /** One finished phase of some iteration. */
  datatype Record = Record(iteration: nat, phase: PhaseName, output: Output, summary: string)

  function EntryOf(r: Record): HistoryEntry { HistoryEntry(r.phase, r.iteration, r.summary) }

  function AllEntries(records: seq<Record>): (r: seq<HistoryEntry>)
    ensures |r| == |records| && forall i | 0 <= i < |r| :: r[i] == EntryOf(records[i])
  {
    seq(|records|, i requires 0 <= i < |records| => EntryOf(records[i]))
  }

  /** The bookkeeping of a run: the loop sets the iteration, and each finished phase is recorded in it. */
  function RecordAll(c: Context, records: seq<Record>): Context {
    if records == [] then c
    else
      var last := records[|records| - 1];
      Recorded(RecordAll(c, records[..|records| - 1]).(iteration := last.iteration), last.phase, last.output, last.summary)
  }

  lemma RecordAllUnfolds(c: Context, front: seq<Record>, last: Record)
    ensures RecordAll(c, []) == c
    ensures RecordAll(c, front + [last]) ==
            Recorded(RecordAll(c, front).(iteration := last.iteration), last.phase, last.output, last.summary)
  {
    assert (front + [last])[..|front|] == front;
  }

  /** Every phase keeps its last output. */
  lemma {:induction false} OutputsAreLast(c: Context, records: seq<Record>, i: nat)
    requires i < |records| && forall j | i < j < |records| :: records[j].phase != records[i].phase
    ensures records[i].phase in RecordAll(c, records).phaseOutputs
    ensures RecordAll(c, records).phaseOutputs[records[i].phase] == records[i].output
  {
    hide RecordAll;
    var front, last := records[..|records| - 1], records[|records| - 1];
    assert records == front + [last];
    RecordAllUnfolds(c, front, last);
    if i < |front| {
      OutputsAreLast(c, front, i);
    }
  }

  /**
   Trimming at every record keeps what trimming once at the end would: the newest entries of all
   that were recorded, in whatever iterations, in their order.
   */
  lemma {:induction false} HistoryIsNewest(c: Context, records: seq<Record>)
    requires |c.history| <= c.settings.maxHistory
    ensures RecordAll(c, records).settings == c.settings
    ensures IsNewest(RecordAll(c, records).history, c.history + AllEntries(records), c.settings.maxHistory)
  {
    hide RecordAll, IsNewest, Capped;
    if records == [] {
      RecordAllUnfolds(c, [], Record(0, Sense, OtherOutput("", ""), ""));
      assert c.history + AllEntries([]) == c.history;
      NewestOfFew(c.history, c.settings.maxHistory);
    } else {
      var front, last := records[..|records| - 1], records[|records| - 1];
      assert records == front + [last];
      RecordAllUnfolds(c, front, last);
      HistoryIsNewest(c, front);
      NewestOfMore(RecordAll(c, front).history, c.history + AllEntries(front), EntryOf(last), c.settings.maxHistory);
      assert c.history + AllEntries(records) == c.history + AllEntries(front) + [EntryOf(last)];
    }
  }

  lemma NewestOfFew(history: seq<HistoryEntry>, cap: int)
    requires |history| <= cap
    ensures IsNewest(history, history, cap)
  {
  }

  // ----- pausing -------------------------------------------------------------------------

  /** What a pause writes down. */
  datatype Snapshot = Snapshot(settings: Settings, modelFacts: string, systemPrompt: string, skills: seq<Skill>,
                               phaseOutputs: map<PhaseName, Output>, history: seq<HistoryEntry>,
                               gathered: Gathered, spent: Usage,
                               iteration: nat, metadata: map<string, string>)

  /** The metadata that JSON can hold, without the runtime's own entry. */
  function SafeMetadata(metadata: map<string, Meta>): map<string, string> {
    map k | k in metadata && k != RUNTIME_KEY && metadata[k].Json? :: metadata[k].text
  }

  function ToSnapshot(c: Context): Snapshot {
    Snapshot(c.settings, c.model.facts, c.systemPrompt, c.skills, c.phaseOutputs, c.history,
             c.gathered, c.spent, c.iteration, SafeMetadata(c.metadata))
  }

  function FromSnapshot(s: Snapshot): Context {
    Context(s.settings, ModelConfig(s.modelFacts, None), s.systemPrompt, s.skills, s.phaseOutputs, s.history,
            s.gathered, s.spent, s.iteration, map k | k in s.metadata :: Json(s.metadata[k]), Process(None, None, None, None, ""))
  }

  /** Two contexts that a pause cannot tell apart. */
  predicate Same(a: Context, b: Context) { ToSnapshot(a) == ToSnapshot(b) }

  /** A snapshot written by a pause is read back as what was written, provided it has no entry for the runtime. */
  lemma SnapshotRoundTrip(s: Snapshot)
    ensures ToSnapshot(FromSnapshot(s)) == s <==> RUNTIME_KEY !in s.metadata
  {
    var back := ToSnapshot(FromSnapshot(s));
    if RUNTIME_KEY !in s.metadata {
      assert back.metadata == s.metadata;
    } else {
      assert RUNTIME_KEY !in back.metadata;
    }
  }

  /** Pausing and restoring gives a context that a pause cannot tell from the original. */
  lemma RestoredIsSame(c: Context)
    ensures Same(FromSnapshot(ToSnapshot(c)), c)
  {
    SnapshotRoundTrip(ToSnapshot(c));
  }

  /** It is the original itself exactly when there was nothing to lose. */
  lemma RestoredExactlyIff(c: Context)
    ensures FromSnapshot(ToSnapshot(c)) == c <==>
            && c.model.apiKey.None? && c.process == Process(None, None, None, None, "")
            && RUNTIME_KEY !in c.metadata && forall k | k in c.metadata :: c.metadata[k].Json?
  {
    var back := FromSnapshot(ToSnapshot(c));
    if RUNTIME_KEY !in c.metadata && (forall k | k in c.metadata :: c.metadata[k].Json?) {
      assert back.metadata == c.metadata;
    } else {
      assert exists k :: k in c.metadata && k !in back.metadata;
    }
  }

  // ----- the object --------------------------------------------------------------------------

  class RunContext {
    var settings: Settings
    var model: ModelConfig
    var systemPrompt: string
    var skills: seq<Skill>
    var phaseOutputs: map<PhaseName, Output>
    var history: seq<HistoryEntry>
    var gathered: Gathered
    var spent: Usage
    var iteration: nat
    var metadata: map<string, Meta>
    var process: Process

    function View(): Context
      reads this
    {
      Context(settings, model, systemPrompt, skills, phaseOutputs, history, gathered, spent,
              iteration, metadata, process)
    }

    constructor (c: Context)
      ensures View() == c
    {
      settings, model, systemPrompt, skills := c.settings, c.model, c.systemPrompt, c.skills;
      phaseOutputs, history := c.phaseOutputs, c.history;
      gathered, spent, iteration, metadata, process := c.gathered, c.spent, c.iteration, c.metadata, c.process;
    }

    /** A phase writes to the context it is given. */
    method Become(c: Context)
      modifies this
      ensures View() == c
    {
      settings, model, systemPrompt, skills := c.settings, c.model, c.systemPrompt, c.skills;
      phaseOutputs, history := c.phaseOutputs, c.history;
      gathered, spent, iteration, metadata, process := c.gathered, c.spent, c.iteration, c.metadata, c.process;
    }

    method AddLlmUsage(u: Usage)
      modifies this
      ensures View() == AddUsage(old(View()), u)
      ensures View() == old(View()).(spent := spent) && spent.cost - u.cost == old(spent).cost
      ensures spent.promptTokens == old(spent).promptTokens + u.promptTokens
      ensures spent.completionTokens == old(spent).completionTokens + u.completionTokens
    {
      spent := Usage(spent.promptTokens + u.promptTokens,
                     spent.completionTokens + u.completionTokens,
                     spent.cost + u.cost);
    }

    /** Swap an output without touching the history. */
    method UpdatePhaseOutput(phase: PhaseName, output: Output)
      modifies this
      ensures View() == old(View()).(phaseOutputs := old(phaseOutputs)[phase := output])
    {
      phaseOutputs := phaseOutputs[phase := output];
    }

    method RecordPhaseOutput(phase: PhaseName, output: Output, summary: string)
      modifies this
      ensures View() == Recorded(old(View()), phase, output, summary)
      ensures View() == old(View()).(phaseOutputs := old(phaseOutputs)[phase := output], history := history)
      ensures IsNewest(history, old(history) + [HistoryEntry(phase, iteration, summary)], settings.maxHistory)
    {
      phaseOutputs := phaseOutputs[phase := output];
      history := history + [HistoryEntry(phase, iteration, summary)];
      if |history| > settings.maxHistory {
        var excess := |history| - settings.maxHistory;
        history := if excess > |history| then [] else history[excess..];
      }
    }
  }
}
