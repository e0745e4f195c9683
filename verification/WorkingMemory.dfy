/**
 Working memory: a hash of entries that any number of writers share, with a lock that guards
 the eviction pass but not the writes. Each step below is one command to the store, so any
 interleaving of writers is a sequence of steps. The lock may expire at any time.
 */
module WorkingMemory {
  import opened Basics

  type Id = nat

  /** An entry; a summary lists the entries it stands for, any other entry lists none. */
  datatype Entry = Entry(id: Id, content: string, tokens: nat, timestamp: int, sources: seq<Id>)

  datatype Strategy = SlidingWindow | Summarization

  datatype Config = Config(strategy: Strategy, windowSize: nat, tokenBudget: nat, canSummarise: bool)

  /** How often an attempt to take the lock is repeated. */
  const LOCK_RETRIES: nat := 2

  // ----- what a pass decides ----------------------------------------------------------

  function Ids(order: seq<Entry>): (r: seq<Id>)
    ensures |r| == |order| && forall k | 0 <= k < |r| :: r[k] == order[k].id
  {
    seq(|order|, k requires 0 <= k < |order| => order[k].id)
  }

  function IdSet(entries: seq<Entry>): set<Id> { set e | e in entries :: e.id }

  function TotalTokens(order: seq<Entry>): nat {
    if order == [] then 0 else order[0].tokens + TotalTokens(order[1..])
  }

  /** The entries over the window, oldest first. */
  function Overflow(order: seq<Entry>, window: nat): seq<Entry> {
    if |order| > window then order[..|order| - window] else []
  }

  /** The older half, never the newest entry; nothing while the budget holds or nobody can summarise. */
  function ToCompress(order: seq<Entry>, config: Config): (r: seq<Entry>)
    ensures r <= order && (order != [] ==> |r| < |order|)
    ensures r != [] ==> TotalTokens(order) > config.tokenBudget && config.canSummarise
    ensures r != [] ==> |order| <= 2 * |r| <= |order| + 1
    ensures TotalTokens(order) > config.tokenBudget && config.canSummarise && |order| > 1 ==> r != []
  {
    if TotalTokens(order) > config.tokenBudget && config.canSummarise then
      var keep := if |order| / 2 > 1 then |order| / 2 else 1;
      if |order| > keep then order[..|order| - keep] else []
    else []
  }

  /** The entries of the hash, each once, oldest first. */
  ghost predicate Listing(hash: map<Id, Entry>, order: seq<Entry>) {
    && (forall k | 0 <= k < |order| :: order[k].id in hash && hash[order[k].id] == order[k])
    && (forall j, k | 0 <= j < k < |order| :: order[j].id != order[k].id && order[j].timestamp <= order[k].timestamp)
    && forall id | id in hash :: id in IdSet(order)
  }

  // ----- states and steps ----------------------------------------------------------------

  /** One call that adds an entry; calls of one manager share its lock token. */
  datatype Writer = Writer(token: nat, call: nat)

  /** Where a call is, and what its pass has decided and when it took its snapshot. */
  datatype Phase =
    | Idle
    | Acquiring(attempt: nat)
    | Locked
    | Evicting(queue: seq<Id>, kept: set<Id>, since: nat)
    | Summarising(chosen: seq<Id>, before: nat, since: nat)
    | Compressing(queue: seq<Id>, chosen: seq<Id>, before: nat, since: nat)
    | Releasing
    | Unlocking

  /** The store, the calls, and the history: everything ever stored, and the snapshots of completed passes. */
  datatype State = State(hash: map<Id, Entry>, lock: Option<nat>, calls: map<Writer, Phase>,
                         log: seq<Entry>, completed: seq<nat>)
  {
    function PhaseOf(w: Writer): Phase { if w in calls then calls[w] else Idle }

    function At(w: Writer, p: Phase): State { this.(calls := calls[w := p]) }
  }

  datatype Step =
    | Add(w: Writer, entry: Entry)
    | Acquire(w: Writer)
    | Snapshot(w: Writer, order: seq<Entry>)
    | Drop(w: Writer)
    | Finish(w: Writer)
    | Summarised(w: Writer)
    | Raised(w: Writer)
    | Store(w: Writer, summary: Entry)
    | Release(w: Writer)
    | Unlock(w: Writer)
    | Expire

  function Init(): State { State(map[], None, map[], [], []) }

  ghost predicate Enabled(s: State, config: Config, step: Step) {
    match step
    case Add(w, e) => s.PhaseOf(w).Idle? && e.id !in IdSet(s.log) && e.sources == []
    case Acquire(w) => s.PhaseOf(w).Acquiring?
    case Snapshot(w, order) => s.PhaseOf(w).Locked? && Listing(s.hash, order)
    case Drop(w) => (s.PhaseOf(w).Evicting? || s.PhaseOf(w).Compressing?) && s.PhaseOf(w).queue != []
    case Finish(w) => s.PhaseOf(w).Evicting? && s.PhaseOf(w).queue == []
    case Summarised(w) => s.PhaseOf(w).Summarising?
    case Raised(w) => s.PhaseOf(w).Summarising?
    case Store(w, e) =>
      && s.PhaseOf(w).Compressing? && s.PhaseOf(w).queue == []
      && e.id !in IdSet(s.log) && e.sources == s.PhaseOf(w).chosen
    case Release(w) => s.PhaseOf(w).Releasing?
    case Unlock(w) => s.PhaseOf(w).Unlocking?
    case Expire => true
  }

  function Stored(s: State, e: Entry): State { s.(hash := s.hash[e.id := e], log := s.log + [e]) }

  function Decide(s: State, config: Config, w: Writer, order: seq<Entry>): State {
    match config.strategy
    case SlidingWindow =>
      var over := Overflow(order, config.windowSize);
      s.At(w, Evicting(Ids(over), IdSet(order[|over|..]), |s.log|))
    case Summarization =>
      var chosen := ToCompress(order, config);
      s.At(w, if chosen == [] then Releasing else Summarising(Ids(chosen), |s.hash|, |s.log|))
  }

  ghost function Next(s: State, config: Config, step: Step): State
    requires Enabled(s, config, step)
  {
    match step
    case Add(w, e) => Stored(s, e).At(w, Acquiring(0))
    case Acquire(w) =>
      var attempt := s.PhaseOf(w).attempt;
      if s.lock.None? then s.(lock := Some(w.token)).At(w, Locked)
      else s.At(w, if attempt < LOCK_RETRIES then Acquiring(attempt + 1) else Idle)
    case Snapshot(w, order) => Decide(s, config, w, order)
    case Drop(w) =>
      var p := s.PhaseOf(w);
      s.(hash := s.hash - {p.queue[0]}).At(w, p.(queue := p.queue[1..]))
    case Finish(w) => s.(completed := s.completed + [s.PhaseOf(w).since]).At(w, Releasing)
    case Summarised(w) =>
      var p := s.PhaseOf(w);
      s.At(w, Compressing(p.chosen, p.chosen, p.before, p.since))
    case Raised(w) => s.At(w, Releasing)
    case Store(w, e) => Stored(s, e).At(w, Releasing)
    case Release(w) => s.At(w, if s.lock == Some(w.token) then Unlocking else Idle)
    case Unlock(w) => s.(lock := None).At(w, Idle)
    case Expire => s.(lock := None)
  }

  ghost predicate IsRun(states: seq<State>, steps: seq<Step>, config: Config) {
    && |states| == |steps| + 1 && states[0] == Init()
    && forall i | 0 <= i < |steps| ::
         Enabled(states[i], config, steps[i]) && states[i + 1] == Next(states[i], config, steps[i])
  }

  /** Entries have one identity each, and the hash holds entries that were stored. */
  ghost predicate Consistent(s: State) {
    && (forall i, j | 0 <= i < j < |s.log| :: s.log[i].id != s.log[j].id)
    && forall id | id in s.hash :: s.hash[id].id == id && s.hash[id] in s.log
  }
}
