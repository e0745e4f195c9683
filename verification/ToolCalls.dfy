/**
 Tool calls through the synchronization guard.

 Any number of processes keep a registry each, beside the table they share. A guarded call
 reads the row, brings the registry entry up to it under the registry lock, and either sends,
 fails, or starts over on the client that the entry holds. Everything between two of these
 steps is interference: table transactions, other calls, reconnects, and registrations from
 rows that were read long ago.
 */
module ToolCalls {
  import opened Basics
  import opened ServerRow
  import opened Registry
  import P = Protocol
  import Safety = ProtocolSafety

  datatype Pc =
    | Entered                                   // at the head of call_tool
    | Read(found: Option<Row>)                   // the row has been read, or found gone
    | Synced(row: Row, entry: ServerEntry)      // the registry returned an entry for it
    | Sent                                      // the request left through the call's client
    | Failed

  datatype Call = Call(process: nat, serverId: nat, client: nat, pc: Pc)

  datatype State = State(
    table: P.State, registries: map<nat, Registry>, clients: map<nat, ServerEntry>,
    calls: map<nat, Call>, usedCalls: set<nat>, loads: map<nat, Row>)

  datatype Step =
    | Table(step: P.Step)
    | StartCall(call: nat, process: nat, client: nat)
    | ReadRow(call: nat)
    | Synchronize(call: nat, client: nat, tools: seq<string>, connects: bool)
    | Dispatch(call: nat)
    | Load(job: nat, id: nat)
    | RegisterLoaded(job: nat, process: nat, client: nat, tools: seq<string>, connects: bool)
    | EnsureLoaded(job: nat, process: nat, client: nat, tools: seq<string>, connects: bool)
    | Unregister(process: nat, id: nat)
    | SetConnected(process: nat, client: nat, up: bool)

  function RegistryOf(s: State, process: nat): Registry {
    if process in s.registries then s.registries[process] else Registry([], {})
  }

  function TableStep(step: Step): P.Step {
    if step.Table? then step.step else P.Idle
  }

  ghost predicate Enabled(s: State, step: Step) {
    match step
    case Table(t) => P.Enabled(s.table, t)
    case StartCall(call, _, client) => call !in s.usedCalls && client in s.clients
    case ReadRow(call) => call in s.calls && s.calls[call].pc.Entered?
    case Synchronize(call, client, _, _) => call in s.calls && s.calls[call].pc.Read? && client !in s.clients
    case Dispatch(call) => call in s.calls && s.calls[call].pc.Synced?
    case RegisterLoaded(job, _, client, _, _) => job in s.loads && client !in s.clients
    case EnsureLoaded(job, _, client, _, _) => job in s.loads && client !in s.clients
    case _ => true
  }

  function Move(s: State, call: nat, pc: Pc): State
    requires call in s.calls
  {
    s.(calls := s.calls[call := s.calls[call].(pc := pc)])
  }

  /** The registry section that follows a read: drop the entry of a row that is gone, else ensure one. */
  function Synchronized(s: State, call: nat, client: nat, tools: seq<string>, connects: bool): State
    requires call in s.calls && s.calls[call].pc.Read?
  {
    var c := s.calls[call];
    var r := RegistryOf(s, c.process);
    if c.pc.found.None? then
      Move(s, call, Failed).(registries := s.registries[c.process := Unregistered(r, c.serverId)])
    else
      var entry := EntryOf(c.pc.found.value, client, tools);
      Move(s, call, Synced(c.pc.found.value, EnsuredEntry(r, entry))).(
        registries := s.registries[c.process := Ensured(r, entry, connects)],
        clients := if Keeps(r, entry.serverId, entry.revision) then s.clients else s.clients[client := entry])
  }

  /** What the guard does with the current client. */
  function Dispatched(s: State, call: nat): State
    requires call in s.calls && s.calls[call].pc.Synced?
  {
    var c := s.calls[call];
    var current := c.pc.entry.client;
    if current !in RegistryOf(s, c.process).connected then Move(s, call, Failed)
    else if current == c.client then Move(s, call, Sent)
    else s.(calls := s.calls[call := c.(client := current, pc := Entered)])
  }

  ghost predicate Sends(s: State, step: Step) {
    && step.Dispatch? && Enabled(s, step)
    && Dispatched(s, step.call).calls[step.call].pc.Sent?
  }

  ghost function Next(s: State, step: Step): State
    requires Enabled(s, step)
  {
    match step
    case Table(t) => s.(table := P.Next(s.table, t))
    case StartCall(call, process, client) =>
      s.(calls := s.calls[call := Call(process, s.clients[client].serverId, client, Entered)],
         usedCalls := s.usedCalls + {call})
    case ReadRow(call) => Move(s, call, Read(P.Find(s.table.db, s.calls[call].serverId)))
    case Synchronize(call, client, tools, connects) => Synchronized(s, call, client, tools, connects)
    case Dispatch(call) => Dispatched(s, call)
    case Load(job, id) => if id in s.table.db then s.(loads := s.loads[job := s.table.db[id]]) else s
    case RegisterLoaded(job, process, client, tools, connects) =>
      var entry := EntryOf(s.loads[job], client, tools);
      s.(registries := s.registries[process := Registered(RegistryOf(s, process), entry, connects)],
         clients := s.clients[client := entry])
    case EnsureLoaded(job, process, client, tools, connects) =>
      var entry := EntryOf(s.loads[job], client, tools);
      var r := RegistryOf(s, process);
      s.(registries := s.registries[process := Ensured(r, entry, connects)],
         clients := if Keeps(r, entry.serverId, entry.revision) then s.clients else s.clients[client := entry])
    case Unregister(process, id) => s.(registries := s.registries[process := Unregistered(RegistryOf(s, process), id)])
    case SetConnected(process, client, up) =>
      var r := RegistryOf(s, process);
      s.(registries := s.registries[process :=
           r.(connected := if up then r.connected + {client} else r.connected - {client})])
  }

  ghost predicate Init(s: State) {
    P.Init(s.table) && s == State(s.table, map[], map[], map[], {}, map[])
  }

  ghost predicate IsTrace(states: seq<State>, steps: seq<Step>) {
    && |states| == |steps| + 1
    && Init(states[0])
    && forall k | 0 <= k < |steps| :: Enabled(states[k], steps[k]) && states[k + 1] == Next(states[k], steps[k])
  }

  // ----- the table's share of a trace ---------------------------------------------

  ghost function Tables(states: seq<State>): seq<P.State> {
    seq(|states|, k requires 0 <= k < |states| => states[k].table)
  }

  ghost function TableSteps(steps: seq<Step>): seq<P.Step> {
    seq(|steps|, k requires 0 <= k < |steps| => TableStep(steps[k]))
  }

  lemma StepMovesTable(s: State, step: Step)
    requires Enabled(s, step)
    ensures P.Enabled(s.table, TableStep(step)) && Next(s, step).table == P.Next(s.table, TableStep(step))
  {
  }

  lemma TablesAreTrace(states: seq<State>, steps: seq<Step>)
    requires IsTrace(states, steps)
    ensures Safety.IsTrace(Tables(states), TableSteps(steps))
  {
    var tables, tableSteps := Tables(states), TableSteps(steps);
    forall k | 0 <= k < |tableSteps|
      ensures P.Enabled(tables[k], tableSteps[k]) && tables[k + 1] == P.Next(tables[k], tableSteps[k])
    {
      assert states[k + 1] == Next(states[k], steps[k]);
      StepMovesTable(states[k], steps[k]);
    }
  }

  // ----- registries, clients and calls agree -----------------------------------------

  ghost predicate EntriesOk(s: State) {
    forall p, e | p in s.registries && e in s.registries[p].servers :: e.client in s.clients && s.clients[e.client] == e
  }

  ghost predicate CallOk(s: State, c: Call) {
    && c.client in s.clients && s.clients[c.client].serverId == c.serverId
    && (c.pc.Read? && c.pc.found.Some? ==> c.pc.found.value.id == c.serverId)
    && (c.pc.Synced? ==>
          && c.pc.row.id == c.serverId && c.pc.entry.serverId == c.serverId
          && c.pc.entry.client in s.clients && s.clients[c.pc.entry.client] == c.pc.entry
          && c.pc.entry.revision >= c.pc.row.revision)
  }

  ghost predicate Agrees(s: State) {
    && EntriesOk(s)
    && (forall call | call in s.calls :: call in s.usedCalls && CallOk(s, s.calls[call]))
  }

  ghost predicate Grows(s: State, s': State) {
    forall c | c in s.clients :: c in s'.clients && s'.clients[c] == s.clients[c]
  }

  /** Replacing one registry by one whose entries are known clients keeps all entries known. */
  lemma ReplacedRegistryOk(s: State, s': State, process: nat, r: Registry)
    requires EntriesOk(s) && Grows(s, s') && s'.registries == s.registries[process := r]
    requires forall e | e in r.servers :: e.client in s'.clients && s'.clients[e.client] == e
    ensures EntriesOk(s')
  {
  }

  lemma EnsuredEntriesOk(s: State, process: nat, entry: ServerEntry, connects: bool)
    requires EntriesOk(s) && entry.client !in s.clients
    ensures var r := RegistryOf(s, process);
      var clients := if Keeps(r, entry.serverId, entry.revision) then s.clients else s.clients[entry.client := entry];
      && (forall e | e in Ensured(r, entry, connects).servers :: e.client in clients && clients[e.client] == e)
      && EnsuredEntry(r, entry).client in clients && clients[EnsuredEntry(r, entry).client] == EnsuredEntry(r, entry)
  {
  }

  /** The registry sections: the steps that replace one process's registry. */
  predicate Replaces(step: Step) {
    || step.Synchronize? || step.RegisterLoaded? || step.EnsureLoaded? || step.Unregister? || step.SetConnected?
  }

  lemma SynchronizeEntriesOk(s: State, step: Step)
    requires EntriesOk(s) && Enabled(s, step) && step.Synchronize?
    ensures EntriesOk(Next(s, step)) && Grows(s, Next(s, step))
  {
    hide Ensured, EnsuredEntry, EntriesOk, Keeps;
    var s', c := Next(s, step), s.calls[step.call];
    if c.pc.found.Some? {
      EnsuredEntriesOk(s, c.process, EntryOf(c.pc.found.value, step.client, step.tools), step.connects);
    } else {
      UnregisteredEntriesOk(s, c.process, c.serverId);
    }
    ReplacedRegistryOk(s, s', c.process, RegistryOf(s', c.process));
  }

  lemma UnregisteredEntriesOk(s: State, process: nat, id: nat)
    requires EntriesOk(s)
    ensures forall e | e in Unregistered(RegistryOf(s, process), id).servers :: e.client in s.clients && s.clients[e.client] == e
  {
  }

  lemma NextEntriesOk(s: State, step: Step)
    requires EntriesOk(s) && Enabled(s, step)
    ensures EntriesOk(Next(s, step)) && Grows(s, Next(s, step))
  {
    if step.Synchronize? {
      hide Next, Enabled, EntriesOk;
      SynchronizeEntriesOk(s, step);
    } else if Replaces(step) {
      hide Ensured, Keeps;
      var s' := Next(s, step);
      if step.EnsureLoaded? {
        EnsuredEntriesOk(s, step.process, EntryOf(s.loads[step.job], step.client, step.tools), step.connects);
      }
      ReplacedRegistryOk(s, s', step.process, RegistryOf(s', step.process));
    }
  }

  lemma MovedCallOk(s: State, step: Step)
    requires Agrees(s) && P.RowsOk(s.table) && Enabled(s, step)
    requires step.StartCall? || step.ReadRow? || step.Synchronize? || step.Dispatch?
    ensures step.call in Next(s, step).calls && CallOk(Next(s, step), Next(s, step).calls[step.call])
  {
    if step.Synchronize? {
      var c := s.calls[step.call];
      if c.pc.found.Some? {
        EnsuredEntriesOk(s, c.process, EntryOf(c.pc.found.value, step.client, step.tools), step.connects);
      }
    }
  }

  /** A step moves at most the call it names. */
  lemma OtherCallsStay(s: State, step: Step, call: nat)
    requires Enabled(s, step) && call in Next(s, step).calls
    requires !((step.StartCall? || step.ReadRow? || step.Synchronize? || step.Dispatch?) && step.call == call)
    ensures call in s.calls && Next(s, step).calls[call] == s.calls[call]
  {
  }

  lemma NextAgrees(s: State, step: Step)
    requires Agrees(s) && P.RowsOk(s.table) && Enabled(s, step)
    ensures Agrees(Next(s, step))
  {
    hide EntriesOk;
    var s' := Next(s, step);
    NextEntriesOk(s, step);
    if step.StartCall? || step.ReadRow? || step.Synchronize? || step.Dispatch? {
      MovedCallOk(s, step);
    }
    forall call | call in s'.calls
      ensures call in s'.usedCalls && CallOk(s', s'.calls[call])
    {
      if !((step.StartCall? || step.ReadRow? || step.Synchronize? || step.Dispatch?) && step.call == call) {
        OtherCallsStay(s, step, call);
        assert CallOk(s, s.calls[call]);
      }
    }
  }

  lemma {:induction false} AgreesAlways(states: seq<State>, steps: seq<Step>, k: nat)
    requires IsTrace(states, steps) && k < |states|
    ensures Agrees(states[k])
  {
    if k > 0 {
      AgreesAlways(states, steps, k - 1);
      TablesAreTrace(states, steps);
      Safety.InvAlways(Tables(states), TableSteps(steps), k - 1);
      assert states[k - 1 + 1] == Next(states[k - 1], steps[k - 1]);
      NextAgrees(states[k - 1], steps[k - 1]);
    }
  }

  // ----- one entry a server ----------------------------------------------------------

  ghost predicate RegistriesOk(s: State) {
    forall p | p in s.registries :: UniqueIds(s.registries[p].servers)
  }

  lemma NextRegistriesOk(s: State, step: Step)
    requires RegistriesOk(s) && Enabled(s, step)
    ensures RegistriesOk(Next(s, step))
  {
    hide Ensured, Registered, Unregistered, UniqueIds;
    if Replaces(step) {
      var process := if step.Synchronize? then s.calls[step.call].process else step.process;
      var r := RegistryOf(s, process);
      NoEntries();
      match step
      case Synchronize(call, client, tools, connects) =>
        var c := s.calls[call];
        if c.pc.found.Some? {
          SectionsKeepIds(r, EntryOf(c.pc.found.value, client, tools), connects);
        } else {
          UnregisteredKeepsIds(r, c.serverId);
        }
      case RegisterLoaded(job, _, client, tools, connects) =>
        SectionsKeepIds(r, EntryOf(s.loads[job], client, tools), connects);
      case EnsureLoaded(job, _, client, tools, connects) =>
        SectionsKeepIds(r, EntryOf(s.loads[job], client, tools), connects);
      case Unregister(_, id) =>
        UnregisteredKeepsIds(r, id);
      case SetConnected(_, _, _) =>
    }
  }

  lemma NoEntries()
    ensures UniqueIds([])
  {
  }

  /** In every reachable state every process's registry has at most one entry a server. */
  lemma {:induction false} RegistriesAlwaysOk(states: seq<State>, steps: seq<Step>, k: nat, process: nat)
    requires IsTrace(states, steps) && k < |states|
    ensures RegistriesOk(states[k]) && UniqueIds(RegistryOf(states[k], process).servers)
  {
    hide Next, Enabled;
    if k > 0 {
      RegistriesAlwaysOk(states, steps, k - 1, process);
      assert states[k - 1 + 1] == Next(states[k - 1], steps[k - 1]);
      NextRegistriesOk(states[k - 1], steps[k - 1]);
    }
  }
}
