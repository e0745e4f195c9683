/** What a guarded tool call guarantees about the connection its request leaves through. */
module CallFreshness {
  import opened Basics
  import opened ServerRow
  import opened Registry
  import opened ToolCalls
  import P = Protocol
  import Safety = ProtocolSafety

  ghost predicate RowAt(states: seq<State>, m: nat, row: Row)
    requires m < |states|
  {
    row.id in states[m].table.db && states[m].table.db[row.id] == row
  }

  ghost predicate Named(row: Row, entry: ServerEntry) {
    && entry.serverId == row.id && entry.revision == row.revision && entry.material == MaterialOf(row)
    && entry.name == row.name && entry.owner == row.owner && entry.isSystem == row.isSystem
  }

  /** Every client was built from the row as it stood at some earlier instant. */
  ghost predicate BuiltAt(states: seq<State>, m: nat, entry: ServerEntry)
    requires m < |states|
  {
    entry.serverId in states[m].table.db && Named(states[m].table.db[entry.serverId], entry)
  }

  /** The row a call carries between its read and its send. */
  function Held(pc: Pc): Option<Row> {
    if pc.Read? then pc.found else if pc.Synced? then Some(pc.row) else None
  }

  predicate Starts(step: Step, call: nat) {
    step.StartCall? && step.call == call
  }

  /** A call begins without a row; what it carries later it carried before or has just read. */
  lemma NewHolder(s: State, step: Step, call: nat)
    requires Enabled(s, step) && P.RowsOk(s.table) && call in Next(s, step).calls
    ensures call !in s.calls ==> Starts(step, call)
    ensures var held := Held(Next(s, step).calls[call].pc);
      if Starts(step, call) then held == None
      else held.Some? ==> held == Held(s.calls[call].pc) || held == P.Find(s.table.db, held.value.id)
  {
    if !((step.StartCall? || step.ReadRow? || step.Synchronize? || step.Dispatch?) && step.call == call) {
      hide Next, Enabled, P.RowsOk;
      OtherCallsStay(s, step, call);
    } else {
      hide Ensured, EnsuredEntry, Unregistered, Keeps;
    }
  }

  lemma NewLoad(s: State, step: Step, job: nat)
    requires Enabled(s, step) && P.RowsOk(s.table) && job in Next(s, step).loads
    ensures var row := Next(s, step).loads[job];
      (job in s.loads && s.loads[job] == row) || (row.id in s.table.db && s.table.db[row.id] == row)
  {
    hide Registered, Ensured;
  }

  lemma NewClient(s: State, step: Step, client: nat)
    requires Enabled(s, step) && client in Next(s, step).clients && client !in s.clients
    ensures var entry := Next(s, step).clients[client];
      || (exists call :: call in s.calls && s.calls[call].pc.Read? && s.calls[call].pc.found.Some?
                         && Named(s.calls[call].pc.found.value, entry))
      || (exists job :: job in s.loads && Named(s.loads[job], entry))
  {
    match step
    case Synchronize(call, _, tools, _) => assert Named(s.calls[call].pc.found.value, EntryOf(s.calls[call].pc.found.value, client, tools));
    case RegisterLoaded(job, _, _, tools, _) => assert Named(s.loads[job], EntryOf(s.loads[job], client, tools));
    case EnsureLoaded(job, _, _, tools, _) => assert Named(s.loads[job], EntryOf(s.loads[job], client, tools));
    case _ =>
  }

  lemma TableOk(states: seq<State>, steps: seq<Step>, k: nat)
    requires IsTrace(states, steps) && k < |states|
    ensures P.RowsOk(states[k].table)
  {
    hide Next, Enabled;
    TablesAreTrace(states, steps);
    Safety.InvAlways(Tables(states), TableSteps(steps), k);
    assert Tables(states)[k] == states[k].table;
  }

  lemma CallStep(states: seq<State>, steps: seq<Step>, k: nat, call: nat)
    requires IsTrace(states, steps) && k < |steps| && call in states[k + 1].calls
    ensures call !in states[k].calls ==> Starts(steps[k], call)
    ensures var held := Held(states[k + 1].calls[call].pc);
      if Starts(steps[k], call) then held == None
      else held.Some? ==> held == Held(states[k].calls[call].pc) || RowAt(states, k, held.value)
  {
    hide Next, Enabled, P.RowsOk;
    assert states[k + 1] == Next(states[k], steps[k]);
    TableOk(states, steps, k);
    NewHolder(states[k], steps[k], call);
  }

  /** A call starts once; a row it holds was read after that. */
  lemma {:induction false} CallOrigin(states: seq<State>, steps: seq<Step>, k: nat, call: nat) returns (start: nat, m: nat)
    requires IsTrace(states, steps) && k < |states| && call in states[k].calls
    ensures start < m <= k && Starts(steps[start], call)
    ensures var held := Held(states[k].calls[call].pc); held.Some? ==> RowAt(states, m, held.value)
  {
    hide Next, Enabled, Held, RowAt;
    CallStep(states, steps, k - 1, call);
    if Starts(steps[k - 1], call) {
      start, m := k - 1, k;
    } else {
      start, m := CallOrigin(states, steps, k - 1, call);
      var held := Held(states[k].calls[call].pc);
      if held.Some? && held != Held(states[k - 1].calls[call].pc) {
        m := k - 1;
      }
    }
  }

  lemma LoadStep(states: seq<State>, steps: seq<Step>, k: nat, job: nat)
    requires IsTrace(states, steps) && k < |steps| && job in states[k + 1].loads
    ensures (job in states[k].loads && states[k].loads[job] == states[k + 1].loads[job])
            || RowAt(states, k, states[k + 1].loads[job])
  {
    hide Next, Enabled, P.RowsOk;
    assert states[k + 1] == Next(states[k], steps[k]);
    TableOk(states, steps, k);
    NewLoad(states[k], steps[k], job);
  }

  lemma {:induction false} LoadOrigin(states: seq<State>, steps: seq<Step>, k: nat, job: nat) returns (m: nat)
    requires IsTrace(states, steps) && k < |states| && job in states[k].loads
    ensures m <= k && RowAt(states, m, states[k].loads[job])
  {
    hide Next, Enabled, RowAt;
    LoadStep(states, steps, k - 1, job);
    m := k - 1;
    if !RowAt(states, m, states[k].loads[job]) {
      m := LoadOrigin(states, steps, k - 1, job);
    }
  }

  lemma KnownEntries(s: State)
    requires Agrees(s)
    ensures EntriesOk(s)
  {
  }

  lemma {:induction false} ClientOrigin(states: seq<State>, steps: seq<Step>, k: nat, client: nat) returns (m: nat)
    requires IsTrace(states, steps) && k < |states| && client in states[k].clients
    ensures m <= k && BuiltAt(states, m, states[k].clients[client])
  {
    hide Next, Enabled, Agrees;
    var s, step := states[k - 1], steps[k - 1];
    assert states[k - 1 + 1] == Next(s, step);
    var entry := states[k].clients[client];
    if client in s.clients {
      m := ClientOrigin(states, steps, k - 1, client);
      AgreesAlways(states, steps, k - 1);
      KnownEntries(s);
      NextEntriesOk(s, step);
    } else {
      NewClient(s, step, client);
      if call :| call in s.calls && s.calls[call].pc.Read? && s.calls[call].pc.found.Some?
                 && Named(s.calls[call].pc.found.value, entry) {
        var start;
        start, m := CallOrigin(states, steps, k - 1, call);
      } else {
        var job :| job in s.loads && Named(s.loads[job], entry);
        m := LoadOrigin(states, steps, k - 1, job);
      }
    }
  }

  /** A send goes through the entry that the same call's own synchronization returned, no older than the row it read. */
  lemma SendUsesSyncedEntry(states: seq<State>, steps: seq<Step>, k: nat) returns (start: nat, m: nat)
    requires IsTrace(states, steps) && k < |steps| && Sends(states[k], steps[k])
    ensures start < m <= k && Starts(steps[start], steps[k].call)
    ensures var c := states[k].calls[steps[k].call];
      && c.pc.Synced? && c.client == c.pc.entry.client
      && c.client in RegistryOf(states[k], c.process).connected
      && c.client in states[k].clients && states[k].clients[c.client] == c.pc.entry
      && RowAt(states, m, c.pc.row) && c.pc.row.id == c.serverId
      && c.pc.entry.revision >= c.pc.row.revision && c.pc.entry.serverId == c.serverId
  {
    var c := states[k].calls[steps[k].call];
    start, m := CallOrigin(states, steps, k, steps[k].call);
    AgreesAlways(states, steps, k);
    assert CallOk(states[k], c);
  }

  /**
   Freshness: whatever interferes, a request leaves only through a connection whose material the
   row had at some instant between the start of that call and the send. In particular nothing is
   sent with credentials that were cleared or replaced before the call began, and nothing at all
   is sent for a row that was already gone.
   */
  lemma SendMaterialIsFresh(states: seq<State>, steps: seq<Step>, k: nat) returns (start: nat, m: nat)
    requires IsTrace(states, steps) && k < |steps| && Sends(states[k], steps[k])
    ensures start < m <= k && Starts(steps[start], steps[k].call)
    ensures var c := states[k].calls[steps[k].call];
      && c.serverId in states[m].table.db
      && c.client in states[k].clients
      && states[k].clients[c.client].material == MaterialOf(states[m].table.db[c.serverId])
      && var used, row := states[k].clients[c.client].material, states[m].table.db[c.serverId];
         && used.name == row.name && used.transport == row.transport && used.command == row.command && used.url == row.url
         && used.headers == row.headers && used.env == row.env && used.oauth == row.oauth
  {
    var read;
    start, read := SendUsesSyncedEntry(states, steps, k);
    var c := states[k].calls[steps[k].call];
    var built := ClientOrigin(states, steps, k, c.client);
    if built > start {
      m := built;
    } else {
      m := read;
      TablesAreTrace(states, steps);
      var tables := Tables(states);
      assert tables[built] == states[built].table && tables[read] == states[read].table;
      Safety.RevisionNamesMaterial(tables, TableSteps(steps), built, read, c.serverId);
    }
  }

  lemma UnregisteredIsGone(r: Registry, id: nat)
    ensures Get(Unregistered(r, id).servers, id) == None
  {
    assert forall e | e in Unregistered(r, id).servers :: e.serverId != id;
  }

  /** A row that is gone when a call reads it leaves no entry behind, and the call fails. */
  lemma GoneMeansUnregistered(s: State, step: Step)
    requires step.Synchronize? && Enabled(s, step) && s.calls[step.call].pc.found.None?
    ensures var c := s.calls[step.call];
      && Next(s, step).calls[step.call].pc == Failed
      && Get(RegistryOf(Next(s, step), c.process).servers, c.serverId) == None
  {
    var c := s.calls[step.call];
    UnregisteredIsGone(RegistryOf(s, c.process), c.serverId);
  }

  /** The call has found its row gone, whether or not it has dropped the entry yet. */
  predicate FoundGone(pc: Pc) {
    pc == Read(None) || pc == Failed
  }

  lemma GoneStays(s: State, step: Step, call: nat)
    requires Enabled(s, step) && call in s.calls && call in s.usedCalls && FoundGone(s.calls[call].pc)
    ensures call in Next(s, step).calls && call in Next(s, step).usedCalls && FoundGone(Next(s, step).calls[call].pc)
  {
    if !((step.StartCall? || step.ReadRow? || step.Synchronize? || step.Dispatch?) && step.call == call) {
      CallsRemain(s, step, call);
      hide Next, Enabled;
      OtherCallsStay(s, step, call);
    }
  }

  lemma CallsRemain(s: State, step: Step, call: nat)
    requires Enabled(s, step) && call in s.calls && call in s.usedCalls
    ensures call in Next(s, step).calls && call in Next(s, step).usedCalls
  {
  }

  /** A call whose read found the row gone sends nothing at that step or at any later one. */
  lemma {:induction false} GoneNeverSends(states: seq<State>, steps: seq<Step>, k: nat, j: nat, call: nat)
    requires IsTrace(states, steps) && k <= j < |states|
    requires call in states[k].calls && FoundGone(states[k].calls[call].pc)
    ensures call in states[j].calls && FoundGone(states[j].calls[call].pc)
    ensures j < |steps| && Sends(states[j], steps[j]) ==> steps[j].call != call
  {
    hide Next, Agrees;
    AgreesAlways(states, steps, j);
    if k < j {
      GoneNeverSends(states, steps, k, j - 1, call);
      AgreesAlways(states, steps, j - 1);
      UsedCall(states[j - 1], call);
      assert states[j - 1 + 1] == Next(states[j - 1], steps[j - 1]);
      GoneStays(states[j - 1], steps[j - 1], call);
    }
  }

  lemma UsedCall(s: State, call: nat)
    requires Agrees(s) && call in s.calls
    ensures call in s.usedCalls
  {
  }
}
