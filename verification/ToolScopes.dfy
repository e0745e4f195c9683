/**
 Whose tools a process's registry lists and resolves, and what registering and unregistering do
 to that.
 */
module ToolScopes {
  import opened Basics
  import opened ServerRow
  import opened Registry
  import opened ToolCalls
  import opened CallFreshness
  import P = Protocol
  import Safety = ProtocolSafety

  // ----- one entry or none ---------------------------------------------------------------

  lemma {:induction false} GetIsTheOne(servers: seq<ServerEntry>, e: ServerEntry)
    requires UniqueIds(servers) && e in servers
    ensures Get(servers, e.serverId) == Some(e)
  {
    if servers[0] != e {
      var k :| 0 <= k < |servers| && servers[k] == e;
      assert servers[1..][k - 1] == e;
      GetIsTheOne(servers[1..], e);
    }
  }

  /** Taking one entry out leaves the others in their order. */
  lemma {:induction false} WithoutOne(front: seq<ServerEntry>, e: ServerEntry, back: seq<ServerEntry>)
    requires UniqueIds(front + [e] + back)
    ensures Without(front + [e] + back, e.serverId) == front + back
  {
    var all := front + [e] + back;
    if front == [] {
      assert all[1..] == back && all[0] == e;
      NothingOut(back, e.serverId);
      assert front + back == back;
    } else {
      assert all[0] == front[0] && all[|front|] == e;
      assert all[1..] == front[1..] + [e] + back;
      WithoutOne(front[1..], e, back);
      assert front + back == [front[0]] + (front[1..] + back);
    }
  }

  lemma {:induction false} NothingOut(servers: seq<ServerEntry>, id: nat)
    requires forall e | e in servers :: e.serverId != id
    ensures Without(servers, id) == servers
  {
    if servers != [] {
      NothingOut(servers[1..], id);
    }
  }

  /** Registering leaves one entry for the server, the new one, connected exactly if its connect succeeded. */
  lemma RegisteredOutcome(r: Registry, entry: ServerEntry, connects: bool, other: ServerEntry)
    requires UniqueIds(r.servers) && entry.client !in r.connected && other.serverId != entry.serverId
    ensures var q := Registered(r, entry, connects);
      && Get(q.servers, entry.serverId) == Some(entry) && (entry.client in q.connected <==> connects)
      && (other in q.servers <==> other in r.servers)
      && (other.client in q.connected <==>
            (connects && other.client == entry.client)
            || (other.client in r.connected
                && forall was | was in r.servers && was.serverId == entry.serverId :: was.client != other.client))
  {
    var q := Registered(r, entry, connects);
    SectionsKeepIds(r, entry, connects);
    assert q.servers[|q.servers| - 1] == entry;
    GetIsTheOne(q.servers, entry);
    forall was | was in r.servers && was.serverId == entry.serverId
      ensures Get(r.servers, entry.serverId) == Some(was)
    {
      GetIsTheOne(r.servers, was);
    }
  }

  /** Ensuring keeps a connected entry that is new enough, and registers the row's in any other case. */
  lemma EnsuredOutcome(r: Registry, entry: ServerEntry, connects: bool)
    requires UniqueIds(r.servers)
    ensures var q, kept := Ensured(r, entry, connects), EnsuredEntry(r, entry);
      && Get(q.servers, entry.serverId) == Some(kept)
      && if exists e | e in r.servers :: e.serverId == entry.serverId && e.client in r.connected && e.revision >= entry.revision
         then q == r && kept in r.servers && kept.client in r.connected && kept.revision >= entry.revision
         else q == Registered(r, entry, connects) && kept == entry
  {
    forall e | e in r.servers && e.serverId == entry.serverId
      ensures Get(r.servers, entry.serverId) == Some(e)
    {
      GetIsTheOne(r.servers, e);
    }
    if !Keeps(r, entry.serverId, entry.revision) {
      SectionsKeepIds(r, entry, connects);
      var q := Registered(r, entry, connects);
      assert q.servers[|q.servers| - 1] == entry;
      GetIsTheOne(q.servers, entry);
    }
  }

  // ----- whose tools a run gets -------------------------------------------------------------

  /** A connected registration in a reachable registry was built from a row of the owner it names. */
  lemma EntryOrigin(states: seq<State>, steps: seq<Step>, k: nat, process: nat, e: ServerEntry) returns (m: nat)
    requires IsTrace(states, steps) && k < |states| && e in RegistryOf(states[k], process).servers
    ensures m <= k && e.serverId in states[m].table.db
    ensures states[m].table.db[e.serverId].owner == e.owner && states[m].table.db[e.serverId].isSystem == e.isSystem
  {
    hide Next, Enabled, Init;
    AgreesAlways(states, steps, k);
    KnownEntries(states[k]);
    m := ClientOrigin(states, steps, k, e.client);
  }

  lemma OwnersStay(states: seq<State>, steps: seq<Step>, i: nat, j: nat, id: nat)
    requires IsTrace(states, steps) && i < |states| && j < |states|
    requires id in states[i].table.db && id in states[j].table.db
    ensures states[i].table.db[id].owner == states[j].table.db[id].owner
    ensures states[i].table.db[id].isSystem == states[j].table.db[id].isSystem
  {
    hide Next, Enabled, Init;
    TablesAreTrace(states, steps);
    var tables := Tables(states);
    assert tables[i] == states[i].table && tables[j] == states[j].table;
    if i <= j {
      Safety.RevisionsOnlyGrow(tables, TableSteps(steps), i, j, id);
    } else {
      Safety.RevisionsOnlyGrow(tables, TableSteps(steps), j, i, id);
    }
  }

  /**
   In any run, a process lists and resolves for an owner only tools of rows that are system rows or that
   owner's, at every moment the row exists; and without an owner only tools of system rows.
   */
  lemma OthersToolsStayHidden(states: seq<State>, steps: seq<Step>, k: nat, process: nat, owner: Option<nat>, t: Resolved)
    requires IsTrace(states, steps) && k < |states|
    requires var r := RegistryOf(states[k], process); t in Offered(r.servers, r.connected, owner, None)
    ensures exists m | 0 <= m <= k :: t.serverId in states[m].table.db
    ensures forall m | 0 <= m < |states| && t.serverId in states[m].table.db ::
              var row := states[m].table.db[t.serverId]; row.isSystem || (owner.Some? && row.owner == owner)
  {
    hide Next, Enabled, Init;
    var r := RegistryOf(states[k], process);
    OfferedIff(r.servers, r.connected, owner, None, t);
    var e :| e in r.servers && Serves(e, r.connected, owner, None) && e.serverId == t.serverId;
    var built := EntryOrigin(states, steps, k, process, e);
    forall m | 0 <= m < |states| && t.serverId in states[m].table.db
      ensures var row := states[m].table.db[t.serverId]; row.isSystem || (owner.Some? && row.owner == owner)
    {
      OwnersStay(states, steps, built, m, t.serverId);
    }
  }

  // ----- a call that nothing disturbs -----------------------------------------------------------

  ghost predicate Entering(s: State, call: nat) {
    && call in s.calls && s.calls[call].pc.Entered?
    && s.calls[call].serverId in s.table.db && s.table.db[s.calls[call].serverId].id == s.calls[call].serverId
    && UniqueIds(RegistryOf(s, s.calls[call].process).servers)
  }

  /** The call reads the row and synchronizes the registry with it, connecting if it must. */
  ghost function Round(s: State, call: nat, client: nat, tools: seq<string>): State
    requires Entering(s, call) && client !in s.clients
  {
    Next(Next(s, ReadRow(call)), Synchronize(call, client, tools, true))
  }

  lemma RoundOutcome(s: State, call: nat, client: nat, tools: seq<string>)
    requires Entering(s, call) && client !in s.clients
    ensures var c, t := s.calls[call], Round(s, call, client, tools);
      var row, r := s.table.db[c.serverId], RegistryOf(s, c.process);
      var kept := EnsuredEntry(r, EntryOf(row, client, tools));
      && t.table == s.table && call in t.calls && t.calls[call] == c.(pc := Synced(row, kept))
      && RegistryOf(t, c.process) == Ensured(r, EntryOf(row, client, tools), true)
      && t.clients.Keys <= s.clients.Keys + {client}
  {
  }

  lemma EnsuredIsConnected(r: Registry, entry: ServerEntry)
    requires UniqueIds(r.servers)
    ensures var q := Ensured(r, entry, true);
      && UniqueIds(q.servers) && EnsuredEntry(r, entry).client in q.connected
      && Keeps(q, entry.serverId, entry.revision)
      && Get(q.servers, entry.serverId) == Some(EnsuredEntry(r, entry))
  {
    SectionsKeepIds(r, entry, true);
    EnsuredOutcome(r, entry, true);
  }

  /**
   Left alone, a guarded call of a server whose row exists sends: at once if the registry's entry is
   the one of the call's client and new enough, and else after one more round, through the entry that
   the first round registered from the row as it is, or kept because it is as new.
   */
  lemma UndisturbedCallSends(s: State, call: nat, client: nat, spare: nat, tools: seq<string>)
    requires Entering(s, call) && client !in s.clients && spare !in s.clients && spare != client
    ensures var c, t := s.calls[call], Round(s, call, client, tools);
      && Enabled(t, Dispatch(call))
      && (Sends(t, Dispatch(call)) ||
            var u := Next(t, Dispatch(call));
            && Entering(u, call) && spare !in u.clients
            && Sends(Round(u, call, spare, tools), Dispatch(call)))
  {
    hide Ensured, EnsuredEntry, Keeps, Round, UniqueIds, Get;
    var c, t := s.calls[call], Round(s, call, client, tools);
    var row, r := s.table.db[c.serverId], RegistryOf(s, c.process);
    RoundOutcome(s, call, client, tools);
    EnsuredIsConnected(r, EntryOf(row, client, tools));
    if !Sends(t, Dispatch(call)) {
      var u := Next(t, Dispatch(call));
      RoundOutcome(u, call, spare, tools);
      KeptAgain(Ensured(r, EntryOf(row, client, tools), true), EntryOf(row, client, tools), EntryOf(row, spare, tools));
    }
  }

  /** A connected entry that is new enough for one read is kept at the next read of the same row. */
  lemma KeptAgain(q: Registry, entry: ServerEntry, again: ServerEntry)
    requires Keeps(q, entry.serverId, entry.revision)
    requires again.serverId == entry.serverId && again.revision == entry.revision
    ensures Ensured(q, again, true) == q && Some(EnsuredEntry(q, again)) == Get(q.servers, entry.serverId)
    ensures EnsuredEntry(q, again).client in q.connected
  {
  }
}
