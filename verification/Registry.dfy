/**
 The per-process registry of live connections: what each section under its lock does,
 and the two read paths that tool dispatch goes through.
 */
module Registry {
  import opened Basics
  import opened ServerRow

  /** A registered server; `client` identifies its connection, `tools` are what it discovered. */
  datatype ServerEntry = ServerEntry(
    serverId: nat, name: string, owner: Option<nat>, isSystem: bool,
    revision: nat, material: Material, client: nat, tools: seq<string>)

  /** Entries in registration order, and the clients whose connection is up. */
  datatype Registry = Registry(servers: seq<ServerEntry>, connected: set<nat>)

  function EntryOf(row: Row, client: nat, tools: seq<string>): ServerEntry {
    ServerEntry(row.id, row.name, row.owner, row.isSystem, row.revision, MaterialOf(row), client, tools)
  }

  function Get(servers: seq<ServerEntry>, id: nat): (entry: Option<ServerEntry>)
    ensures entry.Some? ==> entry.value in servers && entry.value.serverId == id
    ensures entry.None? ==> forall e | e in servers :: e.serverId != id
  {
    if servers == [] then None
    else if servers[0].serverId == id then Some(servers[0])
    else Get(servers[1..], id)
  }

  function Without(servers: seq<ServerEntry>, id: nat): (rest: seq<ServerEntry>)
    ensures forall e :: e in rest <==> e in servers && e.serverId != id
  {
    if servers == [] then []
    else if servers[0].serverId == id then Without(servers[1..], id)
    else [servers[0]] + Without(servers[1..], id)
  }

  function Unregistered(r: Registry, id: nat): Registry {
    var entry := Get(r.servers, id);
    if entry.None? then r else Registry(Without(r.servers, id), r.connected - {entry.value.client})
  }

  function Registered(r: Registry, entry: ServerEntry, connects: bool): Registry {
    var cleared := Unregistered(r, entry.serverId);
    Registry(cleared.servers + [entry], if connects then cleared.connected + {entry.client} else cleared.connected)
  }

  /** An entry that need not be replaced: connected, and at least as new as the row that was read. */
  predicate Keeps(r: Registry, id: nat, revision: nat) {
    var entry := Get(r.servers, id);
    entry.Some? && entry.value.client in r.connected && entry.value.revision >= revision
  }

  function Ensured(r: Registry, entry: ServerEntry, connects: bool): Registry {
    if Keeps(r, entry.serverId, entry.revision) then r else Registered(r, entry, connects)
  }

  function EnsuredEntry(r: Registry, entry: ServerEntry): (result: ServerEntry)
    ensures result.serverId == entry.serverId && result.revision >= entry.revision
  {
    if Keeps(r, entry.serverId, entry.revision) then Get(r.servers, entry.serverId).value else entry
  }

  // ----- one entry a server --------------------------------------------------------

  ghost predicate UniqueIds(servers: seq<ServerEntry>) {
    forall i, j | 0 <= i < j < |servers| :: servers[i].serverId != servers[j].serverId
  }

  lemma {:induction false} WithoutKeepsIds(servers: seq<ServerEntry>, id: nat)
    requires UniqueIds(servers)
    ensures UniqueIds(Without(servers, id))
  {
    if servers != [] {
      WithoutKeepsIds(servers[1..], id);
      var rest := Without(servers[1..], id);
      assert forall k | 0 <= k < |rest| :: rest[k] in rest;
    }
  }

  lemma UnregisteredKeepsIds(r: Registry, id: nat)
    requires UniqueIds(r.servers)
    ensures UniqueIds(Unregistered(r, id).servers)
  {
    WithoutKeepsIds(r.servers, id);
  }

  /** Every section under the registry lock leaves at most one entry a server. */
  lemma SectionsKeepIds(r: Registry, entry: ServerEntry, connects: bool)
    requires UniqueIds(r.servers)
    ensures UniqueIds(Registered(r, entry, connects).servers) && UniqueIds(Ensured(r, entry, connects).servers)
  {
    UnregisteredKeepsIds(r, entry.serverId);
    var cleared := Unregistered(r, entry.serverId).servers;
    assert forall k | 0 <= k < |cleared| :: cleared[k] in cleared;
  }

  // ----- the tool catalogue -------------------------------------------------------

  /** A tool descriptor as runs carry it; "" stands for a field that is absent. */
  datatype Descriptor = Descriptor(name: string, toolName: string, server: string, serverId: Option<nat>)

  datatype Resolved = Resolved(serverId: nat, server: string, tool: string, client: nat)

  predicate InScope(entry: ServerEntry, owner: Option<nat>, ids: Option<set<nat>>) {
    if ids.Some? then entry.serverId in ids.value
    else entry.isSystem || (owner.Some? && entry.owner == owner)
  }

  function ToolsOf(entry: ServerEntry, tools: seq<string>): seq<Resolved> {
    seq(|tools|, i requires 0 <= i < |tools| => Resolved(entry.serverId, entry.name, tools[i], entry.client))
  }

  /** Every tool of every connected entry in scope, in registration and then discovery order. */
  function Offered(servers: seq<ServerEntry>, connected: set<nat>, owner: Option<nat>, ids: Option<set<nat>>): seq<Resolved> {
    if servers == [] then []
    else
      (if InScope(servers[0], owner, ids) && servers[0].client in connected then ToolsOf(servers[0], servers[0].tools) else [])
      + Offered(servers[1..], connected, owner, ids)
  }

  function Describe(tool: Resolved): Descriptor {
    Descriptor(tool.server + "." + tool.tool, tool.tool, tool.server, Some(tool.serverId))
  }

  function DescribeAll(tools: seq<Resolved>): seq<Descriptor> {
    seq(|tools|, i requires 0 <= i < |tools| => Describe(tools[i]))
  }

  /** The index of the first dot, or the length when there is none. */
  function FirstDot(name: string): (i: nat)
    ensures i <= |name| && '.' !in name[..i]
    ensures i < |name| ==> name[i] == '.'
  {
    if name == "" then 0
    else if name[0] == '.' then 0
    else
      var rest := FirstDot(name[1..]);
      assert name[..rest + 1] == [name[0]] + name[1..][..rest];
      rest + 1
  }

  /** Whether a requested name selects this tool: by server and tool when dotted, else by tool alone. */
  predicate Selects(name: string, tool: Resolved) {
    var dot := FirstDot(name);
    if dot < |name| then tool.server == name[..dot] && tool.tool == name[dot + 1..] else tool.tool == name
  }

  function FirstSelected(name: string, tools: seq<Resolved>): (found: Option<Resolved>)
    ensures found.Some? ==> found.value in tools && Selects(name, found.value)
    ensures found.None? ==> forall t | t in tools :: !Selects(name, t)
  {
    if tools == [] then None
    else if Selects(name, tools[0]) then Some(tools[0])
    else FirstSelected(name, tools[1..])
  }

  lemma {:induction false} FirstSelectedSplits(name: string, a: seq<Resolved>, b: seq<Resolved>)
    ensures FirstSelected(name, a + b) == if FirstSelected(name, a).Some? then FirstSelected(name, a) else FirstSelected(name, b)
  {
    if a == [] {
      assert a + b == b;
    } else {
      assert (a + b)[1..] == a[1..] + b;
      FirstSelectedSplits(name, a[1..], b);
    }
  }

  lemma Regroup(a: seq<Resolved>, b: seq<Resolved>, c: seq<Resolved>)
    ensures a + (b + c) == (a + b) + c
  {
  }

  lemma {:induction false} OfferedSplits(a: seq<ServerEntry>, b: seq<ServerEntry>, connected: set<nat>,
                                         owner: Option<nat>, ids: Option<set<nat>>)
    ensures Offered(a + b, connected, owner, ids) == Offered(a, connected, owner, ids) + Offered(b, connected, owner, ids)
  {
    hide ToolsOf, InScope;
    if a == [] {
      assert a + b == b;
    } else {
      assert (a + b)[1..] == a[1..] + b;
      OfferedSplits(a[1..], b, connected, owner, ids);
      var here := if InScope(a[0], owner, ids) && a[0].client in connected then ToolsOf(a[0], a[0].tools) else [];
      Regroup(here, Offered(a[1..], connected, owner, ids), Offered(b, connected, owner, ids));
    }
  }

  lemma OfferedGrows(servers: seq<ServerEntry>, i: nat, connected: set<nat>, owner: Option<nat>, ids: Option<set<nat>>)
    requires i < |servers|
    ensures Offered(servers[..i + 1], connected, owner, ids)
            == Offered(servers[..i], connected, owner, ids)
               + (if InScope(servers[i], owner, ids) && servers[i].client in connected
                  then ToolsOf(servers[i], servers[i].tools) else [])
  {
    assert servers[..i + 1] == servers[..i] + [servers[i]];
    OfferedSplits(servers[..i], [servers[i]], connected, owner, ids);
    assert Offered([servers[i]][1..], connected, owner, ids) == [];
  }

  lemma ToolsOfGrows(entry: ServerEntry, j: nat)
    requires j < |entry.tools|
    ensures ToolsOf(entry, entry.tools[..j + 1])
            == ToolsOf(entry, entry.tools[..j]) + [Resolved(entry.serverId, entry.name, entry.tools[j], entry.client)]
  {
  }

  lemma DescribeGrows(tools: seq<Resolved>, tool: Resolved)
    ensures DescribeAll([]) == [] && DescribeAll(tools + [tool]) == DescribeAll(tools) + [Describe(tool)]
  {
  }

  lemma NothingOffered(servers: seq<ServerEntry>, connected: set<nat>, owner: Option<nat>, ids: Option<set<nat>>)
    ensures Offered(servers[..0], connected, owner, ids) == [] && DescribeAll([]) == []
    ensures servers[..|servers|] == servers
  {
  }

  lemma NoToolsOf(entry: ServerEntry, before: seq<Resolved>)
    ensures before + ToolsOf(entry, entry.tools[..0]) == before && before + [] == before
    ensures entry.tools[..|entry.tools|] == entry.tools
  {
  }

  // ----- whose tools are offered ------------------------------------------------------------

  /** The entry is connected and, if ids are granted, has one of them; if not, it is a system entry or the owner's. */
  predicate Serves(e: ServerEntry, connected: set<nat>, owner: Option<nat>, ids: Option<set<nat>>) {
    && e.client in connected
    && match ids
       case Some(granted) => e.serverId in granted
       case None => e.isSystem || (owner.Some? && e.owner == owner)
  }

  /** A tool is offered exactly if it is one that a serving entry discovered. */
  lemma {:induction false} OfferedIff(servers: seq<ServerEntry>, connected: set<nat>, owner: Option<nat>,
                                      ids: Option<set<nat>>, t: Resolved)
    ensures t in Offered(servers, connected, owner, ids) <==>
            exists e | e in servers ::
              Serves(e, connected, owner, ids) && t.tool in e.tools && t == Resolved(e.serverId, e.name, t.tool, e.client)
  {
    if servers != [] {
      var first, rest := servers[0], servers[1..];
      OfferedIff(rest, connected, owner, ids, t);
      ToolOfIff(first, t);
      assert forall e :: e in servers <==> e == first || e in rest;
    }
  }

  lemma ToolOfIff(e: ServerEntry, t: Resolved)
    ensures t in ToolsOf(e, e.tools) <==> t.tool in e.tools && t == Resolved(e.serverId, e.name, t.tool, e.client)
  {
    if t.tool in e.tools && t == Resolved(e.serverId, e.name, t.tool, e.client) {
      var j :| 0 <= j < |e.tools| && e.tools[j] == t.tool;
      assert ToolsOf(e, e.tools)[j] == t;
    }
  }

  /** A lookup finds the selected tool of the earliest serving entry that has one, and nothing if none has. */
  lemma {:induction false} FoundIff(name: string, servers: seq<ServerEntry>, connected: set<nat>, owner: Option<nat>,
                                    ids: Option<set<nat>>, i: nat, tool: string)
    requires i < |servers| && Serves(servers[i], connected, owner, ids) && tool in servers[i].tools
    requires Selects(name, Resolved(servers[i].serverId, servers[i].name, tool, servers[i].client))
    requires forall k, other | 0 <= k < i && Serves(servers[k], connected, owner, ids) && other in servers[k].tools ::
               !Selects(name, Resolved(servers[k].serverId, servers[k].name, other, servers[k].client))
    ensures FirstSelected(name, Offered(servers, connected, owner, ids))
            == Some(Resolved(servers[i].serverId, servers[i].name, tool, servers[i].client))
  {
    var first := servers[0];
    var here := if InScope(first, owner, ids) && first.client in connected then ToolsOf(first, first.tools) else [];
    FirstSelectedSplits(name, here, Offered(servers[1..], connected, owner, ids));
    if i == 0 {
      SameSelection(name, first, tool);
    } else {
      forall k, other | 0 <= k < i - 1 && Serves(servers[1..][k], connected, owner, ids) && other in servers[1..][k].tools
        ensures !Selects(name, Resolved(servers[1..][k].serverId, servers[1..][k].name, other, servers[1..][k].client))
      {
        assert servers[1..][k] == servers[k + 1];
      }
      FoundIff(name, servers[1..], connected, owner, ids, i - 1, tool);
      if here != [] && FirstSelected(name, here).Some? {
        ToolOfIff(first, FirstSelected(name, here).value);
        assert false;
      }
    }
  }

  /** A name selects at most one tool name of an entry. */
  lemma SameSelection(name: string, e: ServerEntry, tool: string)
    requires tool in e.tools && Selects(name, Resolved(e.serverId, e.name, tool, e.client))
    ensures FirstSelected(name, ToolsOf(e, e.tools)) == Some(Resolved(e.serverId, e.name, tool, e.client))
  {
    ToolOfIff(e, Resolved(e.serverId, e.name, tool, e.client));
    var found := FirstSelected(name, ToolsOf(e, e.tools));
    ToolOfIff(e, found.value);
  }

  lemma SelectedIff(name: string, servers: seq<ServerEntry>, connected: set<nat>, owner: Option<nat>, ids: Option<set<nat>>)
    ensures var found := FirstSelected(name, Offered(servers, connected, owner, ids));
            && (found.Some? ==>
                  && Selects(name, found.value)
                  && exists e | e in servers ::
                       && Serves(e, connected, owner, ids) && found.value.tool in e.tools
                       && found.value == Resolved(e.serverId, e.name, found.value.tool, e.client))
            && (found.None? ==>
                  forall e, tool | e in servers && Serves(e, connected, owner, ids) && tool in e.tools ::
                    !Selects(name, Resolved(e.serverId, e.name, tool, e.client)))
  {
    hide Offered, Serves, Selects;
    var found := FirstSelected(name, Offered(servers, connected, owner, ids));
    if found.Some? {
      OfferedIff(servers, connected, owner, ids, found.value);
    } else {
      forall e, tool | e in servers && Serves(e, connected, owner, ids) && tool in e.tools
        ensures !Selects(name, Resolved(e.serverId, e.name, tool, e.client))
      {
        OfferedIff(servers, connected, owner, ids, Resolved(e.serverId, e.name, tool, e.client));
      }
    }
  }

  lemma ListedIff(servers: seq<ServerEntry>, connected: set<nat>, owner: Option<nat>, ids: Option<set<nat>>, d: Descriptor)
    ensures d in DescribeAll(Offered(servers, connected, owner, ids)) <==>
            exists e | e in servers ::
              && Serves(e, connected, owner, ids) && d.toolName in e.tools
              && d == Descriptor(e.name + "." + d.toolName, d.toolName, e.name, Some(e.serverId))
  {
    var offered := Offered(servers, connected, owner, ids);
    if d in DescribeAll(offered) {
      var i :| 0 <= i < |offered| && Describe(offered[i]) == d;
      OfferedIff(servers, connected, owner, ids, offered[i]);
    }
    forall e | e in servers && Serves(e, connected, owner, ids) && d.toolName in e.tools
               && d == Descriptor(e.name + "." + d.toolName, d.toolName, e.name, Some(e.serverId))
      ensures d in DescribeAll(offered)
    {
      var t := Resolved(e.serverId, e.name, d.toolName, e.client);
      OfferedIff(servers, connected, owner, ids, t);
      var i :| 0 <= i < |offered| && offered[i] == t;
      assert DescribeAll(offered)[i] == d;
    }
  }

  class MCPServerRegistry {
    var servers: seq<ServerEntry>
    var connected: set<nat>

    function Value(): Registry
      reads this
    {
      Registry(servers, connected)
    }

    constructor ()
      ensures Value() == Registry([], {})
    {
      servers, connected := [], {};
    }

    /** Remove an entry and close its connection. */
    method Unregister(id: nat)
      modifies this
      ensures Value() == Unregistered(old(Value()), id)
    {
      var entry := Get(servers, id);
      if entry.Some? {
        servers := Without(servers, id);
        if entry.value.client in connected {
          connected := connected - {entry.value.client};
        }
      }
      assert connected - {} == connected;
    }

    /** Replace an entry unconditionally; a failed connect leaves a disconnected entry behind. */
    method Register(entry: ServerEntry, connects: bool) returns (result: ServerEntry)
      modifies this
      ensures Value() == Registered(old(Value()), entry, connects) && result == entry
    {
      Unregister(entry.serverId);
      if connects {
        connected := connected + {entry.client};
      }
      servers := servers + [entry];
      result := entry;
    }

    method EnsureRegistered(entry: ServerEntry, connects: bool) returns (result: ServerEntry)
      modifies this
      ensures Value() == Ensured(old(Value()), entry, connects)
      ensures result == EnsuredEntry(old(Value()), entry)
    {
      var existing := Get(servers, entry.serverId);
      if existing.Some? && existing.value.client in connected && existing.value.revision >= entry.revision {
        result := existing.value;
      } else {
        result := Register(entry, connects);
      }
    }

    /** The aggregated tool list of every connected entry in scope. */
    method GetAllTools(owner: Option<nat>, ids: Option<set<nat>>) returns (tools: seq<Descriptor>)
      ensures tools == DescribeAll(Offered(servers, connected, owner, ids))
      ensures forall d :: d in tools <==>
                exists e | e in servers ::
                  && Serves(e, connected, owner, ids) && d.toolName in e.tools
                  && d == Descriptor(e.name + "." + d.toolName, d.toolName, e.name, Some(e.serverId))
    {
      hide Offered, DescribeAll, ToolsOf, Serves;
      tools := [];
      ghost var found: seq<Resolved> := [];
      NothingOffered(servers, connected, owner, ids);
      for i := 0 to |servers|
        invariant found == Offered(servers[..i], connected, owner, ids)
        invariant tools == DescribeAll(found)
      {
        OfferedGrows(servers, i, connected, owner, ids);
        var entry := servers[i];
        NoToolsOf(entry, found);
        if InScope(entry, owner, ids) && entry.client in connected {
          ghost var before := found;
          for j := 0 to |entry.tools|
            invariant found == before + ToolsOf(entry, entry.tools[..j])
            invariant tools == DescribeAll(found)
          {
            ghost var tool := Resolved(entry.serverId, entry.name, entry.tools[j], entry.client);
            ToolsOfGrows(entry, j);
            DescribeGrows(found, tool);
            Regroup(before, ToolsOf(entry, entry.tools[..j]), [tool]);
            tools := tools + [Descriptor(entry.name + "." + entry.tools[j], entry.tools[j], entry.name, Some(entry.serverId))];
            found := found + [tool];
          }
        }
      }
      forall d {
        ListedIff(servers, connected, owner, ids, d);
      }
    }

    /** Resolve a name: dotted names by scanning for server and tool, bare ones through a name index. */
    method LookupTool(name: string, owner: Option<nat>, ids: Option<set<nat>>) returns (found: Option<Resolved>)
      ensures found == FirstSelected(name, Offered(servers, connected, owner, ids))
      ensures found.Some? ==>
                && Selects(name, found.value)
                && exists e | e in servers ::
                     && Serves(e, connected, owner, ids) && found.value.tool in e.tools
                     && found.value == Resolved(e.serverId, e.name, found.value.tool, e.client)
      ensures found.None? ==>
                forall e, tool | e in servers && Serves(e, connected, owner, ids) && tool in e.tools ::
                  !Selects(name, Resolved(e.serverId, e.name, tool, e.client))
    {
      hide Offered, Serves, Selects;
      SelectedIff(name, servers, connected, owner, ids);
      var dot := FirstDot(name);
      if dot < |name| {
        found := LookupDotted(name, dot, owner, ids);
      } else {
        var index := IndexByBareName(owner, ids);
        if name !in index || index[name] == [] {
          found := None;
        } else {
          found := Some(index[name][0]);
        }
        HeadOfIndex(name, Offered(servers, connected, owner, ids));
      }
    }

    method LookupDotted(name: string, dot: nat, owner: Option<nat>, ids: Option<set<nat>>) returns (found: Option<Resolved>)
      requires dot == FirstDot(name) < |name|
      ensures found == FirstSelected(name, Offered(servers, connected, owner, ids))
    {
      hide Offered, FirstSelected, InScope, ToolsOf, FirstDot;
      NoneSelected(name);
      NothingOffered(servers, connected, owner, ids);
      for i := 0 to |servers|
        invariant FirstSelected(name, Offered(servers[..i], connected, owner, ids)) == None
      {
        var entry := servers[i];
        FirstInEntry(entry, entry.tools, name);
        if InScope(entry, owner, ids) && entry.name == name[..dot] && entry.client in connected {
          var present := HasTool(entry.tools, name[dot + 1..]);
          if present {
            found := Some(Resolved(entry.serverId, entry.name, name[dot + 1..], entry.client));
            FoundAt(servers, i, connected, owner, ids, name, found.value);
            return;
          }
        }
        NotFoundAt(servers, i, connected, owner, ids, name);
      }
      assert servers[..|servers|] == servers;
      found := None;
    }

    static method HasTool(tools: seq<string>, bare: string) returns (present: bool)
      ensures present <==> bare in tools
    {
      for j := 0 to |tools|
        invariant bare !in tools[..j]
      {
        if tools[j] == bare {
          return true;
        }
      }
      present := false;
    }

    method IndexByBareName(owner: Option<nat>, ids: Option<set<nat>>) returns (index: map<string, seq<Resolved>>)
      ensures IndexOf(index, Offered(servers, connected, owner, ids))
    {
      index := map[];
      ghost var seen: seq<Resolved> := [];
      for i := 0 to |servers|
        invariant seen == Offered(servers[..i], connected, owner, ids)
        invariant IndexOf(index, seen)
      {
        OfferedGrows(servers, i, connected, owner, ids);
        var entry := servers[i];
        if InScope(entry, owner, ids) && entry.client in connected {
          index := IndexEntry(index, entry, seen);
          seen := seen + ToolsOf(entry, entry.tools);
        }
        assert seen + [] == seen;
      }
      assert servers[..|servers|] == servers;
    }

    static method IndexEntry(given: map<string, seq<Resolved>>, entry: ServerEntry, ghost before: seq<Resolved>)
      returns (index: map<string, seq<Resolved>>)
      requires IndexOf(given, before)
      ensures IndexOf(index, before + ToolsOf(entry, entry.tools))
    {
      index := given;
      assert before + ToolsOf(entry, entry.tools[..0]) == before;
      for j := 0 to |entry.tools|
        invariant IndexOf(index, before + ToolsOf(entry, entry.tools[..j]))
      {
        var tool := Resolved(entry.serverId, entry.name, entry.tools[j], entry.client);
        IndexGrows(index, before + ToolsOf(entry, entry.tools[..j]), tool);
        index := index[tool.tool := (if tool.tool in index then index[tool.tool] else []) + [tool]];
        ToolsOfGrows(entry, j);
        assert (before + ToolsOf(entry, entry.tools[..j])) + [tool] == before + ToolsOf(entry, entry.tools[..j + 1]);
      }
      assert entry.tools[..|entry.tools|] == entry.tools;
    }
  }

  /** The tools of a bare name, in order. */
  function Named(name: string, tools: seq<Resolved>): seq<Resolved> {
    if tools == [] then []
    else (if tools[0].tool == name then [tools[0]] else []) + Named(name, tools[1..])
  }

  ghost predicate IndexOf(index: map<string, seq<Resolved>>, tools: seq<Resolved>) {
    forall name :: (if name in index then index[name] else []) == Named(name, tools)
  }

  lemma {:induction false} NamedSplits(name: string, a: seq<Resolved>, b: seq<Resolved>)
    ensures Named(name, a + b) == Named(name, a) + Named(name, b)
  {
    if a == [] {
      assert a + b == b;
    } else {
      assert (a + b)[1..] == a[1..] + b;
      NamedSplits(name, a[1..], b);
      Regroup(if a[0].tool == name then [a[0]] else [], Named(name, a[1..]), Named(name, b));
    }
  }

  lemma IndexGrows(index: map<string, seq<Resolved>>, tools: seq<Resolved>, tool: Resolved)
    requires IndexOf(index, tools)
    ensures IndexOf(index[tool.tool := (if tool.tool in index then index[tool.tool] else []) + [tool]], tools + [tool])
  {
    forall name
      ensures Named(name, tools + [tool]) == Named(name, tools) + if tool.tool == name then [tool] else []
    {
      NamedSplits(name, tools, [tool]);
      assert Named(name, [tool][1..]) == [];
    }
  }

  lemma {:induction false} HeadOfIndex(name: string, tools: seq<Resolved>)
    requires FirstDot(name) == |name|
    ensures FirstSelected(name, tools) == if Named(name, tools) == [] then None else Some(Named(name, tools)[0])
  {
    if tools != [] {
      HeadOfIndex(name, tools[1..]);
    }
  }

  lemma {:induction false} FirstInEntry(entry: ServerEntry, tools: seq<string>, name: string)
    requires FirstDot(name) < |name|
    ensures var dot := FirstDot(name);
      FirstSelected(name, ToolsOf(entry, tools))
      == if entry.name == name[..dot] && name[dot + 1..] in tools
         then Some(Resolved(entry.serverId, entry.name, name[dot + 1..], entry.client)) else None
  {
    if tools != [] {
      assert ToolsOf(entry, tools)[1..] == ToolsOf(entry, tools[1..]);
      FirstInEntry(entry, tools[1..], name);
    }
  }

  lemma NoneSelected(name: string)
    ensures FirstSelected(name, []) == None
  {
  }

  lemma NotFoundAt(servers: seq<ServerEntry>, i: nat, connected: set<nat>, owner: Option<nat>, ids: Option<set<nat>>,
                   name: string)
    requires i < |servers|
    requires FirstSelected(name, Offered(servers[..i], connected, owner, ids)) == None
    requires InScope(servers[i], owner, ids) && servers[i].client in connected
      ==> FirstSelected(name, ToolsOf(servers[i], servers[i].tools)) == None
    ensures FirstSelected(name, Offered(servers[..i + 1], connected, owner, ids)) == None
  {
    hide *;
    OfferedGrows(servers, i, connected, owner, ids);
    var before := Offered(servers[..i], connected, owner, ids);
    FirstSelectedSplits(name, before, ToolsOf(servers[i], servers[i].tools));
    assert before + [] == before;
  }

  /** The first match of the first entry that has one is the first match of all. */
  lemma FoundAt(servers: seq<ServerEntry>, i: nat, connected: set<nat>, owner: Option<nat>, ids: Option<set<nat>>,
                name: string, found: Resolved)
    requires i < |servers|
    requires InScope(servers[i], owner, ids) && servers[i].client in connected
    requires FirstSelected(name, Offered(servers[..i], connected, owner, ids)) == None
    requires FirstSelected(name, ToolsOf(servers[i], servers[i].tools)) == Some(found)
    ensures FirstSelected(name, Offered(servers, connected, owner, ids)) == Some(found)
  {
    hide *;
    var before, after := Offered(servers[..i], connected, owner, ids), Offered(servers[i + 1..], connected, owner, ids);
    var here := ToolsOf(servers[i], servers[i].tools);
    OfferedGrows(servers, i, connected, owner, ids);
    FirstSelectedSplits(name, before, here);
    assert servers == servers[..i + 1] + servers[i + 1..];
    OfferedSplits(servers[..i + 1], servers[i + 1..], connected, owner, ids);
    FirstSelectedSplits(name, before + here, after);
  }
}
