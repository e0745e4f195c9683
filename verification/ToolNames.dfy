/**
 The names under which a run offers its tools, and the way back from a name to a tool.
 */
module ToolNames {
  import opened Basics
  import opened Registry
  import Calls = ToolCalls

  // ----- choosing names --------------------------------------------------------------

  function StartsWith(s: string, prefix: string): bool {
    |prefix| <= |s| && s[..|prefix|] == prefix
  }

  function NonEmptyOr(a: string, b: string): string {
    if a != "" then a else b
  }

  /** The bare name of a descriptor, also when it still carries the older namespaced tool name. */
  function BareName(d: Descriptor): string {
    var bare := NonEmptyOr(d.toolName, NonEmptyOr(d.name, "unknown"));
    var prefix := d.server + ".";
    if d.server != "" && StartsWith(bare, prefix) && (d.name == "" || d.name == bare) then bare[|prefix|..] else bare
  }

  function QualifiedName(d: Descriptor): string {
    if d.server != "" then d.server + "." + BareName(d) else NonEmptyOr(d.name, BareName(d))
  }

  function Count(tools: seq<Descriptor>, bare: string): nat {
    if tools == [] then 0 else (if BareName(tools[0]) == bare then 1 else 0) + Count(tools[1..], bare)
  }

  function ChosenName(d: Descriptor, tools: seq<Descriptor>): string {
    if Count(tools, BareName(d)) > 1 then QualifiedName(d) else BareName(d)
  }

  function ToolNamesForRun(tools: seq<Descriptor>): (names: seq<string>)
    ensures |names| == |tools|
  {
    seq(|tools|, i requires 0 <= i < |tools| => ChosenName(tools[i], tools))
  }

  lemma {:induction false} CountTwo(tools: seq<Descriptor>, i: nat, j: nat)
    requires i < j < |tools| && BareName(tools[i]) == BareName(tools[j])
    ensures Count(tools, BareName(tools[i])) > 1
  {
    if i == 0 {
      CountOne(tools[1..], j - 1);
    } else {
      CountTwo(tools[1..], i - 1, j - 1);
    }
  }

  lemma {:induction false} CountOne(tools: seq<Descriptor>, j: nat)
    requires j < |tools|
    ensures Count(tools, BareName(tools[j])) > 0
  {
    hide BareName;
    if j > 0 {
      CountOne(tools[1..], j - 1);
    }
  }

  lemma {:induction false} CountNone(tools: seq<Descriptor>, bare: string)
    requires forall j | 0 <= j < |tools| :: BareName(tools[j]) != bare
    ensures Count(tools, bare) == 0
  {
    hide BareName;
    if tools != [] {
      CountNone(tools[1..], bare);
    }
  }

  lemma {:induction false} CountOnly(tools: seq<Descriptor>, i: nat)
    requires i < |tools| && forall j | 0 <= j < |tools| && j != i :: BareName(tools[j]) != BareName(tools[i])
    ensures Count(tools, BareName(tools[i])) == 1
  {
    hide BareName;
    if i == 0 {
      CountNone(tools[1..], BareName(tools[0]));
    } else {
      CountOnly(tools[1..], i - 1);
    }
  }

  /** A name stays bare exactly as long as no other tool of the run has it; then it is qualified. */
  lemma UnsharedStaysBare(tools: seq<Descriptor>, i: nat)
    requires i < |tools|
    ensures ToolNamesForRun(tools)[i] ==
            if exists j | 0 <= j < |tools| :: j != i && BareName(tools[j]) == BareName(tools[i])
            then QualifiedName(tools[i]) else BareName(tools[i])
  {
    hide BareName, QualifiedName, Count;
    if j :| 0 <= j < |tools| && j != i && BareName(tools[j]) == BareName(tools[i]) {
      CountTwo(tools, if i < j then i else j, if i < j then j else i);
    } else {
      CountOnly(tools, i);
    }
  }

  /** Both names of a descriptor: the tool's own, freed of an older prefix, and that behind its server's. */
  lemma NamesOfDescriptor(d: Descriptor, bare: string)
    requires d.server != "" && bare != "" && (d.name == "" || d.name == d.toolName || d.name == d.server + "." + bare)
    requires d.toolName == d.server + "." + bare
             || (d.toolName == bare && !StartsWith(bare, d.server + "."))
    ensures BareName(d) == bare && QualifiedName(d) == d.server + "." + bare
  {
    if d.toolName == d.server + "." + bare {
      assert d.toolName[|d.server + "."|..] == bare;
    }
  }

  // ----- resolving names back ----------------------------------------------------------

  /** The registrations that a run's descriptors name. */
  function AllowedServerIds(tools: seq<Descriptor>): (ids: set<nat>) {
    set d | d in tools && d.serverId.Some? :: d.serverId.value
  }

  /** Whether a resolved tool is granted to the run. */
  predicate InAllowlist(tool: Resolved, tools: seq<Descriptor>) {
    exists d | d in tools ::
      && d.serverId == Some(tool.serverId) && d.server == tool.server
      && (d.toolName == tool.tool || d.toolName == tool.server + "." + tool.tool)
  }

  /** No two tools share both server name and tool name, and none is nameless. */
  ghost predicate Distinguishable(tools: seq<Resolved>) {
    && (forall t | t in tools :: t.tool != "")
    && (forall i, j | 0 <= i < j < |tools| :: tools[i].server != tools[j].server || tools[i].tool != tools[j].tool)
  }

  lemma BareOfDescribed(tool: Resolved)
    requires tool.tool != ""
    ensures BareName(Describe(tool)) == tool.tool && QualifiedName(Describe(tool)) == tool.server + "." + tool.tool
  {
    var d := Describe(tool);
    assert |d.name| == |tool.server| + 1 + |tool.tool|;
  }

  lemma {:induction false} FirstDotOfDotFree(s: string)
    requires '.' !in s
    ensures FirstDot(s) == |s|
  {
  }

  lemma {:induction false} FirstDotSplits(s: string, t: string)
    ensures FirstDot(s + "." + t) == if '.' in s then FirstDot(s) else |s|
  {
    if s != "" {
      assert (s + "." + t)[1..] == s[1..] + "." + t;
      if s[0] != '.' {
        FirstDotSplits(s[1..], t);
        assert '.' in s <==> '.' in s[1..] by { assert s == [s[0]] + s[1..]; }
      }
    } else {
      assert s + "." + t == "." + t;
    }
  }

  lemma DotAt(s: string)
    requires '.' in s
    ensures FirstDot(s) < |s|
  {
    assert s[..|s|] == s;
  }

  /** A qualified name selects its own tool, and nothing else, exactly when the server name has no dot. */
  lemma QualifiedSelects(tool: Resolved, other: Resolved)
    ensures '.' !in tool.server ==>
      (Selects(tool.server + "." + tool.tool, other) <==> other.server == tool.server && other.tool == tool.tool)
    ensures '.' in tool.server ==> !Selects(tool.server + "." + tool.tool, tool)
  {
    var name := tool.server + "." + tool.tool;
    FirstDotSplits(tool.server, tool.tool);
    if '.' in tool.server {
      DotAt(tool.server);
      assert |name[..FirstDot(name)]| < |tool.server|;
    } else {
      assert name[..|tool.server|] == tool.server && name[|tool.server| + 1..] == tool.tool;
    }
  }

  /** A bare name selects its own tool exactly when it has no dot. */
  lemma BareSelects(tool: Resolved, other: Resolved)
    ensures '.' !in tool.tool ==> (Selects(tool.tool, other) <==> other.tool == tool.tool)
    ensures '.' in tool.tool ==> !Selects(tool.tool, tool)
  {
    if '.' in tool.tool {
      DotAt(tool.tool);
    } else {
      FirstDotOfDotFree(tool.tool);
    }
  }

  lemma {:induction false} FirstSelectedAt(name: string, tools: seq<Resolved>, i: nat)
    requires i < |tools| && Selects(name, tools[i]) && forall j | 0 <= j < i :: !Selects(name, tools[j])
    ensures FirstSelected(name, tools) == Some(tools[i])
  {
    if i > 0 {
      FirstSelectedAt(name, tools[1..], i - 1);
    }
  }

  lemma DescribedAt(tools: seq<Resolved>, i: nat)
    requires i < |tools| && tools[i].tool != ""
    ensures DescribeAll(tools)[i] == Describe(tools[i])
    ensures BareName(DescribeAll(tools)[i]) == tools[i].tool
    ensures QualifiedName(DescribeAll(tools)[i]) == tools[i].server + "." + tools[i].tool
  {
    BareOfDescribed(tools[i]);
  }

  lemma {:induction false} UniqueBare(tools: seq<Resolved>, i: nat, j: nat)
    requires Distinguishable(tools) && i < |tools| && j < |tools| && i != j && tools[i].tool == tools[j].tool
    ensures Count(DescribeAll(tools), BareName(DescribeAll(tools)[i])) > 1
  {
    assert tools[i] in tools && tools[j] in tools;
    DescribedAt(tools, i);
    DescribedAt(tools, j);
    CountTwo(DescribeAll(tools), if i < j then i else j, if i < j then j else i);
  }

  /**
   The name chosen for a tool of a full catalogue resolves back to exactly that tool if and only if
   the part of it that lookup splits on is unambiguous: a bare name must have no dot, and in a
   qualified one the server name must have none.
   */
  lemma NameResolvesBackIff(tools: seq<Resolved>, i: nat)
    requires Distinguishable(tools) && i < |tools|
    ensures var catalogue := DescribeAll(tools);
      var bareIsShared := Count(catalogue, BareName(catalogue[i])) > 1;
      FirstSelected(ToolNamesForRun(catalogue)[i], tools) == Some(tools[i])
      <==> '.' !in (if bareIsShared then tools[i].server else tools[i].tool)
  {
    var tool := tools[i];
    assert tool in tools;
    var name := ToolNamesForRun(DescribeAll(tools))[i];
    DescribedAt(tools, i);
    var shared := Count(DescribeAll(tools), BareName(DescribeAll(tools)[i])) > 1;
    assert name == if shared then tool.server + "." + tool.tool else tool.tool;
    QualifiedSelects(tool, tool);
    BareSelects(tool, tool);
    if '.' !in (if shared then tool.server else tool.tool) {
      forall j | 0 <= j < i
        ensures !Selects(name, tools[j])
      {
        QualifiedSelects(tool, tools[j]);
        BareSelects(tool, tools[j]);
        if !shared && tools[j].tool == tool.tool {
          UniqueBare(tools, i, j);
        }
      }
      FirstSelectedAt(name, tools, i);
    }
  }

  /** Names that resolve back are pairwise distinct. */
  lemma ResolvableNamesAreDistinct(tools: seq<Resolved>, i: nat, j: nat)
    requires Distinguishable(tools) && i < j < |tools|
    requires FirstSelected(ToolNamesForRun(DescribeAll(tools))[i], tools) == Some(tools[i])
    requires FirstSelected(ToolNamesForRun(DescribeAll(tools))[j], tools) == Some(tools[j])
    ensures ToolNamesForRun(DescribeAll(tools))[i] != ToolNamesForRun(DescribeAll(tools))[j]
  {
  }

  /** Looking up within the ids of a catalogue's descriptors searches exactly that catalogue. */
  lemma {:induction false} AllowedIdsOfferTheCatalogue(servers: seq<ServerEntry>, connected: set<nat>, owner: Option<nat>,
                                                       ids: Option<set<nat>>, allowed: set<nat>)
    requires UniqueIds(servers)
    requires forall e | e in servers && e.client in connected && e.tools != [] :: InScope(e, owner, ids) <==> e.serverId in allowed
    ensures Offered(servers, connected, None, Some(allowed)) == Offered(servers, connected, owner, ids)
  {
    if servers != [] {
      var e := servers[0];
      AllowedIdsOfferTheCatalogue(servers[1..], connected, owner, ids, allowed);
      if e.tools == [] {
        assert ToolsOf(e, e.tools) == [];
      }
    }
  }

  lemma {:induction false} OfferedFrom(servers: seq<ServerEntry>, connected: set<nat>, owner: Option<nat>,
                                       ids: Option<set<nat>>, id: nat)
    requires UniqueIds(servers)
    ensures (exists t | t in Offered(servers, connected, owner, ids) :: t.serverId == id)
            <==> (exists e | e in servers :: e.serverId == id && e.client in connected && e.tools != [] && InScope(e, owner, ids))
  {
    if servers != [] {
      var e, rest := servers[0], servers[1..];
      var here := if InScope(e, owner, ids) && e.client in connected then ToolsOf(e, e.tools) else [];
      OfferedFrom(rest, connected, owner, ids, id);
      assert forall t :: t in Offered(servers, connected, owner, ids) <==> t in here || t in Offered(rest, connected, owner, ids);
      assert forall x :: x in servers <==> x == e || x in rest;
      assert here != [] ==> here[0].serverId == e.serverId && here[0] in here;
      assert e.tools != [] && InScope(e, owner, ids) && e.client in connected ==> here != [];
      assert forall t | t in here :: t.serverId == e.serverId && here != [];
    }
  }

  /** A full run catalogue resolves through the registry, and the resolved tool passes the allow-list. */
  lemma CatalogueRoundTrip(servers: seq<ServerEntry>, connected: set<nat>, owner: Option<nat>, ids: Option<set<nat>>, i: nat)
    requires UniqueIds(servers)
    requires var tools := Offered(servers, connected, owner, ids);
      && Distinguishable(tools) && i < |tools| && '.' !in tools[i].server && '.' !in tools[i].tool
    ensures var tools := Offered(servers, connected, owner, ids);
      var catalogue := DescribeAll(tools);
      && FirstSelected(ToolNamesForRun(catalogue)[i], Offered(servers, connected, None, Some(AllowedServerIds(catalogue))))
         == Some(tools[i])
      && InAllowlist(tools[i], catalogue)
  {
    hide *;
    var tools := Offered(servers, connected, owner, ids);
    var catalogue := DescribeAll(tools);
    AllowedAreInScope(servers, connected, owner, ids);
    AllowedIdsOfferTheCatalogue(servers, connected, owner, ids, AllowedServerIds(catalogue));
    NameResolvesBackIff(tools, i);
    GrantedPasses(tools, i);
  }

  lemma GrantedPasses(tools: seq<Resolved>, i: nat)
    requires i < |tools|
    ensures InAllowlist(tools[i], DescribeAll(tools))
  {
    var catalogue := DescribeAll(tools);
    assert catalogue[i] == Describe(tools[i]) && catalogue[i] in catalogue;
  }

  lemma AllowedAreInScope(servers: seq<ServerEntry>, connected: set<nat>, owner: Option<nat>, ids: Option<set<nat>>)
    requires UniqueIds(servers)
    ensures forall e | e in servers && e.client in connected && e.tools != [] ::
              InScope(e, owner, ids) <==>
              e.serverId in AllowedServerIds(DescribeAll(Offered(servers, connected, owner, ids)))
  {
    hide Offered, InScope, AllowedServerIds, DescribeAll;
    var tools := Offered(servers, connected, owner, ids);
    var allowed := AllowedServerIds(DescribeAll(tools));
    forall e | e in servers && e.client in connected && e.tools != []
      ensures InScope(e, owner, ids) <==> e.serverId in allowed
    {
      OfferedFrom(servers, connected, owner, ids, e.serverId);
      AllowedAreOffered(tools, e.serverId);
      if x :| x in servers && x.serverId == e.serverId && x.client in connected && x.tools != [] && InScope(x, owner, ids) {
        assert x == e;
      }
    }
  }

  lemma AllowedAreOffered(tools: seq<Resolved>, id: nat)
    ensures id in AllowedServerIds(DescribeAll(tools)) <==> exists t | t in tools :: t.serverId == id
  {
    var catalogue := DescribeAll(tools);
    if t :| t in tools && t.serverId == id {
      var k :| 0 <= k < |tools| && tools[k] == t;
      assert catalogue[k] in catalogue && catalogue[k].serverId == Some(id);
    }
    if d :| d in catalogue && d.serverId == Some(id) {
      var k :| 0 <= k < |catalogue| && catalogue[k] == d;
      assert tools[k] in tools;
    }
  }

  /**
   A run that was granted only some tools of its servers: the name chosen for one of them is never
   dispatched to another tool. It resolves to the granted tool, or what it resolves to is refused.
   */
  lemma GrantIsExactOrRefused(offered: seq<Resolved>, granted: seq<Resolved>, i: nat)
    requires Distinguishable(offered) && Distinguishable(granted) && i < |granted|
    requires forall t | t in granted :: t in offered
    requires forall t | t in offered :: '.' !in t.server && '.' !in t.tool
    ensures var found := FirstSelected(ToolNamesForRun(DescribeAll(granted))[i], offered);
      && found.Some?
      && (found != Some(granted[i]) ==> !InAllowlist(found.value, DescribeAll(granted)))
  {
    var tool, catalogue := granted[i], DescribeAll(granted);
    var name := ToolNamesForRun(catalogue)[i];
    assert tool in granted && tool in offered;
    DescribedAt(granted, i);
    QualifiedSelects(tool, tool);
    BareSelects(tool, tool);
    var found := FirstSelected(name, offered);
    if InAllowlist(found.value, catalogue) {
      AllowedMeansGranted(offered, granted, found.value);
      QualifiedSelects(tool, found.value);
      BareSelects(tool, found.value);
      var j :| 0 <= j < |granted| && granted[j] == found.value;
      if name != tool.tool {
        SamePair(granted, found.value, tool);
      } else if j != i {
        UniqueBare(granted, i, j);
      }
    }
  }

  lemma DotInside(s: string, t: string)
    ensures '.' in s + "." + t
  {
    assert (s + "." + t)[|s|] == '.';
  }

  lemma AllowedMeansGranted(offered: seq<Resolved>, granted: seq<Resolved>, found: Resolved)
    requires Distinguishable(offered) && found in offered && forall t | t in granted :: t in offered
    requires forall t | t in offered :: '.' !in t.server && '.' !in t.tool
    requires InAllowlist(found, DescribeAll(granted))
    ensures found in granted
  {
    var catalogue := DescribeAll(granted);
    var d :| d in catalogue && d.serverId == Some(found.serverId) && d.server == found.server
             && (d.toolName == found.tool || d.toolName == found.server + "." + found.tool);
    var j :| 0 <= j < |catalogue| && catalogue[j] == d;
    assert d == Describe(granted[j]);
    DotInside(found.server, found.tool);
    assert granted[j] in granted && granted[j] in offered;
    SamePair(offered, found, granted[j]);
  }

  lemma SamePair(tools: seq<Resolved>, a: Resolved, b: Resolved)
    requires Distinguishable(tools) && a in tools && b in tools && a.server == b.server && a.tool == b.tool
    ensures a == b
  {
    var i :| 0 <= i < |tools| && tools[i] == a;
    var j :| 0 <= j < |tools| && tools[j] == b;
  }

  lemma {:induction false} FirstSelectedEarliest(name: string, tools: seq<Resolved>, j: nat) returns (q: nat)
    requires j < |tools| && Selects(name, tools[j])
    ensures q <= j && FirstSelected(name, tools) == Some(tools[q])
  {
    if Selects(name, tools[0]) {
      q := 0;
    } else {
      q := FirstSelectedEarliest(name, tools[1..], j - 1);
      q := q + 1;
    }
  }

  /** It resolves to the granted tool exactly when it is qualified or no earlier tool on offer has its bare name. */
  lemma GrantResolvesIff(offered: seq<Resolved>, granted: seq<Resolved>, i: nat, p: nat)
    requires Distinguishable(offered) && Distinguishable(granted) && i < |granted| && p < |offered|
    requires offered[p] == granted[i] && '.' !in granted[i].server && '.' !in granted[i].tool
    ensures var catalogue := DescribeAll(granted);
      FirstSelected(ToolNamesForRun(catalogue)[i], offered) == Some(granted[i])
      <==> Count(catalogue, BareName(catalogue[i])) > 1 || forall j | 0 <= j < p :: offered[j].tool != granted[i].tool
  {
    var tool := granted[i];
    assert tool in granted;
    DescribedAt(granted, i);
    var name := ToolNamesForRun(DescribeAll(granted))[i];
    forall j | 0 <= j < |offered|
      ensures name == tool.tool ==> (Selects(name, offered[j]) <==> offered[j].tool == tool.tool)
      ensures name != tool.tool ==> (Selects(name, offered[j]) <==> offered[j].server == tool.server && offered[j].tool == tool.tool)
    {
      QualifiedSelects(tool, offered[j]);
      BareSelects(tool, offered[j]);
    }
    if j :| 0 <= j < p && Selects(name, offered[j]) {
      var q := FirstSelectedEarliest(name, offered, j);
      assert offered[q] != offered[p];
    } else {
      FirstSelectedAt(name, offered, p);
    }
  }

  /** Such a refusal does happen: the same bare name on an earlier server hides the granted one. */
  lemma GrantCanBeHidden()
    ensures exists offered: seq<Resolved>, granted: seq<Resolved> ::
      && Distinguishable(offered) && Distinguishable(granted) && |granted| == 1 && granted[0] in offered
      && FirstSelected(ToolNamesForRun(DescribeAll(granted))[0], offered) != Some(granted[0])
  {
    var hidden, first := Resolved(2, "b", "ping", 20), Resolved(1, "a", "ping", 10);
    var offered, granted := [first, hidden], [hidden];
    DescribedAt(granted, 0);
    var catalogue := DescribeAll(granted);
    assert catalogue[1..] == [] && Count(catalogue[1..], "ping") == 0;
    assert Count(catalogue, "ping") <= 1;
    assert ToolNamesForRun(DescribeAll(granted))[0] == "ping";
    BareSelects(hidden, first);
    assert Selects("ping", offered[0]);
    assert Distinguishable(offered) && Distinguishable(granted) && granted[0] in offered;
  }

  // ----- provider names -----------------------------------------------------------------

  predicate LegalChar(c: char) {
    'A' <= c <= 'Z' || 'a' <= c <= 'z' || '0' <= c <= '9' || c == '_' || c == '-'
  }

  /** What a provider accepts: 1 to 64 characters of its alphabet. */
  predicate Legal(name: string) {
    1 <= |name| <= 64 && forall c | c in name :: LegalChar(c)
  }

  function Replaced(name: string): (safe: string)
    ensures |safe| == |name| && (forall c | c in safe :: LegalChar(c))
    ensures safe == name <==> forall c | c in name :: LegalChar(c)
  {
    if name == "" then ""
    else
      assert name == [name[0]] + name[1..];
      [if LegalChar(name[0]) then name[0] else '_'] + Replaced(name[1..])
  }

  /** A digest gives every name 8 legal characters. */
  ghost predicate IsDigest(digest: string -> string) {
    forall name :: |digest(name)| == 8 && Legal(digest(name))
  }

  function Prefix(name: string): string {
    var safe := Replaced(name);
    if |safe| <= 55 then safe else safe[..55]
  }

  function Sanitized(name: string, digest: string -> string): (safe: string)
    requires IsDigest(digest)
    ensures Legal(safe)
    ensures safe == name <==> Legal(name)
  {
    if Legal(name) then name
    else
      var safe := Prefix(name) + "_" + digest(name);
      assert forall c | c in Prefix(name) :: c in Replaced(name);
      safe
  }

  /** A rewritten name is the first 55 characters, the illegal ones as underscores, and the digest. */
  lemma RewritingKeeps(name: string, digest: string -> string, i: nat)
    requires IsDigest(digest) && !Legal(name)
    ensures var safe, n := Sanitized(name, digest), if |name| < 55 then |name| else 55;
            && |safe| == n + 9 && safe[n..] == "_" + digest(name)
            && (i < n ==> safe[i] == if LegalChar(name[i]) then name[i] else '_')
  {
    hide Sanitized, Legal, LegalChar, Replaced, Prefix, IsDigest;
    var n := if |name| < 55 then |name| else 55;
    RewrittenParts(name, digest);
    SplitsAt(Replaced(name)[..n], "_" + digest(name));
    if i < n {
      ReplacedAt(name, i);
    }
  }

  lemma RewrittenParts(name: string, digest: string -> string)
    requires IsDigest(digest) && !Legal(name)
    ensures |digest(name)| == 8
    ensures Sanitized(name, digest) == Replaced(name)[..if |name| < 55 then |name| else 55] + ("_" + digest(name))
  {
    hide Legal, LegalChar, Replaced;
    var safe := Replaced(name);
    assert safe[..|safe|] == safe;
    assert Prefix(name) + "_" + digest(name) == Prefix(name) + ("_" + digest(name));
  }

  lemma SplitsAt(a: string, b: string)
    ensures (a + b)[|a|..] == b && forall i | 0 <= i < |a| :: (a + b)[i] == a[i]
  {
  }

  lemma {:induction false} ReplacedAt(name: string, i: nat)
    requires i < |name|
    ensures Replaced(name)[i] == if LegalChar(name[i]) then name[i] else '_'
  {
    if i > 0 {
      ReplacedAt(name[1..], i - 1);
    }
  }

  /** Two names share a provider name exactly in these ways; the last two need no digest collision. */
  lemma SanitizedCollision(a: string, b: string, digest: string -> string)
    requires IsDigest(digest)
    ensures Sanitized(a, digest) == Sanitized(b, digest) <==>
      || a == b
      || (!Legal(a) && !Legal(b) && Prefix(a) == Prefix(b) && digest(a) == digest(b))
      || (Legal(a) && !Legal(b) && a == Prefix(b) + "_" + digest(b))
      || (Legal(b) && !Legal(a) && b == Prefix(a) + "_" + digest(a))
  {
    if !Legal(a) && !Legal(b) && Sanitized(a, digest) == Sanitized(b, digest) {
      var x, y := Prefix(a) + "_" + digest(a), Prefix(b) + "_" + digest(b);
      assert x == y && |Prefix(a)| == |Prefix(b)|;
      assert Prefix(a) == x[..|Prefix(a)|] && Prefix(b) == y[..|Prefix(b)|];
      assert digest(a) == x[|Prefix(a)| + 1..] && digest(b) == y[|Prefix(b)| + 1..];
    }
  }

  /** Every name that has to be rewritten collides with some other name, namely with its own rewriting. */
  lemma RewrittenNamesCollide(name: string, digest: string -> string)
    requires IsDigest(digest) && !Legal(name)
    ensures exists other :: other != name && Sanitized(other, digest) == Sanitized(name, digest)
  {
    var other := Sanitized(name, digest);
    assert other != name && Sanitized(other, digest) == other;
  }

  /** The map from provider names back to dispatch names; a later tool overwrites an earlier one. */
  method BuildNameMap(names: seq<string>, digest: string -> string) returns (mapping: map<string, string>)
    requires IsDigest(digest)
    ensures forall k :: k in mapping <==> exists n | n in names :: Sanitized(n, digest) == k
    ensures forall i | 0 <= i < |names| && (forall j | i < j < |names| :: Sanitized(names[j], digest) != Sanitized(names[i], digest)) ::
      Sanitized(names[i], digest) in mapping && mapping[Sanitized(names[i], digest)] == names[i]
  {
    hide Sanitized;
    mapping := map[];
    for k := 0 to |names|
      invariant forall x :: x in mapping <==> exists n | n in names[..k] :: Sanitized(n, digest) == x
      invariant forall i | 0 <= i < k && (forall j | i < j < k :: Sanitized(names[j], digest) != Sanitized(names[i], digest)) ::
        Sanitized(names[i], digest) in mapping && mapping[Sanitized(names[i], digest)] == names[i]
    {
      assert names[..k + 1] == names[..k] + [names[k]];
      mapping := mapping[Sanitized(names[k], digest) := names[k]];
    }
    assert names[..|names|] == names;
  }

  /** With no collision, every provider name leads back through the map and the registry to its own tool. */
  method DispatchByProviderName(tools: seq<Resolved>, i: nat, digest: string -> string) returns (found: Option<Resolved>)
    requires IsDigest(digest) && Distinguishable(tools) && i < |tools|
    requires forall t | t in tools :: '.' !in t.server && '.' !in t.tool
    requires var names := ToolNamesForRun(DescribeAll(tools));
      forall a, b | 0 <= a < b < |names| :: Sanitized(names[a], digest) != Sanitized(names[b], digest)
    ensures found == Some(tools[i])
  {
    var names := ToolNamesForRun(DescribeAll(tools));
    var mapping := BuildNameMap(names, digest);
    assert tools[i] in tools;
    NameResolvesBackIff(tools, i);
    found := FirstSelected(mapping[Sanitized(names[i], digest)], tools);
  }

  /** In every reachable registry a run's catalogue of dot-free names goes round. */
  lemma ReachableRoundTrip(states: seq<Calls.State>, steps: seq<Calls.Step>, k: nat, process: nat,
                           owner: Option<nat>, ids: Option<set<nat>>, i: nat)
    requires Calls.IsTrace(states, steps) && k < |states|
    requires var r := Calls.RegistryOf(states[k], process);
      var tools := Offered(r.servers, r.connected, owner, ids);
      && Distinguishable(tools) && i < |tools| && '.' !in tools[i].server && '.' !in tools[i].tool
    ensures var r := Calls.RegistryOf(states[k], process);
      var tools := Offered(r.servers, r.connected, owner, ids);
      var catalogue := DescribeAll(tools);
      && FirstSelected(ToolNamesForRun(catalogue)[i], Offered(r.servers, r.connected, None, Some(AllowedServerIds(catalogue))))
         == Some(tools[i])
      && InAllowlist(tools[i], catalogue)
  {
    hide *;
    Calls.RegistriesAlwaysOk(states, steps, k, process);
    var r := Calls.RegistryOf(states[k], process);
    CatalogueRoundTrip(r.servers, r.connected, owner, ids, i);
  }
}
