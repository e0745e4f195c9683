# A verified model of the agent runtime's core

Motoro runs LLM agents. This project models the parts of it whose guarantees span many steps or
many processes, and proves those guarantees for every input, every run and every interleaving.

- `ServerRow`, `ServerConfig`, `Protocol`, `ProtocolSafety`, `Authorizations`, `Refreshing`: MCP server registrations and
  their OAuth credentials. A row is edited in short row-locked transactions with network requests in
  between; a trace is any interleaving of those transactions. The authorization code grant and its
  `state` are those of section 4.1 of RFC 6749, refresh is that of section 6 of RFC 6749.
- `Registry`, `ToolCalls`, `CallFreshness`, `ToolScopes`: each process's registry of live connections, the
  guard that brings it up to the row before a tool call leaves, and whose tools it offers.
- `ToolNames`: the names shown to a model for the tools of a run, and their resolution back.
- `PromptFence`: delimiters around text that must not be obeyed.
- `EmbeddingCache`, `Mmr`: the embedding cache with its batches, and diversity re-ranking.
- `WorkingMemory`, `SlidingWindow`, `Summaries`, `MemoryPasses`: concurrent writers of one hash,
  with a lock that guards eviction but not writing.
- `RunSnapshots`, `AgentLoop`, `RunEndings`, `PauseResume`, `LastAnswers`: the agent loop, how its runs end, its
  snapshots and its continuation.
- `RunConfig`: which settings a run executes with.

Check everything with `dafny verify dfyconfig.toml`.

## How to read the model

Code that updates objects is a class whose methods are proved against functions on values; the
theorems are lemmas about those functions and about traces of them. Steps that do not apply are
excluded by `Enabled`. A trace is a sequence of states and a sequence of steps with one state more.
`ServerConfig` is such a class: each of its nine methods is tied to a transaction of `ServerRow` or a step
of `Protocol`, and the table lists the four with the most branches.

Assumptions, each of which appears as a parameter or a hypothesis:

- Encryption is an exact round trip, hashes are injective, and states, claims and ids that are drawn
  from a secure generator are unused ones.
- The lock on a display name serialises the collision check with the insertion that follows it.
- An embedding is a function of its text; whether a request succeeds is arbitrary.
- Similarities, costs and times are exact numbers, and the similarity itself is a parameter.
- Commands to the working-memory store succeed. What `Summaries` says about entries assumes that the lock
  does not expire while it is held; what it says about deleting the lock, and `SlidingWindow`, do not.
- Phases may do anything that depends only on what a snapshot holds and leaves the loop counter, the
  iteration limit and the skill flag alone (`PauseResume.Faithful`). Their outputs are restored exactly.
- The caller that resumes a run supplies the phase it was paused at. Neither the snapshot nor the result of
  a run records that phase, so the model's `Halt` carries it beside the snapshot; without it the code
  starts again at the first phase.
- Validating a serialised setting restores it, except for API keys (`RunConfig.RoundTrips`).

Those about phases and settings are met by some phases and by some schema (`LastAnswers.ExampleIsFaithful`,
`RunConfig.SomeSchemaRoundTrips`).

## Where the code and its documentation disagree, and what else was found

The model follows the code.

- `src/motoro/mcp/adapters.py:509-514` says that the digest keeps rewritten tool names distinct. A
  rewritten name always collides with the name that equals its own rewriting
  (`ToolNames.RewrittenNamesCollide`), and a tool can be hidden from a partial grant by the same bare
  name on another server (`ToolNames.GrantCanBeHidden`).
- `src/motoro/memory/working.py:218-221` says that releasing never deletes a lock that another process
  took over after an expiry. The comparison and the deletion are two commands, so it can
  (`Summaries.ReleaseCanFreeAnothersLock`), exactly if another process took the lock between the two
  (`Summaries.UnlockDeletesComparedLockIff`); without expiry it cannot (`Summaries.UnlockFreesOwnLock`).
- `src/motoro/engine/runtime.py:342` keeps the last answer when a resource limit fires, but a resumed run
  starts without one, so a limit after a pause can forget it (`LastAnswers.LimitAfterPauseForgets`), exactly
  if the act phase had answered before the last resume and not since (`LastAnswers.AnswerIsKeptIff`).
- A snapshot of a context leaves out the model's API key, also the keys of fallback models, so a
  resumed context and a later execution have only the keys that are supplied again
  (`RunSnapshots.RestoredExactlyIff`, `RunConfig.LaterConfigIsFirstIff`).
- `src/motoro/memory/embedding.py:230` does not validate the chunk size. Zero raises, and a negative one
  sends nothing and then fails on the missing vectors (`EmbeddingCache.EmbeddingService.EmbedRemoteBatch`).

## Model

| member | source | states |
|---|---|---|
| ServerRow.RegisterRow | src/motoro/services/mcp_service.py:318-341 | A registration that is admitted obeys every credential rule (RowOk) and starts at revision 1. |
| ServerRow.UpdateRow | src/motoro/services/mcp_service.py:650-716 | An update that is not refused bumps the revision by one, keeps id, owner and system flag, keeps a row within the credential rules, and either leaves a pending authorization as it was or removes it with its published state. |
| ServerRow.RegistrationIsExact | src/motoro/services/mcp_service.py:314-351 | A registration is admitted if and only if its name is free and the row it asks for obeys every credential rule; and then it is that row. |
| ServerRow.UpdateIsExact | src/motoro/services/mcp_service.py:650-716 | An edit is admitted if and only if its name is free, the row it asks for obeys every credential rule, and no stored credential goes to an endpoint it was not given for; and then the row is what it asks for, field by field. |
| ServerRow.BeginPersist | src/motoro/services/mcp_service.py:1035-1051 | A begin that is persisted lands on an existing row, bumps its revision, and keeps the credential rules when the new transaction is unclaimed and bound to that row. |
| ServerRow.Install | src/motoro/services/mcp_service.py:1155-1180 | The compare-and-set bumps the revision and keeps the credential rules when the transaction is bound to the row it lands on. |
| ServerRow.Refresh | src/motoro/services/mcp_service.py:458-533 | A refresh under the row lock sends at most one request, never loses the row, and keeps the credential rules. |
| ServerRow.Mark | src/motoro/services/mcp_service.py:536-549 | Recording a rejection keeps the row and its credential rules. |
| ServerConfig.MCPServerConfig.UpdateServer | src/motoro/services/mcp_service.py:650-716 | Field by field, the update is the row transaction of ServerRow; a refused one changes nothing. |
| ServerConfig.MCPServerConfig.ClaimCallback | src/motoro/services/mcp_service.py:1091-1115 | Withdraws the published state and marks the transaction, or expires it, or refuses and changes nothing. |
| ServerConfig.MCPServerConfig.InstallToken | src/motoro/services/mcp_service.py:1163-1180 | The token is stored exactly when the compare-and-set admits it; otherwise nothing changes. |
| ServerConfig.MCPServerConfig.RefreshUnderLock | src/motoro/services/mcp_service.py:469-533 | The refresh on the mutable row, its reply and its request count are those of the row transaction. |
| Protocol.NameCheckIsExact | src/motoro/services/mcp_service.py:270-290 | Under the name lock the collision query refuses a name if and only if admitting it would break the rule that rows of one name have different owners and are not system rows. |
| Protocol.RegisterKeepsInv | src/motoro/services/mcp_service.py:342-351 | Registration keeps the whole invariant of the table. |
| Protocol.UpdateKeepsInv | src/motoro/services/mcp_service.py:688-716 | An update keeps the whole invariant of the table, names included. |
| Protocol.PersistBeginKeepsInv | src/motoro/services/mcp_service.py:1047-1051 | A begin publishes a state that no other row publishes and nobody has claimed. |
| Protocol.ClaimKeepsInv | src/motoro/services/mcp_service.py:1086-1115 | A claim withdraws the state before it is recorded as claimed, so no published state is a claimed one. |
| Protocol.InstallKeepsInv | src/motoro/services/mcp_service.py:1155-1180 | An installation keeps the whole invariant of the table. |
| Protocol.NextKeepsInv | src/motoro/services/mcp_service.py:263-1281 | Every committed transaction keeps the invariant: row rules, name rule, published states, callbacks in flight. |
| ProtocolSafety.InvAlways | src/motoro/services/mcp_service.py:263-1281 | The invariant holds at every moment of every interleaving. |
| ProtocolSafety.CredentialsNeverMix | src/motoro/services/mcp_service.py:200-218 | In every reachable row: tokens imply streamable HTTP, no static headers, no stdio environment and a binding to the row's own id and URL; headers imply HTTP or SSE; an environment implies stdio; a pending transaction implies no headers; a published state hash belongs to an unclaimed pending transaction. |
| ProtocolSafety.NameLookupIsUnique | src/motoro/services/mcp_service.py:368-380 | In every reachable table a by-name lookup, for any owner or for none, matches at most one row. |
| ProtocolSafety.StateLookupIsUnique | src/motoro/services/mcp_service.py:1087-1090 | In every reachable table a callback state matches at most one row. |
| ProtocolSafety.RevisionsOnlyGrow | src/motoro/services/mcp_service.py:441-442 | Between any two sightings of a row its revision does not decrease, and its connection material is unchanged if its revision is. |
| ProtocolSafety.RevisionNamesMaterial | src/motoro/services/mcp_service.py:570-590 | Two states of a row with one revision have the same name, transport, command, URL, headers, environment and OAuth payload, whatever ran in between. |
| ProtocolSafety.SupersedingBumps | src/motoro/services/mcp_service.py:1106-1109 | Every edit, begin, installation, rotation, rejection, clear and deletion that commits leaves a higher revision or no row. |
| ProtocolSafety.CallbackOrigin | src/motoro/services/mcp_service.py:1110-1115 | A callback in flight was put there by one successful claim, which recorded the revision and changed no connection material. |
| ProtocolSafety.InstallUndoesNothing | src/motoro/services/mcp_service.py:1106-1180 | A callback installs its token only if the row was there, at the claimed revision, at every moment since the claim, so no transaction that bumps the revision committed in between, superseding ones least of all; and of its material the installation changes the OAuth payload only. |
| ProtocolSafety.StateClaimedOnce | src/motoro/services/mcp_service.py:1084-1115 | Over any run two claims of one state are the same claim. |
| ProtocolSafety.StateInstalledOnce | src/motoro/services/mcp_service.py:1165-1180 | Over any run two installations for one state are the same installation. |
| Authorizations.LoadOutcome | src/motoro/services/mcp_service.py:953-966 | An authorization can be begun if and only if the row is there, visible, streamable HTTP, with a URL and without static credentials. |
| Authorizations.BeginOutcome | src/motoro/services/mcp_service.py:1035-1051 | A begin is persisted if and only if the row is there, visible, streamable HTTP, without static credentials and still at the discovered URL; it publishes the minted state and changes no connection material. |
| Authorizations.CallbackOutcome | src/motoro/services/mcp_service.py:1084-1115 | A callback is claimed if and only if code and state are not empty, the row publishes that state to this caller, server id, issuer, URL and id agree, and it is not later than the expiry; it is expired exactly if the lookup matched and it is later; otherwise it is refused and nothing changes. |
| Authorizations.ExchangeOutcome | src/motoro/services/mcp_service.py:1155-1180 | The compare-and-set succeeds if and only if the row is as the claim left it, in all seven comparisons, and stores the token under the claimed grant; the error tells a row that is gone or moved from one that changed. |
| Authorizations.InstallsIff | src/motoro/services/mcp_service.py:1147-1180 | In any run an exchanged token is installed if and only if its row is there, at the claimed revision, and uses streamable HTTP; the row then holds exactly that token under the claimed grant, and otherwise the table is as it was. |
| Authorizations.InstallationOrigin | src/motoro/services/mcp_service.py:1035-1180 | Every installed token goes back to one begin persisted on its row and one later claim that presented the state of that begin, with a code, for its issuer, by someone who could see the row, and no later than its expiry; it is installed under the grant of that begin. |
| Authorizations.AuthorizationCompletes | src/motoro/services/mcp_service.py:1035-1180 | Left alone, a registration that is begun, called back in time and exchanged ends with its row holding the token, with nothing in flight. |
| Authorizations.ClearOutcome | src/motoro/services/mcp_service.py:1237-1277 | A clear takes effect exactly for those who may see the row; the one removes the OAuth material and the transaction, the other every credential. |
| Authorizations.ClearIsFinal | src/motoro/services/mcp_service.py:1106-1109 | Whatever was in flight, a cleared row has no OAuth material again until a new begin is persisted on it, and after a clear of everything no other credential until it is edited. |
| Refreshing.PersistentOAuthAuth.AsyncAuthFlow | src/motoro/mcp/oauth.py:85-125 | One request flow sends at most two requests: the first carries a valid token, the second exists exactly after a 401 and a forced refresh to a valid token. It fails exactly when no request got through; the error of a failed refresh is passed on as it is; and exactly a failure that asks for a new authorization marks the payload it ends with, once. |
| Refreshing.OnlySupersedingChangesMaterial | src/motoro/services/mcp_service.py:445-533 | Only a superseding transaction changes a row's connection material or removes the row. |
| Refreshing.RefreshOutcome | src/motoro/services/mcp_service.py:445-533 | What a refresh under the row lock answers, asks and stores, in the fields of the row: when it answers the stored payload, when it sends a request, the tokens it merges and their expiry, and what a failure leaves. |
| Refreshing.AuthorizationSurvives | src/motoro/services/mcp_service.py:519-533 | In any run a row keeps its grant, and a refresh token if it had one, until an installation or a clear: no refresh, edit or rejection loses them. |
| Refreshing.RivalChangesNothing | src/motoro/services/mcp_service.py:479-483 | A refresher or rejecter that saw another token than the valid current one changes nothing; a refresher gets the current payload without a request. |
| Refreshing.SingleFlight | src/motoro/services/mcp_service.py:454-483 | Once one refresher has committed a token other than the one its rivals saw, every later rival gets that payload without a request, and rejections of the old token leave the row alone, until something supersedes it. |
| Refreshing.RejectionHitsOnlyItsToken | src/motoro/services/mcp_service.py:542-549 | A rejection changes a row if and only if the row still holds the rejected token and does not require authorization yet; it then requires it, at the next revision. |
| Registry.MCPServerRegistry.Unregister | src/motoro/mcp/registry.py:220-236 | Removes exactly the entry of that id and closes its client if it was connected. |
| Registry.MCPServerRegistry.Register | src/motoro/mcp/registry.py:99-165 | Replaces the entry of an id unconditionally, connected or not. |
| Registry.MCPServerRegistry.EnsureRegistered | src/motoro/mcp/registry.py:167-218 | Keeps a connected entry that is at least as new as the row, and replaces any other. |
| Registry.MCPServerRegistry.GetAllTools | src/motoro/mcp/registry.py:313-342 | Lists every tool of every connected entry in scope, in order, and no other: with granted ids those entries, without them the system's and the asking owner's. |
| Registry.MCPServerRegistry.LookupTool | src/motoro/mcp/registry.py:263-311 | Both lookups, the scan for dotted names and the index for bare ones, return the first offered tool the name selects, from a connected entry in scope, and none only if no such entry has one. |
| Registry.HeadOfIndex | src/motoro/mcp/registry.py:296-311 | The first element of the bare-name index is the first selected tool of a linear search. |
| Registry.OfferedIff | src/motoro/mcp/registry.py:239-261 | A tool is offered if and only if a connected entry discovered it that has a granted id or, without granted ids, is a system entry or the asking owner's. |
| ToolScopes.FoundIff | src/motoro/mcp/registry.py:263-311 | A lookup finds the selected tool of the earliest connected entry in scope that has one. |
| ToolScopes.RegisteredOutcome | src/motoro/mcp/registry.py:99-165 | Registering leaves one entry for the server, the new one, connected if and only if its connect succeeded, and every other entry as it was. |
| ToolScopes.EnsuredOutcome | src/motoro/mcp/registry.py:167-218 | Ensuring keeps an entry if and only if it is connected and at least as new as the row. |
| ToolScopes.WithoutOne | src/motoro/mcp/registry.py:225-226 | Removing an entry leaves the others in their order. |
| ToolCalls.TablesAreTrace | src/motoro/services/mcp_service.py:593-600 | Every run of processes, registries and calls projects onto a run of the table. |
| Registry.SectionsKeepIds | src/motoro/mcp/registry.py:99-236 | Registration, with or without the newer-entry check, leaves at most one entry a server. |
| ToolCalls.RegistriesAlwaysOk | src/motoro/mcp/registry.py:99-236 | In every reachable state every process's registry has at most one entry a server. |
| ToolCalls.NextAgrees | src/motoro/mcp/registry.py:167-218 | Whatever interferes, every registry entry is the one its client was built for, and a synchronized call holds an entry no older than the row it read. |
| CallFreshness.CallOrigin | src/motoro/mcp/client.py:648-657 | The row a call carries was read after that call started. |
| CallFreshness.ClientOrigin | src/motoro/services/mcp_service.py:570-600 | Every client was built from material that the row had at some earlier moment, at the revision it names. |
| CallFreshness.SendUsesSyncedEntry | src/motoro/mcp/client.py:648-657 | A request leaves only through the entry that a synchronization inside the same call returned, with a revision at least the one that synchronization read, through a connected client. |
| CallFreshness.SendMaterialIsFresh | src/motoro/mcp/client.py:648-657 | A request leaves only through a connection whose name, transport, command, URL, headers, environment and OAuth payload the row had at some instant between the start of that call and the send. |
| CallFreshness.GoneNeverSends | src/motoro/services/mcp_service.py:593-600 | A call whose read found the row gone sends nothing at that step or at any later one of any run. |
| CallFreshness.GoneMeansUnregistered | src/motoro/services/mcp_service.py:597-599 | If the row is gone when the call reads it, the entry is unregistered and the call fails. |
| ToolScopes.OthersToolsStayHidden | src/motoro/mcp/registry.py:239-261 | In any run, a tool listed or resolved for an owner is one of a row that is, at every moment it exists, a system row or that owner's; without an owner, a system row. |
| ToolScopes.UndisturbedCallSends | src/motoro/mcp/client.py:648-657 | Left alone, a guarded call of a server whose row exists sends, at once or after one more round through the entry it brought up to date. |
| ToolNames.NameResolvesBackIff | src/motoro/mcp/adapters.py:532-552 | In a catalogue of distinguishable tools, the name chosen for a tool resolves back to exactly that tool if and only if the part the registry parses has no dot: the tool name for a bare choice, the server name for a qualified one. |
| ToolNames.UnsharedStaysBare | src/motoro/mcp/adapters.py:544-552 | A run offers a tool under its bare name if and only if no other of its tools has that bare name, and else under its qualified one. |
| ToolNames.NamesOfDescriptor | src/motoro/mcp/adapters.py:532-541 | Both names of a descriptor, also when its tool name still carries the server prefix. |
| ToolNames.ResolvableNamesAreDistinct | src/motoro/mcp/adapters.py:544-552 | Names that resolve back are pairwise distinct. |
| ToolNames.AllowedIdsOfferTheCatalogue | src/motoro/mcp/adapters.py:392-403 | Looking up within the ids of a run's descriptors searches exactly the run's catalogue. |
| ToolNames.CatalogueRoundTrip | src/motoro/mcp/adapters.py:369-433 | For the full catalogue of dot-free names, every chosen name resolves through the registry to the server and tool it came from, and that passes the allow-list. |
| ToolNames.ReachableRoundTrip | src/motoro/mcp/adapters.py:369-433 | The round trip holds in the registry of any process at any moment of any run, for any scope. |
| ToolNames.GrantIsExactOrRefused | src/motoro/mcp/adapters.py:369-433 | For a partial grant the chosen name resolves to the granted tool or is refused: it never reaches another granted tool by mistake. |
| ToolNames.GrantResolvesIff | src/motoro/mcp/adapters.py:369-433 | For a partial grant a name resolves to its tool if and only if it is qualified or no earlier tool on offer has its bare name. |
| ToolNames.GrantCanBeHidden | src/motoro/mcp/adapters.py:544-552 | Such a refusal exists: a bare name on an earlier server hides the granted one. |
| ToolNames.Sanitized | src/motoro/mcp/adapters.py:520-529 | A sanitised name has 1 to 64 legal characters, and is unchanged if and only if it was legal. |
| ToolNames.RewritingKeeps | src/motoro/mcp/adapters.py:520-529 | A rewritten name is the first 55 characters, each illegal one an underscore, and the digest. |
| ToolNames.SanitizedCollision | src/motoro/mcp/adapters.py:520-529 | Exactly when two names share a provider name. |
| ToolNames.RewrittenNamesCollide | src/motoro/mcp/adapters.py:509-529 | Every rewritten name collides with some other name, so distinctness of rewritten names, which a comment claims, does not hold. |
| ToolNames.BuildNameMap | src/motoro/mcp/adapters.py:593-605 | The loop maps every provider name to the last dispatch name that has it. |
| ToolNames.DispatchByProviderName | src/motoro/mcp/adapters.py:593-605 | When sanitised names do not collide, the provider's name leads back to the server and tool it came from. |
| PromptFence.ScannerIsExact | src/motoro/security/prompt_injection.py:73-83 | The left-to-right scanner finds a tag of length n if and only if those n characters are in the language of the pattern, so a match is determined by where it starts. |
| PromptFence.AnyCaseIsTag | src/motoro/security/prompt_injection.py:73-83 | A delimiter whose name is in any case, or has the long s for an S, is a tag too. |
| PromptFence.DefusedIsTagless | src/motoro/security/prompt_injection.py:90-106 | For every text, no substring of the defused text is a tag of a removed kind. |
| PromptFence.UntouchedIff | src/motoro/security/prompt_injection.py:90-91 | A text is left alone if and only if no substring of it is such a tag. |
| PromptFence.FirstTagIsReplaced | src/motoro/security/prompt_injection.py:90-91 | Substitution copies what is before the first tag, replaces the tag by a marker that names it, and goes on behind it. |
| PromptFence.NeutralizeIsIdempotent | src/motoro/security/prompt_injection.py:94-106 | Neutralising twice is neutralising once. |
| PromptFence.FenceIsClosedOnce | src/motoro/security/prompt_injection.py:109-149 | For every text, the substrings of the fenced text that are tags of its own kind are exactly its first line and its last line. |
| PromptFence.FenceTags | src/motoro/security/prompt_injection.py:109-149 | The tags of its own kind in a fenced text are its opening and its closing tag, in that order. |
| PromptFence.NestedFencesHold | src/motoro/security/prompt_injection.py:109-149 | An output fenced for a downstream agent, inside a prompt that is fenced as user data: whatever the output says, the result has the two delimiters of each pair and no other. |
| PromptFence.NoNewTag | src/motoro/security/prompt_injection.py:90-91 | Substitution makes no tag: one at the start of the output was at the start of the input. |
| PromptFence.OtherTagsSurvive | src/motoro/security/prompt_injection.py:109-115 | Defusing one kind keeps every tag of the other kind, in order and as it was written. |
| PromptFence.FenceKeepsOthers | src/motoro/security/prompt_injection.py:109-149 | A fenced text has the other kind's tags of the text inside, and no more. |
| PromptFence.NeutralizeIsEachInTurn | src/motoro/security/prompt_injection.py:86-106 | One pass over both kinds is one pass for each, in either order. |
| EmbeddingCache.LastUsesAreTheElements | src/motoro/memory/embedding.py:290-295 | The order of last use lists the distinct keys of a history, each once. |
| EmbeddingCache.UsesAfter | src/motoro/memory/embedding.py:290-295 | A key stands right before the distinct keys used after its own last use. |
| EmbeddingCache.CachedIff | src/motoro/memory/embedding.py:290-295 | A key is cached if and only if fewer than 2048 distinct keys were used since its own last use. |
| EmbeddingCache.BoundedMove | src/motoro/memory/embedding.py:290-295 | Evicting from the bounded order is bounding the unbounded one. |
| EmbeddingCache.EmbeddingService.MoveToEnd | src/motoro/memory/embedding.py:109-112 | A hit is the newest use of its key, and the cache still equals the last 2048 distinct keys of the history, each with its plain embedding. |
| EmbeddingCache.EmbeddingService.PutCache | src/motoro/memory/embedding.py:290-295 | Insertion, move and eviction keep the cache equal to the last 2048 distinct keys of the history, each with its plain embedding. |
| EmbeddingCache.EmbeddingService.Embed | src/motoro/memory/embedding.py:103-118 | The answer is the plain embedding, hit or miss; it fails exactly when the text is not cached and the in-process model fails, or all three attempts at a remote one; and then the cache is as before. |
| EmbeddingCache.EmbeddingService.EmbedRemote | src/motoro/memory/embedding.py:202-222 | Succeeds exactly when one of three attempts does. |
| EmbeddingCache.ChunksFlatten | src/motoro/memory/embedding.py:233-239 | Chunking neither loses nor repeats nor reorders a text. |
| EmbeddingCache.EmbeddingService.EmbedRemoteBatch | src/motoro/memory/embedding.py:224-257 | Sends a prefix of the chunks, each answered within three attempts, and succeeds exactly when that is all of them; a chunk size of zero raises and a negative one sends nothing. |
| EmbeddingCache.EmbeddingService.LookUpBatch | src/motoro/memory/embedding.py:135-144 | The first pass answers the hits, moves them in order, and records the positions of each uncached key. |
| EmbeddingCache.EmbeddingService.EmbedBatch | src/motoro/memory/embedding.py:120-162 | The result is the element-by-element plain embedding for any duplicates, hits, evictions on the way and chunk size; it fails exactly when the in-process model does, or three attempts for some chunk, or the chunk size is not positive; the uses are the hits in order and then the misses; the backend got each uncached text once; a failed batch has moved its hits and stored nothing; and up to 2048 distinct texts are all cached afterwards. |
| EmbeddingCache.AskedOnce | src/motoro/memory/embedding.py:146-147 | The texts a batch asks for are its uncached texts, each once. |
| EmbeddingCache.KeysAgreeIff | src/motoro/memory/embedding.py:282-288 | Keys agree if and only if text, model, tenant and agent do. |
| EmbeddingCache.UsesOfBatch | src/motoro/memory/embedding.py:135-144 | A cached key of a batch is used as often as the batch has it. |
| EmbeddingCache.BatchIsCached | src/motoro/memory/embedding.py:120-162 | A batch of at most 2048 distinct texts leaves every one of them cached. |
| Mmr.GreedyIsUnique | src/motoro/memory/semantic.py:253-271 | The greedy condition with ties to the earliest row leaves no choice. |
| Mmr.GreedyIsDistinct | src/motoro/memory/semantic.py:253-271 | A selection names rows, each once. |
| Mmr.Redundancy | src/motoro/memory/semantic.py:260-262 | Redundancy is the greatest similarity to a selected row, or 0 when there is none. |
| Mmr.BeatsIff | src/motoro/memory/semantic.py:257-266 | One row comes before another if and only if its gain in relevance, weighted, outweighs what it adds in redundancy, weighted the other way, or they balance and it stands earlier. |
| Mmr.DiverseComesFirst | src/motoro/memory/semantic.py:257-266 | Of two equally relevant rows the less redundant comes first under any weight below 1; of two equally redundant the more relevant under any weight above 0. |
| Mmr.BestRemaining | src/motoro/memory/semantic.py:257-266 | The inner loop finds the row that comes before every other remaining row. |
| Mmr.SelectRows | src/motoro/memory/semantic.py:250-271 | Returns min(k, n) rows, each the next one after those before it. |
| Mmr.PureRelevanceIsSorted | src/motoro/memory/semantic.py:134-140 | With weight 1 the selection is the front of a stable sort by descending relevance. |
| Mmr.PureRelevanceIsPrefix | src/motoro/memory/semantic.py:134-140 | With weight 1, on rows in descending order, the selection is the first rows. |
| Mmr.ApplyMmr | src/motoro/memory/semantic.py:234-273 | The selected rows, each with its own similarity to the query. |
| Mmr.Search | src/motoro/memory/semantic.py:199-220 | With a weight, a search returns the greedy selection among four times as many candidates, each with its recomputed similarity; with weight 1 that is exactly what a search without re-ranking returns. |
| WorkingMemory.ToCompress | src/motoro/memory/working.py:253-257 | Compresses a prefix of the entries in time order, only over budget and with a summariser: half of them rounded up, never the newest one, and at least one when there are two. |
| SlidingWindow.NextKeepsInv | src/motoro/memory/working.py:190-260 | Every command of every writer, and an expiry of the lock at any time, keeps the window invariant. |
| SlidingWindow.NewEntriesStay | src/motoro/memory/working.py:246-251 | In every interleaving, an entry stays in the hash while fewer than a window of other entries are not older than it. |
| SlidingWindow.NewestWindowStays | src/motoro/memory/working.py:246-251 | With distinct timestamps the newest min(window, total) entries are always in the hash, even when passes overlap. |
| SlidingWindow.SizeIsBounded | src/motoro/memory/working.py:246-251 | The hash never holds more than a window of entries and those stored since the snapshot of any completed pass. |
| Summaries.ExclusiveStep | src/motoro/memory/working.py:190-235 | While the lock does not expire, one call at a time is past it and the lock carries its token. |
| Summaries.NextKeepsInv | src/motoro/memory/working.py:253-287 | Every command keeps the accounts: each stored entry is live, below a summary, or in the hands of the one pass under way. |
| Summaries.RootIsUnique | src/motoro/memory/working.py:265-283 | Two ways up the provenance of an entry to entries without a parent end at the same one. |
| Summaries.EverythingIsKept | src/motoro/memory/working.py:253-289 | In every run without lock expiry, whenever no pass is between its first deletion and its summary, every entry ever stored is live or below one live summary and no other, including when summarisers raise. |
| Summaries.PassDoesNotGrow | src/motoro/memory/working.py:253-287 | From its snapshot to its end a pass leaves at most as many entries as it found and others added meanwhile. |
| Summaries.UnlockFreesOwnLock | src/motoro/memory/working.py:215-235 | Without lock expiry a call only ever deletes its own lock. |
| Summaries.UnlockDeletesComparedLockIff | src/motoro/memory/working.py:215-235 | In any run, the lock that a release deletes is the one it compared if and only if, between the comparison and the deletion, that lock neither expired nor was deleted by another call; otherwise there is no lock, or one that another call took in between. It is a lock with another token if and only if a process with that token took it in between, and the lock the call took itself if and only if that was never lost. |
| Summaries.ReleaseCanFreeAnothersLock | src/motoro/memory/working.py:215-229 | Such a run exists: nine commands from the empty store, in which the lock expires after the comparison, another process takes it, and the deletion frees it while its owner is past it. |
| MemoryPasses.WorkingMemoryManager.AcquireLock | src/motoro/memory/working.py:190-213 | Takes a free lock; on a held one gives up after three attempts and changes nothing. |
| MemoryPasses.GivesUpAtTheThird | src/motoro/memory/working.py:190-213 | A call that finds the lock held waits twice and gives up at the third attempt. |
| MemoryPasses.TotalIsTogether | src/motoro/memory/working.py:254 | The total of any listing of a hash is the sum of its entries' tokens, in whatever order they are added. |
| MemoryPasses.CompressesIff | src/motoro/memory/working.py:253-257 | A pass compresses if and only if the entries of the hash have more tokens together than the budget, there are two or more, and they can be summarised; and then their older half, rounded up. |
| MemoryPasses.WorkingMemoryManager.GetEntries | src/motoro/memory/working.py:167-172 | Every entry of the hash, once, oldest first. |
| MemoryPasses.WorkingMemoryManager.ReleaseLock | src/motoro/memory/working.py:215-235 | Frees the lock if and only if it carries this call's token. |
| MemoryPasses.WorkingMemoryManager.RunPass | src/motoro/memory/working.py:246-287 | An uninterrupted pass of atomic commands leaves the hash that AfterPass describes. |
| MemoryPasses.WorkingMemoryManager.ApplyStrategy | src/motoro/memory/working.py:237-289 | Nothing happens if another call holds the lock; otherwise one pass runs and the lock is free again, even if the summariser raised. Under a token budget the pass compresses exactly if the entries' tokens together exceed it, there are two or more and they can be summarised, to half of them and the summary; otherwise it leaves the hash alone. |
| MemoryPasses.WorkingMemoryManager.AddEntry | src/motoro/memory/working.py:140-165 | Stores the entry whether or not the lock is free, then runs a pass, which decides by the tokens of all entries, the new one included. |
| MemoryPasses.SlidingPassKeepsWindow | src/motoro/memory/working.py:246-251 | An uninterrupted pass keeps exactly the newest entries, a window of them. |
| MemoryPasses.SummarisingPassKeepsAll | src/motoro/memory/working.py:253-287 | An uninterrupted pass does not leave more entries than it found, and every one of them is live or a source of the summary. |
| RunSnapshots.HistoryIsNewest | src/motoro/engine/context.py:170-199 | Over the records of any number of iterations, trimming at every record keeps what trimming once at the end would, the newest entries of all that were recorded, each with its iteration; and every phase keeps its last output. |
| RunSnapshots.SnapshotRoundTrip | src/motoro/engine/context.py:201-300 | A snapshot is read back and written again unchanged if and only if it has no entry for the runtime. |
| RunSnapshots.RestoredIsSame | src/motoro/engine/context.py:201-300 | A restored context cannot be told from the original by another pause. |
| RunSnapshots.RestoredExactlyIff | src/motoro/engine/context.py:213-300 | A restored context is the original if and only if it had no API key, nothing of this process, and only JSON metadata without the runtime's entry. |
| RunSnapshots.RunContext.AddLlmUsage | src/motoro/engine/context.py:139-154 | Adds one call's tokens and cost and changes nothing else. |
| RunSnapshots.RunContext.UpdatePhaseOutput | src/motoro/engine/context.py:156-168 | Swaps an output without touching the history. |
| RunSnapshots.RunContext.RecordPhaseOutput | src/motoro/engine/context.py:170-199 | Keeps the output, and the newest entries of the history with the new one. |
| AgentLoop.StartedAfterStart | src/motoro/engine/runtime.py:270-281 | Skill bodies are folded into the prompt once: starting a started context changes nothing. |
| AgentLoop.AgentRuntime.ExecutePhase | src/motoro/engine/runtime.py:513-650 | Books usage and output, or the error, and records one step either way. |
| AgentLoop.AgentRuntime.BeginRun | src/motoro/engine/runtime.py:258-281 | Injects the live objects, and the skill bodies unless a snapshot brought them. |
| AgentLoop.AgentRuntime.TakeTurn | src/motoro/engine/runtime.py:319-378 | One turn of the inner loop with its exits: interrupt, limit, failure, complete plan, finished act. |
| AgentLoop.AgentRuntime.Run | src/motoro/engine/runtime.py:304-389 | The nested loops with their early exits compute the run that Segment describes, from any phase of any iteration. |
| AgentLoop.StepsInOrder | src/motoro/engine/runtime.py:304-389 | Phases run in order, iteration after iteration; an interrupt found at the k-th check leaves at most k steps; an exhausted run has executed every phase of every iteration. |
| RunEndings.PhaseRunsIff | src/motoro/engine/runtime.py:319-343 | A phase is executed if and only if no interrupt is found and no limit exceeded; an interrupt comes first, and neither changes the context. |
| RunEndings.LoopEnds | src/motoro/engine/runtime.py:304-389 | How every run ends, from its steps and signals alone: the first signal found, the limit, the failed step, the complete plan, the act that finished, or exhaustion decides status, answer, error and snapshot; and no step before the last is one that stops a run. |
| RunEndings.SegmentEnds | src/motoro/engine/runtime.py:218-445 | One call of run ends so, and counts its iterations in the metadata afterwards. |
| RunEndings.InputsAreOutputs | src/motoro/engine/runtime.py:513-650 | In every run of phases that leave the outputs to the loop, each phase is handed what the one before it returned, for the act phase with the plan's tools checked. |
| RunEndings.PlansNameKnownTools | src/motoro/engine/runtime.py:697-742 | A planned tool that the run does not have is cleared with its arguments, and no other step of a plan changes. |
| RunEndings.SkillsAreFoldedOnce | src/motoro/engine/runtime.py:270-281 | Over a whole run with any pauses, the bodies of the selected skills are folded into the prompt once, and not at all if they were there or there are none. |
| RunEndings.UsageIsTotalled | src/motoro/engine/runtime.py:513-650 | A run has spent what it had spent before and the usage of each of its steps, once. |
| RunEndings.StartOutcome | src/motoro/engine/runtime.py:258-281 | Starting a run injects this process's live objects, bills the selection of its skills if there is one, and changes nothing else of its state. |
| RunEndings.WholeIsTotalled | src/motoro/engine/runtime.py:218-445 | However often it is paused and resumed, a run has spent what it had spent, the selection of its skills once, and the usage of each of its steps once. |
| RunEndings.HistoryIsOfTheSteps | src/motoro/engine/runtime.py:513-650 | The history of a run is the newest of what there was and the summaries of its successful steps, each with its phase and iteration. |
| PauseResume.TurnsAgree | src/motoro/engine/runtime.py:319-378 | Two contexts that a pause cannot tell apart take the same turn. |
| PauseResume.RestoredIsReady | src/motoro/engine/runtime.py:242-281 | A restored context starts at the same place without folding the skills in again. |
| PauseResume.PausingIsInvisible | src/motoro/engine/runtime.py:218-445 | Pausing before any phase any number of times, and resuming each time from the snapshot at that phase, gives the same steps, outputs, bounded history, usage, status, error, prompt and answer as the unpaused run; only a run stopped by a resource limit may have forgotten its last answer. |
| LastAnswers.LimitAnswersLast | src/motoro/engine/runtime.py:334-343 | A run that a resource limit stops answers with the last answer of its act phase, or with the one it started with. |
| LastAnswers.AnswerIsKeptIff | src/motoro/engine/runtime.py:334-343 | A paused run gives the answer of the unpaused run if and only if no limit stops it, or the act phase has answered since the last resume, or what it had answered before is empty. |
| LastAnswers.LimitAfterPauseForgets | src/motoro/engine/runtime.py:334-343 | A run of faithful phases from a new context, paused once, that gives no answer although the unpaused run gives one. |
| RunConfig.Precedence | src/motoro/services/run_config.py:37-48 | A model override wins over any other model setting, a pinned field wins over the agent and over the pattern override, and the pattern override applies when the pattern is not pinned. |
| RunConfig.Inheritance | src/motoro/services/run_config.py:37-48 | What the run's snapshot does not pin is the agent's: each field as the agent has it, each model setting as the agent's model has it or its default, but for the run's own overrides. |
| RunConfig.ResolvesIff | src/motoro/services/run_config.py:37-48 | An execution has settings if and only if its model settings are an object or absent and every value, pinned, inherited or overriding, is valid. |
| RunConfig.PinnedIgnoresAgent | src/motoro/services/run_config.py:37-41 | A fully pinned run does not look at the agent. |
| RunConfig.LaterConfig | src/motoro/services/run_config.py:26-54 | After the first execution recorded its settings, an execution under any later agent has the same settings, down to API keys that were not the run's own overrides. |
| RunConfig.LaterConfigIsFirstIff | src/motoro/services/run_config.py:44-54 | Later settings equal the first ones if and only if every key in use, also those of fallback models, is an override of the run or absent. |
| RunConfig.EditsDoNotReachARun | src/motoro/runner.py:731-735 | However the agent is edited between executions, every execution after the first uses the same settings. |
| RunConfig.CreatedPinned | src/motoro/runner.py:411-426 | A run created with a snapshot never looks at the agent again and ignores its pattern overrides. |
| RunConfig.CreatedCaptures | src/motoro/runner.py:411-426 | What it captured: the fields it was created with, and for the others those of the agent at that moment. |
| RunConfig.CreatedWithoutOverrides | src/motoro/runner.py:411-426 | It captures nothing of the run's own overrides, and without a snapshot creation captures nothing at all. |
| RunConfig.AgentRun.ExecuteRun | src/motoro/runner.py:726-809 | Settings are recorded the first time only; a paused run keeps the state to resume from, any other run is over and keeps none; settings that do not validate change nothing. |

## Left out

- HTTP discovery, dynamic client registration, metadata parsing, redirect and endpoint validation, and
  revocation requests: a begin's and a callback's network results are parameters.
- `oauth_authorization_required` as an exact status: connection outcomes also set it, outside the
  protocol (`Protocol.Step.RecordOutcome`), so nothing is claimed about when it is set.
- Transport lifetime, reconnection after a broken pipe and leaks of clients: a registry's connected set
  changes arbitrarily between steps, and only clients flagged connected are disconnected.
- Monotone revisions of registry entries: `register` may install an older one; the guarantee is at call time.
- Refreshing.SingleFlight: is stated while the current token stays valid, as the code promises it; when it
  has expired a rival refreshes again.
- Mmr.Search: takes the cosine similarity and the embedding of a row as parameters, so rounding is not modelled.
- PromptFence.ScannerIsExact: models case-insensitive matching of the two tag names and Unicode white space
  only, which is all the pattern uses.
- Summaries.EverythingIsKept: says nothing about a store error or a crash between the first deletion and
  the summary, which loses entries, nor about lock expiry during a pass.
- Expiry and clean-up of the working-memory hash, token estimates and the summariser's prompt.
- MemoryPasses.WorkingMemoryManager.ApplyStrategy: runs without interference; the interleavings are
  those of `SlidingWindow` and `Summaries`.
- PauseResume.PausingIsInvisible: covers the bare loop without working memory and episodic memory; step
  sequence numbers restart at zero in a resumed run and are not part of a step here, nor is the retry note
  that patterns put into a step's input.
- The text of inlined skills, the selection of skills by a model and the names valid in a plan are parameters.
- The pattern orchestrator, composition, catalogue, metrics, tracing, pricing, sampling, allow-lists for
  commands and addresses, and the schemas of requests.
- `format_tool_for_prompt` and argument validation of tool calls: single-branch formatting and checks.
