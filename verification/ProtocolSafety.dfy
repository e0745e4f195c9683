/** What holds over every trace of the registration table, whatever the interleaving. */
module ProtocolSafety {
  import opened Basics
  import opened ServerRow
  import opened Protocol

  ghost predicate IsTrace(states: seq<State>, steps: seq<Step>) {
    && |states| == |steps| + 1
    && Init(states[0])
    && forall k | 0 <= k < |steps| :: Enabled(states[k], steps[k]) && states[k + 1] == Next(states[k], steps[k])
  }

  lemma {:induction false} InvAlways(states: seq<State>, steps: seq<Step>, k: nat)
    requires IsTrace(states, steps) && k < |states|
    ensures Inv(states[k])
  {
    hide Next, Enabled;
    if k > 0 {
      InvAlways(states, steps, k - 1);
      assert states[k - 1 + 1] == Next(states[k - 1], steps[k - 1]);
      NextKeepsInv(states[k - 1], steps[k - 1]);
    }
  }

  // ----- rows ---------------------------------------------------------------------

  /** No reachable row mixes credentials that its transport or its other credentials exclude. */
  lemma CredentialsNeverMix(states: seq<State>, steps: seq<Step>, k: nat, id: nat)
    requires IsTrace(states, steps) && k < |states| && id in states[k].db
    ensures var row := states[k].db[id];
      && (row.oauth.Some? ==>
            && row.transport == Http && row.headers == None && row.env == None
            && row.oauth.value.grant.serverId == id && row.url == Some(row.oauth.value.grant.serverUrl))
      && (row.headers.Some? ==> row.transport in {Http, Sse})
      && (row.env.Some? ==> row.transport == Stdio)
      && (row.pending.Some? ==> row.headers == None)
      && (row.stateHash.Some? ==> row.pending.Some? && row.pending.value.claim == None
                                  && row.stateHash.value == Sha256(row.pending.value.state))
  {
    InvAlways(states, steps, k);
    assert RowOk(states[k].db[id]);
  }

  /** The rows a by-name lookup returns: ownerless ones without an owner, else the owner's and the system's. */
  predicate NameLookup(row: Row, name: string, owner: Option<nat>) {
    row.name == name && (row.owner == owner || (owner.Some? && row.isSystem))
  }

  lemma NameLookupIsUnique(states: seq<State>, steps: seq<Step>, k: nat, name: string, owner: Option<nat>, a: nat, b: nat)
    requires IsTrace(states, steps) && k < |states| && a in states[k].db && b in states[k].db
    requires NameLookup(states[k].db[a], name, owner) && NameLookup(states[k].db[b], name, owner)
    ensures a == b
  {
    InvAlways(states, steps, k);
    assert NamesOk(states[k].db);
  }

  lemma StateLookupIsUnique(states: seq<State>, steps: seq<Step>, k: nat, state: string, a: nat, b: nat)
    requires IsTrace(states, steps) && k < |states| && a in states[k].db && b in states[k].db
    requires Matches(states[k].db[a], state, None) && Matches(states[k].db[b], state, None)
    ensures a == b
  {
    InvAlways(states, steps, k);
    assert StatesOk(states[k]);
  }

  // ----- revisions ------------------------------------------------------------------

  /** A row of one owner is at least as new as before, and unchanged in material if its revision is. */
  ghost predicate NoOlder(before: Row, after: Row) {
    && before.revision <= after.revision && after.owner == before.owner && after.isSystem == before.isSystem
    && (before.revision == after.revision ==> MaterialOf(before) == MaterialOf(after))
  }

  lemma RewritesAreNoOlder(s: State, step: Step)
    requires Rewritten(s, step).Some?
    ensures step.id in s.db && NoOlder(s.db[step.id], Rewritten(s, step).value)
  {
  }

  lemma TransactionIsNoOlder(s: State, step: Step, id: nat)
    requires RowsOk(s) && CallbacksOk(s) && Enabled(s, step)
    requires step.Update? || step.PersistBegin? || step.ClaimCallback? || step.InstallToken?
    ensures s.usedIds <= Next(s, step).usedIds && Next(s, step).db.Keys == s.db.Keys
    ensures id in s.db ==> NoOlder(s.db[id], Next(s, step).db[id])
  {
    hide NameTaken, UpdateRow, BeginPersist, Install, ClaimResult, RowOk;
    if step.ClaimCallback? && !ClaimResult(s, step).Refused? {
      ClaimIsNoOlder(s, step);
    }
  }

  lemma ClaimIsNoOlder(s: State, step: Step)
    requires step.ClaimCallback? && !ClaimResult(s, step).Refused?
    ensures step.id in s.db && NoOlder(s.db[step.id], ClaimResult(s, step).row)
  {
  }

  lemma RewriteIsNoOlder(s: State, step: Step, id: nat)
    requires Enabled(s, step)
    requires step.RefreshToken? || step.MarkRequired? || step.ClearOAuthOf? || step.ClearAllOf? || step.RecordOutcome?
    ensures s.usedIds <= Next(s, step).usedIds && Next(s, step).db.Keys == s.db.Keys
    ensures id in s.db ==> NoOlder(s.db[id], Next(s, step).db[id])
  {
    hide Rewritten;
    if Rewritten(s, step).Some? {
      RewritesAreNoOlder(s, step);
    }
  }

  lemma NextIsNoOlder(s: State, step: Step, id: nat)
    requires RowsOk(s) && CallbacksOk(s) && Enabled(s, step)
    ensures s.usedIds <= Next(s, step).usedIds
    ensures id in s.usedIds && id !in s.db ==> id !in Next(s, step).db
    ensures id in s.db && id in Next(s, step).db ==> NoOlder(s.db[id], Next(s, step).db[id])
  {
    if step.Update? || step.PersistBegin? || step.ClaimCallback? || step.InstallToken? {
      hide Next, Enabled;
      TransactionIsNoOlder(s, step, id);
    } else if step.RefreshToken? || step.MarkRequired? || step.ClearOAuthOf? || step.ClearAllOf? || step.RecordOutcome? {
      hide Next, Enabled;
      RewriteIsNoOlder(s, step, id);
    }
  }

  /** One step of a trace, as seen by one row. */
  lemma TraceStepIsNoOlder(states: seq<State>, steps: seq<Step>, k: nat, id: nat)
    requires IsTrace(states, steps) && k < |steps|
    ensures id in states[k].db ==> id in states[k].usedIds
    ensures id in states[k].usedIds ==> id in states[k + 1].usedIds
    ensures id in states[k].usedIds && id !in states[k].db ==> id !in states[k + 1].db
    ensures id in states[k].db && id in states[k + 1].db ==> NoOlder(states[k].db[id], states[k + 1].db[id])
  {
    hide Inv, Next, Enabled;
    InvAlways(states, steps, k);
    InvParts(states[k]);
    assert states[k + 1] == Next(states[k], steps[k]);
    NextIsNoOlder(states[k], steps[k], id);
  }

  lemma {:induction false} UsedIdsOnlyGrow(states: seq<State>, steps: seq<Step>, i: nat, j: nat, id: nat)
    requires IsTrace(states, steps) && i <= j < |states| && id in states[i].db
    ensures id in states[j].usedIds
  {
    hide Next, Enabled, Init;
    if i < j {
      UsedIdsOnlyGrow(states, steps, i, j - 1, id);
      TraceStepIsNoOlder(states, steps, j - 1, id);
    } else {
      InvAlways(states, steps, i);
    }
  }

  /** A registration id is never used again: between two sightings of a row it is never gone. */
  lemma {:induction false} PresentBetween(states: seq<State>, steps: seq<Step>, i: nat, k: nat, j: nat, id: nat)
    requires IsTrace(states, steps) && i <= k <= j < |states|
    requires id in states[i].db && id in states[j].db
    ensures id in states[k].db
    decreases j - k
  {
    hide Next, Enabled, Init;
    if k < j {
      PresentBetween(states, steps, i, k + 1, j, id);
      UsedIdsOnlyGrow(states, steps, i, k, id);
      TraceStepIsNoOlder(states, steps, k, id);
    }
  }

  lemma {:induction false} RevisionsOnlyGrow(states: seq<State>, steps: seq<Step>, i: nat, j: nat, id: nat)
    requires IsTrace(states, steps) && i <= j < |states|
    requires id in states[i].db && id in states[j].db
    ensures NoOlder(states[i].db[id], states[j].db[id])
  {
    hide Next, Enabled, Init, MaterialOf;
    if i < j {
      PresentBetween(states, steps, i, j - 1, j, id);
      RevisionsOnlyGrow(states, steps, i, j - 1, id);
      TraceStepIsNoOlder(states, steps, j - 1, id);
    }
  }

  /** A revision names one connection material: equal revisions of a row carry equal material. */
  lemma RevisionNamesMaterial(states: seq<State>, steps: seq<Step>, i: nat, j: nat, id: nat)
    requires IsTrace(states, steps) && i <= j < |states|
    requires id in states[i].db && id in states[j].db
    ensures states[i].db[id].revision <= states[j].db[id].revision
    ensures states[i].db[id].revision == states[j].db[id].revision
            ==> MaterialOf(states[i].db[id]) == MaterialOf(states[j].db[id])
  {
    RevisionsOnlyGrow(states, steps, i, j, id);
  }

  // ----- callbacks -------------------------------------------------------------------

  ghost predicate Claims(s: State, step: Step) {
    step.ClaimCallback? && ClaimResult(s, step).Claimed?
  }

  ghost predicate Installs(s: State, step: Step) {
    step.InstallToken? && step.claim in s.callbacks && InstallResult(s, step).Ok?
  }

  /** Steps on a row that an authorization already being exchanged must not undo. */
  ghost predicate Supersedes(s: State, step: Step, id: nat) {
    match step
    case Update(i, e, admitted) => i == id && UpdateResult(s, i, e, admitted).Ok?
    case PersistBegin(b, p) => b in s.begins && s.begins[b].id == id && BeginPersist(Find(s.db, id), s.begins[b].owner, p).Ok?
    case InstallToken(c, _, _) => Installs(s, step) && s.callbacks[c].id == id
    case RefreshToken(i, _, _, _, _, _, _) => i == id && RefreshResult(s, step).requests == 1 && RefreshResult(s, step).reply.Ok?
    case MarkRequired(i, o) => i == id && i in s.db && Mark(Find(s.db, i), o) != Find(s.db, i)
    case ClearOAuthOf(i, owner) => i == id && i in s.db && VisibleTo(s.db[i], owner)
    case ClearAllOf(i, owner) => i == id && i in s.db && VisibleTo(s.db[i], owner)
    case Delete(i) => i == id
    case _ => false
  }

  lemma SupersedingBumps(s: State, step: Step, id: nat)
    requires Inv(s) && Enabled(s, step) && id in s.db && Supersedes(s, step, id) && id in Next(s, step).db
    ensures s.db[id].revision < Next(s, step).db[id].revision
  {
  }

  /** The step is the claim that put this callback in flight. */
  ghost predicate Began(s: State, step: Step, c: nat, cb: Callback) {
    && Claims(s, step) && step.claim == c
    && var res := ClaimResult(s, step);
       && res.pending.state == step.state && step.id in s.db
       && res.row.revision == res.expectedRevision == s.db[step.id].revision
       && MaterialOf(res.row) == MaterialOf(s.db[step.id])
       && cb == Callback(step.id, res.pending, res.expectedRevision)
  }

  /** A callback was in flight before the step, as it is now, or the step is the claim that began it. */
  lemma CallbackStep(s: State, step: Step, c: nat)
    requires RowsOk(s) && CallbacksOk(s) && Enabled(s, step) && c in Next(s, step).callbacks
    ensures c in s.callbacks ==> Next(s, step).callbacks[c] == s.callbacks[c]
    ensures c !in s.callbacks ==> Began(s, step, c, Next(s, step).callbacks[c])
    ensures c !in s.callbacks ==> Next(s, step).db == s.db[step.id := ClaimResult(s, step).row]
  {
  }

  /** A callback in flight was put there by a successful claim, and has not changed since. */
  lemma {:induction false} CallbackOrigin(states: seq<State>, steps: seq<Step>, k: nat, c: nat) returns (i: nat)
    requires IsTrace(states, steps) && k < |states| && c in states[k].callbacks
    ensures i < k && Began(states[i], steps[i], c, states[k].callbacks[c])
    ensures states[i + 1].db == states[i].db[steps[i].id := ClaimResult(states[i], steps[i]).row]
  {
    hide Next, Began, Inv, Enabled;
    if k > 0 {
      InvAlways(states, steps, k - 1);
      InvParts(states[k - 1]);
      assert states[k - 1 + 1] == Next(states[k - 1], steps[k - 1]);
      CallbackStep(states[k - 1], steps[k - 1], c);
      if c in states[k - 1].callbacks {
        i := CallbackOrigin(states, steps, k - 1, c);
      } else {
        i := k - 1;
      }
    }
  }

  lemma InvParts(s: State)
    requires Inv(s)
    ensures RowsOk(s) && CallbacksOk(s)
  {
  }

  /** An installation finds the revision that the claim recorded, and replaces the OAuth payload. */
  lemma InstallStep(s: State, step: Step)
    requires RowsOk(s) && CallbacksOk(s) && Enabled(s, step) && Installs(s, step)
    ensures var cb := s.callbacks[step.claim];
      && cb.id in s.db && s.db[cb.id].revision == cb.expectedRevision
      && cb.id in Next(s, step).db
      && Next(s, step).db[cb.id].oauth.Some? && Next(s, step).db[cb.id].oauth.value.token == step.token
      && MaterialOf(Next(s, step).db[cb.id]).(oauth := None) == MaterialOf(s.db[cb.id]).(oauth := None)
  {
  }

  /** Between two sightings of a row at one revision, the row is there at that revision and its material stays. */
  lemma SteadyBetween(states: seq<State>, steps: seq<Step>, i: nat, k: nat, j: nat, id: nat)
    requires IsTrace(states, steps) && i <= k <= j < |states| && id in states[i].db && id in states[j].db
    requires states[i].db[id].revision == states[j].db[id].revision
    ensures id in states[k].db && states[k].db[id].revision == states[i].db[id].revision
    ensures MaterialOf(states[k].db[id]) == MaterialOf(states[i].db[id])
  {
    hide Inv, Next, Enabled;
    PresentBetween(states, steps, i, k, j, id);
    RevisionsOnlyGrow(states, steps, i, k, id);
    RevisionsOnlyGrow(states, steps, k, j, id);
  }

  lemma SteadyMeansNotSuperseded(states: seq<State>, steps: seq<Step>, k: nat, id: nat)
    requires IsTrace(states, steps) && k < |steps| && id in states[k].db && id in states[k + 1].db
    requires states[k].db[id].revision == states[k + 1].db[id].revision
    ensures !Supersedes(states[k], steps[k], id)
  {
    hide Inv, Next, Enabled, Supersedes;
    InvAlways(states, steps, k);
    assert states[k + 1] == Next(states[k], steps[k]);
    if Supersedes(states[k], steps[k], id) {
      SupersedingBumps(states[k], steps[k], id);
    }
  }

  /**
   A token is installed only if nothing bumped the row's revision since the claim: the row was there
   throughout, at the revision that was claimed. In particular no edit, clear, newer begin, rotation,
   rejection, other installation or deletion committed in between, and the installation changes no
   connection material but the OAuth payload.
   */
  lemma InstallUndoesNothing(states: seq<State>, steps: seq<Step>, j: nat) returns (i: nat, id: nat)
    requires IsTrace(states, steps) && j < |steps| && Installs(states[j], steps[j])
    ensures i < j && Claims(states[i], steps[i]) && steps[i].claim == steps[j].claim && steps[i].id == id
    ensures id in states[i].db && id in states[j + 1].db
    ensures forall k | i < k <= j :: id in states[k].db && states[k].db[id].revision == states[i].db[id].revision
    ensures forall k | i < k < j :: !Supersedes(states[k], steps[k], id)
    ensures states[j + 1].db[id].oauth.Some? && states[j + 1].db[id].oauth.value.token == steps[j].token
    ensures MaterialOf(states[j + 1].db[id]).(oauth := None) == MaterialOf(states[i].db[id]).(oauth := None)
  {
    hide Inv, Next, Enabled, Supersedes;
    i := CallbackOrigin(states, steps, j, steps[j].claim);
    id := steps[i].id;
    InvAlways(states, steps, j);
    InvParts(states[j]);
    assert states[j + 1] == Next(states[j], steps[j]);
    InstallStep(states[j], steps[j]);
    assert id in states[i + 1].db && states[i + 1].db[id].revision == states[j].db[id].revision;
    forall k | i < k <= j
      ensures id in states[k].db && states[k].db[id].revision == states[i].db[id].revision
      ensures k < j ==> !Supersedes(states[k], steps[k], id)
    {
      SteadyBetween(states, steps, i + 1, k, j, id);
      if k < j {
        SteadyBetween(states, steps, i + 1, k + 1, j, id);
        SteadyMeansNotSuperseded(states, steps, k, id);
      }
    }
    SteadyBetween(states, steps, i + 1, j, j, id);
  }

  /** What is claimed stays claimed, and a callback that has ended does not come back. */
  lemma ClaimStep(s: State, step: Step)
    requires Enabled(s, step)
    ensures s.claimedStates <= Next(s, step).claimedStates && s.usedClaims <= Next(s, step).usedClaims
    ensures forall c | c in s.usedClaims && c !in s.callbacks :: c !in Next(s, step).callbacks
  {
  }

  lemma {:induction false} ClaimedStatesOnlyGrow(states: seq<State>, steps: seq<Step>, i: nat, j: nat)
    requires IsTrace(states, steps) && i <= j < |states|
    ensures states[i].claimedStates <= states[j].claimedStates
    ensures states[i].usedClaims <= states[j].usedClaims
    ensures forall c | c in states[i].usedClaims && c !in states[i].callbacks :: c !in states[j].callbacks
  {
    hide Next, Enabled, Init;
    if i < j {
      ClaimedStatesOnlyGrow(states, steps, i, j - 1);
      assert states[j - 1 + 1] == Next(states[j - 1], steps[j - 1]);
      ClaimStep(states[j - 1], steps[j - 1]);
    }
  }

  /** An OAuth state is claimed at most once over a whole run. */
  lemma StateClaimedOnce(states: seq<State>, steps: seq<Step>, i: nat, j: nat)
    requires IsTrace(states, steps) && i < j < |steps|
    requires Claims(states[i], steps[i]) && Claims(states[j], steps[j])
    ensures steps[i].state != steps[j].state
  {
    assert states[i + 1] == Next(states[i], steps[i]);
    ClaimedStatesOnlyGrow(states, steps, i + 1, j);
    InvAlways(states, steps, j);
    assert steps[i].state in states[j].claimedStates;
    assert StatesOk(states[j]);
  }

  /** An OAuth state installs tokens at most once over a whole run. */
  lemma StateInstalledOnce(states: seq<State>, steps: seq<Step>, i: nat, j: nat)
    requires IsTrace(states, steps) && i < j < |steps|
    requires Installs(states[i], steps[i]) && Installs(states[j], steps[j])
    ensures states[i].callbacks[steps[i].claim].pending.state != states[j].callbacks[steps[j].claim].pending.state
  {
    var a := CallbackOrigin(states, steps, i, steps[i].claim);
    var b := CallbackOrigin(states, steps, j, steps[j].claim);
    if a < b {
      StateClaimedOnce(states, steps, a, b);
    } else if b < a {
      StateClaimedOnce(states, steps, b, a);
    } else {
      InvAlways(states, steps, i);
      assert states[i + 1] == Next(states[i], steps[i]);
      ClaimedStatesOnlyGrow(states, steps, i + 1, j);
    }
  }
}
