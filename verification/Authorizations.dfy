/**
 Authorizations from their begin to the tokens they leave: which callbacks are claimed and which
 installed, where an installed token comes from, and what a clear leaves behind.
 */
module Authorizations {
  import opened Basics
  import opened ServerRow
  import opened Protocol
  import opened ProtocolSafety

  // ----- one transaction -------------------------------------------------------------

  /** An authorization can be begun exactly on a visible streamable-HTTP row with a URL and no static credentials. */
  lemma LoadOutcome(row: Option<Row>, owner: Option<nat>)
    ensures var res := BeginLoad(row, owner);
      && (res.Ok? <==>
            && row.Some? && (owner == None || row.value.owner == owner) && row.value.transport == Http
            && row.value.url.Some? && row.value.url.value != "" && row.value.headers == None && row.value.env == None)
      && (res.Ok? ==> row.value.url == Some(res.value))
      && (res.Err? ==>
            res.error == if row.None? || (owner.Some? && row.value.owner != owner) then NotFound else Configuration)
  {
  }

  /**
   A begin is persisted exactly on a visible streamable-HTTP row without static credentials that still
   has the URL that was discovered; it then publishes its state and nothing else of the row changes.
   */
  lemma BeginOutcome(row: Option<Row>, owner: Option<nat>, minted: Pending)
    ensures var res := BeginPersist(row, owner, minted);
      && (res.Ok? <==>
            && row.Some? && row.value.url == Some(minted.grant.serverUrl)
            && (owner == None || row.value.owner == owner)
            && row.value.transport == Http && row.value.headers == None && row.value.env == None)
      && (res.Ok? ==>
            && res.value.pending == Some(minted) && res.value.stateHash == Some(Sha256(minted.state))
            && res.value.authRequired && res.value.oauth == row.value.oauth
            && MaterialOf(res.value) == MaterialOf(row.value))
      && (res.Err? ==>
            res.error == if row.None? || row.value.url != Some(minted.grant.serverUrl)
                            || (owner.Some? && row.value.owner != owner) then NotFound else Configuration)
  {
  }

  /**
   A callback is claimed exactly if it carries a code and a state, the row it names publishes that
   state to the caller and for the issuer, URL and id it was minted for, and it is not late; late, it
   ends its transaction; and in any other case it changes nothing.
   */
  lemma CallbackOutcome(row: Option<Row>, claimId: nat, code: string, state: string, iss: Option<string>,
                        serverId: Option<nat>, owner: Option<nat>, now: real)
    ensures var res := Claim(row, claimId, code, state, iss, serverId, owner, now);
      var found :=
        && code != "" && state != "" && row.Some?
        && row.value.stateHash == Some(Sha256(state))
        && row.value.pending.Some? && row.value.pending.value.state == state
        && (serverId == None || serverId == Some(row.value.id)) && (owner == None || owner == row.value.owner);
      && (res.Expired? <==> found && now > row.value.pending.value.expiresAt)
      && (res.Claimed? <==>
            && found && now <= row.value.pending.value.expiresAt
            && (iss == None || iss == Some(row.value.pending.value.grant.issuer))
            && row.value.url == Some(row.value.pending.value.grant.serverUrl)
            && row.value.id == row.value.pending.value.grant.serverId)
      && (res.Expired? ==> res.row == row.value.(pending := None, stateHash := None))
      && (res.Claimed? ==>
            && res.pending == row.value.pending.value.(claim := Some(claimId))
            && res.row == row.value.(pending := Some(res.pending), stateHash := None)
            && res.expectedRevision == row.value.revision)
      && (res.Refused? ==> res.error == if code == "" || state == "" then CallbackFailed else StateMismatch)
  {
  }

  /**
   The compare-and-set installs exactly on the row as the claim left it: still at the claimed revision and URL,
   its transaction marked by this claim, no state published, and only OAuth to authenticate with. Of its
   seven comparisons a run needs two (see InstallsIff).
   */
  lemma ExchangeOutcome(row: Option<Row>, claimed: Pending, claimId: nat, expectedRevision: nat, token: Token,
                        expiresAt: Option<real>)
    ensures var res := Install(row, claimed, claimId, expectedRevision, token, expiresAt);
      && (res.Ok? <==>
            && row.Some? && row.value.url == Some(claimed.grant.serverUrl) && row.value.revision == expectedRevision
            && row.value.pending.Some? && row.value.pending.value.claim == Some(claimId) && row.value.stateHash == None
            && row.value.headers == None && row.value.env == None && row.value.transport == Http)
      && (res.Ok? ==>
            res.value == row.value.(oauth := Some(OAuth(claimed.grant, token, expiresAt)), pending := None,
                                    authRequired := false, revision := row.value.revision + 1))
      && (res.Err? ==>
            res.error == if row.None? || row.value.url != Some(claimed.grant.serverUrl) then NotFound else StateMismatch)
  {
  }

  // ----- which callbacks install --------------------------------------------------------

  /** As long as the row is at the revision that was claimed, it still holds the claimed transaction. */
  ghost predicate Pristine(s: State, cb: Callback) {
    && cb.id in s.usedIds
    && (cb.id in s.db ==>
          && cb.expectedRevision <= s.db[cb.id].revision
          && (s.db[cb.id].revision == cb.expectedRevision ==>
                && s.db[cb.id].pending == Some(cb.pending) && s.db[cb.id].stateHash == None
                && s.db[cb.id].url == Some(cb.pending.grant.serverUrl)))
  }

  ghost predicate CallbacksPristine(s: State) {
    forall c | c in s.callbacks :: Pristine(s, s.callbacks[c])
  }

  /** At one revision, a transaction whose state is withdrawn stays as it is. */
  ghost predicate Undisturbed(before: Row, after: Row) {
    before.revision == after.revision && before.stateHash == None ==>
      after.pending == before.pending && after.stateHash == None && after.url == before.url
  }

  /** What a rewrite leaves out: it withdraws, and adds nothing. */
  ghost predicate Withdraws(before: Row, after: Row) {
    && Undisturbed(before, after)
    && (after.pending == before.pending || after.pending == None)
    && (after.stateHash == before.stateHash || after.stateHash == None)
    && (after.headers == before.headers || after.headers == None) && (after.env == before.env || after.env == None)
    && (before.oauth == None ==> after.oauth == None)
  }

  /** The steps that rewrite one row. */
  predicate Rewrites(step: Step) {
    step.RefreshToken? || step.MarkRequired? || step.ClearOAuthOf? || step.ClearAllOf? || step.RecordOutcome?
  }

  predicate Transacts(step: Step) { step.Update? || step.PersistBegin? || step.ClaimCallback? || step.InstallToken? }

  lemma RewriteWithdraws(s: State, step: Step)
    requires Rewritten(s, step).Some?
    ensures step.id in s.db && Withdraws(s.db[step.id], Rewritten(s, step).value)
  {
  }

  lemma RewriteNext(s: State, step: Step, id: nat)
    requires Rewrites(step) && Enabled(s, step) && id in s.db
    ensures id in Next(s, step).db && Withdraws(s.db[id], Next(s, step).db[id])
  {
    hide Rewritten;
    if Rewritten(s, step).Some? {
      RewriteWithdraws(s, step);
    }
  }

  /** A claim, or an expiry, finds a published state. */
  lemma ClaimFinds(s: State, step: Step)
    requires step.ClaimCallback? && !ClaimResult(s, step).Refused?
    ensures step.id in s.db && s.db[step.id].stateHash.Some? && s.db[step.id].pending.Some?
    ensures var before, after := s.db[step.id], ClaimResult(s, step).row;
      && after.revision == before.revision && after.oauth == before.oauth
      && (after.pending.Some? ==> after.pending.value.(claim := None) == before.pending.value.(claim := None))
  {
  }

  lemma TransactionIsUndisturbed(s: State, step: Step, id: nat)
    requires RowsOk(s) && CallbacksOk(s) && Enabled(s, step) && id in s.db && Transacts(step)
    ensures id in Next(s, step).db && Undisturbed(s.db[id], Next(s, step).db[id])
  {
    hide NameTaken, RowOk, UpdateRow, ClaimResult;
    if step.ClaimCallback? && !ClaimResult(s, step).Refused? {
      ClaimFinds(s, step);
    }
  }

  lemma NextIsUndisturbed(s: State, step: Step, id: nat)
    requires RowsOk(s) && CallbacksOk(s) && Enabled(s, step) && id in s.db && id in Next(s, step).db
    ensures Undisturbed(s.db[id], Next(s, step).db[id])
  {
    if Transacts(step) {
      hide Next, Enabled;
      TransactionIsUndisturbed(s, step, id);
    } else if Rewrites(step) {
      hide Next, Enabled;
      RewriteNext(s, step, id);
    }
  }

  lemma NewCallbackIsPristine(s: State, step: Step, c: nat)
    requires RowsOk(s) && CallbacksOk(s) && Enabled(s, step) && c in Next(s, step).callbacks && c !in s.callbacks
    ensures Pristine(Next(s, step), Next(s, step).callbacks[c])
  {
    hide RowOk;
  }

  lemma NextKeepsPristine(s: State, step: Step)
    requires Inv(s) && CallbacksPristine(s) && Enabled(s, step)
    ensures CallbacksPristine(Next(s, step))
  {
    hide Next, Enabled, Inv, RowsOk, CallbacksOk, Began, ClaimResult;
    InvParts(s);
    var t := Next(s, step);
    forall c | c in t.callbacks
      ensures Pristine(t, t.callbacks[c])
    {
      if c in s.callbacks {
        var id := s.callbacks[c].id;
        CallbackStep(s, step, c);
        NextIsNoOlder(s, step, id);
        if id in s.db && id in t.db {
          NextIsUndisturbed(s, step, id);
        }
      } else {
        NewCallbackIsPristine(s, step, c);
      }
    }
  }

  lemma {:induction false} PristineAlways(states: seq<State>, steps: seq<Step>, k: nat)
    requires IsTrace(states, steps) && k < |states|
    ensures CallbacksPristine(states[k])
  {
    hide Next, Enabled, Inv;
    if k > 0 {
      PristineAlways(states, steps, k - 1);
      InvAlways(states, steps, k - 1);
      assert states[k - 1 + 1] == Next(states[k - 1], steps[k - 1]);
      NextKeepsPristine(states[k - 1], steps[k - 1]);
    }
  }

  /**
   In any run, an exchanged token is installed exactly if its row is there, at the revision that was
   claimed, and uses streamable HTTP; and then the row holds it, under the claimed grant.
   */
  lemma InstallsIff(states: seq<State>, steps: seq<Step>, j: nat)
    requires IsTrace(states, steps) && j < |steps| && steps[j].InstallToken?
    ensures steps[j].claim in states[j].callbacks
    ensures var s, cb := states[j], states[j].callbacks[steps[j].claim];
      var t := states[j + 1];
      && (Installs(s, steps[j]) <==>
            cb.id in s.db && s.db[cb.id].revision == cb.expectedRevision && s.db[cb.id].transport == Http)
      && (Installs(s, steps[j]) ==>
            && cb.id in t.db
            && t.db[cb.id].oauth == Some(OAuth(cb.pending.grant, steps[j].token, steps[j].expiresAt))
            && t.db[cb.id].pending == None && !t.db[cb.id].authRequired)
      && (!Installs(s, steps[j]) ==> t.db == s.db)
      && steps[j].claim !in t.callbacks
  {
    hide CallbacksPristine, Inv;
    InvAlways(states, steps, j);
    PristineAlways(states, steps, j);
    assert states[j + 1] == Next(states[j], steps[j]);
    InstallOutcome(states[j], steps[j]);
  }

  lemma InstallOutcome(s: State, step: Step)
    requires Inv(s) && CallbacksPristine(s) && step.InstallToken? && Enabled(s, step)
    ensures var cb, t := s.callbacks[step.claim], Next(s, step);
      && (Installs(s, step) <==>
            cb.id in s.db && s.db[cb.id].revision == cb.expectedRevision && s.db[cb.id].transport == Http)
      && (Installs(s, step) ==>
            && cb.id in t.db
            && t.db[cb.id].oauth == Some(OAuth(cb.pending.grant, step.token, step.expiresAt))
            && t.db[cb.id].pending == None && !t.db[cb.id].authRequired)
      && (!Installs(s, step) ==> t.db == s.db)
      && step.claim !in t.callbacks
  {
    hide NamesOk, StatesOk;
    var cb := s.callbacks[step.claim];
    assert Pristine(s, cb);
    if cb.id in s.db {
      assert RowOk(s.db[cb.id]);
    }
  }

  // ----- where an installed token comes from ------------------------------------------------

  /** The step is a begin that was persisted on this row. */
  ghost predicate BeginsOn(s: State, step: Step, id: nat) {
    && step.PersistBegin? && step.begin in s.begins && s.begins[step.begin].id == id
    && BeginPersist(Find(s.db, id), s.begins[step.begin].owner, step.minted).Ok?
  }

  predicate WithoutOAuth(row: Row) { row.oauth == None && row.pending == None && row.stateHash == None }

  predicate WithoutSecrets(row: Row) { WithoutOAuth(row) && row.headers == None && row.env == None }

  /** Transactions of a row survive with their claim set, or are replaced by a begin. */
  ghost predicate Continues(before: Row, after: Row) {
    after.pending.Some? ==>
      before.pending.Some? && before.pending.value.(claim := None) == after.pending.value.(claim := None)
  }

  lemma TransactionContinues(s: State, step: Step, id: nat)
    requires RowsOk(s) && CallbacksOk(s) && Enabled(s, step) && id in s.db && Transacts(step)
    ensures id in Next(s, step).db
    ensures !BeginsOn(s, step, id) ==> Continues(s.db[id], Next(s, step).db[id])
    ensures BeginsOn(s, step, id) ==>
      Next(s, step).db[id].pending == Some(step.minted) && step.minted == step.minted.(claim := None)
  {
    hide NameTaken, RowOk, UpdateRow, ClaimResult;
    if step.ClaimCallback? && !ClaimResult(s, step).Refused? {
      ClaimFinds(s, step);
    }
  }

  /** Every other step leaves the row to itself, and a new row has no transaction. */
  lemma OtherStep(s: State, step: Step, id: nat)
    requires RowsOk(s) && Enabled(s, step) && !Transacts(step) && !Rewrites(step) && id in Next(s, step).db
    ensures if id in s.db then Next(s, step).db[id] == s.db[id] else WithoutOAuth(Next(s, step).db[id])
  {
    hide NameTaken, RowOk;
  }

  lemma PendingStep(s: State, step: Step, id: nat)
    requires RowsOk(s) && CallbacksOk(s) && Enabled(s, step) && id in Next(s, step).db && Next(s, step).db[id].pending.Some?
    ensures var p := Next(s, step).db[id].pending.value;
      if BeginsOn(s, step, id) then p == step.minted == p.(claim := None)
      else id in s.db && Continues(s.db[id], Next(s, step).db[id])
  {
    hide Next, Enabled, RowsOk, CallbacksOk;
    if Transacts(step) {
      TransactionIsNoOlder(s, step, id);
      TransactionContinues(s, step, id);
    } else if Rewrites(step) {
      RewriteIsNoOlder(s, step, id);
      RewriteNext(s, step, id);
    } else {
      OtherStep(s, step, id);
    }
  }

  /** The transaction of a row was minted by a begin on that row. */
  lemma {:induction false} PendingOrigin(states: seq<State>, steps: seq<Step>, k: nat, id: nat) returns (h: nat)
    requires IsTrace(states, steps) && k < |states| && id in states[k].db && states[k].db[id].pending.Some?
    ensures h < k && BeginsOn(states[h], steps[h], id)
    ensures steps[h].minted == states[k].db[id].pending.value.(claim := None)
  {
    hide Next, Inv, BeginsOn, RowsOk, CallbacksOk;
    if k > 0 {
      InvAlways(states, steps, k - 1);
      InvParts(states[k - 1]);
      assert states[k - 1 + 1] == Next(states[k - 1], steps[k - 1]);
      assert Enabled(states[k - 1], steps[k - 1]);
      PendingStep(states[k - 1], steps[k - 1], id);
      if BeginsOn(states[k - 1], steps[k - 1], id) {
        h := k - 1;
      } else {
        h := PendingOrigin(states, steps, k - 1, id);
      }
    }
  }

  /**
   Every installed token goes back to one begin on its row and one claim after it: the claim presented
   the state that the begin minted, with a code, for the issuer, while the row was visible to the one
   who asked, and no later than the transaction expired.
   */
  lemma InstallationOrigin(states: seq<State>, steps: seq<Step>, j: nat) returns (h: nat, i: nat, id: nat)
    requires IsTrace(states, steps) && j < |steps| && Installs(states[j], steps[j])
    ensures h < i < j && BeginsOn(states[h], steps[h], id)
    ensures Claims(states[i], steps[i]) && steps[i].claim == steps[j].claim && steps[i].id == id && id in states[i].db
    ensures steps[i].code != "" && steps[i].state == steps[h].minted.state != ""
    ensures states[i].db[id].stateHash == Some(Sha256(steps[i].state))
    ensures steps[i].now <= steps[h].minted.expiresAt
    ensures steps[i].iss == None || steps[i].iss == Some(steps[h].minted.grant.issuer)
    ensures steps[i].owner == None || steps[i].owner == states[i].db[id].owner
    ensures id in states[j + 1].db
            && states[j + 1].db[id].oauth == Some(OAuth(steps[h].minted.grant, steps[j].token, steps[j].expiresAt))
  {
    hide Inv, Next, BeginsOn, RowsOk, CallbacksOk;
    i := CallbackOrigin(states, steps, j, steps[j].claim);
    id := steps[i].id;
    var c := steps[i];
    CallbackOutcome(Find(states[i].db, id), c.claim, c.code, c.state, c.iss, c.serverId, c.owner, c.now);
    h := PendingOrigin(states, steps, i, id);
    InstallsIff(states, steps, j);
  }

  // ----- after a clear ----------------------------------------------------------------------

  ghost predicate Clears(s: State, step: Step, id: nat) {
    && (step.ClearOAuthOf? || step.ClearAllOf?) && step.id == id && id in s.db
    && (step.owner == None || step.owner == s.db[id].owner)
  }

  /** A clear takes effect exactly for those who may see the row, and removes what it is for. */
  lemma ClearOutcome(s: State, step: Step, id: nat)
    requires (step.ClearOAuthOf? || step.ClearAllOf?) && step.id == id && id in s.db
    ensures id in Next(s, step).db
    ensures Clears(s, step, id) ==>
      && WithoutOAuth(Next(s, step).db[id]) && !Next(s, step).db[id].authRequired
      && (step.ClearAllOf? ==> WithoutSecrets(Next(s, step).db[id]))
      && (step.ClearOAuthOf? ==> Next(s, step).db[id].headers == s.db[id].headers && Next(s, step).db[id].env == s.db[id].env)
    ensures !Clears(s, step, id) ==> Next(s, step) == s
  {
  }

  lemma ClearedTransaction(s: State, step: Step, id: nat)
    requires RowsOk(s) && CallbacksOk(s) && Enabled(s, step) && id in s.db && Transacts(step)
    requires WithoutOAuth(s.db[id]) && !BeginsOn(s, step, id)
    ensures id in Next(s, step).db && WithoutOAuth(Next(s, step).db[id])
    ensures WithoutSecrets(s.db[id]) && !(step.Update? && step.id == id) ==> WithoutSecrets(Next(s, step).db[id])
  {
    hide NameTaken, RowOk, UpdateError, ClaimResult;
    if step.ClaimCallback? && !ClaimResult(s, step).Refused? {
      ClaimFinds(s, step);
    }
  }

  lemma ClearedStep(s: State, step: Step, id: nat)
    requires RowsOk(s) && CallbacksOk(s) && Enabled(s, step) && id in s.db && id in Next(s, step).db
    requires WithoutOAuth(s.db[id]) && !BeginsOn(s, step, id)
    ensures WithoutOAuth(Next(s, step).db[id])
    ensures WithoutSecrets(s.db[id]) && !(step.Update? && step.id == id) ==> WithoutSecrets(Next(s, step).db[id])
  {
    hide Next, Enabled, RowsOk, CallbacksOk, BeginsOn;
    if Transacts(step) {
      ClearedTransaction(s, step, id);
    } else if Rewrites(step) {
      RewriteNext(s, step, id);
    } else {
      OtherStep(s, step, id);
    }
  }

  /**
   A clear is final: whatever was in flight, the row has no OAuth material again until a new begin is
   persisted on it, and after a clear of everything no other credential either until it is edited.
   */
  lemma {:induction false} ClearIsFinal(states: seq<State>, steps: seq<Step>, i: nat, j: nat, id: nat)
    requires IsTrace(states, steps) && i < j < |states| && Clears(states[i], steps[i], id) && id in states[j].db
    requires forall k | i < k < j :: !BeginsOn(states[k], steps[k], id)
    ensures WithoutOAuth(states[j].db[id])
    ensures steps[i].ClearAllOf? && (forall k | i < k < j :: !(steps[k].Update? && steps[k].id == id)) ==>
      WithoutSecrets(states[j].db[id])
  {
    hide Next, Inv, BeginsOn, RowsOk, CallbacksOk, WithoutOAuth, WithoutSecrets, Init;
    InvAlways(states, steps, j - 1);
    InvParts(states[j - 1]);
    assert states[j - 1 + 1] == Next(states[j - 1], steps[j - 1]);
    assert Enabled(states[j - 1], steps[j - 1]);
    if i == j - 1 {
      ClearOutcome(states[i], steps[i], id);
    } else {
      PresentBetween(states, steps, i, j - 1, j, id);
      ClearIsFinal(states, steps, i, j - 1, id);
      ClearedStep(states[j - 1], steps[j - 1], id);
    }
  }

  // ----- an authorization that nothing disturbs -------------------------------------------------

  /** A new streamable-HTTP row for this URL. */
  predicate Fresh(row: Row, id: nat, url: string) {
    && row.id == id && row.transport == Http && row.url == Some(url) && url != "" && row.headers == None && row.env == None
    && row.oauth == None && row.pending == None && row.revision == 1
  }

  lemma RegistrationCommits(s: State, id: nat, r: Registration)
    requires id !in s.usedIds && !NameTaken(s.db, r.name, r.owner, r.isSystem, None) && (r.isSystem ==> r.owner == None)
    requires r.transport == Http && r.url.Some? && r.url.value != "" && r.headers == None && r.env == None
    ensures var t := Next(s, Register(id, r, true));
            && t == s.(db := t.db, usedIds := t.usedIds) && t.db.Keys == s.db.Keys + {id}
            && Fresh(t.db[id], id, r.url.value) && t.db[id].owner == r.owner
  {
  }

  /** The begin's two transactions publish what was minted. */
  lemma BeginPublishes(s: State, id: nat, begin: nat, owner: Option<nat>, minted: Pending)
    requires id in s.db && s.db[id].url.Some? && Fresh(s.db[id], id, s.db[id].url.value)
    requires owner == None || owner == s.db[id].owner
    requires minted.claim == None && minted.grant.serverId == id && minted.state !in s.usedStates
    requires Some(minted.grant.serverUrl) == s.db[id].url
    ensures var t := Next(s, LoadBegin(begin, id, owner));
            && Enabled(t, PersistBegin(begin, minted))
            && var u := Next(t, PersistBegin(begin, minted));
               && u.db == s.db[id := s.db[id].(pending := Some(minted), stateHash := Some(Sha256(minted.state)),
                                                authRequired := true, revision := 2)]
               && u.usedClaims == s.usedClaims && u.callbacks == s.callbacks
  {
  }

  /** A timely callback is claimed, and its token installed. */
  lemma CallbackInstalls(s: State, id: nat, minted: Pending, claim: nat, code: string, now: real, token: Token,
                         expiresAt: Option<real>)
    requires id in s.db && s.db[id].transport == Http && s.db[id].headers == None && s.db[id].env == None
    requires s.db[id].id == id == minted.grant.serverId && s.db[id].url == Some(minted.grant.serverUrl)
    requires s.db[id].pending == Some(minted) && s.db[id].stateHash == Some(Sha256(minted.state))
    requires claim !in s.usedClaims && code != "" && minted.state != "" && now <= minted.expiresAt
    ensures var c := ClaimCallback(claim, id, code, minted.state, Some(minted.grant.issuer), Some(id), s.db[id].owner, now);
            var t := Next(s, c);
            && Enabled(t, InstallToken(claim, token, expiresAt))
            && Next(t, InstallToken(claim, token, expiresAt)).db ==
               s.db[id := s.db[id].(oauth := Some(OAuth(minted.grant, token, expiresAt)), pending := None, stateHash := None,
                                    authRequired := false, revision := s.db[id].revision + 1)]
  {
    var t := Next(s, ClaimCallback(claim, id, code, minted.state, Some(minted.grant.issuer), Some(id), s.db[id].owner, now));
    assert t.callbacks[claim].pending.grant.serverId == id;
  }

  /**
   Undisturbed, a registration that is begun, called back in time with the minted state and exchanged
   ends with the row holding the token, under the minted grant, and nothing left in flight.
   */
  lemma AuthorizationCompletes(s: State, id: nat, r: Registration, begin: nat, minted: Pending, claim: nat, code: string,
                               now: real, token: Token, expiresAt: Option<real>)
    requires id !in s.usedIds && !NameTaken(s.db, r.name, r.owner, r.isSystem, None) && (r.isSystem ==> r.owner == None)
    requires r.transport == Http && r.url.Some? && r.url.value != "" && r.headers == None && r.env == None
    requires minted.claim == None && minted.grant.serverId == id && Some(minted.grant.serverUrl) == r.url
    requires minted.state !in s.usedStates && minted.state != "" && now <= minted.expiresAt
    requires claim !in s.usedClaims && code != ""
    ensures var a := Next(s, Register(id, r, true));
            var b := Next(a, LoadBegin(begin, id, r.owner));
            && Enabled(b, PersistBegin(begin, minted))
            && var c := Next(b, PersistBegin(begin, minted));
               var callback := ClaimCallback(claim, id, code, minted.state, Some(minted.grant.issuer), Some(id), r.owner, now);
               && Enabled(c, callback)
               && var d := Next(c, callback);
                  && Enabled(d, InstallToken(claim, token, expiresAt))
                  && var e := Next(d, InstallToken(claim, token, expiresAt));
                     && e.db.Keys == s.db.Keys + {id}
                     && e.db[id].oauth == Some(OAuth(minted.grant, token, expiresAt))
                     && e.db[id].pending == None && e.db[id].stateHash == None
                     && !e.db[id].authRequired && e.db[id].revision == 3
  {
    hide Next, NameTaken;
    RegistrationCommits(s, id, r);
    var a := Next(s, Register(id, r, true));
    BeginPublishes(a, id, begin, r.owner, minted);
    var c := Next(Next(a, LoadBegin(begin, id, r.owner)), PersistBegin(begin, minted));
    CallbackInstalls(c, id, minted, claim, code, now, token, expiresAt);
  }
}
