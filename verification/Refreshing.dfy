/** Token refresh: the request flow of one connection, and rivals for one token. */
module Refreshing {
  import opened Basics
  import opened ServerRow
  import opened Protocol
  import opened ProtocolSafety
  import opened Authorizations

  // ----- one connection's auth flow -----------------------------------------------

  datatype Response = Response(status: nat, insufficientScope: bool)

  /** A response that means the presented token is not good enough. */
  predicate Rejects(r: Response) {
    r.status == 401 || (r.status == 403 && r.insufficientScope)
  }

  /**
   What the surroundings answer, in the order the flow asks: clock, refresh, server. A refresh fails
   with ReauthorizationRequired or with any other error.
   */
  datatype Script = Script(start: real, renewal: Result<OAuth, Error>, renewed: real, first: Response,
                           forced: Result<OAuth, Error>, retried: real, second: Response)

  class PersistentOAuthAuth {
    var payload: OAuth

    constructor (payload: OAuth)
      ensures this.payload == payload
    {
      this.payload := payload;
    }

    /** Send a request, refreshing before it when the token is stale and once more after a 401. */
    method AsyncAuthFlow(env: Script) returns (sent: seq<string>, refreshes: nat, marked: seq<OAuth>, outcome: Result<(), Error>)
      modifies this
      ensures |sent| <= 2 && refreshes <= 2
      // The first request carries a token that is valid when it is sent.
      ensures |sent| >= 1 <==> Valid(old(payload), env.start) || (env.renewal.Ok? && Valid(env.renewal.value, env.renewed))
      ensures |sent| >= 1 ==>
        sent[0] == (if Valid(old(payload), env.start) then old(payload) else env.renewal.value).token.access
      // There is a second one only after a 401 answered by a forced refresh to a valid token.
      ensures |sent| == 2 <==>
        |sent| >= 1 && env.first.status == 401 && env.forced.Ok? && Valid(env.forced.value, env.retried)
      ensures |sent| == 2 ==> sent[1] == env.forced.value.token.access
      // It fails exactly when no request got through; an error of a refresh is passed on as it is.
      ensures outcome.Ok? <==>
        var last := if |sent| == 1 then env.first else env.second;
        sent != [] && last.status != 401 && (last.status == 403 ==> !last.insufficientScope)
      ensures outcome.Ok? ==> sent[|sent| - 1] == payload.token.access
      ensures outcome.Err? ==>
        outcome.error == (if !Valid(old(payload), env.start) && env.renewal.Err? then env.renewal.error
                          else if sent != [] && env.first.status == 401 && env.forced.Err? then env.forced.error
                          else ReauthorizationRequired)
      // Exactly a failure that asks for authorization marks the payload it ends with, once.
      ensures marked == if outcome == Err(ReauthorizationRequired) then [payload] else []
      ensures refreshes == (if Valid(old(payload), env.start) then 0 else 1)
                           + (if sent != [] && env.first.status == 401 then 1 else 0)
    {
      sent, refreshes, marked, outcome := [], 0, [], Err(ReauthorizationRequired);
      if !Valid(payload, env.start) {
        refreshes := 1;
        if env.renewal.Err? {
          marked, outcome := MarkIfRequired(env.renewal.error), Err(env.renewal.error);
          return;
        }
        payload := env.renewal.value;
        if !Valid(payload, env.renewed) {
          marked := [payload];
          return;
        }
      }
      sent := [payload.token.access];
      if env.first.status == 401 {
        refreshes := refreshes + 1;
        if env.forced.Err? {
          marked, outcome := MarkIfRequired(env.forced.error), Err(env.forced.error);
          return;
        }
        payload := env.forced.value;
        if Valid(payload, env.retried) {
          sent := sent + [payload.token.access];
          if !Rejects(env.second) {
            outcome := Ok(());
            return;
          }
        }
        marked := [payload];
        return;
      }
      if Rejects(env.first) {
        marked := [payload];
        return;
      }
      outcome := Ok(());
    }

    /** Only the error that asks for authorization is reported; any other leaves no mark. */
    function MarkIfRequired(error: Error): seq<OAuth>
      reads this
    {
      if error == ReauthorizationRequired then [payload] else []
    }
  }

  // ----- what a refresh does ---------------------------------------------------------------

  /** Not empty, and with more than 30 seconds to live. */
  predicate StillGood(oauth: OAuth, now: real) {
    oauth.token.access != "" && (oauth.expiresAt == None || now + 30.0 < oauth.expiresAt.value)
  }

  /** The stored payload and the one that was observed are both for this row, issuer and URL. */
  predicate Bound(id: nat, row: Option<Row>, issuer: string, url: string, observed: OAuth) {
    && row.Some? && row.value.url == Some(url) && row.value.oauth.Some?
    && forall o | o in {observed, row.value.oauth.value} ::
         o.grant.serverId == id && o.grant.issuer == issuer && o.grant.serverUrl == url
  }

  /**
   A refresh answers the stored payload without a request exactly if that is still good and either
   nothing forces it or another process rotated it; otherwise it sends one request exactly if it has
   what a request takes. A granted token replaces the stored one under the same grant, and what the
   answer leaves out stays; any failure on a bound row requires authorization, and on others does nothing.
   */
  lemma RefreshOutcome(id: nat, row: Option<Row>, issuer: string, url: string, observed: OAuth,
                       force: bool, now: real, answer: TokenReply)
    ensures var res := Refresh(id, row, issuer, url, observed, force, now, answer);
      if !Bound(id, row, issuer, url, observed) then res == Refreshed(row, Err(ReauthorizationRequired), 0)
      else
        var current := row.value.oauth.value;
        if StillGood(current, now) && (!force || current.token.access != observed.token.access)
        then res == Refreshed(row, Ok(current), 0)
        else
          && res.row.Some? && res.requests <= 1
          && (res.requests == 1 <==>
                && current.token.refresh.Some? && current.token.refresh.value != ""
                && current.grant.client.clientId != "" && current.grant.tokenEndpoint != ""
                && (current.grant.client.secretExpiresAt == 0.0 || now < current.grant.client.secretExpiresAt))
          && (res.reply.Ok? <==> res.requests == 1 && answer.Granted?)
          && (res.reply.Ok? ==>
                var o := res.reply.value;
                && o.grant == current.grant && o.token.access == answer.token.access
                && o.token.refresh == (if answer.token.refresh == None then current.token.refresh else answer.token.refresh)
                && o.token.scope == (if answer.token.scope == None then current.token.scope else answer.token.scope)
                && (answer.expiresIn == None <==> o.expiresAt == None)
                && (answer.expiresIn.Some? ==> o.expiresAt.value - now == answer.expiresIn.value)
                && res.row.value == row.value.(oauth := Some(o), authRequired := false, revision := row.value.revision + 1))
          && (res.reply.Err? ==>
                && res.reply.error == ReauthorizationRequired
                && res.row.value == row.value.(authRequired := true,
                     revision := row.value.revision + if row.value.authRequired then 0 else 1))
  {
    if row.Some? && row.value.oauth.Some? {
      assert Bound(id, row, issuer, url, observed) <==>
             && row.value.url == Some(url) && SameBinding(observed, id, issuer, url)
             && SameBinding(row.value.oauth.value, id, issuer, url);
    }
  }

  /** The row has as much of its authorization as before: its grant, and a refresh token if it had one. */
  ghost predicate Survives(before: Row, after: Row) {
    before.oauth.Some? ==>
      && after.oauth.Some? && after.oauth.value.grant == before.oauth.value.grant
      && (before.oauth.value.token.refresh.Some? ==> after.oauth.value.token.refresh.Some?)
  }

  lemma TransactionSurvives(s: State, step: Step, id: nat)
    requires RowsOk(s) && CallbacksOk(s) && Enabled(s, step) && id in s.db && Transacts(step)
    requires !(Installs(s, step) && s.callbacks[step.claim].id == id)
    ensures id in Next(s, step).db && Survives(s.db[id], Next(s, step).db[id])
  {
    hide NameTaken, RowOk, UpdateError, ClaimResult;
    if step.ClaimCallback? && !ClaimResult(s, step).Refused? {
      ClaimFinds(s, step);
    }
  }

  lemma RewriteSurvives(s: State, step: Step, id: nat)
    requires Rewrites(step) && Enabled(s, step) && id in s.db && !Clears(s, step, id)
    ensures id in Next(s, step).db && Survives(s.db[id], Next(s, step).db[id])
  {
    hide CanRefresh, Valid, SameBinding;
  }

  /** No refresh, edit or rejection loses a refresh token or a grant: only an installation or a clear does. */
  lemma {:induction false} AuthorizationSurvives(states: seq<State>, steps: seq<Step>, i: nat, j: nat, id: nat)
    requires IsTrace(states, steps) && i <= j < |states| && id in states[i].db && id in states[j].db
    requires forall k | i <= k < j ::
      !Clears(states[k], steps[k], id) && !(Installs(states[k], steps[k]) && states[k].callbacks[steps[k].claim].id == id)
    ensures Survives(states[i].db[id], states[j].db[id])
  {
    hide Next, Inv, Clears, Installs, RowsOk, CallbacksOk, Init;
    if i < j {
      var s, step := states[j - 1], steps[j - 1];
      PresentBetween(states, steps, i, j - 1, j, id);
      AuthorizationSurvives(states, steps, i, j - 1, id);
      InvAlways(states, steps, j - 1);
      InvParts(s);
      assert Enabled(s, step) && states[j - 1 + 1] == Next(s, step);
      if Transacts(step) {
        TransactionSurvives(s, step, id);
      } else if Rewrites(step) {
        RewriteSurvives(s, step, id);
      } else {
        OtherStep(s, step, id);
      }
    }
  }

  // ----- rivals ------------------------------------------------------------------------

  lemma OnlySupersedingRewritesMaterial(s: State, step: Step)
    requires Rewritten(s, step).Some? && !Supersedes(s, step, step.id)
    ensures step.id in s.db && MaterialOf(Rewritten(s, step).value) == MaterialOf(s.db[step.id])
  {
  }

  lemma OnlySupersedingTransactionsChangeMaterial(s: State, step: Step, id: nat)
    requires CallbacksOk(s) && Enabled(s, step) && id in s.db && !Supersedes(s, step, id)
    requires step.Update? || step.PersistBegin? || step.ClaimCallback? || step.InstallToken?
    ensures id in Next(s, step).db && MaterialOf(Next(s, step).db[id]) == MaterialOf(s.db[id])
  {
    if step.InstallToken? {
      assert s.callbacks[step.claim].pending.grant.serverId == s.callbacks[step.claim].id;
    }
  }

  /** Only a superseding step changes a row's connection material or removes it. */
  lemma OnlySupersedingChangesMaterial(s: State, step: Step, id: nat)
    requires RowsOk(s) && CallbacksOk(s) && Enabled(s, step) && id in s.db && !Supersedes(s, step, id)
    ensures id in Next(s, step).db && MaterialOf(Next(s, step).db[id]) == MaterialOf(s.db[id])
  {
    if step.Update? || step.PersistBegin? || step.ClaimCallback? || step.InstallToken? {
      OnlySupersedingTransactionsChangeMaterial(s, step, id);
    } else if Rewritten(s, step).Some? && step.id == id {
      OnlySupersedingRewritesMaterial(s, step);
    }
  }

  /** A refresh or rejection by a process that saw access token `seen`, at a time when `current` is good. */
  ghost predicate Rival(step: Step, id: nat, seen: string, current: OAuth) {
    || (&& step.RefreshToken? && step.id == id && step.observed.token.access == seen
        && SameBinding(step.observed, id, step.issuer, step.url) && SameBinding(current, id, step.issuer, step.url)
        && Valid(current, step.now))
    || (step.MarkRequired? && step.id == id && step.observed.token.access == seen)
  }

  lemma RivalChangesNothing(s: State, step: Step, id: nat, seen: string, current: OAuth)
    requires Inv(s) && id in s.db && s.db[id].oauth == Some(current)
    requires current.token.access != seen && Rival(step, id, seen, current)
    ensures Next(s, step) == s
    ensures step.RefreshToken? ==> RefreshResult(s, step) == Refreshed(Some(s.db[id]), Ok(current), 0)
  {
    assert RowOk(s.db[id]);
    assert s.db[id := s.db[id]] == s.db;
  }

  lemma RefreshCommitsItsReply(states: seq<State>, steps: seq<Step>, i: nat, current: OAuth)
    requires IsTrace(states, steps) && i < |steps|
    requires steps[i].RefreshToken? && RefreshResult(states[i], steps[i]).reply == Ok(current)
    ensures steps[i].id in states[i + 1].db && states[i + 1].db[steps[i].id].oauth == Some(current)
  {
    assert states[i + 1] == Next(states[i], steps[i]);
  }

  lemma CurrentTokenStays(s: State, step: Step, id: nat, seen: string, current: OAuth)
    requires Inv(s) && Enabled(s, step) && id in s.db && s.db[id].oauth == Some(current)
    requires current.token.access != seen
    requires Rival(step, id, seen, current) || !Supersedes(s, step, id)
    ensures id in Next(s, step).db && Next(s, step).db[id].oauth == Some(current)
  {
    if Rival(step, id, seen, current) {
      RivalChangesNothing(s, step, id, seen, current);
    } else {
      OnlySupersedingChangesMaterial(s, step, id);
      assert MaterialOf(Next(s, step).db[id]).oauth == Some(current);
    }
  }

  /** One step of a trace on a row that holds `current`. */
  lemma CurrentTokenTraceStep(states: seq<State>, steps: seq<Step>, k: nat, id: nat, seen: string, current: OAuth)
    requires IsTrace(states, steps) && k < |steps|
    requires id in states[k].db && states[k].db[id].oauth == Some(current) && current.token.access != seen
    requires Rival(steps[k], id, seen, current) || !Supersedes(states[k], steps[k], id)
    ensures id in states[k + 1].db && states[k + 1].db[id].oauth == Some(current)
    ensures Rival(steps[k], id, seen, current) ==> Unmoved(states, steps, k, current)
  {
    InvAlways(states, steps, k);
    assert states[k + 1] == Next(states[k], steps[k]);
    CurrentTokenStays(states[k], steps[k], id, seen, current);
    if Rival(steps[k], id, seen, current) {
      RivalChangesNothing(states[k], steps[k], id, seen, current);
    }
  }

  /** Step k left the table as it was; if it was a refresh, it answered `current` without a request. */
  ghost predicate Unmoved(states: seq<State>, steps: seq<Step>, k: nat, current: OAuth)
    requires k < |steps| && k + 1 < |states|
  {
    && states[k + 1] == states[k]
    && (steps[k].RefreshToken? ==>
          RefreshResult(states[k], steps[k]).reply == Ok(current) && RefreshResult(states[k], steps[k]).requests == 0)
  }

  /**
   Single flight: once a refresh has committed a token other than the one its rivals saw, every later
   rival, in lock order, gets that same payload without a request of its own, and a rejection of the
   old token no longer touches the row, for as long as the token is good and nothing supersedes it.
   */
  lemma {:induction false} SingleFlight(states: seq<State>, steps: seq<Step>, i: nat, j: nat, id: nat, seen: string,
                                        current: OAuth)
    requires IsTrace(states, steps) && i < j < |states|
    requires steps[i].RefreshToken? && steps[i].id == id && RefreshResult(states[i], steps[i]).reply == Ok(current)
    requires current.token.access != seen
    requires forall k | i < k < j :: Rival(steps[k], id, seen, current) || !Supersedes(states[k], steps[k], id)
    ensures id in states[j].db && states[j].db[id].oauth == Some(current)
    ensures forall k | i < k < j && Rival(steps[k], id, seen, current) :: Unmoved(states, steps, k, current)
  {
    hide Next, Enabled, Init, Supersedes, Rival, Unmoved, RefreshResult;
    if i < j - 1 {
      SingleFlight(states, steps, i, j - 1, id, seen, current);
      CurrentTokenTraceStep(states, steps, j - 1, id, seen, current);
    } else {
      RefreshCommitsItsReply(states, steps, i, current);
    }
  }

  /** A rejection requires authorization only on a row that still holds the rejected token. */
  lemma RejectionHitsOnlyItsToken(s: State, id: nat, observed: OAuth)
    requires id in s.db
    ensures var after := Next(s, MarkRequired(id, observed));
      && (after != s <==>
            s.db[id].oauth.Some? && s.db[id].oauth.value.token.access == observed.token.access && !s.db[id].authRequired)
      && (after != s ==> after.db == s.db[id := s.db[id].(authRequired := true, revision := s.db[id].revision + 1)])
  {
    assert s.db[id := s.db[id]] == s.db;
  }
}
