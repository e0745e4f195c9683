/**
 The registration row as the mutable object that each transaction locks, edits field by
 field and commits. Every method is proved against the transaction of module ServerRow
 that the traces of module Protocol are made of.
 */
module ServerConfig {
  import opened Basics
  import opened ServerRow

  class MCPServerConfig {
    const id: nat
    const owner: Option<nat>
    const isSystem: bool
    var name: string
    var transport: Transport
    var command: Option<string>
    var url: Option<string>
    var headers: Option<Secrets>
    var env: Option<Secrets>
    var oauth: Option<OAuth>
    var pending: Option<Pending>
    var stateHash: Option<StateHash>
    var authRequired: bool
    var revision: nat

    function Value(): Row
      reads this
    {
      Row(id, name, owner, isSystem, transport, command, url, headers, env, oauth, pending, stateHash, authRequired, revision)
    }

    constructor (id: nat, r: Registration)
      requires RegisterRow(id, r, true, false).Ok?
      ensures Value() == RegisterRow(id, r, true, false).value
    {
      this.id, owner, isSystem := id, r.owner, r.isSystem;
      name, transport, command, url := r.name, r.transport, r.command, r.url;
      headers, env := Stored(r.headers), Stored(r.env);
      oauth, pending, stateHash, authRequired, revision := None, None, None, false, 1;
    }

    method BumpConfigRevision()
      modifies this`revision
      ensures Value() == Bump(old(Value()))
    {
      revision := revision + 1;
    }

    method EditEndpoint(e: Edit)
      modifies this`name, this`transport, this`command, this`url
      ensures name == Or(e.name, old(name)) && transport == Or(e.transport, old(transport))
      ensures command == OrElse(e.command, old(command)) && url == OrElse(e.url, old(url))
    {
      if e.name.Some? { name := e.name.value; }
      if e.transport.Some? { transport := e.transport.value; }
      if e.command.Some? { command := e.command; }
      if e.url.Some? { url := e.url; }
    }

    /** Static headers supersede an authorization whose code another process may still be exchanging. */
    method EditCredentials(e: Edit)
      modifies this`headers, this`env, this`pending, this`stateHash, this`authRequired
      ensures headers == if e.headers.Replace? then Stored(e.headers.secrets) else old(headers)
      ensures env == if e.env.Replace? then Stored(e.env.secrets) else old(env)
      ensures if e.headers.Replace? && Truthy(e.headers.secrets)
              then pending == None && stateHash == None && !authRequired
              else pending == old(pending) && stateHash == old(stateHash) && authRequired == old(authRequired)
    {
      if e.headers.Replace? {
        headers := Stored(e.headers.secrets);
        if Truthy(e.headers.secrets) {
          pending := None;
          stateHash := None;
          authRequired := false;
        }
      }
      if e.env.Replace? { env := Stored(e.env.secrets); }
    }

    method UpdateServer(e: Edit, admitted: bool, nameTaken: bool) returns (error: Option<Error>)
      modifies this
      ensures var res := UpdateRow(old(Value()), e, admitted, nameTaken);
        if res.Ok? then error == None && Value() == res.value
        else error == Some(res.error) && Value() == old(Value())
    {
      error := UpdateError(Value(), e, admitted, nameTaken);
      if error.None? {
        EditEndpoint(e);
        EditCredentials(e);
        assert Value() == EditedRow(old(Value()), e);
        BumpConfigRevision();
      }
    }

    method PersistBegin(askedBy: Option<nat>, minted: Pending) returns (error: Option<Error>)
      modifies this
      ensures var res := BeginPersist(Some(old(Value())), askedBy, minted);
        if res.Ok? then error == None && Value() == res.value
        else error == Some(res.error) && Value() == old(Value())
    {
      if url != Some(minted.grant.serverUrl) || !VisibleTo(Value(), askedBy) {
        return Some(NotFound);
      }
      if transport != Http || headers.Some? || env.Some? {
        return Some(Configuration);
      }
      pending := Some(minted);
      stateHash := Some(Sha256(minted.state));
      authRequired := true;
      BumpConfigRevision();
      error := None;
    }

    /** Withdraw the published state and mark the transaction as taken by `claimId`. */
    method ClaimCallback(claimId: nat, code: string, state: string, iss: Option<string>, serverId: Option<nat>,
                         askedBy: Option<nat>, now: real)
      returns (res: ClaimOutcome)
      modifies this`pending, this`stateHash
      ensures res == Claim(Some(old(Value())), claimId, code, state, iss, serverId, askedBy, now)
      ensures Value() == if res.Refused? then old(Value()) else res.row
    {
      if code == "" || state == "" {
        return Refused(CallbackFailed);
      }
      if !Matches(Value(), state, serverId) || !VisibleTo(Value(), askedBy) || pending.None? || pending.value.state != state {
        return Refused(StateMismatch);
      }
      var taken := pending.value;
      if now > taken.expiresAt {
        pending := None;
        stateHash := None;
        return Expired(Value());
      }
      if (iss.Some? && iss.value != taken.grant.issuer) || url != Some(taken.grant.serverUrl) || id != taken.grant.serverId {
        return Refused(StateMismatch);
      }
      taken := taken.(claim := Some(claimId));
      pending := Some(taken);
      stateHash := None;
      res := Claimed(Value(), taken, revision);
    }

    method InstallToken(claimed: Pending, claimId: nat, expectedRevision: nat, token: Token, expiresAt: Option<real>)
      returns (error: Option<Error>)
      modifies this
      ensures var res := Install(Some(old(Value())), claimed, claimId, expectedRevision, token, expiresAt);
        if res.Ok? then error == None && Value() == res.value
        else error == Some(res.error) && Value() == old(Value())
    {
      if url != Some(claimed.grant.serverUrl) {
        return Some(NotFound);
      }
      if revision != expectedRevision || pending.None? || pending.value.claim != Some(claimId) || stateHash.Some?
         || headers.Some? || env.Some? || transport != Http
      {
        return Some(StateMismatch);
      }
      oauth := Some(OAuth(claimed.grant, token, expiresAt));
      pending := None;
      authRequired := false;
      BumpConfigRevision();
      error := None;
    }

    method RequireAuthorizationOnce()
      modifies this
      ensures Value() == RequireAuthorization(old(Value()))
    {
      if !authRequired {
        authRequired := true;
        BumpConfigRevision();
      }
    }

    method RefreshUnderLock(issuer: string, expectedUrl: string, observed: OAuth, force: bool, now: real, answer: TokenReply)
      returns (reply: Result<OAuth, Error>, requests: nat)
      modifies this
      ensures Refreshed(Some(Value()), reply, requests)
              == Refresh(id, Some(old(Value())), issuer, expectedUrl, observed, force, now, answer)
    {
      requests := 0;
      reply := Err(ReauthorizationRequired);
      if !SameBinding(observed, id, issuer, expectedUrl) || url != Some(expectedUrl) || oauth.None?
         || !SameBinding(oauth.value, id, issuer, expectedUrl)
      {
        return;
      }
      var current := oauth.value;
      if Valid(current, now) && (!force || current.token.access != observed.token.access) {
        reply := Ok(current);
        return;
      }
      if !CanRefresh(current, now) {
        RequireAuthorizationOnce();
        return;
      }
      requests := 1;
      if answer.Denied? {
        RequireAuthorizationOnce();
        return;
      }
      current := Rotated(current, answer.token, answer.expiresIn, now);
      oauth := Some(current);
      authRequired := false;
      BumpConfigRevision();
      reply := Ok(current);
    }

    method MarkReauthorizationRequired(observed: OAuth)
      modifies this
      ensures Some(Value()) == Mark(Some(old(Value())), observed)
    {
      if oauth.Some? && oauth.value.token.access == observed.token.access {
        RequireAuthorizationOnce();
      }
    }

    method ClearOAuthCredentials()
      modifies this
      ensures Value() == ClearOAuth(old(Value()))
    {
      oauth := None;
      pending := None;
      stateHash := None;
      authRequired := false;
      BumpConfigRevision();
    }

    method ClearServerCredentials()
      modifies this
      ensures Value() == ClearAll(old(Value()))
    {
      headers := None;
      env := None;
      oauth := None;
      pending := None;
      stateHash := None;
      authRequired := false;
      BumpConfigRevision();
    }
  }
}
