/**
 One persisted MCP server registration and the row-locked transactions on it.

 Every transaction is a function from the row it locks to the row it commits; a
 transaction that raises leaves the row as it was unless its result says otherwise.
 Encryption is an exact round trip, so the encrypted columns hold the values
 themselves; a hash is a constructor, hence injective.
 */
module ServerRow {
  import opened Basics

  datatype Transport = Stdio | Http | Sse

  datatype Error =
    | NotFound | Configuration | StateMismatch | CallbackFailed
    | ReauthorizationRequired | NameConflict | NotAdmitted

  datatype StateHash = Sha256(state: string)

  /** An OAuth client; a secret expiry of 0.0 means the secret never expires. */
  datatype Client = Client(clientId: string, secretExpiresAt: real)

  /** What a transaction and the credentials it yields are both bound to. */
  datatype Grant = Grant(serverId: nat, serverUrl: string, issuer: string, resource: string,
                         tokenEndpoint: string, client: Client)

  datatype Pending = Pending(grant: Grant, redirectUri: string, verifier: string, state: string,
                             expiresAt: real, claim: Option<nat>)

  datatype Token = Token(access: string, refresh: Option<string>, scope: Option<string>)

  datatype OAuth = OAuth(grant: Grant, token: Token, expiresAt: Option<real>)

  type Secrets = map<string, string>

  datatype Row = Row(
    id: nat, name: string, owner: Option<nat>, isSystem: bool,
    transport: Transport, command: Option<string>, url: Option<string>,
    headers: Option<Secrets>, env: Option<Secrets>,
    oauth: Option<OAuth>, pending: Option<Pending>, stateHash: Option<StateHash>,
    authRequired: bool, revision: nat)

  /** Everything a live connection is built from. */
  datatype Material = Material(
    name: string, transport: Transport, command: Option<string>, url: Option<string>,
    headers: Option<Secrets>, env: Option<Secrets>, oauth: Option<OAuth>)

  function MaterialOf(row: Row): Material {
    Material(row.name, row.transport, row.command, row.url, row.headers, row.env, row.oauth)
  }

  function Bump(row: Row): Row {
    row.(revision := row.revision + 1)
  }

  // ----- validation ---------------------------------------------------------

  predicate Truthy(secrets: Option<Secrets>) {
    secrets.Some? && |secrets.value| > 0
  }

  /** An empty mapping is stored as no credential at all. */
  function Stored(secrets: Option<Secrets>): Option<Secrets> {
    if Truthy(secrets) then secrets else None
  }

  predicate AuthCombinationOk(transport: Transport, headers: Option<Secrets>, env: Option<Secrets>,
                              oauthConfigured: bool)
  {
    && (Truthy(headers) ==> transport in {Http, Sse})
    && (Truthy(env) ==> transport == Stdio)
    && (oauthConfigured ==> transport == Http)
    && !(oauthConfigured && Truthy(headers))
  }

  /** The credential rules that every committed row obeys. */
  ghost predicate RowOk(row: Row) {
    && (row.isSystem ==> row.owner == None)
    && (row.oauth.Some? ==>
          && row.transport == Http && row.headers == None && row.env == None
          && row.oauth.value.grant.serverId == row.id
          && row.url == Some(row.oauth.value.grant.serverUrl))
    && (row.headers.Some? ==> Truthy(row.headers) && row.transport in {Http, Sse})
    && (row.env.Some? ==> Truthy(row.env) && row.transport == Stdio)
    && (row.pending.Some? ==> row.headers == None && row.pending.value.grant.serverId == row.id)
    && (row.stateHash.Some? ==>
          && row.pending.Some? && row.pending.value.claim == None
          && row.stateHash == Some(Sha256(row.pending.value.state)))
  }

  predicate VisibleTo(row: Row, owner: Option<nat>) {
    owner.Some? ==> row.owner == owner
  }

  // ----- registration and update --------------------------------------------

  datatype Registration = Registration(
    name: string, transport: Transport, command: Option<string>, url: Option<string>,
    headers: Option<Secrets>, env: Option<Secrets>, owner: Option<nat>, isSystem: bool)

  function RegisterRow(id: nat, r: Registration, admitted: bool, nameTaken: bool): (res: Result<Row, Error>)
    ensures res.Ok? ==> RowOk(res.value) && res.value.id == id && res.value.revision == 1
  {
    if r.isSystem && r.owner.Some? then Err(Configuration)
    else if !admitted then Err(NotAdmitted)
    else if !AuthCombinationOk(r.transport, r.headers, r.env, false) then Err(Configuration)
    else if nameTaken then Err(NameConflict)
    else Ok(Row(id, r.name, r.owner, r.isSystem, r.transport, r.command, r.url,
                Stored(r.headers), Stored(r.env), None, None, None, false, 1))
  }

  /** A credential argument that may be left out, which keeps the stored value. */
  datatype Change = Unset | Replace(secrets: Option<Secrets>)

  datatype Edit = Edit(name: Option<string>, transport: Option<Transport>, command: Option<string>,
                       url: Option<string>, headers: Change, env: Change)

  function Or<T>(change: Option<T>, current: T): T {
    if change.Some? then change.value else current
  }

  function OrElse<T>(change: Option<T>, current: Option<T>): Option<T> {
    if change.Some? then change else current
  }

  function Changed(change: Change, current: Option<Secrets>): Option<Secrets> {
    if change.Unset? then current else change.secrets
  }

  /** Why an update is refused, if it is; `admitted` is the allow-list and SSRF verdict. */
  function UpdateError(row: Row, e: Edit, admitted: bool, nameTaken: bool): Option<Error> {
    var url := OrElse(e.url, row.url);
    if row.headers.Some? && url != row.url && e.headers.Unset? then Some(Configuration)
    else if row.env.Some? && OrElse(e.command, row.command) != row.command && e.env.Unset? then Some(Configuration)
    else if row.oauth.Some? && url != Some(row.oauth.value.grant.serverUrl) then Some(Configuration)
    else if !admitted then Some(NotAdmitted)
    else if !AuthCombinationOk(Or(e.transport, row.transport), Changed(e.headers, row.headers),
                               Changed(e.env, row.env), row.oauth.Some?) then Some(Configuration)
    else if e.name.Some? && nameTaken then Some(NameConflict)
    else None
  }

  /** The row with the edit applied: static headers supersede an authorization under way. */
  function EditedRow(row: Row, e: Edit): Row {
    var edited := row.(name := Or(e.name, row.name), transport := Or(e.transport, row.transport),
                       command := OrElse(e.command, row.command), url := OrElse(e.url, row.url),
                       headers := if e.headers.Unset? then row.headers else Stored(e.headers.secrets),
                       env := if e.env.Unset? then row.env else Stored(e.env.secrets));
    if e.headers.Replace? && Truthy(e.headers.secrets)
    then edited.(pending := None, stateHash := None, authRequired := false)
    else edited
  }

  /** An edit leaves the registration, withdraws an authorization at most, and keeps the credential rules. */
  lemma EditIsOk(row: Row, e: Edit, admitted: bool, nameTaken: bool)
    requires UpdateError(row, e, admitted, nameTaken).None?
    ensures var r := EditedRow(row, e);
            && r.id == row.id && r.owner == row.owner && r.isSystem == row.isSystem && r.revision == row.revision
            && ((r.pending == row.pending && r.stateHash == row.stateHash) || (r.pending == None && r.stateHash == None))
            && r.name == Or(e.name, row.name) && (nameTaken ==> e.name == None)
            && (RowOk(row) ==> RowOk(Bump(r)))
  {
  }

  function UpdateRow(row: Row, e: Edit, admitted: bool, nameTaken: bool): (res: Result<Row, Error>)
    ensures res.Ok? ==> res.value.revision == row.revision + 1 && res.value.id == row.id
    ensures res.Ok? ==> res.value.owner == row.owner && res.value.isSystem == row.isSystem
    ensures res.Ok? ==> (res.value.pending == row.pending && res.value.stateHash == row.stateHash)
                        || (res.value.pending == None && res.value.stateHash == None)
    ensures res.Ok? ==> res.value.name == Or(e.name, row.name) && (nameTaken ==> e.name == None)
    ensures res.Ok? && RowOk(row) ==> RowOk(res.value)
  {
    var refused := UpdateError(row, e, admitted, nameTaken);
    if refused.Some? then Err(refused.value)
    else
      EditIsOk(row, e, admitted, nameTaken);
      hide UpdateError, RowOk, EditedRow;
      Ok(Bump(EditedRow(row, e)))
  }

  /** What is stored for a credential argument: an empty mapping counts as none. */
  predicate Retains(stored: Option<Secrets>, given: Option<Secrets>) {
    stored == if given == Some(map[]) then None else given
  }

  /** A registration is admitted exactly if its name is free and its row obeys every credential rule. */
  lemma RegistrationIsExact(r: Registration, row: Row, admitted: bool, nameTaken: bool)
    requires row.name == r.name && row.owner == r.owner && row.isSystem == r.isSystem && row.transport == r.transport
    requires row.command == r.command && row.url == r.url && Retains(row.headers, r.headers) && Retains(row.env, r.env)
    requires row.oauth == None && row.pending == None && row.stateHash == None && !row.authRequired && row.revision == 1
    ensures var res := RegisterRow(row.id, r, admitted, nameTaken);
            && (res.Ok? <==> admitted && !nameTaken && RowOk(row))
            && (res.Ok? ==> res.value == row)
  {
  }

  /** The row that an edit asks for. */
  ghost predicate Asked(row: Row, e: Edit, after: Row) {
    && after.name == (if e.name == None then row.name else e.name.value)
    && after.transport == (if e.transport == None then row.transport else e.transport.value)
    && after.command == (if e.command == None then row.command else e.command)
    && after.url == (if e.url == None then row.url else e.url)
    && (if e.headers.Unset? then after.headers == row.headers else Retains(after.headers, e.headers.secrets))
    && (if e.env.Unset? then after.env == row.env else Retains(after.env, e.env.secrets))
    && after.oauth == row.oauth && after.id == row.id && after.owner == row.owner && after.isSystem == row.isSystem
    && after.revision == row.revision + 1
    // New static headers end an authorization under way.
    && (if e.headers.Replace? && after.headers.Some?
        then after.pending == None && after.stateHash == None && !after.authRequired
        else after.pending == row.pending && after.stateHash == row.stateHash && after.authRequired == row.authRequired)
  }

  lemma AskedIsEdited(row: Row, e: Edit, after: Row)
    requires Asked(row, e, after)
    ensures after == Bump(EditedRow(row, e))
  {
  }

  /** The credential check is the one that keeps the credential rules. */
  predicate Combines(row: Row, e: Edit) {
    && AuthCombinationOk(Or(e.transport, row.transport), Changed(e.headers, row.headers),
                         Changed(e.env, row.env), row.oauth.Some?)
    && (row.oauth.Some? ==> OrElse(e.url, row.url) == Some(row.oauth.value.grant.serverUrl))
  }

  lemma TruthyIsSome(secrets: Option<Secrets>)
    ensures Truthy(secrets) ==> secrets.Some?
  {
  }

  lemma CombinedIsOk(row: Row, e: Edit)
    requires RowOk(row) && Combines(row, e)
    ensures RowOk(Bump(EditedRow(row, e)))
  {
    hide Truthy;
    TruthyIsSome(Changed(e.headers, row.headers));
    TruthyIsSome(Changed(e.env, row.env));
  }

  lemma OkIsCombined(row: Row, e: Edit)
    requires RowOk(row) && RowOk(Bump(EditedRow(row, e)))
    ensures Combines(row, e)
  {
    hide Truthy;
    TruthyIsSome(Changed(e.headers, row.headers));
    TruthyIsSome(Changed(e.env, row.env));
  }

  lemma NoErrorIff(row: Row, e: Edit, admitted: bool, nameTaken: bool)
    ensures UpdateError(row, e, admitted, nameTaken).None? <==>
              && admitted && (e.name.Some? ==> !nameTaken) && Combines(row, e)
              && (row.headers.Some? && e.headers.Unset? ==> OrElse(e.url, row.url) == row.url)
              && (row.env.Some? && e.env.Unset? ==> OrElse(e.command, row.command) == row.command)
  {
    hide AuthCombinationOk, OrElse, Or, Changed;
  }

  lemma ErrorsAreExact(row: Row, e: Edit, admitted: bool, nameTaken: bool)
    requires RowOk(row)
    ensures var after := EditedRow(row, e);
            UpdateError(row, e, admitted, nameTaken).None? <==>
              && admitted && (e.name.Some? ==> !nameTaken) && RowOk(Bump(after))
              && (row.headers.Some? && e.headers.Unset? ==> after.url == row.url)
              && (row.env.Some? && e.env.Unset? ==> after.command == row.command)
  {
    hide RowOk, Combines, UpdateError, OrElse;
    NoErrorIff(row, e, admitted, nameTaken);
    if Combines(row, e) {
      CombinedIsOk(row, e);
    }
    if RowOk(Bump(EditedRow(row, e))) {
      OkIsCombined(row, e);
    }
  }

  /**
   An edit is admitted exactly if its name is free, its row obeys every credential rule, and no stored
   credential goes to an endpoint it was not given for; and then it takes effect field by field.
   */
  lemma UpdateIsExact(row: Row, e: Edit, after: Row, admitted: bool, nameTaken: bool)
    requires RowOk(row) && Asked(row, e, after)
    ensures var res := UpdateRow(row, e, admitted, nameTaken);
            && (res.Ok? <==>
                  && admitted && (e.name.Some? ==> !nameTaken) && RowOk(after)
                  && (row.headers.Some? && e.headers.Unset? ==> after.url == row.url)
                  && (row.env.Some? && e.env.Unset? ==> after.command == row.command))
            && (res.Ok? ==> res.value == after)
  {
    hide UpdateError, EditedRow, RowOk, Asked;
    AskedIsEdited(row, e, after);
    ErrorsAreExact(row, e, admitted, nameTaken);
  }

  // ----- OAuth begin, claim and install ---------------------------------------

  /** The first transaction of a begin: what it reads before any network I/O. */
  function BeginLoad(row: Option<Row>, owner: Option<nat>): Result<string, Error> {
    if row.None? || !VisibleTo(row.value, owner) then Err(NotFound)
    else if row.value.transport != Http || row.value.url == None || row.value.url == Some("") then Err(Configuration)
    else if row.value.headers.Some? || row.value.env.Some? then Err(Configuration)
    else Ok(row.value.url.value)
  }

  function BeginPersist(row: Option<Row>, owner: Option<nat>, minted: Pending): (res: Result<Row, Error>)
    ensures res.Ok? ==> row.Some? && res.value.revision == row.value.revision + 1
    ensures res.Ok? ==> res.value.owner == row.value.owner && res.value.isSystem == row.value.isSystem
    ensures res.Ok? && RowOk(row.value) && minted.claim == None && minted.grant.serverId == row.value.id
            ==> RowOk(res.value)
  {
    if row.None? || row.value.url != Some(minted.grant.serverUrl) || !VisibleTo(row.value, owner) then Err(NotFound)
    else if row.value.transport != Http || row.value.headers.Some? || row.value.env.Some? then Err(Configuration)
    else Ok(Bump(row.value.(pending := Some(minted), stateHash := Some(Sha256(minted.state)), authRequired := true)))
  }

  datatype ClaimOutcome =
    | Refused(error: Error)
    | Expired(row: Row)
    | Claimed(row: Row, pending: Pending, expectedRevision: nat)

  predicate Matches(row: Row, state: string, serverId: Option<nat>) {
    && row.stateHash == Some(Sha256(state))
    && (serverId.Some? ==> row.id == serverId.value)
  }

  /** The claim transaction, on the row that the state-hash lookup returned. */
  function Claim(row: Option<Row>, claimId: nat, code: string, state: string, iss: Option<string>,
                 serverId: Option<nat>, owner: Option<nat>, now: real): ClaimOutcome
  {
    if code == "" || state == "" then Refused(CallbackFailed)
    else if row.None? || !Matches(row.value, state, serverId) || !VisibleTo(row.value, owner) then Refused(StateMismatch)
    else if row.value.pending.None? || row.value.pending.value.state != state then Refused(StateMismatch)
    else
      var pending := row.value.pending.value;
      if now > pending.expiresAt then Expired(row.value.(pending := None, stateHash := None))
      else if iss.Some? && iss.value != pending.grant.issuer then Refused(StateMismatch)
      else if row.value.url != Some(pending.grant.serverUrl) || row.value.id != pending.grant.serverId then
        Refused(StateMismatch)
      else
        var marked := pending.(claim := Some(claimId));
        Claimed(row.value.(pending := Some(marked), stateHash := None), marked, row.value.revision)
  }

  /** The compare-and-set that stores an exchanged token. */
  function Install(row: Option<Row>, pending: Pending, claimId: nat, expectedRevision: nat,
                   token: Token, expiresAt: Option<real>): (res: Result<Row, Error>)
    ensures res.Ok? ==> row.Some? && res.value.revision == row.value.revision + 1
    ensures res.Ok? ==> res.value.owner == row.value.owner && res.value.isSystem == row.value.isSystem
    ensures res.Ok? && RowOk(row.value) && pending.grant.serverId == row.value.id ==> RowOk(res.value)
  {
    if row.None? || row.value.url != Some(pending.grant.serverUrl) then Err(NotFound)
    else if
      || row.value.revision != expectedRevision
      || row.value.pending.None?
      || row.value.pending.value.claim != Some(claimId)
      || row.value.stateHash.Some?
      || row.value.headers.Some? || row.value.env.Some?
      || row.value.transport != Http
    then Err(StateMismatch)
    else Ok(Bump(row.value.(oauth := Some(OAuth(pending.grant, token, expiresAt)),
                            pending := None, authRequired := false)))
  }

  // ----- refresh, mark and clear ------------------------------------------------

  /** A stored token is used only while it has more than 30 seconds to live. */
  predicate Valid(oauth: OAuth, now: real) {
    && oauth.token.access != ""
    && (oauth.expiresAt.Some? ==> now < oauth.expiresAt.value - 30.0)
  }

  predicate SameBinding(oauth: OAuth, serverId: nat, issuer: string, url: string) {
    oauth.grant.issuer == issuer && oauth.grant.serverUrl == url && oauth.grant.serverId == serverId
  }

  /** The token endpoint's answer to a refresh request; any failure is Denied. */
  datatype TokenReply = Denied | Granted(token: Token, expiresIn: Option<real>)

  datatype Refreshed = Refreshed(row: Option<Row>, reply: Result<OAuth, Error>, requests: nat)

  function RequireAuthorization(row: Row): Row {
    if row.authRequired then row else Bump(row.(authRequired := true))
  }

  predicate CanRefresh(current: OAuth, now: real) {
    && current.token.refresh.Some? && current.token.refresh.value != ""
    && current.grant.client.clientId != ""
    && current.grant.tokenEndpoint != ""
    && (current.grant.client.secretExpiresAt != 0.0 ==> now < current.grant.client.secretExpiresAt)
  }

  function Rotated(current: OAuth, token: Token, expiresIn: Option<real>, now: real): OAuth {
    current.(token := Token(token.access,
                            if token.refresh.Some? then token.refresh else current.token.refresh,
                            if token.scope.Some? then token.scope else current.token.scope),
             expiresAt := if expiresIn.Some? then Some(now + expiresIn.value) else None)
  }

  /** Refresh while holding the row lock, network request included. */
  function Refresh(serverId: nat, row: Option<Row>, issuer: string, url: string, observed: OAuth,
                   force: bool, now: real, answer: TokenReply): (res: Refreshed)
    ensures res.requests <= 1
    ensures res.row.Some? <==> row.Some?
    ensures row.Some? && RowOk(row.value) ==> RowOk(res.row.value) && res.row.value.id == row.value.id
  {
    if !SameBinding(observed, serverId, issuer, url) then Refreshed(row, Err(ReauthorizationRequired), 0)
    else if row.None? || row.value.url != Some(url) then Refreshed(row, Err(ReauthorizationRequired), 0)
    else if row.value.oauth.None? || !SameBinding(row.value.oauth.value, serverId, issuer, url) then
      Refreshed(row, Err(ReauthorizationRequired), 0)
    else
      var current := row.value.oauth.value;
      if Valid(current, now) && (!force || current.token.access != observed.token.access) then
        Refreshed(row, Ok(current), 0)
      else if !CanRefresh(current, now) then
        Refreshed(Some(RequireAuthorization(row.value)), Err(ReauthorizationRequired), 0)
      else if answer.Denied? then
        Refreshed(Some(RequireAuthorization(row.value)), Err(ReauthorizationRequired), 1)
      else
        var rotated := Rotated(current, answer.token, answer.expiresIn, now);
        Refreshed(Some(Bump(row.value.(oauth := Some(rotated), authRequired := false))), Ok(rotated), 1)
  }

  /** Record that the authorization behind `observed` was rejected. */
  function Mark(row: Option<Row>, observed: OAuth): (res: Option<Row>)
    ensures res.Some? <==> row.Some?
    ensures row.Some? && RowOk(row.value) ==> RowOk(res.value) && res.value.id == row.value.id
  {
    if row.None? || row.value.oauth.None? || row.value.oauth.value.token.access != observed.token.access then row
    else Some(RequireAuthorization(row.value))
  }

  function ClearOAuth(row: Row): (res: Row)
    ensures RowOk(row) ==> RowOk(res)
  {
    Bump(row.(oauth := None, pending := None, stateHash := None, authRequired := false))
  }

  function ClearAll(row: Row): (res: Row)
    ensures RowOk(row) ==> RowOk(res)
  {
    Bump(row.(headers := None, env := None, oauth := None, pending := None, stateHash := None, authRequired := false))
  }
}
