/**
 The registration table and the processes that act on it.

 A step is one committed transaction, or a moment at which none commits. The network I/O between two transactions of
 one operation is the gap between two steps, so every interleaving of any number
 of begins, callbacks, refreshes, edits, clears and deletions is a trace.
 */
module Protocol {
  import opened Basics
  import opened ServerRow

  datatype Begin = Begin(id: nat, owner: Option<nat>, url: string)

  /** A callback that has claimed its transaction and is exchanging its code. */
  datatype Callback = Callback(id: nat, pending: Pending, expectedRevision: nat)

  /** The used sets record every id, state and claim ever minted: minted values are unused ones. */
  datatype State = State(
    db: map<nat, Row>, begins: map<nat, Begin>, callbacks: map<nat, Callback>,
    usedIds: set<nat>, usedStates: set<string>, usedClaims: set<nat>, claimedStates: set<string>)

  datatype Step =
    | Register(id: nat, r: Registration, admitted: bool)
    | Update(id: nat, edit: Edit, admitted: bool)
    | LoadBegin(begin: nat, id: nat, owner: Option<nat>)
    | PersistBegin(begin: nat, minted: Pending)
    | ClaimCallback(claim: nat, id: nat, code: string, state: string, iss: Option<string>,
                    serverId: Option<nat>, owner: Option<nat>, now: real)
    | InstallToken(claim: nat, token: Token, expiresAt: Option<real>)
    | AbandonExchange(claim: nat)
    | RefreshToken(id: nat, issuer: string, url: string, observed: OAuth, force: bool, now: real, answer: TokenReply)
    | MarkRequired(id: nat, observed: OAuth)
    | ClearOAuthOf(id: nat, owner: Option<nat>)
    | ClearAllOf(id: nat, owner: Option<nat>)
    | Delete(id: nat)
    | RecordOutcome(id: nat, reauthorization: bool)
    | Idle

  function Find(db: map<nat, Row>, id: nat): Option<Row> {
    if id in db then Some(db[id]) else None
  }

  /** The display-name collision check, run under the lock on that name. */
  predicate NameTaken(db: map<nat, Row>, name: string, owner: Option<nat>, isSystem: bool, exclude: Option<nat>) {
    exists id | id in db && exclude != Some(id) ::
      db[id].name == name && (isSystem || db[id].owner == owner || (owner.Some? && db[id].isSystem))
  }

  function Commit(s: State, row: Row): State {
    s.(db := s.db[row.id := row])
  }

  function UpdateResult(s: State, id: nat, e: Edit, admitted: bool): Result<Row, Error> {
    if id !in s.db then Err(NotFound)
    else UpdateRow(s.db[id], e, admitted,
                   NameTaken(s.db, Or(e.name, s.db[id].name), s.db[id].owner, s.db[id].isSystem, Some(id)))
  }

  function ClaimResult(s: State, step: Step): ClaimOutcome
    requires step.ClaimCallback?
  {
    Claim(Find(s.db, step.id), step.claim, step.code, step.state, step.iss, step.serverId, step.owner, step.now)
  }

  function InstallResult(s: State, step: Step): Result<Row, Error>
    requires step.InstallToken? && step.claim in s.callbacks
  {
    var cb := s.callbacks[step.claim];
    Install(Find(s.db, cb.pending.grant.serverId), cb.pending, step.claim, cb.expectedRevision, step.token, step.expiresAt)
  }

  function RefreshResult(s: State, step: Step): Refreshed
    requires step.RefreshToken?
  {
    Refresh(step.id, Find(s.db, step.id), step.issuer, step.url, step.observed, step.force, step.now, step.answer)
  }

  /** Steps that only rewrite one existing row, and what they rewrite it to. */
  function Rewritten(s: State, step: Step): Option<Row> {
    match step
    case RefreshToken(id, _, _, _, _, _, _) => RefreshResult(s, step).row
    case MarkRequired(id, observed) => Mark(Find(s.db, id), observed)
    case ClearOAuthOf(id, owner) => if id in s.db && VisibleTo(s.db[id], owner) then Some(ClearOAuth(s.db[id])) else None
    case ClearAllOf(id, owner) => if id in s.db && VisibleTo(s.db[id], owner) then Some(ClearAll(s.db[id])) else None
    case RecordOutcome(id, reauth) => if id in s.db && reauth then Some(s.db[id].(authRequired := true)) else None
    case _ => None
  }

  function Rewrite(s: State, id: nat, row: Option<Row>): State {
    if row.Some? then s.(db := s.db[id := row.value]) else s
  }

  /** Values the environment supplies are unused ones where the source draws them from a secure generator. */
  ghost predicate Enabled(s: State, step: Step) {
    match step
    case Register(id, _, _) => id !in s.usedIds
    case PersistBegin(b, p) =>
      && b in s.begins && p.claim == None && p.state !in s.usedStates
      && p.grant.serverId == s.begins[b].id && p.grant.serverUrl == s.begins[b].url
    case ClaimCallback(c, _, _, _, _, _, _, _) => c !in s.usedClaims
    case InstallToken(c, _, _) => c in s.callbacks
    case _ => true
  }

  ghost function Next(s: State, step: Step): State
    requires Enabled(s, step)
  {
    match step
    case Register(id, r, admitted) =>
      var res := RegisterRow(id, r, admitted, NameTaken(s.db, r.name, r.owner, r.isSystem, None));
      if res.Ok? then Commit(s, res.value).(usedIds := s.usedIds + {id}) else s
    case Update(id, e, admitted) =>
      var res := UpdateResult(s, id, e, admitted);
      if res.Ok? then s.(db := s.db[id := res.value]) else s
    case LoadBegin(b, id, owner) =>
      var res := BeginLoad(Find(s.db, id), owner);
      if res.Ok? then s.(begins := s.begins[b := Begin(id, owner, res.value)]) else s
    case PersistBegin(b, p) =>
      var begin := s.begins[b];
      var res := BeginPersist(Find(s.db, begin.id), begin.owner, p);
      var used := s.(usedStates := s.usedStates + {p.state});
      if res.Ok? then used.(db := s.db[begin.id := res.value]) else used
    case ClaimCallback(c, id, _, _, _, _, _, _) =>
      var used := s.(usedClaims := s.usedClaims + {c});
      (match ClaimResult(s, step)
       case Refused(_) => used
       case Expired(row) => used.(db := s.db[id := row])
       case Claimed(row, p, rev) =>
         used.(db := s.db[id := row], callbacks := s.callbacks[c := Callback(id, p, rev)],
               claimedStates := s.claimedStates + {p.state}))
    case InstallToken(c, _, _) =>
      var res := InstallResult(s, step);
      var done := s.(callbacks := s.callbacks - {c});
      if res.Ok? then done.(db := s.db[s.callbacks[c].pending.grant.serverId := res.value]) else done
    case AbandonExchange(c) => s.(callbacks := s.callbacks - {c})
    case Delete(id) => s.(db := s.db - {id})
    case RefreshToken(id, _, _, _, _, _, _) => Rewrite(s, id, Rewritten(s, step))
    case MarkRequired(id, _) => Rewrite(s, id, Rewritten(s, step))
    case ClearOAuthOf(id, _) => Rewrite(s, id, Rewritten(s, step))
    case ClearAllOf(id, _) => Rewrite(s, id, Rewritten(s, step))
    case RecordOutcome(id, _) => Rewrite(s, id, Rewritten(s, step))
    case Idle => s
  }

  ghost predicate Init(s: State) {
    s == State(map[], map[], map[], {}, {}, {}, {})
  }

  // ----- the invariant ------------------------------------------------------------

  /** Two registrations share a display name only when their owners differ and neither is a system row. */
  ghost predicate NamesOk(db: map<nat, Row>) {
    forall a, b | a in db && b in db && a != b && db[a].name == db[b].name ::
      db[a].owner != db[b].owner && !db[a].isSystem && !db[b].isSystem
  }

  ghost predicate RowsOk(s: State) {
    forall id | id in s.db :: s.db[id].id == id && RowOk(s.db[id]) && id in s.usedIds
  }

  /** A published state belongs to one row, was minted, and has never been claimed. */
  ghost predicate StatesOk(s: State) {
    && (forall id | id in s.db && s.db[id].pending.Some? ::
          && s.db[id].pending.value.state in s.usedStates
          && (s.db[id].stateHash.Some? ==> s.db[id].pending.value.state !in s.claimedStates))
    && (forall a, b | a in s.db && b in s.db && a != b && s.db[a].stateHash.Some? ::
          s.db[a].stateHash != s.db[b].stateHash)
  }

  ghost predicate CallbacksOk(s: State) {
    && s.claimedStates <= s.usedStates
    && (forall c | c in s.callbacks ::
          && c in s.usedClaims
          && s.callbacks[c].pending.claim == Some(c)
          && s.callbacks[c].pending.grant.serverId == s.callbacks[c].id
          && s.callbacks[c].pending.state in s.claimedStates)
  }

  ghost predicate Inv(s: State) {
    RowsOk(s) && NamesOk(s.db) && StatesOk(s) && CallbacksOk(s)
  }

  /** The collision check is exact: it refuses precisely the rows that would break the name rule. */
  lemma NameCheckIsExact(db: map<nat, Row>, id: nat, row: Row, exclude: Option<nat>)
    requires forall a | a in db :: db[a].isSystem ==> db[a].owner == None
    requires NamesOk(db) && (row.isSystem ==> row.owner == None)
    requires if id in db then exclude == Some(id) && db[id].owner == row.owner && db[id].isSystem == row.isSystem
             else exclude == None
    ensures NameTaken(db, row.name, row.owner, row.isSystem, exclude) <==> !NamesOk(db[id := row])
  {
    var after := db[id := row];
    if NameTaken(db, row.name, row.owner, row.isSystem, exclude) {
      var a :| a in db && exclude != Some(a) && db[a].name == row.name &&
        (row.isSystem || db[a].owner == row.owner || (row.owner.Some? && db[a].isSystem));
      assert after[a] == db[a] && after[id] == row;
    } else {
      forall a, b | a in after && b in after && a != b && after[a].name == after[b].name
        ensures after[a].owner != after[b].owner && !after[a].isSystem && !after[b].isSystem
      {
        var other := if a == id then b else a;
        if a == id || b == id {
          assert other in db && exclude != Some(other);
        } else {
          assert a in db && b in db;
        }
      }
    }
  }

  /** Committing a row that publishes no new state keeps the invariant if the names stay apart. */
  lemma CommitKeepsInv(s: State, id: nat, row: Row)
    requires Inv(s) && id in s.db && row.id == id && RowOk(row) && NamesOk(s.db[id := row])
    requires row.stateHash == s.db[id].stateHash || row.stateHash == None
    requires row.pending.Some? ==>
      s.db[id].pending.Some? && row.pending.value.state == s.db[id].pending.value.state
    ensures Inv(s.(db := s.db[id := row]))
  {
  }

  /** The row a step rewrites keeps its identity and publishes no new state. */
  ghost predicate Quiet(before: Row, after: Row) {
    && after.id == before.id && after.name == before.name
    && after.owner == before.owner && after.isSystem == before.isSystem
    && (after.stateHash == before.stateHash || after.stateHash == None)
    && (after.pending.Some? ==> before.pending.Some? && after.pending.value.state == before.pending.value.state)
    && (RowOk(before) ==> RowOk(after))
  }

  lemma QuietCommitKeepsInv(s: State, id: nat, row: Row)
    requires Inv(s) && id in s.db && Quiet(s.db[id], row)
    ensures Inv(s.(db := s.db[id := row]))
  {
    assert s.db[id].id == id && RowOk(s.db[id]);
    assert NamesOk(s.db[id := row]);
    CommitKeepsInv(s, id, row);
  }

  lemma RegisterKeepsInv(s: State, id: nat, row: Row)
    requires Inv(s) && id !in s.usedIds && row.id == id && RowOk(row) && row.pending == None && row.stateHash == None
    requires !NameTaken(s.db, row.name, row.owner, row.isSystem, None)
    ensures Inv(Commit(s, row).(usedIds := s.usedIds + {id}))
  {
    NameCheckIsExact(s.db, id, row, None);
  }

  lemma UpdateKeepsNames(db: map<nat, Row>, id: nat, row: Row)
    requires forall a | a in db :: db[a].isSystem ==> db[a].owner == None
    requires NamesOk(db) && id in db && row.owner == db[id].owner && row.isSystem == db[id].isSystem
    requires row.name != db[id].name ==> !NameTaken(db, row.name, row.owner, row.isSystem, Some(id))
    ensures NamesOk(db[id := row])
  {
    if row.name != db[id].name {
      NameCheckIsExact(db, id, row, Some(id));
    }
  }

  /** What an edit makes of a row: the same registration, no new state, and a free name if the name changes. */
  lemma EditedRowIsOk(s: State, id: nat, e: Edit, admitted: bool)
    requires UpdateResult(s, id, e, admitted).Ok? && s.db[id].id == id && RowOk(s.db[id])
    ensures var before, row := s.db[id], UpdateResult(s, id, e, admitted).value;
      && row.id == id && RowOk(row) && row.owner == before.owner && row.isSystem == before.isSystem
      && (row.stateHash == before.stateHash || row.stateHash == None)
      && (row.pending.Some? ==> before.pending.Some? && row.pending.value.state == before.pending.value.state)
      && (row.name != before.name ==> !NameTaken(s.db, row.name, row.owner, row.isSystem, Some(id)))
  {
    hide NameTaken, UpdateRow, RowOk;
  }

  lemma UpdateKeepsInv(s: State, id: nat, e: Edit, admitted: bool)
    requires Inv(s) && UpdateResult(s, id, e, admitted).Ok?
    ensures Inv(s.(db := s.db[id := UpdateResult(s, id, e, admitted).value]))
  {
    hide UpdateRow, RowOk, NameTaken, NamesOk, StatesOk;
    var row := UpdateResult(s, id, e, admitted).value;
    assert s.db[id].id == id && RowOk(s.db[id]);
    EditedRowIsOk(s, id, e, admitted);
    OnlySystemRowsAreOwnerless(s);
    UpdateKeepsNames(s.db, id, row);
    CommitKeepsInv(s, id, row);
  }

  lemma OnlySystemRowsAreOwnerless(s: State)
    requires RowsOk(s)
    ensures forall a | a in s.db :: s.db[a].isSystem ==> s.db[a].owner == None
  {
  }

  /** A begin publishes a state that no other row publishes and that nobody has claimed. */
  lemma PersistBeginKeepsInv(s: State, id: nat, owner: Option<nat>, p: Pending)
    requires Inv(s) && p.claim == None && p.state !in s.usedStates && p.grant.serverId == id
    requires BeginPersist(Find(s.db, id), owner, p).Ok?
    ensures Inv(s.(usedStates := s.usedStates + {p.state}, db := s.db[id := BeginPersist(Find(s.db, id), owner, p).value]))
  {
    var row := BeginPersist(Find(s.db, id), owner, p).value;
    var db := s.db[id := row];
    assert NamesOk(db);
    forall a, b | a in db && b in db && a != b && db[a].stateHash.Some?
      ensures db[a].stateHash != db[b].stateHash
    {
      assert a in s.db && b in s.db && RowOk(s.db[a]) && RowOk(s.db[b]);
    }
  }

  /** A claim, or an expiry, rewrites the row it found and withdraws the published state. */
  lemma ClaimedRowIsQuiet(s: State, step: Step)
    requires step.ClaimCallback? && !ClaimResult(s, step).Refused?
    ensures step.id in s.db
    ensures var before, res := s.db[step.id], ClaimResult(s, step);
      && Quiet(before, res.row) && res.row.stateHash == None && before.stateHash == Some(Sha256(step.state))
      && (res.Claimed? ==>
            && res.pending.state == step.state && res.pending.claim == Some(step.claim)
            && res.pending.grant.serverId == before.id)
  {
  }

  lemma ClaimNext(s: State, step: Step)
    requires step.ClaimCallback? && Enabled(s, step)
    ensures var used, res := s.(usedClaims := s.usedClaims + {step.claim}), ClaimResult(s, step);
      Next(s, step) ==
      if res.Refused? then used
      else if res.Expired? then used.(db := s.db[step.id := res.row])
      else used.(db := s.db[step.id := res.row],
                 callbacks := s.callbacks[step.claim := Callback(step.id, res.pending, res.expectedRevision)],
                 claimedStates := s.claimedStates + {res.pending.state})
  {
  }

  /** Recording a claim is harmless once no row publishes its state. */
  lemma RecordClaimKeepsInv(s: State, c: nat, cb: Callback)
    requires Inv(s) && cb.pending.claim == Some(c) && cb.pending.grant.serverId == cb.id
    requires cb.pending.state in s.usedStates
    requires forall a | a in s.db && s.db[a].stateHash.Some? ::
      s.db[a].pending.Some? && s.db[a].pending.value.state != cb.pending.state
    ensures Inv(s.(usedClaims := s.usedClaims + {c}, callbacks := s.callbacks[c := cb],
                   claimedStates := s.claimedStates + {cb.pending.state}))
  {
  }

  lemma UseClaimKeepsInv(s: State, c: nat)
    requires Inv(s)
    ensures Inv(s.(usedClaims := s.usedClaims + {c}))
  {
  }

  /** No other row publishes the state that a claim withdraws. */
  lemma ClaimedStateIsGone(s: State, step: Step)
    requires Inv(s) && step.ClaimCallback? && ClaimResult(s, step).Claimed?
    ensures var db := s.db[step.id := ClaimResult(s, step).row];
      forall a | a in db && db[a].stateHash.Some? :: db[a].pending.Some? && db[a].pending.value.state != step.state
    ensures step.state in s.usedStates
  {
    hide ClaimResult, Quiet, NamesOk, CallbacksOk;
    ClaimedRowIsQuiet(s, step);
    var db := s.db[step.id := ClaimResult(s, step).row];
    assert RowOk(s.db[step.id]);
    forall a | a in db && db[a].stateHash.Some?
      ensures db[a].pending.Some? && db[a].pending.value.state != step.state
    {
      assert a in s.db && a != step.id && RowOk(s.db[a]);
    }
  }

  /** A claim withdraws the state before recording it as claimed, so no published state is ever a claimed one. */
  lemma ClaimKeepsInv(s: State, step: Step)
    requires Inv(s) && step.ClaimCallback? && Enabled(s, step)
    ensures Inv(Next(s, step))
  {
    hide ClaimResult, Quiet, Inv, Next;
    ClaimNext(s, step);
    var res := ClaimResult(s, step);
    if res.Refused? {
      UseClaimKeepsInv(s, step.claim);
    } else {
      ClaimedRowIsQuiet(s, step);
      RowIdsOk(s, step.id);
      QuietCommitKeepsInv(s, step.id, res.row);
      var rewritten := s.(db := s.db[step.id := res.row]);
      if res.Expired? {
        UseClaimKeepsInv(rewritten, step.claim);
      } else {
        ClaimedStateIsGone(s, step);
        RecordClaimKeepsInv(rewritten, step.claim, Callback(step.id, res.pending, res.expectedRevision));
      }
    }
  }

  lemma RowIdsOk(s: State, id: nat)
    requires Inv(s) && id in s.db
    ensures s.db[id].id == id && RowOk(s.db[id])
  {
  }

  lemma InstallKeepsInv(s: State, step: Step)
    requires Inv(s) && step.InstallToken? && Enabled(s, step)
    ensures Inv(Next(s, step))
  {
    if InstallResult(s, step).Ok? {
      QuietCommitKeepsInv(s, s.callbacks[step.claim].pending.grant.serverId, InstallResult(s, step).value);
    }
  }

  lemma RewritesAreQuiet(s: State, step: Step)
    requires Rewritten(s, step).Some?
    ensures step.id in s.db && Quiet(s.db[step.id], Rewritten(s, step).value)
  {
  }

  lemma NextKeepsInv(s: State, step: Step)
    requires Inv(s) && Enabled(s, step)
    ensures Inv(Next(s, step))
  {
    match step
    case Register(id, r, admitted) =>
      var res := RegisterRow(id, r, admitted, NameTaken(s.db, r.name, r.owner, r.isSystem, None));
      if res.Ok? { RegisterKeepsInv(s, id, res.value); }
    case Update(id, e, admitted) =>
      if UpdateResult(s, id, e, admitted).Ok? { UpdateKeepsInv(s, id, e, admitted); }
    case PersistBegin(b, p) =>
      var begin := s.begins[b];
      if BeginPersist(Find(s.db, begin.id), begin.owner, p).Ok? { PersistBeginKeepsInv(s, begin.id, begin.owner, p); }
    case ClaimCallback(_, _, _, _, _, _, _, _) => ClaimKeepsInv(s, step);
    case InstallToken(_, _, _) => InstallKeepsInv(s, step);
    case LoadBegin(_, _, _) =>
    case AbandonExchange(_) =>
    case Delete(_) =>
    case Idle =>
    case _ =>
      if Rewritten(s, step).Some? {
        RewritesAreQuiet(s, step);
        QuietCommitKeepsInv(s, step.id, Rewritten(s, step).value);
      }
  }
}
