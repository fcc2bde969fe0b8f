/** Binding a tenant to a Meta phone number (app/services/meta_onboarding.py,
    app/services/meta_credentials.py): the user document and the credential row are written one
    after the other without a transaction, with a snapshot to roll the row back. */
module MetaBinding {
  import opened Common

  type UserId = int

  datatype Status = NeverLinked | Connected | InError | Disconnected | LegacyPoc

  /** `pnid` is the linked phone-number id, absent when it is null or blank. */
  datatype User = User(status: Status, pnid: Option<string>, lastPnid: Option<string>)

  /** What an authenticated ciphertext opens to. */
  datatype Cipher = Cipher(token: string, pnid: string)

  /** `cipher` is absent when the stored ciphertext is empty; "" stands for a missing algorithm or
      key id. */
  datatype Credential = Credential(
    cipher: Option<Cipher>,
    algorithm: string,
    keyId: string,
    expiresAt: Option<int>,
    scopes: Option<seq<string>>,
    createdAt: int,
    updatedAt: int)

  /** What Meta granted and verified: a token for a phone number. */
  datatype Link = Link(token: string, pnid: string, expiresAt: Option<int>)

  type Users = map<UserId, User>
  type Credentials = map<UserId, Credential>

  const AESGCM := "AESGCM"
  const KEY_ID := "v1"

  // ---- The credential row ---------------------------------------------------------------------------

  function Row(rows: Credentials, u: UserId): Option<Credential> {
    if u in rows then Some(rows[u]) else None
  }

  function WithRow(rows: Credentials, u: UserId, row: Option<Credential>): Credentials {
    if row.Some? then rows[u := row.value] else rows - {u}
  }

  function Upserted(current: Option<Credential>, link: Link, now: int): Credential {
    Credential(Some(Cipher(link.token, link.pnid)), AESGCM, KEY_ID, link.expiresAt, None,
               if current.Some? then current.value.createdAt else now, now)
  }

  /** The row after `restore_credentials_snapshot`. */
  function Restored(current: Option<Credential>, snapshot: Option<Credential>, now: int): Option<Credential> {
    if snapshot.None? || snapshot.value.cipher.None? then None
    else
      var row := snapshot.value;
      Some(row.(
           algorithm := if row.algorithm != "" then row.algorithm else AESGCM,
           keyId := if row.keyId != "" then row.keyId else KEY_ID,
           createdAt := if current.Some? then current.value.createdAt else row.createdAt,
           updatedAt := now))
  }

  /** Equal but for the time of the last write. */
  predicate SameContent(a: Option<Credential>, b: Option<Credential>) {
    (a.None? && b.None?) || (a.Some? && b.Some? && a.value.(updatedAt := b.value.updatedAt) == b.value)
  }

  /** A row this code wrote itself: nothing in it is missing. */
  predicate Complete(row: Option<Credential>) {
    row.Some? ==> row.value.cipher.Some? && row.value.algorithm != "" && row.value.keyId != ""
  }

  /** Upsert and restore cancel out exactly on complete rows. */
  lemma RestoreUndoesUpsert(previous: Option<Credential>, link: Link, wrote: int, now: int)
    ensures SameContent(Restored(Some(Upserted(previous, link, wrote)), previous, now), previous) <==> Complete(previous)
  {
  }

  datatype Resolution = Resolved(token: string, pnid: string) | Unresolved(reason: Reason)

  datatype Reason =
    | LegacyFlagInProduction | NumberNotLinked | NotConfigured | Expired | EmptyCredential
    | NumberMismatch | NotConnected

  /** The settings the resolver looks at: the legacy flag set in production, and the token for
      this user when the legacy policy allows it. */
  datatype Policy = Policy(blocked: bool, legacyToken: Option<string>)

  function LoadEncrypted(row: Option<Credential>, expected: string, now: int): Resolution {
    if row.None? then Unresolved(NotConfigured)
    else if row.value.expiresAt.Some? && row.value.expiresAt.value <= now then Unresolved(Expired)
    else if row.value.cipher.None? || row.value.cipher.value.token == "" then Unresolved(EmptyCredential)
    else if row.value.cipher.value.pnid != expected then Unresolved(NumberMismatch)
    else Resolved(row.value.cipher.value.token, expected)
  }

  function Resolve(user: User, row: Option<Credential>, policy: Policy, now: int): Resolution {
    if policy.blocked then Unresolved(LegacyFlagInProduction)
    else if user.pnid.None? then Unresolved(NumberNotLinked)
    else if user.status.Connected? then LoadEncrypted(row, user.pnid.value, now)
    else if user.status.LegacyPoc? then
      (if policy.legacyToken.Some? then Resolved(policy.legacyToken.value, user.pnid.value)
       else LoadEncrypted(row, user.pnid.value, now))
    else Unresolved(NotConnected)
  }

  // ---- Agreement ------------------------------------------------------------------------------------

  /** The stored credential is bound to the user's number, and a connected user has one. */
  predicate Agree(user: User, row: Option<Credential>) {
    && (row.Some? && row.value.cipher.Some? ==>
          user.pnid == Some(row.value.cipher.value.pnid) && row.value.cipher.value.token != "")
    && (user.status.Connected? ==> row.Some? && row.value.cipher.Some?)
  }

  predicate Unexpired(row: Option<Credential>, now: int) {
    row.Some? && (row.value.expiresAt.Some? ==> row.value.expiresAt.value > now)
  }

  /** For a connected user that agrees with its credential the resolver answers, with that user's
      own number, exactly until the credential expires. */
  lemma ResolverSucceeds(user: User, row: Option<Credential>, policy: Policy, now: int)
    requires Agree(user, row) && user.status.Connected? && !policy.blocked
    ensures Resolve(user, row, policy, now).Resolved? <==> Unexpired(row, now)
    ensures Resolve(user, row, policy, now).Resolved? ==>
              Resolve(user, row, policy, now) == Resolved(row.value.cipher.value.token, user.pnid.value)
  {
  }

  predicate Loads(row: Option<Credential>, pnid: string, now: int) {
    && Unexpired(row, now)
    && row.value.cipher.Some? && row.value.cipher.value.token != "" && row.value.cipher.value.pnid == pnid
  }

  /** The resolver answers exactly for a linked user, when the legacy flag is off in production, who is
      connected with a stored token for that number that has not expired, or is still on the legacy
      arrangement with the legacy token or such a stored one. */
  lemma ResolverAnswersExactly(user: User, row: Option<Credential>, policy: Policy, now: int)
    ensures Resolve(user, row, policy, now).Resolved? <==>
              && !policy.blocked && user.pnid.Some?
              && ((user.status.Connected? && Loads(row, user.pnid.value, now))
                  || (user.status.LegacyPoc? && (policy.legacyToken.Some? || Loads(row, user.pnid.value, now))))
    ensures Resolve(user, row, policy, now).Resolved? ==>
              var r := Resolve(user, row, policy, now);
              && r.pnid == user.pnid.value
              && r.token == if user.status.LegacyPoc? && policy.legacyToken.Some? then policy.legacyToken.value
                            else row.value.cipher.value.token
  {
  }

  /** Whatever is stored, the resolver never hands out a stored token for another number. */
  lemma ResolverIsBound(user: User, row: Option<Credential>, policy: Policy, now: int)
    requires Resolve(user, row, policy, now).Resolved? && policy.legacyToken.None?
    ensures row.Some? && row.value.cipher.Some?
    ensures Resolve(user, row, policy, now) == Resolved(row.value.cipher.value.token, row.value.cipher.value.pnid)
    ensures user.pnid == Some(row.value.cipher.value.pnid) && Unexpired(row, now)
  {
  }

  // ---- The two stores -------------------------------------------------------------------------------

  /** The unique index on the users' numbers raises for this write. */
  predicate Taken(users: Users, u: UserId, pnid: string) {
    exists v :: v in users && v != u && users[v].pnid == Some(pnid)
  }

  /** The user write of an onboarding; `seen` is the document the request read before it ran. */
  function Linked(user: User, seen: User, pnid: string, status: Status): User {
    User(status, Some(pnid),
         if seen.pnid.Some? && seen.pnid.value != pnid then seen.pnid else user.lastPnid)
  }

  function Unlinked(user: User, seen: User): User {
    User(Disconnected,
         if seen.pnid.Some? then None else user.pnid,
         if seen.pnid.Some? then seen.pnid else user.lastPnid)
  }

  /** What the calls between the two writes do: subscribe and register answer, or one of them (or
      the check of the business id) raises. */
  datatype Calls = Answer(subscribed: bool, registered: bool) | Raise

  function StatusAfter(calls: Calls): Status {
    if calls.Answer? && calls.subscribed && calls.registered then Connected else InError
  }

  datatype UserWrite = Written | DuplicateKey | WriteFails

  datatype Outcome = Completed(status: Status) | NotGranted | AlreadyLinked | Broken | RolledBack

  function OutcomeOf(users: Users, u: UserId, grant: Option<Link>, calls: Calls, write: UserWrite): Outcome {
    if grant.None? then NotGranted
    else if Taken(users, u, grant.value.pnid) then AlreadyLinked
    else if calls.Raise? then Broken
    else if !write.Written? then RolledBack
    else Completed(StatusAfter(calls))
  }

  /** The user changes only when the onboarding completes. */
  function UsersOnboarded(users: Users, u: UserId, grant: Option<Link>, outcome: Outcome): Users
    requires u in users && (outcome.Completed? ==> grant.Some?)
  {
    if outcome.Completed? then users[u := Linked(users[u], users[u], grant.value.pnid, outcome.status)] else users
  }

  /** The row is the new binding also after a raising call, and the restored one after a failed
      user write. */
  function RowsOnboarded(rows: Credentials, u: UserId, grant: Option<Link>, outcome: Outcome, now: int): Credentials
    requires !outcome.NotGranted? && !outcome.AlreadyLinked? ==> grant.Some?
  {
    match outcome
    case NotGranted => rows
    case AlreadyLinked => rows
    case RolledBack =>
      WithRow(rows, u, Restored(Some(Upserted(Row(rows, u), grant.value, now)), Row(rows, u), now))
    case _ => rows[u := Upserted(Row(rows, u), grant.value, now)]
  }

  class Stores {
    var users: Users
    var rows: Credentials

    constructor (users: Users, rows: Credentials)
      ensures this.users == users && this.rows == rows
    {
      this.users, this.rows := users, rows;
    }

    method UpsertEncryptedAccessToken(u: UserId, link: Link, now: int)
      modifies `rows
      ensures rows == old(rows)[u := Upserted(Row(old(rows), u), link, now)]
      ensures rows[u] == Credential(Some(Cipher(link.token, link.pnid)), "AESGCM", "v1", link.expiresAt, None,
                                    if u in old(rows) then old(rows)[u].createdAt else now, now)
    {
      var cipher := Some(Cipher(link.token, link.pnid));
      if u in rows {
        rows := rows[u := rows[u].(
          cipher := cipher, algorithm := AESGCM, keyId := KEY_ID,
          expiresAt := link.expiresAt, scopes := None, updatedAt := now)];
      } else {
        rows := rows[u := Credential(cipher, AESGCM, KEY_ID, link.expiresAt, None, now, now)];
      }
    }

    method RestoreCredentialsSnapshot(u: UserId, snapshot: Option<Credential>, now: int)
      modifies `rows
      ensures rows == WithRow(old(rows), u, Restored(Row(old(rows), u), snapshot, now))
    {
      if snapshot.None? || snapshot.value.cipher.None? {
        rows := rows - {u};
        return;
      }
      var s := snapshot.value;
      var algorithm := if s.algorithm != "" then s.algorithm else AESGCM;
      var keyId := if s.keyId != "" then s.keyId else KEY_ID;
      if u in rows {
        rows := rows[u := rows[u].(
          cipher := s.cipher, algorithm := algorithm, keyId := keyId,
          expiresAt := s.expiresAt, scopes := s.scopes, updatedAt := now)];
      } else {
        rows := rows[u := Credential(s.cipher, algorithm, keyId, s.expiresAt, s.scopes, s.createdAt, now)];
      }
    }

    /** An onboarding with nobody else writing in between. It links both stores, or leaves the user
        as it was; a failed user write also leaves the credential as it was, if that was complete;
        a raising call leaves the new credential in place. Nobody else is touched. */
    method CompleteOnboarding(u: UserId, grant: Option<Link>, calls: Calls, write: UserWrite, now: int)
      returns (outcome: Outcome)
      requires u in users
      modifies this
      ensures outcome == OutcomeOf(old(users), u, grant, calls, write)
      ensures users == UsersOnboarded(old(users), u, grant, outcome)
      ensures rows == RowsOnboarded(old(rows), u, grant, outcome, now)
      ensures outcome.RolledBack? ==>
                (SameContent(Row(rows, u), Row(old(rows), u)) <==> Complete(Row(old(rows), u)))
      ensures outcome == Completed(Connected) <==>
                grant.Some? && !Taken(old(users), u, grant.value.pnid)
                && calls == Answer(true, true) && write == Written
      ensures outcome == Completed(InError) <==>
                grant.Some? && !Taken(old(users), u, grant.value.pnid)
                && calls.Answer? && calls != Answer(true, true) && write == Written
      ensures outcome.Completed? ==>
                && outcome.status in {Connected, InError}
                && users[u].status == outcome.status && users[u].pnid == Some(grant.value.pnid)
                && users[u].lastPnid == (if old(users[u]).pnid in {None, Some(grant.value.pnid)}
                                         then old(users[u]).lastPnid else old(users[u]).pnid)
                && Row(rows, u).Some?
                && rows[u].cipher == Some(Cipher(grant.value.token, grant.value.pnid))
                && rows[u].expiresAt == grant.value.expiresAt && rows[u].scopes.None?
    {
      var seen := users[u];
      if grant.None? {
        return NotGranted;
      }
      var link := grant.value;
      if Taken(users, u, link.pnid) {
        return AlreadyLinked;
      }
      var previous := Row(rows, u);
      UpsertEncryptedAccessToken(u, link, now);
      if calls.Raise? {
        return Broken;
      }
      var status := Connected;
      if !calls.subscribed {
        status := InError;
      }
      if !calls.registered {
        status := InError;
      }
      if !write.Written? {
        RestoreUndoesUpsert(previous, link, now, now);
        RestoreCredentialsSnapshot(u, previous, now);
        return RolledBack;
      }
      var lastPnid := users[u].lastPnid;
      if seen.pnid.Some? && seen.pnid.value != link.pnid {
        lastPnid := seen.pnid;
      }
      users := users[u := User(status, Some(link.pnid), lastPnid)];
      return Completed(status);
    }

    method DisconnectMeta(u: UserId)
      requires u in users
      modifies this
      ensures users == old(users)[u := User(Disconnected, None, OrElse(old(users[u]).pnid, old(users[u]).lastPnid))]
      ensures rows == old(rows) - {u}
      ensures Agree(users[u], Row(rows, u))
    {
      var seen := users[u];
      rows := rows - {u};
      if seen.pnid.Some? {
        users := users[u := users[u].(lastPnid := seen.pnid, pnid := None)];
      }
      users := users[u := users[u].(status := Disconnected)];
    }

    method GetMetaCredentials(u: UserId, policy: Policy, now: int) returns (r: Resolution)
      requires u in users
      ensures r == Resolve(users[u], Row(rows, u), policy, now)
    {
      var user := users[u];
      if policy.blocked {
        return Unresolved(LegacyFlagInProduction);
      }
      if user.pnid.None? {
        return Unresolved(NumberNotLinked);
      }
      if user.status.Connected? {
        return LoadEncrypted(Row(rows, u), user.pnid.value, now);
      }
      if user.status.LegacyPoc? {
        if policy.legacyToken.Some? {
          return Resolved(policy.legacyToken.value, user.pnid.value);
        }
        return LoadEncrypted(Row(rows, u), user.pnid.value, now);
      }
      return Unresolved(NotConnected);
    }
  }

  // ---- Interleaved requests -------------------------------------------------------------------------

  /** Where a request stands. The stages from `Wrote` to `Deleted` lie between its two writes. */
  datatype Stage =
    | Opened
    | Granted(link: Link)
    | Available(link: Link)
    | Snapped(link: Link, previous: Option<Credential>)
    | Wrote(link: Link, previous: Option<Credential>)
    | Called(link: Link, previous: Option<Credential>, status: Status)
    | RollingBack(link: Link, previous: Option<Credential>)
    | Disconnecting
    | Deleted
    | Ended
    | Torn          // ended between its writes without rolling back

  datatype Request = Request(user: UserId, seen: User, stage: Stage)

  datatype State = State(clock: int, users: Users, rows: Credentials, requests: seq<Request>)

  /** One command of a request. */
  datatype Action =
    | Grant(link: Link)
    | CheckAvailable
    | Snapshot
    | Upsert
    | Call(subscribed: bool, registered: bool)
    | WriteUser
    | UserWriteFails
    | Restore
    | DeleteRow
    | WriteDisconnected
    | Abort

  datatype Step =
    | Tick(seconds: nat)
    | Open(u: UserId, disconnect: bool)
    | MarkAuthDeath(u: UserId)
    | Move(w: nat, action: Action)

  predicate BetweenWrites(stage: Stage) {
    stage.Wrote? || stage.Called? || stage.RollingBack? || stage.Deleted?
  }

  predicate Over(stage: Stage) {
    stage.Ended? || stage.Torn?
  }

  predicate MayMove(stage: Stage, action: Action) {
    match action
    case Grant(link) => stage.Opened? && link.token != ""
    case CheckAvailable => stage.Granted?
    case Snapshot => stage.Available?
    case Upsert => stage.Snapped?
    case Call(_, _) => stage.Wrote?
    case WriteUser => stage.Called?
    case UserWriteFails => stage.Called?
    case Restore => stage.RollingBack?
    case DeleteRow => stage.Disconnecting?
    case WriteDisconnected => stage.Deleted?
    case Abort => !Over(stage)
  }

  predicate Enabled(s: State, step: Step) {
    match step
    case Tick(_) => true
    case Open(u, _) => u in s.users
    case MarkAuthDeath(u) => u in s.users
    case Move(w, action) => w < |s.requests| && MayMove(s.requests[w].stage, action)
  }

  function StageAfter(s: State, r: Request, action: Action): Stage
    requires MayMove(r.stage, action)
  {
    match action
    case Grant(link) => Granted(link)
    case CheckAvailable => if Taken(s.users, r.user, r.stage.link.pnid) then Ended else Available(r.stage.link)
    case Snapshot => Snapped(r.stage.link, Row(s.rows, r.user))
    case Upsert => Wrote(r.stage.link, r.stage.previous)
    case Call(subscribed, registered) =>
      Called(r.stage.link, r.stage.previous, StatusAfter(Answer(subscribed, registered)))
    case WriteUser =>
      if Taken(s.users, r.user, r.stage.link.pnid) then RollingBack(r.stage.link, r.stage.previous) else Ended
    case UserWriteFails => RollingBack(r.stage.link, r.stage.previous)
    case Restore => Ended
    case DeleteRow => Deleted
    case WriteDisconnected => Ended
    case Abort => if BetweenWrites(r.stage) then Torn else Ended
  }

  function RowsAfter(s: State, r: Request, action: Action): Credentials
    requires MayMove(r.stage, action)
  {
    match action
    case Upsert => s.rows[r.user := Upserted(Row(s.rows, r.user), r.stage.link, s.clock)]
    case Restore => WithRow(s.rows, r.user, Restored(Row(s.rows, r.user), r.stage.previous, s.clock))
    case DeleteRow => s.rows - {r.user}
    case _ => s.rows
  }

  function UsersAfter(s: State, r: Request, action: Action): Users
    requires MayMove(r.stage, action)
  {
    if r.user !in s.users then s.users
    else
      match action
      case WriteUser =>
        if Taken(s.users, r.user, r.stage.link.pnid) then s.users
        else s.users[r.user := Linked(s.users[r.user], r.seen, r.stage.link.pnid, r.stage.status)]
      case WriteDisconnected => s.users[r.user := Unlinked(s.users[r.user], r.seen)]
      case _ => s.users
  }

  function After(s: State, step: Step): State
    requires Enabled(s, step)
  {
    match step
    case Tick(seconds) => s.(clock := s.clock + seconds)
    case Open(u, disconnect) =>
      s.(requests := s.requests + [Request(u, s.users[u], if disconnect then Disconnecting else Opened)])
    case MarkAuthDeath(u) => s.(users := s.users[u := s.users[u].(status := InError)])
    case Move(w, action) =>
      var r := s.requests[w];
      State(s.clock, UsersAfter(s, r, action), RowsAfter(s, r, action),
            s.requests[w := r.(stage := StageAfter(s, r, action))])
  }

  ghost predicate Next(s: State, t: State) {
    exists step :: Enabled(s, step) && t == After(s, step)
  }

  /** A run from stores that agree, with no request open. */
  ghost predicate Run(run: seq<State>) {
    && run != []
    && run[0].requests == []
    && DistinctNumbers(run[0].users)
    && (forall u :: u in run[0].users ==> Agree(run[0].users[u], Row(run[0].rows, u)))
    && forall i :: 0 <= i < |run| - 1 ==> Next(run[i], run[i + 1])
  }

  ghost predicate DistinctNumbers(users: Users) {
    forall u, v :: u in users && v in users && u != v && users[u].pnid.Some? ==> users[u].pnid != users[v].pnid
  }

  /** No two open requests of one user, and none torn. Different users may interleave at will. */
  ghost predicate Calm(s: State) {
    && (forall v, w :: 0 <= v < w < |s.requests| && s.requests[v].user == s.requests[w].user ==>
          Over(s.requests[v].stage) || Over(s.requests[w].stage))
    && (forall w :: 0 <= w < |s.requests| ==> !s.requests[w].stage.Torn?)
  }

  ghost predicate Busy(s: State, u: UserId) {
    exists w :: 0 <= w < |s.requests| && s.requests[w].user == u && BetweenWrites(s.requests[w].stage)
  }

  predicate HasLink(stage: Stage) {
    || stage.Granted? || stage.Available? || stage.Snapped?
    || stage.Wrote? || stage.Called? || stage.RollingBack?
  }

  /** What an open request may rely on. */
  predicate RequestFollows(s: State, r: Request) {
    && r.user in s.users
    && (!Over(r.stage) ==> r.seen.pnid == s.users[r.user].pnid)
    && (HasLink(r.stage) ==> r.stage.link.token != "")
    && (r.stage.Snapped? ==> r.stage.previous == Row(s.rows, r.user))
    && (r.stage.Wrote? || r.stage.Called? || r.stage.RollingBack? ==>
          && Agree(s.users[r.user], r.stage.previous)
          && Row(s.rows, r.user).Some?
          && s.rows[r.user].cipher == Some(Cipher(r.stage.link.token, r.stage.link.pnid))
          && (r.stage.previous.Some? ==> s.rows[r.user].createdAt == r.stage.previous.value.createdAt))
    && (r.stage.Deleted? ==> Row(s.rows, r.user).None?)
  }

  predicate UserFollows(s: State, u: UserId) {
    u in s.users ==> Agree(s.users[u], Row(s.rows, u))
  }

  ghost predicate Follows(s: State) {
    && (forall w :: 0 <= w < |s.requests| ==> RequestFollows(s, s.requests[w]))
    && (forall u :: UserFollows(s, u) || Busy(s, u))
  }

  /** Over every run, calm or not, no number is linked to two users. */
  lemma {:induction false} EveryRunKeepsNumbersDistinct(run: seq<State>, i: nat)
    requires Run(run) && i < |run|
    ensures DistinctNumbers(run[i].users)
  {
    if i > 0 {
      EveryRunKeepsNumbersDistinct(run, i - 1);
      assert Next(run[i - 1], run[i - 1 + 1]);
      var step :| Enabled(run[i - 1], step) && run[i] == After(run[i - 1], step);
      NumbersStayDistinct(run[i - 1], step);
    }
  }

  lemma NumbersStayDistinct(s: State, step: Step)
    requires DistinctNumbers(s.users) && Enabled(s, step)
    ensures DistinctNumbers(After(s, step).users)
  {
  }

  /** The only open request of a user keeps everyone else away from that user's stores. */
  lemma OnlyRequestOfUser(s: State, w: nat)
    requires Calm(s) && w < |s.requests| && !Over(s.requests[w].stage) && !BetweenWrites(s.requests[w].stage)
    ensures !Busy(s, s.requests[w].user)
  {
    forall v | 0 <= v < |s.requests| && s.requests[v].user == s.requests[w].user
      ensures !BetweenWrites(s.requests[v].stage)
    {
      if v != w {
        var first, second := if v < w then v else w, if v < w then w else v;
        assert Over(s.requests[first].stage) || Over(s.requests[second].stage);
      }
    }
  }

  /** A request that moves reaches a stage it may rely on. */
  lemma MoverFollows(s: State, w: nat, action: Action)
    requires Follows(s) && Calm(s) && Enabled(s, Move(w, action))
    ensures var t := After(s, Move(w, action)); RequestFollows(t, t.requests[w])
  {
    assert RequestFollows(s, s.requests[w]);
    if s.requests[w].stage.Snapped? {
      OnlyRequestOfUser(s, w);
      assert UserFollows(s, s.requests[w].user);
    }
  }

  /** Nobody else's move takes away what an open request relies on. */
  lemma BystanderFollows(s: State, w: nat, action: Action, v: nat)
    requires Follows(s) && Calm(s) && Enabled(s, Move(w, action))
    requires v < |s.requests| && v != w
    ensures var t := After(s, Move(w, action)); RequestFollows(t, t.requests[v])
  {
    assert RequestFollows(s, s.requests[v]) && RequestFollows(s, s.requests[w]);
    if s.requests[v].user == s.requests[w].user {
      assert !Over(s.requests[w].stage);
      var first, second := if v < w then v else w, if v < w then w else v;
      assert Over(s.requests[first].stage) || Over(s.requests[second].stage);
    }
  }

  lemma RequestStep(s: State, step: Step, v: nat)
    requires Follows(s) && Calm(s) && Enabled(s, step)
    requires v < |After(s, step).requests|
    ensures RequestFollows(After(s, step), After(s, step).requests[v])
  {
    match step
    case Move(w, action) =>
      hide RequestFollows, Calm, Follows, UsersAfter, RowsAfter;
      if v == w {
        MoverFollows(s, w, action);
      } else {
        BystanderFollows(s, w, action, v);
      }
    case _ =>
      assert v < |s.requests| ==> RequestFollows(s, s.requests[v]);
  }

  lemma UserStep(s: State, step: Step, u: UserId)
    requires Follows(s) && Calm(s) && Enabled(s, step)
    requires Calm(After(s, step))
    ensures UserFollows(After(s, step), u) || Busy(After(s, step), u)
  {
    var t := After(s, step);
    if step.Move? && s.requests[step.w].user == u {
      assert RequestFollows(s, s.requests[step.w]);
      assert t.requests[step.w].user == u;
      assert !t.requests[step.w].stage.Torn?;
      if !BetweenWrites(s.requests[step.w].stage) {
        OnlyRequestOfUser(s, step.w);
        assert UserFollows(s, u);
      }
    } else if Busy(s, u) {
      var w :| 0 <= w < |s.requests| && s.requests[w].user == u && BetweenWrites(s.requests[w].stage);
      assert t.requests[w] == s.requests[w];
    }
  }

  lemma FollowsStep(s: State, step: Step)
    requires Follows(s) && Calm(s) && Enabled(s, step)
    requires Calm(After(s, step))
    ensures Follows(After(s, step))
  {
    hide RequestFollows, UserFollows, Calm, Busy;
    var t := After(s, step);
    forall w | 0 <= w < |t.requests|
      ensures RequestFollows(t, t.requests[w])
    {
      RequestStep(s, step, w);
    }
    forall u
      ensures UserFollows(t, u) || Busy(t, u)
    {
      UserStep(s, step, u);
    }
  }

  lemma {:induction false} EveryCalmRunFollows(run: seq<State>, i: nat)
    requires Run(run) && i < |run|
    requires forall k :: 0 <= k < |run| ==> Calm(run[k])
    ensures Follows(run[i])
  {
    if i > 0 {
      EveryCalmRunFollows(run, i - 1);
      assert Next(run[i - 1], run[i - 1 + 1]);
      var step :| Enabled(run[i - 1], step) && run[i] == After(run[i - 1], step);
      FollowsStep(run[i - 1], step);
    }
  }

  /** If no user has two requests open at once and none is torn between its writes, then however the
      requests of different tenants interleave and whichever user writes fail: every user who is
      not between two writes agrees with the stored credential, and the resolver answers for every
      such connected user until the credential expires. */
  lemma CalmRunsAgree(run: seq<State>, i: nat, u: UserId, policy: Policy)
    requires Run(run) && i < |run|
    requires forall k :: 0 <= k < |run| ==> Calm(run[k])
    requires u in run[i].users && !Busy(run[i], u)
    ensures Agree(run[i].users[u], Row(run[i].rows, u))
    ensures run[i].users[u].status.Connected? && !policy.blocked ==>
              (Resolve(run[i].users[u], Row(run[i].rows, u), policy, run[i].clock).Resolved?
               <==> Unexpired(Row(run[i].rows, u), run[i].clock))
  {
    EveryCalmRunFollows(run, i);
    assert UserFollows(run[i], u);
    if run[i].users[u].status.Connected? && !policy.blocked {
      ResolverSucceeds(run[i].users[u], Row(run[i].rows, u), policy, run[i].clock);
    }
  }

  // ---- One request on its own ---------------------------------------------------------------------------

  /** An onboarding up to its first write with nobody else moving. */
  function UpToRow(s: State, w: nat, link: Link): State
    requires w < |s.requests| && s.requests[w].stage.Opened? && link.token != ""
  {
    var checked := After(After(s, Move(w, Grant(link))), Move(w, CheckAvailable));
    if checked.requests[w].stage.Ended? then checked
    else After(After(checked, Move(w, Snapshot)), Move(w, Upsert))
  }

  /** And from there to its end. */
  function FromRow(s: State, w: nat, calls: Calls, write: UserWrite): State
    requires w < |s.requests| && s.requests[w].stage.Wrote?
  {
    if calls.Raise? then After(s, Move(w, Abort))
    else
      var called := After(s, Move(w, Call(calls.subscribed, calls.registered)));
      if write.Written? then After(called, Move(w, WriteUser))
      else After(After(called, Move(w, UserWriteFails)), Move(w, Restore))
  }

  lemma UpToRowUpserts(s: State, w: nat, link: Link)
    requires w < |s.requests| && s.requests[w].stage.Opened? && link.token != ""
    ensures var r, t := s.requests[w], UpToRow(s, w, link);
            && t.clock == s.clock && t.users == s.users && |t.requests| == |s.requests|
            && (if Taken(s.users, r.user, link.pnid)
                then t.rows == s.rows && t.requests[w].stage == Ended
                else && t.rows == s.rows[r.user := Upserted(Row(s.rows, r.user), link, s.clock)]
                     && t.requests[w] == r.(stage := Wrote(link, Row(s.rows, r.user))))
  {
    hide Taken;
  }

  lemma FromRowEnds(s: State, w: nat, calls: Calls, write: UserWrite)
    requires w < |s.requests| && s.requests[w].stage.Wrote? && s.requests[w].user in s.users
    requires !Taken(s.users, s.requests[w].user, s.requests[w].stage.link.pnid)
    ensures var r, t := s.requests[w], FromRow(s, w, calls, write);
            && t.users == (if calls.Raise? || !write.Written? then s.users
                           else s.users[r.user := Linked(s.users[r.user], r.seen, r.stage.link.pnid, StatusAfter(calls))])
            && t.rows == (if calls.Raise? || write.Written? then s.rows
                          else WithRow(s.rows, r.user, Restored(Row(s.rows, r.user), r.stage.previous, s.clock)))
  {
    hide Taken, Restored, Linked;
  }

  /** The commands of one onboarding, taken together, do to the stores what `CompleteOnboarding`
      does. */
  lemma UndisturbedOnboardingIsComplete(s: State, w: nat, link: Link, calls: Calls, write: UserWrite)
    requires w < |s.requests| && s.requests[w].stage.Opened? && link.token != ""
    requires var r := s.requests[w]; r.user in s.users && r.seen == s.users[r.user]
    ensures var u, half := s.requests[w].user, UpToRow(s, w, link);
            var outcome := OutcomeOf(s.users, u, Some(link), calls, write);
            && w < |half.requests| && (outcome.AlreadyLinked? || half.requests[w].stage.Wrote?)
            && var t := if outcome.AlreadyLinked? then half else FromRow(half, w, calls, write);
               && t.users == UsersOnboarded(s.users, u, Some(link), outcome)
               && t.rows == RowsOnboarded(s.rows, u, Some(link), outcome, s.clock)
  {
    UpToRowUpserts(s, w, link);
    hide Taken, UpToRow, FromRow, Restored, Upserted, Linked;
    if !Taken(s.users, s.requests[w].user, link.pnid) {
      FromRowEnds(UpToRow(s, w, link), w, calls, write);
    }
  }

  /** And those of one disconnect what `DisconnectMeta` does. */
  lemma UndisturbedDisconnectIsComplete(s: State, w: nat)
    requires w < |s.requests| && s.requests[w].stage.Disconnecting?
    requires var r := s.requests[w]; r.user in s.users && r.seen == s.users[r.user]
    ensures var t, u := After(After(s, Move(w, DeleteRow)), Move(w, WriteDisconnected)), s.requests[w].user;
            && t.users == s.users[u := User(Disconnected, None, OrElse(s.users[u].pnid, s.users[u].lastPnid))]
            && t.rows == s.rows - {u}
  {
  }

  // ---- Who gets connected ---------------------------------------------------------------------------

  /** In every run a request that has its calls behind it made them in one step, and it goes on as
      connected exactly when both answers were true. */
  lemma {:induction false} CallsDecideStatus(run: seq<State>, i: nat, w: nat) returns (c: nat, subscribed: bool, registered: bool)
    requires Run(run) && i < |run|
    requires w < |run[i].requests| && run[i].requests[w].stage.Called?
    ensures c < i && Enabled(run[c], Move(w, Call(subscribed, registered)))
    ensures run[c + 1] == After(run[c], Move(w, Call(subscribed, registered)))
    ensures run[i].requests[w].stage.status == (if subscribed && registered then Connected else InError)
  {
    assert i > 0 && Next(run[i - 1], run[i - 1 + 1]);
    var step :| Enabled(run[i - 1], step) && run[i] == After(run[i - 1], step);
    hide RowsAfter, UsersAfter;
    if step.Move? && step.w == w {
      assert step.action.Call?;
      c, subscribed, registered := i - 1, step.action.subscribed, step.action.registered;
    } else {
      c, subscribed, registered := CallsDecideStatus(run, i - 1, w);
    }
  }

  lemma {:induction false} ConnectingWrite(run: seq<State>, i: nat, u: UserId) returns (j: nat, w: nat)
    requires Run(run) && i < |run|
    requires u in run[i].users && run[i].users[u].status.Connected?
    requires u in run[0].users && !run[0].users[u].status.Connected?
    ensures j < i && Enabled(run[j], Move(w, WriteUser)) && run[j + 1] == After(run[j], Move(w, WriteUser))
    ensures run[j].requests[w].user == u && run[j].requests[w].stage.status.Connected?
    ensures u in run[j + 1].users && run[j + 1].users[u].status.Connected?
  {
    assert i > 0 && Next(run[i - 1], run[i - 1 + 1]);
    var step :| Enabled(run[i - 1], step) && run[i] == After(run[i - 1], step);
    UsersStay(run, i - 1, u);
    if run[i - 1].users[u].status.Connected? {
      j, w := ConnectingWrite(run, i - 1, u);
    } else {
      OnlyUserWriteConnects(run[i - 1], step, u);
      j, w := i - 1, step.w;
    }
  }

  /** In every run a user who is connected, and was not at the start, is so by the user write of an
      onboarding of that user whose subscribe and register calls both answered true. */
  lemma OnlyAnsweredCallsConnect(run: seq<State>, i: nat, u: UserId) returns (j: nat, c: nat, w: nat)
    requires Run(run) && i < |run|
    requires u in run[i].users && run[i].users[u].status.Connected?
    requires u in run[0].users && !run[0].users[u].status.Connected?
    ensures c < j < i && w < |run[c].requests| && run[c].requests[w].user == u
    ensures Enabled(run[c], Move(w, Call(true, true))) && run[c + 1] == After(run[c], Move(w, Call(true, true)))
    ensures Enabled(run[j], Move(w, WriteUser)) && run[j + 1] == After(run[j], Move(w, WriteUser))
    ensures run[j].requests[w].user == u && u in run[j + 1].users && run[j + 1].users[u].status.Connected?
  {
    j, w := ConnectingWrite(run, i, u);
    hide Run, After;
    var subscribed, registered;
    c, subscribed, registered := CallsDecideStatus(run, j, w);
    RequestKeepsUser(run, c, j, w);
  }

  lemma OnlyUserWriteConnects(s: State, step: Step, u: UserId)
    requires Enabled(s, step) && u in s.users && !s.users[u].status.Connected?
    requires u in After(s, step).users && After(s, step).users[u].status.Connected?
    ensures step.Move? && step.action == WriteUser && s.requests[step.w].user == u
    ensures s.requests[step.w].stage.Called? && s.requests[step.w].stage.status.Connected?
  {
    hide RowsAfter, StageAfter;
  }

  lemma {:induction false} UsersStay(run: seq<State>, i: nat, u: UserId)
    requires Run(run) && i < |run| && u in run[0].users
    ensures u in run[i].users
  {
    if i > 0 {
      UsersStay(run, i - 1, u);
      assert Next(run[i - 1], run[i - 1 + 1]);
    }
  }

  lemma {:induction false} RequestKeepsUser(run: seq<State>, i: nat, j: nat, w: nat)
    requires Run(run) && i <= j < |run| && w < |run[i].requests|
    ensures w < |run[j].requests| && run[j].requests[w].user == run[i].requests[w].user
  {
    hide RowsAfter, UsersAfter;
    if i < j {
      RequestKeepsUser(run, i, j - 1, w);
      assert Next(run[j - 1], run[j - 1 + 1]);
    }
  }

  // ---- Rolling back -----------------------------------------------------------------------------------

  predicate HasSnapshot(stage: Stage) {
    stage.Snapped? || stage.Wrote? || stage.Called? || stage.RollingBack?
  }

  lemma {:induction false} SnapshotIsKept(run: seq<State>, i: nat, j: nat, w: nat)
    requires Run(run) && i <= j < |run|
    requires w < |run[i].requests| && HasSnapshot(run[i].requests[w].stage)
    ensures w < |run[j].requests| && run[j].requests[w].user == run[i].requests[w].user
    ensures var stage := run[j].requests[w].stage;
            Over(stage) || (HasSnapshot(stage) && stage.previous == run[i].requests[w].stage.previous)
  {
    if i < j {
      hide RowsAfter, UsersAfter;
      SnapshotIsKept(run, i, j - 1, w);
      assert Next(run[j - 1], run[j - 1 + 1]);
    }
  }

  /** When the user write of an onboarding fails, for whatever reason and whatever other tenants did
      in the meantime, the rollback gives back ciphertext, algorithm, key id, expiry, scopes and
      creation time as they were when the snapshot was taken, exactly if that row was complete. */
  lemma FailedWriteRollsBack(run: seq<State>, i: nat, j: nat, w: nat)
    requires Run(run) && i <= j < |run|
    requires forall k :: 0 <= k < |run| ==> Calm(run[k])
    requires w < |run[i].requests| && run[i].requests[w].stage.Snapped?
    requires w < |run[j].requests| && run[j].requests[w].stage.RollingBack?
    ensures var u := run[i].requests[w].user;
            var before, after := Row(run[i].rows, u), Row(After(run[j], Move(w, Restore)).rows, u);
            SameContent(after, before) <==> Complete(before)
  {
    SnapshotIsKept(run, i, j, w);
    EveryCalmRunFollows(run, i);
    EveryCalmRunFollows(run, j);
    assert RequestFollows(run[i], run[i].requests[w]);
    assert RequestFollows(run[j], run[j].requests[w]);
  }

  /** When a request is torn instead, because a call between the writes raises or the process dies:
      an onboarding leaves the binding intact exactly when it was for the number already linked, a
      disconnect exactly when the user was not connected. */
  lemma TornRequestAgreesWhen(s: State, w: nat)
    requires Follows(s) && w < |s.requests| && BetweenWrites(s.requests[w].stage)
    ensures var r, t := s.requests[w], After(s, Move(w, Abort));
            UserFollows(t, r.user) <==>
              if r.stage.Deleted? then !s.users[r.user].status.Connected?
              else r.seen.pnid == Some(r.stage.link.pnid)
  {
    assert RequestFollows(s, s.requests[w]);
  }

  // ---- Overlapping requests of one user -----------------------------------------------------------------

  /** The last write of a request, whatever overlapped it, leaves user and credential in agreement
      exactly when: for an onboarding, the row as it then is holds a token for the number just
      linked; for a rollback, the snapshot still fits the user; for a disconnect, no credential for
      another number is left. */
  lemma LastWriteAgreesWhen(s: State, w: nat, action: Action)
    requires Enabled(s, Move(w, action)) && s.requests[w].user in s.users
    ensures var r, t := s.requests[w], After(s, Move(w, action));
            var user, row := s.users[r.user], Row(s.rows, r.user);
            && (action.WriteUser? && !Taken(s.users, r.user, r.stage.link.pnid) ==>
                  (UserFollows(t, r.user) <==>
                     if HasCipher(row) then IsBoundTo(row, r.stage.link.pnid) else !r.stage.status.Connected?))
            && (action.Restore? ==>
                  (UserFollows(t, r.user) <==>
                     if HasCipher(r.stage.previous)
                     then user.pnid.Some? && IsBoundTo(r.stage.previous, user.pnid.value)
                     else !user.status.Connected?))
            && (action.WriteDisconnected? ==>
                  (UserFollows(t, r.user) <==>
                     HasCipher(row) ==> r.seen.pnid.None? && user.pnid.Some? && IsBoundTo(row, user.pnid.value)))
  {
  }

  predicate HasCipher(row: Option<Credential>) {
    row.Some? && row.value.cipher.Some?
  }

  predicate IsBoundTo(row: Option<Credential>, pnid: string) {
    HasCipher(row) && row.value.cipher.value.pnid == pnid && row.value.cipher.value.token != ""
  }

  /** What a user asks for: onboardings for some of these numbers, and disconnects or not. */
  datatype Kinds = Kinds(numbers: set<string>, disconnects: bool)

  /** All this user's requests are of these kinds; none is torn and none of their user writes fails.
      They may overlap in any way, and other users may do anything. */
  ghost predicate Asks(s: State, u: UserId, kinds: Kinds) {
    forall w :: 0 <= w < |s.requests| && s.requests[w].user == u ==> AsksFor(s.requests[w].stage, kinds)
  }

  predicate AsksFor(stage: Stage, kinds: Kinds) {
    && !stage.Torn? && !stage.RollingBack?
    && (stage.Disconnecting? || stage.Deleted? ==> kinds.disconnects)
    && (HasLink(stage) ==> stage.link.pnid in kinds.numbers)
  }

  ghost predicate AlwaysAsks(run: seq<State>, u: UserId, kinds: Kinds) {
    forall k :: 0 <= k < |run| ==> Asks(run[k], u, kinds)
  }

  /** Between the writes of such requests the row is already bound to the one number. */
  ghost predicate SameNumber(s: State, u: UserId, pnid: string) {
    && u in s.users
    && (Busy(s, u) ==> IsBoundTo(Row(s.rows, u), pnid))
    && (!Busy(s, u) ==> UserFollows(s, u))
    && (forall w :: 0 <= w < |s.requests| && s.requests[w].user == u && HasLink(s.requests[w].stage) ==>
          s.requests[w].stage.link.token != "")
  }

  lemma SameNumberStep(s: State, step: Step, u: UserId, pnid: string)
    requires SameNumber(s, u, pnid) && Enabled(s, step)
    requires Asks(s, u, Kinds({pnid}, false)) && Asks(After(s, step), u, Kinds({pnid}, false))
    ensures SameNumber(After(s, step), u, pnid)
  {
    var t := After(s, step);
    if step.Move? && s.requests[step.w].user == u {
      assert t.requests[step.w].user == u;
      assert AsksFor(s.requests[step.w].stage, Kinds({pnid}, false)) && AsksFor(t.requests[step.w].stage, Kinds({pnid}, false));
      assert BetweenWrites(s.requests[step.w].stage) ==> Busy(s, u);
    }
    if w :| 0 <= w < |s.requests| && s.requests[w].user == u && BetweenWrites(s.requests[w].stage) {
      assert t.requests[w] == s.requests[w] || (step.Move? && step.w == w);
    }
  }

  lemma {:induction false} OnboardingsOfOneNumberAgree(run: seq<State>, i: nat, u: UserId, pnid: string)
    requires Run(run) && i < |run| && u in run[0].users
    requires AlwaysAsks(run, u, Kinds({pnid}, false))
    ensures SameNumber(run[i], u, pnid)
  {
    if i > 0 {
      OnboardingsOfOneNumberAgree(run, i - 1, u, pnid);
      assert Next(run[i - 1], run[i - 1 + 1]);
      var step :| Enabled(run[i - 1], step) && run[i] == After(run[i - 1], step);
      SameNumberStep(run[i - 1], step, u, pnid);
    }
  }

  /** Between the writes of disconnects the row is already gone. */
  ghost predicate RowIsGone(s: State, u: UserId) {
    && u in s.users
    && (Busy(s, u) ==> Row(s.rows, u).None?)
    && (!Busy(s, u) ==> UserFollows(s, u))
  }

  lemma RowIsGoneStep(s: State, step: Step, u: UserId)
    requires RowIsGone(s, u) && Enabled(s, step)
    requires Asks(s, u, Kinds({}, true)) && Asks(After(s, step), u, Kinds({}, true))
    ensures RowIsGone(After(s, step), u)
  {
    var t := After(s, step);
    if step.Move? && s.requests[step.w].user == u {
      assert t.requests[step.w].user == u;
      assert AsksFor(s.requests[step.w].stage, Kinds({}, true)) && AsksFor(t.requests[step.w].stage, Kinds({}, true));
      assert BetweenWrites(s.requests[step.w].stage) ==> Busy(s, u);
    }
    if w :| 0 <= w < |s.requests| && s.requests[w].user == u && BetweenWrites(s.requests[w].stage) {
      assert t.requests[w] == s.requests[w] || (step.Move? && step.w == w);
    }
  }

  lemma {:induction false} DisconnectsAgree(run: seq<State>, i: nat, u: UserId)
    requires Run(run) && i < |run| && u in run[0].users
    requires AlwaysAsks(run, u, Kinds({}, true))
    ensures RowIsGone(run[i], u)
  {
    if i > 0 {
      DisconnectsAgree(run, i - 1, u);
      assert Next(run[i - 1], run[i - 1 + 1]);
      var step :| Enabled(run[i - 1], step) && run[i] == After(run[i - 1], step);
      RowIsGoneStep(run[i - 1], step, u);
    }
  }

  lemma Extend(run: seq<State>, s: State, step: Step) returns (longer: seq<State>, t: State)
    requires Run(run) && s == Last(run) && Enabled(s, step)
    ensures t == After(s, step) && longer == run + [t]
    ensures Run(longer)
  {
    t := After(s, step);
    longer := run + [t];
    assert Next(s, t);
    forall i | 0 <= i < |longer| - 1
      ensures Next(longer[i], longer[i + 1])
    {
      if i < |run| - 1 {
        assert Next(run[i], run[i + 1]);
      }
    }
  }

  lemma ExtendAsking(run: seq<State>, s: State, step: Step, u: UserId, kinds: Kinds)
    returns (longer: seq<State>, t: State)
    requires Run(run) && AlwaysAsks(run, u, kinds)
    requires s == Last(run) && Enabled(s, step) && Asks(After(s, step), u, kinds)
    ensures t == After(s, step) && longer != [] && t == Last(longer) && longer[0] == run[0]
    ensures Run(longer) && AlwaysAsks(longer, u, kinds)
  {
    longer, t := Extend(run, s, step);
  }

  lemma NobodyElseToTake(users: Users, u: UserId, pnid: string)
    requires users.Keys == {u}
    ensures !Taken(users, u, pnid)
  {
  }

  /** An overlap, step by step: two onboardings of one user are granted. */
  lemma BothAreGranted(u: UserId, first: Link, second: Link) returns (run: seq<State>, s: State)
    requires first.token != "" && second.token != ""
    ensures Run(run) && s == Last(run) && u in run[0].users
    ensures AlwaysAsks(run, u, Kinds({first.pnid, second.pnid}, false))
    ensures var user := User(NeverLinked, None, None);
            s == State(0, map[u := user], map[], [Request(u, user, Granted(first)), Request(u, user, Granted(second))])
  {
    var kinds := Kinds({first.pnid, second.pnid}, false);
    var user := User(NeverLinked, None, None);
    s := State(0, map[u := user], map[], []);
    run := [s];
    assert Run(run) && AlwaysAsks(run, u, kinds);
    hide Run, AlwaysAsks;
    run, s := ExtendAsking(run, s, Open(u, false), u, kinds);
    run, s := ExtendAsking(run, s, Open(u, false), u, kinds);
    assert s.requests == [Request(u, user, Opened), Request(u, user, Opened)];
    run, s := ExtendAsking(run, s, Move(0, Grant(first)), u, kinds);
    run, s := ExtendAsking(run, s, Move(1, Grant(second)), u, kinds);
  }

  /** Both pass the availability check. */
  lemma BothArePastTheCheck(u: UserId, first: Link, second: Link) returns (run: seq<State>, s: State)
    requires first.token != "" && second.token != ""
    ensures Run(run) && s == Last(run) && u in run[0].users
    ensures AlwaysAsks(run, u, Kinds({first.pnid, second.pnid}, false))
    ensures var user := User(NeverLinked, None, None);
            s == State(0, map[u := user], map[], [Request(u, user, Available(first)), Request(u, user, Available(second))])
  {
    var kinds := Kinds({first.pnid, second.pnid}, false);
    run, s := BothAreGranted(u, first, second);
    hide Run, AlwaysAsks, Taken;
    NobodyElseToTake(s.users, u, first.pnid);
    NobodyElseToTake(s.users, u, second.pnid);
    run, s := ExtendAsking(run, s, Move(0, CheckAvailable), u, kinds);
    run, s := ExtendAsking(run, s, Move(1, CheckAvailable), u, kinds);
  }

  /** They write the row, the second one last. */
  lemma BothWriteTheRow(u: UserId, first: Link, second: Link) returns (run: seq<State>, s: State)
    requires first.token != "" && second.token != ""
    ensures Run(run) && s == Last(run) && u in run[0].users
    ensures AlwaysAsks(run, u, Kinds({first.pnid, second.pnid}, false))
    ensures var user := User(NeverLinked, None, None);
            && s.users == map[u := user]
            && |s.requests| == 2
            && s.requests[0] == Request(u, user, Wrote(first, None))
            && s.requests[1].user == u && s.requests[1].seen == user
            && s.requests[1].stage.Wrote? && s.requests[1].stage.link == second
            && u in s.rows && s.rows[u].cipher == Some(Cipher(second.token, second.pnid))
            && s.rows[u].expiresAt == second.expiresAt
  {
    var kinds := Kinds({first.pnid, second.pnid}, false);
    run, s := BothArePastTheCheck(u, first, second);
    hide Run, AlwaysAsks;
    run, s := ExtendAsking(run, s, Move(0, Snapshot), u, kinds);
    run, s := ExtendAsking(run, s, Move(0, Upsert), u, kinds);
    run, s := ExtendAsking(run, s, Move(1, Snapshot), u, kinds);
    run, s := ExtendAsking(run, s, Move(1, Upsert), u, kinds);
  }

  /** And they write the user, the first one last. So two onboardings of one user at once, for any
      two numbers, can part the stores for good: both succeed, the user is connected, and the resolver
      refuses the stored credential. */
  lemma OverlappingOnboardingsDisagree(u: UserId, first: Link, second: Link) returns (run: seq<State>)
    requires first.token != "" && second.token != "" && first.pnid != second.pnid
    requires second.expiresAt.None?
    ensures Run(run) && u in run[0].users
    ensures AlwaysAsks(run, u, Kinds({first.pnid, second.pnid}, false))
    ensures var s := Last(run);
            && (forall w :: 0 <= w < |s.requests| ==> s.requests[w].stage == Ended)
            && u in s.users && s.users[u].status.Connected?
            && Resolve(s.users[u], Row(s.rows, u), Policy(false, None), s.clock) == Unresolved(NumberMismatch)
  {
    var kinds := Kinds({first.pnid, second.pnid}, false);
    var s: State;
    run, s := BothWriteTheRow(u, first, second);
    hide Run, AlwaysAsks, Taken;
    NobodyElseToTake(s.users, u, second.pnid);
    run, s := ExtendAsking(run, s, Move(1, Call(true, true)), u, kinds);
    run, s := ExtendAsking(run, s, Move(1, WriteUser), u, kinds);
    assert s.requests[1].stage == Ended;
    NobodyElseToTake(s.users, u, first.pnid);
    run, s := ExtendAsking(run, s, Move(0, Call(true, true)), u, kinds);
    run, s := ExtendAsking(run, s, Move(0, WriteUser), u, kinds);
  }

  /** An onboarding is open, with its row written. */
  lemma RowIsWritten(u: UserId, link: Link) returns (run: seq<State>, s: State)
    requires link.token != ""
    ensures Run(run) && s == Last(run) && u in run[0].users
    ensures AlwaysAsks(run, u, Kinds({link.pnid}, true))
    ensures var user := User(NeverLinked, None, None);
            && s.users == map[u := user] && u in s.rows
            && s.requests == [Request(u, user, Wrote(link, None))]
  {
    var kinds := Kinds({link.pnid}, true);
    var user := User(NeverLinked, None, None);
    s := State(0, map[u := user], map[], []);
    run := [s];
    assert Run(run) && AlwaysAsks(run, u, kinds);
    hide Run, AlwaysAsks, Taken;
    NobodyElseToTake(s.users, u, link.pnid);
    run, s := ExtendAsking(run, s, Open(u, false), u, kinds);
    run, s := ExtendAsking(run, s, Move(0, Grant(link)), u, kinds);
    run, s := ExtendAsking(run, s, Move(0, CheckAvailable), u, kinds);
    assert s.requests == [Request(u, user, Available(link))];
    run, s := ExtendAsking(run, s, Move(0, Snapshot), u, kinds);
    run, s := ExtendAsking(run, s, Move(0, Upsert), u, kinds);
  }

  /** A disconnect runs from its opening to its end meanwhile. */
  lemma RowIsDeleted(u: UserId, link: Link) returns (run: seq<State>, s: State)
    requires link.token != ""
    ensures Run(run) && s == Last(run) && u in run[0].users
    ensures AlwaysAsks(run, u, Kinds({link.pnid}, true))
    ensures var user := User(NeverLinked, None, None);
            && s.users == map[u := user.(status := Disconnected)] && u !in s.rows
            && s.requests == [Request(u, user, Wrote(link, None)), Request(u, user, Ended)]
  {
    var kinds := Kinds({link.pnid}, true);
    run, s := RowIsWritten(u, link);
    hide Run, AlwaysAsks;
    run, s := ExtendAsking(run, s, Open(u, true), u, kinds);
    run, s := ExtendAsking(run, s, Move(1, DeleteRow), u, kinds);
    run, s := ExtendAsking(run, s, Move(1, WriteDisconnected), u, kinds);
  }

  /** So a disconnect between the two writes of an onboarding can leave a connected user with no
      credential at all, although both requests succeed. */
  lemma DisconnectDuringOnboardingDisagrees(u: UserId, link: Link) returns (run: seq<State>)
    requires link.token != ""
    ensures Run(run) && u in run[0].users
    ensures AlwaysAsks(run, u, Kinds({link.pnid}, true))
    ensures var s := Last(run);
            && (forall w :: 0 <= w < |s.requests| ==> s.requests[w].stage == Ended)
            && u in s.users && s.users[u].status.Connected?
            && Resolve(s.users[u], Row(s.rows, u), Policy(false, None), s.clock) == Unresolved(NotConfigured)
  {
    var kinds := Kinds({link.pnid}, true);
    var s: State;
    run, s := RowIsDeleted(u, link);
    hide Run, AlwaysAsks, Taken;
    NobodyElseToTake(s.users, u, link.pnid);
    run, s := ExtendAsking(run, s, Move(0, Call(true, true)), u, kinds);
    run, s := ExtendAsking(run, s, Move(0, WriteUser), u, kinds);
  }

  /** Can requests of these kinds never part the stores, however they overlap? */
  predicate Harmless(kinds: Kinds) {
    || kinds.numbers == {}
    || (!kinds.disconnects && forall p, q :: p in kinds.numbers && q in kinds.numbers ==> p == q)
  }

  /** When is overlap harmless? Onboardings and disconnects of one user, overlapping in any way, leave
      user and credential in agreement at the end of every run exactly when they are all
      disconnects, or all onboardings for one number. */
  lemma OverlapsAgreeExactly(u: UserId, kinds: Kinds)
    ensures (forall run: seq<State> :: Run(run) && u in run[0].users && AlwaysAsks(run, u, kinds) ==>
               Busy(Last(run), u) || UserFollows(Last(run), u))
            <==> Harmless(kinds)
  {
    if Harmless(kinds) {
      forall run: seq<State> | Run(run) && u in run[0].users && AlwaysAsks(run, u, kinds)
        ensures Busy(Last(run), u) || UserFollows(Last(run), u)
      {
        HarmlessOverlapsAgree(run, u, kinds);
      }
    } else {
      var p :| p in kinds.numbers;
      var run: seq<State>;
      if kinds.disconnects {
        run := DisconnectDuringOnboardingDisagrees(u, Link("t", p, None));
        MoreKinds(run, u, Kinds({p}, true), kinds);
      } else {
        var first, second :| first in kinds.numbers && second in kinds.numbers && first != second;
        run := OverlappingOnboardingsDisagree(u, Link("t", first, None), Link("t", second, None));
        MoreKinds(run, u, Kinds({first, second}, false), kinds);
      }
      NoneBusyAtEnd(Last(run), u);
    }
  }

  lemma HarmlessOverlapsAgree(run: seq<State>, u: UserId, kinds: Kinds)
    requires Run(run) && u in run[0].users && AlwaysAsks(run, u, kinds) && Harmless(kinds)
    ensures Busy(Last(run), u) || UserFollows(Last(run), u)
  {
    if p :| p in kinds.numbers {
      MoreKinds(run, u, kinds, Kinds({p}, false));
      OnboardingsOfOneNumberAgree(run, |run| - 1, u, p);
    } else {
      MoreKinds(run, u, kinds, Kinds({}, true));
      DisconnectsAgree(run, |run| - 1, u);
    }
  }

  lemma MoreKinds(run: seq<State>, u: UserId, some: Kinds, more: Kinds)
    requires AlwaysAsks(run, u, some)
    requires some.numbers <= more.numbers && (some.disconnects ==> more.disconnects)
    ensures AlwaysAsks(run, u, more)
  {
    forall k | 0 <= k < |run|
      ensures Asks(run[k], u, more)
    {
      assert Asks(run[k], u, some);
    }
  }

  lemma NoneBusyAtEnd(s: State, u: UserId)
    requires forall w :: 0 <= w < |s.requests| ==> s.requests[w].stage == Ended
    ensures !Busy(s, u)
  {
  }
}
