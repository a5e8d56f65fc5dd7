/** Accounts' installations, auth sessions and refresh tokens, and the operations on them as functions. */
module AuthTables {
  import opened Domain

  datatype Token = Token(
    family: Uuid, session: Uuid, parent: Option<Uuid>, hash: int, expiresAt: Time,
    consumedAt: Option<Time>, replacement: Option<Uuid>, revokedAt: Option<Time>)

  datatype AuthSession = AuthSession(
    account: Uuid, install: Uuid, credential: Option<Uuid>, expiresAt: Time, revokedAt: Option<Time>)

  datatype Credential = Credential(account: Uuid, revokedAt: Option<Time>)

  datatype Auth = Auth(
    active: set<Uuid>,
    credentials: map<Uuid, Credential>,
    installs: map<(Uuid, Uuid), Option<Time>>,
    sessions: map<Uuid, AuthSession>,
    tokens: map<Uuid, Token>)

  const NO_AUTH: Auth := Auth({}, map[], map[], map[], map[])

  /** What an access token claims. */
  datatype Claim = Claim(account: Uuid, session: Uuid, install: Uuid)

  datatype Answer = Granted(claim: Claim) | Done | NotFound | Conflict | Unique | InvalidRefresh | RefreshReuse

  /** The new rows of a login: the device's installation is reactivated, the session and its first token are new. */
  datatype Login = Login(install: Uuid, session: Uuid, expiresAt: Time, token: Uuid, hash: int, tokenExpiresAt: Time)

  /** Revoking keeps an earlier time. */
  function Coalesce(at: Option<Time>, now: Time): Option<Time> {
    if at.Some? then at else Some(now)
  }

  function CreateSession(a: Auth, account: Uuid, credential: Option<Uuid>, login: Login): (Auth, Answer) {
    if login.session in a.sessions || login.token in a.tokens then (a, Unique)
    else
      (a.(installs := a.installs[(login.install, account) := None],
          sessions := a.sessions[login.session :=
                                 AuthSession(account, login.install, credential, login.expiresAt, None)],
          tokens := a.tokens[login.token := Token(login.token, login.session, None, login.hash, login.tokenExpiresAt,
                                                  None, None, None)]),
       Granted(Claim(account, login.session, login.install)))
  }

  function Activate(a: Auth, account: Uuid, credential: Uuid, login: Login): (Auth, Answer) {
    if account in a.active then (a, Conflict)
    else if credential in a.credentials then (a, Unique)
    else
      var r := CreateSession(a.(active := a.active + {account},
                                credentials := a.credentials[credential := Credential(account, None)]),
                             account, Some(credential), login);
      if r.1.Granted? then r else (a, r.1)
  }

  function LogIn(a: Auth, account: Uuid, credential: Uuid, login: Login): (Auth, Answer) {
    if !(credential in a.credentials && a.credentials[credential].account == account &&
         a.credentials[credential].revokedAt.None?)
    then (a, NotFound)
    else CreateSession(a, account, Some(credential), login)
  }

  /** A login with a recovery code, whose own bookkeeping is left out. */
  function Recover(a: Auth, account: Uuid, login: Login): (Auth, Answer) {
    if account !in a.active then (a, NotFound) else CreateSession(a, account, None, login)
  }

  function AddCredential(a: Auth, account: Uuid, credential: Uuid): (Auth, Answer) {
    if credential in a.credentials then (a, Unique)
    else (a.(credentials := a.credentials[credential := Credential(account, None)]), Done)
  }

  function RevokeFamily(tokens: map<Uuid, Token>, family: Uuid, now: Time): map<Uuid, Token> {
    map id | id in tokens ::
      if tokens[id].family == family then tokens[id].(revokedAt := Coalesce(tokens[id].revokedAt, now)) else tokens[id]
  }

  /** The rows that the rotation joins. */
  predicate Joined(a: Auth, id: Uuid) {
    id in a.tokens && a.tokens[id].session in a.sessions &&
    var s := a.sessions[a.tokens[id].session];
    (s.install, s.account) in a.installs && s.account in a.active
  }

  function Rotate(a: Auth, oldId: Uuid, hash: int, id: Uuid, newHash: int, newExpiresAt: Time, now: Time)
    : (Auth, Answer)
  {
    if !Joined(a, oldId) then (a, InvalidRefresh)
    else
      var t := a.tokens[oldId];
      var s := a.sessions[t.session];
      if t.hash != hash then (a, InvalidRefresh)
      else if t.consumedAt.Some? then
        (a.(tokens := RevokeFamily(a.tokens, t.family, now),
            sessions := a.sessions[t.session := s.(revokedAt := Coalesce(s.revokedAt, now))]),
         RefreshReuse)
      else if t.revokedAt.Some? || s.revokedAt.Some? || a.installs[(s.install, s.account)].Some? ||
              now > t.expiresAt || now > s.expiresAt
      then (a, InvalidRefresh)
      else if id in a.tokens then (a, Unique)
      else
        (a.(tokens := a.tokens[oldId := t.(consumedAt := Some(now), replacement := Some(id))]
                              [id := Token(t.family, t.session, Some(oldId), newHash, newExpiresAt, None, None, None)]),
         Granted(Claim(s.account, t.session, s.install)))
  }

  function RevokeSession(a: Auth, account: Uuid, session: Uuid, now: Time): (Auth, Answer) {
    if !(session in a.sessions && a.sessions[session].account == account && a.sessions[session].revokedAt.None?)
    then (a, NotFound)
    else (a.(sessions := a.sessions[session := a.sessions[session].(revokedAt := Some(now))]), Done)
  }

  /** The sessions after every one made with a passkey is revoked. */
  function RevokeByPasskey(sessions: map<Uuid, AuthSession>, account: Uuid, credential: Uuid, now: Time)
    : map<Uuid, AuthSession>
  {
    map id | id in sessions ::
      if sessions[id].account == account && sessions[id].credential == Some(credential)
      then sessions[id].(revokedAt := Coalesce(sessions[id].revokedAt, now)) else sessions[id]
  }

  /** The sessions after every one of an account's device is revoked. */
  function RevokeByDevice(sessions: map<Uuid, AuthSession>, account: Uuid, install: Uuid, now: Time)
    : map<Uuid, AuthSession>
  {
    map id | id in sessions ::
      if sessions[id].account == account && sessions[id].install == install
      then sessions[id].(revokedAt := Coalesce(sessions[id].revokedAt, now)) else sessions[id]
  }

  function RevokeCredential(a: Auth, account: Uuid, credential: Uuid, now: Time): (Auth, Answer) {
    if !(credential in a.credentials && a.credentials[credential].account == account &&
         a.credentials[credential].revokedAt.None?)
    then (a, NotFound)
    else
      (a.(credentials := a.credentials[credential := a.credentials[credential].(revokedAt := Some(now))],
          sessions := RevokeByPasskey(a.sessions, account, credential, now)),
       Done)
  }

  function RevokeInstallation(a: Auth, account: Uuid, install: Uuid, now: Time): (Auth, Answer) {
    if !((install, account) in a.installs && a.installs[(install, account)].None?) then (a, NotFound)
    else
      (a.(installs := a.installs[(install, account) := Some(now)],
          sessions := RevokeByDevice(a.sessions, account, install, now)),
       Done)
  }

  /** Whether an access token is still good. */
  predicate Validates(a: Auth, claim: Claim, now: Time) {
    claim.session in a.sessions &&
    var s := a.sessions[claim.session];
    s.account == claim.account && s.install == claim.install && s.revokedAt.None? && s.expiresAt > now &&
    (s.install, s.account) in a.installs && a.installs[(s.install, s.account)].None? && s.account in a.active &&
    (s.credential.Some? && s.credential.value in a.credentials ==> a.credentials[s.credential.value].revokedAt.None?)
  }

  datatype Op =
    | OpActivate(account: Uuid, credential: Uuid, login: Login)
    | OpLogIn(account: Uuid, credential: Uuid, login: Login)
    | OpRecover(account: Uuid, login: Login)
    | OpAddCredential(account: Uuid, credential: Uuid)
    | OpRotate(oldId: Uuid, hash: int, id: Uuid, newHash: int, newExpiresAt: Time)
    | OpRevokeSession(account: Uuid, session: Uuid)
    | OpRevokeCredential(account: Uuid, credential: Uuid)
    | OpRevokeInstallation(account: Uuid, install: Uuid)

  function Do(a: Auth, op: Op, now: Time): (Auth, Answer) {
    match op
    case OpActivate(account, credential, login) => Activate(a, account, credential, login)
    case OpLogIn(account, credential, login) => LogIn(a, account, credential, login)
    case OpRecover(account, login) => Recover(a, account, login)
    case OpAddCredential(account, credential) => AddCredential(a, account, credential)
    case OpRotate(oldId, hash, id, newHash, newExpiresAt) => Rotate(a, oldId, hash, id, newHash, newExpiresAt, now)
    case OpRevokeSession(account, session) => RevokeSession(a, account, session, now)
    case OpRevokeCredential(account, credential) => RevokeCredential(a, account, credential, now)
    case OpRevokeInstallation(account, install) => RevokeInstallation(a, account, install, now)
  }
}
