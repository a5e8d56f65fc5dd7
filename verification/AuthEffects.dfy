/**
 What each operation on accounts, sessions and tokens does, said of the tables before and after it column by
 column; and what a grant and a valid access token mean over a whole run.
 */
module AuthEffects {
  import opened Domain
  import opened AuthTables
  import opened AuthRuns

  // ---------------------------------------------------------------- the words

  /** One row is new or changed, every other one as it was. */
  ghost predicate SameBut<K(!new), V>(m: map<K, V>, m': map<K, V>, key: K) {
    key in m' && forall k :: k != key ==> (k in m' <==> k in m) && (k in m ==> m'[k] == m[k])
  }

  predicate KeepsOrSets(before: Option<Time>, after: Option<Time>, now: Time) {
    after == if before.Some? then before else Some(now)
  }

  predicate SessionEnded(s: AuthSession, s': AuthSession, now: Time) {
    KeepsOrSets(s.revokedAt, s'.revokedAt, now) && s'.account == s.account && s'.install == s.install &&
    s'.credential == s.credential && s'.expiresAt == s.expiresAt
  }

  predicate TokenEnded(t: Token, t': Token, now: Time) {
    KeepsOrSets(t.revokedAt, t'.revokedAt, now) && t'.family == t.family && t'.session == t.session &&
    t'.parent == t.parent && t'.hash == t.hash && t'.expiresAt == t.expiresAt &&
    t'.consumedAt == t.consumedAt && t'.replacement == t.replacement
  }

  predicate IsNew(t: Token, family: Uuid, session: Uuid, parent: Option<Uuid>, hash: int, expiresAt: Time) {
    t.family == family && t.session == session && t.parent == parent && t.hash == hash && t.expiresAt == expiresAt &&
    t.consumedAt.None? && t.replacement.None? && t.revokedAt.None?
  }

  // ---------------------------------------------------------------- logins

  /** The tables after a login: the device is active, and the session and its first token are new. */
  ghost predicate LoggedIn(a: Auth, b: Auth, account: Uuid, credential: Option<Uuid>, login: Login) {
    SameBut(a.installs, b.installs, (login.install, account)) && b.installs[(login.install, account)].None? &&
    SameBut(a.sessions, b.sessions, login.session) &&
    b.sessions[login.session].account == account && b.sessions[login.session].install == login.install &&
    b.sessions[login.session].credential == credential && b.sessions[login.session].revokedAt.None? &&
    b.sessions[login.session].expiresAt == login.expiresAt &&
    SameBut(a.tokens, b.tokens, login.token) &&
    IsNew(b.tokens[login.token], login.token, login.session, None, login.hash, login.tokenExpiresAt)
  }

  ghost predicate LoginDoes(a: Auth, account: Uuid, credential: Option<Uuid>, login: Login, b: Auth, answer: Answer) {
    if login.session in a.sessions || login.token in a.tokens then b == a && answer == Unique
    else
      LoggedIn(a, b, account, credential, login) && b.active == a.active && b.credentials == a.credentials &&
      answer == Granted(Claim(account, login.session, login.install))
  }

  /** A passkey of the account that is not revoked. */
  predicate HasPasskey(a: Auth, account: Uuid, credential: Uuid) {
    credential in a.credentials && a.credentials[credential].account == account &&
    a.credentials[credential].revokedAt.None?
  }

  ghost predicate NewPasskey(a: Auth, b: Auth, account: Uuid, credential: Uuid) {
    SameBut(a.credentials, b.credentials, credential) && b.credentials[credential].account == account &&
    b.credentials[credential].revokedAt.None?
  }

  ghost predicate ActivateDoes(a: Auth, account: Uuid, credential: Uuid, login: Login, b: Auth, answer: Answer) {
    if account in a.active then b == a && answer == Conflict
    else if credential in a.credentials || login.session in a.sessions || login.token in a.tokens
    then b == a && answer == Unique
    else
      LoggedIn(a, b, account, Some(credential), login) && NewPasskey(a, b, account, credential) &&
      b.active == a.active + {account} && answer == Granted(Claim(account, login.session, login.install))
  }

  // ---------------------------------------------------------------- rotation

  /** A token whose session, device and account are all on record, presented with the right secret. */
  predicate Recognized(a: Auth, id: Uuid, hash: int) {
    id in a.tokens && a.tokens[id].hash == hash && a.tokens[id].session in a.sessions &&
    var s := a.sessions[a.tokens[id].session];
    (s.install, s.account) in a.installs && s.account in a.active
  }

  /** Nothing about it is revoked, and neither expiry has passed. */
  predicate StillGood(a: Auth, id: Uuid, now: Time) {
    id in a.tokens && a.tokens[id].session in a.sessions && a.tokens[id].revokedAt.None? &&
    now <= a.tokens[id].expiresAt &&
    var s := a.sessions[a.tokens[id].session];
    s.revokedAt.None? && now <= s.expiresAt && (s.install, s.account) in a.installs &&
    a.installs[(s.install, s.account)].None?
  }

  /** All tokens of the family and their session are revoked; what was revoked keeps its time. */
  ghost predicate FamilyEnded(a: Auth, b: Auth, family: Uuid, session: Uuid, now: Time) {
    b.active == a.active && b.credentials == a.credentials && b.installs == a.installs &&
    SameBut(a.sessions, b.sessions, session) && session in a.sessions &&
    SessionEnded(a.sessions[session], b.sessions[session], now) &&
    b.tokens.Keys == a.tokens.Keys &&
    forall id :: id in a.tokens ==>
      if a.tokens[id].family == family
      then TokenEnded(a.tokens[id], b.tokens[id], now) else b.tokens[id] == a.tokens[id]
  }

  /** The old token is consumed, and the new one takes its place in the family. */
  ghost predicate TokenRotated(a: Auth, b: Auth, oldId: Uuid, id: Uuid, newHash: int, newExpiresAt: Time, now: Time) {
    b.active == a.active && b.credentials == a.credentials && b.installs == a.installs && b.sessions == a.sessions &&
    oldId in a.tokens && oldId in b.tokens && id in b.tokens &&
    (forall k :: k != oldId && k != id ==>
       (k in b.tokens <==> k in a.tokens) && (k in a.tokens ==> b.tokens[k] == a.tokens[k])) &&
    IsNew(b.tokens[id], a.tokens[oldId].family, a.tokens[oldId].session, Some(oldId), newHash, newExpiresAt) &&
    b.tokens[oldId].consumedAt == Some(now) && b.tokens[oldId].replacement == Some(id) &&
    b.tokens[oldId].family == a.tokens[oldId].family && b.tokens[oldId].session == a.tokens[oldId].session &&
    b.tokens[oldId].parent == a.tokens[oldId].parent && b.tokens[oldId].hash == a.tokens[oldId].hash &&
    b.tokens[oldId].expiresAt == a.tokens[oldId].expiresAt && b.tokens[oldId].revokedAt == a.tokens[oldId].revokedAt
  }

  ghost predicate RotateDoes(a: Auth, oldId: Uuid, hash: int, id: Uuid, newHash: int, newExpiresAt: Time, now: Time,
                             b: Auth, answer: Answer) {
    if !Recognized(a, oldId, hash) then b == a && answer == InvalidRefresh
    else
      var t := a.tokens[oldId];
      if t.consumedAt.Some? then FamilyEnded(a, b, t.family, t.session, now) && answer == RefreshReuse
      else if !StillGood(a, oldId, now) then b == a && answer == InvalidRefresh
      else if id in a.tokens then b == a && answer == Unique
      else
        TokenRotated(a, b, oldId, id, newHash, newExpiresAt, now) &&
        answer == Granted(Claim(a.sessions[t.session].account, t.session, a.sessions[t.session].install))
  }

  // ---------------------------------------------------------------- revocation

  ghost predicate LogoutDoes(a: Auth, account: Uuid, session: Uuid, now: Time, b: Auth, answer: Answer) {
    if session !in a.sessions || a.sessions[session].account != account || a.sessions[session].revokedAt.Some?
    then b == a && answer == NotFound
    else
      answer == Done && b.active == a.active && b.credentials == a.credentials && b.installs == a.installs &&
      b.tokens == a.tokens && SameBut(a.sessions, b.sessions, session) &&
      SessionEnded(a.sessions[session], b.sessions[session], now)
  }

  ghost predicate RevokeCredentialDoes(a: Auth, account: Uuid, credential: Uuid, now: Time, b: Auth, answer: Answer) {
    if !HasPasskey(a, account, credential) then b == a && answer == NotFound
    else
      answer == Done && b.active == a.active && b.installs == a.installs && b.tokens == a.tokens &&
      SameBut(a.credentials, b.credentials, credential) && b.credentials[credential].account == account &&
      b.credentials[credential].revokedAt == Some(now) && b.sessions.Keys == a.sessions.Keys &&
      forall id :: id in a.sessions ==>
        if a.sessions[id].account == account && a.sessions[id].credential == Some(credential)
        then SessionEnded(a.sessions[id], b.sessions[id], now) else b.sessions[id] == a.sessions[id]
  }

  ghost predicate RevokeInstallationDoes(a: Auth, account: Uuid, install: Uuid, now: Time, b: Auth, answer: Answer) {
    if (install, account) !in a.installs || a.installs[(install, account)].Some? then b == a && answer == NotFound
    else
      answer == Done && b.active == a.active && b.credentials == a.credentials && b.tokens == a.tokens &&
      SameBut(a.installs, b.installs, (install, account)) && b.installs[(install, account)] == Some(now) &&
      b.sessions.Keys == a.sessions.Keys &&
      forall id :: id in a.sessions ==>
        if a.sessions[id].account == account && a.sessions[id].install == install
        then SessionEnded(a.sessions[id], b.sessions[id], now) else b.sessions[id] == a.sessions[id]
  }

  // ---------------------------------------------------------------- any operation

  ghost predicate OpDoes(a: Auth, op: Op, now: Time, b: Auth, answer: Answer) {
    match op
    case OpActivate(account, credential, login) => ActivateDoes(a, account, credential, login, b, answer)
    case OpLogIn(account, credential, login) =>
      if HasPasskey(a, account, credential) then LoginDoes(a, account, Some(credential), login, b, answer)
      else b == a && answer == NotFound
    case OpRecover(account, login) =>
      if account in a.active then LoginDoes(a, account, None, login, b, answer) else b == a && answer == NotFound
    case OpAddCredential(account, credential) =>
      if credential in a.credentials then b == a && answer == Unique
      else
        NewPasskey(a, b, account, credential) && answer == Done && b.active == a.active && b.installs == a.installs &&
        b.sessions == a.sessions && b.tokens == a.tokens
    case OpRotate(oldId, hash, id, newHash, newExpiresAt) =>
      RotateDoes(a, oldId, hash, id, newHash, newExpiresAt, now, b, answer)
    case OpRevokeSession(account, session) => LogoutDoes(a, account, session, now, b, answer)
    case OpRevokeCredential(account, credential) => RevokeCredentialDoes(a, account, credential, now, b, answer)
    case OpRevokeInstallation(account, install) => RevokeInstallationDoes(a, account, install, now, b, answer)
  }

  lemma LoginMeans(a: Auth, account: Uuid, credential: Option<Uuid>, login: Login, b: Auth, answer: Answer)
    ensures LoginDoes(a, account, credential, login, b, answer) <==>
            (b, answer) == CreateSession(a, account, credential, login)
  {
    var (c, _) := CreateSession(a, account, credential, login);
    if LoginDoes(a, account, credential, login, b, answer) && answer.Granted? {
      assert b.sessions[login.session] == c.sessions[login.session] && b.tokens[login.token] == c.tokens[login.token];
      assert b.installs == c.installs && b.sessions == c.sessions && b.tokens == c.tokens;
    }
  }

  lemma ActivateMeans(a: Auth, account: Uuid, credential: Uuid, login: Login, b: Auth, answer: Answer)
    ensures ActivateDoes(a, account, credential, login, b, answer) <==>
            (b, answer) == Activate(a, account, credential, login)
  {
    var (c, _) := Activate(a, account, credential, login);
    if ActivateDoes(a, account, credential, login, b, answer) && answer.Granted? {
      assert b.sessions[login.session] == c.sessions[login.session] && b.tokens[login.token] == c.tokens[login.token];
      assert b.credentials[credential] == c.credentials[credential];
      assert b.installs == c.installs && b.sessions == c.sessions && b.tokens == c.tokens;
      assert b.credentials == c.credentials;
    }
  }

  lemma AddCredentialMeans(a: Auth, account: Uuid, credential: Uuid, now: Time, b: Auth, answer: Answer)
    ensures OpDoes(a, OpAddCredential(account, credential), now, b, answer) <==>
            (b, answer) == AddCredential(a, account, credential)
  {
    var (c, _) := AddCredential(a, account, credential);
    if OpDoes(a, OpAddCredential(account, credential), now, b, answer) && answer == Done {
      assert b.credentials[credential] == c.credentials[credential] && b.credentials == c.credentials;
    }
  }

  lemma RotateMeans(a: Auth, oldId: Uuid, hash: int, id: Uuid, newHash: int, newExpiresAt: Time, now: Time,
                    b: Auth, answer: Answer)
    ensures RotateDoes(a, oldId, hash, id, newHash, newExpiresAt, now, b, answer) <==>
            (b, answer) == Rotate(a, oldId, hash, id, newHash, newExpiresAt, now)
  {
    var (c, _) := Rotate(a, oldId, hash, id, newHash, newExpiresAt, now);
    if RotateDoes(a, oldId, hash, id, newHash, newExpiresAt, now, b, answer) {
      if answer.Granted? {
        assert b.tokens[id] == c.tokens[id] && b.tokens[oldId] == c.tokens[oldId];
        assert b.tokens == c.tokens;
      } else if answer.RefreshReuse? {
        var session := a.tokens[oldId].session;
        assert b.sessions[session] == c.sessions[session] && b.sessions == c.sessions;
        assert b.tokens == c.tokens;
      }
    }
  }

  lemma LogoutMeans(a: Auth, account: Uuid, session: Uuid, now: Time, b: Auth, answer: Answer)
    ensures LogoutDoes(a, account, session, now, b, answer) <==> (b, answer) == RevokeSession(a, account, session, now)
  {
    var (c, _) := RevokeSession(a, account, session, now);
    if LogoutDoes(a, account, session, now, b, answer) && answer == Done {
      assert b.sessions[session] == c.sessions[session] && b.sessions == c.sessions;
    }
  }

  lemma RevokeCredentialMeans(a: Auth, account: Uuid, credential: Uuid, now: Time, b: Auth, answer: Answer)
    ensures RevokeCredentialDoes(a, account, credential, now, b, answer) <==>
            (b, answer) == RevokeCredential(a, account, credential, now)
  {
    var (c, _) := RevokeCredential(a, account, credential, now);
    if RevokeCredentialDoes(a, account, credential, now, b, answer) && answer == Done {
      assert b.credentials[credential] == c.credentials[credential] && b.credentials == c.credentials;
      assert b.sessions == c.sessions;
    }
  }

  lemma RevokeInstallationMeans(a: Auth, account: Uuid, install: Uuid, now: Time, b: Auth, answer: Answer)
    ensures RevokeInstallationDoes(a, account, install, now, b, answer) <==>
            (b, answer) == RevokeInstallation(a, account, install, now)
  {
    var (c, _) := RevokeInstallation(a, account, install, now);
    if RevokeInstallationDoes(a, account, install, now, b, answer) && answer == Done {
      assert b.installs == c.installs && b.sessions == c.sessions;
    }
  }

  /** The description is complete: exactly one outcome of an operation fits it, in any state. */
  lemma OpMeans(a: Auth, op: Op, now: Time, b: Auth, answer: Answer)
    ensures OpDoes(a, op, now, b, answer) <==> (b, answer) == Do(a, op, now)
  {
    if op.OpAddCredential? { AddCredentialMeans(a, op.account, op.credential, now, b, answer); }
    hide Activate, CreateSession, AddCredential, Rotate, RevokeSession, RevokeCredential, RevokeInstallation;
    hide ActivateDoes, LoginDoes, RotateDoes, LogoutDoes, RevokeCredentialDoes, RevokeInstallationDoes, NewPasskey;
    match op
    case OpActivate(account, credential, login) => ActivateMeans(a, account, credential, login, b, answer);
    case OpLogIn(account, credential, login) => LoginMeans(a, account, Some(credential), login, b, answer);
    case OpRecover(account, login) => LoginMeans(a, account, None, login, b, answer);
    case OpAddCredential(account, credential) =>
    case OpRotate(oldId, hash, id, newHash, newExpiresAt) =>
      RotateMeans(a, oldId, hash, id, newHash, newExpiresAt, now, b, answer);
    case OpRevokeSession(account, session) => LogoutMeans(a, account, session, now, b, answer);
    case OpRevokeCredential(account, credential) => RevokeCredentialMeans(a, account, credential, now, b, answer);
    case OpRevokeInstallation(account, install) => RevokeInstallationMeans(a, account, install, now, b, answer);
  }

  // ---------------------------------------------------------------- a grant needs the secret

  /** A refresh token is exchanged if and only if all this holds. */
  lemma GrantedIff(a: Auth, oldId: Uuid, hash: int, id: Uuid, newHash: int, newExpiresAt: Time, now: Time)
    ensures Rotate(a, oldId, hash, id, newHash, newExpiresAt, now).1.Granted? <==>
            Recognized(a, oldId, hash) && a.tokens[oldId].consumedAt.None? && StillGood(a, oldId, now) &&
            id !in a.tokens
    ensures Rotate(a, oldId, hash, id, newHash, newExpiresAt, now).1.RefreshReuse? <==>
            Recognized(a, oldId, hash) && a.tokens[oldId].consumedAt.Some?
  {
  }

  /** The i-th operation hands out this token with this secret and this expiry. */
  predicate HandsOut(ops: seq<Timed>, i: nat, id: Uuid, hash: int, expiresAt: Time)
    requires i < |ops|
  {
    AnswerTo(ops, i).Granted? &&
    match ops[i].op
    case OpActivate(_, _, login) => login.token == id && login.hash == hash && login.tokenExpiresAt == expiresAt
    case OpLogIn(_, _, login) => login.token == id && login.hash == hash && login.tokenExpiresAt == expiresAt
    case OpRecover(_, login) => login.token == id && login.hash == hash && login.tokenExpiresAt == expiresAt
    case OpRotate(_, _, newId, newHash, newExpiresAt) => newId == id && newHash == hash && newExpiresAt == expiresAt
    case _ => false
  }

  lemma StepTokens(a: Auth, op: Op, now: Time, id: Uuid)
    requires id in Do(a, op, now).0.tokens
    ensures var (b, answer) := Do(a, op, now);
            if id in a.tokens
            then b.tokens[id].hash == a.tokens[id].hash && b.tokens[id].expiresAt == a.tokens[id].expiresAt
            else
              answer.Granted? &&
              match op
              case OpActivate(_, _, login) =>
                login.token == id && login.hash == b.tokens[id].hash && login.tokenExpiresAt == b.tokens[id].expiresAt
              case OpLogIn(_, _, login) =>
                login.token == id && login.hash == b.tokens[id].hash && login.tokenExpiresAt == b.tokens[id].expiresAt
              case OpRecover(_, login) =>
                login.token == id && login.hash == b.tokens[id].hash && login.tokenExpiresAt == b.tokens[id].expiresAt
              case OpRotate(_, _, newId, newHash, newExpiresAt) =>
                newId == id && newHash == b.tokens[id].hash && newExpiresAt == b.tokens[id].expiresAt
              case _ => false
  {
  }

  /** Every stored token was handed out with exactly its secret and its expiry, which never change. */
  lemma {:induction false} TokenWasHandedOut(ops: seq<Timed>, n: nat, id: Uuid) returns (i: nat)
    requires n <= |ops| && id in After(ops[..n]).tokens
    ensures var t := After(ops[..n]).tokens[id]; i < n && HandsOut(ops, i, id, t.hash, t.expiresAt)
  {
    hide Do;
    if n > 0 {
      AfterNext(ops, n - 1);
      StepTokens(After(ops[..n - 1]), ops[n - 1].op, ops[n - 1].at, id);
      if id in After(ops[..n - 1]).tokens {
        i := TokenWasHandedOut(ops, n - 1, id);
      } else {
        i := n - 1;
      }
    }
  }

  /** In every run, who is granted a rotation presents the secret that an earlier grant handed out, and in time. */
  lemma GrantNeedsSecret(ops: seq<Timed>, j: nat) returns (i: nat, expiresAt: Time)
    requires j < |ops| && ops[j].op.OpRotate? && AnswerTo(ops, j).Granted?
    ensures i < j && HandsOut(ops, i, ops[j].op.oldId, ops[j].op.hash, expiresAt) && ops[j].at <= expiresAt
  {
    var a, op := After(ops[..j]), ops[j].op;
    GrantedIff(a, op.oldId, op.hash, op.id, op.newHash, op.newExpiresAt, ops[j].at);
    hide After, Rotate, HandsOut;
    i := TokenWasHandedOut(ops, j, op.oldId);
    expiresAt := a.tokens[op.oldId].expiresAt;
  }

  /** And a wrong secret changes nothing: not for a live token, and not for one that was used before. */
  lemma WrongSecretChangesNothing(a: Auth, oldId: Uuid, hash: int, id: Uuid, newHash: int, newExpiresAt: Time,
                                  now: Time)
    requires oldId in a.tokens ==> a.tokens[oldId].hash != hash
    ensures Rotate(a, oldId, hash, id, newHash, newExpiresAt, now) == (a, InvalidRefresh)
  {
  }

  // ---------------------------------------------------------------- what a valid access token means

  /** The login that the operation makes, if it is one. */
  function LoginOf(op: Op): Option<Login> {
    match op
    case OpActivate(_, _, login) => Some(login)
    case OpLogIn(_, _, login) => Some(login)
    case OpRecover(_, login) => Some(login)
    case _ => None
  }

  /** The i-th operation is the login that the claim comes from. */
  predicate LogsIn(ops: seq<Timed>, i: nat, claim: Claim, expiresAt: Time)
    requires i < |ops|
  {
    AnswerTo(ops, i) == Granted(claim) && LoginOf(ops[i].op).Some? && LoginOf(ops[i].op).value.expiresAt == expiresAt
  }

  /** The j-th operation ends the session: a logout, its passkey or its device revoked, or one of its tokens reused. */
  predicate Ends(ops: seq<Timed>, j: nat, session: Uuid)
    requires j < |ops|
  {
    session in After(ops[..j]).sessions && Revokes(After(ops[..j]), ops[j].op, ops[j].at, session)
  }

  /** The login at i gave the claim, and nothing has ended its session before n. */
  ghost predicate LivesSince(ops: seq<Timed>, i: nat, n: nat, claim: Claim, expiresAt: Time)
    requires n <= |ops|
  {
    i < n && LogsIn(ops, i, claim, expiresAt) && forall j :: i < j < n ==> !Ends(ops, j, claim.session)
  }

  ghost predicate InForce(ops: seq<Timed>, n: nat, claim: Claim, expiresAt: Time)
    requires n <= |ops|
  {
    exists i: nat :: LivesSince(ops, i, n, claim, expiresAt)
  }

  /** An unrevoked session's device is active. */
  ghost predicate DevicesOk(a: Auth) {
    forall id :: id in a.sessions && a.sessions[id].revokedAt.None? ==>
      var s := a.sessions[id]; (s.install, s.account) in a.installs && a.installs[(s.install, s.account)].None?
  }

  predicate IsLive(a: Auth, claim: Claim, expiresAt: Time) {
    claim.session in a.sessions &&
    var s := a.sessions[claim.session];
    s.account == claim.account && s.install == claim.install && s.revokedAt.None? && s.expiresAt == expiresAt
  }

  lemma StepDevices(a: Auth, op: Op, now: Time)
    requires DevicesOk(a)
    ensures DevicesOk(Do(a, op, now).0)
  {
  }

  lemma {:induction false} ReachableDevices(ops: seq<Timed>)
    ensures DevicesOk(After(ops))
  {
    hide Do, DevicesOk;
    if |ops| == 0 {
      assert DevicesOk(NO_AUTH) by { NoDevices(); }
    } else {
      ReachableDevices(ops[..|ops| - 1]);
      StepDevices(After(ops[..|ops| - 1]), ops[|ops| - 1].op, ops[|ops| - 1].at);
    }
  }

  lemma NoDevices()
    ensures DevicesOk(NO_AUTH)
  {
  }

  /** A session that is there lives on unless the operation ends it. */
  lemma StepKeepsLive(a: Auth, op: Op, now: Time, claim: Claim, expiresAt: Time)
    requires SessionsOk(a) && claim.session in a.sessions
    ensures IsLive(Do(a, op, now).0, claim, expiresAt) <==>
            IsLive(a, claim, expiresAt) && !Revokes(a, op, now, claim.session)
    ensures LoginOf(op).Some? ==> Do(a, op, now).1 != Granted(claim)
  {
  }

  /** A new session comes from a login that is granted. */
  lemma StepBearsLive(a: Auth, op: Op, now: Time, claim: Claim, expiresAt: Time)
    requires claim.session !in a.sessions
    ensures IsLive(Do(a, op, now).0, claim, expiresAt) <==>
            Do(a, op, now).1 == Granted(claim) && LoginOf(op).Some? && LoginOf(op).value.expiresAt == expiresAt
  {
  }

  lemma GrantedIsThere(a: Auth, op: Op, now: Time, claim: Claim)
    requires Do(a, op, now).1 == Granted(claim) && LoginOf(op).Some?
    ensures claim.session in Do(a, op, now).0.sessions
  {
  }

  lemma {:induction false} LiveMeans(ops: seq<Timed>, n: nat, claim: Claim, expiresAt: Time)
    requires n <= |ops|
    ensures IsLive(After(ops[..n]), claim, expiresAt) <==> InForce(ops, n, claim, expiresAt)
  {
    hide Do, IsLive, Revokes;
    if n == 0 {
      NoneLive(claim, expiresAt);
    } else {
      var a, op, now := After(ops[..n - 1]), ops[n - 1].op, ops[n - 1].at;
      AfterNext(ops, n - 1);
      LiveMeans(ops, n - 1, claim, expiresAt);
      var chains := ReachableAuth(ops[..n - 1]);
      hide ChainsOk;
      if claim.session in a.sessions {
        StepKeepsLive(a, op, now, claim, expiresAt);
        LivesOn(ops, n, claim, expiresAt);
      } else {
        StepBearsLive(a, op, now, claim, expiresAt);
        LivesAnew(ops, n, claim, expiresAt);
      }
    }
  }

  lemma NoneLive(claim: Claim, expiresAt: Time)
    ensures !IsLive(NO_AUTH, claim, expiresAt)
  {
  }

  /** The last operation is no new login for a session that is there, so only its end matters. */
  lemma LivesOn(ops: seq<Timed>, n: nat, claim: Claim, expiresAt: Time)
    requires 0 < n <= |ops| && claim.session in After(ops[..n - 1]).sessions
    requires LoginOf(ops[n - 1].op).Some? ==> AnswerTo(ops, n - 1) != Granted(claim)
    ensures InForce(ops, n, claim, expiresAt) <==>
            InForce(ops, n - 1, claim, expiresAt) && !Ends(ops, n - 1, claim.session)
  {
    hide After, Do, Ends, LogsIn;
    assert !LogsIn(ops, n - 1, claim, expiresAt) by { NoLogin(ops, n - 1, claim, expiresAt); }
    var m := n - 1;
    if i: nat :| LivesSince(ops, i, n, claim, expiresAt) {
      assert i < m && LivesSince(ops, i, m, claim, expiresAt);
    }
    if !Ends(ops, m, claim.session) && InForce(ops, m, claim, expiresAt) {
      var i: nat :| LivesSince(ops, i, m, claim, expiresAt);
      assert LivesSince(ops, i, n, claim, expiresAt);
    }
  }

  lemma NoLogin(ops: seq<Timed>, i: nat, claim: Claim, expiresAt: Time)
    requires i < |ops| && (LoginOf(ops[i].op).Some? ==> AnswerTo(ops, i) != Granted(claim))
    ensures !LogsIn(ops, i, claim, expiresAt)
  {
    hide After, Do;
  }

  /** A session that is not there was never logged in before. */
  lemma LivesAnew(ops: seq<Timed>, n: nat, claim: Claim, expiresAt: Time)
    requires 0 < n <= |ops| && claim.session !in After(ops[..n - 1]).sessions
    ensures InForce(ops, n, claim, expiresAt) <==> LogsIn(ops, n - 1, claim, expiresAt)
  {
    forall i: nat | i < n - 1 ensures !LogsIn(ops, i, claim, expiresAt) {
      if LogsIn(ops, i, claim, expiresAt) {
        GrantedIsThere(After(ops[..i]), ops[i].op, ops[i].at, claim);
        AfterNext(ops, i);
        RunLater(ops, i + 1, n - 1);
        assert false;
      }
    }
    hide After, Do, Ends, LogsIn;
    if LogsIn(ops, n - 1, claim, expiresAt) {
      assert LivesSince(ops, n - 1, n, claim, expiresAt);
    }
  }

  /** The account has been activated by the n-th operation. */
  predicate Activates(ops: seq<Timed>, i: nat, account: Uuid)
    requires i < |ops|
  {
    ops[i].op.OpActivate? && ops[i].op.account == account && AnswerTo(ops, i).Granted?
  }

  lemma {:induction false} ActiveMeans(ops: seq<Timed>, n: nat, account: Uuid)
    requires n <= |ops|
    ensures account in After(ops[..n]).active <==> exists i :: 0 <= i < n && Activates(ops, i, account)
  {
    hide Do;
    if n > 0 {
      ActiveMeans(ops, n - 1, account);
      AfterNext(ops, n - 1);
      StepActive(After(ops[..n - 1]), ops[n - 1].op, ops[n - 1].at, account);
      hide After;
      assert Activates(ops, n - 1, account) <==>
             ops[n - 1].op.OpActivate? && ops[n - 1].op.account == account && AnswerTo(ops, n - 1).Granted?;
    }
  }

  lemma StepActive(a: Auth, op: Op, now: Time, account: Uuid)
    ensures account in Do(a, op, now).0.active <==>
            account in a.active || (op.OpActivate? && op.account == account && Do(a, op, now).1.Granted?)
  {
  }

  /**
   An access token is good, at any moment of any run, if and only if it comes from a granted login whose expiry
   lies ahead, its account has been activated, and since that login nothing has ended its session.
   */
  lemma ValidMeans(ops: seq<Timed>, n: nat, claim: Claim, now: Time)
    requires n <= |ops|
    ensures Validates(After(ops[..n]), claim, now) <==>
            (exists expiresAt :: InForce(ops, n, claim, expiresAt) && now < expiresAt) &&
            exists i :: 0 <= i < n && Activates(ops, i, claim.account)
  {
    var a := After(ops[..n]);
    ActiveMeans(ops, n, claim.account);
    ReachableDevices(ops[..n]);
    var chains := ReachableAuth(ops[..n]);
    hide *;
    LiveValidates(a, claim, now);
    forall expiresAt
      ensures IsLive(a, claim, expiresAt) <==> InForce(ops, n, claim, expiresAt)
    {
      LiveMeans(ops, n, claim, expiresAt);
    }
  }

  lemma LiveValidates(a: Auth, claim: Claim, now: Time)
    requires DevicesOk(a) && SessionsOk(a)
    ensures Validates(a, claim, now) <==>
            claim.account in a.active && exists expiresAt :: IsLive(a, claim, expiresAt) && now < expiresAt
  {
    if Validates(a, claim, now) {
      assert IsLive(a, claim, a.sessions[claim.session].expiresAt);
    }
  }
}
