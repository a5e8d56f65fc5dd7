/**
 The server's account tables as fields that each transaction reassigns statement by statement. Every method
 ends in exactly the state and answer of its function in AuthTables.dfy, so the theorems of AuthRuns.dfy hold of it.
 */
module AuthStore {
  import opened Domain
  import opened AuthTables
  import opened AuthEffects

  class AuthStore {
    var active: set<Uuid>
    var credentials: map<Uuid, Credential>
    var installs: map<(Uuid, Uuid), Option<Time>>
    var sessions: map<Uuid, AuthSession>
    var tokens: map<Uuid, Token>

    function State(): Auth
      reads this
    {
      Auth(active, credentials, installs, sessions, tokens)
    }

    constructor ()
      ensures State() == NO_AUTH
    {
      active, credentials, installs, sessions, tokens := {}, map[], map[], map[], map[];
    }

    method Rollback(tx: Auth)
      modifies this
      ensures State() == tx
    {
      active, credentials, installs, sessions, tokens := tx.active, tx.credentials, tx.installs, tx.sessions, tx.tokens;
    }

    /** Runs inside the caller's transaction, which the caller rolls back on an error. */
    method InsertSession(account: Uuid, credential: Option<Uuid>, login: Login) returns (answer: Answer)
      modifies this
      ensures answer == CreateSession(old(State()), account, credential, login).1
      ensures answer.Granted? ==> State() == CreateSession(old(State()), account, credential, login).0
    {
      installs := installs[(login.install, account) := None];
      if login.session in sessions {
        return Unique;
      }
      sessions := sessions[login.session := AuthSession(account, login.install, credential, login.expiresAt, None)];
      if login.token in tokens {
        return Unique;
      }
      tokens := tokens[login.token := Token(login.token, login.session, None, login.hash, login.tokenExpiresAt,
                                            None, None, None)];
      answer := Granted(Claim(account, login.session, login.install));
    }

    method ActivateAccount(account: Uuid, credential: Uuid, login: Login) returns (answer: Answer)
      modifies this
      ensures (State(), answer) == Activate(old(State()), account, credential, login)
    {
      var tx := State();
      if account in active {
        return Conflict;
      }
      active := active + {account};
      if credential in credentials {
        Rollback(tx);
        return Unique;
      }
      credentials := credentials[credential := Credential(account, None)];
      answer := InsertSession(account, Some(credential), login);
      if !answer.Granted? {
        Rollback(tx);
      }
    }

    method CreateLoginSession(account: Uuid, credential: Uuid, login: Login) returns (answer: Answer)
      modifies this
      ensures (State(), answer) == LogIn(old(State()), account, credential, login)
    {
      var tx := State();
      if !(credential in credentials && credentials[credential].account == account &&
           credentials[credential].revokedAt.None?)
      {
        return NotFound;
      }
      answer := InsertSession(account, Some(credential), login);
      if !answer.Granted? {
        Rollback(tx);
      }
    }

    method UseRecoveryCode(account: Uuid, login: Login) returns (answer: Answer)
      modifies this
      ensures (State(), answer) == Recover(old(State()), account, login)
    {
      var tx := State();
      if account !in active {
        return NotFound;
      }
      answer := InsertSession(account, None, login);
      if !answer.Granted? {
        Rollback(tx);
      }
    }

    method InsertCredential(account: Uuid, credential: Uuid) returns (answer: Answer)
      modifies this
      ensures (State(), answer) == AddCredential(old(State()), account, credential)
    {
      if credential in credentials {
        return Unique;
      }
      credentials := credentials[credential := Credential(account, None)];
      answer := Done;
    }

    method RotateRefresh(oldId: Uuid, hash: int, id: Uuid, newHash: int, newExpiresAt: Time, now: Time)
      returns (answer: Answer)
      modifies this
      ensures (State(), answer) == Rotate(old(State()), oldId, hash, id, newHash, newExpiresAt, now)
      ensures RotateDoes(old(State()), oldId, hash, id, newHash, newExpiresAt, now, State(), answer)
    {
      var tx := State();
      ghost var end := Rotate(tx, oldId, hash, id, newHash, newExpiresAt, now);
      RotateMeans(tx, oldId, hash, id, newHash, newExpiresAt, now, end.0, end.1);
      hide RotateDoes;
      if !Joined(tx, oldId) {
        return InvalidRefresh;
      }
      var token := tokens[oldId];
      var session := sessions[token.session];
      if token.hash != hash {
        return InvalidRefresh;
      }
      if token.consumedAt.Some? {
        tokens := RevokeFamily(tokens, token.family, now);
        sessions := sessions[token.session := session.(revokedAt := Coalesce(session.revokedAt, now))];
        return RefreshReuse;
      }
      if token.revokedAt.Some? || session.revokedAt.Some? || installs[(session.install, session.account)].Some? ||
         now > token.expiresAt || now > session.expiresAt
      {
        return InvalidRefresh;
      }
      tokens := tokens[oldId := token.(consumedAt := Some(now), replacement := Some(id))];
      if id in tokens {
        Rollback(tx);
        return Unique;
      }
      tokens := tokens[id := Token(token.family, token.session, Some(oldId), newHash, newExpiresAt, None, None, None)];
      answer := Granted(Claim(session.account, token.session, session.install));
    }

    method ValidateAuthSession(claim: Claim, now: Time) returns (valid: bool)
      ensures valid == Validates(State(), claim, now)
    {
      if claim.session !in sessions {
        return false;
      }
      var session := sessions[claim.session];
      var device := (session.install, session.account);
      if session.account != claim.account || session.install != claim.install || device !in installs {
        return false;
      }
      var credentialRevoked := session.credential.Some? && session.credential.value in credentials &&
                               credentials[session.credential.value].revokedAt.Some?;
      valid := session.revokedAt.None? && session.expiresAt > now && installs[device].None? &&
               session.account in active && !credentialRevoked;
    }

    method EndSession(account: Uuid, session: Uuid, now: Time) returns (answer: Answer)
      modifies this
      ensures (State(), answer) == RevokeSession(old(State()), account, session, now)
    {
      if !(session in sessions && sessions[session].account == account && sessions[session].revokedAt.None?) {
        return NotFound;
      }
      sessions := sessions[session := sessions[session].(revokedAt := Some(now))];
      answer := Done;
    }

    method EndCredential(account: Uuid, credential: Uuid, now: Time) returns (answer: Answer)
      modifies this
      ensures (State(), answer) == RevokeCredential(old(State()), account, credential, now)
    {
      if !(credential in credentials && credentials[credential].account == account &&
           credentials[credential].revokedAt.None?)
      {
        return NotFound;
      }
      credentials := credentials[credential := credentials[credential].(revokedAt := Some(now))];
      sessions := RevokeByPasskey(sessions, account, credential, now);
      answer := Done;
    }

    method EndInstallation(account: Uuid, install: Uuid, now: Time) returns (answer: Answer)
      modifies this
      ensures (State(), answer) == RevokeInstallation(old(State()), account, install, now)
    {
      var device := (install, account);
      if !(device in installs && installs[device].None?) {
        return NotFound;
      }
      installs := installs[device := Some(now)];
      sessions := RevokeByDevice(sessions, account, install, now);
      answer := Done;
    }
  }
}
