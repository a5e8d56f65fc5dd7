/** Theorems over every run of logins, rotations and revocations. */
module AuthRuns {
  import opened Domain
  import opened AuthTables

  datatype Timed = Timed(op: Op, at: Time)

  function After(ops: seq<Timed>): Auth {
    if |ops| == 0 then NO_AUTH else Do(After(ops[..|ops| - 1]), ops[|ops| - 1].op, ops[|ops| - 1].at).0
  }

  function AnswerTo(ops: seq<Timed>, i: nat): Answer
    requires i < |ops|
  {
    Do(After(ops[..i]), ops[i].op, ops[i].at).1
  }

  // ---------------------------------------------------------------- the invariant

  /**
   A family as a linear chain: it starts at the token that names it, parent and replacement links are
   inverse, all but the last token are consumed, and all belong to one session.
   */
  ghost predicate IsChain(tokens: map<Uuid, Token>, family: Uuid, chain: seq<Uuid>) {
    |chain| > 0 && chain[0] == family && InFamily(tokens, family, chain) && Linked(tokens, chain) &&
    tokens[chain[0]].parent.None? && IsEnd(tokens[chain[|chain| - 1]]) &&
    (forall i, j :: 0 <= i < j < |chain| ==> chain[i] != chain[j])
  }

  ghost predicate InFamily(tokens: map<Uuid, Token>, family: Uuid, chain: seq<Uuid>) {
    family in tokens &&
    forall i :: 0 <= i < |chain| ==>
      chain[i] in tokens && tokens[chain[i]].family == family && tokens[chain[i]].session == tokens[family].session
  }

  ghost predicate Linked(tokens: map<Uuid, Token>, chain: seq<Uuid>)
    requires forall i :: 0 <= i < |chain| ==> chain[i] in tokens
  {
    forall i, j :: 0 <= i && j == i + 1 < |chain| ==>
      tokens[chain[i]].replacement == Some(chain[j]) && tokens[chain[j]].parent == Some(chain[i]) &&
      tokens[chain[i]].consumedAt.Some?
  }

  predicate IsEnd(token: Token) {
    token.replacement.None? && token.consumedAt.None?
  }

  type Chains = map<Uuid, seq<Uuid>>

  ghost predicate ChainsOk(tokens: map<Uuid, Token>, chains: Chains) {
    (forall family :: family in chains ==> IsChain(tokens, family, chains[family])) &&
    (forall id :: id in tokens ==> tokens[id].family in chains && id in chains[tokens[id].family])
  }

  ghost predicate SessionsOk(a: Auth) {
    (forall id :: id in a.tokens ==> a.tokens[id].session in a.sessions) &&
    (forall id :: id in a.sessions && a.sessions[id].credential.Some? ==>
       var c := a.sessions[id].credential.value;
       c in a.credentials && a.credentials[c].account == a.sessions[id].account &&
       (a.credentials[c].revokedAt.Some? ==> a.sessions[id].revokedAt.Some?))
  }

  /** The chains after one more operation. */
  function NextChains(a: Auth, chains: Chains, op: Op, now: Time): Chains {
    if !Do(a, op, now).1.Granted? then chains
    else
      match op
      case OpActivate(_, _, login) => chains[login.token := [login.token]]
      case OpLogIn(_, _, login) => chains[login.token := [login.token]]
      case OpRecover(_, login) => chains[login.token := [login.token]]
      case OpRotate(oldId, _, id, _, _) =>
        if oldId in a.tokens && a.tokens[oldId].family in chains
        then chains[a.tokens[oldId].family := chains[a.tokens[oldId].family] + [id]] else chains
      case _ => chains
  }

  lemma NewFamilyKeepsChains(tokens: map<Uuid, Token>, chains: Chains, id: Uuid, token: Token)
    requires ChainsOk(tokens, chains) && id !in tokens
    requires token.family == id && token.parent.None? && IsEnd(token)
    ensures ChainsOk(tokens[id := token], chains[id := [id]])
  {
    assert id !in chains;
    forall f | f in chains ensures IsChain(tokens[id := token], f, chains[f]) {
      ChainUntouched(tokens, tokens[id := token], f, chains[f]);
    }
  }

  /** The tokens after `oldId` has been exchanged for `id`. */
  function Exchanged(tokens: map<Uuid, Token>, oldId: Uuid, id: Uuid, token: Token, now: Time): map<Uuid, Token>
    requires oldId in tokens
  {
    tokens[oldId := tokens[oldId].(consumedAt := Some(now), replacement := Some(id))][id := token]
  }

  lemma LinkConsumed(tokens: map<Uuid, Token>, chain: seq<Uuid>, i: nat)
    requires i < |chain| - 1 && (forall k :: 0 <= k < |chain| ==> chain[k] in tokens) && Linked(tokens, chain)
    ensures tokens[chain[i]].consumedAt.Some?
  {
    assert tokens[chain[i]].replacement == Some(chain[i + 1]);
  }

  lemma LastIsUnconsumed(tokens: map<Uuid, Token>, family: Uuid, chain: seq<Uuid>, id: Uuid)
    requires IsChain(tokens, family, chain) && id in chain && tokens[id].consumedAt.None?
    ensures chain[|chain| - 1] == id
  {
    var k :| 0 <= k < |chain| && chain[k] == id;
    if k < |chain| - 1 {
      LinkConsumed(tokens, chain, k);
    }
  }

  lemma RotationExtendsChain(tokens: map<Uuid, Token>, chain: seq<Uuid>, oldId: Uuid, id: Uuid, token: Token, now: Time)
    requires oldId in tokens && id !in tokens && IsChain(tokens, token.family, chain) && chain[|chain| - 1] == oldId
    requires token.family == tokens[oldId].family && token.session == tokens[oldId].session
    requires token.parent == Some(oldId) && IsEnd(token)
    ensures IsChain(Exchanged(tokens, oldId, id, token, now), token.family, chain + [id])
  {
    var next, longer := Exchanged(tokens, oldId, id, token, now), chain + [id];
    assert Linked(next, longer) by {
      forall i, j | 0 <= i && j == i + 1 < |longer|
        ensures next[longer[i]].replacement == Some(longer[j]) && next[longer[j]].parent == Some(longer[i])
        ensures next[longer[i]].consumedAt.Some?
      {
        if j < |chain| {
          assert tokens[chain[i]].replacement == Some(chain[j]);
        }
      }
    }
  }

  /** A chain none of whose tokens changes its links stays a chain. */
  lemma ChainUntouched(tokens: map<Uuid, Token>, next: map<Uuid, Token>, family: Uuid, chain: seq<Uuid>)
    requires IsChain(tokens, family, chain)
    requires forall id :: id in tokens && tokens[id].family == family ==>
               id in next && next[id].(revokedAt := None) == tokens[id].(revokedAt := None)
    ensures IsChain(next, family, chain)
  {
    assert Linked(next, chain) by {
      forall i, j | 0 <= i && j == i + 1 < |chain|
        ensures next[chain[i]].replacement == Some(chain[j]) && next[chain[j]].parent == Some(chain[i])
        ensures next[chain[i]].consumedAt.Some?
      {
        assert tokens[chain[i]].replacement == Some(chain[j]);
        assert next[chain[i]].(revokedAt := None) == tokens[chain[i]].(revokedAt := None);
        assert next[chain[j]].(revokedAt := None) == tokens[chain[j]].(revokedAt := None);
      }
    }
  }

  lemma RotationKeepsChains(tokens: map<Uuid, Token>, chains: Chains, oldId: Uuid, id: Uuid, token: Token, now: Time)
    requires ChainsOk(tokens, chains) && oldId in tokens && id !in tokens && tokens[oldId].consumedAt.None?
    requires token.family == tokens[oldId].family && token.session == tokens[oldId].session
    requires token.parent == Some(oldId) && IsEnd(token)
    ensures token.family in chains &&
            ChainsOk(Exchanged(tokens, oldId, id, token, now), chains[token.family := chains[token.family] + [id]])
  {
    var next, chain := Exchanged(tokens, oldId, id, token, now), chains[token.family];
    var after := chains[token.family := chain + [id]];
    LastIsUnconsumed(tokens, token.family, chain, oldId);
    RotationExtendsChain(tokens, chain, oldId, id, token, now);
    hide IsChain;
    RotationCovers(tokens, chains, oldId, id, token, now);
    assert after[token.family] == chain + [id];
    hide Exchanged;
    forall f | f in after ensures IsChain(next, f, after[f]) {
      if f != token.family {
        OtherChain(tokens, f, chains[f], oldId, id, token, now);
      }
    }
  }

  lemma OtherChain(tokens: map<Uuid, Token>, family: Uuid, chain: seq<Uuid>, oldId: Uuid, id: Uuid, token: Token,
                   now: Time)
    requires IsChain(tokens, family, chain) && oldId in tokens && id !in tokens && tokens[oldId].family != family
    ensures IsChain(Exchanged(tokens, oldId, id, token, now), family, chain)
  {
    hide IsChain;
    ChainUntouched(tokens, Exchanged(tokens, oldId, id, token, now), family, chain);
  }

  lemma RotationCovers(tokens: map<Uuid, Token>, chains: Chains, oldId: Uuid, id: Uuid, token: Token, now: Time)
    requires oldId in tokens && token.family == tokens[oldId].family && token.family in chains
    requires forall t :: t in tokens ==> tokens[t].family in chains && t in chains[tokens[t].family]
    ensures var after := chains[token.family := chains[token.family] + [id]];
            var next := Exchanged(tokens, oldId, id, token, now);
            forall t :: t in next ==> next[t].family in after && t in after[next[t].family]
  {
  }

  /** Marking tokens revoked touches no link. */
  lemma RevokingKeepsChains(tokens: map<Uuid, Token>, chains: Chains, family: Uuid, now: Time)
    requires ChainsOk(tokens, chains)
    ensures ChainsOk(RevokeFamily(tokens, family, now), chains)
  {
    hide IsChain;
    forall f | f in chains ensures IsChain(RevokeFamily(tokens, family, now), f, chains[f]) {
      ChainUntouched(tokens, RevokeFamily(tokens, family, now), f, chains[f]);
    }
  }

  lemma LoginKeepsChains(a: Auth, chains: Chains, account: Uuid, credential: Option<Uuid>, login: Login)
    requires ChainsOk(a.tokens, chains)
    ensures var (b, answer) := CreateSession(a, account, credential, login);
            ChainsOk(b.tokens, if answer.Granted? then chains[login.token := [login.token]] else chains)
  {
    hide ChainsOk;
    if CreateSession(a, account, credential, login).1.Granted? {
      NewFamilyKeepsChains(a.tokens, chains, login.token,
                           Token(login.token, login.session, None, login.hash, login.tokenExpiresAt, None, None, None));
    }
  }

  lemma RotateKeepsChains(a: Auth, chains: Chains, op: Op, now: Time)
    requires ChainsOk(a.tokens, chains) && op.OpRotate?
    ensures ChainsOk(Do(a, op, now).0.tokens, NextChains(a, chains, op, now))
  {
    if Do(a, op, now).1.Granted? {
      assert a.tokens[op.oldId].family in chains;
      hide ChainsOk, RevokeFamily;
      RotationKeepsChains(a.tokens, chains, op.oldId, op.id,
                          Token(a.tokens[op.oldId].family, a.tokens[op.oldId].session, Some(op.oldId), op.newHash,
                                op.newExpiresAt, None, None, None), now);
    } else if Do(a, op, now).1.RefreshReuse? {
      hide ChainsOk, RevokeFamily;
      RevokingKeepsChains(a.tokens, chains, a.tokens[op.oldId].family, now);
    }
  }

  lemma StepChains(a: Auth, chains: Chains, op: Op, now: Time)
    requires ChainsOk(a.tokens, chains)
    ensures ChainsOk(Do(a, op, now).0.tokens, NextChains(a, chains, op, now))
  {
    hide ChainsOk;
    match op
    case OpActivate(account, credential, login) =>
      LoginKeepsChains(a.(active := a.active + {account},
                          credentials := a.credentials[credential := Credential(account, None)]),
                       chains, account, Some(credential), login);
    case OpLogIn(account, credential, login) => LoginKeepsChains(a, chains, account, Some(credential), login);
    case OpRecover(account, login) => LoginKeepsChains(a, chains, account, None, login);
    case OpRotate(_, _, _, _, _) => RotateKeepsChains(a, chains, op, now);
    case _ =>
  }

  lemma StepSessions(a: Auth, op: Op, now: Time)
    requires SessionsOk(a)
    ensures SessionsOk(Do(a, op, now).0)
  {
  }

  lemma {:induction false} ReachableAuth(ops: seq<Timed>) returns (chains: Chains)
    ensures ChainsOk(After(ops).tokens, chains) && SessionsOk(After(ops))
  {
    hide Do, ChainsOk, SessionsOk;
    if |ops| == 0 {
      chains := map[];
      NothingOk();
    } else {
      var n := |ops| - 1;
      var before := ReachableAuth(ops[..n]);
      StepChains(After(ops[..n]), before, ops[n].op, ops[n].at);
      StepSessions(After(ops[..n]), ops[n].op, ops[n].at);
      chains := NextChains(After(ops[..n]), before, ops[n].op, ops[n].at);
    }
  }

  lemma NothingOk()
    ensures ChainsOk(NO_AUTH.tokens, map[]) && SessionsOk(NO_AUTH)
  {
  }

  /** In every reachable state the tokens of a family are exactly one linear chain. */
  lemma FamilyIsChain(ops: seq<Timed>, id: Uuid) returns (chain: seq<Uuid>)
    requires id in After(ops).tokens
    ensures var tokens := After(ops).tokens; var family := tokens[id].family;
            IsChain(tokens, family, chain) &&
            forall t :: t in tokens && tokens[t].family == family <==> t in chain
  {
    var chains := ReachableAuth(ops);
    hide After, Do;
    chain := chains[After(ops).tokens[id].family];
  }

  // ---------------------------------------------------------------- what no operation undoes

  ghost predicate Later(a: Auth, b: Auth) {
    (forall id :: id in a.tokens ==>
       id in b.tokens && b.tokens[id].family == a.tokens[id].family && b.tokens[id].session == a.tokens[id].session &&
       (a.tokens[id].consumedAt.Some? ==> b.tokens[id].consumedAt.Some?) &&
       (a.tokens[id].revokedAt.Some? ==> b.tokens[id].revokedAt.Some?)) &&
    (forall id :: id in a.sessions ==>
       id in b.sessions && b.sessions[id].account == a.sessions[id].account &&
       b.sessions[id].install == a.sessions[id].install && b.sessions[id].credential == a.sessions[id].credential &&
       (a.sessions[id].revokedAt.Some? ==> b.sessions[id].revokedAt.Some?)) &&
    (forall c :: c in a.credentials ==>
       c in b.credentials && b.credentials[c].account == a.credentials[c].account &&
       (a.credentials[c].revokedAt.Some? ==> b.credentials[c].revokedAt.Some?))
  }

  lemma RotateLater(a: Auth, oldId: Uuid, hash: int, id: Uuid, newHash: int, newExpiresAt: Time, now: Time)
    ensures Later(a, Rotate(a, oldId, hash, id, newHash, newExpiresAt, now).0)
  {
  }

  lemma LoginLater(a: Auth, account: Uuid, credential: Option<Uuid>, login: Login)
    ensures Later(a, CreateSession(a, account, credential, login).0)
  {
  }

  lemma ActivateLater(a: Auth, account: Uuid, credential: Uuid, login: Login)
    ensures Later(a, Activate(a, account, credential, login).0)
  {
    var b := a.(active := a.active + {account}, credentials := a.credentials[credential := Credential(account, None)]);
    LoginLater(b, account, Some(credential), login);
    hide CreateSession;
  }

  lemma StepLater(a: Auth, op: Op, now: Time)
    ensures Later(a, Do(a, op, now).0)
  {
    SameLater(a);
    hide Rotate, CreateSession, Activate, AddCredential, RevokeSession, RevokeCredential, RevokeInstallation, Later;
    match op
    case OpActivate(account, credential, login) => ActivateLater(a, account, credential, login);
    case OpLogIn(account, credential, login) => LoginLater(a, account, Some(credential), login);
    case OpRecover(account, login) => LoginLater(a, account, None, login);
    case OpRotate(oldId, hash, id, newHash, newExpiresAt) =>
      RotateLater(a, oldId, hash, id, newHash, newExpiresAt, now);
    case OpAddCredential(account, credential) => AddCredentialLater(a, account, credential);
    case OpRevokeSession(account, session) => RevokeSessionLater(a, account, session, now);
    case OpRevokeCredential(account, credential) => RevokeCredentialLater(a, account, credential, now);
    case OpRevokeInstallation(account, install) => RevokeInstallationLater(a, account, install, now);
  }

  lemma AddCredentialLater(a: Auth, account: Uuid, credential: Uuid)
    ensures Later(a, AddCredential(a, account, credential).0)
  {
  }

  lemma RevokeSessionLater(a: Auth, account: Uuid, session: Uuid, now: Time)
    ensures Later(a, RevokeSession(a, account, session, now).0)
  {
  }

  lemma RevokeCredentialLater(a: Auth, account: Uuid, credential: Uuid, now: Time)
    ensures Later(a, RevokeCredential(a, account, credential, now).0)
  {
  }

  lemma RevokeInstallationLater(a: Auth, account: Uuid, install: Uuid, now: Time)
    ensures Later(a, RevokeInstallation(a, account, install, now).0)
  {
  }

  lemma SameLater(a: Auth)
    ensures Later(a, a)
  {
  }

  lemma {:induction false} RunLater(ops: seq<Timed>, i: nat, j: nat)
    requires i <= j <= |ops|
    ensures Later(After(ops[..i]), After(ops[..j]))
  {
    hide Do;
    if i < j {
      RunLater(ops, i, j - 1);
      assert ops[..j][..j - 1] == ops[..j - 1];
      StepLater(After(ops[..j - 1]), ops[j - 1].op, ops[j - 1].at);
    }
  }

  lemma AfterNext(ops: seq<Timed>, i: nat)
    requires i < |ops|
    ensures After(ops[..i + 1]) == Do(After(ops[..i]), ops[i].op, ops[i].at).0
  {
    assert ops[..i + 1][..i] == ops[..i];
  }

  // ---------------------------------------------------------------- rotation and reuse

  lemma GrantConsumes(a: Auth, op: Op, now: Time)
    requires op.OpRotate? && Do(a, op, now).1.Granted?
    ensures op.oldId in a.tokens && a.tokens[op.oldId].consumedAt.None?
    ensures var b := Do(a, op, now).0; op.oldId in b.tokens && b.tokens[op.oldId].consumedAt.Some?
  {
  }

  lemma ConsumedStays(ops: seq<Timed>, i: nat, j: nat)
    requires i < j < |ops| && ops[i].op.OpRotate? && AnswerTo(ops, i).Granted?
    ensures var id := ops[i].op.oldId; var b := After(ops[..j]); id in b.tokens && b.tokens[id].consumedAt.Some?
  {
    GrantConsumes(After(ops[..i]), ops[i].op, ops[i].at);
    AfterNext(ops, i);
    RunLater(ops, i + 1, j);
  }

  /** A token rotates at most once. */
  lemma RotatesOnce(ops: seq<Timed>, i: nat, j: nat)
    requires i < |ops| && j < |ops| && ops[i].op.OpRotate? && ops[j].op.OpRotate?
    requires ops[i].op.oldId == ops[j].op.oldId && AnswerTo(ops, i).Granted? && AnswerTo(ops, j).Granted?
    ensures i == j
  {
    hide After, Do;
    GrantConsumes(After(ops[..i]), ops[i].op, ops[i].at);
    GrantConsumes(After(ops[..j]), ops[j].op, ops[j].at);
    if i < j {
      ConsumedStays(ops, i, j);
    } else if j < i {
      ConsumedStays(ops, j, i);
    }
  }

  /** Only the last token of a family can rotate, and doing so makes its successor the last. */
  lemma OnlyTheLastRotates(ops: seq<Timed>, i: nat) returns (chain: seq<Uuid>)
    requires i < |ops| && ops[i].op.OpRotate? && AnswerTo(ops, i).Granted?
    ensures var op, tokens := ops[i].op, After(ops[..i]).tokens;
            op.oldId in tokens && IsChain(tokens, tokens[op.oldId].family, chain) &&
            chain[|chain| - 1] == op.oldId &&
            IsChain(After(ops[..i + 1]).tokens, tokens[op.oldId].family, chain + [op.id])
  {
    var a, op, now := After(ops[..i]), ops[i].op, ops[i].at;
    GrantConsumes(a, op, now);
    chain := FamilyIsChain(ops[..i], op.oldId);
    AfterNext(ops, i);
    hide After, IsChain;
    LastIsUnconsumed(a.tokens, a.tokens[op.oldId].family, chain, op.oldId);
    RotationExtendsChain(a.tokens, chain, op.oldId, op.id,
                         Token(a.tokens[op.oldId].family, a.tokens[op.oldId].session, Some(op.oldId), op.newHash,
                               op.newExpiresAt, None, None, None), now);
  }

  /** All tokens of a family are revoked. */
  ghost predicate Dead(a: Auth, family: Uuid) {
    family in a.tokens && forall id :: id in a.tokens && a.tokens[id].family == family ==> a.tokens[id].revokedAt.Some?
  }

  lemma ReuseKills(a: Auth, oldId: Uuid, hash: int, id: Uuid, newHash: int, newExpiresAt: Time, now: Time)
    requires Rotate(a, oldId, hash, id, newHash, newExpiresAt, now).1.RefreshReuse?
    requires a.tokens[oldId].family in a.tokens
    ensures Dead(Rotate(a, oldId, hash, id, newHash, newExpiresAt, now).0, a.tokens[oldId].family)
  {
  }

  lemma DeadStays(a: Auth, family: Uuid, op: Op, now: Time)
    requires Dead(a, family)
    ensures Dead(Do(a, op, now).0, family)
  {
  }

  lemma {:induction false} DeadInRun(ops: seq<Timed>, i: nat, j: nat, family: Uuid)
    requires i <= j <= |ops| && Dead(After(ops[..i]), family)
    ensures Dead(After(ops[..j]), family)
  {
    hide Do, Dead;
    if i < j {
      DeadInRun(ops, i, j - 1, family);
      AfterNext(ops, j - 1);
      DeadStays(After(ops[..j - 1]), family, ops[j - 1].op, ops[j - 1].at);
    }
  }

  lemma FamilyNamesToken(ops: seq<Timed>, id: Uuid)
    requires id in After(ops).tokens
    ensures After(ops).tokens[id].family in After(ops).tokens
  {
    var chain := FamilyIsChain(ops, id);
  }

  /** After a reuse is detected, no token of that family ever rotates again. */
  lemma ReuseEndsFamily(ops: seq<Timed>, i: nat, j: nat)
    requires i < j < |ops| && ops[i].op.OpRotate? && AnswerTo(ops, i).RefreshReuse?
    requires ops[j].op.OpRotate? && ops[j].op.oldId in After(ops[..j]).tokens
    requires After(ops[..j]).tokens[ops[j].op.oldId].family == After(ops[..i]).tokens[ops[i].op.oldId].family
    ensures !AnswerTo(ops, j).Granted?
  {
    var a, op := After(ops[..i]), ops[i].op;
    FamilyNamesToken(ops[..i], op.oldId);
    ReuseKills(a, op.oldId, op.hash, op.id, op.newHash, op.newExpiresAt, ops[i].at);
    AfterNext(ops, i);
    DeadInRun(ops, i + 1, j, a.tokens[op.oldId].family);
    hide After;
  }

  // ---------------------------------------------------------------- revocation

  /** The call at `j` presents a token of the session. */
  predicate RotatesIn(ops: seq<Timed>, j: nat, session: Uuid)
    requires j < |ops|
  {
    ops[j].op.OpRotate? && ops[j].op.oldId in After(ops[..j]).tokens &&
    After(ops[..j]).tokens[ops[j].op.oldId].session == session
  }

  /** Once revoked, a session never validates again and none of its tokens rotates, whatever happens in between. */
  lemma RevokedForever(ops: seq<Timed>, i: nat, j: nat, session: Uuid, claim: Claim, now: Time)
    requires i <= j <= |ops| && session in After(ops[..i]).sessions
    requires After(ops[..i]).sessions[session].revokedAt.Some? && claim.session == session
    ensures !Validates(After(ops[..j]), claim, now)
    ensures j < |ops| && RotatesIn(ops, j, session) ==> !AnswerTo(ops, j).Granted?
  {
    RunLater(ops, i, j);
    hide After;
  }

  /** The four ways a session ends early: logout, its passkey or its installation revoked, a refresh token reused. */
  predicate Revokes(a: Auth, op: Op, now: Time, session: Uuid)
    requires session in a.sessions
  {
    var s, answer := a.sessions[session], Do(a, op, now).1;
    match op
    case OpRevokeSession(_, id) => answer.Done? && id == session
    case OpRevokeCredential(_, credential) => answer.Done? && s.credential == Some(credential)
    case OpRevokeInstallation(account, install) => answer.Done? && s.account == account && s.install == install
    case OpRotate(oldId, _, _, _, _) =>
      answer.RefreshReuse? && oldId in a.tokens && a.tokens[oldId].session == session
    case _ => false
  }

  lemma RevocationsRevoke(a: Auth, op: Op, now: Time, session: Uuid)
    requires SessionsOk(a) && session in a.sessions
    requires Revokes(a, op, now, session)
    ensures session in Do(a, op, now).0.sessions && Do(a, op, now).0.sessions[session].revokedAt.Some?
  {
  }

  /** Revocation by logout, passkey, installation or token reuse is permanent. */
  lemma RevocationIsPermanent(ops: seq<Timed>, i: nat, j: nat, session: Uuid, claim: Claim, now: Time)
    requires i < j <= |ops| && session in After(ops[..i]).sessions && claim.session == session
    requires Revokes(After(ops[..i]), ops[i].op, ops[i].at, session)
    ensures !Validates(After(ops[..j]), claim, now)
    ensures j < |ops| && RotatesIn(ops, j, session) ==> !AnswerTo(ops, j).Granted?
  {
    var chains := ReachableAuth(ops[..i]);
    RevocationsRevoke(After(ops[..i]), ops[i].op, ops[i].at, session);
    AfterNext(ops, i);
    RevokedForever(ops, i + 1, j, session, claim, now);
  }

  /** After a passkey is revoked, no session made with it, before or after, is ever good. */
  lemma RevokedPasskeyIsDead(ops: seq<Timed>, i: nat, j: nat, claim: Claim, now: Time)
    requires i < j <= |ops| && ops[i].op.OpRevokeCredential? && AnswerTo(ops, i).Done?
    requires claim.session in After(ops[..j]).sessions
    requires After(ops[..j]).sessions[claim.session].credential == Some(ops[i].op.credential)
    ensures !Validates(After(ops[..j]), claim, now)
  {
    AfterNext(ops, i);
    RunLater(ops, i + 1, j);
    var chains := ReachableAuth(ops[..j]);
    hide After;
  }

  /** Revoking one account's installation is invisible to another account with the same installation identifier. */
  lemma OtherAccountsUntouched(a: Auth, account: Uuid, install: Uuid, now: Time, claim: Claim, later: Time)
    requires claim.account != account
    ensures Validates(RevokeInstallation(a, account, install, now).0, claim, later) <==> Validates(a, claim, later)
  {
  }

  lemma OtherAccountsRotate(a: Auth, account: Uuid, install: Uuid, now: Time, oldId: Uuid, hash: int, id: Uuid,
                            newHash: int, newExpiresAt: Time, later: Time)
    requires Joined(a, oldId) && a.sessions[a.tokens[oldId].session].account != account
    ensures Rotate(RevokeInstallation(a, account, install, now).0, oldId, hash, id, newHash, newExpiresAt, later).1 ==
            Rotate(a, oldId, hash, id, newHash, newExpiresAt, later).1
  {
  }
}
