/**
 What each call of the store does, said of the tables before and after it and of nothing else: when it is
 accepted, what it answers, and every column it leaves. The theorem is that in every reachable state the
 transactions do exactly this.
 */
module Effects {
  import opened Domain
  import opened Timeline
  import opened Tables
  import opened StoreInvariant
  import opened StoreRuns

  // ---------------------------------------------------------------- the words

  /** Lengths of time in microseconds: 25 minutes, 30 seconds, 2 minutes, a day, a week. */
  const FOCUS_LENGTH: Time := 1_500_000_000
  const CHEER_PAUSE: Time := 30_000_000
  const CLOCK_LEEWAY: Time := 120_000_000
  const WHOLE_DAY: Time := 86_400_000_000
  const WHOLE_WEEK: Time := 604_800_000_000

  /** The caller is still a member of the pair that its token names. */
  predicate Belongs(db: Core, who: Identity) {
    who.pair.Some? && who.account in db.pairOf && db.pairOf[who.account] == who.pair.value
  }

  predicate SessionOf(db: Core, pair: Uuid, id: Uuid) {
    id in db.sessions && db.sessions[id].pair == pair
  }

  predicate UnderWay(db: Core, pair: Uuid, id: Uuid) {
    SessionOf(db, pair, id) &&
    (db.sessions[id].state.Open? || db.sessions[id].state.Together? || db.sessions[id].state.Paused?)
  }

  /** The tables hold the same of a session. */
  ghost predicate SessionSame(db: Core, db': Core, id: Uuid) {
    (id in db'.sessions <==> id in db.sessions) && (id in db.sessions ==> db'.sessions[id] == db.sessions[id]) &&
    (id in db'.members <==> id in db.members) && (id in db.members ==> db'.members[id] == db.members[id]) &&
    (id in db'.notes <==> id in db.notes) && (id in db.notes ==> db'.notes[id] == db.notes[id])
  }

  ghost predicate OtherSessionsSame(db: Core, db': Core, id: Uuid) {
    forall other :: other != id ==> SessionSame(db, db', other)
  }

  /** The three tables hold this session. */
  predicate Holds(db: Core, fs: FocusSession) {
    fs.id in db.sessions && fs.id in db.members && fs.id in db.notes &&
    db.sessions[fs.id] == fs.row && db.members[fs.id] == fs.members && db.notes[fs.id] == fs.notes
  }

  predicate Logs(db: Core, db': Core, e: Event) {
    db'.log == db.log + [e]
  }

  /** The key of the call is stored for a week with the answer. */
  predicate StoresKey(db: Core, db': Core, account: Uuid, key: Uuid, op: Operation, response: Response, now: Time) {
    db'.keys == db.keys[(account, key) := KeyRow(op, response, now + WHOLE_WEEK)]
  }

  predicate PairsSame(db: Core, db': Core) {
    db'.pairOf == db.pairOf && db'.invites == db.invites
  }

  // ---------------------------------------------------------------- the sweep

  predicate RanOut(row: Row, now: Time) {
    (row.state.Open? || row.state.Together?) && row.endsAt <= now
  }

  predicate LeftPaused(row: Row, now: Time) {
    row.state.Paused? && row.pausedAt.Some? && row.pausedAt.value + WHOLE_DAY <= now
  }

  predicate Overdue(db: Core, pair: Uuid, id: Uuid, now: Time) {
    SessionOf(db, pair, id) && (RanOut(db.sessions[id], now) || LeftPaused(db.sessions[id], now))
  }

  /** It ended at the time it was to end, whenever that is noticed. */
  predicate EndedOnTime(a: Row, b: Row) {
    b.state.Completed? && b.completedAt == Some(a.endsAt) && b.version == a.version + 1 &&
    b.pair == a.pair && b.startedBy == a.startedBy && b.startedAt == a.startedAt && b.endsAt == a.endsAt &&
    b.pauseOrigin == a.pauseOrigin && b.pausedAt == a.pausedAt && b.cancelledAt == a.cancelledAt &&
    b.offlineOrigin == a.offlineOrigin
  }

  predicate GivenUp(a: Row, b: Row) {
    b.state.Expired? && b.pausedAt.None? && b.pauseOrigin.None? && b.version == a.version + 1 &&
    b.pair == a.pair && b.startedBy == a.startedBy && b.startedAt == a.startedAt && b.endsAt == a.endsAt &&
    b.completedAt == a.completedAt && b.cancelledAt == a.cancelledAt && b.offlineOrigin == a.offlineOrigin
  }

  /** What a sweep of a pair makes of one session. */
  ghost predicate SweptTo(db: Core, db': Core, pair: Uuid, now: Time, id: Uuid) {
    if Overdue(db, pair, id, now) then
      id in db'.sessions && id in db.members && id in db.notes &&
      id in db'.members && db'.members[id] == db.members[id] && id in db'.notes && db'.notes[id] == db.notes[id] &&
      if RanOut(db.sessions[id], now) then EndedOnTime(db.sessions[id], db'.sessions[id])
      else GivenUp(db.sessions[id], db'.sessions[id])
    else SessionSame(db, db', id)
  }

  /** The sweep of one overdue session is one event, without an actor, that carries the row it leaves. */
  predicate SweepLogged(db: Core, db': Core, pair: Uuid, now: Time, fs: FocusSession) {
    Overdue(db, pair, fs.id, now) && Holds(db', fs) &&
    Logs(db, db', Event(pair, if RanOut(db.sessions[fs.id], now) then SessionCompleted else SessionExpired,
                        fs.id, None, SessionData(fs), now))
  }

  ghost predicate Sweeps(db: Core, db': Core, pair: Uuid, now: Time) {
    (forall id :: SweptTo(db, db', pair, now, id)) &&
    PairsSame(db, db') && db'.keys == db.keys && db'.reactions == db.reactions &&
    if exists id :: Overdue(db, pair, id, now) then exists fs :: SweepLogged(db, db', pair, now, fs)
    else db'.log == db.log
  }

  // ---------------------------------------------------------------- start and import

  /** No session of the pair is under way, apart from overdue ones. */
  ghost predicate Free(db: Core, pair: Uuid, now: Time) {
    forall id :: UnderWay(db, pair, id) ==> Overdue(db, pair, id, now)
  }

  predicate NewlyStarted(fs: FocusSession, pair: Uuid, account: Uuid, sid: Uuid, now: Time) {
    var r := fs.row;
    fs.id == sid && fs.members == [Participant(account, now)] && fs.notes == [] &&
    r.pair == pair && r.startedBy == account && r.state.Open? && r.startedAt == now &&
    r.endsAt == now + FOCUS_LENGTH && r.version == 1 && !r.offlineOrigin &&
    r.pauseOrigin.None? && r.pausedAt.None? && r.completedAt.None? && r.cancelledAt.None?
  }

  predicate NewlyImported(fs: FocusSession, pair: Uuid, account: Uuid, sid: Uuid, startedAt: Time, completedAt: Time) {
    var r := fs.row;
    fs.id == sid && fs.members == [Participant(account, startedAt)] && fs.notes == [] &&
    r.pair == pair && r.startedBy == account && r.state.Completed? && r.startedAt == startedAt &&
    r.endsAt == completedAt && r.completedAt == Some(completedAt) && r.version == 1 && r.offlineOrigin &&
    r.pauseOrigin.None? && r.pausedAt.None? && r.cancelledAt.None?
  }

  /** A session is written, logged and answered; no other session changes. */
  ghost predicate Writes(db: Core, db': Core, who: Identity, key: Uuid, op: Operation, etype: EventType,
                         fs: FocusSession, now: Time, answer: Outcome) {
    who.pair.Some? && Holds(db', fs) && OtherSessionsSame(db, db', fs.id) &&
    Logs(db, db', Event(who.pair.value, etype, fs.id, Some(who.account), SessionData(fs), now)) &&
    StoresKey(db, db', who.account, key, op, SessionResponse(fs), now) && answer == Ok(SessionResponse(fs), false) &&
    PairsSame(db, db') && db'.reactions == db.reactions
  }

  ghost predicate Starts(db: Core, db': Core, who: Identity, key: Uuid, sid: Uuid, now: Time, answer: Outcome) {
    exists swept: Core, fs: FocusSession ::
      who.pair.Some? && Sweeps(db, swept, who.pair.value, now) &&
      NewlyStarted(fs, who.pair.value, who.account, sid, now) &&
      Writes(swept, db', who, key, OpStart, SessionStarted, fs, now, answer)
  }

  ghost predicate StartDoes(db: Core, who: Identity, key: Uuid, sid: Uuid, now: Time, db': Core, answer: Outcome) {
    if !Belongs(db, who) then db' == db && answer == Failed(NotFound)
    else if !Free(db, who.pair.value, now) then db' == db && answer == Failed(ActiveSession)
    else if sid in db.sessions then db' == db && answer == Failed(Unique)
    else Starts(db, db', who, key, sid, now, answer)
  }

  predicate InBounds(startedAt: Time, completedAt: Time, now: Time) {
    startedAt <= completedAt <= startedAt + WHOLE_DAY && completedAt <= now + CLOCK_LEEWAY
  }

  ghost predicate Imports(db: Core, db': Core, who: Identity, key: Uuid, sid: Uuid, startedAt: Time, completedAt: Time,
                          now: Time, answer: Outcome) {
    exists fs: FocusSession ::
      who.pair.Some? && NewlyImported(fs, who.pair.value, who.account, sid, startedAt, completedAt) &&
      Writes(db, db', who, key, OpImport, SessionCompleted, fs, now, answer)
  }

  ghost predicate ImportDoes(db: Core, who: Identity, key: Uuid, sid: Uuid, startedAt: Time, completedAt: Time,
                             now: Time, db': Core, answer: Outcome) {
    if who.pair.None? then db' == db && answer == Failed(NotFound)
    else if !InBounds(startedAt, completedAt, now) then db' == db && answer == Failed(Conflict)
    else if !Belongs(db, who) then db' == db && answer == Failed(NotFound)
    else if sid in db.sessions then db' == db && answer == Failed(Unique)
    else Imports(db, db', who, key, sid, startedAt, completedAt, now, answer)
  }

  // ---------------------------------------------------------------- transitions

  /** The states in which each action is possible, and who may join until when. */
  predicate Permits(row: Row, action: Action, account: Uuid, now: Time) {
    match action
    case Join => row.state.Open? && row.startedBy != account && now <= row.endsAt
    case Pause => row.state.Open? || row.state.Together?
    case Resume => row.state.Paused?
    case Complete => row.state.Open? || row.state.Together? || row.state.Paused?
    case Cancel => row.state.Open? || row.state.Together? || row.state.Paused?
    case Expire => row.state.Open? || row.state.Together? || row.state.Paused?
  }

  /** The state an action leads to: a resumed session is what it was before the pause. */
  predicate LeadsTo(a: Row, action: Action, state: State) {
    match action
    case Join => state == Together
    case Pause => state == Paused
    case Resume => a.pauseOrigin == Some(state)
    case Complete => state == Completed
    case Cancel => state == Cancelled
    case Expire => state == Expired
  }

  /** The row after an action, column by column. */
  predicate Moved(a: Row, b: Row, action: Action, now: Time) {
    LeadsTo(a, action, b.state) && b.version == a.version + 1 &&
    b.pair == a.pair && b.startedBy == a.startedBy && b.startedAt == a.startedAt &&
    b.offlineOrigin == a.offlineOrigin &&
    b.pauseOrigin == (if action.Pause? then Some(a.state) else None) &&
    b.pausedAt == (if action.Pause? then Some(now) else None) &&
    b.completedAt == (if action.Complete? then Some(now) else None) &&
    b.cancelledAt == (if action.Cancel? then Some(now) else None) &&
    (action.Resume? ==> a.pausedAt.Some? && b.endsAt == a.endsAt + (now - a.pausedAt.value)) &&
    (!action.Resume? ==> b.endsAt == a.endsAt)
  }

  /** The session after an action: the row moves, a join adds the caller, and nothing else of it changes. */
  ghost predicate MovedIn(db: Core, fs: FocusSession, action: Action, account: Uuid, now: Time) {
    fs.id in db.sessions && fs.id in db.members && fs.id in db.notes &&
    Moved(db.sessions[fs.id], fs.row, action, now) &&
    fs.members == db.members[fs.id] + (if action.Join? then [Participant(account, now)] else []) &&
    fs.notes == db.notes[fs.id]
  }

  ghost predicate Moves(db: Core, db': Core, who: Identity, key: Uuid, sid: Uuid, action: Action, now: Time,
                        answer: Outcome) {
    exists fs: FocusSession ::
      fs.id == sid && MovedIn(db, fs, action, who.account, now) &&
      Writes(db, db', who, key, OpAct(action), SessionDone(action), fs, now, answer)
  }

  ghost predicate TransitionDoes(db: Core, who: Identity, key: Uuid, sid: Uuid, expected: int, action: Action,
                                 now: Time, db': Core, answer: Outcome) {
    if !(Belongs(db, who) && SessionOf(db, who.pair.value, sid)) then db' == db && answer == Failed(NotFound)
    else if db.sessions[sid].version != expected then db' == db && answer == Failed(Version)
    else if !Permits(db.sessions[sid], action, who.account, now) then db' == db && answer == Failed(Conflict)
    else Moves(db, db', who, key, sid, action, now, answer)
  }

  // ---------------------------------------------------------------- notes and cheers

  ghost predicate Notes(db: Core, db': Core, who: Identity, key: Uuid, sid: Uuid, noteId: Uuid, body: string, now: Time,
                        answer: Outcome) {
    var note := Note(noteId, who.account, body, now);
    who.pair.Some? && sid in db.notes && db'.notes == db.notes[sid := db.notes[sid] + [note]] &&
    db'.sessions == db.sessions && db'.members == db.members &&
    Logs(db, db', Event(who.pair.value, NoteAdded, sid, Some(who.account), NoteData(note), now)) &&
    StoresKey(db, db', who.account, key, OpNote, NoteResponse(note), now) && answer == Ok(NoteResponse(note), false) &&
    PairsSame(db, db') && db'.reactions == db.reactions
  }

  ghost predicate NoteDoes(db: Core, who: Identity, key: Uuid, sid: Uuid, noteId: Uuid, body: string, now: Time,
                           db': Core, answer: Outcome) {
    if !(Belongs(db, who) && SessionOf(db, who.pair.value, sid)) || db.sessions[sid].state.Cancelled?
    then db' == db && answer == Failed(NotFound)
    else if |body| < 1 || |body| > 120 || '\0' in body then db' == db && answer == Failed(Internal)
    else Notes(db, db', who, key, sid, noteId, body, now, answer)
  }

  ghost predicate CheeredSince(db: Core, sid: Uuid, account: Uuid, since: Time) {
    exists r :: r in db.reactions && r.session == sid && r.account == account && r.createdAt > since
  }

  ghost predicate Cheers(db: Core, db': Core, who: Identity, key: Uuid, sid: Uuid, cheerId: Uuid, now: Time,
                         answer: Outcome) {
    who.pair.Some? && db'.reactions == db.reactions + [Reaction(cheerId, sid, who.account, now)] &&
    db'.sessions == db.sessions && db'.members == db.members && db'.notes == db.notes &&
    Logs(db, db', Event(who.pair.value, Cheered, sid, Some(who.account), CheerData(cheerId, now), now)) &&
    StoresKey(db, db', who.account, key, OpCheer, CheerResponse(cheerId, now), now) &&
    answer == Ok(CheerResponse(cheerId, now), false) && PairsSame(db, db')
  }

  /** A cheer looks at the pair in the caller's token only. */
  ghost predicate CheerDoes(db: Core, who: Identity, key: Uuid, sid: Uuid, cheerId: Uuid, now: Time, db': Core,
                            answer: Outcome) {
    if who.pair.None? || !SessionOf(db, who.pair.value, sid) then db' == db && answer == Failed(NotFound)
    else if !db.sessions[sid].state.Together? && !db.sessions[sid].state.Paused?
    then db' == db && answer == Failed(Conflict)
    else if CheeredSince(db, sid, who.account, now - CHEER_PAUSE) then db' == db && answer == Failed(Cooldown)
    else Cheers(db, db', who, key, sid, cheerId, now, answer)
  }

  // ---------------------------------------------------------------- the current session

  ghost predicate CurrentDoes(db: Core, who: Identity, now: Time, db': Core, answer: Outcome) {
    answer.Current? &&
    if who.pair.None? then db' == db && answer.session.None?
    else
      Sweeps(db, db', who.pair.value, now) &&
      if answer.session.Some?
      then UnderWay(db', who.pair.value, answer.session.value.id) && Holds(db', answer.session.value)
      else forall id :: !UnderWay(db', who.pair.value, id)
  }

  // ---------------------------------------------------------------- pairing

  ghost predicate TablesSame(db: Core, db': Core) {
    db'.sessions == db.sessions && db'.members == db.members && db'.notes == db.notes &&
    db'.reactions == db.reactions && db'.keys == db.keys
  }

  /** Neither accepted nor revoked. */
  predicate IsOpen(invite: Invite) {
    invite.acceptedAt.None? && invite.revokedAt.None?
  }

  ghost predicate CreateInviteDoes(db: Core, account: Uuid, inviteId: Uuid, tokenHash: int, expiresAt: Time, now: Time,
                                   db': Core, answer: Outcome) {
    if account in db.pairOf then db' == db && answer == Failed(AlreadyPaired)
    else if inviteId in db.invites || exists id :: id in db.invites && db.invites[id].tokenHash == tokenHash
    then db' == db && answer == Failed(Unique)
    else
      answer == Done && TablesSame(db, db') && db'.pairOf == db.pairOf && db'.log == db.log &&
      db'.invites.Keys == db.invites.Keys + {inviteId} &&
      db'.invites[inviteId] == Invite(account, tokenHash, expiresAt, None, None, None) &&
      forall id :: id in db.invites ==>
        if db.invites[id].createdBy == account && IsOpen(db.invites[id])
        then db'.invites[id].revokedAt == Some(now) && db'.invites[id].(revokedAt := None) == db.invites[id]
        else db'.invites[id] == db.invites[id]
  }

  predicate Usable(db: Core, id: Uuid, tokenHash: int, now: Time) {
    id in db.invites && db.invites[id].tokenHash == tokenHash && now < db.invites[id].expiresAt &&
    IsOpen(db.invites[id])
  }

  /** The two accounts are a pair from now on, and the invite is spent. */
  ghost predicate PairsUp(db: Core, db': Core, id: Uuid, account: Uuid, pair: Uuid, now: Time) {
    id in db.invites && TablesSame(db, db') &&
    var creator := db.invites[id].createdBy;
    (forall x :: x in db'.pairOf <==> x in db.pairOf || x == creator || x == account) &&
    (forall x :: x in db.pairOf ==> db'.pairOf[x] == db.pairOf[x]) &&
    db'.pairOf[creator] == pair && db'.pairOf[account] == pair &&
    db'.invites.Keys == db.invites.Keys &&
    (forall x :: x in db.invites && x != id ==> db'.invites[x] == db.invites[x]) &&
    db'.invites[id].acceptedBy == Some(account) && db'.invites[id].acceptedAt == Some(now) &&
    db'.invites[id].createdBy == creator && db'.invites[id].tokenHash == db.invites[id].tokenHash &&
    db'.invites[id].expiresAt == db.invites[id].expiresAt && db'.invites[id].revokedAt.None? &&
    Logs(db, db', Event(pair, PairCreated, pair, Some(account), PairData(creator, account), now))
  }

  ghost predicate AcceptInviteDoes(db: Core, account: Uuid, tokenHash: int, pair: Uuid, creatorActive: bool, now: Time,
                                   db': Core, answer: Outcome) {
    if forall id :: !Usable(db, id, tokenHash, now) then db' == db && answer == Failed(NotFound)
    else
      forall id :: Usable(db, id, tokenHash, now) ==>
        if db.invites[id].createdBy == account then db' == db && answer == Failed(Conflict)
        else if db.invites[id].createdBy in db.pairOf || account in db.pairOf
        then db' == db && answer == Failed(AlreadyPaired)
        else if !creatorActive then db' == db && answer == Failed(NotFound)
        else if exists x :: x in db.pairOf && db.pairOf[x] == pair then db' == db && answer == Failed(Unique)
        else answer == Done && PairsUp(db, db', id, account, pair, now)
  }

  // ---------------------------------------------------------------- any call

  /** What a call does, from the tables before and after it. */
  ghost predicate Does(db: Core, call: Call, now: Time, db': Core, answer: Outcome) {
    match call
    case CStart(who, key, sid) => StartDoes(db, who, key, sid, now, db', answer)
    case CImport(who, key, sid, startedAt, completedAt) =>
      ImportDoes(db, who, key, sid, startedAt, completedAt, now, db', answer)
    case CTransition(who, key, sid, expected, action) =>
      TransitionDoes(db, who, key, sid, expected, action, now, db', answer)
    case CNote(who, key, sid, freshId, body) => NoteDoes(db, who, key, sid, freshId, body, now, db', answer)
    case CCheer(who, key, sid, freshId) => CheerDoes(db, who, key, sid, freshId, now, db', answer)
    case CCurrent(who) => CurrentDoes(db, who, now, db', answer)
    case CCreateInvite(account, inviteId, tokenHash, expiresAt) =>
      CreateInviteDoes(db, account, inviteId, tokenHash, expiresAt, now, db', answer)
    case CAcceptInvite(account, tokenHash, pair, creatorActive) =>
      AcceptInviteDoes(db, account, tokenHash, pair, creatorActive, now, db', answer)
  }

  /** The call carries no key, or one that was never used. */
  ghost predicate NewKey(db: Core, call: Call) {
    call.Keyed() ==> call.KeyOf() !in db.keys
  }

  // ---------------------------------------------------------------- why the transactions do it

  /** Whatever the sweep finds overdue, it ends at its own time; it touches nothing else. */
  lemma SweepEffect(db: Core, pair: Uuid, now: Time, id: Uuid)
    requires OneActive(db) && TablesAgree(db)
    ensures SweptTo(db, Sweep(db, pair, now), pair, now, id)
  {
    if due :| IsDue(db.sessions, pair, due, now) {
      SweepIs(db, pair, now, due);
      if Overdue(db, pair, id, now) {
        OneDue(db, pair, id, due, now, now);
      }
    } else {
      assert !Overdue(db, pair, id, now) by { OverdueIsDue(db, pair, id, now); }
    }
  }

  lemma OverdueIsDue(db: Core, pair: Uuid, id: Uuid, now: Time)
    ensures Overdue(db, pair, id, now) <==> IsDue(db.sessions, pair, id, now)
  {
  }

  lemma SweepDoes(db: Core, pair: Uuid, now: Time)
    requires OneActive(db) && TablesAgree(db)
    ensures Sweeps(db, Sweep(db, pair, now), pair, now)
  {
    var db' := Sweep(db, pair, now);
    forall id
      ensures SweptTo(db, db', pair, now, id) && (Overdue(db, pair, id, now) <==> IsDue(db.sessions, pair, id, now))
    {
      SweepEffect(db, pair, now, id);
      OverdueIsDue(db, pair, id, now);
    }
    hide SweptTo, Overdue;
    if due :| IsDue(db.sessions, pair, due, now) {
      SweepIs(db, pair, now, due);
      assert SweepLogged(db, db', pair, now, Read(db', due));
    }
  }

  lemma FreeIsNoneActive(db: Core, pair: Uuid, now: Time)
    requires OneActive(db) && TablesAgree(db)
    ensures Free(db, pair, now) <==> !HasActive(Sweep(db, pair, now).sessions, pair)
  {
    var swept := Sweep(db, pair, now);
    hide Sweep, OneActive;
    if id :| IsActiveOf(swept.sessions, pair, id) {
      SweepEffect(db, pair, now, id);
      assert SessionOf(db, pair, id) && !Overdue(db, pair, id, now);
    }
    if id :| UnderWay(db, pair, id) && !Overdue(db, pair, id, now) {
      SweepEffect(db, pair, now, id);
      assert IsActiveOf(swept.sessions, pair, id);
    }
  }

  lemma SweepKeepsTables(db: Core, pair: Uuid, now: Time)
    requires TablesAgree(db)
    ensures TablesAgree(Sweep(db, pair, now))
  {
  }

  lemma StoredShape(db: Core, t: Time, id: Uuid)
    requires Inv(db, t) && id in db.sessions
    ensures WellFormed(Read(db, id)) && id in db.members && id in db.notes
  {
    LastStamp(db, t, id);
    ChainShape(History(db.log, id));
  }

  lemma StartCommits(db: Core, who: Identity, key: Uuid, sid: Uuid, now: Time)
    requires Belongs(db, who) && (who.account, key) !in db.keys && sid !in db.sessions
    requires var swept := Sweep(db, who.pair.value, now);
             !HasActive(swept.sessions, who.pair.value) && swept.sessions.Keys == db.sessions.Keys &&
             TablesAgree(swept) && swept.keys == db.keys
    ensures var (db', answer) := Start(db, who, key, sid, now); var swept := Sweep(db, who.pair.value, now);
            sid in db'.sessions && NewlyStarted(Read(db', sid), who.pair.value, who.account, sid, now) &&
            Writes(swept, db', who, key, OpStart, SessionStarted, Read(db', sid), now, answer)
  {
    hide Sweep, HasActive;
  }

  lemma StartIs(db: Core, who: Identity, key: Uuid, sid: Uuid, now: Time)
    requires OneActive(db) && TablesAgree(db) && (who.account, key) !in db.keys
    ensures StartDoes(db, who, key, sid, now, Start(db, who, key, sid, now).0, Start(db, who, key, sid, now).1)
  {
    hide OneActive, Free, Sweeps;
    if Belongs(db, who) {
      var pair := who.pair.value;
      FreeIsNoneActive(db, pair, now);
      SweepDoes(db, pair, now);
      SweepFrame(db, pair, now);
      assert TablesAgree(Sweep(db, pair, now)) by { SweepKeepsTables(db, pair, now); }
      hide Sweep, TablesAgree, HasActive;
      if Free(db, pair, now) && sid !in db.sessions {
        StartCommits(db, who, key, sid, now);
        hide Start, Writes, NewlyStarted;
      }
    }
  }

  lemma ImportIs(db: Core, who: Identity, key: Uuid, sid: Uuid, startedAt: Time, completedAt: Time, now: Time)
    requires TablesAgree(db) && (who.account, key) !in db.keys
    ensures var (db', answer) := Import(db, who, key, sid, startedAt, completedAt, now);
            ImportDoes(db, who, key, sid, startedAt, completedAt, now, db', answer)
  {
    if Belongs(db, who) && InBounds(startedAt, completedAt, now) && sid !in db.sessions {
      var (db', answer) := Import(db, who, key, sid, startedAt, completedAt, now);
      var fs := Read(db', sid);
      assert NewlyImported(fs, who.pair.value, who.account, sid, startedAt, completedAt);
      assert Writes(db, db', who, key, OpImport, SessionCompleted, fs, now, answer);
    }
  }

  /** On a row of the right shape the transition function accepts what is permitted, and moves the row so. */
  lemma ActMoves(fs: FocusSession, action: Action, account: Uuid, now: Time)
    requires WellFormed(fs)
    ensures Act(fs.row, action, account, now).Some? <==> Permits(fs.row, action, account, now)
    ensures Permits(fs.row, action, account, now) ==>
              Moved(fs.row, Act(fs.row, action, account, now).value, action, now)
    ensures Permits(fs.row, action, account, now) && action.Join? ==> !HasMember(fs.members, account)
  {
  }

  lemma TransitionCommits(db: Core, who: Identity, key: Uuid, sid: Uuid, expected: int, action: Action, now: Time)
    requires Belongs(db, who) && SessionOf(db, who.pair.value, sid) && (who.account, key) !in db.keys
    requires TablesAgree(db) && db.sessions[sid].version == expected
    requires var next := Act(db.sessions[sid], action, who.account, now);
             next.Some? && Moved(db.sessions[sid], next.value, action, now)
    requires action.Join? ==> !HasMember(Read(db, sid).members, who.account)
    ensures var (db', answer) := Transition(db, who, key, sid, expected, action, now);
            sid in db'.sessions && MovedIn(db, Read(db', sid), action, who.account, now) &&
            Writes(db, db', who, key, OpAct(action), SessionDone(action), Read(db', sid), now, answer)
  {
    assert Act(db.sessions[sid], action, who.account, now).value.pair == db.sessions[sid].pair;
    hide Act, Moved, HasMember;
  }

  lemma TransitionRefuses(db: Core, who: Identity, key: Uuid, sid: Uuid, expected: int, action: Action, now: Time)
    requires (who.account, key) !in db.keys
    ensures var (db', answer) := Transition(db, who, key, sid, expected, action, now);
            if !(Belongs(db, who) && SessionOf(db, who.pair.value, sid)) then db' == db && answer == Failed(NotFound)
            else if db.sessions[sid].version != expected then db' == db && answer == Failed(Version)
            else Act(db.sessions[sid], action, who.account, now).None? ==> db' == db && answer == Failed(Conflict)
  {
    hide Act, HasMember;
  }

  lemma TransitionIs(db: Core, who: Identity, key: Uuid, sid: Uuid, expected: int, action: Action, now: Time)
    requires TablesAgree(db) && (who.account, key) !in db.keys && (sid in db.sessions ==> WellFormed(Read(db, sid)))
    ensures var (db', answer) := Transition(db, who, key, sid, expected, action, now);
            TransitionDoes(db, who, key, sid, expected, action, now, db', answer)
  {
    hide WellFormed, Act, Permits, Moved, HasMember, TablesAgree, Transition, Writes, MovedIn;
    TransitionRefuses(db, who, key, sid, expected, action, now);
    if Belongs(db, who) && SessionOf(db, who.pair.value, sid) && db.sessions[sid].version == expected {
      ActMoves(Read(db, sid), action, who.account, now);
      if Permits(db.sessions[sid], action, who.account, now) {
        TransitionCommits(db, who, key, sid, expected, action, now);
      }
    }
  }

  lemma NoteIs(db: Core, who: Identity, key: Uuid, sid: Uuid, noteId: Uuid, body: string, now: Time)
    requires TablesAgree(db) && (who.account, key) !in db.keys
    ensures var (db', answer) := AddNote(db, who, key, sid, noteId, body, now);
            NoteDoes(db, who, key, sid, noteId, body, now, db', answer)
  {
  }

  lemma CheerIs(db: Core, who: Identity, key: Uuid, sid: Uuid, cheerId: Uuid, now: Time)
    requires (who.account, key) !in db.keys
    ensures var (db', answer) := AddCheer(db, who, key, sid, cheerId, now);
            CheerDoes(db, who, key, sid, cheerId, now, db', answer)
  {
    assert CheeredRecently(db.reactions, sid, who.account, now) <==>
           CheeredSince(db, sid, who.account, now - CHEER_PAUSE) by {
      if CheeredSince(db, sid, who.account, now - CHEER_PAUSE) {
        var r :| r in db.reactions && r.session == sid && r.account == who.account && r.createdAt > now - CHEER_PAUSE;
        var i :| 0 <= i < |db.reactions| && db.reactions[i] == r;
      }
    }
    hide CheeredRecently, CheeredSince;
  }

  lemma CurrentIs(db: Core, who: Identity, now: Time)
    requires OneActive(db) && TablesAgree(db)
    ensures CurrentDoes(db, who, now, CurrentSession(db, who, now).0, CurrentSession(db, who, now).1)
  {
    if who.pair.Some? {
      SweepDoes(db, who.pair.value, now);
      SweepKeepsTables(db, who.pair.value, now);
      hide OneActive, TablesAgree, Sweep, Sweeps;
      ActiveIsUnderWay(Sweep(db, who.pair.value, now), who.pair.value);
    }
  }

  lemma ActiveIsUnderWay(db: Core, pair: Uuid)
    requires TablesAgree(db)
    ensures var s := ActiveSessionOf(db, pair);
            if s.Some? then UnderWay(db, pair, s.value.id) && Holds(db, s.value)
            else forall id :: !UnderWay(db, pair, id)
  {
    forall id ensures UnderWay(db, pair, id) <==> IsActiveOf(db.sessions, pair, id) {}
    hide UnderWay, IsActiveOf;
  }

  lemma CreateInviteIs(db: Core, account: Uuid, inviteId: Uuid, tokenHash: int, expiresAt: Time, now: Time)
    ensures var (db', answer) := CreateInvite(db, account, inviteId, tokenHash, expiresAt, now);
            CreateInviteDoes(db, account, inviteId, tokenHash, expiresAt, now, db', answer)
  {
  }

  lemma AcceptInviteIs(db: Core, account: Uuid, tokenHash: int, pair: Uuid, creatorActive: bool, now: Time)
    requires TokensUnique(db)
    ensures var (db', answer) := AcceptInvite(db, account, tokenHash, pair, creatorActive, now);
            AcceptInviteDoes(db, account, tokenHash, pair, creatorActive, now, db', answer)
  {
    forall id ensures Usable(db, id, tokenHash, now) <==> id in db.invites && Live(db.invites[id], tokenHash, now) {}
    if id :| Usable(db, id, tokenHash, now) {
      assert forall other :: Usable(db, other, tokenHash, now) ==> other == id;
      assert (exists x :: x in db.pairOf && db.pairOf[x] == pair) <==> pair in db.pairOf.Values;
      hide TokensUnique, Usable, Live;
      AcceptIs(db, account, tokenHash, pair, creatorActive, now, id);
      hide AcceptInvite, PairsUp;
    }
  }

  lemma AcceptIs(db: Core, account: Uuid, tokenHash: int, pair: Uuid, creatorActive: bool, now: Time, id: Uuid)
    requires forall x :: x in db.invites && Live(db.invites[x], tokenHash, now) <==> x == id
    ensures var (db', answer) := AcceptInvite(db, account, tokenHash, pair, creatorActive, now);
            if db.invites[id].createdBy == account then db' == db && answer == Failed(Conflict)
            else if db.invites[id].createdBy in db.pairOf || account in db.pairOf
            then db' == db && answer == Failed(AlreadyPaired)
            else if !creatorActive then db' == db && answer == Failed(NotFound)
            else if pair in db.pairOf.Values then db' == db && answer == Failed(Unique)
            else answer == Done && PairsUp(db, db', id, account, pair, now)
  {
  }

  /** In every state that the invariant allows, a call that is not a retry does what is said of it above. */
  lemma ExecuteDoes(db: Core, t: Time, call: Call, now: Time)
    requires Inv(db, t) && t <= now && NewKey(db, call)
    ensures Does(db, call, now, Execute(db, call, now).0, Execute(db, call, now).1)
  {
    assert OneActive(db) && TablesAgree(db) && TokensUnique(db);
    if call.CTransition? && call.sid in db.sessions { StoredShape(db, t, call.sid); }
    hide Inv, OneActive, TablesAgree, TokensUnique, WellFormed,
         Start, Import, Transition, AddNote, AddCheer, CurrentSession, CreateInvite, AcceptInvite,
         StartDoes, ImportDoes, TransitionDoes, NoteDoes, CheerDoes, CurrentDoes, CreateInviteDoes, AcceptInviteDoes;
    match call
    case CStart(who, key, sid) => StartIs(db, who, key, sid, now);
    case CImport(who, key, sid, startedAt, completedAt) => ImportIs(db, who, key, sid, startedAt, completedAt, now);
    case CTransition(who, key, sid, expected, action) => TransitionIs(db, who, key, sid, expected, action, now);
    case CNote(who, key, sid, freshId, body) => NoteIs(db, who, key, sid, freshId, body, now);
    case CCheer(who, key, sid, freshId) => CheerIs(db, who, key, sid, freshId, now);
    case CCurrent(who) => CurrentIs(db, who, now);
    case CCreateInvite(account, inviteId, tokenHash, expiresAt) =>
      CreateInviteIs(db, account, inviteId, tokenHash, expiresAt, now);
    case CAcceptInvite(account, tokenHash, pair, creatorActive) =>
      AcceptInviteIs(db, account, tokenHash, pair, creatorActive, now);
  }

  // ---------------------------------------------------------------- and why nothing is left open

  lemma AllSame(a: Core, b: Core)
    requires forall id :: SessionSame(a, b, id)
    ensures a.sessions == b.sessions && a.members == b.members && a.notes == b.notes
  {
    forall id
      ensures id in a.sessions <==> id in b.sessions
      ensures id in a.members <==> id in b.members
      ensures id in a.notes <==> id in b.notes
      ensures id in a.sessions ==> a.sessions[id] == b.sessions[id]
      ensures id in a.members ==> a.members[id] == b.members[id]
      ensures id in a.notes ==> a.notes[id] == b.notes[id]
    {
      assert SessionSame(a, b, id);
    }
  }

  lemma SameSessions(db: Core, a: Core, b: Core, id: Uuid)
    requires OtherSessionsSame(db, a, id) && OtherSessionsSame(db, b, id) && SessionSame(a, b, id)
    ensures a.sessions == b.sessions && a.members == b.members && a.notes == b.notes
  {
    forall other ensures SessionSame(a, b, other) {
      if other != id {
        assert SessionSame(db, a, other) && SessionSame(db, b, other);
      }
    }
    AllSame(a, b);
  }

  lemma SweptSame(db: Core, a: Core, b: Core, pair: Uuid, now: Time, id: Uuid)
    requires SweptTo(db, a, pair, now, id) && SweptTo(db, b, pair, now, id)
    ensures SessionSame(a, b, id)
  {
  }

  lemma SweepIsExact(db: Core, a: Core, b: Core, pair: Uuid, now: Time)
    requires OneActive(db) && Sweeps(db, a, pair, now) && Sweeps(db, b, pair, now)
    ensures a == b
  {
    forall id ensures SessionSame(a, b, id) {
      SweptSame(db, a, b, pair, now, id);
    }
    AllSame(a, b);
    hide SweptTo, SessionSame;
    if exists id :: Overdue(db, pair, id, now) {
      var f: FocusSession :| SweepLogged(db, a, pair, now, f);
      var g: FocusSession :| SweepLogged(db, b, pair, now, g);
      OverdueIsDue(db, pair, f.id, now);
      OverdueIsDue(db, pair, g.id, now);
      OneDue(db, pair, f.id, g.id, now, now);
    }
  }

  lemma WriteIsExact(db: Core, a: Core, b: Core, who: Identity, key: Uuid, op: Operation, etype: EventType,
                     fs: FocusSession, now: Time, x: Outcome, y: Outcome)
    requires Writes(db, a, who, key, op, etype, fs, now, x) && Writes(db, b, who, key, op, etype, fs, now, y)
    ensures a == b && x == y
  {
    SameSessions(db, a, b, fs.id);
    hide SessionSame, OtherSessionsSame;
  }

  lemma StartIsExact(db: Core, a: Core, b: Core, who: Identity, key: Uuid, sid: Uuid, now: Time, x: Outcome, y: Outcome)
    requires OneActive(db) && Starts(db, a, who, key, sid, now, x) && Starts(db, b, who, key, sid, now, y)
    ensures a == b && x == y
  {
    hide OneActive, Sweeps, Writes;
    var s: Core, f: FocusSession :|
      Sweeps(db, s, who.pair.value, now) && NewlyStarted(f, who.pair.value, who.account, sid, now) &&
      Writes(s, a, who, key, OpStart, SessionStarted, f, now, x);
    var r: Core, g: FocusSession :|
      Sweeps(db, r, who.pair.value, now) && NewlyStarted(g, who.pair.value, who.account, sid, now) &&
      Writes(r, b, who, key, OpStart, SessionStarted, g, now, y);
    SweepIsExact(db, s, r, who.pair.value, now);
    assert f.row == g.row && f == g;
    WriteIsExact(s, a, b, who, key, OpStart, SessionStarted, f, now, x, y);
  }

  lemma ImportIsExact(db: Core, a: Core, b: Core, who: Identity, key: Uuid, sid: Uuid, startedAt: Time,
                      completedAt: Time, now: Time, x: Outcome, y: Outcome)
    requires Imports(db, a, who, key, sid, startedAt, completedAt, now, x)
    requires Imports(db, b, who, key, sid, startedAt, completedAt, now, y)
    ensures a == b && x == y
  {
    hide Writes;
    var f: FocusSession :|
      NewlyImported(f, who.pair.value, who.account, sid, startedAt, completedAt) &&
      Writes(db, a, who, key, OpImport, SessionCompleted, f, now, x);
    var g: FocusSession :|
      NewlyImported(g, who.pair.value, who.account, sid, startedAt, completedAt) &&
      Writes(db, b, who, key, OpImport, SessionCompleted, g, now, y);
    assert f.row == g.row && f == g;
    WriteIsExact(db, a, b, who, key, OpImport, SessionCompleted, f, now, x, y);
  }

  lemma MoveIsExact(db: Core, a: Core, b: Core, who: Identity, key: Uuid, sid: Uuid, action: Action, now: Time,
                    x: Outcome, y: Outcome)
    requires Moves(db, a, who, key, sid, action, now, x) && Moves(db, b, who, key, sid, action, now, y)
    ensures a == b && x == y
  {
    hide Writes;
    var f: FocusSession :|
      f.id == sid && MovedIn(db, f, action, who.account, now) &&
      Writes(db, a, who, key, OpAct(action), SessionDone(action), f, now, x);
    var g: FocusSession :|
      g.id == sid && MovedIn(db, g, action, who.account, now) &&
      Writes(db, b, who, key, OpAct(action), SessionDone(action), g, now, y);
    assert f.row == g.row && f == g;
    WriteIsExact(db, a, b, who, key, OpAct(action), SessionDone(action), f, now, x, y);
  }

  lemma CurrentIsExact(db: Core, a: Core, b: Core, who: Identity, now: Time, x: Outcome, y: Outcome)
    requires OneActive(db) && OneActive(a)
    requires CurrentDoes(db, who, now, a, x) && CurrentDoes(db, who, now, b, y)
    ensures a == b && x == y
  {
    hide Sweeps;
    if who.pair.Some? {
      var pair := who.pair.value;
      SweepIsExact(db, a, b, pair, now);
      if x.session.Some? && y.session.Some? {
        assert IsActiveOf(a.sessions, pair, x.session.value.id) && IsActiveOf(a.sessions, pair, y.session.value.id);
      }
    }
  }

  lemma CreateInviteIsExact(db: Core, account: Uuid, inviteId: Uuid, tokenHash: int, expiresAt: Time, now: Time,
                            a: Core, b: Core, x: Outcome, y: Outcome)
    requires CreateInviteDoes(db, account, inviteId, tokenHash, expiresAt, now, a, x)
    requires CreateInviteDoes(db, account, inviteId, tokenHash, expiresAt, now, b, y)
    ensures a == b && x == y
  {
    if x == Done {
      forall id | id in db.invites && id != inviteId ensures a.invites[id] == b.invites[id] {}
      assert a.invites == b.invites;
    }
  }

  lemma PairsUpIsExact(db: Core, a: Core, b: Core, id: Uuid, account: Uuid, pair: Uuid, now: Time)
    requires PairsUp(db, a, id, account, pair, now) && PairsUp(db, b, id, account, pair, now)
    ensures a == b
  {
    assert a.pairOf == b.pairOf;
    assert a.invites[id] == b.invites[id];
    assert a.invites == b.invites;
  }

  lemma AcceptInviteIsExact(db: Core, account: Uuid, tokenHash: int, pair: Uuid, creatorActive: bool, now: Time,
                            a: Core, b: Core, x: Outcome, y: Outcome)
    requires AcceptInviteDoes(db, account, tokenHash, pair, creatorActive, now, a, x)
    requires AcceptInviteDoes(db, account, tokenHash, pair, creatorActive, now, b, y)
    ensures a == b && x == y
  {
    hide PairsUp, Usable;
    if id :| Usable(db, id, tokenHash, now) {
      assert id in db.invites by { UsableIsThere(db, id, tokenHash, now); }
      if PairsUp(db, a, id, account, pair, now) && PairsUp(db, b, id, account, pair, now) {
        PairsUpIsExact(db, a, b, id, account, pair, now);
      }
    }
  }

  lemma UsableIsThere(db: Core, id: Uuid, tokenHash: int, now: Time)
    requires Usable(db, id, tokenHash, now)
    ensures id in db.invites
  {
  }

  lemma StartDoesOne(db: Core, who: Identity, key: Uuid, sid: Uuid, now: Time, a: Core, b: Core, x: Outcome, y: Outcome)
    requires OneActive(db) && StartDoes(db, who, key, sid, now, a, x) && StartDoes(db, who, key, sid, now, b, y)
    ensures a == b && x == y
  {
    hide OneActive, Starts, Free;
    if Starts(db, a, who, key, sid, now, x) && Starts(db, b, who, key, sid, now, y) {
      StartIsExact(db, a, b, who, key, sid, now, x, y);
    }
  }

  lemma ImportDoesOne(db: Core, who: Identity, key: Uuid, sid: Uuid, startedAt: Time, completedAt: Time, now: Time,
                      a: Core, b: Core, x: Outcome, y: Outcome)
    requires ImportDoes(db, who, key, sid, startedAt, completedAt, now, a, x)
    requires ImportDoes(db, who, key, sid, startedAt, completedAt, now, b, y)
    ensures a == b && x == y
  {
    hide Imports;
    if Imports(db, a, who, key, sid, startedAt, completedAt, now, x) &&
       Imports(db, b, who, key, sid, startedAt, completedAt, now, y) {
      ImportIsExact(db, a, b, who, key, sid, startedAt, completedAt, now, x, y);
    }
  }

  lemma TransitionDoesOne(db: Core, who: Identity, key: Uuid, sid: Uuid, expected: int, action: Action, now: Time,
                          a: Core, b: Core, x: Outcome, y: Outcome)
    requires TransitionDoes(db, who, key, sid, expected, action, now, a, x)
    requires TransitionDoes(db, who, key, sid, expected, action, now, b, y)
    ensures a == b && x == y
  {
    hide Moves, Permits;
    if Moves(db, a, who, key, sid, action, now, x) && Moves(db, b, who, key, sid, action, now, y) {
      MoveIsExact(db, a, b, who, key, sid, action, now, x, y);
    }
  }

  lemma NoteDoesOne(db: Core, who: Identity, key: Uuid, sid: Uuid, noteId: Uuid, body: string, now: Time,
                    a: Core, b: Core, x: Outcome, y: Outcome)
    requires NoteDoes(db, who, key, sid, noteId, body, now, a, x)
    requires NoteDoes(db, who, key, sid, noteId, body, now, b, y)
    ensures a == b && x == y
  {
  }

  lemma CheerDoesOne(db: Core, who: Identity, key: Uuid, sid: Uuid, cheerId: Uuid, now: Time,
                     a: Core, b: Core, x: Outcome, y: Outcome)
    requires CheerDoes(db, who, key, sid, cheerId, now, a, x) && CheerDoes(db, who, key, sid, cheerId, now, b, y)
    ensures a == b && x == y
  {
    hide CheeredSince;
  }

  lemma DoesIsExact(db: Core, t: Time, call: Call, now: Time, a: Core, b: Core, x: Outcome, y: Outcome)
    requires Inv(db, t) && OneActive(a) && Does(db, call, now, a, x) && Does(db, call, now, b, y)
    ensures a == b && x == y
  {
    assert OneActive(db);
    hide Inv, OneActive, StartDoes, ImportDoes, TransitionDoes, NoteDoes, CheerDoes, CurrentDoes, CreateInviteDoes,
         AcceptInviteDoes;
    match call
    case CStart(who, key, sid) => StartDoesOne(db, who, key, sid, now, a, b, x, y);
    case CImport(who, key, sid, startedAt, completedAt) =>
      ImportDoesOne(db, who, key, sid, startedAt, completedAt, now, a, b, x, y);
    case CTransition(who, key, sid, expected, action) =>
      TransitionDoesOne(db, who, key, sid, expected, action, now, a, b, x, y);
    case CNote(who, key, sid, freshId, body) => NoteDoesOne(db, who, key, sid, freshId, body, now, a, b, x, y);
    case CCheer(who, key, sid, freshId) => CheerDoesOne(db, who, key, sid, freshId, now, a, b, x, y);
    case CCurrent(who) => CurrentIsExact(db, a, b, who, now, x, y);
    case CCreateInvite(account, inviteId, tokenHash, expiresAt) =>
      CreateInviteIsExact(db, account, inviteId, tokenHash, expiresAt, now, a, b, x, y);
    case CAcceptInvite(account, tokenHash, pair, creatorActive) =>
      AcceptInviteIsExact(db, account, tokenHash, pair, creatorActive, now, a, b, x, y);
  }

  /**
   The description is complete: in every reachable state exactly one outcome fits it, namely that of the
   transaction. No column of any table, no event and no answer is left open.
   */
  lemma DoesMeans(db: Core, t: Time, call: Call, now: Time, db': Core, answer: Outcome)
    requires Inv(db, t) && t <= now && NewKey(db, call)
    ensures Does(db, call, now, db', answer) <==> (db', answer) == Execute(db, call, now)
  {
    hide Inv, Does, Execute, NewKey;
    ExecuteDoes(db, t, call, now);
    if Does(db, call, now, db', answer) {
      ExecuteKeepsInv(db, t, call, now);
      assert OneActive(Execute(db, call, now).0) by { InvOneActive(Execute(db, call, now).0, now); }
      DoesIsExact(db, t, call, now, Execute(db, call, now).0, db', Execute(db, call, now).1, answer);
    }
  }

  lemma InvOneActive(db: Core, t: Time)
    requires Inv(db, t)
    ensures OneActive(db)
  {
  }

  // ---------------------------------------------------------------- in every run

  /** What holds before the i-th call. */
  lemma BeforeCall(calls: seq<Timed>, i: nat) returns (t: Time)
    requires InOrder(calls) && i < |calls|
    ensures Inv(After(calls[..i]), t) && t <= calls[i].at
  {
    hide Inv, Execute;
    if i == 0 {
      assert calls[..0] == [];
      EmptyInv(calls[0].at);
      t := calls[0].at;
    } else {
      Reachable(calls[..i]);
      t := Clock(calls[..i]);
    }
  }

  /** The i-th call of any run, unless it repeats a key, does exactly what is said of it above. */
  lemma CallsDo(calls: seq<Timed>, i: nat, db': Core, answer: Outcome)
    requires InOrder(calls) && i < |calls| && NewKey(After(calls[..i]), calls[i].call)
    ensures Does(After(calls[..i]), calls[i].call, calls[i].at, db', answer) <==>
            (db', answer) == (After(calls[..i + 1]), Answer(calls, i))
  {
    hide After, Inv, Execute, Does, NewKey, InOrder;
    var t := BeforeCall(calls, i);
    AfterNext(calls, i);
    DoesMeans(After(calls[..i]), t, calls[i].call, calls[i].at, db', answer);
  }

  /** A command on a session commits if and only if all this holds, and then the row moves column by column. */
  lemma TransitionCommitsIff(calls: seq<Timed>, i: nat)
    requires InOrder(calls) && i < |calls| && calls[i].call.CTransition? && NewKey(After(calls[..i]), calls[i].call)
    ensures var db, db', call := After(calls[..i]), After(calls[..i + 1]), calls[i].call;
            (Committed(calls, i) <==>
               Belongs(db, call.who) && SessionOf(db, call.who.pair.value, call.sid) &&
               db.sessions[call.sid].version == call.expected &&
               Permits(db.sessions[call.sid], call.action, call.who.account, calls[i].at)) &&
            (Committed(calls, i) ==>
               call.sid in db'.sessions &&
               Moved(db.sessions[call.sid], db'.sessions[call.sid], call.action, calls[i].at))
  {
    hide After, Inv, Execute;
    CallsDo(calls, i, After(calls[..i + 1]), Answer(calls, i));
    hide Permits, Moved;
  }

  /** An import commits if and only if all this holds, and then the row has the times of the call. */
  lemma ImportCommitsIff(calls: seq<Timed>, i: nat)
    requires InOrder(calls) && i < |calls| && calls[i].call.CImport? && NewKey(After(calls[..i]), calls[i].call)
    ensures var db, db', call := After(calls[..i]), After(calls[..i + 1]), calls[i].call;
            (Committed(calls, i) <==>
               Belongs(db, call.who) && call.sid !in db.sessions &&
               call.startedAt <= call.completedAt <= call.startedAt + WHOLE_DAY &&
               call.completedAt <= calls[i].at + CLOCK_LEEWAY) &&
            (Committed(calls, i) ==>
               call.sid in db'.sessions && db'.sessions[call.sid].state.Completed? &&
               db'.sessions[call.sid].startedAt == call.startedAt &&
               db'.sessions[call.sid].endsAt == call.completedAt &&
               db'.sessions[call.sid].completedAt == Some(call.completedAt))
  {
    hide After, Inv, Execute;
    CallsDo(calls, i, After(calls[..i + 1]), Answer(calls, i));
  }

  /** A session that had run out when the current session is read has ended at its own end; others are as they were. */
  lemma SweepInRun(calls: seq<Timed>, i: nat, id: Uuid)
    requires InOrder(calls) && i < |calls| && calls[i].call.CCurrent? && calls[i].call.who.pair.Some?
    ensures SweptTo(After(calls[..i]), After(calls[..i + 1]), calls[i].call.who.pair.value, calls[i].at, id)
  {
    hide After, Inv, Execute;
    CallsDo(calls, i, After(calls[..i + 1]), Answer(calls, i));
    hide SweptTo;
  }

  /** A start commits if and only if nothing else of the pair is under way; an overdue session is ended on the way. */
  lemma StartCommitsIff(calls: seq<Timed>, i: nat)
    requires InOrder(calls) && i < |calls| && calls[i].call.CStart? && NewKey(After(calls[..i]), calls[i].call)
    ensures var db, call := After(calls[..i]), calls[i].call;
            Committed(calls, i) <==>
            Belongs(db, call.who) && call.sid !in db.sessions && Free(db, call.who.pair.value, calls[i].at)
  {
    hide After, Inv, Execute;
    CallsDo(calls, i, After(calls[..i + 1]), Answer(calls, i));
    hide Free;
  }
}
