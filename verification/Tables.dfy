/**
 The server's tables as one value, and every transaction as a function from tables to tables.
 A transaction is one atomic step at one instant; a failed one leaves the tables as they were.
 The class in Store.dfy carries the same transactions out step by step.
 */
module Tables {
  import opened Domain
  import opened Timeline

  datatype EventType =
    | PairCreated | SessionStarted | SessionDone(action: Action)
    | SessionCompleted | SessionExpired | NoteAdded | Cheered

  datatype Payload =
    | SessionData(session: FocusSession)
    | NoteData(note: Note)
    | CheerData(id: Uuid, createdAt: Time)
    | PairData(first: Uuid, second: Uuid)

  datatype Event = Event(
    pair: Uuid, etype: EventType, entity: Uuid, actor: Option<Uuid>, payload: Payload, at: Time)

  datatype Operation = OpStart | OpImport | OpAct(action: Action) | OpNote | OpCheer

  datatype Response =
    | SessionResponse(session: FocusSession)
    | NoteResponse(note: Note)
    | CheerResponse(id: Uuid, createdAt: Time)

  datatype KeyRow = KeyRow(op: Operation, response: Response, expiresAt: Time)

  const KEY_WINDOW: Time := 7 * DAY

  datatype Reaction = Reaction(id: Uuid, session: Uuid, account: Uuid, createdAt: Time)

  datatype Invite = Invite(
    createdBy: Uuid, tokenHash: int, expiresAt: Time,
    acceptedBy: Option<Uuid>, acceptedAt: Option<Time>, revokedAt: Option<Time>)

  datatype Core = Core(
    pairOf: map<Uuid, Uuid>,
    invites: map<Uuid, Invite>,
    sessions: map<Uuid, Row>,
    members: map<Uuid, seq<Participant>>,
    notes: map<Uuid, seq<Note>>,
    reactions: seq<Reaction>,
    log: seq<Event>,
    keys: map<(Uuid, Uuid), KeyRow>)

  const EMPTY: Core := Core(map[], map[], map[], map[], map[], [], [], map[])

  /** Unique stands for a violated unique index, Internal for every answer with status 500. */
  datatype Error = NotFound | Conflict | Version | ActiveSession | Cooldown | AlreadyPaired | Unique | Internal

  datatype Outcome =
    | Ok(response: Response, replayed: bool)
    | Current(session: Option<FocusSession>)
    | Done
    | Failed(error: Error)

  /** Who calls: the account, and the pair that its token carried. */
  datatype Identity = Identity(account: Uuid, pair: Option<Uuid>)

  // ---------------------------------------------------------------- reading

  function Read(db: Core, id: Uuid): FocusSession
    requires id in db.sessions
  {
    FocusSession(id, db.sessions[id],
                 if id in db.members then db.members[id] else [],
                 if id in db.notes then db.notes[id] else [])
  }

  predicate IsMember(db: Core, pair: Uuid, account: Uuid) {
    account in db.pairOf && db.pairOf[account] == pair
  }

  predicate IsActiveOf(sessions: map<Uuid, Row>, pair: Uuid, id: Uuid) {
    id in sessions && sessions[id].pair == pair && sessions[id].state.Active()
  }

  ghost predicate HasActive(sessions: map<Uuid, Row>, pair: Uuid) {
    exists id :: IsActiveOf(sessions, pair, id)
  }

  // ---------------------------------------------------------------- writing

  /** Writes a session with its members and appends the event that carries its snapshot. */
  function Write(db: Core, id: Uuid, row: Row, members: seq<Participant>,
                 etype: EventType, actor: Option<Uuid>, now: Time): Core {
    var notes := if id in db.notes then db.notes[id] else [];
    db.(sessions := db.sessions[id := row],
        members := db.members[id := members],
        notes := db.notes[id := notes],
        log := db.log + [Event(row.pair, etype, id, actor,
                               SessionData(FocusSession(id, row, members, notes)), now)])
  }

  datatype Lookup = Hit(response: Response) | Clash | Miss

  function LookUp(db: Core, account: Uuid, key: Uuid, op: Operation, now: Time): Lookup {
    if (account, key) in db.keys && db.keys[(account, key)].expiresAt > now then
      if db.keys[(account, key)].op == op then Hit(db.keys[(account, key)].response) else Clash
    else Miss
  }

  /** The end of every keyed transaction: the key is unique for ever, so an expired key rolls back. */
  function Commit(before: Core, db: Core, account: Uuid, key: Uuid, op: Operation,
                  response: Response, now: Time): (Core, Outcome) {
    if (account, key) in before.keys then (before, Failed(Unique))
    else (db.(keys := db.keys[(account, key) := KeyRow(op, response, now + KEY_WINDOW)]), Ok(response, false))
  }

  // ---------------------------------------------------------------- sweep

  ghost predicate IsDue(sessions: map<Uuid, Row>, pair: Uuid, id: Uuid, now: Time) {
    id in sessions && sessions[id].pair == pair && Due(sessions[id], now)
  }

  function SweepOne(db: Core, id: Uuid, now: Time): Core
    requires id in db.sessions
  {
    var row := db.sessions[id];
    Write(db, id, SweptRow(row), Read(db, id).members,
          if row.state.Paused? then SessionExpired else SessionCompleted, None, now)
  }

  /** At most one session of a pair is active, so at most one is due. */
  ghost function Sweep(db: Core, pair: Uuid, now: Time): Core {
    if exists id :: IsDue(db.sessions, pair, id, now)
    then var id :| IsDue(db.sessions, pair, id, now); SweepOne(db, id, now)
    else db
  }

  // ---------------------------------------------------------------- transactions

  ghost function Start(db: Core, who: Identity, key: Uuid, sid: Uuid, now: Time): (Core, Outcome) {
    if who.pair.None? then (db, Failed(NotFound))
    else
      match LookUp(db, who.account, key, OpStart, now)
      case Hit(response) => (db, Ok(response, true))
      case Clash => (db, Failed(Conflict))
      case Miss =>
        var pair := who.pair.value;
        if !IsMember(db, pair, who.account) then (db, Failed(NotFound))
        else
          var swept := Sweep(db, pair, now);
          if HasActive(swept.sessions, pair) then (db, Failed(ActiveSession))
          else if sid in swept.sessions then (db, Failed(Unique))
          else
            var written := Write(swept, sid, Opened(pair, who.account, now),
                                 [Participant(who.account, now)], SessionStarted, Some(who.account), now);
            Commit(db, written, who.account, key, OpStart, SessionResponse(Read(written, sid)), now)
  }

  ghost function Import(db: Core, who: Identity, key: Uuid, sid: Uuid,
                        startedAt: Time, completedAt: Time, now: Time): (Core, Outcome) {
    if who.pair.None? then (db, Failed(NotFound))
    else if !Importable(startedAt, completedAt, now) then (db, Failed(Conflict))
    else
      match LookUp(db, who.account, key, OpImport, now)
      case Hit(response) => (db, Ok(response, true))
      case Clash => (db, Failed(Conflict))
      case Miss =>
        var pair := who.pair.value;
        if !IsMember(db, pair, who.account) then (db, Failed(NotFound))
        else if sid in db.sessions then (db, Failed(Unique))
        else
          var written := Write(db, sid, Imported(pair, who.account, startedAt, completedAt),
                               [Participant(who.account, startedAt)], SessionCompleted, Some(who.account), now);
          Commit(db, written, who.account, key, OpImport, SessionResponse(Read(written, sid)), now)
  }

  ghost function Transition(db: Core, who: Identity, key: Uuid, sid: Uuid, expected: int,
                            action: Action, now: Time): (Core, Outcome) {
    if who.pair.None? then (db, Failed(NotFound))
    else
      match LookUp(db, who.account, key, OpAct(action), now)
      case Hit(response) => (db, Ok(response, true))
      case Clash => (db, Failed(Conflict))
      case Miss =>
        var pair := who.pair.value;
        if !IsMember(db, pair, who.account) then (db, Failed(NotFound))
        else if !(sid in db.sessions && db.sessions[sid].pair == pair) then (db, Failed(NotFound))
        else if db.sessions[sid].version != expected then (db, Failed(Version))
        else
          var members := Read(db, sid).members;
          match Act(db.sessions[sid], action, who.account, now)
          case None => (db, Failed(Conflict))
          case Some(row) =>
            if action.Join? && HasMember(members, who.account) then (db, Failed(Unique))
            else
              var joined := if action.Join? then members + [Participant(who.account, now)] else members;
              var written := Write(db, sid, row, joined, SessionDone(action), Some(who.account), now);
              Commit(db, written, who.account, key, OpAct(action), SessionResponse(Read(written, sid)), now)
  }

  /** The one character that a text column cannot hold. */
  const NUL: char := '\0'

  ghost function AddNote(db: Core, who: Identity, key: Uuid, sid: Uuid, noteId: Uuid,
                         body: string, now: Time): (Core, Outcome) {
    if who.pair.None? then (db, Failed(NotFound))
    else
      match LookUp(db, who.account, key, OpNote, now)
      case Hit(response) => (db, Ok(response, true))
      case Clash => (db, Failed(Conflict))
      case Miss =>
        var pair := who.pair.value;
        if !IsMember(db, pair, who.account) then (db, Failed(NotFound))
        else if !(sid in db.sessions && db.sessions[sid].pair == pair && !db.sessions[sid].state.Cancelled?)
        then (db, Failed(NotFound))
        else if !(1 <= |body| <= 120) || NUL in body then (db, Failed(Internal))
        else
          var note := Note(noteId, who.account, body, now);
          var written := db.(notes := db.notes[sid := Read(db, sid).notes + [note]],
                             log := db.log + [Event(pair, NoteAdded, sid, Some(who.account), NoteData(note), now)]);
          Commit(db, written, who.account, key, OpNote, NoteResponse(note), now)
  }

  predicate CheeredRecently(reactions: seq<Reaction>, sid: Uuid, account: Uuid, now: Time) {
    exists i :: 0 <= i < |reactions| && reactions[i].session == sid && reactions[i].account == account &&
                reactions[i].createdAt > now - 30 * SECOND
  }

  ghost function AddCheer(db: Core, who: Identity, key: Uuid, sid: Uuid, cheerId: Uuid, now: Time): (Core, Outcome) {
    if who.pair.None? then (db, Failed(NotFound))
    else
      match LookUp(db, who.account, key, OpCheer, now)
      case Hit(response) => (db, Ok(response, true))
      case Clash => (db, Failed(Conflict))
      case Miss =>
        var pair := who.pair.value;
        if !(sid in db.sessions && db.sessions[sid].pair == pair) then (db, Failed(NotFound))
        else if !(db.sessions[sid].state.Together? || db.sessions[sid].state.Paused?) then (db, Failed(Conflict))
        else if CheeredRecently(db.reactions, sid, who.account, now) then (db, Failed(Cooldown))
        else
          var written := db.(reactions := db.reactions + [Reaction(cheerId, sid, who.account, now)],
                             log := db.log + [Event(pair, Cheered, sid, Some(who.account),
                                                    CheerData(cheerId, now), now)]);
          Commit(db, written, who.account, key, OpCheer, CheerResponse(cheerId, now), now)
  }

  ghost function CurrentSession(db: Core, who: Identity, now: Time): (Core, Outcome) {
    if who.pair.None? then (db, Current(None))
    else
      var swept := Sweep(db, who.pair.value, now);
      (swept, Current(ActiveSessionOf(swept, who.pair.value)))
  }

  ghost function ActiveSessionOf(db: Core, pair: Uuid): Option<FocusSession> {
    if HasActive(db.sessions, pair)
    then var id :| IsActiveOf(db.sessions, pair, id); Some(Read(db, id))
    else None
  }

  // ---------------------------------------------------------------- pairing

  predicate Live(invite: Invite, tokenHash: int, now: Time) {
    invite.tokenHash == tokenHash && invite.expiresAt > now && invite.acceptedAt.None? && invite.revokedAt.None?
  }

  /** Revokes the open invites of an account. */
  function RevokeOpen(invites: map<Uuid, Invite>, account: Uuid, now: Time): map<Uuid, Invite> {
    map id | id in invites ::
      var invite := invites[id];
      if invite.createdBy == account && invite.acceptedAt.None? && invite.revokedAt.None?
      then invite.(revokedAt := Some(now)) else invite
  }

  ghost function CreateInvite(db: Core, account: Uuid, inviteId: Uuid, tokenHash: int,
                              expiresAt: Time, now: Time): (Core, Outcome) {
    if account in db.pairOf then (db, Failed(AlreadyPaired))
    else if inviteId in db.invites || exists id :: id in db.invites && db.invites[id].tokenHash == tokenHash
    then (db, Failed(Unique))
    else
      var revoked := RevokeOpen(db.invites, account, now);
      (db.(invites := revoked[inviteId := Invite(account, tokenHash, expiresAt, None, None, None)]), Done)
  }

  ghost function AcceptInvite(db: Core, account: Uuid, tokenHash: int, pair: Uuid,
                              creatorActive: bool, now: Time): (Core, Outcome) {
    if !exists id :: id in db.invites && Live(db.invites[id], tokenHash, now) then (db, Failed(NotFound))
    else
      var id :| id in db.invites && Live(db.invites[id], tokenHash, now);
      var creator := db.invites[id].createdBy;
      if creator == account then (db, Failed(Conflict))
      else if creator in db.pairOf || account in db.pairOf then (db, Failed(AlreadyPaired))
      else if !creatorActive then (db, Failed(NotFound))
      else if pair in db.pairOf.Values then (db, Failed(Unique))
      else
        (db.(pairOf := db.pairOf[creator := pair][account := pair],
             invites := db.invites[id := db.invites[id].(acceptedBy := Some(account), acceptedAt := Some(now))],
             log := db.log + [Event(pair, PairCreated, pair, Some(account), PairData(creator, account), now)]),
         Done)
  }

  // ---------------------------------------------------------------- calls

  datatype Call =
    | CStart(who: Identity, key: Uuid, sid: Uuid)
    | CImport(who: Identity, key: Uuid, sid: Uuid, startedAt: Time, completedAt: Time)
    | CTransition(who: Identity, key: Uuid, sid: Uuid, expected: int, action: Action)
    | CNote(who: Identity, key: Uuid, sid: Uuid, freshId: Uuid, body: string)
    | CCheer(who: Identity, key: Uuid, sid: Uuid, freshId: Uuid)
    | CCurrent(who: Identity)
    | CCreateInvite(account: Uuid, inviteId: Uuid, tokenHash: int, expiresAt: Time)
    | CAcceptInvite(account: Uuid, tokenHash: int, pair: Uuid, creatorActive: bool)
  {
    /** The calls that carry an idempotency key. */
    predicate Keyed() {
      CStart? || CImport? || CTransition? || CNote? || CCheer?
    }

    function KeyOf(): (Uuid, Uuid)
      requires Keyed()
    {
      (who.account, key)
    }

    function OpOf(): Operation
      requires Keyed()
    {
      match this
      case CStart(_, _, _) => OpStart
      case CImport(_, _, _, _, _) => OpImport
      case CTransition(_, _, _, _, action) => OpAct(action)
      case CNote(_, _, _, _, _) => OpNote
      case CCheer(_, _, _, _) => OpCheer
    }
  }

  ghost function Execute(db: Core, call: Call, now: Time): (Core, Outcome) {
    match call
    case CStart(who, key, sid) => Start(db, who, key, sid, now)
    case CImport(who, key, sid, startedAt, completedAt) => Import(db, who, key, sid, startedAt, completedAt, now)
    case CTransition(who, key, sid, expected, action) => Transition(db, who, key, sid, expected, action, now)
    case CNote(who, key, sid, freshId, body) => AddNote(db, who, key, sid, freshId, body, now)
    case CCheer(who, key, sid, freshId) => AddCheer(db, who, key, sid, freshId, now)
    case CCurrent(who) => CurrentSession(db, who, now)
    case CCreateInvite(account, inviteId, tokenHash, expiresAt) =>
      CreateInvite(db, account, inviteId, tokenHash, expiresAt, now)
    case CAcceptInvite(account, tokenHash, pair, creatorActive) =>
      AcceptInvite(db, account, tokenHash, pair, creatorActive, now)
  }
}
