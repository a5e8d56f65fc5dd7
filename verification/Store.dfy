/**
 The server's store: its tables are fields, and each method is one transaction that reassigns them step
 by step. Every method ends in exactly the state and answer of the transaction function in Tables.dfy.
 */
module Store {
  import opened Domain
  import opened Timeline
  import opened Tables
  import opened StoreInvariant
  import opened Effects
  import opened Paging

  /** What a rollback restores. Sequence numbers that were drawn stay drawn. */
  datatype Tx = Tx(core: Core, cursors: seq<nat>)

  class Store {
    var pairOf: map<Uuid, Uuid>
    var invites: map<Uuid, Invite>
    var sessions: map<Uuid, Row>
    var members: map<Uuid, seq<Participant>>
    var notes: map<Uuid, seq<Note>>
    var reactions: seq<Reaction>
    var log: seq<Event>
    var keys: map<(Uuid, Uuid), KeyRow>
    var cursors: seq<nat>
    var serial: nat
    ghost var clock: Time

    function Db(): Core
      reads this
    {
      Core(pairOf, invites, sessions, members, notes, reactions, log, keys)
    }

    ghost predicate Counted()
      reads this
    {
      Numbered(log, cursors) && Top(cursors) <= serial
    }

    ghost predicate Valid()
      reads this
    {
      Inv(Db(), clock) && Counted()
    }

    /** What a transaction needs of the state: the foreign keys and the unique index on active sessions. */
    ghost predicate Shape()
      reads this
    {
      Counted() && TablesAgree(Db()) && OneActive(Db())
    }

    constructor ()
      ensures Valid() && Db() == EMPTY
    {
      pairOf, invites, sessions, members, notes := map[], map[], map[], map[], map[];
      reactions, log, keys, cursors, serial, clock := [], [], map[], [], 0, 0;
      new;
      EmptyInv(0);
    }

    function Begin(): Tx
      reads this
    {
      Tx(Db(), cursors)
    }

    method Rollback(tx: Tx)
      requires Numbered(tx.core.log, tx.cursors) && Top(tx.cursors) <= serial
      modifies this
      ensures Db() == tx.core && cursors == tx.cursors && Counted()
      ensures serial == old(serial) && clock == old(clock)
    {
      var c := tx.core;
      pairOf, invites, sessions, members, notes := c.pairOf, c.invites, c.sessions, c.members, c.notes;
      reactions, log, keys, cursors := c.reactions, c.log, c.keys, tx.cursors;
    }

    method AppendPairEvent(pair: Uuid, etype: EventType, entity: Uuid, actor: Option<Uuid>, payload: Payload, now: Time)
      requires Counted()
      modifies this`log, this`cursors, this`serial
      ensures Counted() && serial > old(serial)
      ensures log == old(log) + [Event(pair, etype, entity, actor, payload, now)]
      ensures cursors == old(cursors) + [serial]
    {
      serial := serial + 1;
      log := log + [Event(pair, etype, entity, actor, payload, now)];
      cursors := cursors + [serial];
    }

    function ReadSession(id: Uuid): FocusSession
      requires id in sessions
      reads this
    {
      Read(Db(), id)
    }

    /** False is the violated primary key. */
    method SaveIdempotency(account: Uuid, key: Uuid, op: Operation, response: Response, now: Time) returns (saved: bool)
      modifies this`keys
      ensures saved <==> (account, key) !in old(keys)
      ensures keys == if saved
                      then old(keys)[(account, key) := KeyRow(op, response, now + KEY_WINDOW)] else old(keys)
    {
      saved := (account, key) !in keys;
      if saved {
        keys := keys[(account, key) := KeyRow(op, response, now + KEY_WINDOW)];
      }
    }

    /** One turn of a sweep loop: the row is updated, read back and logged. */
    method SweepRow(pair: Uuid, id: Uuid, row: Row, etype: EventType, now: Time)
      requires Counted() && TablesAgree(Db()) && id in sessions && row.pair == pair
      modifies this`sessions, this`log, this`cursors, this`serial
      ensures Counted() && old(cursors) <= cursors && serial >= old(serial)
      ensures Db() == Write(old(Db()), id, row, old(members)[id], etype, None, now)
    {
      sessions := sessions[id := row];
      AppendPairEvent(pair, etype, id, None, SessionData(ReadSession(id)), now);
      assert members == members[id := members[id]] && notes == notes[id := notes[id]];
    }

    function StaleIds(pair: Uuid, now: Time): set<Uuid>
      reads this
    {
      set id | id in sessions && sessions[id].pair == pair && Stale(sessions[id], now)
    }

    function ElapsedIds(pair: Uuid, now: Time): set<Uuid>
      reads this
    {
      set id | id in sessions && sessions[id].pair == pair && Elapsed(sessions[id], now)
    }

    method ExpireStale(pair: Uuid, now: Time)
      requires Shape()
      modifies this`sessions, this`log, this`cursors, this`serial
      ensures Counted() && old(cursors) <= cursors && serial >= old(serial)
      ensures Db() == if old(StaleIds(pair, now)) != {} then Sweep(old(Db()), pair, now) else old(Db())
    {
      ghost var db, ids := Db(), StaleIds(pair, now);
      var stale := StaleIds(pair, now);
      hide Sweep;
      while stale != {}
        invariant Counted() && old(cursors) <= cursors && serial >= old(serial)
        invariant (stale == ids && Db() == db) || (stale == {} && ids != {} && Db() == Sweep(db, pair, now))
        decreases stale
      {
        var id :| id in stale;
        OnlyDue(db, pair, id, now, ids);
        var row := sessions[id];
        SweepRow(pair, id, row.(state := Expired, pauseOrigin := None, pausedAt := None, version := row.version + 1),
                 SessionExpired, now);
        stale := stale - {id};
      }
    }

    method CompleteElapsed(pair: Uuid, now: Time)
      requires Shape()
      modifies this`sessions, this`log, this`cursors, this`serial
      ensures Counted() && old(cursors) <= cursors && serial >= old(serial)
      ensures Db() == if old(ElapsedIds(pair, now)) != {} then Sweep(old(Db()), pair, now) else old(Db())
    {
      ghost var db, ids := Db(), ElapsedIds(pair, now);
      var elapsed := ElapsedIds(pair, now);
      hide Sweep;
      while elapsed != {}
        invariant Counted() && old(cursors) <= cursors && serial >= old(serial)
        invariant (elapsed == ids && Db() == db) || (elapsed == {} && ids != {} && Db() == Sweep(db, pair, now))
        decreases elapsed
      {
        var id :| id in elapsed;
        OnlyDue(db, pair, id, now, ids);
        var row := sessions[id];
        SweepRow(pair, id, row.(state := Completed, completedAt := Some(row.endsAt), version := row.version + 1),
                 SessionCompleted, now);
        elapsed := elapsed - {id};
      }
    }

    /** First the pauses of a day or more expire, then the sessions past their end complete. */
    method CompleteElapsedSession(pair: Uuid, now: Time)
      requires Shape()
      modifies this`sessions, this`log, this`cursors, this`serial
      ensures Counted() && old(cursors) <= cursors && serial >= old(serial)
      ensures Db() == Sweep(old(Db()), pair, now) && Sweeps(old(Db()), Db(), pair, now)
      ensures TablesAgree(Db()) && OneActive(Db())
    {
      ghost var db := Db();
      SweepKeepsShape(db, pair, now);
      SweepDoes(db, pair, now);
      hide Sweeps;
      ghost var stale, elapsed := StaleIds(pair, now), ElapsedIds(pair, now);
      DueIds(db, pair, now, stale, elapsed);
      ExpireStale(pair, now);
      forall id ensures stale != {} ==> id !in ElapsedIds(pair, now) {
        SweepLeavesNoneDue(db, pair, now, id);
      }
      assert stale == {} ==> ElapsedIds(pair, now) == elapsed;
      CompleteElapsed(pair, now);
    }

    // ---------------------------------------------------------------- transactions

    /** The two inserts of a new session, read back and logged. */
    method InsertSession(sid: Uuid, row: Row, first: Participant, etype: EventType, actor: Uuid, now: Time)
        returns (session: FocusSession)
      requires Counted() && TablesAgree(Db()) && sid !in sessions
      modifies this`sessions, this`members, this`notes, this`log, this`cursors, this`serial
      ensures Counted() && old(cursors) <= cursors && serial >= old(serial)
      ensures Db() == Write(old(Db()), sid, row, [first], etype, Some(actor), now)
      ensures sid in sessions && session == Read(Db(), sid)
    {
      sessions := sessions[sid := row];
      members := members[sid := [first]];
      notes := notes[sid := []];
      session := ReadSession(sid);
      AppendPairEvent(row.pair, etype, sid, Some(actor), SessionData(session), now);
    }

    /** The end of a keyed transaction: commit, or roll back when the key is taken. */
    method Finish(tx: Tx, account: Uuid, key: Uuid, op: Operation, response: Response, now: Time)
        returns (answer: Outcome)
      requires Counted() && Numbered(tx.core.log, tx.cursors) && Top(tx.cursors) <= serial && tx.cursors <= cursors
      requires tx.core.keys == keys
      modifies this
      ensures Counted() && tx.cursors <= cursors && serial == old(serial) && clock == old(clock)
      ensures (Db(), answer) == Commit(tx.core, old(Db()), account, key, op, response, now)
    {
      var saved := SaveIdempotency(account, key, op, response, now);
      if !saved {
        Rollback(tx);
        return Failed(Unique);
      }
      return Ok(response, false);
    }

    method StartSession(who: Identity, key: Uuid, sid: Uuid, now: Time) returns (answer: Outcome)
      requires Shape()
      modifies this
      ensures Counted() && old(cursors) <= cursors && clock == old(clock)
      ensures (Db(), answer) == Start(old(Db()), who, key, sid, now)
    {
      if who.pair.None? { return Failed(NotFound); }
      var pair := who.pair.value;
      var tx := Begin();
      match LookUp(Db(), who.account, key, OpStart, now)
      case Hit(response) => return Ok(response, true);
      case Clash => return Failed(Conflict);
      case Miss =>
        if !IsMember(Db(), pair, who.account) { return Failed(NotFound); }
        CompleteElapsedSession(pair, now);
        hide Sweep, Sweeps, Write, OneActive, Numbered;
        var active := exists id | id in sessions :: IsActiveOf(sessions, pair, id);
        if active {
          Rollback(tx);
          return Failed(ActiveSession);
        }
        if sid in sessions {
          Rollback(tx);
          return Failed(Unique);
        }
        var row := Row(pair, who.account, Open, None, now, now + 25 * MINUTE, None, None, None, 1, false);
        var session := InsertSession(sid, row, Participant(who.account, now), SessionStarted, who.account, now);
        answer := Finish(tx, who.account, key, OpStart, SessionResponse(session), now);
    }

    method ImportSoloSession(who: Identity, key: Uuid, sid: Uuid, startedAt: Time, completedAt: Time, now: Time)
        returns (answer: Outcome)
      requires Shape()
      modifies this
      ensures Counted() && old(cursors) <= cursors && clock == old(clock)
      ensures (Db(), answer) == Import(old(Db()), who, key, sid, startedAt, completedAt, now)
    {
      if who.pair.None? { return Failed(NotFound); }
      var pair := who.pair.value;
      if startedAt > completedAt || completedAt - startedAt > DAY || completedAt > now + 2 * MINUTE {
        return Failed(Conflict);
      }
      var tx := Begin();
      match LookUp(Db(), who.account, key, OpImport, now)
      case Hit(response) => return Ok(response, true);
      case Clash => return Failed(Conflict);
      case Miss =>
        if !IsMember(Db(), pair, who.account) { return Failed(NotFound); }
        if sid in sessions { return Failed(Unique); }
        hide Write, OneActive, Numbered;
        var row := Row(pair, who.account, Completed, None, startedAt, completedAt, None, Some(completedAt), None, 1,
                       true);
        var session := InsertSession(sid, row, Participant(who.account, startedAt), SessionCompleted, who.account, now);
        answer := Finish(tx, who.account, key, OpImport, SessionResponse(session), now);
    }

    /** The column updates of one action, branch by branch. */
    method UpdateRow(sid: Uuid, action: Action, next: State, origin: Option<State>, account: Uuid, now: Time)
        returns (error: Option<Error>)
      requires sid in sessions && sid in members
      requires NextState(sessions[sid].state, sessions[sid].pauseOrigin, action) == Some((next, origin))
      modifies this`sessions, this`members
      ensures error.None? ==>
                Act(old(sessions)[sid], action, account, now).Some? &&
                !(action.Join? && HasMember(old(members)[sid], account)) &&
                sessions == old(sessions)[sid := Act(old(sessions)[sid], action, account, now).value] &&
                members == if action.Join? then old(members)[sid := old(members)[sid] + [Participant(account, now)]]
                           else old(members)
      ensures error.Some? ==>
                sessions == old(sessions) && members == old(members) &&
                (error.value == if Act(old(sessions)[sid], action, account, now).None? then Conflict else Unique) &&
                (Act(old(sessions)[sid], action, account, now).Some? ==>
                   action.Join? && HasMember(members[sid], account))
    {
      var row := sessions[sid];
      match action
      case Join =>
        if row.startedBy == account || now > row.endsAt { return Some(Conflict); }
        if HasMember(members[sid], account) { return Some(Unique); }
        members := members[sid := members[sid] + [Participant(account, now)]];
        sessions := sessions[sid := row.(state := next, version := row.version + 1)];
        return None;
      case Pause =>
        sessions := sessions[sid := row.(state := Paused, pauseOrigin := origin, pausedAt := Some(now),
                                         version := row.version + 1)];
        return None;
      case Resume =>
        if row.pausedAt.None? { return Some(Conflict); }
        sessions := sessions[sid := row.(state := next, pauseOrigin := None, pausedAt := None,
                                         endsAt := row.endsAt + (now - row.pausedAt.value),
                                         version := row.version + 1)];
        return None;
      case Complete =>
        sessions := sessions[sid := row.(state := Completed, pauseOrigin := None, pausedAt := None,
                                         completedAt := Some(now), version := row.version + 1)];
        return None;
      case Cancel =>
        sessions := sessions[sid := row.(state := Cancelled, pauseOrigin := None, pausedAt := None,
                                         cancelledAt := Some(now), version := row.version + 1)];
        return None;
      case Expire =>
        sessions := sessions[sid := row.(state := Expired, pauseOrigin := None, pausedAt := None,
                                         version := row.version + 1)];
        return None;
    }

    method TransitionSession(who: Identity, key: Uuid, sid: Uuid, expected: int, action: Action, now: Time)
        returns (answer: Outcome)
      requires Shape()
      modifies this
      ensures Counted() && old(cursors) <= cursors && clock == old(clock)
      ensures (Db(), answer) == Transition(old(Db()), who, key, sid, expected, action, now)
    {
      if who.pair.None? { return Failed(NotFound); }
      var pair := who.pair.value;
      var tx := Begin();
      match LookUp(Db(), who.account, key, OpAct(action), now)
      case Hit(response) => return Ok(response, true);
      case Clash => return Failed(Conflict);
      case Miss =>
        if !IsMember(Db(), pair, who.account) { return Failed(NotFound); }
        if !(sid in sessions && sessions[sid].pair == pair) { return Failed(NotFound); }
        var current := ReadSession(sid);
        if current.row.version != expected { return Failed(Version); }
        var step := NextState(current.row.state, current.row.pauseOrigin, action);
        if step.None? { return Failed(Conflict); }
        hide OneActive, Numbered, HasMember, Write;
        var error, session := ApplyAction(pair, sid, action, step.value.0, step.value.1, who.account, now);
        if error.Some? {
          Rollback(tx);
          return Failed(error.value);
        }
        hide NextState, Act;
        answer := Finish(tx, who.account, key, OpAct(action), SessionResponse(session), now);
    }

    /** The row update of an action, read back and logged. */
    method ApplyAction(pair: Uuid, sid: Uuid, action: Action, next: State, origin: Option<State>, account: Uuid,
                       now: Time)
        returns (error: Option<Error>, session: FocusSession)
      requires Counted() && TablesAgree(Db()) && sid in sessions && sessions[sid].pair == pair
      requires NextState(sessions[sid].state, sessions[sid].pauseOrigin, action) == Some((next, origin))
      modifies this`sessions, this`members, this`log, this`cursors, this`serial
      ensures Counted() && old(cursors) <= cursors && serial >= old(serial)
      ensures var row := Act(old(sessions)[sid], action, account, now); var before := old(members)[sid];
              if row.None? then error == Some(Conflict)
              else if action.Join? && HasMember(before, account) then error == Some(Unique)
              else
                error == None &&
                Db() == Write(old(Db()), sid, row.value,
                              if action.Join? then before + [Participant(account, now)] else before,
                              SessionDone(action), Some(account), now) &&
                sid in sessions && session == Read(Db(), sid)
    {
      error := UpdateRow(sid, action, next, origin, account, now);
      session := ReadSession(sid);
      if error.None? {
        AppendPairEvent(pair, SessionDone(action), sid, Some(account), SessionData(session), now);
        assert notes == notes[sid := notes[sid]];
        assert !action.Join? ==> members == members[sid := members[sid]];
      }
    }

    method AddSessionNote(who: Identity, key: Uuid, sid: Uuid, noteId: Uuid, body: string, now: Time)
        returns (answer: Outcome)
      requires Shape()
      modifies this
      ensures Counted() && old(cursors) <= cursors && clock == old(clock)
      ensures (Db(), answer) == AddNote(old(Db()), who, key, sid, noteId, body, now)
    {
      if who.pair.None? { return Failed(NotFound); }
      var pair := who.pair.value;
      var tx := Begin();
      match LookUp(Db(), who.account, key, OpNote, now)
      case Hit(response) => return Ok(response, true);
      case Clash => return Failed(Conflict);
      case Miss =>
        if !IsMember(Db(), pair, who.account) { return Failed(NotFound); }
        if !(sid in sessions && sessions[sid].pair == pair && !sessions[sid].state.Cancelled?) {
          return Failed(NotFound);
        }
        if !(1 <= |body| <= 120) || NUL in body { return Failed(Internal); }
        hide OneActive, Numbered;
        var note := Note(noteId, who.account, body, now);
        notes := notes[sid := notes[sid] + [note]];
        AppendPairEvent(pair, NoteAdded, sid, Some(who.account), NoteData(note), now);
        answer := Finish(tx, who.account, key, OpNote, NoteResponse(note), now);
    }

    method Cheer(who: Identity, key: Uuid, sid: Uuid, cheerId: Uuid, now: Time) returns (answer: Outcome)
      requires Shape()
      modifies this
      ensures Counted() && old(cursors) <= cursors && clock == old(clock)
      ensures (Db(), answer) == AddCheer(old(Db()), who, key, sid, cheerId, now)
    {
      if who.pair.None? { return Failed(NotFound); }
      var pair := who.pair.value;
      var tx := Begin();
      match LookUp(Db(), who.account, key, OpCheer, now)
      case Hit(response) => return Ok(response, true);
      case Clash => return Failed(Conflict);
      case Miss =>
        if !(sid in sessions && sessions[sid].pair == pair) { return Failed(NotFound); }
        if !(sessions[sid].state.Together? || sessions[sid].state.Paused?) { return Failed(Conflict); }
        if CheeredRecently(reactions, sid, who.account, now) { return Failed(Cooldown); }
        hide OneActive, Numbered, CheeredRecently;
        reactions := reactions + [Reaction(cheerId, sid, who.account, now)];
        AppendPairEvent(pair, Cheered, sid, Some(who.account), CheerData(cheerId, now), now);
        answer := Finish(tx, who.account, key, OpCheer, CheerResponse(cheerId, now), now);
    }

    method ReadCurrent(who: Identity, now: Time) returns (current: Option<FocusSession>)
      requires Shape()
      modifies this
      ensures Counted() && old(cursors) <= cursors && clock == old(clock)
      ensures (Db(), Current(current)) == CurrentSession(old(Db()), who, now)
    {
      if who.pair.None? { return None; }
      var pair := who.pair.value;
      CompleteElapsedSession(pair, now);
      hide Sweep, Sweeps, Numbered;
      var active := set id | id in sessions && IsActiveOf(sessions, pair, id);
      if active == {} {
        assert !HasActive(sessions, pair) by {
          assert forall id :: IsActiveOf(sessions, pair, id) ==> id in active;
        }
        return None;
      }
      var id :| id in active;
      assert IsActiveOf(sessions, pair, id);
      return Some(ReadSession(id));
    }

    method CreatePairInvite(account: Uuid, inviteId: Uuid, tokenHash: int, expiresAt: Time, now: Time)
        returns (answer: Outcome)
      modifies this`invites
      ensures (Db(), answer) == CreateInvite(old(Db()), account, inviteId, tokenHash, expiresAt, now)
    {
      if account in pairOf { return Failed(AlreadyPaired); }
      var taken := exists id | id in invites :: invites[id].tokenHash == tokenHash;
      if inviteId in invites || taken { return Failed(Unique); }
      invites := RevokeOpen(invites, account, now);
      invites := invites[inviteId := Invite(account, tokenHash, expiresAt, None, None, None)];
      return Done;
    }

    method AcceptPairInvite(account: Uuid, tokenHash: int, pair: Uuid, creatorActive: bool, now: Time)
        returns (answer: Outcome)
      requires Counted() && TokensUnique(Db())
      modifies this`invites, this`pairOf, this`log, this`cursors, this`serial
      ensures Counted() && old(cursors) <= cursors
      ensures (Db(), answer) == AcceptInvite(old(Db()), account, tokenHash, pair, creatorActive, now)
    {
      var found := set id | id in invites && Live(invites[id], tokenHash, now);
      if found == {} {
        assert forall id :: id in invites && Live(invites[id], tokenHash, now) ==> id in found;
        return Failed(NotFound);
      }
      var id :| id in found;
      assert forall other :: other in invites && Live(invites[other], tokenHash, now) ==> other == id;
      var creator := invites[id].createdBy;
      if creator == account { return Failed(Conflict); }
      if creator in pairOf || account in pairOf { return Failed(AlreadyPaired); }
      if !creatorActive { return Failed(NotFound); }
      if pair in pairOf.Values { return Failed(Unique); }
      pairOf := pairOf[creator := pair][account := pair];
      invites := invites[id := invites[id].(acceptedBy := Some(account), acceptedAt := Some(now))];
      AppendPairEvent(pair, PairCreated, pair, Some(account), PairData(creator, account), now);
      return Done;
    }

    /** The dispatch over the transactions. */
    method Dispatch(call: Call, now: Time) returns (answer: Outcome)
      requires Shape() && TokensUnique(Db())
      modifies this
      ensures Counted() && clock == old(clock) && old(cursors) <= cursors
      ensures (Db(), answer) == Execute(old(Db()), call, now)
    {
      hide OneActive, TablesAgree, TokensUnique, Numbered, Top;
      hide Start, Import, Transition, AddNote, AddCheer, CurrentSession, CreateInvite, AcceptInvite;
      match call {
        case CStart(who, key, sid) => answer := StartSession(who, key, sid, now);
        case CImport(who, key, sid, startedAt, completedAt) =>
          answer := ImportSoloSession(who, key, sid, startedAt, completedAt, now);
        case CTransition(who, key, sid, expected, action) =>
          answer := TransitionSession(who, key, sid, expected, action, now);
        case CNote(who, key, sid, freshId, body) => answer := AddSessionNote(who, key, sid, freshId, body, now);
        case CCheer(who, key, sid, freshId) => answer := Cheer(who, key, sid, freshId, now);
        case CCurrent(who) =>
          var current := ReadCurrent(who, now);
          answer := Current(current);
        case CCreateInvite(account, inviteId, tokenHash, expiresAt) =>
          answer := CreatePairInvite(account, inviteId, tokenHash, expiresAt, now);
        case CAcceptInvite(account, tokenHash, pair, creatorActive) =>
          answer := AcceptPairInvite(account, tokenHash, pair, creatorActive, now);
      }
    }

    /** Any of the calls above, on a valid store: the answer is the transaction's, and the store stays valid. */
    method Handle(call: Call, now: Time) returns (answer: Outcome)
      requires Valid() && clock <= now
      modifies this
      ensures Valid() && clock == now && old(cursors) <= cursors
      ensures (Db(), answer) == Execute(old(Db()), call, now)
      ensures old(NewKey(Db(), call)) ==> Does(old(Db()), call, now, Db(), answer)
    {
      ExecuteKeepsInv(Db(), clock, call, now);
      if NewKey(Db(), call) { ExecuteDoes(Db(), clock, call, now); }
      hide Does, NewKey;
      assert Shape() && TokensUnique(Db());
      hide Inv, OneActive, TablesAgree, TokensUnique, Numbered, Execute;
      answer := Dispatch(call, now);
      clock := now;
    }

    /** A page of the pair's events past the cursor; a limit out of bounds counts as 200. */
    method PairEvents(who: Identity, cursor: nat, limit: int) returns (events: seq<Event>, next: nat)
      requires Counted()
      ensures who.pair.None? ==> events == [] && next == cursor
      ensures who.pair.Some? ==>
                IsPage(log, cursors, who.pair.value, cursor, if 1 <= limit <= 500 then limit else 200, events, next)
    {
      events, next := [], cursor;
      if who.pair.None? { return; }
      var pair := who.pair.value;
      var bound := if 1 <= limit <= 500 then limit else 200;
      var i := 0;
      ScanStarts(log, cursors, pair, cursor);
      hide Visible, Scanned;
      while i < |log| && |events| < bound
        invariant 0 <= i <= |log| && |events| <= bound
        invariant Scanned(log, cursors, pair, cursor, i, events, next)
      {
        ScanNext(log, cursors, pair, cursor, i, events, next);
        if log[i].pair == pair && cursors[i] > cursor {
          events := events + [log[i]];
          next := cursors[i];
        }
        i := i + 1;
      }
      ScanEnds(log, cursors, pair, cursor, i, events, next, bound);
    }
  }

  /** The events found in the first `i` rows of the log, and the cursor of the last of them. */
  ghost predicate Scanned(log: seq<Event>, cursors: seq<nat>, pair: Uuid, from: nat, i: nat, events: seq<Event>,
                          next: nat)
    requires Numbered(log, cursors) && i <= |log|
  {
    from <= next && events == Visible(log[..i], cursors[..i], pair, from, Top(cursors)) &&
    (|events| == 0 <==> next == from) &&
    (|events| > 0 ==> exists k :: 0 <= k < i && cursors[k] == next && log[k].pair == pair) &&
    forall k :: 0 <= k < i && cursors[k] > next ==> log[k].pair != pair
  }

  lemma ScanStarts(log: seq<Event>, cursors: seq<nat>, pair: Uuid, from: nat)
    requires Numbered(log, cursors)
    ensures Scanned(log, cursors, pair, from, 0, [], from)
  {
  }

  lemma ScanNext(log: seq<Event>, cursors: seq<nat>, pair: Uuid, from: nat, i: nat, events: seq<Event>, next: nat)
    requires Numbered(log, cursors) && i < |log| && Scanned(log, cursors, pair, from, i, events, next)
    ensures if log[i].pair == pair && cursors[i] > from
            then Scanned(log, cursors, pair, from, i + 1, events + [log[i]], cursors[i])
            else Scanned(log, cursors, pair, from, i + 1, events, next)
  {
    VisibleNext(log, cursors, pair, from, i);
    hide Visible;
  }

  lemma ScanEnds(log: seq<Event>, cursors: seq<nat>, pair: Uuid, from: nat, i: nat, events: seq<Event>, next: nat,
                 bound: nat)
    requires Numbered(log, cursors) && i <= |log| && Scanned(log, cursors, pair, from, i, events, next)
    requires |events| <= bound && (i == |log| || |events| >= bound) && bound > 0
    ensures IsPage(log, cursors, pair, from, bound, events, next)
  {
    hide Visible;
    PageScan(log, cursors, pair, from, next, i);
    if i == |log| {
      assert log[..i] == log && cursors[..i] == cursors;
    }
  }

  lemma VisibleNext(log: seq<Event>, cursors: seq<nat>, pair: Uuid, from: nat, i: nat)
    requires Numbered(log, cursors) && i < |log|
    ensures Visible(log[..i + 1], cursors[..i + 1], pair, from, Top(cursors)) ==
            Visible(log[..i], cursors[..i], pair, from, Top(cursors)) +
            if log[i].pair == pair && cursors[i] > from then [log[i]] else []
  {
    assert log[..i + 1][..i] == log[..i] && cursors[..i + 1][..i] == cursors[..i];
  }

  /** A scan of the front of the log has found everything between the old and the new cursor. */
  lemma PageScan(log: seq<Event>, cursors: seq<nat>, pair: Uuid, from: nat, next: nat, i: nat)
    requires Numbered(log, cursors) && i <= |log| && from <= next
    requires next == from || exists k :: 0 <= k < i && cursors[k] == next
    requires forall k :: 0 <= k < i && cursors[k] > next ==> log[k].pair != pair
    requires next == from ==> Visible(log[..i], cursors[..i], pair, from, Top(cursors)) == []
    ensures Visible(log, cursors, pair, from, next) == Visible(log[..i], cursors[..i], pair, from, Top(cursors))
  {
    if next == from {
      NoneAbove(log, cursors, pair, from, next);
    } else {
      var top := Top(cursors);
      Split(log[..i], cursors[..i], pair, from, next, top);
      NoOtherPair(log[..i], cursors[..i], pair, next, top);
      StretchStays(log[..i], cursors[..i], log, cursors, pair, from, next);
    }
  }

  lemma {:induction false} NoOtherPair(log: seq<Event>, cursors: seq<nat>, pair: Uuid, lo: nat, hi: nat)
    requires |cursors| == |log| && forall k :: 0 <= k < |log| && cursors[k] > lo ==> log[k].pair != pair
    ensures Visible(log, cursors, pair, lo, hi) == []
  {
    if |log| > 0 {
      NoOtherPair(log[..|log| - 1], cursors[..|log| - 1], pair, lo, hi);
    }
  }

  /** At most one session is due, so a set of due sessions has one element. */
  lemma OnlyDue(db: Core, pair: Uuid, id: Uuid, now: Time, ids: set<Uuid>)
    requires OneActive(db) && id in ids && forall other :: other in ids ==> IsDue(db.sessions, pair, other, now)
    ensures ids == {id} && Sweep(db, pair, now) == SweepOne(db, id, now)
  {
    SweepIs(db, pair, now, id);
    forall other | other in ids ensures other == id {
      OneDue(db, pair, id, other, now, now);
    }
  }

  lemma DueIds(db: Core, pair: Uuid, now: Time, stale: set<Uuid>, elapsed: set<Uuid>)
    requires stale == set id | id in db.sessions && db.sessions[id].pair == pair && Stale(db.sessions[id], now)
    requires elapsed == set id | id in db.sessions && db.sessions[id].pair == pair && Elapsed(db.sessions[id], now)
    ensures stale == {} && elapsed == {} ==> Sweep(db, pair, now) == db
  {
    if id :| IsDue(db.sessions, pair, id, now) {
      assert id in stale || id in elapsed;
    }
  }

  lemma SweepKeepsShape(db: Core, pair: Uuid, now: Time)
    requires TablesAgree(db) && OneActive(db)
    ensures TablesAgree(Sweep(db, pair, now)) && OneActive(Sweep(db, pair, now))
  {
    var db' := Sweep(db, pair, now);
    forall p, a, b | IsActiveOf(db'.sessions, p, a) && IsActiveOf(db'.sessions, p, b) ensures a == b {
      assert IsActiveOf(db.sessions, p, a) && IsActiveOf(db.sessions, p, b);
    }
  }
}
