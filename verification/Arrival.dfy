/** From a tap on the phone to the row that the server keeps: offline sessions, and commands on sessions it shares. */
module Arrival {
  import opened Domain
  import opened Timeline
  import opened Tables
  import opened StoreInvariant
  import opened SyncMessages
  import opened Effects
  import opened SyncEffects
  import opened Offline

  /** Whatever is paused and resumed, an offline session keeps its start, its starter and its origin. */
  lemma {:induction false} MovesKeepStart(row: Row, moves: seq<Move>)
    requires OfflineMoves(moves)
    ensures var after := OfflineRun(row, moves);
            after.startedAt == row.startedAt && after.startedBy == row.startedBy && after.pair == row.pair &&
            after.offlineOrigin == row.offlineOrigin
  {
    if |moves| > 0 {
      MovesKeepStart(row, moves[..|moves| - 1]);
    }
  }

  /** The command that completing an offline session of a pair queues. */
  function ImportOf(session: FocusSession, commandId: Uuid, done: Time): SyncMessages.Command {
    var body := SoloBody(session.row.startedAt, done);
    Queued(map[], session, commandId, ImportCommand, false, body, done)[commandId].command
  }

  /**
   An offline session that was started, paused and resumed at any times, and then completed: whenever its import
   is first served, it is applied if and only if the account is still in the pair, the server does not have the
   session, and the times are in bounds. Then the row at the server has the start and the completion time of the
   row on the phone.
   */
  lemma CompletedOfflineArrives(db: Core, t: Time, who: Identity, session: FocusSession, start: Row, moves: seq<Move>,
                                commandId: Uuid, done: Time, freshSid: Uuid, freshId: Uuid, now: Time)
    requires Inv(db, t) && t <= now && (who.account, commandId) !in db.keys && commandId != NIL && session.id != NIL
    requires OfflineMoves(moves) && session.row == OfflineRun(start, moves)
    ensures var (db', r) := Serve(db, who, ImportOf(session, commandId, done), freshSid, freshId, now);
            var local := OfflineStep(session.row, Action.Complete, done);
            r.Some? && local.startedAt == start.startedAt && local.completedAt == Some(done) &&
            (r.value.Applied? <==>
               Belongs(db, who) && session.id !in db.sessions && InBounds(start.startedAt, done, now)) &&
            (r.value.Applied? ==>
               session.id in db'.sessions && db'.sessions[session.id].startedAt == local.startedAt &&
               db'.sessions[session.id].completedAt == local.completedAt &&
               db'.sessions[session.id].endsAt == done && db'.sessions[session.id].state == local.state == Completed &&
               db'.sessions[session.id].startedBy == who.account)
  {
    MovesKeepStart(start, moves);
    var command := ImportOf(session, commandId, done);
    var (db', r) := Serve(db, who, command, freshSid, freshId, now);
    assert command.body == SoloBody(start.startedAt, done) && command.entity == Some(session.id) &&
           command.kind == ImportCommand && command.id == commandId;
    assert OfflineStep(session.row, Action.Complete, done).startedAt == start.startedAt;
    hide Inv, OfflineRun, ImportOf, Serve;
    ServeMeans(db, t, who, command, freshSid, freshId, now, db', r);
    ServedImport(db, who, command, freshSid, freshId, now, db', r);
  }

  lemma ServedImport(db: Core, who: Identity, command: SyncMessages.Command, freshSid: Uuid, freshId: Uuid, now: Time,
                     db': Core, r: Option<Result>)
    requires ServedAs(db, who, command, freshSid, freshId, now, db', r)
    requires command.id != NIL && command.kind == ImportCommand && command.body.SoloBody?
    requires command.entity.Some? && command.entity.value != NIL
    ensures var sid, startedAt, done := command.entity.value, command.body.startedAt, command.body.completedAt;
            r.Some? &&
            (r.value.Applied? <==> Belongs(db, who) && sid !in db.sessions && InBounds(startedAt, done, now)) &&
            (r.value.Applied? ==>
               sid in db'.sessions && db'.sessions[sid].startedAt == startedAt && db'.sessions[sid].endsAt == done &&
               db'.sessions[sid].completedAt == Some(done) && db'.sessions[sid].state.Completed? &&
               db'.sessions[sid].startedBy == who.account)
  {
    assert forall code :: !FieldsFail(command, code);
    hide FieldsFail, OtherSessionsSame;
    var answer :| CommandDoes(db, who, command, freshSid, freshId, now, db', answer) && Reports(command.id, answer, r);
    var sid, startedAt, done := command.entity.value, command.body.startedAt, command.body.completedAt;
    assert ImportDoes(db, who, command.id, sid, startedAt, done, now, db', answer);
  }

  /** The command that pausing, resuming, completing or cancelling a session of the server queues. */
  function ActOf(session: FocusSession, commandId: Uuid, action: Action, at: Time): SyncMessages.Command {
    Queued(map[], session, commandId, ActCommand(action), true, OtherBody, at)[commandId].command
  }

  /**
   A tap on a session that phone and server agree on: when its command is first served while they still do, it
   is applied if and only if the account is in the pair and the row shown permits the action; and then the row at
   the server is the one shown, moved by the action.
   */
  lemma TapArrives(db: Core, t: Time, who: Identity, session: FocusSession, action: Action, commandId: Uuid, at: Time,
                   freshSid: Uuid, freshId: Uuid, now: Time)
    requires Inv(db, t) && t <= now && (who.account, commandId) !in db.keys && commandId != NIL
    requires session.id in db.sessions && db.sessions[session.id] == session.row && !action.Expire?
    ensures var (db', r) := Serve(db, who, ActOf(session, commandId, action, at), freshSid, freshId, now);
            r.Some? &&
            (r.value.Applied? <==>
               Belongs(db, who) && session.row.pair == who.pair.value &&
               Permits(session.row, action, who.account, now)) &&
            (r.value.Applied? ==>
               session.id in db'.sessions && Moved(session.row, db'.sessions[session.id], action, now))
  {
    var command := ActOf(session, commandId, action, at);
    var (db', r) := Serve(db, who, command, freshSid, freshId, now);
    assert command.entity == Some(session.id) && command.kind == ActCommand(action) && command.id == commandId &&
           command.expected == Some(session.row.version);
    StoredShape(db, t, session.id);
    LastStamp(db, t, session.id);
    ChainShape(History(db.log, session.id));
    assert session.row.version >= 1;
    hide *;
    ServeMeans(db, t, who, command, freshSid, freshId, now, db', r);
    ServedAct(db, who, command, action, freshSid, freshId, now, db', r);
  }

  lemma ServedAct(db: Core, who: Identity, command: SyncMessages.Command, action: Action, freshSid: Uuid, freshId: Uuid,
                  now: Time, db': Core, r: Option<Result>)
    requires ServedAs(db, who, command, freshSid, freshId, now, db', r)
    requires command.id != NIL && command.kind == ActCommand(action) && !action.Expire?
    requires command.entity.Some? && command.expected.Some? && command.expected.value >= 1
    requires command.entity.value in db.sessions && db.sessions[command.entity.value].version == command.expected.value
    ensures var sid := command.entity.value; var row := db.sessions[sid];
            r.Some? &&
            (r.value.Applied? <==>
               Belongs(db, who) && row.pair == who.pair.value && Permits(row, action, who.account, now)) &&
            (r.value.Applied? ==> sid in db'.sessions && Moved(row, db'.sessions[sid], action, now))
  {
    assert forall code :: !FieldsFail(command, code);
    hide FieldsFail, OtherSessionsSame, Permits, Moved;
    var answer :| CommandDoes(db, who, command, freshSid, freshId, now, db', answer) && Reports(command.id, answer, r);
    var sid := command.entity.value;
    assert TransitionDoes(db, who, command.id, sid, command.expected.value, action, now, db', answer);
  }
}
