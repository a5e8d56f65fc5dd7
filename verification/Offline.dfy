/** Offline sessions: the repository plays the server's state machine on its own until the session is complete. */
module Offline {
  import opened Domain
  import opened Timeline
  import opened Tables
  import opened Reducer
  import opened SyncMessages
  import Phone

  /** The pair identifier of an account without a partner; its sessions never leave the phone. */
  const SOLO: Uuid := NIL

  // ---------------------------------------------------------------- what the repository writes

  function PausedRow(row: Row, now: Time): Row {
    row.(state := Paused, pauseOrigin := Some(row.state), pausedAt := Some(now), version := row.version + 1)
  }

  function ResumedRow(row: Row, now: Time): Row
    requires row.pausedAt.Some?
  {
    row.(state := if row.pauseOrigin.Some? then row.pauseOrigin.value else Open, pauseOrigin := None,
         pausedAt := None, endsAt := row.endsAt + (now - row.pausedAt.value), version := row.version + 1)
  }

  function CompletedRow(row: Row, now: Time): Row {
    row.(state := Completed, completedAt := Some(now), pausedAt := None, pauseOrigin := None,
         version := row.version + 1)
  }

  /**
   The local row after a pause, resume or complete. A resume of a session that is not paused goes to the
   outbox instead.
   */
  function OfflineStep(row: Row, action: Action, now: Time): Row
    requires action.Pause? || action.Resume? || action.Complete?
  {
    match action
    case Pause => PausedRow(row, now)
    case Resume => if row.pausedAt.Some? then ResumedRow(row, now) else row
    case Complete => CompletedRow(row, now)
  }

  /** The server's answer on the same row: the new row, or the old one when it refuses. */
  function ServerStep(row: Row, action: Action, now: Time): Row {
    var r := Act(row, action, row.startedBy, now);
    if r.Some? then r.value else row
  }

  predicate Shaped(row: Row) {
    (row.pausedAt.Some? <==> row.state.Paused?) && (row.pauseOrigin.Some? <==> row.state.Paused?) &&
    (row.pauseOrigin.Some? ==> row.pauseOrigin.value.Open? || row.pauseOrigin.value.Together?)
  }

  datatype Move = Move(action: Action, at: Time)

  predicate OfflineMoves(moves: seq<Move>) {
    forall i :: 0 <= i < |moves| ==> moves[i].action.Pause? || moves[i].action.Resume? || moves[i].action.Complete?
  }

  function OfflineRun(row: Row, moves: seq<Move>): Row
    requires OfflineMoves(moves)
  {
    if |moves| == 0 then row
    else
      var n := |moves| - 1;
      OfflineStep(OfflineRun(row, moves[..n]), moves[n].action, moves[n].at)
  }

  function ServerRun(row: Row, moves: seq<Move>): Row {
    if |moves| == 0 then row
    else
      var n := |moves| - 1;
      ServerStep(ServerRun(row, moves[..n]), moves[n].action, moves[n].at)
  }

  /** A step leaves the rows equal exactly when the server accepts it, or it resumes what is not paused. */
  lemma StepAgreement(row: Row, action: Action, now: Time)
    requires Shaped(row) && (action.Pause? || action.Resume? || action.Complete?)
    ensures OfflineStep(row, action, now) == ServerStep(row, action, now) <==>
            Act(row, action, row.startedBy, now).Some? || action.Resume?
    ensures Act(row, action, row.startedBy, now).Some? ==> Shaped(OfflineStep(row, action, now))
  {
  }

  /** The server accepts the i-th move, or it is a resume, which changes nothing where it is refused. */
  predicate Harmless(row: Row, moves: seq<Move>, i: nat)
    requires i < |moves|
  {
    moves[i].action.Resume? || Act(ServerRun(row, moves[..i]), moves[i].action, row.startedBy, moves[i].at).Some?
  }

  ghost predicate AllHarmless(row: Row, moves: seq<Move>) {
    forall i :: 0 <= i < |moves| ==> Harmless(row, moves, i)
  }

  /** One more move widens the gap between the versions by one, unless it is harmless. */
  lemma GapGrows(phone: Row, server: Row, action: Action, now: Time)
    requires Shaped(server) && phone.version >= server.version && (server.state.Paused? ==> phone.pausedAt.Some?)
    requires action.Pause? || action.Resume? || action.Complete?
    ensures var phone', server' := OfflineStep(phone, action, now), ServerStep(server, action, now);
            var gap, gap' := phone.version - server.version, phone'.version - server'.version;
            Shaped(server') && gap' >= gap && server'.startedBy == server.startedBy &&
            (server'.state.Paused? ==> phone'.pausedAt.Some?) &&
            (!action.Resume? && Act(server, action, server.startedBy, now).None? ==> gap' > gap)
  {
  }

  /**
   For every sequence of calls, legal or not, the phone's row is the server's in every column if and only if
   every move is harmless; after one that is not, the phone's version stays ahead for ever.
   */
  lemma {:induction false} OfflineSimulates(row: Row, moves: seq<Move>)
    requires Shaped(row) && OfflineMoves(moves)
    ensures var phone, server := OfflineRun(row, moves), ServerRun(row, moves);
            Shaped(server) && server.startedBy == row.startedBy && phone.version >= server.version &&
            (server.state.Paused? ==> phone.pausedAt.Some?) &&
            (phone == server <==> AllHarmless(row, moves)) &&
            (phone != server <==> phone.version > server.version)
  {
    if |moves| > 0 {
      var n := |moves| - 1;
      var before := moves[..n];
      OfflineSimulates(row, before);
      HarmlessNext(row, moves);
      var phone, server := OfflineRun(row, before), ServerRun(row, before);
      hide OfflineRun, ServerRun, AllHarmless;
      GapGrows(phone, server, moves[n].action, moves[n].at);
      if phone == server {
        StepAgreement(server, moves[n].action, moves[n].at);
      }
      StepsOf(row, moves);
    }
  }

  lemma HarmlessNext(row: Row, moves: seq<Move>)
    requires |moves| > 0
    ensures var n := |moves| - 1;
            AllHarmless(row, moves) <==>
            AllHarmless(row, moves[..n]) &&
            (moves[n].action.Resume? ||
             Act(ServerRun(row, moves[..n]), moves[n].action, row.startedBy, moves[n].at).Some?)
  {
    var n := |moves| - 1;
    hide ServerRun, Act;
    forall i | 0 <= i < n ensures Harmless(row, moves[..n], i) == Harmless(row, moves, i) {
      assert moves[..n][..i] == moves[..i];
    }
    assert Harmless(row, moves, n) ==
           (moves[n].action.Resume? ||
            Act(ServerRun(row, moves[..n]), moves[n].action, row.startedBy, moves[n].at).Some?);
  }

  lemma StepsOf(row: Row, moves: seq<Move>)
    requires OfflineMoves(moves) && |moves| > 0
    ensures var n := |moves| - 1;
            OfflineRun(row, moves) == OfflineStep(OfflineRun(row, moves[..n]), moves[n].action, moves[n].at) &&
            ServerRun(row, moves) == ServerStep(ServerRun(row, moves[..n]), moves[n].action, moves[n].at)
  {
  }

  /**
   An illegal sequence can end in another row: pausing twice, where the server keeps the first pause, is
   refused there but forgets the origin here, so that the session can never run again. The focus screen
   offers no pause of a paused session, so only the repository's own interface lets this through.
   */
  lemma PausingTwiceDiffers(start: Time)
    ensures var moves := [Move(Pause, start + 1), Move(Pause, start + 2)]; var row := Opened(9, 1, start);
            OfflineMoves(moves) && OfflineRun(row, moves) != ServerRun(row, moves) &&
            OfflineRun(row, moves).pauseOrigin == Some(Paused)
  {
    var moves := [Move(Pause, start + 1), Move(Pause, start + 2)];
    assert moves[..1] == [Move(Pause, start + 1)] && moves[..1][..0] == [];
    var row := Opened(9, 1, start);
    assert OfflineRun(row, moves[..1]) == PausedRow(row, start + 1);
    assert ServerRun(row, moves[..1]) == PausedRow(row, start + 1);
  }

  // ---------------------------------------------------------------- the repository

  /** The outbox after a command about a session is queued. */
  function Queued(outbox: Outbox, session: FocusSession, id: Uuid, kind: CommandKind, versioned: bool, body: Body,
                  now: Time): Outbox {
    var expected := if versioned then Some(session.row.version) else None;
    outbox[id := Entry(SyncMessages.Command(id, kind, Some(session.id), expected, body), now, 0, None)]
  }

  class SessionRepository {
    const database: Phone.AppDatabase

    constructor (database: Phone.AppDatabase)
      ensures this.database == database
    {
      this.database := database;
    }

    /** Starting without a partner, or without a network: only the local row is written. */
    method StartOffline(account: Uuid, pair: Uuid, sid: Uuid, now: Time) returns (session: FocusSession)
      modifies database`localSessions
      ensures session.row == Opened(pair, account, now).(offlineOrigin := true)
      ensures session.members == [Participant(account, now)]
      ensures database.localSessions == Upsert(old(database.localSessions), session)
    {
      var row := Row(pair, account, Open, None, now, now + 25 * MINUTE, None, None, None, 1, true);
      session := FocusSession(sid, row, [Participant(account, now)], []);
      database.UpsertSession(session);
    }

    method Command(session: FocusSession, id: Uuid, kind: CommandKind, versioned: bool, body: Body, now: Time)
      modifies database`outbox
      ensures database.outbox == Queued(old(database.outbox), session, id, kind, versioned, body, now)
    {
      database.Enqueue(SyncMessages.Command(id, kind, Some(session.id),
                                            if versioned then Some(session.row.version) else None, body), now);
    }

    method Pause(session: FocusSession, commandId: Uuid, now: Time)
      modifies database`localSessions, database`outbox
      ensures session.row.offlineOrigin ==>
                database.outbox == old(database.outbox) &&
                database.localSessions ==
                Upsert(old(database.localSessions), session.(row := OfflineStep(session.row, Action.Pause, now)))
      ensures !session.row.offlineOrigin ==>
                database.localSessions == old(database.localSessions) &&
                database.outbox ==
                Queued(old(database.outbox), session, commandId, ActCommand(Action.Pause), true, OtherBody, now)
    {
      if session.row.offlineOrigin {
        var row := session.row;
        database.UpsertSession(session.(row := row.(state := Paused, pauseOrigin := Some(row.state),
                                                    pausedAt := Some(now), version := row.version + 1)));
        return;
      }
      Command(session, commandId, ActCommand(Action.Pause), true, OtherBody, now);
    }

    method Resume(session: FocusSession, commandId: Uuid, now: Time)
      modifies database`localSessions, database`outbox
      ensures session.row.offlineOrigin && session.row.pausedAt.Some? ==>
                database.outbox == old(database.outbox) &&
                database.localSessions ==
                Upsert(old(database.localSessions), session.(row := OfflineStep(session.row, Action.Resume, now)))
      ensures !(session.row.offlineOrigin && session.row.pausedAt.Some?) ==>
                database.localSessions == old(database.localSessions) &&
                database.outbox ==
                Queued(old(database.outbox), session, commandId, ActCommand(Action.Resume), true, OtherBody, now)
    {
      if session.row.offlineOrigin && session.row.pausedAt.Some? {
        var row := session.row;
        database.UpsertSession(
          session.(row := row.(state := if row.pauseOrigin.Some? then row.pauseOrigin.value else Open,
                               pauseOrigin := None, pausedAt := None,
                               endsAt := row.endsAt + (now - row.pausedAt.value), version := row.version + 1)));
        return;
      }
      Command(session, commandId, ActCommand(Action.Resume), true, OtherBody, now);
    }

    /** Completing an offline session of a pair also queues its import. */
    method Complete(session: FocusSession, commandId: Uuid, now: Time)
      modifies database`localSessions, database`outbox
      ensures session.row.offlineOrigin ==>
                database.localSessions ==
                Upsert(old(database.localSessions), session.(row := OfflineStep(session.row, Action.Complete, now)))
      ensures session.row.offlineOrigin && session.row.pair == SOLO ==> database.outbox == old(database.outbox)
      ensures session.row.offlineOrigin && session.row.pair != SOLO ==>
                database.outbox ==
                Queued(old(database.outbox), session, commandId, ImportCommand, false,
                       SoloBody(session.row.startedAt, now), now)
      ensures !session.row.offlineOrigin ==>
                database.localSessions == old(database.localSessions) &&
                database.outbox ==
                Queued(old(database.outbox), session, commandId, ActCommand(Action.Complete), true, OtherBody, now)
    {
      if session.row.offlineOrigin {
        var row := session.row;
        database.UpsertSession(session.(row := row.(state := Completed, completedAt := Some(now), pausedAt := None,
                                                    pauseOrigin := None, version := row.version + 1)));
        if session.row.pair == SOLO { return; }
        Command(session, commandId, ImportCommand, false, SoloBody(session.row.startedAt, now), now);
        return;
      }
      Command(session, commandId, ActCommand(Action.Complete), true, OtherBody, now);
    }

    method Cancel(session: FocusSession, commandId: Uuid, now: Time)
      modifies database`localSessions, database`outbox
      ensures session.row.offlineOrigin ==>
                database.outbox == old(database.outbox) &&
                database.localSessions == old(database.localSessions) - {session.id}
      ensures !session.row.offlineOrigin ==>
                database.localSessions == old(database.localSessions) &&
                database.outbox ==
                Queued(old(database.outbox), session, commandId, ActCommand(Action.Cancel), true, OtherBody, now)
    {
      if session.row.offlineOrigin {
        database.DeleteSession(session.id);
        return;
      }
      Command(session, commandId, ActCommand(Action.Cancel), true, OtherBody, now);
    }
  }
}
