/** The phone: its local database, and the sync engine that carries the protocol out on it. */
module Phone {
  import opened Domain
  import opened Timeline
  import opened Tables
  import opened Reducer
  import opened StoreInvariant
  import opened StoreRuns
  import opened Paging
  import opened SyncMessages
  import opened SyncProtocol
  import opened SyncSteps
  import opened SyncTheorems
  import opened Pacing
  import opened SyncRefinement
  import SyncHandler
  import ClockSkew

  class AppDatabase {
    var localSessions: Local
    var outbox: Outbox
    var cursor: nat
    /** In milliseconds. */
    var serverOffset: int

    constructor ()
      ensures State() == Client(map[], map[], 0) && serverOffset == 0
    {
      localSessions, outbox, cursor, serverOffset := map[], map[], 0, 0;
    }

    function State(): Client
      reads this
    {
      Client(localSessions, outbox, cursor)
    }

    method UpsertSession(session: FocusSession)
      modifies this`localSessions
      ensures localSessions == Upsert(old(localSessions), session)
    {
      localSessions := localSessions[session.id := session];
    }

    method DeleteSession(id: Uuid)
      modifies this`localSessions
      ensures localSessions == old(localSessions) - {id}
    {
      localSessions := localSessions - {id};
    }

    method Enqueue(command: Command, createdAt: Time)
      modifies this`outbox
      ensures outbox == old(outbox)[command.id := Entry(command, createdAt, 0, None)]
    {
      outbox := outbox[command.id := Entry(command, createdAt, 0, None)];
    }

    method RemoveCommand(id: Uuid)
      modifies this`outbox
      ensures outbox == old(outbox) - {id}
    {
      outbox := outbox - {id};
    }

    method MarkCommandFailed(id: Uuid, now: Time)
      modifies this`outbox
      ensures outbox == MarkFailed(old(outbox), id, now)
    {
      if id in outbox {
        var e := outbox[id];
        outbox := outbox[id := e.(attempts := e.attempts + 1, retryAt := Some(now + 5 * SECOND))];
      }
    }

    /** The oldest eligible commands: each turn takes the oldest one that is left. */
    method PendingCommands(limit: nat, now: Time) returns (batch: seq<Command>)
      requires forall id :: id in outbox ==> outbox[id].command.id == id
      ensures IsPending(outbox, now, limit, batch)
    {
      var all := set id | id in outbox && Eligible(outbox[id], now);
      var left, ids := all, [];
      while left != {} && |ids| < limit
        invariant |ids| <= limit && left <= all
        invariant forall i :: 0 <= i < |ids| ==> ids[i] in all && ids[i] !in left
        invariant forall id :: id in all ==> id in left || id in ids
        invariant forall i, j :: 0 <= i < j < |ids| ==>
                    ids[i] != ids[j] && outbox[ids[i]].createdAt <= outbox[ids[j]].createdAt
        invariant forall i, id :: 0 <= i < |ids| && id in left ==> outbox[ids[i]].createdAt <= outbox[id].createdAt
        decreases left
      {
        var oldest := Oldest(left);
        ids := ids + [oldest];
        left := left - {oldest};
      }
      batch := seq(|ids|, i requires 0 <= i < |ids| && ids[i] in outbox reads this => outbox[ids[i]].command);
      CommandsPending(outbox, now, limit, ids, batch);
    }

    method Oldest(ids: set<Uuid>) returns (oldest: Uuid)
      requires ids != {} && forall id :: id in ids ==> id in outbox
      ensures oldest in ids && forall id :: id in ids ==> outbox[oldest].createdAt <= outbox[id].createdAt
    {
      oldest :| oldest in ids;
      var left := ids - {oldest};
      while left != {}
        invariant oldest in ids && left <= ids
        invariant forall id :: id in ids && id !in left ==> outbox[oldest].createdAt <= outbox[id].createdAt
        decreases left
      {
        var id :| id in left;
        if outbox[id].createdAt < outbox[oldest].createdAt { oldest := id; }
        left := left - {id};
      }
    }
  }

  class SyncEngine {
    const database: AppDatabase
    /** Server time minus phone time, as of the last reply. */
    var serverOffset: Time

    constructor (database: AppDatabase)
      ensures this.database == database && serverOffset == 0
    {
      this.database := database;
      serverOffset := 0;
    }

    /** Reads back the stored offset after a restart. */
    method Initialize()
      modifies this`serverOffset
      ensures serverOffset == database.serverOffset * ClockSkew.MILLISECOND
    {
      serverOffset := database.serverOffset * ClockSkew.MILLISECOND;
    }

    /** Sets the offset from one reply, and stores it in whole milliseconds. */
    method Observe(sentAt: Time, receivedAt: Time, serverTime: Time)
      modifies this`serverOffset, database`serverOffset
      ensures serverOffset == ClockSkew.MeasuredOffset(sentAt, receivedAt, serverTime)
      ensures database.serverOffset * ClockSkew.MILLISECOND == ClockSkew.PersistedOffset(serverOffset)
    {
      var midpoint := sentAt + ClockSkew.Truncated(receivedAt - sentAt, 2);
      serverOffset := serverTime - midpoint;
      database.serverOffset := ClockSkew.Truncated(serverOffset, ClockSkew.MILLISECOND);
    }

    method ApplyOneEvent(e: Event)
      modifies database`localSessions
      ensures database.localSessions == ApplyEvent(old(database.localSessions), e)
    {
      if e.payload.SessionData? {
        database.UpsertSession(e.payload.session);
      } else if e.etype.NoteAdded? && e.payload.NoteData? {
        if e.entity in database.localSessions {
          var existing := database.localSessions[e.entity];
          database.UpsertSession(existing.(notes := existing.notes + [e.payload.note]));
        }
      }
    }

    method ApplyOneResult(result: Result, now: Time)
      modifies database`localSessions, database`outbox
      ensures database.State() == ApplyResult(old(database.State()), result, now)
    {
      match result
      case Applied(id, resource) =>
        if resource.SessionResponse? { database.UpsertSession(resource.session); }
        database.RemoveCommand(id);
      case Rejected(id, code) =>
        if code.CooldownCode? { database.MarkCommandFailed(id, now); } else { database.RemoveCommand(id); }
    }

    /** The local transaction of a sync: results, events, the current session, the cursor. */
    method ApplyReply(reply: Reply, now: Time)
      modifies database
      ensures database.State() == Receive(old(database.State()), reply, now)
      ensures database.serverOffset == old(database.serverOffset)
    {
      ghost var start := database.State();
      var i := 0;
      while i < |reply.results|
        invariant 0 <= i <= |reply.results| && database.serverOffset == old(database.serverOffset)
        invariant database.State() == ApplyResults(start, reply.results[..i], now)
      {
        assert reply.results[..i + 1][..i] == reply.results[..i];
        ApplyOneResult(reply.results[i], now);
        i := i + 1;
      }
      assert reply.results[..i] == reply.results;
      ghost var settled := database.State();
      i := 0;
      while i < |reply.events|
        invariant 0 <= i <= |reply.events| && database.serverOffset == old(database.serverOffset)
        invariant database.State() == settled.(local := Fold(settled.local, reply.events[..i]))
      {
        assert reply.events[..i + 1][..i] == reply.events[..i];
        ApplyOneEvent(reply.events[i]);
        i := i + 1;
      }
      assert reply.events[..i] == reply.events;
      if reply.current.Some? { database.UpsertSession(reply.current.value); }
      database.cursor := reply.next;
    }

    /** Phone and server are in the state that the protocol says, between two requests. */
    ghost predicate Mirrors(api: SyncHandler.Api, w: World)
      reads this, database, api, api.store
    {
      Good(w) && w.phase.Idle? && database.State() == w.client &&
      api.store.Valid() && api.store.Db() == w.core && api.store.cursors == w.cursors && w.clock <= api.store.clock
    }

    /** The pending commands go out with the cursor, and a reply is applied; a failure changes nothing here. */
    method Exchange(api: SyncHandler.Api, who: Identity, drawn: seq<(Uuid, Uuid)>, device: Time, now: Time)
        returns (batch: seq<Command>, reply: Option<Reply>)
      requires api.store.Valid() && api.store.clock <= now && |drawn| >= BATCH
      requires forall id :: id in database.outbox ==> database.outbox[id].command.id == id
      modifies database, api.store
      ensures api.store.Valid() && api.store.clock == now && old(api.store.cursors) <= api.store.cursors
      ensures IsBatch(old(database.outbox), device, batch) && |batch| <= BATCH
      ensures var (served, results) := ServeAll(old(api.store.Db()), who, batch, drawn[..|batch|], now);
              if reply.None? then results.None? && api.store.Db() == served
              else Some(reply.value.results) == results &&
                   SyncHandler.Answers(served, api.store.Db(), api.store.cursors, who, old(database.cursor), PAGE, now,
                                       reply.value)
      ensures database.State() ==
              if reply.None? then old(database.State()) else Receive(old(database.State()), reply.value, device)
    {
      hide IsPending, ServeAll, SyncHandler.Answers, Receive;
      batch := database.PendingCommands(BATCH, device);
      BatchBound(database.outbox, device, batch);
      var response := api.Sync(who, database.cursor, PAGE, batch, drawn[..|batch|], now);
      match response
      case Sent(sent) =>
        ApplyReply(sent, device);
        reply := Some(sent);
      case Unavailable =>
        reply := None;
      case Invalid =>
        assert false;
    }

    /** One uninterrupted request is a run of the protocol. It fails only if some waiting note holds NUL. */
    method RoundTripOnce(api: SyncHandler.Api, who: Identity, drawn: seq<(Uuid, Uuid)>, device: Time, now: Time,
                         ghost w: World) returns (reply: Option<Reply>, ghost w': World)
      requires Mirrors(api, w) && who == Me(w) && w.device <= device && api.store.clock <= now && |drawn| >= BATCH
      modifies database, api.store
      ensures Mirrors(api, w') && w'.account == w.account && w'.pair == w.pair && w'.device == device
      ensures api.store.clock == now && |w.cursors| == |w.core.log| && |w'.cursors| == |w'.core.log|
      ensures reply.None? ==> !Clean(w.client.outbox) && database.State() == old(database.State())
      ensures reply.Some? ==> database.State() == Receive(old(database.State()), reply.value, device)
      ensures KeepsEntries(w.client.outbox, w'.client.outbox)
      ensures Calm(w) && Front(w) ==>
                Calm(w') && (reply.Some? ==> Front(w') && (!reply.value.hasMore ==> Converged(w')))
      ensures reply.Some? && reply.value.hasMore ==> Progress(w, w')
    {
      GoodServer(w);
      hide Good, IsPending, ServeAll, SyncHandler.Answers, Receive, Inv, Covers, Progress, Converged, Calm, Front,
           ServerOk, Clean;
      var batch;
      batch, reply := Exchange(api, who, drawn, device, now);
      if reply.Some? {
        w' := RoundTripFull(w, batch, drawn[..|batch|], device, now, api.store.Db(), api.store.cursors, reply.value);
      } else {
        if Front(w) { FrontCovers(w, batch, device); }
        w' := FailedTrip(w, batch, drawn[..|batch|], device, now, api.store.Db(), api.store.cursors);
        NotClean(w.client.outbox, device, batch);
        GoodServer(w');
      }
    }

    /**
     A whole sync on an uninterrupted server: page after page until one is not full, until a refusal that the
     caller wants to hear of, or until a request fails. Both clocks move on between pages as they like. The
     sync ends; and from a calm state with all committed commands in front it ends, unless early, in agreement.
     */
    method PerformSync(api: SyncHandler.Api, who: Identity, drawn: seq<(Uuid, Uuid)>, throwOnError: bool,
                       device: Time, now: Time, ghost w: World) returns (end: SyncEnd, ghost w': World)
      requires Mirrors(api, w) && who == Me(w) && w.device <= device && api.store.clock <= now && |drawn| >= BATCH
      requires |w.cursors| == |w.core.log|
      modifies database, api.store
      ensures Mirrors(api, w') && w'.account == w.account && w'.pair == w.pair
      ensures (end.RefusedWith? ==> throwOnError) && (Clean(w.client.outbox) ==> !end.ServerFailed?)
      ensures Calm(w) && Front(w) ==> Calm(w') && (end.Finished? ==> Converged(w'))
      decreases |w.client.outbox|, ActiveCount(w.core, w.pair), |Past(w.core.log, w.cursors, w.pair, w.client.cursor)|
    {
      var reply;
      reply, w' := RoundTripOnce(api, who, drawn, device, now, w);
      hide Good, Inv, Converged, Calm, Front, Receive, HoldsNul;
      if reply.None? { return ServerFailed, w'; }
      if throwOnError && FirstRefusal(reply.value.results).Some? {
        return RefusedWith(FirstRefusal(reply.value.results).value), w';
      }
      end := Finished;
      if reply.value.hasMore {
        var onPhone: nat, onServer: nat := *, *;
        end, w' := PerformSync(api, who, drawn, throwOnError, device + onPhone, now + onServer, w');
      }
    }
  }

  /** How a sync ends: with the last page, with the first refusal among the results, or with a failed request. */
  datatype SyncEnd = Finished | RefusedWith(code: Code) | ServerFailed

  /** No waiting note has a text that the server cannot store. */
  ghost predicate Clean(outbox: Outbox) {
    forall id :: id in outbox ==> !HoldsNul(outbox[id].command)
  }

  lemma NotClean(outbox: Outbox, now: Time, batch: seq<Command>)
    requires IsBatch(outbox, now, batch) && exists i :: 0 <= i < |batch| && HoldsNul(batch[i])
    ensures !Clean(outbox)
  {
  }

  /** The first error among the results. */
  function FirstRefusal(results: seq<Result>): Option<Code> {
    if |results| == 0 then None
    else if results[0].Rejected? then Some(results[0].code)
    else FirstRefusal(results[1..])
  }

  /** Identifiers of the oldest eligible entries, read as commands, are a batch. */
  lemma CommandsPending(outbox: Outbox, now: Time, limit: nat, ids: seq<Uuid>, batch: seq<Command>)
    requires |batch| == |ids| <= limit && forall id :: id in outbox ==> outbox[id].command.id == id
    requires forall i :: 0 <= i < |ids| ==>
               ids[i] in outbox && Eligible(outbox[ids[i]], now) && batch[i] == outbox[ids[i]].command
    requires forall i, j :: 0 <= i < j < |ids| ==>
               ids[i] != ids[j] && outbox[ids[i]].createdAt <= outbox[ids[j]].createdAt
    requires forall id :: id in outbox && Eligible(outbox[id], now) && id !in ids ==>
               |ids| == limit && forall i :: 0 <= i < |ids| ==> outbox[ids[i]].createdAt <= outbox[id].createdAt
    ensures IsPending(outbox, now, limit, batch)
  {
    assert forall i :: 0 <= i < |ids| ==> batch[i].id == ids[i];
    forall id | id in ids ensures InBatch(batch, id) {
      var i :| 0 <= i < |ids| && ids[i] == id;
      assert batch[i].id == id;
    }
  }

  lemma BatchBound(outbox: Outbox, now: Time, batch: seq<Command>)
    requires IsPending(outbox, now, BATCH, batch)
    ensures |batch| <= BATCH
  {
  }
}
