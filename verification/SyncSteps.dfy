/** Why every step of the protocol keeps what SyncProtocol.Good says. */
module SyncSteps {
  import opened Domain
  import opened Timeline
  import opened Tables
  import opened Reducer
  import opened StoreInvariant
  import opened StoreRuns
  import opened Paging
  import opened SyncMessages
  import opened SyncProtocol

  // ---------------------------------------------------------------- a longer log

  lemma PastKept(log: seq<Event>, cursors: seq<nat>, log': seq<Event>, cursors': seq<nat>, pair: Uuid, id: Uuid, c: nat)
    requires |cursors| == |log| && |cursors'| == |log'| && log <= log' && cursors <= cursors'
    requires SnapshotPast(log, cursors, pair, id, c)
    ensures SnapshotPast(log', cursors', pair, id, c)
  {
    var i :| 0 <= i < |log| && cursors[i] > c && log[i].pair == pair && Snapshots(log[i], id);
    assert log'[i] == log[i] && cursors'[i] == cursors[i];
  }

  lemma {:induction false} HistoryUnmoved(log: seq<Event>, log': seq<Event>, id: Uuid)
    requires log <= log' && forall i :: |log| <= i < |log'| ==> !Snapshots(log'[i], id)
    ensures History(log', id) == History(log, id)
  {
    if |log| < |log'| {
      HistoryUnmoved(log, log'[..|log'| - 1], id);
    } else {
      assert log == log';
    }
  }

  /** When the server moves on, a session has a snapshot past every old cursor, or its row is unchanged. */
  lemma RowOrPast(core: Core, t: Time, cursors: seq<nat>, core': Core, t': Time, cursors': seq<nat>,
                  pair: Uuid, id: Uuid, c: nat)
    requires Inv(core, t) && Inv(core', t') && core.log <= core'.log && cursors <= cursors'
    requires Numbered(core.log, cursors) && Numbered(core'.log, cursors') && c <= Top(cursors)
    requires id in core'.sessions && core'.sessions[id].pair == pair
    ensures SnapshotPast(core'.log, cursors', pair, id, c) ||
            (id in core.sessions && SameRow(Read(core, id), Read(core', id)))
  {
    if i :| |core.log| <= i < |core'.log| && Snapshots(core'.log[i], id) {
      assert cursors'[i] > c;
      assert core'.log[i].pair == pair;
    } else {
      HistoryUnmoved(core.log, core'.log, id);
    }
  }

  /** A new snapshot of a session at the server. */
  ghost predicate NewSnapshot(log: seq<Event>, log': seq<Event>, id: Uuid) {
    exists i :: |log| <= i < |log'| && Snapshots(log'[i], id)
  }

  lemma FreshKept(core: Core, t: Time, cursors: seq<nat>, core': Core, t': Time, cursors': seq<nat>,
                  pair: Uuid, local: Local, c: nat, id: Uuid)
    requires Inv(core, t) && Inv(core', t') && core.log <= core'.log && cursors <= cursors'
    requires Numbered(core.log, cursors) && Numbered(core'.log, cursors') && c <= Top(cursors)
    requires id in core'.sessions && core'.sessions[id].pair == pair
    requires id in core.sessions ==> Fresh(core, cursors, pair, local, c, id)
    ensures Fresh(core', cursors', pair, local, c, id)
  {
    RowOrPast(core, t, cursors, core', t', cursors', pair, id, c);
    if id in core.sessions && SnapshotPast(core.log, cursors, pair, id, c) {
      PastKept(core.log, cursors, core'.log, cursors', pair, id, c);
    }
  }

  /** The pair of a session never changes. */
  lemma PairKept(core: Core, t: Time, core': Core, t': Time, id: Uuid)
    requires Inv(core, t) && Inv(core', t') && core.log <= core'.log && id in core.sessions
    ensures id in core'.sessions && core'.sessions[id].pair == core.sessions[id].pair
  {
    HistoryGrows(core.log, core'.log, id);
    ChainShape(History(core.log, id));
    if id in core'.sessions { ChainShape(History(core'.log, id)); }
  }

  // ---------------------------------------------------------------- a transaction

  lemma SameLength(w: World)
    requires ServerOk(w)
    ensures |w.cursors| == |w.core.log| && Numbered(w.core.log, w.cursors)
  {
    hide Inv, KeysLogged, Top;
  }

  lemma GoodServer(w: World)
    requires Good(w)
    ensures ServerOk(w) && Inv(w.core, w.clock) && Numbered(w.core.log, w.cursors) && |w.cursors| == |w.core.log|
    ensures Keyed(w.client.local) && OutboxOk(w) && FatesOk(w) && PhaseOk(w)
    ensures forall id :: id in w.client.outbox ==> w.client.outbox[id].command.id == id
  {
    hide Inv, KeysLogged, Top, FatesOk, PhaseOk;
  }

  lemma TransactServer(w: World, w': World, call: Call, now: Time)
    requires ServerOk(w) && Transact(w, w', call, now) && w'.client.cursor == w.client.cursor
    ensures ServerOk(w') && w.core.log <= w'.core.log
    ensures var answer := Execute(w.core, call, now).1;
            if answer.Ok? && !answer.replayed
            then call.Keyed() && call.KeyOf() !in w.core.keys &&
                 w'.core.keys == w.core.keys[call.KeyOf() := KeyRow(call.OpOf(), answer.response, now + KEY_WINDOW)]
            else w'.core.keys == w.core.keys
  {
    hide Inv, Execute;
    ExecuteKeepsInv(w.core, w.clock, call, now);
    LogGrows(w.core, call, now);
    CommitsStoreKeys(w.core, call, now);
    ExecuteKeepsLogged(w.core, call, now);
    TopGrows(w.core.log, w.cursors, w'.core.log, w'.cursors);
    hide Numbered, Top;
    if Execute(w.core, call, now).1.Ok? && !Execute(w.core, call, now).1.replayed {
      CountsStay(w.core.keys, w.commits, call.KeyOf(), w'.core.keys[call.KeyOf()]);
    }
  }

  lemma TopGrows(log: seq<Event>, cursors: seq<nat>, log': seq<Event>, cursors': seq<nat>)
    requires Numbered(log, cursors) && Numbered(log', cursors') && cursors <= cursors'
    ensures Top(cursors) <= Top(cursors')
  {
  }

  /** Every key in the table has taken effect once, every other never; one more commit keeps that. */
  lemma CountsStay(keys: map<(Uuid, Uuid), KeyRow>, commits: multiset<(Uuid, Uuid)>, key: (Uuid, Uuid), row: KeyRow)
    requires key !in keys && forall k :: commits[k] == if k in keys then 1 else 0
    ensures forall k :: (commits + multiset{key})[k] == if k in keys[key := row] then 1 else 0
  {
  }

  lemma AheadKept(w: World, w': World, response: Response)
    requires |w.cursors| == |w.core.log| && |w'.cursors| == |w'.core.log|
    requires w.core.log <= w'.core.log && w.cursors <= w'.cursors
    requires w'.client.cursor == w.client.cursor && w'.pair == w.pair && Ahead(w, response)
    ensures Ahead(w', response)
  {
    if response.SessionResponse? {
      PastKept(w.core.log, w.cursors, w'.core.log, w'.cursors, w.pair, response.session.id, w.client.cursor);
    }
  }

  /** The keys of this phone's commands are unchanged: everything said about them still holds. */
  lemma OutboxKept(w: World, w': World)
    requires |w.cursors| == |w.core.log| && |w'.cursors| == |w'.core.log| && OutboxOk(w)
    requires w.core.log <= w'.core.log && w.cursors <= w'.cursors && w.clock <= w'.clock && w.device <= w'.device
    requires w'.client.outbox == w.client.outbox && w'.client.cursor == w.client.cursor
    requires w'.pair == w.pair && w'.account == w.account && w.missed <= w'.missed && w.lapsed <= w'.lapsed
    requires forall id :: id in w.client.outbox && Mine(w, id) in w'.core.keys ==>
               Mine(w, id) in w.core.keys && w'.core.keys[Mine(w, id)] == w.core.keys[Mine(w, id)]
    ensures OutboxOk(w')
  {
    forall id | id in w.client.outbox && Mine(w, id) in w'.core.keys
      ensures Explains(w', w.client.outbox[id].command, w'.core.keys[Mine(w, id)])
      ensures id !in w'.missed + w'.lapsed ==> Ahead(w', w'.core.keys[Mine(w, id)].response)
    {
      if id !in w'.missed + w'.lapsed {
        AheadKept(w, w', w.core.keys[Mine(w, id)].response);
      }
    }
  }

  ghost predicate KeySame(w: World, w': World, id: Uuid) {
    (Mine(w, id) in w'.core.keys <==> Mine(w, id) in w.core.keys) &&
    (Mine(w, id) in w.core.keys ==> w'.core.keys[Mine(w, id)] == w.core.keys[Mine(w, id)])
  }

  lemma ResultsKept(w: World, w': World, batch: seq<Command>, results: seq<Result>)
    requires |w.cursors| == |w.core.log| && |w'.cursors| == |w'.core.log| && ResultsOk(w, batch, results)
    requires w.core.log <= w'.core.log && w.cursors <= w'.cursors
    requires w'.client.cursor == w.client.cursor && w'.pair == w.pair && w'.account == w.account
    requires w.missed <= w'.missed && w.denied <= w'.denied && w.lapsed <= w'.lapsed
    requires forall i :: 0 <= i < |results| ==> KeySame(w, w', results[i].id)
    ensures ResultsOk(w', batch, results)
  {
    forall i | 0 <= i < |results| && results[i].Applied?
      ensures results[i].id !in w'.missed ==> Ahead(w', results[i].resource)
      ensures results[i].resource.SessionResponse? ==> Logged(w'.core.log, results[i].resource.session)
    {
      if results[i].id !in w'.missed {
        AheadKept(w, w', results[i].resource);
      }
      if results[i].resource.SessionResponse? {
        LoggedKept(w.core.log, w'.core.log, results[i].resource.session);
      }
    }
  }

  lemma OfPairKept(w: World, w': World, current: Option<FocusSession>)
    requires ServerOk(w) && ServerOk(w') && w.core.log <= w'.core.log && w'.pair == w.pair && OfPair(w, current)
    ensures OfPair(w', current)
  {
    if current.Some? {
      PairKept(w.core, w.clock, w'.core, w'.clock, current.value.id);
      LoggedKept(w.core.log, w'.core.log, current.value);
    }
  }

  lemma ReplyCurrentKept(w: World, w': World, fs: FocusSession, next: nat)
    requires ServerOk(w) && ServerOk(w') && w.core.log <= w'.core.log && w.cursors <= w'.cursors
    requires w'.pair == w.pair && next <= Top(w.cursors) && OfPair(w, Some(fs))
    requires Fresh(w.core, w.cursors, w.pair, map[fs.id := fs], next, fs.id)
    ensures Fresh(w'.core, w'.cursors, w.pair, map[fs.id := fs], next, fs.id)
  {
    PairKept(w.core, w.clock, w'.core, w'.clock, fs.id);
    hide Inv;
    FreshKept(w.core, w.clock, w.cursors, w'.core, w'.clock, w'.cursors, w.pair, map[fs.id := fs], next, fs.id);
  }

  lemma ReplyKept(w: World, w': World, reply: Reply)
    requires ServerOk(w) && ServerOk(w') && w.core.log <= w'.core.log && w.cursors <= w'.cursors
    requires w'.client.cursor == w.client.cursor && w'.pair == w.pair && w'.torn == w.torn && ReplyOk(w, reply)
    ensures ReplyOk(w', reply)
  {
    hide Inv;
    OfPairKept(w, w', reply.current);
    if !w.torn && reply.current.Some? {
      ReplyCurrentKept(w, w', reply.current.value, reply.next);
    }
    hide Fresh;
    assert forall i :: |w.cursors| <= i < |w'.cursors| ==> w'.cursors[i] > reply.next;
    StretchStays(w.core.log, w.cursors, w'.core.log, w'.cursors, w.pair, w.client.cursor, reply.next);
  }

  // ---------------------------------------------------------------- the steps

  /** The keys of the commands this phone has issued are as they were. */
  ghost predicate KeysOfMineSame(w: World, w': World) {
    forall id :: id in w.fate ==> KeySame(w, w', id)
  }

  /** A step of the server that is none of this phone's business. */
  ghost predicate Aside(w: World, w': World) {
    SamePhone(w, w') && w'.phase == w.phase && SameRecord(w, w') && w.clock <= w'.clock &&
    w.core.log <= w'.core.log && w.cursors <= w'.cursors && KeysOfMineSame(w, w')
  }

  lemma AsidePhase(w: World, w': World)
    requires ServerOk(w) && ServerOk(w') && PhaseOk(w) && FatesOk(w) && Aside(w, w')
    ensures PhaseOk(w')
  {
    assert |w.cursors| == |w.core.log| && |w'.cursors| == |w'.core.log|;
    hide Inv, SnapshotPast, Fresh, Numbered, ReplyOk, OfPair;
    match w.phase
    case Idle =>
    case Serving(batch, results) => ResultsKept(w, w', batch, results);
    case HaveCurrent(batch, results, current) =>
      ResultsKept(w, w', batch, results);
      OfPairKept(w, w', current);
    case Replying(batch, reply) =>
      ResultsKept(w, w', batch, reply.results);
      ReplyKept(w, w', reply);
  }

  lemma AsideKeepsGood(w: World, w': World)
    requires Good(w) && ServerOk(w') && Aside(w, w')
    ensures Good(w')
  {
    hide Good, Inv, KeysLogged, Top, SnapshotPast, Fresh, Numbered, Explains, Eligible, PhaseOk;
    GoodServer(w);
    SameLength(w');
    assert OutboxOk(w') by { OutboxKept(w, w'); }
    hide OutboxOk;
    assert PhaseOk(w') by { AsidePhase(w, w'); }
    assert FatesOk(w');
    AsideGood(w');
  }

  lemma AsideGood(w: World)
    requires ServerOk(w) && Keyed(w.client.local) && OutboxOk(w) && FatesOk(w) && PhaseOk(w)
    ensures Good(w)
  {
  }

  lemma OtherCallsKeepsGood(w: World, w': World, call: Call, now: Time)
    requires Good(w) && OtherCalls(w, w', call, now)
    ensures Good(w')
  {
    hide Execute, Inv, OutboxOk, PhaseOk, KeysLogged, Numbered, Top;
    TransactServer(w, w', call, now);
    assert Aside(w, w') by { hide ServerOk; }
    hide Aside, ServerOk, OtherCalls;
    AsideKeepsGood(w, w');
  }

  lemma EnqueueOutbox(w: World, w': World, command: Command, createdAt: Time)
    requires Good(w) && Enqueue(w, w', command, createdAt)
    ensures OutboxOk(w')
  {
    hide Good, ServerOk, Inv, Numbered, SnapshotPast, PhaseOk, PlanOf, Eligible, FatesOk;
    GoodServer(w);
  }

  lemma EnqueueFates(w: World, w': World, command: Command, createdAt: Time)
    requires Good(w) && Enqueue(w, w', command, createdAt)
    ensures FatesOk(w') && command.id !in w.client.outbox
  {
    hide Good, ServerOk, Inv, Numbered, OutboxOk, PhaseOk;
    GoodServer(w);
  }

  lemma EnqueueBatch(w: World, w': World, command: Command, createdAt: Time, batch: seq<Command>)
    requires Enqueue(w, w', command, createdAt) && command.id !in w.client.outbox && BatchOk(w, batch)
    ensures BatchOk(w', batch)
  {
    hide Eligible;
  }

  lemma EnqueuePhase(w: World, w': World, command: Command, createdAt: Time)
    requires Good(w) && Enqueue(w, w', command, createdAt)
    ensures PhaseOk(w')
  {
    GoodServer(w);
    EnqueueFates(w, w', command, createdAt);
    hide Good, ServerOk, Inv, Numbered, SnapshotPast, Fresh, OutboxOk, FatesOk, BatchOk, ResultsOk, Visible, Top,
         Logged;
    match w.phase
    case Idle =>
    case Serving(batch, results) =>
      EnqueueBatch(w, w', command, createdAt, batch);
      ResultsKept(w, w', batch, results);
    case HaveCurrent(batch, results, current) =>
      EnqueueBatch(w, w', command, createdAt, batch);
      ResultsKept(w, w', batch, results);
    case Replying(batch, reply) =>
      EnqueueBatch(w, w', command, createdAt, batch);
      ResultsKept(w, w', batch, reply.results);
  }

  lemma EnqueueKeepsGood(w: World, w': World, command: Command, createdAt: Time)
    requires Good(w) && Enqueue(w, w', command, createdAt)
    ensures Good(w')
  {
    EnqueueOutbox(w, w', command, createdAt);
    EnqueueFates(w, w', command, createdAt);
    EnqueuePhase(w, w', command, createdAt);
    hide Inv, OutboxOk, FatesOk, PhaseOk;
  }

  lemma LocalPhase(w: World, w': World, local: Local)
    requires ServerOk(w) && PhaseOk(w) && w' == w.(client := w.client.(local := local))
    ensures PhaseOk(w')
  {
    hide ServerOk, Inv, SnapshotPast, Fresh, Logged, KeysLogged, Numbered, Top, Eligible, Visible, ResultsOk;
    SameLength(w);
    match w.phase
    case Idle =>
    case Serving(batch, results) => ResultsKept(w, w', batch, results);
    case HaveCurrent(batch, results, current) => ResultsKept(w, w', batch, results);
    case Replying(batch, reply) => ResultsKept(w, w', batch, reply.results);
  }

  lemma LocalWriteKeepsGood(w: World, w': World, local: Local)
    requires Good(w) && w' == w.(client := w.client.(local := local)) && Keyed(local)
    ensures Good(w')
  {
    assert |w.cursors| == |w.core.log|;
    LocalPhase(w, w', local);
    OutboxKept(w, w');
    hide Inv, KeysLogged, Numbered, Top, OutboxOk, PhaseOk;
  }

  lemma WriteLocallyKeepsGood(w: World, w': World, id: Uuid, fs: Option<FocusSession>)
    requires Good(w) && WriteLocally(w, w', id, fs)
    ensures Good(w')
  {
    hide Inv, SnapshotPast, OutboxOk, PhaseOk;
    LocalWriteKeepsGood(w, w', w'.client.local);
  }

  lemma RefreshHistoryKeepsGood(w: World, w': World, ids: set<Uuid>)
    requires Good(w) && RefreshHistory(w, w', ids)
    ensures Good(w')
  {
    hide Inv, SnapshotPast, OutboxOk, PhaseOk;
    LocalWriteKeepsGood(w, w', w'.client.local);
  }

  lemma LoseKeepsGood(w: World, w': World)
    requires Good(w) && Lose(w, w')
    ensures Good(w')
  {
    hide Inv, SnapshotPast, PlanOf;
  }

  lemma SendKeepsGood(w: World, w': World, batch: seq<Command>, now: Time)
    requires Good(w) && Send(w, w', batch, now)
    ensures Good(w')
  {
    hide Inv, SnapshotPast, PlanOf;
    assert OutboxOk(w') by { OutboxKept(w, w'); }
  }

  // ---------------------------------------------------------------- serving a command

  /** Whether a command runs, and as which operation, does not depend on the identifiers the server draws. */
  lemma PlanIsStable(who: Identity, command: Command, freshSid: Uuid, freshId: Uuid)
    ensures var a, b := PlanOf(who, command, freshSid, freshId), PlanOf(who, command, NIL, NIL);
            if a.Refuse? then b == a
            else b.Perform? && SameRequest(b.call, a.call) && a.call.Keyed() && a.call.who == who &&
                 a.call.KeyOf() == (who.account, command.id) && b.call.KeyOf() == a.call.KeyOf() &&
                 b.call.OpOf() == a.call.OpOf()
  {
  }

  /** A session response that was just committed is the snapshot that the last event carries. */
  ghost predicate Records(db: Core, after: (Core, Outcome), pair: Uuid) {
    after.1.Ok? && !after.1.replayed && after.1.response.SessionResponse? ==>
      |db.log| < |after.0.log| &&
      var e := after.0.log[|after.0.log| - 1];
      Snapshots(e, after.1.response.session.id) && e.payload.session == after.1.response.session && e.pair == pair
  }

  lemma StartRecords(db: Core, who: Identity, key: Uuid, sid: Uuid, now: Time)
    requires who.pair.Some?
    ensures Records(db, Start(db, who, key, sid, now), who.pair.value)
  {
  }

  lemma ImportRecords(db: Core, who: Identity, key: Uuid, sid: Uuid, startedAt: Time, completedAt: Time, now: Time)
    requires who.pair.Some?
    ensures Records(db, Import(db, who, key, sid, startedAt, completedAt, now), who.pair.value)
  {
  }

  lemma TransitionRecords(db: Core, who: Identity, key: Uuid, sid: Uuid, expected: int, action: Action, now: Time)
    requires who.pair.Some?
    ensures Records(db, Transition(db, who, key, sid, expected, action, now), who.pair.value)
  {
  }

  lemma AddNoteRecords(db: Core, who: Identity, key: Uuid, sid: Uuid, freshId: Uuid, body: string, now: Time)
    requires who.pair.Some?
    ensures Records(db, AddNote(db, who, key, sid, freshId, body, now), who.pair.value)
  {
  }

  lemma AddCheerRecords(db: Core, who: Identity, key: Uuid, sid: Uuid, freshId: Uuid, now: Time)
    requires who.pair.Some?
    ensures Records(db, AddCheer(db, who, key, sid, freshId, now), who.pair.value)
  {
  }

  lemma CommitIsLogged(db: Core, call: Call, now: Time)
    requires var answer := Execute(db, call, now).1; answer.Ok? && !answer.replayed && answer.response.SessionResponse?
    ensures call.Keyed() && call.who.pair.Some? && Records(db, Execute(db, call, now), call.who.pair.value)
  {
    CommitChecks(db, call, now);
    hide Start, Import, Transition, AddNote, AddCheer, CurrentSession, CreateInvite, AcceptInvite, Records;
    match call
    case CStart(who, key, sid) => StartRecords(db, who, key, sid, now);
    case CImport(who, key, sid, startedAt, completedAt) =>
      ImportRecords(db, who, key, sid, startedAt, completedAt, now);
    case CTransition(who, key, sid, expected, action) => TransitionRecords(db, who, key, sid, expected, action, now);
    case CNote(who, key, sid, freshId, body) => AddNoteRecords(db, who, key, sid, freshId, body, now);
    case CCheer(who, key, sid, freshId) => AddCheerRecords(db, who, key, sid, freshId, now);
    case _ =>
  }

  lemma LastIsLogged(log: seq<Event>, fs: FocusSession)
    requires |log| > 0 && Snapshots(log[|log| - 1], fs.id) && log[|log| - 1].payload.session == fs
    ensures Logged(log, fs)
  {
    var h := History(log, fs.id);
    assert h[|h| - 1].session == fs;
  }

  lemma LoggedKept(log: seq<Event>, log': seq<Event>, fs: FocusSession)
    requires log <= log' && Logged(log, fs)
    ensures Logged(log', fs)
  {
    HistoryGrows(log, log', fs.id);
    var h, h' := History(log, fs.id), History(log', fs.id);
    var k :| 0 <= k < |h| && SameRow(h[k].session, fs);
    assert h'[k] == h[k];
  }

  lemma ExecuteKeepsLogged(db: Core, call: Call, now: Time)
    requires KeysLogged(db)
    ensures KeysLogged(Execute(db, call, now).0)
  {
    LogGrows(db, call, now);
    CommitsStoreKeys(db, call, now);
    var (db', answer) := Execute(db, call, now);
    if answer.Ok? && !answer.replayed && answer.response.SessionResponse? {
      CommitIsLogged(db, call, now);
    }
    hide Execute, Snapshots;
    forall key | key in db'.keys && db'.keys[key].response.SessionResponse?
      ensures Logged(db'.log, db'.keys[key].response.session)
    {
      if key in db.keys && db'.keys[key] == db.keys[key] {
        LoggedKept(db.log, db'.log, db.keys[key].response.session);
      } else {
        LastIsLogged(db'.log, answer.response.session);
      }
    }
  }

  lemma CommitIsAhead(w: World, w': World, call: Call, now: Time)
    requires ServerOk(w) && Transact(w, w', call, now) && w'.client.cursor == w.client.cursor && w'.pair == w.pair
    requires var answer := Execute(w.core, call, now).1; answer.Ok? && !answer.replayed
    requires call.Keyed() ==> call.who == Me(w)
    ensures |w'.cursors| == |w'.core.log| && Ahead(w', Execute(w.core, call, now).1.response)
  {
    if Execute(w.core, call, now).1.response.SessionResponse? {
      CommitIsLogged(w.core, call, now);
      hide Execute, Inv;
      var i := |w'.core.log| - 1;
      assert w'.cursors[i] > w.client.cursor;
    }
  }

  /** A refused command has not committed. */
  lemma ServeRefusal(w: World, w': World, freshSid: Uuid, freshId: Uuid, now: Time)
    requires Good(w) && ServeNext(w, w', freshSid, freshId, now)
    requires PlanOf(Me(w), w.phase.batch[|w.phase.results|], freshSid, freshId).Refuse?
    ensures Good(w')
  {
    var command := w.phase.batch[|w.phase.results|];
    PlanIsStable(Me(w), command, freshSid, freshId);
    hide Inv, Good, PlanOf, OutboxOk, FatesOk, ServerOk;
    GoodServer(w);
    RefusedIsNew(w, command);
    hide PhaseOk;
    AddResult(w, w', w'.phase.results[|w.phase.results|]);
  }

  lemma RefusedIsNew(w: World, command: Command)
    requires Good(w) && w.phase.Serving? && |w.phase.results| < |w.phase.batch|
    requires command == w.phase.batch[|w.phase.results|] && PlanOf(Me(w), command, NIL, NIL).Refuse?
    ensures Mine(w, command.id) !in w.core.keys
  {
    hide Inv, PlanOf, SnapshotPast, FatesOk, KeysLogged;
  }

  /** The result line of the command just served joins the results. */
  lemma AddResult(w: World, w': World, result: Result)
    requires Good(w) && w.phase.Serving? && |w.phase.results| < |w.phase.batch|
    requires w' == w.(phase := Serving(w.phase.batch, w.phase.results + [result]))
    requires result.id == w.phase.batch[|w.phase.results|].id
    requires result.Applied? ==>
               Mine(w, result.id) in w.core.keys && result.resource == w.core.keys[Mine(w, result.id)].response &&
               (result.id !in w.missed ==> Ahead(w, result.resource))
    requires result.Rejected? && Mine(w, result.id) in w.core.keys ==>
               (result.id in w.denied && result.code.VersionCode?) || result.id in w.lapsed
    ensures Good(w')
  {
    hide Inv, SnapshotPast, OutboxOk, FatesOk, BatchOk, Ahead;
    SamePhaseless(w, w');
  }

  /** Only the phase differs. */
  lemma SamePhaseless(w: World, w': World)
    requires Good(w) && w' == w.(phase := w'.phase)
    ensures ServerOk(w') && OutboxOk(w') && FatesOk(w')
    ensures forall batch :: BatchOk(w, batch) ==> BatchOk(w', batch)
    ensures forall response :: Ahead(w, response) ==> Ahead(w', response)
    ensures w'.phase.Idle? ==> Good(w')
  {
    hide Inv, SnapshotPast, Eligible, PlanOf;
  }

  /** A command that has committed before is answered from the stored response, until its key expires. */
  lemma ServeReplay(w: World, w': World, freshSid: Uuid, freshId: Uuid, now: Time)
    requires Good(w) && ServeNext(w, w', freshSid, freshId, now)
    requires var command := w.phase.batch[|w.phase.results|];
             PlanOf(Me(w), command, freshSid, freshId).Perform? && Mine(w, command.id) in w.core.keys
    ensures Good(w')
  {
    var command := w.phase.batch[|w.phase.results|];
    var row := w.core.keys[Mine(w, command.id)];
    hide Execute, PlanOf, Good, ServerOk, Ahead, Numbered, Inv, KeysLogged, ServeNext;
    RetryIsServed(w, w', freshSid, freshId, now);
    ServeShape(w, w', freshSid, freshId, now);
    var same := w'.(phase := w.phase, lapsed := w.lapsed);
    RetryAside(w, w', same);
    var answer := Execute(w.core, PlanOf(Me(w), command, freshSid, freshId).call, now).1;
    if now < row.expiresAt {
      assert answer == Ok(row.response, true);
      StoredIsAhead(same, command, row);
      AddResult(same, w', Applied(command.id, row.response));
    } else {
      assert Lapses(w, now) && w'.lapsed == w.lapsed + {command.id};
      ServeLapsed(same, w', command, ResultOf(command.id, answer));
    }
  }

  /** A command whose key has expired is refused, and that is recorded. */
  lemma ServeLapsed(w: World, w': World, command: Command, result: Option<Result>)
    requires Good(w) && w.phase.Serving? && |w.phase.results| < |w.phase.batch|
    requires command == w.phase.batch[|w.phase.results|] && command.id in w.fate
    requires Mine(w, command.id) in w.core.keys && w.core.keys[Mine(w, command.id)].expiresAt <= w.clock
    requires result.Some? ==> result.value.id == command.id && result.value.Rejected?
    requires w' == w.(lapsed := w.lapsed + {command.id},
                      phase := if result.Some? then Serving(w.phase.batch, w.phase.results + [result.value]) else Idle)
    ensures Good(w')
  {
    hide Good;
    var before := w.(lapsed := w'.lapsed);
    MoreRecorded(w, before);
    AddAnyResult(before, w', result);
  }

  /** What a served command leaves as it was. */
  lemma ServeShape(w: World, w': World, freshSid: Uuid, freshId: Uuid, now: Time)
    requires ServeNext(w, w', freshSid, freshId, now)
    requires PlanOf(Me(w), w.phase.batch[|w.phase.results|], freshSid, freshId).Perform?
    ensures SamePhone(w, w') && w.cursors <= w'.cursors && w'.torn == w.torn && w'.missed == w.missed
    ensures var command := w.phase.batch[|w.phase.results|];
            var answer := Execute(w.core, PlanOf(Me(w), command, freshSid, freshId).call, now).1;
            var r := ResultOf(command.id, answer);
            w'.denied == w.denied && w'.lapsed == w.lapsed + (if Lapses(w, now) then {command.id} else {}) &&
            w'.phase == if r.Some? then Serving(w.phase.batch, w.phase.results + [r.value]) else Idle
  {
    hide Execute, PlanOf, Numbered;
  }

  lemma RetryAside(w: World, w': World, same: World)
    requires Good(w) && ServerOk(w') && w'.core == w.core && w.clock <= w'.clock && w.cursors <= w'.cursors
    requires w'.torn == w.torn && w'.missed == w.missed && w'.denied == w.denied && SamePhone(w, w')
    requires same == w'.(phase := w.phase, lapsed := w.lapsed)
    ensures Good(same)
  {
    hide Good;
    assert ServerOk(same) by { hide Inv, KeysLogged, Numbered, Top; }
    hide ServerOk;
    AsideKeepsGood(w, same);
  }

  /** A result line that need not be final, or none. */
  lemma AddAnyResult(w: World, w': World, result: Option<Result>)
    requires Good(w) && w.phase.Serving? && |w.phase.results| < |w.phase.batch|
    requires w' == w.(phase := if result.Some? then Serving(w.phase.batch, w.phase.results + [result.value]) else Idle)
    requires result.Some? ==>
               result.value.id == w.phase.batch[|w.phase.results|].id && result.value.Rejected? &&
               result.value.id in w.lapsed
    ensures Good(w')
  {
    hide Good;
    if result.Some? {
      AddResult(w, w', result.value);
    } else {
      SamePhaseless(w, w');
    }
  }

  lemma RetryIsServed(w: World, w': World, freshSid: Uuid, freshId: Uuid, now: Time)
    requires Good(w) && ServeNext(w, w', freshSid, freshId, now)
    requires var command := w.phase.batch[|w.phase.results|];
             PlanOf(Me(w), command, freshSid, freshId).Perform? && Mine(w, command.id) in w.core.keys
    ensures ServerOk(w') && w'.core == w.core && w.clock <= w'.clock == now
    ensures var command := w.phase.batch[|w.phase.results|]; var row := w.core.keys[Mine(w, command.id)];
            command.id in w.client.outbox && command.id in w.fate &&
            var answer := Execute(w.core, PlanOf(Me(w), command, freshSid, freshId).call, now).1;
            if now < row.expiresAt then answer == Ok(row.response, true) && command.id !in w.lapsed
            else answer.Failed?
  {
    var command := w.phase.batch[|w.phase.results|];
    var row := w.core.keys[Mine(w, command.id)];
    PlanIsStable(Me(w), command, freshSid, freshId);
    var call := PlanOf(Me(w), command, freshSid, freshId).call;
    assert w.client.outbox[command.id].command == command && Explains(w, command, row);
    RetryFindsKey(w.core, PlanOf(Me(w), command, NIL, NIL).call, call, row, w.clock, now);
    UsedKeyChangesNothing(w.core, call, now);
    hide Execute, Inv, PlanOf, OutboxOk, PhaseOk, Explains;
    TransactServer(w, w', call, now);
  }

  lemma StoredIsAhead(w: World, command: Command, row: KeyRow)
    requires Good(w) && command.id in w.client.outbox && Mine(w, command.id) in w.core.keys
    requires row == w.core.keys[Mine(w, command.id)]
    ensures command.id !in w.missed + w.lapsed ==> Ahead(w, row.response)
  {
    hide Inv, Ahead, PhaseOk, FatesOk;
  }

  ghost predicate OthersSame(w: World, w': World, own: Uuid) {
    forall id :: id in w.fate && id != own ==> KeySame(w, w', id)
  }

  /** Everything of this phone's but one command's key is as it was. */
  ghost predicate ServedOne(w: World, w': World, command: Command) {
    Good(w) && ServerOk(w') && w'.account == w.account && w'.pair == w.pair && SamePhone(w, w') &&
    w.clock <= w'.clock && w.core.log <= w'.core.log && w.cursors <= w'.cursors && SameRecord(w, w') &&
    w.phase.Serving? && |w.phase.results| < |w.phase.batch| && command == w.phase.batch[|w.phase.results|] &&
    OthersSame(w, w', command.id) && Mine(w, command.id) !in w.core.keys &&
    (Mine(w, command.id) in w'.core.keys ==>
       Explains(w', command, w'.core.keys[Mine(w, command.id)]) &&
       Ahead(w', w'.core.keys[Mine(w, command.id)].response))
  }

  lemma ServeOthersOutbox(w: World, w': World, command: Command)
    requires ServedOne(w, w', command)
    ensures OutboxOk(w')
  {
    hide Inv, SnapshotPast, PlanOf, Eligible, Ahead, Explains, ResultsOk;
    var rest := w.(client := w.client.(outbox := w.client.outbox - {command.id}));
    var rest' := w'.(client := rest.client);
    RestOk(w, rest, command.id);
    OutboxKept(rest, rest');
    forall id | id in w'.client.outbox && Mine(w', id) in w'.core.keys
      ensures id !in w'.lapsed ==> Eligible(w'.client.outbox[id], w'.device)
      ensures Explains(w', w'.client.outbox[id].command, w'.core.keys[Mine(w', id)])
      ensures id !in w'.missed + w'.lapsed ==> Ahead(w', w'.core.keys[Mine(w', id)].response)
    {
      if id != command.id {
        RestSame(rest', w', id);
      }
    }
  }

  lemma RestOk(w: World, rest: World, id: Uuid)
    requires |w.cursors| == |w.core.log| && OutboxOk(w)
    requires rest == w.(client := w.client.(outbox := w.client.outbox - {id}))
    ensures OutboxOk(rest)
  {
    hide SnapshotPast, PlanOf, Eligible;
  }

  lemma RestSame(rest: World, w: World, id: Uuid)
    requires |w.cursors| == |w.core.log| && rest == w.(client := w.client.(outbox := rest.client.outbox))
    requires OutboxOk(rest) && id in rest.client.outbox && id in w.client.outbox
    requires rest.client.outbox[id] == w.client.outbox[id] && Mine(w, id) in w.core.keys
    ensures id !in w.lapsed ==> Eligible(w.client.outbox[id], w.device)
    ensures Explains(w, w.client.outbox[id].command, w.core.keys[Mine(w, id)])
    ensures id !in w.missed + w.lapsed ==> Ahead(w, w.core.keys[Mine(w, id)].response)
  {
    hide SnapshotPast, PlanOf, Eligible;
  }

  lemma ServeOthersResults(w: World, w': World, command: Command)
    requires ServedOne(w, w', command) && |w.cursors| == |w.core.log| && |w'.cursors| == |w'.core.log|
    requires BatchOk(w, w.phase.batch) && ResultsOk(w, w.phase.batch, w.phase.results) && FatesOk(w)
    ensures ResultsOk(w', w.phase.batch, w.phase.results)
  {
    var batch, results := w.phase.batch, w.phase.results;
    hide Good, ServerOk, Ahead, Explains;
    forall i | 0 <= i < |results| ensures KeySame(w, w', results[i].id) {
      assert batch[i].id != batch[|results|].id;
      assert batch[i].id in w.client.outbox;
      assert results[i].id == batch[i].id;
    }
    hide FatesOk, BatchOk, OthersSame, ResultsOk;
    ResultsKept(w, w', batch, results);
  }

  lemma ServeOthersBatch(w: World, w': World, command: Command)
    requires ServedOne(w, w', command) && BatchOk(w, w.phase.batch) && FatesOk(w)
    requires command.id in w.fate && InBatch(w.phase.batch, command.id)
    ensures FatesOk(w') && BatchOk(w', w.phase.batch)
  {
    hide Good, ServerOk, Ahead, Explains, Eligible, InBatch;
  }

  lemma ServeOthers(w: World, w': World, command: Command)
    requires ServedOne(w, w', command)
    ensures OutboxOk(w') && FatesOk(w') && BatchOk(w', w.phase.batch) && ResultsOk(w', w.phase.batch, w.phase.results)
  {
    hide Good, ServerOk, Inv, Numbered, SnapshotPast, PlanOf, Eligible, OutboxOk, Ahead, Explains, OthersSame,
         ResultsOk;
    ServeOthersOutbox(w, w', command);
    GoodServer(w);
    SameLength(w');
    assert w.phase.batch[|w.phase.results|].id == command.id;
    assert InBatch(w.phase.batch, command.id);
    assert BatchOk(w, w.phase.batch) && ResultsOk(w, w.phase.batch, w.phase.results) && command.id in w.fate;
    hide PhaseOk;
    ServeOthersResults(w, w', command);
    ServeOthersBatch(w, w', command);
  }

  lemma FirstIsServed(w: World, w': World, freshSid: Uuid, freshId: Uuid, now: Time)
    requires Good(w) && ServeNext(w, w', freshSid, freshId, now)
    requires var command := w.phase.batch[|w.phase.results|];
             PlanOf(Me(w), command, freshSid, freshId).Perform? && Mine(w, command.id) !in w.core.keys
    ensures ServedOne(w, w', w.phase.batch[|w.phase.results|])
    ensures var command := w.phase.batch[|w.phase.results|];
            var answer := Execute(w.core, PlanOf(Me(w), command, freshSid, freshId).call, now).1;
            (answer.Ok? <==> Mine(w, command.id) in w'.core.keys) &&
            (answer.Ok? ==>
               Ahead(w', answer.response) && w'.core.keys[Mine(w, command.id)].response == answer.response)
  {
    hide Execute, PlanOf, SameRequest, Good, ServerOk, OthersSame, Explains, Ahead, Inv, Numbered, OutboxOk, FatesOk,
         PhaseOk;
    var command := w.phase.batch[|w.phase.results|];
    PlanIsStable(Me(w), command, freshSid, freshId);
    var call := PlanOf(Me(w), command, freshSid, freshId).call;
    GoodServer(w);
    TransactServer(w, w', call, now);
    CallIsServed(w, w', command, call, now);
  }

  /** A transaction under a new key: if it succeeds it commits, and its answer is still ahead of the phone. */
  lemma CallIsServed(w: World, w': World, command: Command, call: Call, now: Time)
    requires ServerOk(w) && ServerOk(w') && Transact(w, w', call, now) && SamePhone(w, w')
    requires var plan := PlanOf(Me(w), command, NIL, NIL);
             plan.Perform? && SameRequest(plan.call, call) && plan.call.Keyed() &&
             plan.call.KeyOf() == Mine(w, command.id) && plan.call.OpOf() == call.OpOf()
    requires call.Keyed() && call.who == Me(w) && call.KeyOf() == Mine(w, command.id) && call.KeyOf() !in w.core.keys
    requires var answer := Execute(w.core, call, now).1;
             if answer.Ok? && !answer.replayed
             then w'.core.keys == w.core.keys[call.KeyOf() := KeyRow(call.OpOf(), answer.response, now + KEY_WINDOW)]
             else w'.core.keys == w.core.keys
    ensures |w'.cursors| == |w'.core.log| && OthersSame(w, w', command.id)
    ensures var answer := Execute(w.core, call, now).1;
            if answer.Ok? then
              Mine(w, command.id) in w'.core.keys && Ahead(w', answer.response) &&
              w'.core.keys[Mine(w, command.id)].response == answer.response &&
              Explains(w', command, w'.core.keys[Mine(w, command.id)])
            else Mine(w, command.id) !in w'.core.keys
  {
    hide Execute, Inv, SnapshotPast, PlanOf, Explains, Ahead, SameRequest, KeysLogged, Top;
    var answer := Execute(w.core, call, now).1;
    if answer.Ok? && !answer.replayed {
      CommitIsAhead(w, w', call, now);
      CommitChecks(w.core, call, now);
      CommitExplains(w', command, call, w'.core.keys[call.KeyOf()]);
    } else if answer.Ok? {
      ReplayHasKey(w.core, call, now);
    }
  }

  lemma CommitExplains(w: World, command: Command, call: Call, row: KeyRow)
    requires var plan := PlanOf(Me(w), command, NIL, NIL);
             plan.Perform? && SameRequest(plan.call, call) && plan.call.Keyed() &&
             plan.call.KeyOf() == Mine(w, command.id) && plan.call.OpOf() == row.op
    requires call.CImport? ==> Importable(call.startedAt, call.completedAt, w.clock)
    ensures Explains(w, command, row)
  {
    hide PlanOf;
  }

  /** A command that runs for the first time: it commits, or nothing happens. */
  lemma ServeFirst(w: World, w': World, freshSid: Uuid, freshId: Uuid, now: Time)
    requires Good(w) && ServeNext(w, w', freshSid, freshId, now)
    requires var command := w.phase.batch[|w.phase.results|];
             PlanOf(Me(w), command, freshSid, freshId).Perform? && Mine(w, command.id) !in w.core.keys
    ensures Good(w')
  {
    FirstIsServed(w, w', freshSid, freshId, now);
    var command := w.phase.batch[|w.phase.results|];
    var answer := Execute(w.core, PlanOf(Me(w), command, freshSid, freshId).call, now).1;
    hide Execute, Inv, PlanOf;
    hide SnapshotPast, Numbered;
    ServeOthers(w, w', command);
    hide OutboxOk, FatesOk, BatchOk, ResultsOk, Explains, Ahead;
    var before := w'.(phase := w.phase);
    PhaseAside(w', before);
    var result := ResultOf(command.id, answer);
    if result.Some? {
      AddResult(before, w', result.value);
    } else {
      SamePhaseless(before, w');
    }
  }

  /** What is said of a batch and its results does not depend on the phase. */
  lemma PhaseAside(w: World, before: World)
    requires before == w.(phase := before.phase) && before.phase.Serving? && ServerOk(w) && Keyed(w.client.local)
    requires OutboxOk(w) && FatesOk(w) && BatchOk(w, before.phase.batch)
    requires ResultsOk(w, before.phase.batch, before.phase.results)
    ensures Good(before) && forall response :: Ahead(w, response) ==> Ahead(before, response)
  {
    hide Inv, SnapshotPast, Eligible, PlanOf;
  }

  lemma ReplayHasKey(db: Core, call: Call, now: Time)
    requires Execute(db, call, now).1.Ok? && Execute(db, call, now).1.replayed
    ensures call.Keyed() && call.KeyOf() in db.keys
  {
  }

  lemma ServeNextKeepsGood(w: World, w': World, freshSid: Uuid, freshId: Uuid, now: Time)
    requires Good(w) && ServeNext(w, w', freshSid, freshId, now)
    ensures Good(w')
  {
    var command := w.phase.batch[|w.phase.results|];
    if PlanOf(Me(w), command, freshSid, freshId).Refuse? {
      ServeRefusal(w, w', freshSid, freshId, now);
    } else if Mine(w, command.id) in w.core.keys {
      ServeReplay(w, w', freshSid, freshId, now);
    } else {
      ServeFirst(w, w', freshSid, freshId, now);
    }
  }

  lemma DenyKeepsGood(w: World, w': World)
    requires Good(w) && Deny(w, w')
    ensures Good(w')
  {
    var denied := w.(denied := w'.denied);
    hide Inv, SnapshotPast, PlanOf, Eligible, Logged;
    assert w.phase.batch[|w.phase.results|].id in w.client.outbox;
    MoreRecorded(w, denied);
    hide Good;
    AddResult(denied, w', Rejected(w.phase.batch[|w.phase.results|].id, VersionCode));
  }

  lemma MoreRecorded(w: World, w': World)
    requires Good(w) && w.phase.Serving? && w' == w.(denied := w'.denied, lapsed := w'.lapsed)
    requires w.denied <= w'.denied && w.lapsed <= w'.lapsed
    requires forall id :: id in w'.denied - w.denied ==> id in w.fate && Mine(w, id) in w.core.keys
    requires forall id :: id in w'.lapsed - w.lapsed ==>
               id in w.fate && Mine(w, id) in w.core.keys && w.core.keys[Mine(w, id)].expiresAt <= w.clock
    ensures Good(w')
  {
    hide Good, Inv, KeysLogged, Numbered, Top, SnapshotPast, PlanOf, Eligible, Logged;
    GoodServer(w);
    OutboxKept(w, w');
    ResultsKept(w, w', w.phase.batch, w.phase.results);
    hide OutboxOk, ResultsOk;
    AsideGood(w');
  }

  // ---------------------------------------------------------------- the two reads

  lemma ReadCurrentServer(w: World, w': World, now: Time)
    requires ServerOk(w) && ReadCurrent(w, w', now)
    ensures ServerOk(w') && w.core.log <= w'.core.log && w'.core.keys == w.core.keys && OfPair(w', w'.phase.current)
    ensures w.cursors <= w'.cursors && w.clock <= w'.clock
  {
    TransactServer(w, w', CCurrent(Me(w)), now);
    CurrentOfPair(w.core, Me(w), now);
    if w'.phase.current.Some? {
      StoredIsLogged(w'.core, w'.clock, w'.phase.current.value.id);
    }
  }

  lemma StoredIsLogged(core: Core, t: Time, id: Uuid)
    requires Inv(core, t) && id in core.sessions
    ensures Logged(core.log, Read(core, id))
  {
    var h := History(core.log, id);
    assert SameRow(h[|h| - 1].session, Read(core, id));
  }

  lemma ReadCurrentKeepsGood(w: World, w': World, now: Time)
    requires Good(w) && ReadCurrent(w, w', now)
    ensures Good(w')
  {
    ReadCurrentServer(w, w', now);
    var before := w'.(phase := w.phase);
    assert Aside(w, before) by { hide Execute, Inv, OutboxOk, PhaseOk; }
    hide Execute, Inv, Transact, SnapshotPast, OutboxOk, Logged, ServerOk, Aside;
    SamePhaseServer(w', before);
    AsideKeepsGood(w, before);
    CurrentIsRead(before, w');
  }

  lemma SamePhaseServer(w: World, w': World)
    requires ServerOk(w) && w' == w.(phase := w'.phase)
    ensures ServerOk(w')
  {
    hide Inv, KeysLogged, Numbered;
  }

  /** The results are complete, and the current session joins them. */
  lemma CurrentIsRead(w: World, w': World)
    requires Good(w) && w.phase.Serving? && |w.phase.results| == |w.phase.batch| && w' == w.(phase := w'.phase)
    requires w'.phase.HaveCurrent? && w'.phase.batch == w.phase.batch && w'.phase.results == w.phase.results
    requires OfPair(w', w'.phase.current)
    ensures Good(w')
  {
    SamePhaseless(w, w');
    hide Inv, SnapshotPast, OutboxOk, FatesOk, BatchOk, Ahead, Logged, OfPair;
  }

  lemma CurrentOfPair(db: Core, who: Identity, now: Time)
    requires who.pair.Some?
    ensures var (db', answer) := CurrentSession(db, who, now);
            answer.session.Some? ==>
              answer.session.value.id in db'.sessions && db'.sessions[answer.session.value.id].pair == who.pair.value &&
              answer.session.value.row.state.Active() && answer.session.value == Read(db', answer.session.value.id)
  {
  }

  lemma ReadEventsReply(w: World, w': World, events: seq<Event>, next: nat)
    requires ServerOk(w) && w.phase.HaveCurrent? && OfPair(w, w.phase.current) && ReadEvents(w, w', events, next)
    ensures ReplyOk(w', w'.phase.reply)
  {
    PageLeavesRest(w.core.log, w.cursors, w.pair, w.client.cursor, PAGE, events, next);
    hide Inv, SnapshotPast, Visible;
  }

  /** What is said about the outbox and the batch does not depend on the reads. */
  lemma ReadAside(w: World, w': World, batch: seq<Command>, results: seq<Result>)
    requires |w.cursors| == |w.core.log| && OutboxOk(w) && BatchOk(w, batch) && ResultsOk(w, batch, results)
    requires SameServer(w, w') && SamePhone(w, w') && w'.missed == w.missed && w'.denied == w.denied
    requires w'.lapsed == w.lapsed
    ensures OutboxOk(w') && BatchOk(w', batch) && ResultsOk(w', batch, results)
  {
    hide SnapshotPast, PlanOf;
  }

  lemma ReadEventsKeepsGood(w: World, w': World, events: seq<Event>, next: nat)
    requires Good(w) && ReadEvents(w, w', events, next)
    ensures Good(w')
  {
    ReadEventsReply(w, w', events, next);
    hide Inv, SnapshotPast, IsPage, Past, ReplyOk, Untorn;
    ReadAside(w, w', w.phase.batch, w.phase.results);
    hide OutboxOk, BatchOk, ResultsOk;
  }

  // ---------------------------------------------------------------- delivery

  lemma {:induction false} HistoryLast(log: seq<Event>, id: Uuid)
    ensures LastSnapshot(log, id) ==
            if |History(log, id)| == 0 then None else Some(Last(History(log, id)).session)
  {
    if |log| > 0 {
      HistoryLast(log[..|log| - 1], id);
    }
  }

  lemma LastIsStored(core: Core, t: Time, pair: Uuid, id: Uuid)
    requires Inv(core, t) && id in core.sessions && core.sessions[id].pair == pair
    ensures LastSnapshot(core.log, id).Some? && SameRow(LastSnapshot(core.log, id).value, Read(core, id))
    ensures forall i :: 0 <= i < |core.log| && Snapshots(core.log[i], id) ==> core.log[i].pair == pair
  {
    HistoryLast(core.log, id);
    ChainShape(History(core.log, id));
  }

  lemma DeliverKeyed(w: World, w': World, now: Time)
    requires Good(w) && Deliver(w, w', now)
    ensures Keyed(w'.client.local)
  {
    var reply := w.phase.reply;
    hide Inv, OutboxOk, FatesOk, PhaseOk;
    ResultsKeyed(w.client, reply.results, now);
    FoldRow(ApplyResults(w.client, reply.results, now).local, reply.events, NIL);
  }

  /** The result line of a command of the batch. */
  lemma BatchResult(w: World, id: Uuid)
    requires Good(w) && w.phase.Replying?
    ensures Distinct(w.phase.reply.results)
    ensures var r := ResultFor(w.phase.reply.results, id);
            (r.Some? ==>
               r.value.id == id && (r.value.Applied? ==> Mine(w, id) in w.core.keys) &&
               (r.value.Rejected? && Mine(w, id) in w.core.keys ==>
                  (id in w.denied && !Deferred(r.value)) || id in w.lapsed)) &&
            (id in w.client.outbox && Mine(w, id) in w.core.keys ==> r.Some? || id in w.missed + w.lapsed)
  {
    var results := w.phase.reply.results;
    if id in w.client.outbox && Mine(w, id) in w.core.keys && id !in w.missed + w.lapsed {
      assert InBatch(w.phase.batch, id);
      var i :| 0 <= i < |w.phase.batch| && w.phase.batch[i].id == id;
      assert results[i].id == id;
    }
  }

  /** A committed command that a delivery leaves in the outbox: it was left out of the batch, or has lapsed. */
  ghost predicate StillWaits(w: World, w': World, id: Uuid)
    requires id in w'.client.outbox
  {
    id in w.client.outbox && w'.client.outbox[id].command == w.client.outbox[id].command &&
    (id in w.lapsed || (id in w.missed && w'.client.outbox[id] == w.client.outbox[id]))
  }

  /** After a delivery a committed command is left in the outbox only if the batch did not cover it. */
  lemma DeliverOutbox(w: World, w': World, now: Time)
    requires Good(w) && Deliver(w, w', now)
    ensures forall id :: id in w'.client.outbox ==> w'.client.outbox[id].command.id == id
    ensures forall id :: id in w'.client.outbox && Mine(w, id) in w.core.keys ==> StillWaits(w, w', id)
    ensures FatesOk(w')
  {
    hide Inv, PhaseOk, Receive, Told, Explains, Ahead, ServerOk;
    forall id
      ensures id in w'.client.outbox ==> w'.client.outbox[id].command.id == id
      ensures id in w'.client.outbox && Mine(w, id) in w.core.keys ==> StillWaits(w, w', id)
      ensures id in w'.client.outbox <==> id in w'.fate && w'.fate[id].Waiting?
      ensures id in w'.fate && w'.fate[id].Accepted? ==> Mine(w, id) in w.core.keys
      ensures id in w'.fate && w'.fate[id].Refused? && Mine(w, id) in w.core.keys ==> id in w.denied + w.lapsed
      ensures id in w.fate <==> id in w'.fate
    {
      DeliverEntry(w, w', now, id);
    }
  }

  /** One command through a delivery. */
  lemma DeliverEntry(w: World, w': World, now: Time, id: Uuid)
    requires Good(w) && Deliver(w, w', now)
    ensures id in w'.client.outbox ==> w'.client.outbox[id].command.id == id
    ensures id in w'.client.outbox && Mine(w, id) in w.core.keys ==> StillWaits(w, w', id)
    ensures id in w'.client.outbox <==> id in w'.fate && w'.fate[id].Waiting?
    ensures id in w'.fate && w'.fate[id].Accepted? ==> Mine(w, id) in w.core.keys
    ensures id in w'.fate && w'.fate[id].Refused? && Mine(w, id) in w.core.keys ==> id in w.denied + w.lapsed
    ensures id in w.fate <==> id in w'.fate
  {
    BatchResult(w, id);
    ResultsSettle(w.client, w.phase.reply.results, now, id);
    hide Inv, PhaseOk, ResultFor, Explains, Ahead, ServerOk;
  }

  lemma DeliverKeepsGood(w: World, w': World, now: Time)
    requires Good(w) && Deliver(w, w', now)
    ensures Good(w')
  {
    DeliverKeyed(w, w', now);
    DeliverOutbox(w, w', now);
    assert w'.client.cursor <= Top(w'.cursors);
    hide Inv, Fresh, Told, Receive, FatesOk, PlanOf;
    assert OutboxOk(w');
  }

  // ---------------------------------------------------------------- any step

  lemma StepKeepsGood(w: World, w': World, step: Step)
    requires Good(w) && Take(w, w', step)
    ensures Good(w')
  {
    hide Good;
    match step
    case OtherCallsStep(call, now) => OtherCallsKeepsGood(w, w', call, now);
    case EnqueueStep(command, createdAt) => EnqueueKeepsGood(w, w', command, createdAt);
    case WriteLocallyStep(id, fs) => WriteLocallyKeepsGood(w, w', id, fs);
    case RefreshHistoryStep(ids) => RefreshHistoryKeepsGood(w, w', ids);
    case SendStep(batch, now) => SendKeepsGood(w, w', batch, now);
    case ServeNextStep(freshSid, freshId, now) => ServeNextKeepsGood(w, w', freshSid, freshId, now);
    case DenyStep => DenyKeepsGood(w, w');
    case ReadCurrentStep(now) => ReadCurrentKeepsGood(w, w', now);
    case ReadEventsStep(events, next) => ReadEventsKeepsGood(w, w', events, next);
    case DeliverStep(now) => DeliverKeepsGood(w, w', now);
    case LoseStep => LoseKeepsGood(w, w');
  }
}
