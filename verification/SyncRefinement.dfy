/**
 An uninterrupted round trip, as the endpoint and the phone carry it out, is a run of protocol steps:
 a send, one step for each command, the two reads and the delivery.
 */
module SyncRefinement {
  import opened Domain
  import opened Timeline
  import opened Tables
  import opened Reducer
  import opened StoreInvariant
  import opened StoreRuns
  import opened Paging
  import opened SyncMessages
  import opened SyncProtocol
  import opened SyncSteps
  import opened Freshness
  import opened SyncTheorems
  import opened Pacing
  import opened SyncHandler

  /**
   The dispatcher and every check of the store let a note through, and then the database refuses its text.
   Nothing turns that error into a client error.
   */
  predicate Poisons(db: Core, who: Identity, command: Command, now: Time) {
    HoldsNul(command) && command.id != NIL && command.entity.Some? && 1 <= |command.body.text| <= 120 &&
    who.pair.Some? && IsMember(db, who.pair.value, who.account) &&
    LookUp(db, who.account, command.id, OpNote, now).Miss? &&
    command.entity.value in db.sessions && db.sessions[command.entity.value].pair == who.pair.value &&
    !db.sessions[command.entity.value].state.Cancelled?
  }

  /** A command makes the whole request fail if and only if it is such a note; any other has a result line. */
  lemma ServeSucceeds(db: Core, who: Identity, command: Command, freshSid: Uuid, freshId: Uuid, now: Time)
    ensures var r := Serve(db, who, command, freshSid, freshId, now).1;
            (r.None? <==> Poisons(db, who, command, now)) && (r.Some? ==> r.value.id == command.id)
  {
    var plan := PlanOf(who, command, freshSid, freshId);
    if plan.Perform? {
      PlanIsStable(who, command, freshSid, freshId);
      KeyedCallAnswers(db, plan.call, now);
    }
    hide Execute;
  }

  /** The shortest such note, on a session that runs. */
  lemma NulNoteFails(db: Core, who: Identity, id: Uuid, sid: Uuid, freshSid: Uuid, freshId: Uuid, now: Time)
    requires id != NIL && who.pair.Some? && IsMember(db, who.pair.value, who.account) && (who.account, id) !in db.keys
    requires IsActiveOf(db.sessions, who.pair.value, sid)
    ensures var command := Command(id, NoteCommand, Some(sid), None, TextBody("\0"));
            Serve(db, who, command, freshSid, freshId, now) == (db, None)
  {
    assert "\0"[0] == NUL;
  }

  /** An import whose payload has no times is not refused: it leaves a session that ran at the zero time. */
  lemma ImportWithoutTimes(db: Core, who: Identity, id: Uuid, sid: Uuid, freshSid: Uuid, freshId: Uuid, now: Time)
    requires id != NIL && sid != NIL && who.pair.Some? && IsMember(db, who.pair.value, who.account)
    requires (who.account, id) !in db.keys && sid !in db.sessions && ZERO_TIME <= now + 2 * MINUTE
    ensures var command := Command(id, ImportCommand, Some(sid), None, OtherBody);
            var (db', result) := Serve(db, who, command, freshSid, freshId, now);
            result.Some? && result.value.Applied? && result.value.resource.SessionResponse? && sid in db'.sessions &&
            db'.sessions[sid] == Imported(who.pair.value, who.account, ZERO_TIME, ZERO_TIME) &&
            result.value.resource.session == Read(db', sid)
  {
  }

  /** The only call whose answer is not a client error is a note with a text that cannot be stored. */
  ghost predicate Refuses(db: Core, call: Call, now: Time) {
    call.CNote? && call.who.pair.Some? && LookUp(db, call.who.account, call.key, OpNote, now).Miss? &&
    IsMember(db, call.who.pair.value, call.who.account) && call.sid in db.sessions &&
    db.sessions[call.sid].pair == call.who.pair.value && !db.sessions[call.sid].state.Cancelled? && NUL in call.body
  }

  lemma KeyedCallAnswers(db: Core, call: Call, now: Time)
    requires call.Keyed() && (call.CNote? ==> 1 <= |call.body| <= 120)
    ensures var answer := Execute(db, call, now).1;
            if Refuses(db, call, now) then answer == Failed(Internal)
            else answer.Ok? || (answer.Failed? && CodeOf(answer.error).Some?)
  {
  }

  lemma ServeStep(db: Core, who: Identity, command: Command, freshSid: Uuid, freshId: Uuid, now: Time)
    ensures var db' := Serve(db, who, command, freshSid, freshId, now).0;
            db.log <= db'.log &&
            forall key :: key != (who.account, command.id) ==>
              (key in db'.keys <==> key in db.keys) && (key in db.keys ==> db'.keys[key] == db.keys[key])
  {
    var plan := PlanOf(who, command, freshSid, freshId);
    if plan.Perform? {
      PlanIsStable(who, command, freshSid, freshId);
      LogGrows(db, plan.call, now);
      CommitsStoreKeys(db, plan.call, now);
      hide Execute, PlanOf;
    }
  }

  lemma CleanSucceeds(db: Core, who: Identity, command: Command, freshSid: Uuid, freshId: Uuid, now: Time)
    requires !HoldsNul(command)
    ensures Serve(db, who, command, freshSid, freshId, now).1.Some?
  {
    hide Serve;
    ServeSucceeds(db, who, command, freshSid, freshId, now);
  }

  /** A request that fails has a note with the forbidden character in its batch. */
  lemma {:induction false} ServeAllSucceeds(db: Core, who: Identity, batch: seq<Command>, drawn: seq<(Uuid, Uuid)>,
                                            now: Time)
    requires |drawn| == |batch| && forall i :: 0 <= i < |batch| ==> !HoldsNul(batch[i])
    ensures ServeAll(db, who, batch, drawn, now).1.Some?
  {
    hide Serve, HoldsNul;
    if |batch| > 0 {
      var n := |batch| - 1;
      ServeAllSucceeds(db, who, batch[..n], drawn[..n], now);
      CleanSucceeds(ServeAll(db, who, batch[..n], drawn[..n], now).0, who, batch[n], drawn[n].0, drawn[n].1, now);
    }
  }

  ghost predicate AreServed(w: World, batch: seq<Command>, drawn: seq<(Uuid, Uuid)>, now: Time, n: nat) {
    n <= |batch| == |drawn| && ServeAll(w.core, Me(w), batch[..n], drawn[..n], now).1.Some?
  }

  lemma ServedBefore(w: World, batch: seq<Command>, drawn: seq<(Uuid, Uuid)>, now: Time, n: nat)
    requires 0 < n && AreServed(w, batch, drawn, now, n)
    ensures AreServed(w, batch, drawn, now, n - 1)
  {
    hide Serve;
    assert batch[..n][..n - 1] == batch[..n - 1] && drawn[..n][..n - 1] == drawn[..n - 1];
  }

  /** The first n commands of a batch. */
  ghost function Served(w: World, batch: seq<Command>, drawn: seq<(Uuid, Uuid)>, now: Time, n: nat): (Core, seq<Result>)
    requires AreServed(w, batch, drawn, now, n)
  {
    var (db, results) := ServeAll(w.core, Me(w), batch[..n], drawn[..n], now);
    (db, results.value)
  }

  lemma ServedNext(w: World, batch: seq<Command>, drawn: seq<(Uuid, Uuid)>, now: Time, n: nat)
    requires n < |batch| == |drawn| && AreServed(w, batch, drawn, now, n)
    ensures var (db, results) := Served(w, batch, drawn, now, n);
            var (db', r) := Serve(db, Me(w), batch[n], drawn[n].0, drawn[n].1, now);
            (AreServed(w, batch, drawn, now, n + 1) <==> r.Some?) &&
            (r.Some? ==> Served(w, batch, drawn, now, n + 1) == (db', results + [r.value]))
  {
    hide Serve, ServeAll;
    ServeAllNext(w.core, Me(w), batch, drawn, now, n);
    var (db, results) := Served(w, batch, drawn, now, n);
    var (db', r) := Serve(db, Me(w), batch[n], drawn[n].0, drawn[n].1, now);
    assert ServeAll(w.core, Me(w), batch[..n + 1], drawn[..n + 1], now) ==
           (db', if r.None? then None else Some(results + [r.value]));
  }

  /** The record stays as it is, except that commands may be found to have lapsed. */
  ghost predicate OnlyLapses(w: World, w': World) {
    w'.torn == w.torn && w'.missed == w.missed && w'.denied == w.denied && w.lapsed <= w'.lapsed
  }

  /** One command served by the endpoint is one ServeNext step. */
  lemma ServedIsStep(w: World, batch: seq<Command>, results: seq<Result>, drawn: (Uuid, Uuid), now: Time,
                     db': Core, r: Result, cursors': seq<nat>) returns (w': World)
    requires Good(w) && w.phase == Serving(batch, results) && |results| < |batch| && w.clock <= now
    requires var command := batch[|results|];
             Serve(w.core, Me(w), command, drawn.0, drawn.1, now) == (db', Some(r))
    requires w.cursors <= cursors' && Numbered(db'.log, cursors')
    ensures Good(w') && SamePhone(w, w') && OnlyLapses(w, w') && w'.clock <= now
    ensures w'.core == db' && w'.cursors == cursors' && w'.phase == Serving(batch, results + [r])
  {
    var command := batch[|results|];
    var plan := PlanOf(Me(w), command, drawn.0, drawn.1);
    hide Good, PlanOf, Execute, Numbered;
    if plan.Refuse? {
      assert Numbered(w.core.log, w.cursors) by { GoodServer(w); }
      SameLength(w.core.log, w.cursors, cursors');
      w' := w.(phase := Serving(batch, results + [r]));
    } else {
      w' := PerformedIsStep(w, batch, results, plan.call, now, db', r, cursors');
    }
    ServeNextKeepsGood(w, w', drawn.0, drawn.1, now);
  }

  lemma SameLength(log: seq<Event>, cursors: seq<nat>, cursors': seq<nat>)
    requires Numbered(log, cursors) && Numbered(log, cursors') && cursors <= cursors'
    ensures cursors' == cursors
  {
  }

  lemma PerformedIsStep(w: World, batch: seq<Command>, results: seq<Result>, call: Call, now: Time,
                        db': Core, r: Result, cursors': seq<nat>) returns (w': World)
    requires w.phase == Serving(batch, results) && |results| < |batch| && w.clock <= now
    requires var (db1, answer) := Execute(w.core, call, now);
             db1 == db' && ResultOf(batch[|results|].id, answer) == Some(r)
    requires w.cursors <= cursors' && Numbered(db'.log, cursors')
    ensures Transact(w, w', call, now) && SamePhone(w, w') && w'.clock == now
    ensures w'.torn == w.torn && w'.missed == w.missed && w'.denied == w.denied
    ensures w'.lapsed == w.lapsed + if Lapses(w, now) then {batch[|results|].id} else {}
    ensures w'.core == db' && w'.cursors == cursors' && w'.phase == Serving(batch, results + [r])
  {
    var answer := Execute(w.core, call, now).1;
    if answer.Ok? && !answer.replayed {
      CommitChecks(w.core, call, now);
    }
    hide Execute, Numbered, Lapses;
    w' := w.(phase := Serving(batch, results + [r]), core := db', cursors := cursors', clock := now,
             lapsed := w.lapsed + (if Lapses(w, now) then {batch[|results|].id} else {}),
             commits := if answer.Ok? && !answer.replayed then w.commits + multiset{call.KeyOf()} else w.commits);
  }

  lemma NumberedPrefix(log: seq<Event>, log': seq<Event>, cursors': seq<nat>)
    requires log <= log' && Numbered(log', cursors')
    ensures Numbered(log, cursors'[..|log|])
  {
  }

  lemma ServedLength(w: World, batch: seq<Command>, drawn: seq<(Uuid, Uuid)>, now: Time, n: nat)
    requires AreServed(w, batch, drawn, now, n)
    ensures n <= |batch| == |drawn|
  {
  }

  lemma {:induction false} ServedGrows(w: World, batch: seq<Command>, drawn: seq<(Uuid, Uuid)>, now: Time, n: nat,
                                       m: nat)
    requires n <= m && AreServed(w, batch, drawn, now, m)
    ensures AreServed(w, batch, drawn, now, n)
    ensures Served(w, batch, drawn, now, n).0.log <= Served(w, batch, drawn, now, m).0.log
  {
    hide Serve, Served, AreServed;
    assert m <= |batch| == |drawn| by { ServedLength(w, batch, drawn, now, m); }
    if n < m {
      ServedBefore(w, batch, drawn, now, m);
      ServedGrows(w, batch, drawn, now, n, m - 1);
      ServedNext(w, batch, drawn, now, m - 1);
      ServeStep(Served(w, batch, drawn, now, m - 1).0, Me(w), batch[m - 1], drawn[m - 1].0, drawn[m - 1].1, now);
    }
  }

  /** Serving the first n commands of a batch is n steps of the protocol. */
  lemma {:induction false} ServedIsRun(w: World, batch: seq<Command>, drawn: seq<(Uuid, Uuid)>, now: Time, n: nat,
                                       log': seq<Event>, cursors': seq<nat>) returns (w': World)
    requires Good(w) && w.phase == Serving(batch, []) && AreServed(w, batch, drawn, now, n) && w.clock <= now
    requires Served(w, batch, drawn, now, n).0.log <= log' && w.cursors <= cursors' && Numbered(log', cursors')
    ensures Good(w') && SamePhone(w, w') && OnlyLapses(w, w') && w'.clock <= now
    ensures w'.core == Served(w, batch, drawn, now, n).0 && w'.cursors == cursors'[..|w'.core.log|]
    ensures w'.phase == Serving(batch, Served(w, batch, drawn, now, n).1) && |w'.phase.results| == n
  {
    hide Good, Serve, ServeAll, Execute, AreServed;
    assert n <= |batch| == |drawn| by { ServedLength(w, batch, drawn, now, n); }
    assert Numbered(w.core.log, w.cursors) by { GoodServer(w); }
    if n == 0 {
      assert batch[..0] == [] && drawn[..0] == [];
      assert Served(w, batch, drawn, now, 0) == (w.core, []) by { ServedNone(w, batch, drawn, now); }
      w' := w;
    } else {
      ServedBefore(w, batch, drawn, now, n);
      ServedGrows(w, batch, drawn, now, n - 1, n);
      var before := ServedIsRun(w, batch, drawn, now, n - 1, log', cursors');
      ServedNext(w, batch, drawn, now, n - 1);
      hide Served;
      var db', r := Served(w, batch, drawn, now, n).0, Served(w, batch, drawn, now, n).1[n - 1];
      NumberedPrefix(db'.log, log', cursors');
      w' := ServedIsStep(before, batch, before.phase.results, drawn[n - 1], now, db', r, cursors'[..|db'.log|]);
    }
  }

  lemma ServedNone(w: World, batch: seq<Command>, drawn: seq<(Uuid, Uuid)>, now: Time)
    requires |batch| == |drawn|
    ensures AreServed(w, batch, drawn, now, 0) && Served(w, batch, drawn, now, 0) == (w.core, [])
  {
  }

  lemma GoodBatch(w: World, batch: seq<Command>)
    requires Good(w) && w.phase == Serving(batch, [])
    ensures BatchDistinct(batch)
  {
    hide Inv, OutboxOk, ResultsOk;
  }

  lemma ServedAll(w: World, batch: seq<Command>, drawn: seq<(Uuid, Uuid)>, now: Time)
    requires |batch| == |drawn| && ServeAll(w.core, Me(w), batch, drawn, now).1.Some?
    ensures var (db, results) := ServeAll(w.core, Me(w), batch, drawn, now);
            AreServed(w, batch, drawn, now, |batch|) && Served(w, batch, drawn, now, |batch|) == (db, results.value)
  {
    assert batch[..|batch|] == batch && drawn[..|batch|] == drawn;
  }

  /** The two reads of the endpoint are two steps, and nothing comes between them. */
  lemma ReadsAreSteps(w: World, now: Time, core': Core, cursors': seq<nat>, reply: Reply) returns (w': World)
    requires Good(w) && w.phase.Serving? && |w.phase.results| == |w.phase.batch| && w.clock <= now
    requires Answers(w.core, core', cursors', Me(w), w.client.cursor, PAGE, now, reply)
    requires reply.results == w.phase.results && w.cursors <= cursors' && Numbered(core'.log, cursors')
    ensures Good(w') && SamePhone(w, w') && !w'.torn && w'.missed == w.missed && w'.lapsed == w.lapsed
    ensures w'.clock == now
    ensures w'.core == core' && w'.cursors == cursors' && w'.phase == Replying(w.phase.batch, reply)
    ensures !reply.hasMore ==>
              forall id :: id in core'.sessions ==> !SnapshotPast(core'.log, cursors', w.pair, id, reply.next)
  {
    CurrentAnswers(w.core, Me(w), now);
    CurrentOfPair(w.core, Me(w), now);
    hide Good, Execute, CurrentSession, IsPage;
    var w1 := w.(phase := HaveCurrent(w.phase.batch, w.phase.results, reply.current), core := core',
                 cursors := cursors', clock := now);
    assert ReadCurrent(w, w1, now);
    ReadCurrentKeepsGood(w, w1, now);
    w' := w1.(phase := Replying(w.phase.batch, reply), torn := false);
    assert Untorn(core', reply.current);
    assert ReadEvents(w1, w', reply.events, reply.next);
    ReadEventsKeepsGood(w1, w', reply.events, reply.next);
    GoodServer(w1);
    if !reply.hasMore {
      hide SnapshotPast, ReadEvents;
      ShortPage(core', cursors', w.pair, w.client.cursor, reply.events, reply.next);
      forall id ensures !SnapshotPast(core'.log, cursors', w.pair, id, reply.next) {
        LastPageLeavesNothing(w1, w', reply.events, reply.next, id);
      }
    }
  }

  lemma ShortPage(core: Core, cursors: seq<nat>, pair: Uuid, from: nat, events: seq<Event>, next: nat)
    requires |cursors| == |core.log| && IsPage(core.log, cursors, pair, from, PAGE, events, next)
    ensures |events| == PAGE || |events| < PAGE
  {
  }

  /** The request, up to the reply. */
  lemma RequestIsRun(w: World, batch: seq<Command>, drawn: seq<(Uuid, Uuid)>, device: Time, now: Time,
                     core': Core, cursors': seq<nat>, reply: Reply) returns (w': World)
    requires Good(w) && w.phase.Idle? && w.clock <= now && w.device <= device
    requires IsBatch(w.client.outbox, device, batch) && |drawn| == |batch|
    requires Some(reply.results) == ServeAll(w.core, Me(w), batch, drawn, now).1
    requires Answers(ServeAll(w.core, Me(w), batch, drawn, now).0, core', cursors', Me(w), w.client.cursor, PAGE, now,
                     reply)
    requires w.cursors <= cursors' && Numbered(core'.log, cursors')
    ensures Good(w') && w'.client == w.client && w'.fate == w.fate && w'.device == device
    ensures w'.core == core' && w'.cursors == cursors' && w'.clock == now && w'.phase == Replying(batch, reply)
    ensures w'.account == w.account && w'.pair == w.pair && !w'.torn && w'.missed == w.missed + LeftOut(w, batch)
    ensures w.core.log <= core'.log
    ensures !reply.hasMore ==>
              forall id :: id in core'.sessions ==> !SnapshotPast(core'.log, cursors', w.pair, id, reply.next)
  {
    hide Good, Execute, CurrentSession, IsPage, ServeAll, Served, LeftOut, IsBatch, Answers, SnapshotPast;
    var w1 := SendIsStep(w, batch, device);
    var w2 := CommandsAreRun(w1, batch, drawn, now, core', cursors', reply);
    w' := ReadsAreSteps(w2, now, core', cursors', reply);
  }

  lemma SendIsStep(w: World, batch: seq<Command>, device: Time) returns (w': World)
    requires Good(w) && w.phase.Idle? && w.device <= device && IsBatch(w.client.outbox, device, batch)
    ensures Good(w')
    ensures w' == w.(phase := Serving(batch, []), device := device, missed := w.missed + LeftOut(w, batch))
  {
    w' := w.(phase := Serving(batch, []), device := device, missed := w.missed + LeftOut(w, batch));
    hide Good, IsBatch, LeftOut;
    SendKeepsGood(w, w', batch, device);
  }

  lemma CommandsAreRun(w: World, batch: seq<Command>, drawn: seq<(Uuid, Uuid)>, now: Time,
                       core': Core, cursors': seq<nat>, reply: Reply) returns (w': World)
    requires Good(w) && w.phase == Serving(batch, []) && w.clock <= now && |drawn| == |batch|
    requires Some(reply.results) == ServeAll(w.core, Me(w), batch, drawn, now).1
    requires Answers(ServeAll(w.core, Me(w), batch, drawn, now).0, core', cursors', Me(w), w.client.cursor, PAGE, now,
                     reply)
    requires w.cursors <= cursors' && Numbered(core'.log, cursors')
    ensures Good(w') && SamePhone(w, w') && OnlyLapses(w, w') && w'.clock <= now
    ensures w'.core == ServeAll(w.core, Me(w), batch, drawn, now).0 && w'.phase == Serving(batch, reply.results)
    ensures |reply.results| == |batch| && w'.cursors <= cursors' && w.core.log <= w'.core.log <= core'.log
  {
    ServedAll(w, batch, drawn, now);
    ServedNone(w, batch, drawn, now);
    ServedGrows(w, batch, drawn, now, 0, |batch|);
    AnswerGrows(ServeAll(w.core, Me(w), batch, drawn, now).0, core', cursors', Me(w), w.client.cursor, now, reply);
    hide Good, Execute, ServeAll, Served, Answers;
    w' := ServedIsRun(w, batch, drawn, now, |batch|, core'.log, cursors');
  }

  lemma AnswerGrows(db: Core, db': Core, cursors: seq<nat>, who: Identity, cursor: nat, now: Time, reply: Reply)
    requires Answers(db, db', cursors, who, cursor, PAGE, now, reply)
    ensures db.log <= db'.log
  {
    LogGrows(db, CCurrent(who), now);
    CurrentAnswers(db, who, now);
    hide Execute, CurrentSession, IsPage;
  }

  /** Every session is fresh, and no command in the outbox was ever left out after it had committed. */
  ghost predicate Calm(w: World) {
    (forall id :: InPair(w, id) ==> IsFresh(w, id)) && forall id :: id in w.client.outbox ==> id !in w.missed
  }

  /** A run at the phone's own pace is calm and orderly at every moment, so that a sync then ends in agreement. */
  lemma PacedIsCalm(ws: seq<World>, steps: seq<Step>, n: nat)
    requires Run(ws, steps) && Paced(ws, steps) && Steady(ws, steps) && n < |ws|
    ensures Good(ws[n]) && Calm(ws[n]) && Front(ws[n])
  {
    RunGood(ws, steps, n);
    OrderlyRun(ws, steps, n);
    hide Run, Good, Paced, Steady, Quiet, InPair, IsFresh, Unhealed, PlainOutbox, BatchInFront, Front;
    PacedIsQuiet(ws, steps);
    QuietRecord(ws, steps, n);
    forall id | InPair(ws[n], id) ensures IsFresh(ws[n], id) {
      QuietHeals(ws, steps, n, id);
      FreshInRun(ws, steps, n, id);
    }
  }

  lemma CalmRequest(w: World, w1: World)
    requires Good(w) && Good(w1) && Calm(w) && w1.client == w.client && w1.pair == w.pair && w1.missed == w.missed
    requires w.core.log <= w1.core.log && w.cursors <= w1.cursors
    ensures Calm(w1)
  {
    assert ServerOk(w) && ServerOk(w1) by { hide Inv, OutboxOk, FatesOk, PhaseOk; }
    hide Good, ServerOk, IsFresh;
    forall id | InPair(w1, id) ensures IsFresh(w1, id) {
      ServerDecides(w, w1, id);
      if !NewSnapshot(w.core.log, w1.core.log, id) {
        RowStays(w, w1, id);
      }
    }
  }

  lemma CalmDelivery(w: World, w': World, now: Time)
    requires Good(w) && Calm(w) && !w.torn && Deliver(w, w', now)
    ensures Calm(w')
  {
    forall id | InPair(w', id) ensures IsFresh(w', id) {
      assert InPair(w, id) && IsFresh(w, id);
      hide IsFresh, Receive, Told;
      DeliveryDecides(w, w', now, id);
      CalmSpoilsNothing(w, id);
    }
    hide Good, IsFresh;
    OutboxShrinks(w.client, w.phase.reply.results, now);
  }

  /** After a delivery in a calm state no committed command waits any more. */
  lemma NothingUnheard(w: World, w': World, now: Time)
    requires Good(w) && Calm(w) && Deliver(w, w', now)
    ensures forall id :: !Unheard(w', id)
    ensures Front(w')
  {
    hide Good, IsFresh, Receive, Told, FatesOk;
    DeliverOutbox(w, w', now);
    FewWait(w');
  }

  lemma CalmSpoilsNothing(w: World, id: Uuid)
    requires Good(w) && Calm(w) && !w.torn && w.phase.Replying?
    ensures !TornFor(w, id) && !StaleFor(w, id)
  {
    if TornFor(w, id) {
      SpoilingIsTorn(w, id);
    }
    if StaleFor(w, id) {
      CarrierWaits(w, id);
    }
  }

  lemma CarrierWaits(w: World, id: Uuid)
    requires Good(w) && w.phase.Replying? && Carrier(w.phase.reply.results, id).Some?
    ensures Carrier(w.phase.reply.results, id).value.id in w.client.outbox
  {
    var k := CarrierIsThere(w.phase.reply.results, id);
    assert w.phase.reply.results[k].id == w.phase.batch[k].id;
  }

  lemma CalmShows(w: World, cursor: nat)
    requires Calm(w) && w.client.cursor == cursor && |w.cursors| == |w.core.log|
    requires forall id :: id in w.core.sessions ==> !SnapshotPast(w.core.log, w.cursors, w.pair, id, cursor)
    ensures Converged(w)
  {
    hide SnapshotPast, Agrees;
  }

  /** An uninterrupted round trip is a run; and if it brings the last page, phone and server agree. */
  lemma RoundTrip(w: World, batch: seq<Command>, drawn: seq<(Uuid, Uuid)>, device: Time, now: Time,
                  core': Core, cursors': seq<nat>, reply: Reply) returns (w': World)
    requires Good(w) && w.phase.Idle? && w.clock <= now && w.device <= device
    requires IsBatch(w.client.outbox, device, batch) && |drawn| == |batch|
    requires Some(reply.results) == ServeAll(w.core, Me(w), batch, drawn, now).1
    requires Answers(ServeAll(w.core, Me(w), batch, drawn, now).0, core', cursors', Me(w), w.client.cursor, PAGE, now,
                     reply)
    requires w.cursors <= cursors' && Numbered(core'.log, cursors')
    ensures Good(w') && w'.phase.Idle? && w'.client == Receive(w.client, reply, device) && w'.device == device
    ensures w'.core == core' && w'.cursors == cursors' && w'.clock == now
    ensures w'.account == w.account && w'.pair == w.pair
    ensures Calm(w) && Covers(w, batch) ==> Calm(w') && Front(w') && (!reply.hasMore ==> Converged(w'))
  {
    hide Good, Answers, ServeAll, Receive, Told, Covers, LeftOut, IsPending, SnapshotPast, Calm, Front, Converged;
    var w1 := RequestIsRun(w, batch, drawn, device, now, core', cursors', reply);
    w' := w1.(phase := Idle, client := Receive(w1.client, reply, device), fate := Told(w1.fate, reply.results));
    assert Deliver(w1, w', device);
    DeliverKeepsGood(w1, w', device);
    if Calm(w) && Covers(w, batch) {
      CalmTrip(w, w1, w', batch, device);
    }
  }

  lemma CalmTrip(w: World, w1: World, w': World, batch: seq<Command>, device: Time)
    requires Good(w) && Good(w1) && Good(w') && Calm(w) && Covers(w, batch) && Deliver(w1, w', device) && !w1.torn
    requires w1.client == w.client && w1.pair == w.pair && w1.missed == w.missed + LeftOut(w, batch)
    requires w.core.log <= w1.core.log && w.cursors <= w1.cursors && |w1.cursors| == |w1.core.log|
    requires !w1.phase.reply.hasMore ==>
               forall id :: id in w1.core.sessions ==>
                 !SnapshotPast(w1.core.log, w1.cursors, w1.pair, id, w1.phase.reply.next)
    ensures Calm(w') && Front(w') && (!w1.phase.reply.hasMore ==> Converged(w'))
  {
    assert w1.missed == w.missed;
    NextOutbox(w1.client, w1.phase.reply, device);
    hide Good, Calm, Receive, Told, Converged, SnapshotPast, LeftOut;
    CalmRequest(w, w1);
    NothingUnheard(w1, w', device);
    CalmDelivery(w1, w', device);
    if !w1.phase.reply.hasMore {
      CalmShows(w', w1.phase.reply.next);
    }
  }

  // ---------------------------------------------------------------- why paging ends

  lemma SmallerSet(a: set<Uuid>, b: set<Uuid>, x: Uuid)
    requires a <= b && x in b && x !in a
    ensures |a| < |b|
  {
    assert a <= b - {x};
    SubsetSize(a, b - {x});
  }

  lemma KeysSize(a: Outbox, b: Outbox)
    requires a.Keys <= b.Keys
    ensures |a| <= |b| && (|a| == |b| ==> a.Keys == b.Keys)
  {
    assert |a.Keys| == |a| && |b.Keys| == |b|;
    SubsetSize(a.Keys, b.Keys);
    if x :| x in b.Keys && x !in a.Keys {
      SmallerSet(a.Keys, b.Keys, x);
    }
  }

  lemma {:induction false} OutboxShrinks(client: Client, results: seq<Result>, device: Time)
    ensures ApplyResults(client, results, device).outbox.Keys <= client.outbox.Keys
    ensures KeepsEntries(client.outbox, ApplyResults(client, results, device).outbox)
  {
    if |results| > 0 {
      OutboxShrinks(client, results[..|results| - 1], device);
    }
  }

  lemma {:induction false} ResultIds(db: Core, who: Identity, batch: seq<Command>, drawn: seq<(Uuid, Uuid)>, now: Time,
                                     results: seq<Result>)
    requires |drawn| == |batch| && ServeAll(db, who, batch, drawn, now).1 == Some(results)
    ensures |results| == |batch| && forall i :: 0 <= i < |batch| ==> results[i].id == batch[i].id
  {
    hide Serve;
    if |batch| > 0 {
      var n := |batch| - 1;
      var (db1, before) := ServeAll(db, who, batch[..n], drawn[..n], now);
      ResultIds(db, who, batch[..n], drawn[..n], now, before.value);
      ServeSucceeds(db1, who, batch[n], drawn[n].0, drawn[n].1, now);
    }
  }

  /** If no command leaves the outbox, every command of the batch was refused. */
  lemma StuckIsRefused(client: Client, results: seq<Result>, device: Time, batch: seq<Command>)
    requires |results| == |batch| && BatchDistinct(batch)
    requires forall i :: 0 <= i < |batch| ==> results[i].id == batch[i].id && batch[i].id in client.outbox
    requires |ApplyResults(client, results, device).outbox| == |client.outbox|
    ensures forall i :: 0 <= i < |results| ==> results[i].Rejected?
  {
    OutboxShrinks(client, results, device);
    KeysSize(ApplyResults(client, results, device).outbox, client.outbox);
    forall i | 0 <= i < |results| ensures results[i].Rejected? {
      assert results[i].id == batch[i].id;
      ResultsSettle(client, results, device, results[i].id);
      assert batch[i].id in ApplyResults(client, results, device).outbox.Keys;
    }
  }

  lemma RefusedKeepsTables(db: Core, who: Identity, command: Command, freshSid: Uuid, freshId: Uuid, now: Time)
    requires var r := Serve(db, who, command, freshSid, freshId, now).1; r.Some? && r.value.Rejected?
    ensures Serve(db, who, command, freshSid, freshId, now).0 == db
  {
    var plan := PlanOf(who, command, freshSid, freshId);
    if plan.Perform? {
      PlanIsStable(who, command, freshSid, freshId);
      if !Execute(db, plan.call, now).1.Ok? {
        OnlyCommitsChange(db, plan.call, now);
      }
    }
    hide Execute, PlanOf;
  }

  lemma {:induction false} AllRefusedKeepsTables(db: Core, who: Identity, batch: seq<Command>, drawn: seq<(Uuid, Uuid)>,
                                                 now: Time, results: seq<Result>)
    requires |drawn| == |batch| && ServeAll(db, who, batch, drawn, now).1 == Some(results)
    requires forall i :: 0 <= i < |results| ==> results[i].Rejected?
    ensures ServeAll(db, who, batch, drawn, now).0 == db
  {
    hide Serve;
    if |batch| > 0 {
      var n := |batch| - 1;
      var (db1, before) := ServeAll(db, who, batch[..n], drawn[..n], now);
      var r := Serve(db1, who, batch[n], drawn[n].0, drawn[n].1, now).1;
      assert results == before.value + [r.value];
      assert forall i :: 0 <= i < |before.value| ==> before.value[i] == results[i];
      AllRefusedKeepsTables(db, who, batch[..n], drawn[..n], now, before.value);
      assert results[|before.value|] == r.value;
      RefusedKeepsTables(db1, who, batch[n], drawn[n].0, drawn[n].1, now);
    }
  }

  /** Whether the pair has an active session, which a later sweep could end. */
  ghost function ActiveCount(db: Core, pair: Uuid): nat {
    if HasActive(db.sessions, pair) then 1 else 0
  }

  lemma SweepStops(db: Core, pair: Uuid, now: Time)
    requires OneActive(db) && Sweep(db, pair, now) != db
    ensures ActiveCount(db, pair) == 1 && ActiveCount(Sweep(db, pair, now), pair) == 0
  {
    var id :| IsDue(db.sessions, pair, id, now);
    SweepIs(db, pair, now, id);
    assert IsActiveOf(db.sessions, pair, id);
    var swept := Sweep(db, pair, now);
    forall other ensures !IsActiveOf(swept.sessions, pair, other) {
      if IsActiveOf(swept.sessions, pair, other) && other != id {
        assert IsActiveOf(db.sessions, pair, other);
      }
    }
  }

  /** A full page after a sweep that did nothing takes events off what is left to replay. */
  lemma PageProgress(db: Core, cursors: seq<nat>, who: Identity, cursor: nat, now: Time, db': Core, cursors': seq<nat>,
                     reply: Reply)
    requires OneActive(db) && who.pair.Some? && Numbered(db.log, cursors) && Numbered(db'.log, cursors')
    requires cursors <= cursors' && cursor <= Top(cursors)
    requires Answers(db, db', cursors', who, cursor, PAGE, now, reply) && reply.hasMore
    ensures var pair := who.pair.value;
            ActiveCount(db', pair) < ActiveCount(db, pair) ||
            (ActiveCount(db', pair) == ActiveCount(db, pair) &&
             |Past(db'.log, cursors', pair, reply.next)| < |Past(db.log, cursors, pair, cursor)|)
  {
    var pair := who.pair.value;
    if Sweep(db, pair, now) == db {
      assert cursors' == cursors;
      PageLeavesRest(db.log, cursors, pair, cursor, PAGE, reply.events, reply.next);
    } else {
      SweepStops(db, pair, now);
    }
  }

  /** The measure of the paging recursion: commands, then a session that may end, then remaining events. */
  ghost predicate Progress(a: World, b: World)
    requires |a.cursors| == |a.core.log| && |b.cursors| == |b.core.log|
  {
    var p, q := ActiveCount(a.core, a.pair), ActiveCount(b.core, b.pair);
    |b.client.outbox| < |a.client.outbox| || (|b.client.outbox| == |a.client.outbox| && (q < p || (q == p &&
      |Past(b.core.log, b.cursors, b.pair, b.client.cursor)| < |Past(a.core.log, a.cursors, a.pair, a.client.cursor)|)))
  }

  /**
   A round trip with a full page makes progress, whatever the two clocks show: a command leaves the outbox,
   or all were refused and changed nothing, so that a session ended or events were taken off.
   */
  lemma RoundTripProgress(w: World, w': World, batch: seq<Command>, drawn: seq<(Uuid, Uuid)>, device: Time, now: Time,
                          reply: Reply)
    requires Good(w) && Good(w') && w.clock <= now && w'.pair == w.pair && |drawn| == |batch|
    requires IsBatch(w.client.outbox, device, batch)
    requires Some(reply.results) == ServeAll(w.core, Me(w), batch, drawn, now).1
    requires w'.client == Receive(w.client, reply, device) && w.cursors <= w'.cursors
    requires Answers(ServeAll(w.core, Me(w), batch, drawn, now).0, w'.core, w'.cursors, Me(w), w.client.cursor, PAGE,
                     now, reply)
    requires reply.hasMore
    ensures |w.cursors| == |w.core.log| && |w'.cursors| == |w'.core.log| && Progress(w, w')
  {
    GoodServer(w);
    GoodServer(w');
    ResultIds(w.core, Me(w), batch, drawn, now, reply.results);
    assert OneActive(w.core);
    hide Good, Inv, ServeAll, Answers, Past, ActiveCount;
    NextOutbox(w.client, reply, device);
    OutboxShrinks(w.client, reply.results, device);
    KeysSize(w'.client.outbox, w.client.outbox);
    if |w'.client.outbox| == |w.client.outbox| {
      StuckIsRefused(w.client, reply.results, device, batch);
      AllRefusedKeepsTables(w.core, Me(w), batch, drawn, now, reply.results);
      PageProgress(w.core, w.cursors, Me(w), w.client.cursor, now, w'.core, w'.cursors, reply);
    }
  }

  /** A delivery enqueues nothing and changes no command. */
  ghost predicate KeepsEntries(outbox: Outbox, outbox': Outbox) {
    forall id :: id in outbox' ==> id in outbox && outbox'[id].command == outbox[id].command
  }

  lemma NextOutbox(client: Client, reply: Reply, device: Time)
    ensures Receive(client, reply, device).cursor == reply.next
    ensures Receive(client, reply, device).outbox == ApplyResults(client, reply.results, device).outbox
  {
  }

  /** Everything there is to say about one uninterrupted round trip that is answered. */
  lemma RoundTripFull(w: World, batch: seq<Command>, drawn: seq<(Uuid, Uuid)>, device: Time, now: Time,
                      core': Core, cursors': seq<nat>, reply: Reply) returns (w': World)
    requires Good(w) && w.phase.Idle? && w.clock <= now && w.device <= device
    requires IsBatch(w.client.outbox, device, batch) && |drawn| == |batch|
    requires Some(reply.results) == ServeAll(w.core, Me(w), batch, drawn, now).1
    requires Answers(ServeAll(w.core, Me(w), batch, drawn, now).0, core', cursors', Me(w), w.client.cursor, PAGE, now,
                     reply)
    requires w.cursors <= cursors' && Numbered(core'.log, cursors')
    ensures Good(w') && w'.phase.Idle? && w'.client == Receive(w.client, reply, device) && w'.device == device
    ensures w'.core == core' && w'.cursors == cursors' && w'.clock == now
    ensures w'.account == w.account && w'.pair == w.pair && KeepsEntries(w.client.outbox, w'.client.outbox)
    ensures Calm(w) && Front(w) ==> Calm(w') && Front(w') && (!reply.hasMore ==> Converged(w'))
    ensures |w.cursors| == |w.core.log| && |w'.cursors| == |w'.core.log| && (reply.hasMore ==> Progress(w, w'))
  {
    GoodServer(w);
    hide Good, Answers, ServeAll, Receive, Covers, IsPending, Inv, Progress, Converged, Calm, Front, ServerOk;
    if Front(w) { FrontCovers(w, batch, device); }
    w' := RoundTrip(w, batch, drawn, device, now, core', cursors', reply);
    GoodServer(w');
    NextOutbox(w.client, reply, device);
    OutboxShrinks(w.client, reply.results, device);
    if reply.hasMore {
      RoundTripProgress(w, w', batch, drawn, device, now, reply);
    }
  }

  // ---------------------------------------------------------------- a request that fails

  /** The place of the command that makes a request fail. */
  lemma {:induction false} FirstFailure(w: World, batch: seq<Command>, drawn: seq<(Uuid, Uuid)>, now: Time, m: nat)
      returns (n: nat)
    requires m <= |batch| == |drawn| && !AreServed(w, batch, drawn, now, m)
    ensures n < m && AreServed(w, batch, drawn, now, n) && !AreServed(w, batch, drawn, now, n + 1)
  {
    hide AreServed, ServeAll, Served;
    ServedNone(w, batch, drawn, now);
    if AreServed(w, batch, drawn, now, m - 1) {
      n := m - 1;
    } else {
      n := FirstFailure(w, batch, drawn, now, m - 1);
    }
  }

  /** A command that makes the request fail has changed nothing. */
  lemma FailureKeepsTables(db: Core, who: Identity, command: Command, freshSid: Uuid, freshId: Uuid, now: Time)
    requires Serve(db, who, command, freshSid, freshId, now).1.None?
    ensures Serve(db, who, command, freshSid, freshId, now).0 == db && HoldsNul(command)
    ensures var plan := PlanOf(who, command, freshSid, freshId);
            plan.Perform? && plan.call.Keyed() && Execute(db, plan.call, now) == (db, Failed(Internal))
  {
    ServeSucceeds(db, who, command, freshSid, freshId, now);
    PlanIsStable(who, command, freshSid, freshId);
    var plan := PlanOf(who, command, freshSid, freshId);
    KeyedCallAnswers(db, plan.call, now);
    OnlyCommitsChange(db, plan.call, now);
    hide Execute;
  }

  /** What a failed request leaves at the server: the commands before the one that failed. */
  lemma FailedRequest(w: World, batch: seq<Command>, drawn: seq<(Uuid, Uuid)>, now: Time) returns (n: nat)
    requires |drawn| == |batch| && ServeAll(w.core, Me(w), batch, drawn, now).1.None?
    ensures n < |batch| && AreServed(w, batch, drawn, now, n) && HoldsNul(batch[n])
    ensures ServeAll(w.core, Me(w), batch, drawn, now).0 == Served(w, batch, drawn, now, n).0
    ensures Serve(Served(w, batch, drawn, now, n).0, Me(w), batch[n], drawn[n].0, drawn[n].1, now).1.None?
  {
    assert batch[..|batch|] == batch && drawn[..|batch|] == drawn;
    n := FirstFailure(w, batch, drawn, now, |batch|);
    ServedNext(w, batch, drawn, now, n);
    var db := Served(w, batch, drawn, now, n).0;
    ServeAllNext(w.core, Me(w), batch, drawn, now, n);
    hide Serve, ServeAll, HoldsNul;
    ServeAllFails(w.core, Me(w), batch, drawn, now, n + 1);
    FailureKeepsTables(db, Me(w), batch[n], drawn[n].0, drawn[n].1, now);
  }

  lemma FailureIsStep(w: World, batch: seq<Command>, results: seq<Result>, drawn: (Uuid, Uuid), now: Time)
      returns (w': World)
    requires Good(w) && w.phase == Serving(batch, results) && |results| < |batch| && w.clock <= now
    requires Serve(w.core, Me(w), batch[|results|], drawn.0, drawn.1, now).1.None?
    ensures Good(w') && SamePhone(w, w') && OnlyLapses(w, w') && w'.clock == now && w'.phase.Idle?
    ensures w'.core == w.core && w'.cursors == w.cursors
  {
    var command := batch[|results|];
    FailureKeepsTables(w.core, Me(w), command, drawn.0, drawn.1, now);
    hide Good, PlanOf, Execute, Numbered, Serve, HoldsNul, Lapses;
    assert Numbered(w.core.log, w.cursors) by { GoodServer(w); }
    w' := w.(phase := Idle, clock := now, lapsed := w.lapsed + (if Lapses(w, now) then {command.id} else {}));
    ServeNextKeepsGood(w, w', drawn.0, drawn.1, now);
  }

  /**
   A request that fails is a run too: the commands before the note take effect and their results are lost.
   The phone is as it was, so it sends the same commands again.
   */
  lemma FailedTrip(w: World, batch: seq<Command>, drawn: seq<(Uuid, Uuid)>, device: Time, now: Time, core': Core,
                   cursors': seq<nat>) returns (w': World)
    requires Good(w) && w.phase.Idle? && w.clock <= now && w.device <= device
    requires IsBatch(w.client.outbox, device, batch) && |drawn| == |batch|
    requires ServeAll(w.core, Me(w), batch, drawn, now) == (core', None)
    requires w.cursors <= cursors' && Numbered(core'.log, cursors')
    ensures Good(w') && w'.phase.Idle? && w'.client == w.client && w'.device == device
    ensures w'.core == core' && w'.cursors == cursors' && w'.clock == now
    ensures w'.account == w.account && w'.pair == w.pair && exists i :: 0 <= i < |batch| && HoldsNul(batch[i])
    ensures Calm(w) && Covers(w, batch) ==> Calm(w')
  {
    hide Good, ServeAll, Serve, Served, LeftOut, IsBatch, AreServed, HoldsNul, Calm, Numbered;
    var n := FailedRequest(w, batch, drawn, now);
    var w1 := SendIsStep(w, batch, device);
    SameServed(w, w1, batch, drawn, now, n);
    var w2 := ServedIsRun(w1, batch, drawn, now, n, core'.log, cursors');
    assert |cursors'| == |core'.log| && cursors'[..|core'.log|] == cursors' by { NumberedLength(core'.log, cursors'); }
    w' := FailureIsStep(w2, batch, w2.phase.results, drawn[n], now);
    if Calm(w) && Covers(w, batch) {
      GoodServer(w);
      ServedNone(w1, batch, drawn, now);
      ServedGrows(w1, batch, drawn, now, 0, n);
      CalmRequest(w, w');
    }
  }

  lemma NumberedLength(log: seq<Event>, cursors: seq<nat>)
    requires Numbered(log, cursors)
    ensures |cursors| == |log|
  {
  }

  lemma SameServed(w: World, w1: World, batch: seq<Command>, drawn: seq<(Uuid, Uuid)>, now: Time, n: nat)
    requires AreServed(w, batch, drawn, now, n) && w1.core == w.core && w1.account == w.account && w1.pair == w.pair
    ensures AreServed(w1, batch, drawn, now, n) && Served(w1, batch, drawn, now, n) == Served(w, batch, drawn, now, n)
  {
  }
}
