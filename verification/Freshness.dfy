/**
 When the phone's copy of one session can go wrong. A session is fresh on the phone if its local row is the
 server's or a snapshot of it has yet to be replayed. Each step of the protocol decides freshness exactly:
 two kinds of delivery spoil it, and four events renew it.
 */
module Freshness {
  import opened Domain
  import opened Timeline
  import opened Tables
  import opened Reducer
  import opened StoreInvariant
  import opened StoreRuns
  import opened Paging
  import opened SyncMessages
  import opened SyncProtocol
  import opened SyncSteps

  ghost predicate InPair(w: World, id: Uuid) {
    id in w.core.sessions && w.core.sessions[id].pair == w.pair
  }

  /** A snapshot of the session lies past a cursor. */
  ghost predicate IsPast(w: World, id: Uuid, cursor: nat) {
    |w.cursors| == |w.core.log| && SnapshotPast(w.core.log, w.cursors, w.pair, id, cursor)
  }

  /** Phone and server have the same row and participants. */
  ghost predicate Agrees(w: World, id: Uuid) {
    id in w.core.sessions && id in w.client.local && SameRow(w.client.local[id], Read(w.core, id))
  }

  ghost predicate IsFresh(w: World, id: Uuid) {
    IsPast(w, id, w.client.cursor) || Agrees(w, id)
  }

  predicate IsCurrent(reply: Reply, id: Uuid) {
    reply.current.Some? && reply.current.value.id == id
  }

  /** The last result that carries a session. */
  function Carrier(results: seq<Result>, id: Uuid): (r: Option<Result>)
    ensures r.Some? ==> r.value.Applied? && r.value.resource.SessionResponse? && r.value.resource.session.id == id
  {
    if |results| == 0 then None
    else
      var r := results[|results| - 1];
      if r.Applied? && r.resource.SessionResponse? && r.resource.session.id == id then Some(r)
      else Carrier(results[..|results| - 1], id)
  }

  /** The reply's current session was read before the session moved on, and the page was read after. */
  ghost predicate TornFor(w: World, id: Uuid) {
    w.phase.Replying? && InPair(w, id) && IsCurrent(w.phase.reply, id) && !IsPast(w, id, w.phase.reply.next) &&
    w.phase.reply.current.value.row.version < w.core.sessions[id].version
  }

  /**
   The reply answers a command that an earlier batch left out after it had committed, the cursor has passed
   every snapshot of the session that the answer carries, and the session has moved on since.
   */
  ghost predicate StaleFor(w: World, id: Uuid) {
    w.phase.Replying? && InPair(w, id) && !IsCurrent(w.phase.reply, id) && !IsPast(w, id, w.client.cursor) &&
    var carrier := Carrier(w.phase.reply.results, id);
    carrier.Some? && carrier.value.id in w.missed &&
    carrier.value.resource.session.row.version < w.core.sessions[id].version
  }

  /** The reply itself carries the session at its present version. */
  ghost predicate Brought(w: World, id: Uuid) {
    w.phase.Replying? && InPair(w, id) &&
    var carrier := Carrier(w.phase.reply.results, id);
    if IsCurrent(w.phase.reply, id) then w.phase.reply.current.value.row.version == w.core.sessions[id].version
    else carrier.Some? && carrier.value.resource.session.row.version == w.core.sessions[id].version
  }

  ghost predicate Spoils(w: World, step: Step, id: Uuid) {
    step.DeliverStep? && (TornFor(w, id) || StaleFor(w, id))
  }

  ghost predicate Renews(w: World, w': World, step: Step, id: Uuid) {
    NewSnapshot(w.core.log, w'.core.log, id) ||
    (step.RefreshHistoryStep? && id in step.ids) ||
    (step.DeliverStep? && Brought(w, id))
  }

  // ---------------------------------------------------------------- versions tell rows apart

  /** A recorded snapshot is the stored row exactly when it has the stored version. */
  lemma LoggedVersion(core: Core, t: Time, fs: FocusSession)
    requires Inv(core, t) && fs.id in core.sessions && Logged(core.log, fs)
    ensures fs.row.version <= core.sessions[fs.id].version
    ensures SameRow(fs, Read(core, fs.id)) <==> fs.row.version == core.sessions[fs.id].version
  {
    StoredIsLast(core, t, fs.id);
    var h, stored := History(core.log, fs.id), Read(core, fs.id);
    var k :| 0 <= k < |h| && SameRow(h[k].session, fs);
    assert stored.row == core.sessions[fs.id];
    hide Inv, Chain, Logged, History, Read, SameRow;
    SnapshotVersion(h, k, fs, stored);
  }

  lemma SnapshotVersion(h: seq<Stamp>, k: nat, fs: FocusSession, stored: FocusSession)
    requires Chain(h) && k < |h| && SameRow(h[k].session, fs) && SameRow(Last(h).session, stored)
    ensures fs.row.version == k + 1 <= |h| == stored.row.version
    ensures SameRow(fs, stored) <==> fs.row.version == stored.row.version
  {
    hide Chain, WellFormed;
    VersionsCount(h, k);
    VersionsCount(h, |h| - 1);
  }

  lemma StoredIsLast(core: Core, t: Time, id: Uuid)
    requires Inv(core, t) && id in core.sessions
    ensures var h := History(core.log, id);
            Chain(h) && |h| == core.sessions[id].version && SameRow(Last(h).session, Read(core, id))
  {
    LastStamp(core, t, id);
    hide Inv, Chain, WellFormed, History;
    ChainShape(History(core.log, id));
  }

  // ---------------------------------------------------------------- a delivery

  lemma {:induction false} CarrierIsThere(results: seq<Result>, id: Uuid) returns (k: nat)
    requires Carrier(results, id).Some?
    ensures k < |results| && results[k] == Carrier(results, id).value
  {
    k := |results| - 1;
    var r := results[k];
    if !(r.Applied? && r.resource.SessionResponse? && r.resource.session.id == id) {
      k := CarrierIsThere(results[..k], id);
    }
  }

  lemma {:induction false} NoCarrier(results: seq<Result>, id: Uuid, i: nat)
    requires Carrier(results, id).None? && i < |results|
    ensures !(results[i].Applied? && results[i].resource.SessionResponse? && results[i].resource.session.id == id)
  {
    if i < |results| - 1 {
      NoCarrier(results[..|results| - 1], id, i);
    }
  }

  /** The results leave the last session that they carry, and touch no other. */
  lemma {:induction false} ResultsLeave(client: Client, results: seq<Result>, now: Time, id: Uuid)
    requires Carrier(results, id).Some?
    ensures var local := ApplyResults(client, results, now).local;
            id in local && local[id] == Carrier(results, id).value.resource.session
  {
    if |results| > 0 {
      var n := |results| - 1;
      if Carrier(results[..n], id).Some? {
        ResultsLeave(client, results[..n], now, id);
      }
    }
  }

  /** What the invariant says of a result that carries a session. */
  lemma CarrierFacts(w: World, id: Uuid)
    requires Good(w) && w.phase.Replying? && InPair(w, id) && !IsPast(w, id, w.client.cursor)
    requires Carrier(w.phase.reply.results, id).Some?
    ensures var carrier := Carrier(w.phase.reply.results, id).value;
            carrier.id in w.missed && Inv(w.core, w.clock) && Logged(w.core.log, carrier.resource.session)
  {
    hide Good, Inv, SnapshotPast, OutboxOk, FatesOk, BatchOk, Logged, KeysLogged, Numbered, Top;
    ReplyResults(w);
    var results := w.phase.reply.results;
    var k := CarrierIsThere(results, id);
    assert results[k].id !in w.missed ==> Ahead(w, results[k].resource);
  }

  lemma ReplyResults(w: World)
    requires Good(w) && w.phase.Replying?
    ensures Inv(w.core, w.clock) && |w.cursors| == |w.core.log| && BatchOk(w, w.phase.batch)
    ensures ResultsOk(w, w.phase.batch, w.phase.reply.results)
  {
    hide Good, ServerOk, Inv, Numbered, OutboxOk, FatesOk, BatchOk, ResultsOk, ReplyOk;
    GoodServer(w);
  }

  /** A session that the page does not bring: what the results make of it. */
  lemma AfterResults(w: World, id: Uuid, now: Time)
    requires Good(w) && w.phase.Replying? && InPair(w, id) && !IsPast(w, id, w.client.cursor)
    ensures var reply := w.phase.reply; var local := ApplyResults(w.client, reply.results, now).local;
            var carrier := Carrier(reply.results, id); var version := w.core.sessions[id].version;
            if carrier.Some? then
              id in local && carrier.value.id in w.missed && carrier.value.resource.session.row.version <= version &&
              (SameRow(local[id], Read(w.core, id)) <==> carrier.value.resource.session.row.version == version)
            else (id in local <==> id in w.client.local) && (id in local ==> local[id] == w.client.local[id])
  {
    var results := w.phase.reply.results;
    if Carrier(results, id).Some? {
      CarrierFacts(w, id);
      hide Good, Inv, IsPast, ApplyResults, Logged;
      ResultsLeave(w.client, results, now, id);
      LoggedVersion(w.core, w.clock, Carrier(results, id).value.resource.session);
    } else {
      assert Keyed(w.client.local) by { hide Inv, OutboxOk, FatesOk, PhaseOk, IsPast; }
      hide Good, IsPast, ApplyResults, Carrier;
      forall i | 0 <= i < |results| && results[i].Applied? && results[i].resource.SessionResponse?
        ensures results[i].resource.session.id != id
      {
        NoCarrier(results, id, i);
      }
      ResultsWriteOwn(w.client, results, now, id);
    }
  }

  /** What the invariant says of the page. */
  lemma PageFacts(w: World)
    requires Good(w) && w.phase.Replying?
    ensures var reply := w.phase.reply;
            Inv(w.core, w.clock) && Numbered(w.core.log, w.cursors) && Keyed(w.client.local) &&
            w.client.cursor <= reply.next &&
            reply.events == Visible(w.core.log, w.cursors, w.pair, w.client.cursor, reply.next)
  {
    hide Inv, KeysLogged, Numbered, OutboxOk, FatesOk, BatchOk, ResultsOk, OfPair, Fresh, Visible, Top;
  }

  /** The local row after the page, before the current session is written. */
  lemma AfterPage(w: World, id: Uuid, now: Time)
    requires Good(w) && w.phase.Replying? && InPair(w, id) && !IsPast(w, id, w.phase.reply.next)
    ensures var reply := w.phase.reply; var settled := ApplyResults(w.client, reply.results, now).local;
            var local := Fold(settled, reply.events);
            if IsPast(w, id, w.client.cursor) then id in local && SameRow(local[id], Read(w.core, id))
            else (id in local <==> id in settled) && (id in local ==> SameRow(local[id], settled[id]))
  {
    var reply := w.phase.reply;
    PageFacts(w);
    hide Good, Inv, ApplyResults, LastSnapshot, Fold, SnapshotPast, Visible;
    LastIsStored(w.core, w.clock, w.pair, id);
    ResultsKeyed(w.client, reply.results, now);
    FoldRow(ApplyResults(w.client, reply.results, now).local, reply.events, id);
    if IsPast(w, id, w.client.cursor) {
      LastInStretch(w.core.log, w.cursors, w.pair, id, w.client.cursor, reply.next);
    } else {
      NoneInStretch(w.core.log, w.cursors, w.pair, id, w.client.cursor, reply.next);
    }
  }

  lemma PastLess(w: World, id: Uuid, low: nat, high: nat)
    requires IsPast(w, id, high) && low <= high
    ensures IsPast(w, id, low)
  {
  }

  lemma ReplyFacts(w: World, id: Uuid)
    requires Good(w) && w.phase.Replying? && InPair(w, id)
    ensures w.client.cursor <= w.phase.reply.next && |w.cursors| == |w.core.log| && Inv(w.core, w.clock)
    ensures IsCurrent(w.phase.reply, id) ==> Logged(w.core.log, w.phase.reply.current.value)
  {
    hide Inv, OutboxOk, FatesOk, BatchOk, ResultsOk, Logged;
  }

  /** A delivery leaves a session fresh exactly when it does not spoil it, and it was fresh or is brought along. */
  lemma DeliveryDecides(w: World, w': World, now: Time, id: Uuid)
    requires Good(w) && Deliver(w, w', now) && InPair(w, id)
    ensures IsFresh(w', id) <==> !(TornFor(w, id) || StaleFor(w, id)) && (IsFresh(w, id) || Brought(w, id))
  {
    var reply := w.phase.reply;
    ReplyFacts(w, id);
    hide Good, Inv, Told, ApplyResults, Fold, Carrier, SnapshotPast, Logged;
    assert w'.client == Receive(w.client, reply, now);
    if IsPast(w, id, reply.next) {
      PastLess(w, id, w.client.cursor, reply.next);
    } else if IsCurrent(reply, id) {
      LoggedVersion(w.core, w.clock, reply.current.value);
    } else {
      AfterPage(w, id, now);
      if !IsPast(w, id, w.client.cursor) {
        AfterResults(w, id, now);
      }
      CurrentAside(Fold(ApplyResults(w.client, reply.results, now).local, reply.events), reply, id);
    }
  }

  lemma CurrentAside(local: Local, reply: Reply, id: Uuid)
    requires !IsCurrent(reply, id)
    ensures var after := if reply.current.Some? then Upsert(local, reply.current.value) else local;
            (id in after <==> id in local) && (id in after ==> after[id] == local[id])
  {
  }

  // ---------------------------------------------------------------- every other step

  lemma SnapshotRenews(w: World, w': World, id: Uuid)
    requires ServerOk(w) && ServerOk(w') && w'.client == w.client && w'.pair == w.pair
    requires w.core.log <= w'.core.log && w.cursors <= w'.cursors && InPair(w', id)
    requires NewSnapshot(w.core.log, w'.core.log, id)
    ensures IsFresh(w', id)
  {
    LastIsStored(w'.core, w'.clock, w.pair, id);
    hide Inv, LastSnapshot;
    var i :| |w.core.log| <= i < |w'.core.log| && Snapshots(w'.core.log[i], id);
    assert w'.cursors[i] > w.client.cursor;
  }

  lemma RowStays(w: World, w': World, id: Uuid)
    requires ServerOk(w) && ServerOk(w') && w.core.log <= w'.core.log && InPair(w', id) && w'.pair == w.pair
    requires !NewSnapshot(w.core.log, w'.core.log, id)
    ensures InPair(w, id) && SameRow(Read(w.core, id), Read(w'.core, id))
  {
    HistoryUnmoved(w.core.log, w'.core.log, id);
  }

  lemma PastStays(w: World, w': World, id: Uuid)
    requires |w.cursors| == |w.core.log| && |w'.cursors| == |w'.core.log| && w'.pair == w.pair
    requires w.core.log <= w'.core.log && w.cursors <= w'.cursors && !NewSnapshot(w.core.log, w'.core.log, id)
    ensures IsPast(w', id, w.client.cursor) <==> IsPast(w, id, w.client.cursor)
  {
    if IsPast(w, id, w.client.cursor) {
      PastKept(w.core.log, w.cursors, w'.core.log, w'.cursors, w.pair, id, w.client.cursor);
    }
  }

  /** The server moves on: a new snapshot renews a session, and every other one stays as fresh as it was. */
  lemma ServerDecides(w: World, w': World, id: Uuid)
    requires ServerOk(w) && ServerOk(w') && w'.client == w.client && w'.pair == w.pair
    requires w.core.log <= w'.core.log && w.cursors <= w'.cursors && InPair(w', id)
    ensures IsFresh(w', id) <==> (InPair(w, id) && IsFresh(w, id)) || NewSnapshot(w.core.log, w'.core.log, id)
  {
    hide Inv;
    if NewSnapshot(w.core.log, w'.core.log, id) {
      SnapshotRenews(w, w', id);
    } else {
      RowStays(w, w', id);
      PastStays(w, w', id);
      hide IsPast, ServerOk, NewSnapshot;
    }
  }

  /** What one step makes of a session. */
  ghost predicate Decided(w: World, w': World, step: Step, id: Uuid) {
    IsFresh(w', id) <==> !Spoils(w, step, id) && ((InPair(w, id) && IsFresh(w, id)) || Renews(w, w', step, id))
  }

  lemma ServerStepDecides(w: World, w': World, step: Step, id: Uuid)
    requires ServerOk(w) && ServerOk(w') && w'.client == w.client && w'.pair == w.pair
    requires w.core.log <= w'.core.log && w.cursors <= w'.cursors && InPair(w', id)
    requires !step.DeliverStep? && !step.RefreshHistoryStep?
    ensures Decided(w, w', step, id)
  {
    hide ServerOk, IsFresh, NewSnapshot;
    ServerDecides(w, w', id);
  }

  lemma ServeDecides(w: World, w': World, step: Step, id: Uuid)
    requires Good(w) && ServerOk(w') && step.ServeNextStep? && InPair(w', id)
    requires ServeNext(w, w', step.freshSid, step.freshId, step.now)
    ensures Decided(w, w', step, id)
  {
    assert ServerOk(w) && Numbered(w.core.log, w.cursors) by { hide Inv, OutboxOk, FatesOk, PhaseOk; }
    hide Good, ServerOk, Execute, PlanOf, Decided;
    var plan := PlanOf(Me(w), w.phase.batch[|w.phase.results|], step.freshSid, step.freshId);
    if plan.Perform? {
      LogGrows(w.core, plan.call, step.now);
    }
    ServerStepDecides(w, w', step, id);
  }

  lemma TransactDecides(w: World, w': World, step: Step, call: Call, now: Time, id: Uuid)
    requires Good(w) && ServerOk(w') && InPair(w', id) && !step.DeliverStep? && !step.RefreshHistoryStep?
    requires Transact(w, w', call, now) && w'.client == w.client && w'.pair == w.pair
    ensures Decided(w, w', step, id)
  {
    assert ServerOk(w) by { hide Inv, OutboxOk, FatesOk, PhaseOk; }
    hide Good, ServerOk, Execute, Decided;
    LogGrows(w.core, call, now);
    ServerStepDecides(w, w', step, id);
  }

  lemma DeliverDecides(w: World, w': World, step: Step, id: Uuid)
    requires Good(w) && step.DeliverStep? && Take(w, w', step) && InPair(w', id)
    ensures Decided(w, w', step, id)
  {
    DeliverKeepsServer(w, w', step);
    assert InPair(w, id) && !NewSnapshot(w.core.log, w'.core.log, id);
    hide Good, Take, Deliver, IsFresh, TornFor, StaleFor, Brought, NewSnapshot, InPair;
    DeliveryDecides(w, w', step.now, id);
  }

  lemma DeliverKeepsServer(w: World, w': World, step: Step)
    requires step.DeliverStep? && Take(w, w', step)
    ensures Deliver(w, w', step.now) && w'.core == w.core && w'.pair == w.pair
  {
    hide Receive, Told;
  }

  lemma LocalStepDecides(w: World, w': World, step: Step, id: Uuid)
    requires Take(w, w', step) && SameServer(w, w') && InPair(w', id) && !step.DeliverStep?
    requires |w.cursors| == |w.core.log|
    ensures Decided(w, w', step, id)
  {
    hide Execute, SnapshotPast, PlanOf, IsPage, IsBatch, LeftOut;
    assert !NewSnapshot(w.core.log, w'.core.log, id);
  }

  /** No step takes anything off the log, or changes who the phone belongs to. */
  lemma StepLog(w: World, w': World, step: Step)
    requires Take(w, w', step)
    ensures w.core.log <= w'.core.log && w'.pair == w.pair
  {
    match step
    case OtherCallsStep(call, now) =>
      LogGrows(w.core, call, now);
      hide Execute;
    case ServeNextStep(freshSid, freshId, now) =>
      var plan := PlanOf(Me(w), w.phase.batch[|w.phase.results|], freshSid, freshId);
      if plan.Perform? { LogGrows(w.core, plan.call, now); }
      hide Execute, PlanOf;
    case ReadCurrentStep(now) =>
      LogGrows(w.core, CCurrent(Me(w)), now);
      hide Execute;
    case _ =>
      hide Execute, PlanOf, IsPage, IsBatch;
  }

  lemma OtherCallsDecides(w: World, w': World, step: Step, id: Uuid)
    requires Good(w) && ServerOk(w') && step.OtherCallsStep? && Take(w, w', step) && InPair(w', id)
    ensures Decided(w, w', step, id)
  {
    hide Good, ServerOk, Decided, InPair, Transact;
    TransactDecides(w, w', step, step.call, step.now, id);
  }

  lemma ServeNextDecides(w: World, w': World, step: Step, id: Uuid)
    requires Good(w) && ServerOk(w') && step.ServeNextStep? && Take(w, w', step) && InPair(w', id)
    ensures Decided(w, w', step, id)
  {
    hide Good, ServerOk, Decided, InPair, ServeNext;
    ServeDecides(w, w', step, id);
  }

  lemma ReadCurrentDecides(w: World, w': World, step: Step, id: Uuid)
    requires Good(w) && ServerOk(w') && step.ReadCurrentStep? && Take(w, w', step) && InPair(w', id)
    ensures Decided(w, w', step, id)
  {
    hide Good, ServerOk, Decided, InPair, Transact, Execute;
    TransactDecides(w, w', step, CCurrent(Me(w)), step.now, id);
  }

  lemma LocalIsSame(w: World, w': World, step: Step)
    requires Take(w, w', step)
    ensures step.OtherCallsStep? || step.ServeNextStep? || step.ReadCurrentStep? || SameServer(w, w')
  {
    hide OtherCalls, ServeNext, ReadCurrent, IsBatch, LeftOut, IsPage, PlanOf, Receive, Told;
  }

  /** Every step decides freshness: only two deliveries spoil a session, and only four events renew it. */
  lemma StepDecides(w: World, w': World, step: Step, id: Uuid)
    requires Good(w) && Take(w, w', step) && InPair(w', id)
    ensures Decided(w, w', step, id)
  {
    hide Good, ServerOk, Decided, InPair, Take, SameServer;
    StepKeepsGood(w, w', step);
    GoodServer(w);
    GoodServer(w');
    LocalIsSame(w, w', step);
    if step.OtherCallsStep? {
      OtherCallsDecides(w, w', step, id);
    } else if step.ServeNextStep? {
      ServeNextDecides(w, w', step, id);
    } else if step.ReadCurrentStep? {
      ReadCurrentDecides(w, w', step, id);
    } else if step.DeliverStep? {
      DeliverDecides(w, w', step, id);
    } else {
      LocalStepDecides(w, w', step, id);
    }
  }
}
