/**
 What a note with a text that the database refuses does to the phone. The request it is in fails as a whole,
 the phone keeps its outbox, and so the note is in the next batch again. Nothing of this phone's is delivered
 until the session is cancelled, or the note happens to be refused for a serialization failure.
 */
module StuckNote {
  import opened Domain
  import opened Timeline
  import opened Tables
  import opened Reducer
  import opened StoreInvariant
  import opened StoreRuns
  import opened Paging
  import opened SyncMessages
  import opened SyncProtocol
  import opened SyncSteps
  import opened Freshness
  import opened SyncTheorems
  import opened Pacing
  import opened SyncRefinement

  /** A note that passes every check but cannot be stored, on a session of the pair. */
  ghost predicate IsStuck(w: World, id: Uuid) {
    id in w.client.outbox && id != NIL && Mine(w, id) !in w.core.keys && IsMember(w.core, w.pair, w.account) &&
    var e := w.client.outbox[id];
    e.retryAt.None? && HoldsNul(e.command) && 1 <= |e.command.body.text| <= 120 &&
    e.command.entity.Some? && InPair(w, e.command.entity.value)
  }

  /** The session of the note is cancelled: then the note would be refused. */
  ghost predicate IsCancelled(w: World, id: Uuid)
    requires IsStuck(w, id)
  {
    w.core.sessions[w.client.outbox[id].command.entity.value].state.Cancelled?
  }

  /** Such a note is in front, and if a request is under way it has yet to be served. */
  ghost predicate Jammed(w: World, id: Uuid) {
    IsStuck(w, id) && InFront(w.client.outbox, id) && InService(w.phase, id)
  }

  ghost predicate InService(phase: Phase, id: Uuid) {
    match phase
    case Idle => true
    case Serving(batch, results) => exists i :: |results| <= i < |batch| && batch[i].id == id
    case _ => false
  }

  /** The transaction of the note fails to serialize. */
  ghost predicate Denies(w: World, step: Step, id: Uuid) {
    step.DenyStep? && IsNext(w, id)
  }

  ghost predicate IsNext(w: World, id: Uuid) {
    w.phase.Serving? && |w.phase.results| < |w.phase.batch| && w.phase.batch[|w.phase.results|].id == id
  }

  // ---------------------------------------------------------------- what stays

  lemma MembersStay(db: Core, call: Call, now: Time, pair: Uuid, account: Uuid)
    requires IsMember(db, pair, account)
    ensures IsMember(Execute(db, call, now).0, pair, account)
  {
    if call.Keyed() {
      KeyedKeepsPairs(db, call, now);
    }
  }

  lemma KeyedKeepsPairs(db: Core, call: Call, now: Time)
    requires call.Keyed()
    ensures Execute(db, call, now).0.pairOf == db.pairOf
  {
    var answer := Execute(db, call, now).1;
    if !answer.Ok? || answer.replayed {
      OnlyCommitsChange(db, call, now);
    }
  }

  lemma StepKeepsMember(w: World, w': World, step: Step)
    requires Take(w, w', step) && IsMember(w.core, w.pair, w.account)
    ensures w'.account == w.account && IsMember(w'.core, w'.pair, w'.account)
  {
    hide Execute, PlanOf, IsBatch, IsPage, LeftOut, Receive, Told, IsMember;
    match step
    case OtherCallsStep(call, now) =>
      MembersStay(w.core, call, now, w.pair, w.account);
    case ServeNextStep(freshSid, freshId, now) =>
      var plan := PlanOf(Me(w), w.phase.batch[|w.phase.results|], freshSid, freshId);
      if plan.Perform? {
        MembersStay(w.core, plan.call, now, w.pair, w.account);
      }
    case ReadCurrentStep(now) =>
      MembersStay(w.core, CCurrent(Me(w)), now, w.pair, w.account);
    case _ =>
  }

  lemma StepKeepsPair(w: World, w': World, step: Step, sid: Uuid)
    requires Good(w) && Take(w, w', step) && InPair(w, sid)
    ensures InPair(w', sid)
  {
    hide Good, Take, Inv, ServerOk, OutboxOk, FatesOk, PhaseOk, Numbered;
    StepKeepsGood(w, w', step);
    StepLog(w, w', step);
    GoodServer(w);
    GoodServer(w');
    PairKept(w.core, w.clock, w'.core, w'.clock, sid);
  }

  /** What the invariant says of the command that is served next. */
  lemma NextCommand(w: World, id: Uuid)
    requires Good(w) && IsNext(w, id)
    ensures id in w.client.outbox && w.phase.batch[|w.phase.results|] == w.client.outbox[id].command
  {
    hide Inv, OutboxOk, FatesOk, ResultsOk;
  }

  /** A stuck note makes the request fail. */
  lemma StuckFails(w: World, w': World, id: Uuid, freshSid: Uuid, freshId: Uuid, now: Time)
    requires Good(w) && IsStuck(w, id) && !IsCancelled(w, id) && IsNext(w, id)
    requires ServeNext(w, w', freshSid, freshId, now)
    ensures w'.phase.Idle? && w'.core == w.core
  {
    NextCommand(w, id);
    hide Good, Execute;
    var command := w.phase.batch[|w.phase.results|];
    assert command.id == id;
    assert Poisons(w.core, Me(w), command, now);
    ServeSucceeds(w.core, Me(w), command, freshSid, freshId, now);
    FailureKeepsTables(w.core, Me(w), command, freshSid, freshId, now);
  }

  lemma ServiceIsOn(w: World, w': World, freshSid: Uuid, freshId: Uuid, now: Time)
    requires ServeNext(w, w', freshSid, freshId, now)
    ensures w.phase.Serving? && |w.phase.results| < |w.phase.batch|
  {
    hide Execute, PlanOf;
  }

  /** Serving one command leaves the keys of the others alone. */
  lemma OwnKeyOnly(w: World, w': World, freshSid: Uuid, freshId: Uuid, now: Time, id: Uuid)
    requires ServeNext(w, w', freshSid, freshId, now)
    requires w.phase.batch[|w.phase.results|].id != id
    requires Mine(w, id) !in w.core.keys
    ensures Mine(w, id) !in w'.core.keys
  {
    hide Execute, PlanOf;
    var command := w.phase.batch[|w.phase.results|];
    PlanIsStable(Me(w), command, freshSid, freshId);
    var plan := PlanOf(Me(w), command, freshSid, freshId);
    if plan.Perform? {
      CommitsStoreKeys(w.core, plan.call, now);
    }
  }

  /** Nobody commits under the key of a stuck note. */
  lemma StuckIsNotCommitted(w: World, w': World, step: Step, id: Uuid)
    requires Good(w) && Take(w, w', step) && IsStuck(w, id) && !IsCancelled(w, id)
    ensures Mine(w, id) !in w'.core.keys
  {
    GoodFates(w, id);
    assert Mine(w, id) !in w.core.keys && id in w.fate;
    hide Good, Take, Execute, IsStuck, IsCancelled, ServeNext;
    LocalIsSame(w, w', step);
    if step.OtherCallsStep? {
      OthersUseOtherKeys(w, w', step, id);
    } else if step.ServeNextStep? {
      assert ServeNext(w, w', step.freshSid, step.freshId, step.now) by { ServeIsTaken(w, w', step); }
      ServiceIsOn(w, w', step.freshSid, step.freshId, step.now);
      if w.phase.batch[|w.phase.results|].id == id {
        StuckFails(w, w', id, step.freshSid, step.freshId, step.now);
      } else {
        OwnKeyOnly(w, w', step.freshSid, step.freshId, step.now, id);
      }
    } else if step.ReadCurrentStep? {
      ReadKeepsKeys(w, w', step);
    }
  }

  lemma ServeIsTaken(w: World, w': World, step: Step)
    requires Take(w, w', step) && step.ServeNextStep?
    ensures ServeNext(w, w', step.freshSid, step.freshId, step.now)
  {
    hide ServeNext;
  }

  lemma OthersUseOtherKeys(w: World, w': World, step: Step, id: Uuid)
    requires Take(w, w', step) && step.OtherCallsStep? && id in w.fate && Mine(w, id) !in w.core.keys
    ensures Mine(w, id) !in w'.core.keys
  {
    hide Execute;
    CommitsStoreKeys(w.core, step.call, step.now);
  }

  lemma ReadKeepsKeys(w: World, w': World, step: Step)
    requires Take(w, w', step) && step.ReadCurrentStep?
    ensures w'.core.keys == w.core.keys
  {
    hide Execute;
    CommitsStoreKeys(w.core, CCurrent(Me(w)), step.now);
  }

  lemma EntryStays(w: World, w': World, step: Step, id: Uuid)
    requires Good(w) && Take(w, w', step) && id in w.client.outbox && !step.DeliverStep?
    ensures id in w'.client.outbox && w'.client.outbox[id] == w.client.outbox[id]
    ensures w'.client.cursor == w.client.cursor
  {
    GoodFates(w, id);
    hide Good, Execute, PlanOf, IsPage, IsBatch, LeftOut;
  }

  lemma StuckStays(w: World, w': World, step: Step, id: Uuid)
    requires Good(w) && Take(w, w', step) && IsStuck(w, id) && !IsCancelled(w, id) && !step.DeliverStep?
    ensures IsStuck(w', id)
  {
    StuckIsNotCommitted(w, w', step, id);
    StepKeepsMember(w, w', step);
    StepKeepsPair(w, w', step, w.client.outbox[id].command.entity.value);
    EntryStays(w, w', step, id);
    hide Good, Take, IsMember;
  }

  // ---------------------------------------------------------------- the jam

  lemma FrontStays(w: World, w': World, step: Step, id: Uuid)
    requires Good(w) && Take(w, w', step) && Grows(w, step) && InFront(w.client.outbox, id) && !step.DeliverStep?
    ensures InFront(w'.client.outbox, id)
  {
    if step.EnqueueStep? {
      EnqueueFates(w, w', step.command, step.createdAt);
      NewIsLast(w.client.outbox, step.command, step.createdAt, id);
    } else if !step.SendStep? {
      hide Good, Take;
      OutboxAndBatchStay(w, w', step);
    }
    hide Good, InFront, IsBatch, LeftOut;
  }

  /** A service that has passed over the note has failed. */
  lemma ServiceStays(w: World, w': World, step: Step, id: Uuid)
    requires Good(w) && Take(w, w', step) && Jammed(w, id) && !IsCancelled(w, id) && !Denies(w, step, id)
    ensures InService(w'.phase, id) && !step.DeliverStep?
  {
    hide Good, IsStuck, IsCancelled, PlanOf, Execute, InFront, Transact;
    match step
    case SendStep(batch, now) =>
      assert Eligible(w.client.outbox[id], now) by { StuckIsEligible(w, id, now); }
      hide IsBatch, LeftOut;
      FrontIsSent(w.client.outbox, id, now, batch);
    case ServeNextStep(freshSid, freshId, now) =>
      if IsNext(w, id) {
        StuckFails(w, w', id, freshSid, freshId, now);
      } else {
        NextResult(w, w', freshSid, freshId, now);
      }
    case DenyStep =>
    case _ =>
      hide IsBatch, IsPage, LeftOut, Receive, Told;
  }

  lemma StuckIsEligible(w: World, id: Uuid, now: Time)
    requires IsStuck(w, id)
    ensures id in w.client.outbox && Eligible(w.client.outbox[id], now)
  {
  }

  lemma NextResult(w: World, w': World, freshSid: Uuid, freshId: Uuid, now: Time)
    requires ServeNext(w, w', freshSid, freshId, now)
    ensures w'.phase.Idle? ||
            (w'.phase.Serving? && w'.phase.batch == w.phase.batch && |w'.phase.results| == |w.phase.results| + 1)
  {
    hide Execute, PlanOf, Transact;
  }

  lemma StepKeepsJam(w: World, w': World, step: Step, id: Uuid)
    requires Good(w) && Take(w, w', step) && Jammed(w, id) && !IsCancelled(w, id) && !Denies(w, step, id)
    requires Grows(w, step)
    ensures Jammed(w', id) && !step.DeliverStep? && w'.client.cursor == w.client.cursor
  {
    ServiceStays(w, w', step, id);
    hide Good, Take, InFront, InService, Grows, IsCancelled;
    StuckStays(w, w', step, id);
    FrontStays(w, w', step, id);
    EntryStays(w, w', step, id);
  }

  /** From step k to step n creation times grow, and the note is not denied. */
  ghost predicate NothingClears(ws: seq<World>, steps: seq<Step>, k: nat, n: nat, id: Uuid)
    requires n <= |steps| && |ws| == |steps| + 1
  {
    forall m :: k <= m < n ==> Grows(ws[m], steps[m]) && !Denies(ws[m], steps[m], id)
  }

  /** The note's session is not cancelled so far. */
  ghost predicate NotCancelled(ws: seq<World>, k: nat, n: nat, id: Uuid)
    requires n < |ws|
  {
    forall m :: k <= m < n && IsStuck(ws[m], id) ==> !IsCancelled(ws[m], id)
  }

  /**
   A stuck note in front of the outbox blocks the phone: as long as its session is not cancelled and no
   serialization failure hits it, no reply is ever delivered, and the cursor stays where it is.
   */
  lemma {:induction false} NulNoteBlocks(ws: seq<World>, steps: seq<Step>, k: nat, n: nat, id: Uuid)
    requires Run(ws, steps) && k <= n < |ws| && Jammed(ws[k], id)
    requires NothingClears(ws, steps, k, n, id) && NotCancelled(ws, k, n, id)
    ensures Jammed(ws[n], id) && ws[n].client.cursor == ws[k].client.cursor
    ensures forall m :: k <= m < n ==> !steps[m].DeliverStep?
  {
    hide Good, Initial, Take, Jammed, Grows, Denies, IsStuck, IsCancelled;
    if k < n {
      NulNoteBlocks(ws, steps, k, n - 1, id);
      RunGood(ws, steps, n - 1);
      JamIsStuck(ws[n - 1], id);
      assert Grows(ws[n - 1], steps[n - 1]) && !Denies(ws[n - 1], steps[n - 1], id);
      StepKeepsJam(ws[n - 1], ws[n], steps[n - 1], id);
    }
  }

  lemma JamIsStuck(w: World, id: Uuid)
    requires Jammed(w, id)
    ensures IsStuck(w, id)
  {
  }
}
