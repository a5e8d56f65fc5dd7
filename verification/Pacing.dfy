/**
 Why no committed command is ever left out of a batch, as long as the phone's clock runs forward and nothing
 is deferred: every such command has fewer than a hundred older ones before it.
 */
module Pacing {
  import opened Domain
  import opened Tables
  import opened StoreRuns
  import opened StoreInvariant
  import opened Reducer
  import opened Paging
  import opened SyncMessages
  import opened SyncProtocol
  import opened SyncSteps
  import opened Freshness
  import opened SyncTheorems

  // ---------------------------------------------------------------- counting

  lemma {:induction false} SubsetSize(a: set<Uuid>, b: set<Uuid>)
    requires a <= b
    ensures |a| <= |b|
    decreases |a|
  {
    if x :| x in a {
      SubsetSize(a - {x}, b - {x});
    }
  }

  function BatchIds(batch: seq<Command>): (ids: set<Uuid>)
    ensures forall id :: id in ids <==> InBatch(batch, id)
  {
    set i | 0 <= i < |batch| :: batch[i].id
  }

  ghost predicate BatchDistinct(batch: seq<Command>) {
    forall i, j :: 0 <= i < j < |batch| ==> batch[i].id != batch[j].id
  }

  lemma {:induction false} BatchSize(batch: seq<Command>)
    requires BatchDistinct(batch)
    ensures |BatchIds(batch)| == |batch|
  {
    if |batch| > 0 {
      var n := |batch| - 1;
      BatchSize(batch[..n]);
      assert BatchIds(batch) == BatchIds(batch[..n]) + {batch[n].id};
      assert !InBatch(batch[..n], batch[n].id);
    }
  }

  // ---------------------------------------------------------------- the front of the outbox

  /** The other commands that a batch takes before this one, or may take before it. */
  function Older(outbox: Outbox, id: Uuid): set<Uuid>
    requires id in outbox
  {
    set x | x in outbox && x != id && outbox[x].createdAt <= outbox[id].createdAt
  }

  ghost predicate InFront(outbox: Outbox, id: Uuid) {
    id in outbox && |Older(outbox, id)| < BATCH
  }

  /** Has committed, and a retry can still be answered. */
  ghost predicate Unheard(w: World, id: Uuid) {
    id in w.client.outbox && Mine(w, id) in w.core.keys && id !in w.lapsed
  }

  /** Every committed command that waits has fewer than a hundred others before it. */
  ghost predicate Front(w: World) {
    forall id :: Unheard(w, id) ==> InFront(w.client.outbox, id)
  }

  /** That holds if no committed command waits, and if at most a hundred commands wait. */
  lemma FewWait(w: World)
    requires |w.client.outbox| <= BATCH || forall id :: !Unheard(w, id)
    ensures Front(w)
  {
    var outbox := w.client.outbox;
    forall id | Unheard(w, id) ensures InFront(outbox, id) {
      assert |outbox.Keys| == |outbox|;
      SubsetSize(Older(outbox, id), outbox.Keys - {id});
    }
  }

  /** A command in front that is eligible is in every batch. */
  lemma FrontIsSent(outbox: Outbox, id: Uuid, now: Time, batch: seq<Command>)
    requires IsBatch(outbox, now, batch) && InFront(outbox, id) && Eligible(outbox[id], now)
    ensures InBatch(batch, id)
  {
    if !InBatch(batch, id) {
      forall x | x in BatchIds(batch) ensures x in Older(outbox, id) {
        var i :| 0 <= i < |batch| && batch[i].id == x;
        assert outbox[batch[i].id].createdAt <= outbox[id].createdAt;
      }
      SubsetSize(BatchIds(batch), Older(outbox, id));
      BatchSize(batch);
      assert false;
    }
  }

  lemma FrontCovers(w: World, batch: seq<Command>, now: Time)
    requires Good(w) && Front(w) && w.device <= now && IsBatch(w.client.outbox, now, batch)
    ensures Covers(w, batch)
  {
    hide Good, IsBatch, InFront;
    forall id | id in LeftOut(w, batch) ensures false {
      assert Unheard(w, id);
      StillEligible(w, id, now);
      FrontIsSent(w.client.outbox, id, now, batch);
      assert false;
    }
  }

  lemma StillEligible(w: World, id: Uuid, now: Time)
    requires Good(w) && w.device <= now && Unheard(w, id)
    ensures Eligible(w.client.outbox[id], now)
  {
    hide Inv, PhaseOk, FatesOk, Explains, Ahead;
  }

  // ---------------------------------------------------------------- runs at the phone's own pace

  /** A new command is younger than all that wait. */
  ghost predicate Grows(w: World, step: Step) {
    step.EnqueueStep? ==> forall id :: id in w.client.outbox ==> w.client.outbox[id].createdAt < step.createdAt
  }

  /** The step delivers a cheer that is still on cooldown. */
  ghost predicate Defers(w: World, step: Step) {
    step.DeliverStep? && w.phase.Replying? &&
    exists i :: 0 <= i < |w.phase.reply.results| && Deferred(w.phase.reply.results[i])
  }

  ghost predicate Growing(ws: seq<World>, steps: seq<Step>)
    requires |ws| == |steps| + 1
  {
    forall k :: 0 <= k < |steps| ==> Grows(ws[k], steps[k])
  }

  ghost predicate DefersAt(ws: seq<World>, steps: seq<Step>, k: nat)
    requires k < |steps| && k < |ws|
  {
    Defers(ws[k], steps[k])
  }

  /** A run in which creation times grow and no cheer is deferred: both can be seen on the phone. */
  ghost predicate Paced(ws: seq<World>, steps: seq<Step>)
    requires |ws| == |steps| + 1
  {
    Growing(ws, steps) && forall k :: 0 <= k < |steps| ==> !DefersAt(ws, steps, k)
  }

  ghost predicate PlainOutbox(outbox: Outbox) {
    (forall id :: id in outbox ==> outbox[id].retryAt.None?) &&
    (forall a, b :: a in outbox && b in outbox && a != b ==> outbox[a].createdAt != outbox[b].createdAt)
  }

  ghost predicate BatchInFront(outbox: Outbox, phase: Phase) {
    !phase.Idle? ==> forall id :: InBatch(phase.batch, id) ==> InFront(outbox, id)
  }

  /** What such a run keeps: everything committed or under way is in front. */
  ghost predicate Orderly(w: World) {
    PlainOutbox(w.client.outbox) && Front(w) && BatchInFront(w.client.outbox, w.phase)
  }

  lemma NewIsLast(outbox: Outbox, command: Command, createdAt: Time, id: Uuid)
    requires command.id !in outbox && InFront(outbox, id)
    requires forall x :: x in outbox ==> outbox[x].createdAt < createdAt
    ensures InFront(outbox[command.id := Entry(command, createdAt, 0, None)], id)
  {
    var after := outbox[command.id := Entry(command, createdAt, 0, None)];
    assert Older(after, id) == Older(outbox, id);
  }

  lemma EnqueueKeepsOrder(w: World, w': World, step: Step)
    requires Good(w) && Orderly(w) && step.EnqueueStep? && Enqueue(w, w', step.command, step.createdAt)
    requires Grows(w, step)
    ensures Orderly(w')
  {
    hide Good, InFront;
    EnqueueFates(w, w', step.command, step.createdAt);
    var outbox, outbox' := w.client.outbox, w'.client.outbox;
    forall id | InFront(outbox, id) ensures InFront(outbox', id) {
      NewIsLast(outbox, step.command, step.createdAt, id);
    }
  }

  /** Everything older than a command of the batch is in the batch too. */
  lemma BatchIsOldest(outbox: Outbox, now: Time, batch: seq<Command>, id: Uuid)
    requires PlainOutbox(outbox) && IsBatch(outbox, now, batch) && InBatch(batch, id)
    ensures InFront(outbox, id)
  {
    forall x | x in Older(outbox, id) ensures x in BatchIds(batch) - {id} {
      var i :| 0 <= i < |batch| && batch[i].id == id;
      assert Eligible(outbox[x], now) && outbox[x].createdAt < outbox[batch[i].id].createdAt;
    }
    BatchSize(batch);
    SubsetSize(Older(outbox, id), BatchIds(batch) - {id});
  }

  lemma SendKeepsOrder(w: World, w': World, batch: seq<Command>, now: Time)
    requires Orderly(w) && Send(w, w', batch, now)
    ensures Orderly(w')
  {
    hide PlainOutbox, InFront, IsBatch, InBatch, LeftOut;
    forall id | InBatch(batch, id) ensures InFront(w.client.outbox, id) {
      BatchIsOldest(w.client.outbox, now, batch, id);
    }
  }

  lemma FewerOlder(outbox: Outbox, outbox': Outbox, id: Uuid)
    requires id in outbox' && forall x :: x in outbox' ==> x in outbox && outbox'[x] == outbox[x]
    requires InFront(outbox, id)
    ensures InFront(outbox', id)
  {
    SubsetSize(Older(outbox', id), Older(outbox, id));
  }

  /** Without deferrals a delivery only takes commands out of the outbox. */
  lemma DeliveryRemoves(w: World, w': World, now: Time, id: Uuid)
    requires Good(w) && Deliver(w, w', now) && !Defers(w, DeliverStep(now)) && id in w'.client.outbox
    ensures id in w.client.outbox && w'.client.outbox[id] == w.client.outbox[id]
  {
    var results := w.phase.reply.results;
    hide Good, Receive, Told, ResultFor, Deferred;
    BatchResult(w, id);
    ResultsSettle(w.client, results, now, id);
    assert w'.client.outbox == ApplyResults(w.client, results, now).outbox by { ReceivedOutbox(w, w', now); }
    if ResultFor(results, id).Some? {
      ResultIsThere(results, id);
    }
  }

  lemma ReceivedOutbox(w: World, w': World, now: Time)
    requires Deliver(w, w', now)
    ensures w'.client.outbox == ApplyResults(w.client, w.phase.reply.results, now).outbox
  {
    hide Told, ApplyResults, Fold;
  }

  lemma ResultIsThere(results: seq<Result>, id: Uuid)
    requires ResultFor(results, id).Some?
    ensures ResultFor(results, id).value in results
  {
  }

  lemma DeliverKeepsOrder(w: World, w': World, now: Time)
    requires Good(w) && Orderly(w) && Deliver(w, w', now) && !Defers(w, DeliverStep(now))
    ensures Orderly(w')
  {
    hide Good, Receive, Told, InFront, Defers;
    assert w'.core == w.core && w'.account == w.account && w'.lapsed == w.lapsed && w'.phase.Idle?;
    hide Deliver;
    forall id | id in w'.client.outbox ensures id in w.client.outbox && w'.client.outbox[id] == w.client.outbox[id] {
      DeliveryRemoves(w, w', now, id);
    }
    forall id | Unheard(w', id) ensures InFront(w'.client.outbox, id) {
      assert Unheard(w, id);
      FewerOlder(w.client.outbox, w'.client.outbox, id);
    }
  }

  /** Only the next command of the batch can enter the keys. */
  lemma KeysComeFromBatch(w: World, w': World, step: Step, id: Uuid)
    requires Good(w) && Take(w, w', step) && id in w.client.outbox && Mine(w, id) in w'.core.keys
    ensures Mine(w, id) in w.core.keys || (w.phase.Serving? && InBatch(w.phase.batch, id))
  {
    hide Good, Execute, PlanOf;
    GoodFates(w, id);
    match step
    case OtherCallsStep(call, now) =>
      CommitsStoreKeys(w.core, call, now);
    case ServeNextStep(freshSid, freshId, now) =>
      var command := w.phase.batch[|w.phase.results|];
      PlanIsStable(Me(w), command, freshSid, freshId);
      if PlanOf(Me(w), command, freshSid, freshId).Perform? {
        CommitsStoreKeys(w.core, PlanOf(Me(w), command, freshSid, freshId).call, now);
      }
    case ReadCurrentStep(now) =>
      CommitsStoreKeys(w.core, CCurrent(Me(w)), now);
    case _ =>
      hide IsBatch, IsPage, LeftOut, Receive, Told;
  }

  lemma GoodFates(w: World, id: Uuid)
    requires Good(w) && id in w.client.outbox
    ensures id in w.fate
  {
    hide Inv, OutboxOk, PhaseOk;
  }

  lemma SameOutboxKeepsOrder(w: World, w': World, step: Step)
    requires Good(w) && Orderly(w) && Take(w, w', step) && w'.client.outbox == w.client.outbox
    requires w'.account == w.account
    requires !w'.phase.Idle? ==> !w.phase.Idle? && w'.phase.batch == w.phase.batch
    ensures Orderly(w')
  {
    hide Good, Take, InFront, Lapses;
    StepLapses(w, w', step);
    forall id | Unheard(w', id) ensures InFront(w.client.outbox, id) {
      KeysComeFromBatch(w, w', step, id);
      assert Unheard(w, id) || InBatch(w.phase.batch, id);
    }
  }

  /** Every step but three leaves the outbox and the batch as they are. */
  lemma OutboxAndBatchStay(w: World, w': World, step: Step)
    requires Take(w, w', step) && !step.EnqueueStep? && !step.DeliverStep? && !step.SendStep?
    ensures w'.client.outbox == w.client.outbox && w'.account == w.account
    ensures !w'.phase.Idle? ==> !w.phase.Idle? && w'.phase.batch == w.phase.batch
  {
    hide Execute, PlanOf, IsPage, Transact;
  }

  lemma StepKeepsOrder(w: World, w': World, step: Step)
    requires Good(w) && Orderly(w) && Take(w, w', step) && Grows(w, step) && !Defers(w, step)
    ensures Orderly(w')
  {
    hide Good, Orderly, Enqueue, Send, Deliver, Grows, Defers, OtherCalls, ServeNext, ReadCurrent, ReadEvents,
         Deny, Lose, WriteLocally, RefreshHistory;
    if step.EnqueueStep? {
      EnqueueKeepsOrder(w, w', step);
    } else if step.SendStep? {
      SendKeepsOrder(w, w', step.batch, step.now);
    } else if step.DeliverStep? {
      DeliverKeepsOrder(w, w', step.now);
    } else {
      OutboxAndBatchStay(w, w', step);
      SameOutboxKeepsOrder(w, w', step);
    }
  }

  lemma {:induction false} OrderlyRun(ws: seq<World>, steps: seq<Step>, n: nat)
    requires Run(ws, steps) && n < |ws| && Growing(ws, steps) && forall k :: 0 <= k < n ==> !DefersAt(ws, steps, k)
    ensures Orderly(ws[n])
  {
    if n == 0 {
      assert ws[0].client.outbox == map[] && ws[0].phase.Idle?;
    } else {
      OrderlyRun(ws, steps, n - 1);
      RunGood(ws, steps, n - 1);
      assert Take(ws[n - 1], ws[n], steps[n - 1]) && Grows(ws[n - 1], steps[n - 1]) && !DefersAt(ws, steps, n - 1);
      hide Good, Orderly, Initial, Take, Grows, Defers;
      StepKeepsOrder(ws[n - 1], ws[n], steps[n - 1]);
    }
  }

  // ---------------------------------------------------------------- what follows

  /** While creation times grow, a committed command is left out only after a cheer has been deferred. */
  lemma LeftOutNeedsDeferral(ws: seq<World>, steps: seq<Step>, n: nat, id: Uuid)
    requires Run(ws, steps) && Growing(ws, steps) && n < |steps| && LeftOutAt(ws, steps, n, id)
    ensures exists k :: 0 <= k < n && DefersAt(ws, steps, k)
  {
    if forall k :: 0 <= k < n ==> !DefersAt(ws, steps, k) {
      OrderlyRun(ws, steps, n);
      RunGood(ws, steps, n);
      assert Take(ws[n], ws[n + 1], steps[n]);
      hide Good, Run, Growing, DefersAt, IsBatch, LeftOut;
      FrontCovers(ws[n], steps[n].batch, steps[n].now);
      assert false;
    }
  }

  /** Every page was read with the current session unchanged since the first read. */
  ghost predicate Steady(ws: seq<World>, steps: seq<Step>)
    requires |ws| == |steps| + 1
  {
    forall k :: 0 <= k < |steps| && steps[k].ReadEventsStep? && ws[k].phase.HaveCurrent? ==>
      Untorn(ws[k].core, ws[k].phase.current)
  }

  lemma PacedIsQuiet(ws: seq<World>, steps: seq<Step>)
    requires Run(ws, steps) && Paced(ws, steps) && Steady(ws, steps)
    ensures Quiet(ws, steps)
  {
    assert |ws| == |steps| + 1;
    hide Run, Growing, DefersAt, LeftOut, Untorn;
    forall k | 0 <= k < |steps| && steps[k].SendStep? ensures Covers(ws[k], steps[k].batch) {
      forall id | id in LeftOut(ws[k], steps[k].batch) ensures false {
        LeftOutNeedsDeferral(ws, steps, k, id);
        assert false;
      }
    }
  }

  /**
   Convergence at the phone's own pace: if creation times grow, no cheer is deferred and no current session
   changes between its two reads, then after every last page phone and server agree on every session.
   */
  lemma Convergence(ws: seq<World>, steps: seq<Step>, i: nat, j: nat)
    requires Run(ws, steps) && LastPage(ws, steps, i, j) && Paced(ws, steps) && Steady(ws, steps)
    ensures Converged(ws[j + 1])
  {
    hide Run, LastPage, Paced, Steady, Quiet, Converged;
    PacedIsQuiet(ws, steps);
    QuietConvergence(ws, steps, i, j);
  }
}
