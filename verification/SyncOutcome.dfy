/** What an applied command has done, over whole runs of the protocol. */
module SyncOutcome {
  import opened Domain
  import opened Tables
  import opened StoreInvariant
  import opened StoreRuns
  import opened Reducer
  import opened SyncMessages
  import opened SyncProtocol
  import opened SyncSteps
  import opened Freshness
  import opened SyncTheorems
  import opened Pacing
  import opened SyncRefinement
  import opened StuckNote
  import opened Effects
  import opened SyncEffects

  /** Step k serves the command, and that does what its kind says and stores its key. */
  ghost predicate DoneAt(ws: seq<World>, steps: seq<Step>, k: nat, command: Command)
    requires k < |steps| && |ws| == |steps| + 1
  {
    steps[k].ServeNextStep? && IsNext(ws[k], command.id) && StoresNew(ws[k], ws[k + 1], command.id) &&
    exists answer: Outcome ::
      answer.Ok? && CommandDoes(ws[k].core, Me(ws[k]), command, steps[k].freshSid, steps[k].freshId, steps[k].now,
                                ws[k + 1].core, answer)
  }

  ghost predicate StoresNew(w: World, w': World, id: Uuid) {
    Mine(w, id) !in w.core.keys && Mine(w', id) in w'.core.keys
  }

  ghost predicate EnqueuedAt(steps: seq<Step>, k: nat, id: Uuid) {
    k < |steps| && steps[k].EnqueueStep? && steps[k].command.id == id
  }

  /** Commands come into being by being enqueued, and stay what they are. */
  lemma StepKeepsCommand(w: World, w': World, step: Step, id: Uuid)
    requires Good(w) && Take(w, w', step) && id in w'.fate
    ensures id !in w.fate ==>
              step.EnqueueStep? && step.command.id == id && Mine(w', id) !in w'.core.keys &&
              id in w'.client.outbox && w'.client.outbox[id].command == step.command
    ensures id in w.fate && id in w'.client.outbox ==>
              id in w.client.outbox && w'.client.outbox[id].command == w.client.outbox[id].command
  {
    GoodServer(w);
    hide Good, ServerOk, OutboxOk, PhaseOk, Inv, Execute, PlanOf;
    match step
    case DeliverStep(now) =>
      hide Fold, ResultFor;
      OutboxShrinks(w.client, w.phase.reply.results, now);
      NextOutbox(w.client, w.phase.reply, now);
    case _ =>
      hide IsBatch, LeftOut, Receive, Told;
  }

  lemma {:induction false} CommandIsEnqueued(ws: seq<World>, steps: seq<Step>, i: nat, id: Uuid) returns (k: nat)
    requires Run(ws, steps) && i < |ws| && id in ws[i].fate
    ensures k < i && EnqueuedAt(steps, k, id)
    ensures id in ws[i].client.outbox ==> ws[i].client.outbox[id].command == steps[k].command
  {
    hide Good, Take;
    if i > 0 {
      RunGood(ws, steps, i - 1);
      StepKeepsCommand(ws[i - 1], ws[i], steps[i - 1], id);
      if id in ws[i - 1].fate {
        k := CommandIsEnqueued(ws, steps, i - 1, id);
      } else {
        k := i - 1;
      }
    }
  }

  /** A key of this phone's enters the table only as its command is served. */
  lemma KeyIsNext(w: World, w': World, step: Step, id: Uuid)
    requires Good(w) && Take(w, w', step) && id in w.fate && StoresNew(w, w', id) && w'.account == w.account
    ensures step.ServeNextStep? && ServeNext(w, w', step.freshSid, step.freshId, step.now) && IsNext(w, id)
  {
    hide Good, Take, ServeNext;
    LocalIsSame(w, w', step);
    if step.OtherCallsStep? {
      OthersUseOtherKeys(w, w', step, id);
    } else if step.ReadCurrentStep? {
      ReadKeepsKeys(w, w', step);
    } else if step.ServeNextStep? {
      ServeIsTaken(w, w', step);
      ServiceIsOn(w, w', step.freshSid, step.freshId, step.now);
      if w.phase.batch[|w.phase.results|].id != id {
        OwnKeyOnly(w, w', step.freshSid, step.freshId, step.now, id);
      }
    }
  }

  /** A command that is served and stores its key has done what its kind says. */
  lemma ServedIsDone(w: World, w': World, freshSid: Uuid, freshId: Uuid, now: Time, id: Uuid) returns (answer: Outcome)
    requires Good(w) && ServeNext(w, w', freshSid, freshId, now) && IsNext(w, id) && StoresNew(w, w', id)
    requires w'.account == w.account
    ensures id in w.client.outbox && answer.Ok?
    ensures CommandDoes(w.core, Me(w), w.client.outbox[id].command, freshSid, freshId, now, w'.core, answer)
  {
    NextCommand(w, id);
    GoodServer(w);
    var command := w.client.outbox[id].command;
    assert w.clock <= now || PlanOf(Me(w), command, freshSid, freshId).Refuse?;
    hide Good, ServerOk, OutboxOk, FatesOk, PhaseOk, Inv, Execute, PlanOf, CommandDoes, Does, Lapses;
    var plan := PlanOf(Me(w), command, freshSid, freshId);
    assert plan.Perform?;
    answer := Execute(w.core, plan.call, now).1;
    CommitsStoreKeys(w.core, plan.call, now);
    PlannedCall(w.core, Me(w), command, freshSid, freshId, now, w'.core, answer);
    ExecuteDoes(w.core, w.clock, plan.call, now);
  }

  /** A command whose key is stored was enqueued, and a later step did what its kind says. */
  lemma {:induction false} CommittedIsDone(ws: seq<World>, steps: seq<Step>, i: nat, id: Uuid) returns (k0: nat, k: nat)
    requires Run(ws, steps) && i < |ws| && id in ws[i].fate && Mine(ws[i], id) in ws[i].core.keys
    ensures k0 < k < i && EnqueuedAt(steps, k0, id) && DoneAt(ws, steps, k, steps[k0].command)
  {
    hide Good, Take, CommandDoes, IsNext;
    if i > 0 {
      var w, w', step := ws[i - 1], ws[i], steps[i - 1];
      RunGood(ws, steps, i - 1);
      StepKeepsCommand(w, w', step, id);
      assert w'.account == w.account by { SameAccount(w, w', step); }
      if Mine(w, id) in w.core.keys {
        k0, k := CommittedIsDone(ws, steps, i - 1, id);
      } else {
        KeyIsNext(w, w', step, id);
        var answer := ServedIsDone(w, w', step.freshSid, step.freshId, step.now, id);
        k0 := CommandIsEnqueued(ws, steps, i - 1, id);
        k := i - 1;
      }
    }
  }

  lemma SameAccount(w: World, w': World, step: Step)
    requires Take(w, w', step)
    ensures w'.account == w.account
  {
    hide Execute, PlanOf, IsBatch, LeftOut, Receive, Told;
  }

  /**
   An applied command, in every run with any losses: it has taken effect once, and the step at which it did
   carried out the very command that was enqueued, according to its kind.
   */
  lemma AppliedIsDone(ws: seq<World>, steps: seq<Step>, i: nat, id: Uuid) returns (k0: nat, k: nat)
    requires Run(ws, steps) && i < |ws| && id in ws[i].fate && ws[i].fate[id].Accepted?
    ensures k0 < k < i && EnqueuedAt(steps, k0, id) && DoneAt(ws, steps, k, steps[k0].command)
    ensures ws[i].commits[Mine(ws[i], id)] == 1
  {
    RunGood(ws, steps, i);
    GoodServer(ws[i]);
    hide Good, Run, DoneAt, EnqueuedAt, Inv, OutboxOk, PhaseOk;
    k0, k := CommittedIsDone(ws, steps, i, id);
    ExactlyOnce(ws, steps, i, id);
  }
}
