/** What the protocol guarantees over whole runs: exactly-once delivery and convergence. */
module SyncTheorems {
  import opened Domain
  import opened Timeline
  import opened Tables
  import opened Reducer
  import opened StoreInvariant
  import opened StoreRuns
  import opened Paging
  import opened SyncMessages
  import opened SyncProtocol
  import opened SyncSteps
  import opened Freshness

  ghost predicate Run(ws: seq<World>, steps: seq<Step>) {
    |ws| == |steps| + 1 && Initial(ws[0]) && forall i :: 0 <= i < |steps| ==> Take(ws[i], ws[i + 1], steps[i])
  }

  lemma InitialGood(w: World)
    requires Initial(w)
    ensures Good(w)
  {
    EmptyInv(w.clock);
    hide Inv;
  }

  lemma {:induction false} RunGood(ws: seq<World>, steps: seq<Step>, i: nat)
    requires Run(ws, steps) && i < |ws|
    ensures Good(ws[i])
  {
    hide Good, Initial, Take;
    if i == 0 {
      InitialGood(ws[0]);
    } else {
      RunGood(ws, steps, i - 1);
      StepKeepsGood(ws[i - 1], ws[i], steps[i - 1]);
    }
  }

  // ---------------------------------------------------------------- what the record means

  /** At step k a serialization failure refuses a command that has committed before. */
  ghost predicate DeniedAt(ws: seq<World>, steps: seq<Step>, k: nat, id: Uuid)
    requires k < |steps| && k < |ws|
  {
    steps[k].DenyStep? && ws[k].phase.Serving? && |ws[k].phase.results| < |ws[k].phase.batch| &&
    ws[k].phase.batch[|ws[k].phase.results|].id == id && Mine(ws[k], id) in ws[k].core.keys
  }

  /** At step k a batch leaves out a command that has committed before. */
  ghost predicate LeftOutAt(ws: seq<World>, steps: seq<Step>, k: nat, id: Uuid)
    requires k < |steps| && k < |ws|
  {
    steps[k].SendStep? && id in LeftOut(ws[k], steps[k].batch)
  }

  /** At step k a committed command is retried after its key has expired. */
  ghost predicate LapsedAt(ws: seq<World>, steps: seq<Step>, k: nat, id: Uuid)
    requires k < |steps| && k < |ws|
  {
    steps[k].ServeNextStep? && Lapses(ws[k], steps[k].now) && ws[k].phase.batch[|ws[k].phase.results|].id == id
  }

  lemma LapseIsServed(w: World, w': World, freshSid: Uuid, freshId: Uuid, now: Time)
    requires Good(w) && ServeNext(w, w', freshSid, freshId, now)
    ensures w'.lapsed == w.lapsed + if Lapses(w, now) then {w.phase.batch[|w.phase.results|].id} else {}
  {
    var command := w.phase.batch[|w.phase.results|];
    hide Good, Execute, PlanOf, Transact;
    if PlanOf(Me(w), command, freshSid, freshId).Refuse? {
      PlanIsStable(Me(w), command, freshSid, freshId);
      RefusedIsNew(w, command);
    }
  }

  lemma StepRecords(ws: seq<World>, steps: seq<Step>, k: nat, id: Uuid)
    requires Run(ws, steps) && k < |steps|
    ensures id in ws[k + 1].denied <==> id in ws[k].denied || DeniedAt(ws, steps, k, id)
    ensures id in ws[k + 1].missed <==> id in ws[k].missed || LeftOutAt(ws, steps, k, id)
    ensures id in ws[k + 1].lapsed <==> id in ws[k].lapsed || LapsedAt(ws, steps, k, id)
  {
    RunGood(ws, steps, k);
    assert Take(ws[k], ws[k + 1], steps[k]);
    hide Run, Good, Take, LeftOut, Lapses;
    StepDenies(ws[k], ws[k + 1], steps[k]);
    StepLapses(ws[k], ws[k + 1], steps[k]);
  }

  /** Only three kinds of step write the records. */
  lemma StepDenies(w: World, w': World, step: Step)
    requires Take(w, w', step)
    ensures step.SendStep? ==> w'.missed == w.missed + LeftOut(w, step.batch)
    ensures !step.SendStep? ==> w'.missed == w.missed
    ensures !step.DenyStep? ==> w'.denied == w.denied
  {
    hide Execute, PlanOf, IsBatch, LeftOut, IsPage, Receive, Told, Lapses;
  }

  lemma StepLapses(w: World, w': World, step: Step)
    requires Good(w) && Take(w, w', step)
    ensures step.ServeNextStep? && Lapses(w, step.now) ==> w'.lapsed == w.lapsed + {w.phase.batch[|w.phase.results|].id}
    ensures !(step.ServeNextStep? && Lapses(w, step.now)) ==> w'.lapsed == w.lapsed
  {
    hide Good, ServeNext, Execute, PlanOf, IsBatch, LeftOut, IsPage, Receive, Told;
    if step.ServeNextStep? {
      LapseIsServed(w, w', step.freshSid, step.freshId, step.now);
    }
  }

  lemma NothingRecorded(ws: seq<World>, steps: seq<Step>, id: Uuid)
    requires Run(ws, steps)
    ensures id !in ws[0].denied && id !in ws[0].missed && id !in ws[0].lapsed
  {
  }

  /** The three records hold exactly the commands to which it happened. */
  lemma {:induction false} DeniedMeans(ws: seq<World>, steps: seq<Step>, n: nat, id: Uuid)
    requires Run(ws, steps) && n < |ws|
    ensures id in ws[n].denied <==> exists k :: 0 <= k < n && DeniedAt(ws, steps, k, id)
  {
    NothingRecorded(ws, steps, id);
    assert |ws| == |steps| + 1;
    hide Run, DeniedAt, LeftOutAt, LapsedAt;
    if n > 0 {
      StepRecords(ws, steps, n - 1, id);
      DeniedMeans(ws, steps, n - 1, id);
      if id in ws[n - 1].denied {
        var k :| 0 <= k < n - 1 && DeniedAt(ws, steps, k, id);
        assert 0 <= k < n && DeniedAt(ws, steps, k, id);
      }
    }
  }

  lemma {:induction false} MissedMeans(ws: seq<World>, steps: seq<Step>, n: nat, id: Uuid)
    requires Run(ws, steps) && n < |ws|
    ensures id in ws[n].missed <==> exists k :: 0 <= k < n && LeftOutAt(ws, steps, k, id)
  {
    NothingRecorded(ws, steps, id);
    assert |ws| == |steps| + 1;
    hide Run, DeniedAt, LeftOutAt, LapsedAt;
    if n > 0 {
      StepRecords(ws, steps, n - 1, id);
      MissedMeans(ws, steps, n - 1, id);
      if id in ws[n - 1].missed {
        var k :| 0 <= k < n - 1 && LeftOutAt(ws, steps, k, id);
        assert 0 <= k < n && LeftOutAt(ws, steps, k, id);
      }
    }
  }

  lemma {:induction false} LapsedMeans(ws: seq<World>, steps: seq<Step>, n: nat, id: Uuid)
    requires Run(ws, steps) && n < |ws|
    ensures id in ws[n].lapsed <==> exists k :: 0 <= k < n && LapsedAt(ws, steps, k, id)
  {
    NothingRecorded(ws, steps, id);
    assert |ws| == |steps| + 1;
    hide Run, DeniedAt, LeftOutAt, LapsedAt;
    if n > 0 {
      StepRecords(ws, steps, n - 1, id);
      LapsedMeans(ws, steps, n - 1, id);
      if id in ws[n - 1].lapsed {
        var k :| 0 <= k < n - 1 && LapsedAt(ws, steps, k, id);
        assert 0 <= k < n && LapsedAt(ws, steps, k, id);
      }
    }
  }

  // ---------------------------------------------------------------- exactly once

  /**
   At every moment of every run, whatever was lost: a command that the phone ever enqueued is still in
   the outbox and has taken effect at most once, or it left as applied with exactly one effect, or it
   left as refused. A refused command has taken effect, once, exactly when after it had committed a
   serialization failure hit it, or it was retried after its key had expired.
   */
  lemma ExactlyOnce(ws: seq<World>, steps: seq<Step>, i: nat, id: Uuid)
    requires Run(ws, steps) && i < |ws| && id in ws[i].fate
    ensures var w := ws[i]; var effects := w.commits[Mine(w, id)];
            match w.fate[id]
            case Waiting => id in w.client.outbox && effects <= 1
            case Accepted => id !in w.client.outbox && effects == 1
            case Refused =>
              id !in w.client.outbox &&
              effects == (if exists k :: 0 <= k < i && (DeniedAt(ws, steps, k, id) || LapsedAt(ws, steps, k, id))
                          then 1 else 0)
  {
    RunGood(ws, steps, i);
    DeniedMeans(ws, steps, i, id);
    LapsedMeans(ws, steps, i, id);
    hide Inv, PhaseOk, OutboxOk, KeysLogged, DeniedAt, LeftOutAt, LapsedAt, Run;
  }

  /** A command that has left the outbox keeps its fate, so a refused one never takes effect later. */
  lemma {:induction false} FateIsFinal(ws: seq<World>, steps: seq<Step>, i: nat, j: nat, id: Uuid)
    requires Run(ws, steps) && i <= j < |ws| && id in ws[i].fate
    ensures id in ws[j].fate && (!ws[i].fate[id].Waiting? ==> ws[j].fate[id] == ws[i].fate[id])
  {
    hide Good, Initial, Take;
    if i < j {
      FateIsFinal(ws, steps, i, j - 1, id);
      RunGood(ws, steps, j - 1);
      FateStays(ws[j - 1], ws[j], steps[j - 1], id);
    }
  }

  lemma FateStays(w: World, w': World, step: Step, id: Uuid)
    requires Good(w) && Take(w, w', step) && id in w.fate
    ensures id in w'.fate && (!w.fate[id].Waiting? ==> w'.fate[id] == w.fate[id])
  {
    if step.DeliverStep? && !w.fate[id].Waiting? {
      var results, batch := w.phase.reply.results, w.phase.batch;
      forall k | 0 <= k < |results| ensures results[k].id != id {
        assert batch[k].id in w.client.outbox;
      }
      assert ResultFor(results, id).None?;
    }
    hide Inv, Execute, PlanOf, ResultFor, OutboxOk, PhaseOk;
  }

  /** The phone's cursor never moves back. */
  lemma CursorAdvances(ws: seq<World>, steps: seq<Step>, i: nat)
    requires Run(ws, steps) && i < |steps|
    ensures ws[i].client.cursor <= ws[i + 1].client.cursor
  {
    RunGood(ws, steps, i);
    assert Take(ws[i], ws[i + 1], steps[i]);
    hide Run, Good, Take;
    StepAdvances(ws[i], ws[i + 1], steps[i]);
  }

  lemma StepAdvances(w: World, w': World, step: Step)
    requires Good(w) && Take(w, w', step)
    ensures w.client.cursor <= w'.client.cursor
  {
    if step.DeliverStep? {
      PageFacts(w);
    }
    hide Good, Execute, PlanOf, IsBatch, IsPage, LeftOut, Told, ApplyResults, Fold;
  }

  // ---------------------------------------------------------------- convergence

  /** Every session of the pair has the same row and participants on the phone as on the server. */
  ghost predicate Converged(w: World) {
    forall id :: InPair(w, id) ==> Agrees(w, id)
  }

  lemma {:induction false} NothingPast(log: seq<Event>, cursors: seq<nat>, pair: Uuid, lo: nat, hi: nat, id: Uuid)
    requires |cursors| == |log| && Visible(log, cursors, pair, lo, hi) == []
    requires forall i :: 0 <= i < |cursors| ==> cursors[i] <= hi
    ensures !SnapshotPast(log, cursors, pair, id, lo)
  {
    if |log| > 0 {
      var n := |log| - 1;
      assert Visible(log[..n], cursors[..n], pair, lo, hi) == [];
      NothingPast(log[..n], cursors[..n], pair, lo, hi, id);
    }
  }

  /** A page that is not full leaves nothing behind it. */
  lemma LastPageLeavesNothing(w: World, w': World, events: seq<Event>, next: nat, id: Uuid)
    requires ServerOk(w) && ReadEvents(w, w', events, next) && |events| < PAGE
    ensures !SnapshotPast(w.core.log, w.cursors, w.pair, id, next)
  {
    PageLeavesRest(w.core.log, w.cursors, w.pair, w.client.cursor, PAGE, events, next);
    TopIsMax(w.core.log, w.cursors);
    hide Inv, KeysLogged;
    NothingPast(w.core.log, w.cursors, w.pair, next, Top(w.cursors), id);
  }

  /** Once a last page is delivered and the server has not moved since it was read, fresh means equal. */
  lemma LastPageShows(w: World, w1: World, w2: World, w3: World, events: seq<Event>, next: nat, now: Time, id: Uuid)
    requires Good(w) && ReadEvents(w, w1, events, next) && |events| < PAGE
    requires w2.phase == w1.phase && SameServer(w, w2) && Deliver(w2, w3, now)
    ensures IsFresh(w3, id) <==> Agrees(w3, id)
  {
    assert ServerOk(w) by { hide Inv, OutboxOk, FatesOk, PhaseOk; }
    LastPageLeavesNothing(w, w1, events, next, id);
    hide Good, ServerOk, SnapshotPast, Agrees, Told, ApplyResults, Fold;
  }

  /** Some step before n spoiled the session, and nothing has renewed it since. */
  ghost predicate Unhealed(ws: seq<World>, steps: seq<Step>, n: nat, id: Uuid)
    requires n <= |steps| && |ws| == |steps| + 1
  {
    n > 0 &&
    (Spoils(ws[n - 1], steps[n - 1], id) ||
     (Unhealed(ws, steps, n - 1, id) && !Renews(ws[n - 1], ws[n], steps[n - 1], id)))
  }

  /** Step k spoils the session, and no step between k and n renews it. */
  ghost predicate LeftSpoiled(ws: seq<World>, steps: seq<Step>, k: nat, n: nat, id: Uuid)
    requires k < n <= |steps| && |ws| == |steps| + 1
  {
    Spoils(ws[k], steps[k], id) && forall m :: k < m < n ==> !Renews(ws[m], ws[m + 1], steps[m], id)
  }

  lemma LeftSpoiledNext(ws: seq<World>, steps: seq<Step>, k: nat, n: nat, id: Uuid)
    requires k < n <= |steps| && |ws| == |steps| + 1
    ensures LeftSpoiled(ws, steps, k, n, id) <==>
            if k == n - 1 then Spoils(ws[k], steps[k], id)
            else LeftSpoiled(ws, steps, k, n - 1, id) && !Renews(ws[n - 1], ws[n], steps[n - 1], id)
  {
    hide Spoils, Renews;
    if k < n - 1 && LeftSpoiled(ws, steps, k, n, id) {
      assert !Renews(ws[n - 1], ws[n - 1 + 1], steps[n - 1], id);
    }
  }

  /** That is: a spoiling step with no renewing step after it. */
  lemma {:induction false} UnhealedMeans(ws: seq<World>, steps: seq<Step>, n: nat, id: Uuid)
    requires n <= |steps| && |ws| == |steps| + 1
    ensures Unhealed(ws, steps, n, id) <==> exists k :: 0 <= k < n && LeftSpoiled(ws, steps, k, n, id)
  {
    hide Spoils, Renews, LeftSpoiled;
    if n > 0 {
      UnhealedMeans(ws, steps, n - 1, id);
      forall k: nat | k < n
        ensures LeftSpoiled(ws, steps, k, n, id) <==>
                if k == n - 1 then Spoils(ws[k], steps[k], id)
                else LeftSpoiled(ws, steps, k, n - 1, id) && !Renews(ws[n - 1], ws[n], steps[n - 1], id)
      {
        LeftSpoiledNext(ws, steps, k, n, id);
      }
      if Spoils(ws[n - 1], steps[n - 1], id) {
        assert LeftSpoiled(ws, steps, n - 1, n, id);
      } else if Unhealed(ws, steps, n, id) {
        var k :| 0 <= k < n - 1 && LeftSpoiled(ws, steps, k, n - 1, id);
        assert LeftSpoiled(ws, steps, k, n, id);
      }
    }
  }

  /** At every moment of every run a session is fresh on the phone exactly when it is not left spoiled. */
  lemma {:induction false} FreshInRun(ws: seq<World>, steps: seq<Step>, n: nat, id: Uuid)
    requires Run(ws, steps) && n < |ws| && InPair(ws[n], id)
    ensures IsFresh(ws[n], id) <==> !Unhealed(ws, steps, n, id)
  {
    hide Good, Take, Initial, InPair, IsFresh, Spoils, Renews;
    if n == 0 {
      NothingAtStart(ws[0], id);
    } else {
      RunGood(ws, steps, n - 1);
      assert Take(ws[n - 1], ws[n], steps[n - 1]);
      StepDecides(ws[n - 1], ws[n], steps[n - 1], id);
      if InPair(ws[n - 1], id) {
        FreshInRun(ws, steps, n - 1, id);
      } else {
        BornRenewed(ws[n - 1], ws[n], steps[n - 1], id);
      }
    }
  }

  lemma NothingAtStart(w: World, id: Uuid)
    requires Initial(w)
    ensures !InPair(w, id)
  {
  }

  /** A session that is new to the pair is not spoiled, so by StepDecides it is fresh only as renewed. */
  lemma BornRenewed(w: World, w': World, step: Step, id: Uuid)
    requires Good(w) && Take(w, w', step) && !InPair(w, id) && InPair(w', id)
    ensures !Spoils(w, step, id) && Renews(w, w', step, id)
  {
    StepKeepsGood(w, w', step);
    StepLog(w, w', step);
    assert ServerOk(w) && ServerOk(w') by { hide Inv, OutboxOk, FatesOk, PhaseOk; }
    hide Good, Take;
    if !NewSnapshot(w.core.log, w'.core.log, id) {
      RowStays(w, w', id);
    }
  }

  /** The last page is read at step i and delivered at step j, and the server does nothing in between. */
  ghost predicate LastPage(ws: seq<World>, steps: seq<Step>, i: nat, j: nat)
    requires |ws| == |steps| + 1
  {
    i < j < |steps| && steps[i].ReadEventsStep? && steps[j].DeliverStep? && ws[j].phase == ws[i + 1].phase &&
    ws[j].phase.Replying? && !ws[j].phase.reply.hasMore && SameServer(ws[i], ws[j])
  }

  lemma LastPageSteps(ws: seq<World>, steps: seq<Step>, i: nat, j: nat)
    requires Run(ws, steps) && LastPage(ws, steps, i, j)
    ensures Good(ws[i]) && ReadEvents(ws[i], ws[i + 1], steps[i].events, steps[i].next) && |steps[i].events| < PAGE
    ensures Deliver(ws[j], ws[j + 1], steps[j].now)
  {
    RunGood(ws, steps, i);
    assert Take(ws[i], ws[i + 1], steps[i]) && Take(ws[j], ws[j + 1], steps[j]);
    hide Good, Initial, ReadEvents, Deliver, SameServer;
    PageIsShort(ws[i], ws[i + 1], steps[i].events, steps[i].next);
  }

  /**
   Convergence, exactly: in every run with any losses, when a last page is delivered a session of the pair
   is the same on phone and server if and only if no delivery up to here spoiled it without its being
   renewed since.
   */
  lemma ConvergenceExact(ws: seq<World>, steps: seq<Step>, i: nat, j: nat, id: Uuid)
    requires Run(ws, steps) && LastPage(ws, steps, i, j) && InPair(ws[j + 1], id)
    ensures Agrees(ws[j + 1], id) <==> !Unhealed(ws, steps, j + 1, id)
  {
    hide Good, Take, Initial, ReadEvents, Deliver, SameServer, InPair, IsFresh, Agrees, Unhealed;
    LastPageSteps(ws, steps, i, j);
    LastPageShows(ws[i], ws[i + 1], ws[j], ws[j + 1], steps[i].events, steps[i].next, steps[j].now, id);
    FreshInRun(ws, steps, j + 1, id);
  }

  lemma PageIsShort(w: World, w': World, events: seq<Event>, next: nat)
    requires ReadEvents(w, w', events, next) && !w'.phase.reply.hasMore
    ensures |events| < PAGE
  {
  }

  /** A delivery spoils nothing unless its reads were torn, or it answers a command that was left out. */
  lemma SpoilingHasCause(w: World, id: Uuid)
    requires Good(w) && (TornFor(w, id) || StaleFor(w, id))
    ensures w.torn || w.missed != {}
  {
    if TornFor(w, id) {
      SpoilingIsTorn(w, id);
    }
  }

  lemma SpoilingIsTorn(w: World, id: Uuid)
    requires Good(w) && TornFor(w, id)
    ensures w.torn
  {
    LoggedVersion(w.core, w.clock, w.phase.reply.current.value);
    hide Inv, OutboxOk, FatesOk, BatchOk, ResultsOk, Visible;
  }

  /** Every page was read with the current session unchanged, and every batch had all committed commands. */
  ghost predicate Quiet(ws: seq<World>, steps: seq<Step>)
    requires |ws| == |steps| + 1
  {
    forall k :: 0 <= k < |steps| ==>
      (steps[k].ReadEventsStep? && ws[k].phase.HaveCurrent? ==> Untorn(ws[k].core, ws[k].phase.current)) &&
      (steps[k].SendStep? ==> Covers(ws[k], steps[k].batch))
  }

  lemma {:induction false} QuietRecord(ws: seq<World>, steps: seq<Step>, n: nat)
    requires Run(ws, steps) && n < |ws| && Quiet(ws, steps)
    ensures !ws[n].torn && ws[n].missed == {}
  {
    if n > 0 {
      QuietRecord(ws, steps, n - 1);
      assert Take(ws[n - 1], ws[n], steps[n - 1]);
      hide Execute, PlanOf, IsBatch, IsPage, Untorn, LeftOut;
    }
  }

  lemma {:induction false} QuietHeals(ws: seq<World>, steps: seq<Step>, n: nat, id: Uuid)
    requires Run(ws, steps) && n < |ws| && Quiet(ws, steps)
    ensures !Unhealed(ws, steps, n, id)
  {
    if n > 0 {
      QuietHeals(ws, steps, n - 1, id);
      QuietRecord(ws, steps, n - 1);
      RunGood(ws, steps, n - 1);
      hide Good, Run, Quiet, TornFor, StaleFor, Renews;
      if Spoils(ws[n - 1], steps[n - 1], id) {
        SpoilingHasCause(ws[n - 1], id);
      }
    }
  }

  /** Convergence of quiet runs: after every last page phone and server agree on every session of the pair. */
  lemma QuietConvergence(ws: seq<World>, steps: seq<Step>, i: nat, j: nat)
    requires Run(ws, steps) && LastPage(ws, steps, i, j) && Quiet(ws, steps)
    ensures Converged(ws[j + 1])
  {
    var w := ws[j + 1];
    hide Run, LastPage, Quiet, InPair, Agrees;
    forall id | InPair(w, id) ensures Agrees(w, id) {
      QuietAgrees(ws, steps, i, j, id);
    }
  }

  lemma QuietAgrees(ws: seq<World>, steps: seq<Step>, i: nat, j: nat, id: Uuid)
    requires Run(ws, steps) && LastPage(ws, steps, i, j) && Quiet(ws, steps) && InPair(ws[j + 1], id)
    ensures Agrees(ws[j + 1], id)
  {
    hide Initial, Take, SameServer, Quiet, InPair, Agrees, Unhealed;
    ConvergenceExact(ws, steps, i, j, id);
    QuietHeals(ws, steps, j + 1, id);
  }

  /** A batch that is not full leaves out no committed command. */
  lemma SmallBatchCovers(w: World, batch: seq<Command>, now: Time)
    requires Good(w) && w.device <= now && IsBatch(w.client.outbox, now, batch) && |batch| < BATCH
    ensures Covers(w, batch)
  {
    hide Inv, PhaseOk, FatesOk, Ahead, Explains;
  }

  // ---------------------------------------------------------------- the two ways to spoil a session

  /**
   The two reads: when a last page is delivered at once, the session that was read as current is the same
   on phone and server afterwards if and only if it did not change between the reads.
   */
  lemma TornRead(w: World, w1: World, w2: World, events: seq<Event>, next: nat, now: Time)
    requires Good(w) && ReadEvents(w, w1, events, next) && |events| < PAGE && Deliver(w1, w2, now)
    requires w.phase.current.Some?
    ensures InPair(w2, w.phase.current.value.id)
    ensures Agrees(w2, w.phase.current.value.id) <==> Untorn(w.core, w.phase.current)
  {
    assert InPair(w, w.phase.current.value.id);
    hide Good, ApplyResults, Fold, IsPage, Told;
  }

  /**
   The stale answer: when a last page is delivered at once, a session that was fresh and is not the current
   one differs afterwards if and only if the reply answers a command that an earlier batch left out, the
   cursor is past the session's snapshots, and the session has moved on since the answer.
   */
  lemma StaleRetry(w: World, w1: World, w2: World, events: seq<Event>, next: nat, now: Time, id: Uuid)
    requires Good(w) && ReadEvents(w, w1, events, next) && |events| < PAGE && Deliver(w1, w2, now)
    requires InPair(w, id) && IsFresh(w, id) && !IsCurrent(w1.phase.reply, id)
    ensures Agrees(w2, id) <==> !StaleFor(w1, id)
  {
    ReadEventsKeepsGood(w, w1, events, next);
    LastPageShows(w, w1, w1, w2, events, next, now, id);
    assert InPair(w1, id) && IsFresh(w1, id);
    hide Good, ReadEvents, Deliver, IsFresh, StaleFor;
    DeliveryDecides(w1, w2, now, id);
    assert !TornFor(w1, id);
  }
}
