/**
 What becomes of a torn read when the session had ended between the two reads. The server never sends the
 session again of itself, so only the phone's own command that ended it, or the history screen, can heal it.
 */
module TornEnd {
  import opened Domain
  import opened Timeline
  import opened Tables
  import opened Reducer
  import opened StoreInvariant
  import opened StoreRuns
  import opened Paging
  import opened SyncMessages
  import opened SyncProtocol
  import opened SyncSteps
  import opened Freshness
  import opened SyncTheorems

  /** A session of the pair that has ended. */
  ghost predicate Ended(w: World, id: Uuid) {
    InPair(w, id) && !w.core.sessions[id].state.Active()
  }

  /** The reply answers a command of this phone with the ended session. */
  ghost predicate EndAnswered(w: World, id: Uuid) {
    w.phase.Replying? &&
    var carrier := Carrier(w.phase.reply.results, id);
    carrier.Some? && !carrier.value.resource.session.row.state.Active()
  }

  /** The history screen copies the session, which it does only with completed ones. */
  ghost predicate Listed(w: World, step: Step, id: Uuid) {
    step.RefreshHistoryStep? && id in step.ids && id in w.core.sessions && w.core.sessions[id].state.Completed?
  }

  ghost predicate Heals(w: World, step: Step, id: Uuid) {
    Listed(w, step, id) || (step.DeliverStep? && EndAnswered(w, id))
  }

  /** A command of this phone has committed with the ended session as its answer. */
  ghost predicate EndedHere(w: World, id: Uuid) {
    exists key :: key in w.core.keys && key.0 == w.account && EndsIn(w.core.keys[key].response, id)
  }

  predicate EndsIn(response: Response, id: Uuid) {
    response.SessionResponse? && response.session.id == id && !response.session.row.state.Active()
  }

  // ---------------------------------------------------------------- an ended session stays as it is

  lemma {:induction false} HistoryMoves(log: seq<Event>, log': seq<Event>, id: Uuid)
    requires log <= log' && NewSnapshot(log, log', id)
    ensures |History(log, id)| < |History(log', id)|
  {
    var n := |log'| - 1;
    if Snapshots(log'[n], id) {
      HistoryGrows(log, log'[..n], id);
    } else {
      HistoryMoves(log, log'[..n], id);
    }
  }

  lemma StoredEnds(core: Core, t: Time, id: Uuid)
    requires Inv(core, t) && id in core.sessions
    ensures var h := History(core.log, id);
            Chain(h) && |h| > 0 && Last(h).session.row == core.sessions[id]
  {
    StoredIsLast(core, t, id);
    hide Inv, Chain, History;
  }

  lemma EndIsFinal(core: Core, t: Time, core': Core, t': Time, id: Uuid)
    requires Inv(core, t) && Inv(core', t') && core.log <= core'.log
    requires id in core.sessions && !core.sessions[id].state.Active()
    ensures id in core'.sessions && core'.sessions[id] == core.sessions[id]
    ensures !NewSnapshot(core.log, core'.log, id)
  {
    hide Chain, Inv, History, NewSnapshot;
    PairKept(core, t, core', t', id);
    StoredEnds(core, t, id);
    StoredEnds(core', t', id);
    HistoryGrows(core.log, core'.log, id);
    EndedHistory(History(core.log, id), History(core'.log, id));
    if NewSnapshot(core.log, core'.log, id) {
      HistoryMoves(core.log, core'.log, id);
      assert false;
    }
  }

  lemma EndStays(w: World, w': World, step: Step, id: Uuid)
    requires Good(w) && Take(w, w', step) && Ended(w, id)
    ensures Ended(w', id) && w'.core.sessions[id] == w.core.sessions[id]
    ensures !NewSnapshot(w.core.log, w'.core.log, id)
  {
    hide Good, Take, Inv, NewSnapshot, ServerOk, OutboxOk, FatesOk, PhaseOk, Numbered;
    StepKeepsGood(w, w', step);
    StepLog(w, w', step);
    GoodServer(w);
    GoodServer(w');
    EndIsFinal(w.core, w.clock, w'.core, w'.clock, id);
  }

  // ---------------------------------------------------------------- what can heal it

  /** A reply that brings an ended session carries it as an answer: it cannot be the current session. */
  lemma BroughtIsAnswer(w: World, id: Uuid)
    requires Good(w) && Ended(w, id) && Brought(w, id)
    ensures EndAnswered(w, id)
  {
    hide Good, Logged, Inv, BatchOk, ResultsOk, Carrier;
    ReplyFacts(w, id);
    if IsCurrent(w.phase.reply, id) {
      CurrentIsActive(w);
      LoggedVersion(w.core, w.clock, w.phase.reply.current.value);
      assert false;
    } else {
      var carrier := Carrier(w.phase.reply.results, id).value;
      CarrierIsStored(w, id);
      LoggedVersion(w.core, w.clock, carrier.resource.session);
    }
  }

  lemma CurrentIsActive(w: World)
    requires Good(w) && w.phase.Replying? && w.phase.reply.current.Some?
    ensures w.phase.reply.current.value.row.state.Active()
  {
    hide Inv, OutboxOk, FatesOk, BatchOk, ResultsOk, Logged, Visible, Fresh, KeysLogged, Top;
  }

  /** A result that carries a session is a stored answer. */
  lemma CarrierIsStored(w: World, id: Uuid)
    requires Good(w) && w.phase.Replying? && Carrier(w.phase.reply.results, id).Some?
    ensures var carrier := Carrier(w.phase.reply.results, id).value;
            Logged(w.core.log, carrier.resource.session) && Mine(w, carrier.id) in w.core.keys &&
            w.core.keys[Mine(w, carrier.id)].response == carrier.resource
  {
    hide Good, Inv, BatchOk, Logged, Ahead;
    ReplyResults(w);
    var k := CarrierIsThere(w.phase.reply.results, id);
    assert w.phase.reply.results[k].Applied?;
  }

  lemma RenewalHeals(w: World, w': World, step: Step, id: Uuid)
    requires Good(w) && Take(w, w', step) && Ended(w, id) && Renews(w, w', step, id)
    ensures Heals(w, step, id)
  {
    hide Good, NewSnapshot, Brought, EndAnswered, IsPast;
    EndStays(w, w', step, id);
    if step.DeliverStep? && Brought(w, id) {
      hide Take;
      BroughtIsAnswer(w, id);
    } else {
      ListedIsCompleted(w, w', step, id);
    }
  }

  lemma ListedIsCompleted(w: World, w': World, step: Step, id: Uuid)
    requires Take(w, w', step) && step.RefreshHistoryStep? && id in step.ids
    ensures Listed(w, step, id)
  {
  }

  ghost predicate SameEnd(w: World, w': World, id: Uuid) {
    Ended(w, id) && Ended(w', id) && w'.core.sessions[id] == w.core.sessions[id]
  }

  lemma EndIsSame(w: World, id: Uuid)
    requires Ended(w, id)
    ensures SameEnd(w, w, id)
  {
  }

  lemma EndStaysSame(w0: World, w: World, w': World, step: Step, id: Uuid)
    requires Good(w) && Take(w, w', step) && SameEnd(w0, w, id)
    ensures SameEnd(w0, w', id)
  {
    hide Good, Take, NewSnapshot;
    EndStays(w, w', step, id);
  }

  lemma {:induction false} EndedInRun(ws: seq<World>, steps: seq<Step>, k: nat, n: nat, id: Uuid)
    requires Run(ws, steps) && k <= n < |ws| && Ended(ws[k], id)
    ensures SameEnd(ws[k], ws[n], id)
  {
    hide Good, Initial, Take, SameEnd, Ended, NewSnapshot;
    if k < n {
      EndedInRun(ws, steps, k, n - 1, id);
      RunGood(ws, steps, n - 1);
      EndStaysSame(ws[k], ws[n - 1], ws[n], steps[n - 1], id);
    } else {
      EndIsSame(ws[k], id);
    }
  }

  /**
   A torn delivery of a session that had already ended: whenever later the session is fresh on the phone, the
   history screen has listed it in between, or the phone was answered with the end by its own command.
   */
  lemma TornEndHeals(ws: seq<World>, steps: seq<Step>, k: nat, n: nat, id: Uuid)
    requires Run(ws, steps) && k < n < |ws| && steps[k].DeliverStep? && TornFor(ws[k], id) && Ended(ws[k], id)
    requires IsFresh(ws[n], id)
    ensures exists m :: k < m < n && Heals(ws[m], steps[m], id)
  {
    if forall m :: k < m < n ==> !Heals(ws[m], steps[m], id) {
      assert |ws| == |steps| + 1 && Spoils(ws[k], steps[k], id);
      forall m | k < m < n ensures !Renews(ws[m], ws[m + 1], steps[m], id) {
        RunGood(ws, steps, m);
        EndedInRun(ws, steps, k, m, id);
        assert Take(ws[m], ws[m + 1], steps[m]);
        hide Run, Good, Take, Renews, Heals, Ended;
        if Renews(ws[m], ws[m + 1], steps[m], id) {
          RenewalHeals(ws[m], ws[m + 1], steps[m], id);
          assert false;
        }
      }
      EndedInRun(ws, steps, k, n, id);
      hide Run, Spoils, Renews, IsFresh, TornFor;
      assert LeftSpoiled(ws, steps, k, n, id);
      UnhealedMeans(ws, steps, n, id);
      FreshInRun(ws, steps, n, id);
      assert false;
    }
  }

  // ---------------------------------------------------------------- torn for ever

  lemma StepKeepsKeys(w: World, w': World, step: Step, key: (Uuid, Uuid))
    requires Good(w) && Take(w, w', step) && key in w.core.keys
    ensures w'.account == w.account && key in w'.core.keys && w'.core.keys[key] == w.core.keys[key]
  {
    hide Good, Execute, PlanOf, IsBatch, IsPage, LeftOut, Receive, Told;
    match step
    case OtherCallsStep(call, now) =>
      CommitsStoreKeys(w.core, call, now);
    case ServeNextStep(freshSid, freshId, now) =>
      var plan := PlanOf(Me(w), w.phase.batch[|w.phase.results|], freshSid, freshId);
      if plan.Perform? {
        CommitsStoreKeys(w.core, plan.call, now);
      }
    case ReadCurrentStep(now) =>
      CommitsStoreKeys(w.core, CCurrent(Me(w)), now);
    case _ =>
  }

  lemma StepKeepsEnd(w: World, w': World, step: Step, id: Uuid)
    requires Good(w) && Take(w, w', step) && EndedHere(w, id)
    ensures EndedHere(w', id)
  {
    hide Good, Take, EndsIn;
    var key :| key in w.core.keys && key.0 == w.account && EndsIn(w.core.keys[key].response, id);
    StepKeepsKeys(w, w', step, key);
    assert EndsIn(w'.core.keys[key].response, id);
  }

  lemma {:induction false} EndedHereStays(ws: seq<World>, steps: seq<Step>, m: nat, n: nat, id: Uuid)
    requires Run(ws, steps) && m <= n < |ws| && EndedHere(ws[m], id)
    ensures EndedHere(ws[n], id)
  {
    hide Good, Initial, Take, EndedHere;
    if m < n {
      EndedHereStays(ws, steps, m, n - 1, id);
      RunGood(ws, steps, n - 1);
      StepKeepsEnd(ws[n - 1], ws[n], steps[n - 1], id);
    }
  }

  lemma AnswerIsEnd(w: World, id: Uuid)
    requires Good(w) && EndAnswered(w, id)
    ensures EndedHere(w, id)
  {
    CarrierIsStored(w, id);
    var carrier := Carrier(w.phase.reply.results, id).value;
    hide Good, Carrier, Logged;
    assert EndsIn(w.core.keys[Mine(w, carrier.id)].response, id);
  }

  /**
   A torn delivery of a cancelled or expired session that no command of this account ended is never made
   good: at no later moment of the run do phone and server agree on it.
   */
  lemma TornForever(ws: seq<World>, steps: seq<Step>, k: nat, n: nat, id: Uuid)
    requires Run(ws, steps) && k < n < |ws| && steps[k].DeliverStep? && TornFor(ws[k], id) && Ended(ws[k], id)
    requires !ws[k].core.sessions[id].state.Completed? && !EndedHere(ws[n], id)
    ensures InPair(ws[n], id) && !Agrees(ws[n], id) && !IsPast(ws[n], id, ws[n].client.cursor)
  {
    EndedInRun(ws, steps, k, n, id);
    assert |ws| == |steps| + 1;
    hide Run, TornFor, EndedHere, EndAnswered, Agrees, IsPast;
    if IsFresh(ws[n], id) {
      TornEndHeals(ws, steps, k, n, id);
      var m :| k < m < n && Heals(ws[m], steps[m], id);
      EndedInRun(ws, steps, k, m, id);
      assert SameEnd(ws[k], ws[m], id);
      assert EndAnswered(ws[m], id);
      RunGood(ws, steps, m);
      hide Good;
      AnswerIsEnd(ws[m], id);
      EndedHereStays(ws, steps, m, n, id);
      assert false;
    }
  }
}
