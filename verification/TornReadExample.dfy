/**
 A complete run in which the two reads of one request are torn: the partner pauses between them, the
 phone ends up with the open session, and nothing is left for it to replay.
 */
module TornReadExample {
  import opened Domain
  import opened Timeline
  import opened Tables
  import opened Reducer
  import opened StoreInvariant
  import opened StoreRuns
  import opened Paging
  import opened SyncMessages
  import opened SyncProtocol
  import opened SyncSteps
  import opened Freshness
  import opened SyncTheorems

  const STARTER := Identity(1, Some(9))
  const INVITE := CCreateInvite(1, 10, 77, 100)
  const ACCEPT := CAcceptInvite(2, 77, 9, true)
  const START := CStart(STARTER, 50, 5)
  const PAUSE := CTransition(STARTER, 51, 5, 1, Pause)

  ghost function First(): World {
    World(2, 9, EMPTY, [], 0, Client(map[], map[], 0), 0, Idle, map[], multiset{}, false, {}, {}, {})
  }

  /** The three calls that set the scene. */
  lemma Paired() returns (db: Core)
    ensures db == Execute(Execute(EMPTY, INVITE, 0).0, ACCEPT, 0).0
    ensures Execute(EMPTY, INVITE, 0).0.log == [] && Execute(EMPTY, INVITE, 0).0.keys == map[]
    ensures Execute(EMPTY, INVITE, 0).1 == Done && Execute(Execute(EMPTY, INVITE, 0).0, ACCEPT, 0).1 == Done
    ensures db.pairOf == map[1 := 9, 2 := 9] && db.sessions == map[] && db.keys == map[] && |db.log| == 1
    ensures db.members == map[] && db.notes == map[] && db.reactions == []
  {
    var invited := Execute(EMPTY, INVITE, 0).0;
    assert invited.invites == map[10 := Invite(1, 77, 100, None, None, None)];
    assert 10 in invited.invites && Live(invited.invites[10], 77, 0);
    assert forall id :: id in invited.invites ==> id == 10;
    db := Execute(invited, ACCEPT, 0).0;
    assert db.pairOf == map[1 := 9][2 := 9];
  }

  lemma Started(paired: Core) returns (db: Core)
    requires paired.pairOf == map[1 := 9, 2 := 9] && paired.sessions == map[] && paired.keys == map[]
    requires |paired.log| == 1
    requires paired.members == map[] && paired.notes == map[] && paired.reactions == []
    ensures db == Execute(paired, START, 0).0 && Execute(paired, START, 0).1.Ok?
    ensures !Execute(paired, START, 0).1.replayed
    ensures db.pairOf == paired.pairOf && db.sessions == map[5 := Opened(9, 1, 0)] && |db.log| == 2
    ensures db.keys.Keys == {(1, 50)} && Sweep(db, 9, 0) == db
    ensures 5 in db.members && db.members[5] == [Participant(1, 0)] && db.reactions == []
  {
    assert Sweep(paired, 9, 0) == paired && !HasActive(paired.sessions, 9);
    db := Execute(paired, START, 0).0;
    assert db.sessions == map[5 := Opened(9, 1, 0)];
  }

  lemma PausedNext(db: Core) returns (db': Core)
    requires db.pairOf == map[1 := 9, 2 := 9] && db.sessions == map[5 := Opened(9, 1, 0)] && |db.log| == 2
    requires db.keys.Keys == {(1, 50)}
    ensures db' == Execute(db, PAUSE, 0).0 && Execute(db, PAUSE, 0).1.Ok? && !Execute(db, PAUSE, 0).1.replayed
    ensures |db'.log| == 3 && db'.log[2].pair == 9 && 5 in db'.sessions && db'.sessions[5].version == 2
  {
    db' := Execute(db, PAUSE, 0).0;
  }

  lemma CurrentIsOpen(db: Core)
    requires db.sessions == map[5 := Opened(9, 1, 0)] && Sweep(db, 9, 0) == db
    ensures Execute(db, CCurrent(Identity(2, Some(9))), 0) == (db, Current(Some(Read(db, 5))))
  {
    assert IsActiveOf(db.sessions, 9, 5);
  }

  lemma {:induction false} ShortEnough(log: seq<Event>, cursors: seq<nat>, pair: Uuid, lo: nat, hi: nat)
    requires |cursors| == |log|
    ensures |Visible(log, cursors, pair, lo, hi)| <= |log|
  {
    if |log| > 0 {
      ShortEnough(log[..|log| - 1], cursors[..|log| - 1], pair, lo, hi);
    }
  }

  ghost predicate Linked(ws: seq<World>, steps: seq<Step>) {
    |ws| == |steps| + 1 && forall i :: 0 <= i < |steps| ==> Take(ws[i], ws[i + 1], steps[i])
  }

  ghost predicate AtStart(w: World, db: Core) {
    w == First().(core := db, cursors := [1, 2], commits := multiset{(1, 50)})
  }

  /** The pair is made and the partner starts a session. */
  lemma Scene(paired: Core, started: Core) returns (ws: seq<World>, steps: seq<Step>)
    requires var invited := Execute(EMPTY, INVITE, 0).0;
             invited.log == [] && invited.keys == map[] && Execute(EMPTY, INVITE, 0).1 == Done &&
             paired == Execute(invited, ACCEPT, 0).0 && Execute(invited, ACCEPT, 0).1 == Done
    requires |paired.log| == 1
    requires started == Execute(paired, START, 0).0 && |started.log| == 2
    requires Execute(paired, START, 0).1.Ok? && !Execute(paired, START, 0).1.replayed
    ensures Linked(ws, steps) && |steps| == 3 && ws[0] == First() && AtStart(ws[3], started)
  {
    hide Execute;
    var w0 := First();
    var w1 := w0.(core := Execute(EMPTY, INVITE, 0).0);
    var w2 := w0.(core := paired, cursors := [1]);
    var w3 := w0.(core := started, cursors := [1, 2], commits := multiset{(1, 50)});
    ws := [w0, w1, w2, w3];
    steps := [OtherCallsStep(INVITE, 0), OtherCallsStep(ACCEPT, 0), OtherCallsStep(START, 0)];
  }

  /** The phone's request reads the current session, and then the partner pauses. */
  lemma Torn(started: Core, paused: Core, w: World) returns (ws: seq<World>, steps: seq<Step>)
    requires AtStart(w, started) && 5 in started.sessions && |started.log| == 2
    requires Execute(started, CCurrent(Identity(2, Some(9))), 0) == (started, Current(Some(Read(started, 5))))
    requires paused == Execute(started, PAUSE, 0).0 && |paused.log| == 3
    requires Execute(started, PAUSE, 0).1.Ok? && !Execute(started, PAUSE, 0).1.replayed
    ensures Linked(ws, steps) && |steps| == 3 && ws[0] == w
    ensures ws[3] == w.(phase := HaveCurrent([], [], Some(Read(started, 5))), core := paused, cursors := [1, 2, 3],
                        commits := multiset{(1, 50), (1, 51)})
  {
    hide Execute;
    var w1 := w.(phase := Serving([], []));
    var w2 := w.(phase := HaveCurrent([], [], Some(Read(started, 5))));
    var w3 := w2.(core := paused, cursors := [1, 2, 3], commits := multiset{(1, 50), (1, 51)});
    ws := [w, w1, w2, w3];
    steps := [SendStep([], 0), ReadCurrentStep(0), OtherCallsStep(PAUSE, 0)];
    assert Transact(w1, w2, CCurrent(Me(w1)), 0);
  }

  lemma Glue(ws: seq<World>, steps: seq<Step>, ws': seq<World>, steps': seq<Step>)
    requires Linked(ws, steps) && Linked(ws', steps') && ws[|steps|] == ws'[0]
    ensures Linked(ws + ws'[1..], steps + steps')
  {
    hide Take;
    var all, moves := ws + ws'[1..], steps + steps';
    forall i | 0 <= i < |moves| ensures Take(all[i], all[i + 1], moves[i]) {
      if i >= |steps| {
        var k := i - |steps|;
        assert Take(ws'[k], ws'[k + 1], steps'[k]);
        assert all[i] == ws'[k] && all[i + 1] == ws'[k + 1];
      }
    }
  }

  /** The run up to the second read. */
  lemma UpToPause() returns (ws: seq<World>, steps: seq<Step>)
    ensures Linked(ws, steps) && |steps| == 6 && ws[0] == First() && ws[6].device == 0
    ensures ws[6].phase.HaveCurrent? && !Untorn(ws[6].core, ws[6].phase.current)
    ensures |ws[6].core.log| == 3 && ws[6].cursors == [1, 2, 3] && ws[6].client.cursor == 0
    ensures ws[6].core.log[2].pair == ws[6].pair
  {
    var paired := Paired();
    var started := Started(paired);
    var paused := PausedNext(started);
    CurrentIsOpen(started);
    hide Execute, Sweep, Linked;
    var ws1, steps1 := Scene(paired, started);
    var ws2, steps2 := Torn(started, paused, ws1[3]);
    Glue(ws1, steps1, ws2, steps2);
    ws, steps := ws1 + ws2[1..], steps1 + steps2;
    LinkedLength(ws1, steps1);
    LinkedLength(ws2, steps2);
    assert ws[6] == ws2[3];
  }

  lemma LinkedLength(ws: seq<World>, steps: seq<Step>)
    requires Linked(ws, steps)
    ensures |ws| == |steps| + 1
  {
  }

  /** A run whose last step delivers a last page, and yet phone and server differ. */
  lemma TornReadHappens() returns (ws: seq<World>, steps: seq<Step>)
    ensures Run(ws, steps) && |steps| == 8 && steps[7].DeliverStep?
    ensures ws[7].phase.Replying? && !ws[7].phase.reply.hasMore && !Converged(ws[8])
  {
    hide Converged, Good, Take, Untorn;
    var ws1, steps1 := UpToPause();
    RunGood(ws1, steps1, 6);
    var ws2, steps2 := Finale(ws1[6]);
    Glue(ws1, steps1, ws2, steps2);
    ws, steps := ws1 + ws2[1..], steps1 + steps2;
  }

  lemma LastPageTorn(w: World) returns (w1: World, events: seq<Event>, next: nat)
    requires w.phase.HaveCurrent? && !Untorn(w.core, w.phase.current)
    requires |w.core.log| == 3 && w.cursors == [1, 2, 3] && w.client.cursor == 0 && w.core.log[2].pair == w.pair
    ensures ReadEvents(w, w1, events, next) && |events| < PAGE && w1.device == w.device
    ensures w1.phase.Replying? && !w1.phase.reply.hasMore
  {
    events, next := FullPage(w);
    hide Untorn, IsPage;
    w1 := w.(phase := Replying(w.phase.batch, Reply(w.phase.results, events, w.phase.current, next, false)),
             torn := true);
  }

  lemma NotConverged(w: World, id: Uuid)
    requires InPair(w, id) && !Agrees(w, id)
    ensures !Converged(w)
  {
  }

  /** The stale session is delivered with the last page. */
  lemma Finale(w: World) returns (ws: seq<World>, steps: seq<Step>)
    requires Good(w) && w.phase.HaveCurrent? && !Untorn(w.core, w.phase.current)
    requires |w.core.log| == 3 && w.cursors == [1, 2, 3] && w.client.cursor == 0 && w.core.log[2].pair == w.pair
    requires w.device == 0
    ensures Linked(ws, steps) && |steps| == 2 && ws[0] == w && steps[1].DeliverStep?
    ensures ws[1].phase.Replying? && !ws[1].phase.reply.hasMore && !Converged(ws[2])
  {
    hide Good, Converged, Untorn, ReadEvents, Receive, Told;
    var w1, events, next := LastPageTorn(w);
    var w2 := w1.(phase := Idle, client := Receive(w1.client, w1.phase.reply, 0),
                  fate := Told(w1.fate, w1.phase.reply.results));
    TornDelivery(w, w1, w2, events, next);
    ws, steps := [w, w1, w2], [ReadEventsStep(events, next), DeliverStep(0)];
  }

  lemma TornDelivery(w: World, w1: World, w2: World, events: seq<Event>, next: nat)
    requires Good(w) && ReadEvents(w, w1, events, next) && |events| < PAGE && Deliver(w1, w2, 0)
    requires !Untorn(w.core, w.phase.current)
    ensures !Converged(w2)
  {
    assert w.phase.current.Some?;
    hide Good, Untorn, ReadEvents, Deliver, InPair, Agrees;
    TornRead(w, w1, w2, events, next, 0);
    NotConverged(w2, w.phase.current.value.id);
  }

  /** A page that takes everything. */
  lemma FullPage(w: World) returns (events: seq<Event>, next: nat)
    requires |w.core.log| == 3 && w.cursors == [1, 2, 3] && w.client.cursor == 0
    requires w.core.log[2].pair == w.pair
    ensures IsPage(w.core.log, w.cursors, w.pair, 0, PAGE, events, next) && |events| < PAGE && next == 3
  {
    events, next := Visible(w.core.log, w.cursors, w.pair, 0, 3), 3;
    ShortEnough(w.core.log, w.cursors, w.pair, 0, 3);
    assert w.cursors[2] == 3;
  }
}
