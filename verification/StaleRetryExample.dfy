/**
 A complete run in which a stale answer overwrites a session, though creation times only grow. A cheer is
 deferred. While it waits, ninety-nine notes on a session the server does not have are queued, and then a
 resume; the resume commits and its answer is lost. The partner cancels. Now the cheer may go again, and with
 the notes it fills the batch: the resume is left out, and the reply moves the cursor past the cancelled
 session. Then the retried resume is answered with the session as it was.
 */
module StaleRetryExample {
  import opened Domain
  import opened Timeline
  import opened Tables
  import opened Reducer
  import opened StoreInvariant
  import opened StoreRuns
  import opened Paging
  import opened SyncMessages
  import opened SyncProtocol
  import opened SyncSteps
  import opened Freshness
  import opened SyncTheorems
  import opened Pacing
  import opened TornReadExample

  const ME := Identity(2, Some(9))
  const FIRST_CHEER := CCheer(ME, 60, 5, 70)
  const CANCEL := CTransition(STARTER, 52, 5, 3, Cancel)
  const CHEER := Command(80, CheerCommand, Some(5), None, NoBody)
  const RESUME := Command(81, ActCommand(Resume), Some(5), Some(2), NoBody)
  const LATER: Time := 6 * SECOND

  // ---------------------------------------------------------------- runs by their end points

  ghost predicate Reaches(w: World, w': World) {
    exists ws, steps :: Linked(ws, steps) && Growing(ws, steps) && ws[0] == w && ws[|steps|] == w'
  }

  lemma Stays(w: World)
    ensures Reaches(w, w)
  {
    assert Linked([w], []);
    assert Growing([w], []);
  }

  lemma Goes(w: World, w': World, step: Step)
    requires Take(w, w', step) && Grows(w, step)
    ensures Reaches(w, w')
  {
    hide Take, Grows;
    assert Linked([w, w'], [step]);
    assert Growing([w, w'], [step]);
  }

  lemma Onward(a: World, b: World, c: World)
    requires Reaches(a, b) && Reaches(b, c)
    ensures Reaches(a, c)
  {
    var ws, steps :| Linked(ws, steps) && Growing(ws, steps) && ws[0] == a && ws[|steps|] == b;
    var ws', steps' :| Linked(ws', steps') && Growing(ws', steps') && ws'[0] == b && ws'[|steps'|] == c;
    Glue(ws, steps, ws', steps');
    var all, moves := ws + ws'[1..], steps + steps';
    assert all[0] == a && all[|moves|] == c;
    GlueGrows(ws, steps, ws', steps');
  }

  lemma GlueGrows(ws: seq<World>, steps: seq<Step>, ws': seq<World>, steps': seq<Step>)
    requires Linked(ws, steps) && Linked(ws', steps') && ws[|steps|] == ws'[0]
    requires Growing(ws, steps) && Growing(ws', steps')
    ensures Growing(ws + ws'[1..], steps + steps')
  {
    hide Take, Grows;
    var all, moves := ws + ws'[1..], steps + steps';
    forall i | 0 <= i < |moves| ensures Grows(all[i], moves[i]) {
      if i >= |steps| {
        var k := i - |steps|;
        assert Grows(ws'[k], steps'[k]);
        assert all[i] == ws'[k] && moves[i] == steps'[k];
      }
    }
  }

  // ---------------------------------------------------------------- cursors without gaps

  function Upto(n: nat): seq<nat> {
    seq(n, i requires 0 <= i < n => i + 1)
  }

  lemma UptoNumbers(log: seq<Event>)
    ensures Numbered(log, Upto(|log|)) && Top(Upto(|log|)) == |log|
  {
  }

  lemma UptoGrows(m: nat, n: nat)
    requires m <= n
    ensures Upto(m) <= Upto(n)
  {
  }

  /** A page that takes all that is left. */
  lemma RestPage(log: seq<Event>, from: nat) returns (events: seq<Event>)
    requires |log| < PAGE && from <= |log| && (from < |log| ==> log[|log| - 1].pair == 9)
    ensures IsPage(log, Upto(|log|), 9, from, PAGE, events, |log|) && |events| < PAGE
  {
    var n := |log|;
    UptoNumbers(log);
    events := Visible(log, Upto(n), 9, from, n);
    ShortEnough(log, Upto(n), 9, from, n);
    if from < n {
      assert Upto(n)[n - 1] == n;
    } else {
      NoneAbove(log, Upto(n), 9, from, n);
    }
  }

  // ---------------------------------------------------------------- single steps

  /** All worlds of the run: the phone of account 2, and cursors without gaps. */
  ghost predicate Scene(w: World) {
    w.account == 2 && w.pair == 9 && w.cursors == Upto(|w.core.log|) && !w.torn && w.denied == {} && w.lapsed == {}
  }

  lemma OthersGo(w: World, call: Call, now: Time, core': Core) returns (w': World)
    requires Scene(w) && w.clock <= now && Execute(w.core, call, now).0 == core'
    requires var answer := Execute(w.core, call, now).1; answer.Ok? && !answer.replayed ==> call.Keyed()
    requires call.Keyed() ==> call.who.account != 2 || (call.key !in w.fate)
    requires |w.core.log| <= |core'.log|
    ensures Scene(w') && Reaches(w, w')
    ensures w' == w.(core := core', clock := now, cursors := Upto(|core'.log|), commits := w'.commits)
  {
    hide Execute, Reaches;
    UptoNumbers(core'.log);
    UptoGrows(|w.core.log|, |core'.log|);
    var answer := Execute(w.core, call, now).1;
    w' := w.(core := core', clock := now, cursors := Upto(|core'.log|),
             commits := if answer.Ok? && !answer.replayed then w.commits + multiset{call.KeyOf()} else w.commits);
    hide Upto, Numbered;
    Goes(w, w', OtherCallsStep(call, now));
  }

  lemma Enqueues(w: World, command: Command, createdAt: Time) returns (w': World)
    requires Scene(w) && command.id !in w.fate && Mine(w, command.id) !in w.core.keys
    requires forall id :: id in w.client.outbox ==> w.client.outbox[id].createdAt < createdAt
    ensures Scene(w') && Reaches(w, w') && w'.fate.Keys == w.fate.Keys + {command.id}
    ensures w' == w.(client := w.client.(outbox := w.client.outbox[command.id := Entry(command, createdAt, 0, None)]),
                     fate := w.fate[command.id := Waiting])
  {
    hide Reaches, Upto;
    w' := w.(client := w.client.(outbox := w.client.outbox[command.id := Entry(command, createdAt, 0, None)]),
             fate := w.fate[command.id := Waiting]);
    Goes(w, w', EnqueueStep(command, createdAt));
  }

  lemma Sends(w: World, batch: seq<Command>, now: Time) returns (w': World)
    requires Scene(w) && w.phase.Idle? && w.device <= now && IsBatch(w.client.outbox, now, batch)
    ensures Scene(w') && Reaches(w, w')
    ensures w' == w.(phase := Serving(batch, []), device := now, missed := w.missed + LeftOut(w, batch))
  {
    hide Reaches, IsBatch, LeftOut, Upto;
    w' := w.(phase := Serving(batch, []), device := now, missed := w.missed + LeftOut(w, batch));
    Goes(w, w', SendStep(batch, now));
  }

  lemma Serves(w: World, call: Call, now: Time, core': Core, r: Result) returns (w': World)
    requires Scene(w) && w.phase.Serving? && |w.phase.results| < |w.phase.batch| && w.clock <= now && !Lapses(w, now)
    requires var command := w.phase.batch[|w.phase.results|];
             PlanOf(ME, command, NIL, NIL) == Perform(call) && call.Keyed() &&
             Execute(w.core, call, now).0 == core' && ResultOf(command.id, Execute(w.core, call, now).1) == Some(r)
    requires |w.core.log| <= |core'.log|
    ensures Scene(w') && Reaches(w, w')
    ensures w' == w.(core := core', clock := now, cursors := Upto(|core'.log|), commits := w'.commits,
                     phase := Serving(w.phase.batch, w.phase.results + [r]))
    ensures !Execute(w.core, call, now).1.Ok? ==> w'.commits == w.commits
  {
    hide Execute, Reaches, PlanOf, Lapses;
    UptoNumbers(core'.log);
    UptoGrows(|w.core.log|, |core'.log|);
    var answer := Execute(w.core, call, now).1;
    w' := w.(core := core', clock := now, cursors := Upto(|core'.log|),
             phase := Serving(w.phase.batch, w.phase.results + [r]),
             commits := if answer.Ok? && !answer.replayed then w.commits + multiset{call.KeyOf()} else w.commits);
    hide Upto, Numbered;
    assert Me(w) == ME;
    Goes(w, w', ServeNextStep(NIL, NIL, now));
  }

  /** The two reads. */
  lemma Reads(w: World, current: Option<FocusSession>) returns (w1: World, w': World, events: seq<Event>)
    requires Scene(w) && w.phase.Serving? && |w.phase.results| == |w.phase.batch|
    requires Execute(w.core, CCurrent(ME), w.clock) == (w.core, Current(current)) && Untorn(w.core, current)
    requires |w.core.log| < PAGE && w.client.cursor <= |w.core.log|
    requires w.client.cursor < |w.core.log| ==> w.core.log[|w.core.log| - 1].pair == 9
    ensures w1 == w.(phase := HaveCurrent(w.phase.batch, w.phase.results, current)) && Reaches(w, w1)
    ensures ReadEvents(w1, w', events, |w.core.log|) && |events| < PAGE && Scene(w') && Reaches(w, w')
    ensures w' == w.(phase := Replying(w.phase.batch, Reply(w.phase.results, events, current, |w.core.log|, false)))
  {
    hide Execute, Reaches, IsPage;
    UptoNumbers(w.core.log);
    events := RestPage(w.core.log, w.client.cursor);
    w1 := w.(phase := HaveCurrent(w.phase.batch, w.phase.results, current));
    assert Me(w) == ME && |w.cursors| == |w.core.log|;
    hide Upto, Numbered, Untorn;
    assert Transact(w, w1, CCurrent(Me(w)), w.clock);
    Goes(w, w1, ReadCurrentStep(w.clock));
    w' := w.(phase := Replying(w.phase.batch, Reply(w.phase.results, events, current, |w.core.log|, false)));
    assert ReadEvents(w1, w', events, |w.core.log|);
    hide ReadEvents;
    Goes(w1, w', ReadEventsStep(events, |w.core.log|));
    Onward(w, w1, w');
  }

  lemma Delivers(w: World) returns (w': World)
    requires Scene(w) && w.phase.Replying?
    ensures Scene(w') && Reaches(w, w') && Take(w, w', DeliverStep(w.device)) && w'.fate.Keys == w.fate.Keys
    ensures w' == w.(phase := Idle, client := Receive(w.client, w.phase.reply, w.device), fate := w'.fate)
  {
    hide Reaches, Receive, Upto, ResultFor;
    w' := w.(phase := Idle, client := Receive(w.client, w.phase.reply, w.device),
             fate := Told(w.fate, w.phase.reply.results));
    assert w'.fate.Keys == w.fate.Keys;
    hide Told;
    Goes(w, w', DeliverStep(w.device));
  }

  // ---------------------------------------------------------------- the server

  const PAUSED := Opened(9, 1, 0).(state := State.Paused, pauseOrigin := Some(Open), pausedAt := Some(0), version := 2)
  const RESUMED := Opened(9, 1, 0).(endsAt := FOCUS + 300, version := 3)
  const CANCELLED := RESUMED.(state := State.Cancelled, cancelledAt := Some(300), version := 4)

  /** The one session, the length of the log, and the keys in use. */
  ghost predicate Stage(db: Core, row: Row, n: nat, keys: set<(Uuid, Uuid)>) {
    db.pairOf == map[1 := 9, 2 := 9] && db.sessions == map[5 := row] && db.keys.Keys == keys &&
    0 < n == |db.log| && db.log[n - 1].pair == 9
  }

  lemma ThePause(db: Core) returns (db': Core)
    requires db.pairOf == map[1 := 9, 2 := 9] && db.sessions == map[5 := Opened(9, 1, 0)] && |db.log| == 2
    requires db.keys.Keys == {(1, 50)} && db.reactions == []
    ensures db' == Execute(db, PAUSE, 0).0 && Execute(db, PAUSE, 0).1.Ok? && !Execute(db, PAUSE, 0).1.replayed
    ensures Stage(db', PAUSED, 3, {(1, 50), (1, 51)}) && db'.reactions == []
  {
    db' := Execute(db, PAUSE, 0).0;
    assert db'.sessions == db.sessions[5 := PAUSED];
  }

  lemma TheFirstCheer(db: Core) returns (db': Core)
    requires Stage(db, PAUSED, 3, {(1, 50), (1, 51)}) && db.reactions == []
    ensures db' == Execute(db, FIRST_CHEER, 0).0
    ensures Execute(db, FIRST_CHEER, 0).1.Ok? && !Execute(db, FIRST_CHEER, 0).1.replayed
    ensures Stage(db', PAUSED, 4, {(1, 50), (1, 51), (2, 60)}) && db'.reactions == [Reaction(70, 5, 2, 0)]
  {
    db' := Execute(db, FIRST_CHEER, 0).0;
  }

  lemma TheResume(db: Core) returns (db': Core, answer: Response)
    requires Stage(db, PAUSED, 4, {(1, 50), (1, 51), (2, 60)})
    ensures Execute(db, CTransition(ME, 81, 5, 2, Resume), 300) == (db', Ok(answer, false))
    ensures Stage(db', RESUMED, 5, {(1, 50), (1, 51), (2, 60), (2, 81)})
    ensures db'.keys[(2, 81)] == KeyRow(OpAct(Resume), answer, 300 + KEY_WINDOW)
    ensures answer.SessionResponse? && answer.session.id == 5 && answer.session.row == RESUMED
  {
    db' := Execute(db, CTransition(ME, 81, 5, 2, Resume), 300).0;
    answer := Execute(db, CTransition(ME, 81, 5, 2, Resume), 300).1.response;
    assert db'.sessions == db.sessions[5 := RESUMED];
  }

  lemma TheCancel(db: Core) returns (db': Core)
    requires Stage(db, RESUMED, 5, {(1, 50), (1, 51), (2, 60), (2, 81)})
    ensures db' == Execute(db, CANCEL, 300).0 && Execute(db, CANCEL, 300).1.Ok? && !Execute(db, CANCEL, 300).1.replayed
    ensures Stage(db', CANCELLED, 6, {(1, 50), (1, 51), (1, 52), (2, 60), (2, 81)})
    ensures db'.keys[(2, 81)] == db.keys[(2, 81)]
  {
    db' := Execute(db, CANCEL, 300).0;
    assert db'.sessions == db.sessions[5 := CANCELLED];
  }

  lemma PausedIsCurrent(db: Core)
    requires Stage(db, PAUSED, 4, {(1, 50), (1, 51), (2, 60)})
    ensures Execute(db, CCurrent(ME), 1) == (db, Current(Some(Read(db, 5))))
  {
    assert forall id :: !IsDue(db.sessions, 9, id, 1);
    assert Sweep(db, 9, 1) == db;
    assert IsActiveOf(db.sessions, 9, 5);
  }

  lemma NothingIsCurrent(db: Core, now: Time)
    requires Stage(db, CANCELLED, 6, {(1, 50), (1, 51), (1, 52), (2, 60), (2, 81)})
    ensures Execute(db, CCurrent(ME), now) == (db, Current(None))
  {
    assert forall id :: !IsDue(db.sessions, 9, id, now);
    assert Sweep(db, 9, now) == db;
    assert forall id :: !IsActiveOf(db.sessions, 9, id);
  }

  lemma CheerTooSoon(db: Core)
    requires Stage(db, PAUSED, 4, {(1, 50), (1, 51), (2, 60)}) && db.reactions == [Reaction(70, 5, 2, 0)]
    ensures Execute(db, CCheer(ME, 80, 5, NIL), 1) == (db, Failed(Cooldown))
  {
    assert db.reactions[0].session == 5;
    assert CheeredRecently(db.reactions, 5, 2, 1);
  }

  lemma CheerTooLate(db: Core)
    requires Stage(db, CANCELLED, 6, {(1, 50), (1, 51), (1, 52), (2, 60), (2, 81)})
    ensures Execute(db, CCheer(ME, 80, 5, NIL), LATER) == (db, Failed(Conflict))
  {
  }

  lemma NoteIsRefused(db: Core, key: Uuid, now: Time)
    requires db.pairOf == map[1 := 9, 2 := 9] && 4 !in db.sessions && (2, key) !in db.keys
    ensures Execute(db, CNote(ME, key, 4, NIL, "x"), now) == (db, Failed(NotFound))
  {
  }

  // ---------------------------------------------------------------- ninety-nine notes

  function Filler(k: nat): Command {
    Command(1000 + k, NoteCommand, Some(4), None, TextBody("x"))
  }

  function Fillers(n: nat): seq<Command> {
    seq(n, k requires 0 <= k < n => Filler(k))
  }

  function Refusals(n: nat): seq<Result> {
    seq(n, k requires 0 <= k < n => Rejected(1000 + k, NotFoundCode))
  }

  /** The outbox holds the deferred cheer and the first n notes. */
  ghost predicate Queued(w: World, before: World, n: nat) {
    Scene(w) && w == before.(client := w.client, fate := w.fate) &&
    w.client == before.client.(outbox := w.client.outbox) &&
    (forall id :: id in w.client.outbox <==> id == 80 || 1000 <= id < 1000 + n) &&
    80 in before.client.outbox && w.client.outbox[80] == before.client.outbox[80] &&
    (forall k :: 0 <= k < n ==> w.client.outbox[1000 + k] == Entry(Filler(k), 10 + k, 0, None)) &&
    forall id :: id in w.fate ==> id == 80 || 1000 <= id < 1000 + n
  }

  ghost predicate Deferral(w: World) {
    Scene(w) && w.phase == Idle && w.device == 1 && w.clock == 1 && w.client.cursor == 4 && w.missed == {} &&
    w.fate.Keys == {80} && w.client.outbox == map[80 := Entry(CHEER, 1, 1, Some(1 + RETRY_DELAY))] &&
    Stage(w.core, PAUSED, 4, {(1, 50), (1, 51), (2, 60)})
  }

  lemma {:induction false} NotesAreQueued(w: World, n: nat) returns (w': World)
    requires Deferral(w) && n <= 99
    ensures Queued(w', w, n) && Reaches(w, w')
  {
    hide Reaches;
    if n == 0 {
      w' := w;
      Stays(w);
    } else {
      var before := NotesAreQueued(w, n - 1);
      hide Upto;
      w' := NextNote(w, before, n - 1);
      Onward(w, before, w');
    }
  }

  lemma NextNote(w: World, before: World, k: nat) returns (w': World)
    requires Deferral(w) && Queued(before, w, k) && k < 99
    ensures Queued(w', w, k + 1) && Reaches(before, w')
  {
    hide Reaches, Upto;
    forall id | id in before.client.outbox ensures before.client.outbox[id].createdAt < 10 + k {
      if id != 80 {
        var i := id - 1000;
        assert before.client.outbox[1000 + i] == Entry(Filler(i), 10 + i, 0, None);
      }
    }
    w' := Enqueues(before, Filler(k), 10 + k);
    forall i | 0 <= i < k + 1 ensures w'.client.outbox[1000 + i] == Entry(Filler(i), 10 + i, 0, None) {
      if i < k {
        assert before.client.outbox[1000 + i] == Entry(Filler(i), 10 + i, 0, None);
      }
    }
  }

  /** The notes, served one after the other at one moment. */
  lemma {:induction false} NotesAreRefused(w: World, batch: seq<Command>, results: seq<Result>, n: nat)
    requires Scene(w) && w.phase == Serving(batch, results) && n <= 99 && |results| + 99 <= |batch|
    requires batch[|results|..|results| + 99] == Fillers(99)
    requires w.core.pairOf == map[1 := 9, 2 := 9] && 4 !in w.core.sessions
    requires forall key :: key in w.core.keys ==> key.1 < 100
    ensures Reaches(w, w.(phase := Serving(batch, results + Refusals(n))))
  {
    hide Reaches, Upto;
    if n == 0 {
      assert results + Refusals(0) == results;
      assert w.(phase := Serving(batch, results + Refusals(0))) == w;
      Stays(w);
    } else {
      NotesAreRefused(w, batch, results, n - 1);
      var before := w.(phase := Serving(batch, results + Refusals(n - 1)));
      assert batch[|results| + (n - 1)] == Fillers(99)[n - 1] == Filler(n - 1);
      NoteIsRefused(w.core, 1000 + (n - 1), w.clock);
      hide Execute;
      var r := Rejected(1000 + (n - 1), NotFoundCode);
      var w' := Serves(before, CNote(ME, 1000 + (n - 1), 4, NIL, "x"), w.clock, w.core, r);
      assert results + Refusals(n) == results + Refusals(n - 1) + [r];
      Onward(w, before, w');
    }
  }

  // ---------------------------------------------------------------- the cheer is deferred

  /** The pair is made, the partner starts and pauses, and the account cheers from another device. */
  lemma SceneIsSet() returns (w: World)
    ensures Reaches(First(), w) && w == First().(core := w.core, cursors := w.cursors, commits := w.commits) && Scene(w)
    ensures Stage(w.core, PAUSED, 4, {(1, 50), (1, 51), (2, 60)}) && w.core.reactions == [Reaction(70, 5, 2, 0)]
  {
    var paired := Paired();
    var started := Started(paired);
    var paused := ThePause(started);
    var cheered := TheFirstCheer(paused);
    hide Execute, Reaches;
    assert Upto(0) == [];
    hide Upto;
    var w0 := First();
    var w1 := OthersGo(w0, INVITE, 0, Execute(EMPTY, INVITE, 0).0);
    var w2 := OthersGo(w1, ACCEPT, 0, paired);
    Onward(w0, w1, w2);
    var w3 := OthersGo(w2, START, 0, started);
    Onward(w0, w2, w3);
    var w4 := OthersGo(w3, PAUSE, 0, paused);
    Onward(w0, w3, w4);
    w := OthersGo(w4, FIRST_CHEER, 0, cheered);
    Onward(w0, w4, w);
  }

  lemma CheerIsSent(w: World) returns (w': World)
    requires w == First().(core := w.core, cursors := w.cursors, commits := w.commits) && Scene(w)
    requires Stage(w.core, PAUSED, 4, {(1, 50), (1, 51), (2, 60)})
    ensures Scene(w') && Reaches(w, w') && w'.fate.Keys == {80}
    ensures w' == w.(client := Client(map[], map[80 := Entry(CHEER, 1, 0, None)], 0), device := 1,
                     fate := w'.fate, phase := Serving([CHEER], []))
  {
    hide Reaches, Upto;
    var w1 := Enqueues(w, CHEER, 1);
    assert InBatch([CHEER], 80) by { assert [CHEER][0].id == 80; }
    assert LeftOut(w1, [CHEER]) == {};
    w' := Sends(w1, [CHEER], 1);
    Onward(w, w1, w');
  }

  lemma CheerWaits(client: Client, reply: Reply)
    requires client == Client(map[], map[80 := Entry(CHEER, 1, 0, None)], 0)
    requires reply.results == [Rejected(80, CooldownCode)] && reply.next == 4
    ensures var client' := Receive(client, reply, 1);
            client'.cursor == 4 && client'.outbox == map[80 := Entry(CHEER, 1, 1, Some(1 + RETRY_DELAY))]
  {
    assert ApplyResults(client, [], 1) == client;
    assert reply.results[..0] == [];
    hide Fold;
  }

  lemma CheerIsDeferred() returns (w: World)
    ensures Reaches(First(), w) && Deferral(w)
  {
    hide Reaches, Upto;
    var w1 := SceneIsSet();
    var w2 := CheerIsSent(w1);
    Onward(First(), w1, w2);
    CheerTooSoon(w2.core);
    PausedIsCurrent(w2.core);
    hide Execute, Receive, ReadEvents, Stage;
    var w3 := Serves(w2, CCheer(ME, 80, 5, NIL), 1, w2.core, Rejected(80, CooldownCode));
    Onward(First(), w2, w3);
    StageLog(w3.core, PAUSED, 4, {(1, 50), (1, 51), (2, 60)});
    var _, w4, _ := Reads(w3, Some(Read(w3.core, 5)));
    Onward(First(), w3, w4);
    w := Delivers(w4);
    Onward(First(), w4, w);
    CheerWaits(w4.client, w4.phase.reply);
  }

  lemma StageLog(db: Core, row: Row, n: nat, keys: set<(Uuid, Uuid)>)
    requires Stage(db, row, n, keys)
    ensures 0 < n == |db.log| && db.log[n - 1].pair == 9 && 5 in db.sessions && db.pairOf == map[1 := 9, 2 := 9]
    ensures db.sessions.Keys == {5} && db.sessions[5] == row && db.keys.Keys == keys
  {
  }

  // ---------------------------------------------------------------- the resume is not heard of

  /** The outbox of the example: the cheer, the notes, and the resume. */
  ghost predicate Full(outbox: Outbox, cheer: Entry) {
    (forall id :: id in outbox <==> id == 80 || id == 81 || 1000 <= id < 1099) &&
    outbox[80] == cheer && outbox[81] == Entry(RESUME, 200, 0, None) &&
    forall k :: 0 <= k < 99 ==> outbox[1000 + k] == Entry(Filler(k), 10 + k, 0, None)
  }

  const DEFERRED := Entry(CHEER, 1, 1, Some(1 + RETRY_DELAY))

  lemma FirstBatch(outbox: Outbox)
    requires Full(outbox, DEFERRED)
    ensures IsBatch(outbox, 300, Fillers(99) + [RESUME])
  {
    var batch := Fillers(99) + [RESUME];
    forall i | 0 <= i < 99
      ensures batch[i].id == 1000 + i && batch[i].id in outbox
      ensures outbox[batch[i].id] == Entry(batch[i], 10 + i, 0, None)
    {
      assert outbox[1000 + i] == Entry(Filler(i), 10 + i, 0, None);
    }
    assert batch[99] == RESUME;
    forall id | id in outbox && Eligible(outbox[id], 300) ensures InBatch(batch, id) {
      assert batch[if id == 81 then 99 else id - 1000].id == id;
    }
  }

  lemma SecondBatch(outbox: Outbox)
    requires Full(outbox, DEFERRED)
    ensures IsBatch(outbox, LATER, [CHEER] + Fillers(99)) && !InBatch([CHEER] + Fillers(99), 81)
  {
    var batch := [CHEER] + Fillers(99);
    forall i | 1 <= i < 100
      ensures batch[i].id == 999 + i && batch[i].id in outbox && outbox[batch[i].id] == Entry(batch[i], 9 + i, 0, None)
    {
      assert outbox[1000 + (i - 1)] == Entry(Filler(i - 1), 10 + (i - 1), 0, None);
    }
    assert batch[0] == CHEER;
    forall id | id in outbox && id != 81 ensures InBatch(batch, id) {
      assert batch[if id == 80 then 0 else id - 999].id == id;
    }
  }

  lemma ResumeIsSent(w: World) returns (w': World)
    requires Deferral(w)
    ensures Scene(w') && Reaches(w, w') && Full(w'.client.outbox, DEFERRED)
    ensures w' == w.(client := w.client.(outbox := w'.client.outbox), device := 300, fate := w'.fate,
                     phase := Serving(Fillers(99) + [RESUME], []))
  {
    hide Reaches, Upto, Fillers;
    var w1 := NotesAreQueued(w, 99);
    forall id | id in w1.client.outbox ensures w1.client.outbox[id].createdAt < 200 {
      if id != 80 {
        var i := id - 1000;
        assert w1.client.outbox[1000 + i] == Entry(Filler(i), 10 + i, 0, None);
      }
    }
    var w2 := Enqueues(w1, RESUME, 200);
    Onward(w, w1, w2);
    assert Full(w2.client.outbox, DEFERRED);
    FirstBatch(w2.client.outbox);
    assert LeftOut(w2, Fillers(99) + [RESUME]) == {};
    hide IsBatch, LeftOut;
    w' := Sends(w2, Fillers(99) + [RESUME], 300);
    Onward(w, w2, w');
  }

  /** The resume has committed, the phone does not know, and the partner has cancelled. */
  ghost predicate Missing(w: World, answer: Response) {
    Scene(w) && w.phase == Idle && w.device == 300 && w.clock == 300 && w.client.cursor == 4 && w.missed == {} &&
    Full(w.client.outbox, DEFERRED) && Answered(w.core, answer)
  }

  /** The server's tables from then on. */
  ghost predicate Answered(db: Core, answer: Response) {
    Stage(db, CANCELLED, 6, {(1, 50), (1, 51), (1, 52), (2, 60), (2, 81)}) &&
    db.keys[(2, 81)] == KeyRow(OpAct(Resume), answer, 300 + KEY_WINDOW) &&
    answer.SessionResponse? && answer.session.id == 5 && answer.session.row == RESUMED
  }

  lemma NotesBeforeResume(w: World) returns (w': World)
    requires Deferral(w)
    ensures Scene(w') && Reaches(w, w') && Full(w'.client.outbox, DEFERRED)
    ensures w' == w.(client := w.client.(outbox := w'.client.outbox), device := 300, fate := w'.fate, phase := w'.phase)
    ensures w'.phase.Serving? && |w'.phase.batch| == 100 && |w'.phase.results| == 99 && w'.phase.batch[99] == RESUME
  {
    hide Reaches, Upto, Full, Refusals, Stage;
    var sent := ResumeIsSent(w);
    StageLog(w.core, PAUSED, 4, {(1, 50), (1, 51), (2, 60)});
    var batch := sent.phase.batch;
    assert |Fillers(99)| == 99 && batch[0..99] == Fillers(99) && batch[99] == RESUME && |batch| == 100;
    hide Fillers;
    NotesAreRefused(sent, batch, [], 99);
    RefusalsLength(99);
    w' := sent.(phase := Serving(batch, [] + Refusals(99)));
    Onward(w, sent, w');
  }

  lemma ResumeCommits(w: World) returns (w': World, resumed: Core, answer: Response)
    requires Deferral(w)
    ensures Scene(w') && Reaches(w, w') && Full(w'.client.outbox, DEFERRED)
    ensures w' == w.(client := w.client.(outbox := w'.client.outbox), device := 300, clock := 300, fate := w'.fate,
                     core := resumed, cursors := w'.cursors, commits := w'.commits)
    ensures Stage(resumed, RESUMED, 5, {(1, 50), (1, 51), (2, 60), (2, 81)})
    ensures resumed.keys[(2, 81)] == KeyRow(OpAct(Resume), answer, 300 + KEY_WINDOW)
    ensures answer.SessionResponse? && answer.session.id == 5 && answer.session.row == RESUMED
  {
    hide Reaches, Upto, Full;
    var refused := NotesBeforeResume(w);
    resumed, answer := TheResume(w.core);
    StageLog(w.core, PAUSED, 4, {(1, 50), (1, 51), (2, 60)});
    StageLog(resumed, RESUMED, 5, {(1, 50), (1, 51), (2, 60), (2, 81)});
    hide Execute, Stage;
    var served := Serves(refused, CTransition(ME, 81, 5, 2, Resume), 300, resumed, Applied(81, answer));
    Onward(w, refused, served);
    w' := served.(phase := Idle);
    Goes(served, w', LoseStep);
    Onward(w, served, w');
  }

  lemma ResumeIsLost(w: World) returns (w': World, answer: Response)
    requires Deferral(w)
    ensures Reaches(w, w') && Missing(w', answer)
  {
    hide Reaches, Upto, Full;
    var idle, resumed;
    idle, resumed, answer := ResumeCommits(w);
    var cancelled := TheCancel(resumed);
    StageLog(resumed, RESUMED, 5, {(1, 50), (1, 51), (2, 60), (2, 81)});
    StageLog(cancelled, CANCELLED, 6, {(1, 50), (1, 51), (1, 52), (2, 60), (2, 81)});
    hide Execute, Stage;
    w' := OthersGo(idle, CANCEL, 300, cancelled);
    Onward(w, idle, w');
  }

  lemma RefusalsLength(n: nat)
    ensures |Refusals(n)| == n
  {
  }

  // ---------------------------------------------------------------- the resume is left out

  /** What the phone keeps of its outbox after the refusals. */
  lemma ResumeIsLeft(client: Client, reply: Reply, now: Time)
    requires Full(client.outbox, DEFERRED) && reply.results == [Rejected(80, ConflictCode)] + Refusals(99)
    requires reply.next == 6
    ensures var client' := Receive(client, reply, now);
            client'.cursor == 6 && client'.outbox == map[81 := Entry(RESUME, 200, 0, None)]
  {
    var results := reply.results;
    var after := ApplyResults(client, results, now).outbox;
    forall id ensures id in after <==> id == 81
      ensures id == 81 ==> id in after && after[id] == client.outbox[id]
    {
      ResultsSettle(client, results, now, id);
      if id == 80 || 1000 <= id < 1099 {
        assert results[if id == 80 then 0 else id - 999].id == id;
        assert ResultFor(results, id).Some?;
      }
    }
    assert after == map[81 := client.outbox[81]];
  }

  lemma OthersAreSent(w: World, answer: Response) returns (w': World)
    requires Missing(w, answer)
    ensures Scene(w') && Reaches(w, w')
    ensures w' == w.(device := LATER, phase := Serving([CHEER] + Fillers(99), []), missed := {81})
  {
    hide Reaches, Upto, Fillers;
    SecondBatch(w.client.outbox);
    assert LeftOut(w, [CHEER] + Fillers(99)) == {81};
    hide IsBatch, LeftOut, Full;
    w' := Sends(w, [CHEER] + Fillers(99), LATER);
  }

  lemma OthersAreRefused(w: World, answer: Response) returns (w': World)
    requires Missing(w, answer)
    ensures Scene(w') && Reaches(w, w')
    ensures w' == w.(device := LATER, clock := LATER, missed := {81}, commits := w'.commits,
                     phase := Serving([CHEER] + Fillers(99), [Rejected(80, ConflictCode)] + Refusals(99)))
    ensures |w'.phase.batch| == |w'.phase.results|
  {
    hide Reaches, Upto, Full, Refusals;
    var sent := OthersAreSent(w, answer);
    var batch := sent.phase.batch;
    assert |Fillers(99)| == 99 && batch[1..100] == Fillers(99) && batch[0] == CHEER && |batch| == 100;
    hide Fillers;
    CheerTooLate(w.core);
    StageLog(w.core, CANCELLED, 6, {(1, 50), (1, 51), (1, 52), (2, 60), (2, 81)});
    hide Stage, Execute;
    var served := Serves(sent, CCheer(ME, 80, 5, NIL), LATER, w.core, Rejected(80, ConflictCode));
    Onward(w, sent, served);
    var results := [Rejected(80, ConflictCode)];
    assert served.phase == Serving(batch, results);
    NotesAreRefused(served, batch, results, 99);
    RefusalsLength(99);
    w' := served.(phase := Serving(batch, results + Refusals(99)));
    Onward(w, served, w');
  }

  /** The phone's state before the retry: the cursor has passed the session, and the resume waits. */
  ghost predicate Poised(w: World, answer: Response) {
    Scene(w) && w.clock == LATER && w.device == LATER && w.phase == Idle && w.missed == {81} && w.client.cursor == 6 &&
    w.client.outbox == map[81 := Entry(RESUME, 200, 0, None)] && Answered(w.core, answer)
  }

  /** The reply takes the cursor past everything, and only the resume is left in the outbox. */
  lemma CursorPasses(w: World, answer: Response) returns (w': World)
    requires Missing(w, answer)
    ensures Reaches(w, w') && Poised(w', answer)
  {
    hide Reaches, Upto, Full, Refusals, Fillers, Receive, ReadEvents;
    var served := OthersAreRefused(w, answer);
    NothingIsCurrent(w.core, LATER);
    StageLog(w.core, CANCELLED, 6, {(1, 50), (1, 51), (1, 52), (2, 60), (2, 81)});
    hide Stage, Execute;
    var _, replying, _ := Reads(served, None);
    Onward(w, served, replying);
    w' := Delivers(replying);
    Onward(w, replying, w');
    ResumeIsLeft(w.client, replying.phase.reply, LATER);
  }

  // ---------------------------------------------------------------- the retry

  lemma ResumeIsAnswered(db: Core, answer: Response)
    requires Answered(db, answer)
    ensures Execute(db, CTransition(ME, 81, 5, 2, Resume), LATER) == (db, Ok(answer, true))
  {
    var call := CTransition(ME, 81, 5, 2, Resume);
    UsedKeyChangesNothing(db, call, LATER);
    RetryFindsKey(db, call, call, db.keys[(2, 81)], 300, LATER);
  }

  /** The retry is sent and answered from storage. */
  lemma RetryIsSent(w: World, answer: Response) returns (w': World)
    requires Poised(w, answer)
    ensures Scene(w') && Reaches(w, w')
    ensures w' == w.(phase := Serving([RESUME], [Applied(81, answer)]), commits := w'.commits)
  {
    ResumeIsAnswered(w.core, answer);
    hide Execute, Reaches, Upto;
    assert InBatch([RESUME], 81) by { assert [RESUME][0].id == 81; }
    assert LeftOut(w, [RESUME]) == {} && IsBatch(w.client.outbox, LATER, [RESUME]);
    hide IsBatch, LeftOut;
    var sent := Sends(w, [RESUME], LATER);
    assert sent == w.(phase := Serving([RESUME], []));
    assert [] + [Applied(81, answer)] == [Applied(81, answer)];
    w' := Serves(sent, CTransition(ME, 81, 5, 2, Resume), LATER, w.core, Applied(81, answer));
    Onward(w, sent, w');
  }

  /** The retry, up to its reply. */
  lemma RetryIsServed(w: World, answer: Response) returns (w1: World, w2: World, events: seq<Event>)
    requires Poised(w, answer)
    ensures Reaches(w, w1) && ReadEvents(w1, w2, events, 6) && Reaches(w, w2) && |events| < PAGE && Scene(w2)
    ensures w2 == w.(phase := Replying([RESUME], Reply([Applied(81, answer)], events, None, 6, false)),
                     commits := w2.commits)
  {
    var served := RetryIsSent(w, answer);
    NothingIsCurrent(w.core, LATER);
    StageLog(w.core, CANCELLED, 6, {(1, 50), (1, 51), (1, 52), (2, 60), (2, 81)});
    hide Execute, Reaches, ReadEvents, Stage, Upto;
    w1, w2, events := Reads(served, None);
    Onward(w, served, w1);
    Onward(w, served, w2);
  }

  lemma NonePast(w: World, id: Uuid, cursor: nat)
    requires Scene(w) && cursor == |w.core.log|
    ensures !IsPast(w, id, cursor)
  {
  }

  lemma AnswerIsStale(w: World, answer: Response, events: seq<Event>)
    requires Scene(w) && w.missed == {81} && w.client.cursor == 6 && Answered(w.core, answer)
    requires w.phase == Replying([RESUME], Reply([Applied(81, answer)], events, None, 6, false))
    requires InPair(w, 5)
    ensures StaleFor(w, 5)
  {
    NonePast(w, 5, 6);
    hide IsPast;
    assert Carrier(w.phase.reply.results, 5) == Some(Applied(81, answer));
  }

  /** A delivered last page that is stale for the session leaves it wrong. */
  lemma StaleStays(w1: World, w2: World, w3: World, events: seq<Event>, now: Time)
    requires Good(w1) && Good(w2) && ReadEvents(w1, w2, events, 6) && |events| < PAGE && Deliver(w2, w3, now)
    requires InPair(w2, 5) && StaleFor(w2, 5)
    ensures !Converged(w3)
  {
    assert InPair(w3, 5);
    hide Good, ReadEvents, Deliver, StaleFor, IsFresh, Agrees, InPair;
    DeliveryDecides(w2, w3, now, 5);
    LastPageShows(w1, w2, w2, w3, events, 6, now, 5);
    NotConverged(w3, 5);
  }

  lemma ReachesGood(w: World)
    requires Reaches(First(), w)
    ensures Good(w)
  {
    var ws, steps :| Linked(ws, steps) && Growing(ws, steps) && ws[0] == First() && ws[|steps|] == w;
    hide Take, Good, Grows;
    RunGood(ws, steps, |steps|);
  }

  /** A reachable state and one step more, as a run. */
  lemma LastStep(w: World, w': World, step: Step) returns (ws: seq<World>, steps: seq<Step>)
    requires Reaches(First(), w) && Take(w, w', step) && !step.EnqueueStep?
    ensures Run(ws, steps) && Growing(ws, steps) && |steps| > 0 && ws[|steps| - 1] == w && ws[|steps|] == w'
    ensures steps[|steps| - 1] == step
  {
    var before, moves :| Linked(before, moves) && Growing(before, moves) &&
                         before[0] == First() && before[|moves|] == w;
    ws, steps := before + [w'], moves + [step];
    assert Grows(w, step);
    hide Take, Grows;
    forall i | 0 <= i < |steps| ensures Take(ws[i], ws[i + 1], steps[i]) && Grows(ws[i], steps[i]) {
      if i < |moves| {
        assert Take(before[i], before[i + 1], moves[i]) && Grows(before[i], moves[i]);
      }
    }
  }

  /** The delivery of the retried answer puts the session back to where it was, with nothing left to replay. */
  lemma RetrySpoils(w: World, answer: Response) returns (w2: World, w3: World)
    requires Poised(w, answer) && Reaches(First(), w)
    ensures Reaches(First(), w2) && Take(w2, w3, DeliverStep(LATER)) && !Converged(w3)
    ensures w2.phase.Replying? && !w2.phase.reply.hasMore && !w2.torn && w2.missed == {81}
  {
    hide Reaches, Upto, Good, ReadEvents, Receive, Told, StaleFor, Converged, Stage;
    var w1, events;
    w1, w2, events := RetryIsServed(w, answer);
    Onward(First(), w, w1);
    Onward(First(), w, w2);
    ReachesGood(w1);
    ReachesGood(w2);
    w3 := Delivers(w2);
    assert InPair(w2, 5) by { StageLog(w2.core, CANCELLED, 6, {(1, 50), (1, 51), (1, 52), (2, 60), (2, 81)}); }
    AnswerIsStale(w2, answer, events);
    StaleStays(w1, w2, w3, events, LATER);
  }

  /**
   A run in which creation times grow, and whose last step delivers a last page that was not torn, and yet
   phone and server differ: a batch left out a command that had committed.
   */
  lemma StaleRetryHappens() returns (ws: seq<World>, steps: seq<Step>)
    ensures Run(ws, steps) && Growing(ws, steps) && |steps| > 0
    ensures steps[|steps| - 1].DeliverStep? && !Converged(ws[|steps|])
    ensures var w := ws[|steps| - 1]; w.phase.Replying? && !w.phase.reply.hasMore && !w.torn && w.missed == {81}
  {
    hide Poised, Missing, Deferral, Take, Converged, Reaches, Run, Growing;
    var w1 := CheerIsDeferred();
    var w2, answer := ResumeIsLost(w1);
    Onward(First(), w1, w2);
    var w3 := CursorPasses(w2, answer);
    Onward(First(), w2, w3);
    var w4, w5 := RetrySpoils(w3, answer);
    ws, steps := LastStep(w4, w5, DeliverStep(LATER));
  }
}
