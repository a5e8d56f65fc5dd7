/** Theorems over whole runs of the server: any calls, by anyone, at non-decreasing times. */
module StoreRuns {
  import opened Domain
  import opened Timeline
  import opened Tables
  import opened Reducer
  import opened StoreInvariant

  datatype Timed = Timed(call: Call, at: Time)

  ghost predicate InOrder(calls: seq<Timed>) {
    forall i, j :: 0 <= i <= j < |calls| ==> calls[i].at <= calls[j].at
  }

  /** The tables after a run that starts from nothing. */
  ghost function After(calls: seq<Timed>): Core {
    if |calls| == 0 then EMPTY
    else Execute(After(calls[..|calls| - 1]), calls[|calls| - 1].call, calls[|calls| - 1].at).0
  }

  /** What the i-th call of a run answered. */
  ghost function Answer(calls: seq<Timed>, i: nat): Outcome
    requires i < |calls|
  {
    Execute(After(calls[..i]), calls[i].call, calls[i].at).1
  }

  ghost predicate Committed(calls: seq<Timed>, i: nat)
    requires i < |calls|
  {
    calls[i].call.Keyed() && Answer(calls, i).Ok? && !Answer(calls, i).replayed
  }

  ghost function Clock(calls: seq<Timed>): Time {
    if |calls| == 0 then 0 else calls[|calls| - 1].at
  }

  lemma AfterNext(calls: seq<Timed>, i: nat)
    requires i < |calls|
    ensures After(calls[..i + 1]) == Execute(After(calls[..i]), calls[i].call, calls[i].at).0
  {
    assert calls[..i + 1][..i] == calls[..i];
  }

  /** The invariant holds in every reachable state. */
  lemma {:induction false} Reachable(calls: seq<Timed>)
    requires InOrder(calls)
    ensures Inv(After(calls), Clock(calls))
  {
    hide Inv, Execute;
    if |calls| == 0 {
      EmptyInv(0);
    } else {
      var n := |calls| - 1;
      Reachable(calls[..n]);
      if n == 0 {
        assert calls[..n] == [];
        EmptyInv(calls[0].at);
        ExecuteKeepsInv(EMPTY, calls[0].at, calls[0].call, calls[0].at);
      } else {
        ExecuteKeepsInv(After(calls[..n]), Clock(calls[..n]), calls[n].call, calls[n].at);
      }
    }
  }

  // ---------------------------------------------------------------- sessions in every reachable state

  /** Replaying a pair's whole log gives exactly its sessions, participants and notes. */
  lemma JournalReplays(calls: seq<Timed>, pair: Uuid)
    requires InOrder(calls)
    ensures Fold(map[], Feed(After(calls).log, pair)) == Project(After(calls), pair)
  {
    Reachable(calls);
  }

  /** The k-th snapshot of a session carries version k, and the last one is the stored row. */
  lemma JournalVersions(calls: seq<Timed>, id: Uuid, k: nat)
    requires InOrder(calls) && id in After(calls).sessions
    ensures var h := History(After(calls).log, id);
            |h| == After(calls).sessions[id].version &&
            (k < |h| ==> h[k].session.row.version == k + 1 && WellFormed(h[k].session))
  {
    Reachable(calls);
    var h := History(After(calls).log, id);
    ChainShape(h);
    if k < |h| { VersionsCount(h, k); }
  }

  /** The participants of a session are its starter, or exactly the two members of the pair. */
  lemma SessionShape(calls: seq<Timed>, id: Uuid)
    requires InOrder(calls) && id in After(calls).sessions
    ensures var db := After(calls); var fs := Read(db, id);
            WellFormed(fs) &&
            (Effective(fs.row).Together? ==>
               forall account :: IsMember(db, fs.row.pair, account) <==> HasMember(fs.members, account))
  {
    Reachable(calls);
    var db, fs := After(calls), Read(After(calls), id);
    ChainShape(History(db.log, id));
    if Effective(fs.row).Together? {
      var a, b := fs.members[0].account, fs.members[1].account;
      assert IsMember(db, fs.row.pair, a) && IsMember(db, fs.row.pair, b);
      assert HasPartner(db.pairOf, a);
      var y :| y in db.pairOf && y != a && db.pairOf[y] == db.pairOf[a] &&
               forall z :: z in db.pairOf && db.pairOf[z] == db.pairOf[a] ==> z == a || z == y;
      assert y == b;
    }
  }

  lemma AtMostOneActive(calls: seq<Timed>, pair: Uuid, a: Uuid, b: Uuid)
    requires InOrder(calls)
    requires IsActiveOf(After(calls).sessions, pair, a) && IsActiveOf(After(calls).sessions, pair, b)
    ensures a == b
  {
    Reachable(calls);
  }

  /**
   The timer of every server-started session: its end is its start, plus 25 minutes, plus all resumed
   pauses; and while it is active, time left plus time run is 25 minutes.
   */
  lemma TimerInEveryRun(calls: seq<Timed>, id: Uuid, now: Time)
    requires InOrder(calls) && id in After(calls).sessions && !After(calls).sessions[id].offlineOrigin
    ensures var row := After(calls).sessions[id]; var h := History(After(calls).log, id);
            row.endsAt == row.startedAt + FOCUS + ResumedPauses(h) &&
            (row.state.Active() ==> |h| > 0 && RawRemaining(row, now) + RunningTime(h, now) == FOCUS)
  {
    Reachable(calls);
    var h := History(After(calls).log, id);
    ChainShape(h);
    EndMovesByPauses(h);
    if After(calls).sessions[id].state.Active() {
      TimerConserved(h, now);
    }
  }

  // ---------------------------------------------------------------- the log only grows

  lemma LogGrows(db: Core, call: Call, now: Time)
    ensures db.log <= Execute(db, call, now).0.log
  {
  }

  lemma {:induction false} RunLogGrows(calls: seq<Timed>, i: nat)
    requires i <= |calls|
    ensures After(calls[..i]).log <= After(calls).log
  {
    hide Execute;
    if i == |calls| {
      assert calls[..i] == calls;
    } else {
      var n := |calls| - 1;
      RunLogGrows(calls[..n], i);
      assert calls[..n][..i] == calls[..i];
      LogGrows(After(calls[..n]), calls[n].call, calls[n].at);
    }
  }

  lemma {:induction false} HistoryGrows(log: seq<Event>, log': seq<Event>, id: Uuid)
    requires log <= log'
    ensures History(log, id) <= History(log', id)
  {
    if |log| < |log'| {
      HistoryGrows(log, log'[..|log'| - 1], id);
    } else {
      assert log == log';
    }
  }

  lemma {:induction false} ChainLinks(h: seq<Stamp>, k: nat)
    requires Chain(h) && k + 1 < |h|
    ensures Follows(h[k], h[k + 1])
  {
    ChainPrefix(h, k + 2);
  }

  /** A history that has ended is not continued. */
  lemma EndedHistory(h: seq<Stamp>, h': seq<Stamp>)
    requires 0 < |h| && h <= h' && Chain(h') && !Last(h).session.row.state.Active()
    ensures h == h'
  {
    if |h| < |h'| {
      ChainLinks(h', |h| - 1);
      TerminalHasNoSuccessor(h'[|h| - 1], h'[|h|]);
      assert false;
    }
  }

  /** The stored row is the last snapshot, and its version counts the snapshots. */
  lemma StoredRow(calls: seq<Timed>, id: Uuid)
    requires InOrder(calls)
    ensures var db := After(calls); var h := History(db.log, id);
            if id in db.sessions
            then Chain(h) && SameRow(Last(h).session, Read(db, id)) && db.sessions[id].version == |h|
            else h == []
  {
    Reachable(calls);
    if id in After(calls).sessions {
      ChainShape(History(After(calls).log, id));
    }
  }

  lemma RunHistoryGrows(calls: seq<Timed>, i: nat, j: nat, id: Uuid)
    requires i <= j <= |calls|
    ensures History(After(calls[..i]).log, id) <= History(After(calls[..j]).log, id)
  {
    assert calls[..j][..i] == calls[..i];
    RunLogGrows(calls[..j], i);
    HistoryGrows(After(calls[..i]).log, After(calls[..j]).log, id);
  }

  /** A terminal row and its participants never change again, whatever happens. */
  lemma TerminalForever(calls: seq<Timed>, i: nat, j: nat, id: Uuid)
    requires InOrder(calls) && i <= j <= |calls|
    requires id in After(calls[..i]).sessions && !After(calls[..i]).sessions[id].state.Active()
    ensures id in After(calls[..j]).sessions
    ensures SameRow(Read(After(calls[..j]), id), Read(After(calls[..i]), id))
  {
    hide After, Chain;
    StoredRow(calls[..i], id);
    StoredRow(calls[..j], id);
    RunHistoryGrows(calls, i, j, id);
    EndedHistory(History(After(calls[..i]).log, id), History(After(calls[..j]).log, id));
  }

  lemma VersionsOnlyGrow(calls: seq<Timed>, i: nat, j: nat, id: Uuid)
    requires InOrder(calls) && i <= j <= |calls| && id in After(calls[..i]).sessions
    ensures id in After(calls[..j]).sessions
    ensures After(calls[..i]).sessions[id].version <= After(calls[..j]).sessions[id].version
  {
    hide After, Chain;
    StoredRow(calls[..i], id);
    StoredRow(calls[..j], id);
    RunHistoryGrows(calls, i, j, id);
  }

  lemma TransitionMovesVersion(db: Core, who: Identity, key: Uuid, sid: Uuid, expected: int, action: Action, now: Time)
    requires var answer := Transition(db, who, key, sid, expected, action, now).1; answer.Ok? && !answer.replayed
    ensures sid in db.sessions && db.sessions[sid].version == expected
    ensures var db' := Transition(db, who, key, sid, expected, action, now).0;
            sid in db'.sessions && db'.sessions[sid].version == expected + 1
  {
  }

  /** Of all commands on a session with the same expected version, by either partner, at most one succeeds. */
  lemma NoLostUpdate(calls: seq<Timed>, i: nat, j: nat)
    requires InOrder(calls) && i < |calls| && j < |calls|
    requires Committed(calls, i) && Committed(calls, j)
    requires calls[i].call.CTransition? && calls[j].call.CTransition?
    requires calls[i].call.sid == calls[j].call.sid && calls[i].call.expected == calls[j].call.expected
    ensures i == j
  {
    if i != j {
      var a, b := if i < j then i else j, if i < j then j else i;
      var c, d := calls[a].call, calls[b].call;
      TransitionMovesVersion(After(calls[..a]), c.who, c.key, c.sid, c.expected, c.action, calls[a].at);
      TransitionMovesVersion(After(calls[..b]), d.who, d.key, d.sid, d.expected, d.action, calls[b].at);
      AfterNext(calls, a);
      VersionsOnlyGrow(calls, a + 1, b, c.sid);
      assert false;
    }
  }

  // ---------------------------------------------------------------- idempotency keys

  /** A call with a key that has ever been used changes nothing at all, expired or not. */
  lemma UsedKeyChangesNothing(db: Core, call: Call, now: Time)
    requires call.Keyed() && call.KeyOf() in db.keys
    ensures Execute(db, call, now).0 == db
  {
  }

  /** What a keyed transaction does to the keys: it stores one exactly when it commits. */
  predicate Saves(db: Core, after: (Core, Outcome), call: Call, now: Time)
    requires call.Keyed()
  {
    if after.1.Ok? && !after.1.replayed
    then call.KeyOf() !in db.keys &&
         after.0.keys == db.keys[call.KeyOf() := KeyRow(call.OpOf(), after.1.response, now + KEY_WINDOW)]
    else after.0.keys == db.keys
  }

  lemma StartSaves(db: Core, who: Identity, key: Uuid, sid: Uuid, now: Time)
    ensures Saves(db, Start(db, who, key, sid, now), CStart(who, key, sid), now)
  {
  }

  lemma ImportSaves(db: Core, who: Identity, key: Uuid, sid: Uuid, startedAt: Time, completedAt: Time, now: Time)
    ensures Saves(db, Import(db, who, key, sid, startedAt, completedAt, now),
                  CImport(who, key, sid, startedAt, completedAt), now)
  {
  }

  lemma TransitionSaves(db: Core, who: Identity, key: Uuid, sid: Uuid, expected: int, action: Action, now: Time)
    ensures Saves(db, Transition(db, who, key, sid, expected, action, now),
                  CTransition(who, key, sid, expected, action), now)
  {
  }

  lemma AddNoteSaves(db: Core, who: Identity, key: Uuid, sid: Uuid, freshId: Uuid, body: string, now: Time)
    ensures Saves(db, AddNote(db, who, key, sid, freshId, body, now), CNote(who, key, sid, freshId, body), now)
  {
  }

  lemma AddCheerSaves(db: Core, who: Identity, key: Uuid, sid: Uuid, freshId: Uuid, now: Time)
    ensures Saves(db, AddCheer(db, who, key, sid, freshId, now), CCheer(who, key, sid, freshId), now)
  {
  }

  /** Exactly the calls that commit store a key, and they store what they answer. */
  lemma CommitsStoreKeys(db: Core, call: Call, now: Time)
    ensures var (db', answer) := Execute(db, call, now);
            if answer.Ok? && !answer.replayed
            then call.Keyed() && call.KeyOf() !in db.keys &&
                 db'.keys == db.keys[call.KeyOf() := KeyRow(call.OpOf(), answer.response, now + KEY_WINDOW)]
            else db'.keys == db.keys
  {
    hide Start, Import, Transition, AddNote, AddCheer;
    match call
    case CStart(who, key, sid) => StartSaves(db, who, key, sid, now);
    case CImport(who, key, sid, startedAt, completedAt) => ImportSaves(db, who, key, sid, startedAt, completedAt, now);
    case CTransition(who, key, sid, expected, action) => TransitionSaves(db, who, key, sid, expected, action, now);
    case CNote(who, key, sid, freshId, body) => AddNoteSaves(db, who, key, sid, freshId, body, now);
    case CCheer(who, key, sid, freshId) => AddCheerSaves(db, who, key, sid, freshId, now);
    case _ =>
  }

  /** A keyed call that does not commit changes nothing. */
  lemma OnlyCommitsChange(db: Core, call: Call, now: Time)
    requires call.Keyed() && var answer := Execute(db, call, now).1; !answer.Ok? || answer.replayed
    ensures Execute(db, call, now).0 == db
  {
  }

  lemma {:induction false} KeysStay(calls: seq<Timed>, i: nat, key: (Uuid, Uuid))
    requires i <= |calls| && key in After(calls[..i]).keys
    ensures key in After(calls).keys && After(calls).keys[key] == After(calls[..i]).keys[key]
  {
    hide Execute;
    if i == |calls| {
      assert calls[..i] == calls;
    } else {
      var n := |calls| - 1;
      assert calls[..n][..i] == calls[..i];
      KeysStay(calls[..n], i, key);
      CommitsStoreKeys(After(calls[..n]), calls[n].call, calls[n].at);
    }
  }

  /** A key is in the table exactly when some call with it has committed. */
  lemma {:induction false} KeysAreCommits(calls: seq<Timed>, key: (Uuid, Uuid))
    ensures key in After(calls).keys <==>
            exists i :: 0 <= i < |calls| && Committed(calls, i) && calls[i].call.KeyOf() == key
  {
    if |calls| > 0 {
      var n := |calls| - 1;
      KeysAreCommits(calls[..n], key);
      CommitsStoreKeys(After(calls[..n]), calls[n].call, calls[n].at);
      hide Execute;
      forall i | 0 <= i < n ensures Committed(calls, i) == Committed(calls[..n], i) {
        assert calls[..n][..i] == calls[..i];
      }
      if key in After(calls[..n]).keys {
        var i :| 0 <= i < n && Committed(calls[..n], i) && calls[..n][i].call.KeyOf() == key;
        assert Committed(calls, i) && calls[i].call.KeyOf() == key;
      } else if key in After(calls).keys {
        assert Committed(calls, n) && calls[n].call.KeyOf() == key;
      } else {
        forall i | 0 <= i < |calls| && Committed(calls, i) ensures calls[i].call.KeyOf() != key {
          if i < n { assert Committed(calls[..n], i) && calls[..n][i].call.KeyOf() == calls[i].call.KeyOf(); }
        }
      }
    }
  }

  /** A key commits at most once, for ever. */
  lemma OneCommitPerKey(calls: seq<Timed>, i: nat, j: nat)
    requires i < |calls| && j < |calls| && Committed(calls, i) && Committed(calls, j)
    requires calls[i].call.KeyOf() == calls[j].call.KeyOf()
    ensures i == j
  {
    if i != j {
      var a, b := if i < j then i else j, if i < j then j else i;
      CommitsStoreKeys(After(calls[..a]), calls[a].call, calls[a].at);
      AfterNext(calls, a);
      assert calls[..b][..a + 1] == calls[..a + 1];
      KeysStay(calls[..b], a + 1, calls[a].call.KeyOf());
      CommitsStoreKeys(After(calls[..b]), calls[b].call, calls[b].at);
      assert false;
    }
  }

  /** The i-th call repeats a key that has committed before it. */
  ghost predicate Repeats(calls: seq<Timed>, i: nat)
    requires i < |calls|
  {
    calls[i].call.Keyed() &&
    exists j :: 0 <= j < i && Committed(calls, j) && calls[j].call.KeyOf() == calls[i].call.KeyOf()
  }

  /** The run without the calls at the places in `drop`. */
  ghost function Erase(calls: seq<Timed>, drop: set<nat>): seq<Timed> {
    if |calls| == 0 then []
    else Erase(calls[..|calls| - 1], drop) + (if |calls| - 1 in drop then [] else [calls[|calls| - 1]])
  }

  lemma RepeatsInPrefix(calls: seq<Timed>, n: nat, i: nat)
    requires i < n <= |calls| && Repeats(calls, i)
    ensures Repeats(calls[..n], i)
  {
    var j :| 0 <= j < i && Committed(calls, j) && calls[j].call.KeyOf() == calls[i].call.KeyOf();
    assert calls[..n][..j] == calls[..j];
    assert Committed(calls[..n], j);
  }

  lemma RepeatChangesNothing(calls: seq<Timed>)
    requires |calls| > 0 && Repeats(calls, |calls| - 1)
    ensures After(calls) == After(calls[..|calls| - 1])
  {
    hide Execute;
    var n := |calls| - 1;
    var j :| 0 <= j < n && Committed(calls, j) && calls[j].call.KeyOf() == calls[n].call.KeyOf();
    assert calls[..n][..j] == calls[..j];
    assert Committed(calls[..n], j) && calls[..n][j].call.KeyOf() == calls[n].call.KeyOf();
    KeysAreCommits(calls[..n], calls[n].call.KeyOf());
    UsedKeyChangesNothing(After(calls[..n]), calls[n].call, calls[n].at);
  }

  /** Deleting any repeated calls from a run, whatever they ask, leaves every table and the log as they are. */
  lemma {:induction false} RetryErasure(calls: seq<Timed>, drop: set<nat>)
    requires forall i :: i in drop && i < |calls| ==> Repeats(calls, i)
    ensures After(Erase(calls, drop)) == After(calls)
  {
    hide Execute, Repeats;
    if |calls| > 0 {
      var n := |calls| - 1;
      forall i | i in drop && i < n ensures Repeats(calls[..n], i) {
        RepeatsInPrefix(calls, n, i);
      }
      RetryErasure(calls[..n], drop);
      var kept := Erase(calls[..n], drop);
      if n in drop {
        RepeatChangesNothing(calls);
        assert Erase(calls, drop) == kept;
      } else {
        assert Erase(calls, drop) == kept + [calls[n]];
        assert (kept + [calls[n]])[..|kept|] == kept;
      }
    }
  }

  /** The same request, sent again: only the identifiers the server draws for a new row may differ. */
  predicate SameRequest(a: Call, b: Call) {
    match (a, b)
    case (CStart(who, key, _), CStart(who', key', _)) => who == who' && key == key'
    case (CImport(_, _, _, _, _), CImport(_, _, _, _, _)) => a == b
    case (CTransition(_, _, _, _, _), CTransition(_, _, _, _, _)) => a == b
    case (CNote(who, key, sid, _, body), CNote(who', key', sid', _, body')) =>
      who == who' && key == key' && sid == sid' && body == body'
    case (CCheer(who, key, sid, _), CCheer(who', key', sid', _)) => who == who' && key == key' && sid == sid'
    case _ => false
  }

  lemma RetryFindsKey(db: Core, call: Call, retry: Call, row: KeyRow, at: Time, later: Time)
    requires SameRequest(call, retry) && call.KeyOf() in db.keys && db.keys[call.KeyOf()] == row
    requires row.op == call.OpOf() && call.who.pair.Some? && at <= later
    requires call.CImport? ==> Importable(call.startedAt, call.completedAt, at)
    ensures later < row.expiresAt ==> Execute(db, retry, later).1 == Ok(row.response, true)
    ensures later >= row.expiresAt ==> Execute(db, retry, later).1.Failed?
  {
  }

  lemma CommitChecks(db: Core, call: Call, now: Time)
    requires var answer := Execute(db, call, now).1; answer.Ok? && !answer.replayed
    ensures call.Keyed() && call.who.pair.Some?
    ensures call.CImport? ==> Importable(call.startedAt, call.completedAt, now)
  {
  }

  /** A retry of a committed request answers the stored response if and only if the key has not expired. */
  lemma RetryAnswersStored(calls: seq<Timed>, i: nat, j: nat)
    requires InOrder(calls) && i < j < |calls| && Committed(calls, i)
    requires SameRequest(calls[i].call, calls[j].call)
    ensures calls[j].at < calls[i].at + KEY_WINDOW <==> Answer(calls, j).Ok?
    ensures Answer(calls, j).Ok? ==> Answer(calls, j) == Ok(Answer(calls, i).response, true)
  {
    var call := calls[i].call;
    CommitsStoreKeys(After(calls[..i]), call, calls[i].at);
    CommitChecks(After(calls[..i]), call, calls[i].at);
    AfterNext(calls, i);
    assert calls[..j][..i + 1] == calls[..i + 1];
    KeysStay(calls[..j], i + 1, call.KeyOf());
    RetryFindsKey(After(calls[..j]), call, calls[j].call, After(calls[..j]).keys[call.KeyOf()], calls[i].at,
                  calls[j].at);
  }

  /** Reusing a key under another operation is answered with a failure, before and after it expires. */
  lemma OtherOperationFails(db: Core, call: Call, now: Time)
    requires call.Keyed() && call.KeyOf() in db.keys && db.keys[call.KeyOf()].op != call.OpOf()
    ensures Execute(db, call, now).1.Failed? && Execute(db, call, now).0 == db
  {
  }
}
