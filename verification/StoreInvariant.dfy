/** What holds in every reachable state of the server's tables, and why every transaction keeps it. */
module StoreInvariant {
  import opened Domain
  import opened Timeline
  import opened Tables
  import opened Reducer

  /** The snapshots of one session in the log, with the times they were taken at. */
  ghost function History(log: seq<Event>, id: Uuid): seq<Stamp> {
    if |log| == 0 then []
    else
      var e := log[|log| - 1];
      var h := History(log[..|log| - 1], id);
      if Snapshots(e, id) then h + [Stamp(e.payload.session, e.at)] else h
  }

  /** The events of one pair, in log order. */
  ghost function Feed(log: seq<Event>, pair: Uuid): seq<Event> {
    if |log| == 0 then []
    else
      var e := log[|log| - 1];
      Feed(log[..|log| - 1], pair) + (if e.pair == pair then [e] else [])
  }

  /** The sessions of one pair as the tables hold them. */
  ghost function Project(db: Core, pair: Uuid): Local {
    map id | id in db.sessions && db.sessions[id].pair == pair :: Read(db, id)
  }

  /** Every pair has exactly two members, and an account belongs to at most one pair. */
  ghost predicate HasPartner(pairOf: map<Uuid, Uuid>, x: Uuid)
    requires x in pairOf
  {
    exists y :: y in pairOf && y != x && pairOf[y] == pairOf[x] &&
      forall z :: z in pairOf && pairOf[z] == pairOf[x] ==> z == x || z == y
  }

  ghost predicate PairsOfTwo(pairOf: map<Uuid, Uuid>) {
    forall x :: x in pairOf ==> HasPartner(pairOf, x)
  }

  ghost predicate TablesAgree(db: Core) {
    db.sessions.Keys == db.members.Keys && db.sessions.Keys == db.notes.Keys
  }

  /** Each session's history is legal and ends in the stored row; nothing else has a history. */
  ghost predicate HistoriesLegal(db: Core) {
    (forall id :: id in db.sessions ==>
       Chain(History(db.log, id)) && SameRow(Last(History(db.log, id)).session, Read(db, id))) &&
    (forall id :: id !in db.sessions ==> History(db.log, id) == [])
  }

  ghost predicate OneActive(db: Core) {
    forall pair, a, b :: IsActiveOf(db.sessions, pair, a) && IsActiveOf(db.sessions, pair, b) ==> a == b
  }

  /** Folding a pair's whole log from nothing gives exactly the tables, notes included. */
  ghost predicate JournalComplete(db: Core) {
    forall pair :: Fold(map[], Feed(db.log, pair)) == Project(db, pair)
  }

  ghost predicate MembersPaired(db: Core) {
    forall id, i :: id in db.sessions && id in db.members && 0 <= i < |db.members[id]| ==>
      IsMember(db, db.sessions[id].pair, db.members[id][i].account)
  }

  ghost predicate LogTimely(db: Core, t: Time) {
    forall i :: 0 <= i < |db.log| ==> db.log[i].at <= t
  }

  /** A session's snapshots are events of the session's own pair. */
  ghost predicate LogPaired(db: Core) {
    forall i :: 0 <= i < |db.log| && db.log[i].payload.SessionData? ==>
      var fs := db.log[i].payload.session;
      fs.id in db.sessions && db.log[i].pair == db.sessions[fs.id].pair
  }

  ghost predicate TokensUnique(db: Core) {
    forall a, b :: a in db.invites && b in db.invites && db.invites[a].tokenHash == db.invites[b].tokenHash ==> a == b
  }

  ghost predicate Inv(db: Core, t: Time) {
    PairsOfTwo(db.pairOf) && TablesAgree(db) && HistoriesLegal(db) && OneActive(db) && JournalComplete(db) &&
    MembersPaired(db) && LogTimely(db, t) && LogPaired(db) && TokensUnique(db)
  }

  // ---------------------------------------------------------------- one event more

  lemma HistoryAppend(log: seq<Event>, e: Event, id: Uuid)
    ensures History(log + [e], id) ==
            History(log, id) + (if Snapshots(e, id) then [Stamp(e.payload.session, e.at)] else [])
  {
    assert (log + [e])[..|log|] == log;
  }

  lemma FeedAppend(log: seq<Event>, e: Event, pair: Uuid)
    ensures Feed(log + [e], pair) == Feed(log, pair) + (if e.pair == pair then [e] else [])
  {
    assert (log + [e])[..|log|] == log;
  }

  lemma ReplayAppend(log: seq<Event>, e: Event, pair: Uuid)
    ensures Fold(map[], Feed(log + [e], pair)) ==
            if e.pair == pair then ApplyEvent(Fold(map[], Feed(log, pair)), e) else Fold(map[], Feed(log, pair))
  {
    FeedAppend(log, e, pair);
    if e.pair == pair {
      FoldAppend(map[], Feed(log, pair), e);
    } else {
      assert Feed(log + [e], pair) == Feed(log, pair);
    }
  }

  lemma {:induction false} HistoryTimely(log: seq<Event>, id: Uuid, t: Time)
    requires forall i :: 0 <= i < |log| ==> log[i].at <= t
    ensures forall k :: 0 <= k < |History(log, id)| ==>
              History(log, id)[k].at <= t && History(log, id)[k].session.id == id
  {
    if |log| > 0 {
      HistoryTimely(log[..|log| - 1], id, t);
    }
  }

  // ---------------------------------------------------------------- the one way sessions change

  /** A legal write: a birth, or a step that follows the last snapshot, by members of the pair. */
  ghost predicate Legal(db: Core, id: Uuid, row: Row, members: seq<Participant>, now: Time) {
    var b := Stamp(FocusSession(id, row, members, if id in db.notes then db.notes[id] else []), now);
    (if id in db.sessions
     then |History(db.log, id)| > 0 && Follows(Last(History(db.log, id)), b)
     else Born(b) && (row.state.Active() ==> !HasActive(db.sessions, row.pair))) &&
    forall i :: 0 <= i < |members| ==> IsMember(db, row.pair, members[i].account)
  }

  /** A session whose history the new event does not touch. */
  lemma WriteLeavesHistory(db: Core, t: Time, id: Uuid, row: Row, members: seq<Participant>,
                           etype: EventType, actor: Option<Uuid>, now: Time, other: Uuid)
    requires Inv(db, t) && t <= now && Legal(db, id, row, members, now) && other != id
    ensures var db' := Write(db, id, row, members, etype, actor, now);
            History(db'.log, other) == History(db.log, other) &&
            (other in db'.sessions <==> other in db.sessions) &&
            (other in db.sessions ==> SameRow(Read(db', other), Read(db, other)))
  {
    var db' := Write(db, id, row, members, etype, actor, now);
    HistoryAppend(db.log, db'.log[|db.log|], other);
  }

  lemma WriteExtendsHistory(db: Core, t: Time, id: Uuid, row: Row, members: seq<Participant>,
                            etype: EventType, actor: Option<Uuid>, now: Time)
    requires Inv(db, t) && t <= now && Legal(db, id, row, members, now)
    ensures var db' := Write(db, id, row, members, etype, actor, now); var h := History(db'.log, id);
            id in db'.sessions && Chain(h) && SameRow(Last(h).session, Read(db', id))
  {
    var db' := Write(db, id, row, members, etype, actor, now);
    var e := db'.log[|db.log|];
    HistoryAppend(db.log, e, id);
    var h, b := History(db.log, id), Stamp(e.payload.session, now);
    assert HistoriesLegal(db) by { hide HistoriesLegal; }
    hide Inv, Chain, Follows, Born, History;
    ExtendChain(h, b);
  }

  lemma ExtendChain(h: seq<Stamp>, b: Stamp)
    requires if |h| == 0 then Born(b) else Chain(h) && Follows(Last(h), b)
    ensures Chain(h + [b]) && Last(h + [b]) == b
  {
    hide Born, Follows;
    assert (h + [b])[..|h|] == h;
  }

  lemma WriteHistories(db: Core, t: Time, id: Uuid, row: Row, members: seq<Participant>,
                       etype: EventType, actor: Option<Uuid>, now: Time)
    requires Inv(db, t) && t <= now && Legal(db, id, row, members, now)
    ensures HistoriesLegal(Write(db, id, row, members, etype, actor, now))
  {
    hide Write, History, Legal;
    var db' := Write(db, id, row, members, etype, actor, now);
    WriteExtendsHistory(db, t, id, row, members, etype, actor, now);
    forall other | other != id
      ensures other in db'.sessions ==>
                Chain(History(db'.log, other)) && SameRow(Last(History(db'.log, other)).session, Read(db', other))
      ensures other !in db'.sessions ==> History(db'.log, other) == []
    {
      WriteLeavesHistory(db, t, id, row, members, etype, actor, now, other);
    }
  }

  lemma ProjectWrite(db: Core, db': Core, id: Uuid, pair: Uuid)
    requires id in db'.sessions && (id in db.sessions ==> db'.sessions[id].pair == db.sessions[id].pair)
    requires forall other :: other != id ==> (other in db'.sessions <==> other in db.sessions)
    requires forall other :: other != id && other in db.sessions ==> Read(db', other) == Read(db, other)
    ensures Project(db', pair) ==
            if pair == db'.sessions[id].pair then Project(db, pair)[id := Read(db', id)] else Project(db, pair)
  {
    forall other | other != id && other in db.sessions
      ensures db'.sessions[other].pair == db.sessions[other].pair
    {
      assert Read(db', other).row == Read(db, other).row;
    }
  }

  lemma WriteJournal(db: Core, id: Uuid, row: Row, members: seq<Participant>,
                     etype: EventType, actor: Option<Uuid>, now: Time, pair: Uuid)
    requires JournalComplete(db) && (id in db.sessions ==> row.pair == db.sessions[id].pair)
    ensures var db' := Write(db, id, row, members, etype, actor, now);
            Fold(map[], Feed(db'.log, pair)) == Project(db', pair)
  {
    var db' := Write(db, id, row, members, etype, actor, now);
    var e := db'.log[|db.log|];
    assert db'.log == db.log + [e];
    ReplayAppend(db.log, e, pair);
    ProjectWrite(db, db', id, pair);
    assert Read(db', id) == e.payload.session;
  }

  lemma FollowsKeepsPair(a: Stamp, b: Stamp)
    requires Follows(a, b)
    ensures b.session.row.pair == a.session.row.pair && a.session.row.state.Active()
    ensures b.session.row.version == a.session.row.version + 1
  {
  }

  /** A session that is there already keeps its pair. */
  lemma LegalKeepsPair(db: Core, id: Uuid, row: Row, members: seq<Participant>, now: Time)
    requires HistoriesLegal(db) && Legal(db, id, row, members, now) && id in db.sessions
    ensures row.pair == db.sessions[id].pair && db.sessions[id].state.Active()
    ensures row.version == db.sessions[id].version + 1
  {
    var notes := if id in db.notes then db.notes[id] else [];
    FollowsKeepsPair(Last(History(db.log, id)), Stamp(FocusSession(id, row, members, notes), now));
  }

  lemma WriteOneActive(db: Core, id: Uuid, row: Row, members: seq<Participant>, now: Time)
    requires HistoriesLegal(db) && OneActive(db) && Legal(db, id, row, members, now)
    ensures OneActive(db.(sessions := db.sessions[id := row]))
  {
    var sessions' := db.sessions[id := row];
    if id in db.sessions {
      LegalKeepsPair(db, id, row, members, now);
      assert IsActiveOf(db.sessions, row.pair, id);
    }
    forall pair, a, b | IsActiveOf(sessions', pair, a) && IsActiveOf(sessions', pair, b) ensures a == b {
      if a != id { assert IsActiveOf(db.sessions, pair, a); }
      if b != id { assert IsActiveOf(db.sessions, pair, b); }
    }
  }

  lemma WriteLog(db: Core, t: Time, id: Uuid, row: Row, members: seq<Participant>,
                 etype: EventType, actor: Option<Uuid>, now: Time)
    requires TablesAgree(db) && MembersPaired(db) && LogTimely(db, t) && LogPaired(db) && t <= now
    requires id in db.sessions ==> row.pair == db.sessions[id].pair
    requires forall i :: 0 <= i < |members| ==> IsMember(db, row.pair, members[i].account)
    ensures var db' := Write(db, id, row, members, etype, actor, now);
            TablesAgree(db') && MembersPaired(db') && LogTimely(db', now) && LogPaired(db')
  {
    var db' := Write(db, id, row, members, etype, actor, now);
    assert db'.log[..|db.log|] == db.log;
  }

  lemma WriteKeepsInv(db: Core, t: Time, id: Uuid, row: Row, members: seq<Participant>,
                      etype: EventType, actor: Option<Uuid>, now: Time)
    requires Inv(db, t) && t <= now && Legal(db, id, row, members, now)
    ensures Inv(Write(db, id, row, members, etype, actor, now), now)
  {
    var db' := Write(db, id, row, members, etype, actor, now);
    if id in db.sessions {
      LegalKeepsPair(db, id, row, members, now);
    }
    WriteHistories(db, t, id, row, members, etype, actor, now);
    WriteLog(db, t, id, row, members, etype, actor, now);
    WriteOneActive(db, id, row, members, now);
    assert JournalComplete(db') by {
      forall pair ensures Fold(map[], Feed(db'.log, pair)) == Project(db', pair) {
        WriteJournal(db, id, row, members, etype, actor, now, pair);
      }
    }
  }

  lemma LastStamp(db: Core, t: Time, id: Uuid)
    requires HistoriesLegal(db) && LogTimely(db, t) && id in db.sessions
    ensures Chain(History(db.log, id))
    ensures Last(History(db.log, id)).at <= t && SameRow(Last(History(db.log, id)).session, Read(db, id))
  {
    HistoryTimely(db.log, id, t);
  }

  // ---------------------------------------------------------------- events that carry no session

  lemma QuietAppend(db: Core, db': Core, t: Time, e: Event)
    requires HistoriesLegal(db) && LogTimely(db, t) && LogPaired(db)
    requires db'.log == db.log + [e] && !e.payload.SessionData? && t <= e.at
    requires db'.sessions == db.sessions && db'.members == db.members
    ensures HistoriesLegal(db') && LogTimely(db', e.at) && LogPaired(db')
  {
    forall id ensures History(db'.log, id) == History(db.log, id) {
      HistoryAppend(db.log, e, id);
    }
    forall id | id in db'.sessions
      ensures Chain(History(db'.log, id)) && SameRow(Last(History(db'.log, id)).session, Read(db', id))
    {
      assert SameRow(Last(History(db.log, id)).session, Read(db, id));
    }
    assert db'.log[..|db.log|] == db.log;
  }

  lemma NoteJournal(db: Core, db': Core, sid: Uuid, note: Note, e: Event, pair: Uuid)
    requires JournalComplete(db) && sid in db.sessions && TablesAgree(db)
    requires e.pair == db.sessions[sid].pair && e.etype == NoteAdded && e.entity == sid && e.payload == NoteData(note)
    requires db'.sessions == db.sessions && db'.members == db.members && db'.log == db.log + [e]
    requires db'.notes == db.notes[sid := Read(db, sid).notes + [note]]
    ensures Fold(map[], Feed(db'.log, pair)) == Project(db', pair)
  {
    ReplayAppend(db.log, e, pair);
    assert Fold(map[], Feed(db.log, pair)) == Project(db, pair);
    ProjectWrite(db, db', sid, pair);
    assert Read(db', sid) == Read(db, sid).(notes := Read(db, sid).notes + [note]);
  }

  lemma NoteKeepsInv(db: Core, t: Time, sid: Uuid, note: Note, e: Event, now: Time, db': Core)
    requires Inv(db, t) && t <= now && sid in db.sessions
    requires e.pair == db.sessions[sid].pair && e.etype == NoteAdded && e.entity == sid && e.payload == NoteData(note)
    requires e.at == now
    requires db' == db.(notes := db.notes[sid := Read(db, sid).notes + [note]], log := db.log + [e])
    ensures Inv(db', now)
  {
    QuietAppend(db, db', t, e);
    assert JournalComplete(db') by {
      forall pair ensures Fold(map[], Feed(db'.log, pair)) == Project(db', pair) {
        NoteJournal(db, db', sid, note, e, pair);
      }
    }
  }

  /** Two states with the same session tables and no event between them that the reducer reads. */
  lemma SilentKeepsJournal(db: Core, db': Core, quiet: seq<Event>)
    requires JournalComplete(db) && db'.log == db.log + quiet && |quiet| <= 1
    requires forall i :: 0 <= i < |quiet| ==> !quiet[i].payload.SessionData? && !quiet[i].etype.NoteAdded?
    requires db'.sessions == db.sessions && db'.members == db.members && db'.notes == db.notes
    ensures JournalComplete(db')
  {
    forall pair ensures Fold(map[], Feed(db'.log, pair)) == Project(db', pair) {
      if |quiet| == 1 {
        assert quiet == [quiet[0]];
        ReplayAppend(db.log, quiet[0], pair);
      } else {
        assert db'.log == db.log;
      }
      assert Fold(map[], Feed(db.log, pair)) == Project(db, pair);
      forall id | id in db.sessions ensures Read(db', id) == Read(db, id) {}
      assert Project(db', pair) == Project(db, pair);
    }
  }

  /** A step that appends one event the reducer does not read keeps the invariant. */
  lemma SilentKeepsInv(db: Core, db': Core, t: Time, e: Event)
    requires Inv(db, t) && t <= e.at && db'.log == db.log + [e]
    requires !e.payload.SessionData? && !e.etype.NoteAdded?
    requires db'.sessions == db.sessions && db'.members == db.members && db'.notes == db.notes
    requires PairsOfTwo(db'.pairOf) && TokensUnique(db')
    requires forall x :: x in db.pairOf ==> x in db'.pairOf && db'.pairOf[x] == db.pairOf[x]
    ensures Inv(db', e.at)
  {
    QuietAppend(db, db', t, e);
    SilentKeepsJournal(db, db', [e]);
  }

  // ---------------------------------------------------------------- the sweep

  lemma OneDue(db: Core, pair: Uuid, a: Uuid, b: Uuid, s: Time, t: Time)
    requires OneActive(db) && IsDue(db.sessions, pair, a, s) && IsDue(db.sessions, pair, b, t)
    ensures a == b && IsActiveOf(db.sessions, pair, a)
  {
    assert IsActiveOf(db.sessions, pair, a) && IsActiveOf(db.sessions, pair, b);
  }

  /** The sweep changes nothing, or exactly the one due session. */
  lemma SweepIs(db: Core, pair: Uuid, now: Time, id: Uuid)
    requires OneActive(db) && IsDue(db.sessions, pair, id, now)
    ensures Sweep(db, pair, now) == SweepOne(db, id, now)
  {
    var other :| IsDue(db.sessions, pair, other, now) && Sweep(db, pair, now) == SweepOne(db, other, now);
    OneDue(db, pair, id, other, now, now);
  }

  lemma SweepOneLegal(db: Core, t: Time, id: Uuid, now: Time)
    requires Inv(db, t) && t <= now && id in db.sessions && Due(db.sessions[id], now)
    ensures Legal(db, id, SweptRow(db.sessions[id]), Read(db, id).members, now)
  {
    LastStamp(db, t, id);
    var b := Stamp(FocusSession(id, SweptRow(db.sessions[id]), Read(db, id).members, Read(db, id).notes), now);
    assert Swept(Last(History(db.log, id)), b);
  }

  lemma SweepKeepsInv(db: Core, t: Time, pair: Uuid, now: Time)
    requires Inv(db, t) && t <= now
    ensures Inv(Sweep(db, pair, now), now)
  {
    if id :| IsDue(db.sessions, pair, id, now) {
      SweepIs(db, pair, now, id);
      SweepOneLegal(db, t, id, now);
      WriteKeepsInv(db, t, id, SweptRow(db.sessions[id]), Read(db, id).members,
                    if db.sessions[id].state.Paused? then SessionExpired else SessionCompleted, None, now);
    } else {
      InvLater(db, t, now);
    }
  }

  lemma InvLater(db: Core, t: Time, now: Time)
    requires Inv(db, t) && t <= now
    ensures Inv(db, now)
  {
  }

  /** After a sweep no session of the pair is overdue or stale at that time. */
  lemma SweepLeavesNoneDue(db: Core, pair: Uuid, now: Time, id: Uuid)
    requires OneActive(db)
    ensures !IsDue(Sweep(db, pair, now).sessions, pair, id, now)
  {
    if due :| IsDue(db.sessions, pair, due, now) {
      SweepIs(db, pair, now, due);
      if id != due && IsDue(db.sessions, pair, id, now) {
        OneDue(db, pair, id, due, now, now);
      }
    }
  }

  /** A second sweep at the same time changes no row and appends no event. */
  lemma SweepTwice(db: Core, pair: Uuid, now: Time)
    requires OneActive(db)
    ensures Sweep(Sweep(db, pair, now), pair, now) == Sweep(db, pair, now)
  {
    forall id ensures !IsDue(Sweep(db, pair, now).sessions, pair, id, now) {
      SweepLeavesNoneDue(db, pair, now, id);
    }
  }

  /**
   How late the sweep runs does not matter: sweeping early and late leaves the same rows and members
   as sweeping late alone. The sweeper's clock leaves no trace; Effects.SweepEffect says what a sweep writes.
   */
  lemma SweepLatenessIsInvisible(db: Core, pair: Uuid, early: Time, late: Time)
    requires OneActive(db) && early <= late
    ensures Sweep(Sweep(db, pair, early), pair, late).sessions == Sweep(db, pair, late).sessions
    ensures Sweep(Sweep(db, pair, early), pair, late).members == Sweep(db, pair, late).members
  {
    var once := Sweep(db, pair, early);
    if id :| IsDue(db.sessions, pair, id, early) {
      SweepIs(db, pair, early, id);
      assert IsDue(db.sessions, pair, id, late);
      SweepIs(db, pair, late, id);
      if other :| IsDue(once.sessions, pair, other, late) {
        assert other != id && IsDue(db.sessions, pair, other, late);
        OneDue(db, pair, id, other, early, late);
      }
    }
  }

  // ---------------------------------------------------------------- the transactions

  /** Keys and invites are not part of what the invariant says about sessions. */
  lemma SameSessionsKeepInv(db: Core, db': Core, t: Time)
    requires Inv(db, t) && TokensUnique(db') && db'.pairOf == db.pairOf && db'.log == db.log
    requires db'.sessions == db.sessions && db'.members == db.members && db'.notes == db.notes
    ensures Inv(db', t)
  {
    assert db'.log == db.log + [];
    SilentKeepsJournal(db, db', []);
    forall id | id in db.sessions ensures Read(db', id) == Read(db, id) {}
  }

  lemma CommitKeepsInv(before: Core, db: Core, t: Time, now: Time, account: Uuid, key: Uuid,
                       op: Operation, response: Response)
    requires Inv(before, t) && t <= now && Inv(db, now)
    ensures Inv(Commit(before, db, account, key, op, response, now).0, now)
  {
    InvLater(before, t, now);
    SameSessionsKeepInv(db, db.(keys := db.keys[(account, key) := KeyRow(op, response, now + KEY_WINDOW)]), now);
  }

  lemma StartKeepsInv(db: Core, t: Time, who: Identity, key: Uuid, sid: Uuid, now: Time)
    requires Inv(db, t) && t <= now
    ensures Inv(Start(db, who, key, sid, now).0, now)
  {
    hide Inv;
    InvLater(db, t, now);
    if who.pair.Some? && IsMember(db, who.pair.value, who.account) {
      var pair := who.pair.value;
      var swept := Sweep(db, pair, now);
      SweepKeepsInv(db, t, pair, now);
      SweepFrame(db, pair, now);
      if !HasActive(swept.sessions, pair) && sid !in swept.sessions {
        var row, members := Opened(pair, who.account, now), [Participant(who.account, now)];
        assert Legal(swept, sid, row, members, now);
        WriteKeepsInv(swept, now, sid, row, members, SessionStarted, Some(who.account), now);
        var written := Write(swept, sid, row, members, SessionStarted, Some(who.account), now);
        CommitKeepsInv(db, written, t, now, who.account, key, OpStart, SessionResponse(Read(written, sid)));
      }
    }
  }

  /** The sweep touches nothing but sessions, members, notes and log. */
  lemma SweepFrame(db: Core, pair: Uuid, now: Time)
    ensures var swept := Sweep(db, pair, now);
            swept.pairOf == db.pairOf && swept.keys == db.keys && swept.invites == db.invites &&
            swept.reactions == db.reactions && swept.sessions.Keys == db.sessions.Keys
  {
  }

  lemma ImportKeepsInv(db: Core, t: Time, who: Identity, key: Uuid, sid: Uuid,
                       startedAt: Time, completedAt: Time, now: Time)
    requires Inv(db, t) && t <= now
    ensures Inv(Import(db, who, key, sid, startedAt, completedAt, now).0, now)
  {
    hide Inv;
    InvLater(db, t, now);
    if who.pair.Some? && IsMember(db, who.pair.value, who.account) && sid !in db.sessions &&
       Importable(startedAt, completedAt, now) {
      var row := Imported(who.pair.value, who.account, startedAt, completedAt);
      var members := [Participant(who.account, startedAt)];
      assert Legal(db, sid, row, members, now);
      WriteKeepsInv(db, t, sid, row, members, SessionCompleted, Some(who.account), now);
      var written := Write(db, sid, row, members, SessionCompleted, Some(who.account), now);
      CommitKeepsInv(db, written, t, now, who.account, key, OpImport, SessionResponse(Read(written, sid)));
    }
  }

  lemma ActLegal(db: Core, t: Time, sid: Uuid, action: Action, account: Uuid, now: Time)
    requires Inv(db, t) && t <= now && sid in db.sessions && IsMember(db, db.sessions[sid].pair, account)
    requires Act(db.sessions[sid], action, account, now).Some?
    requires action.Join? ==> !HasMember(Read(db, sid).members, account)
    ensures var members := Read(db, sid).members;
            Legal(db, sid, Act(db.sessions[sid], action, account, now).value,
                  if action.Join? then members + [Participant(account, now)] else members, now)
  {
    LastStamp(db, t, sid);
    hide Inv, Chain, JournalComplete;
    var members, row := Read(db, sid).members, Act(db.sessions[sid], action, account, now).value;
    var joined := if action.Join? then members + [Participant(account, now)] else members;
    var b := Stamp(FocusSession(sid, row, joined, Read(db, sid).notes), now);
    ActFollows(Last(History(db.log, sid)), b, action, account);
    MembersJoin(db, sid, action, account, now);
    hide Act, Follows, History;
  }

  lemma ActFollows(a: Stamp, b: Stamp, action: Action, account: Uuid)
    requires a.at <= b.at && a.session.id == b.session.id && Acted(a, b, action, account)
    ensures Follows(a, b) && b.session.row.pair == a.session.row.pair
  {
    hide Swept;
    assert b.session.row == Act(a.session.row, action, account, b.at).value;
  }

  lemma MembersJoin(db: Core, sid: Uuid, action: Action, account: Uuid, now: Time)
    requires MembersPaired(db) && sid in db.sessions && IsMember(db, db.sessions[sid].pair, account)
    ensures var members := Read(db, sid).members;
            var joined := if action.Join? then members + [Participant(account, now)] else members;
            forall i :: 0 <= i < |joined| ==> IsMember(db, db.sessions[sid].pair, joined[i].account)
  {
  }

  lemma TransitionKeepsInv(db: Core, t: Time, who: Identity, key: Uuid, sid: Uuid, expected: int,
                           action: Action, now: Time)
    requires Inv(db, t) && t <= now
    ensures Inv(Transition(db, who, key, sid, expected, action, now).0, now)
  {
    hide Inv;
    InvLater(db, t, now);
    if who.pair.Some? && IsMember(db, who.pair.value, who.account) &&
       sid in db.sessions && db.sessions[sid].pair == who.pair.value &&
       Act(db.sessions[sid], action, who.account, now).Some? &&
       !(action.Join? && HasMember(Read(db, sid).members, who.account)) {
      var members := Read(db, sid).members;
      var row := Act(db.sessions[sid], action, who.account, now).value;
      var joined := if action.Join? then members + [Participant(who.account, now)] else members;
      ActLegal(db, t, sid, action, who.account, now);
      WriteKeepsInv(db, t, sid, row, joined, SessionDone(action), Some(who.account), now);
      var written := Write(db, sid, row, joined, SessionDone(action), Some(who.account), now);
      CommitKeepsInv(db, written, t, now, who.account, key, OpAct(action), SessionResponse(Read(written, sid)));
    }
  }

  lemma AddNoteKeepsInv(db: Core, t: Time, who: Identity, key: Uuid, sid: Uuid, noteId: Uuid,
                        body: string, now: Time)
    requires Inv(db, t) && t <= now
    ensures Inv(AddNote(db, who, key, sid, noteId, body, now).0, now)
  {
    hide Inv;
    InvLater(db, t, now);
    if who.pair.Some? && sid in db.sessions && db.sessions[sid].pair == who.pair.value {
      var note := Note(noteId, who.account, body, now);
      var e := Event(who.pair.value, NoteAdded, sid, Some(who.account), NoteData(note), now);
      var written := db.(notes := db.notes[sid := Read(db, sid).notes + [note]], log := db.log + [e]);
      NoteKeepsInv(db, t, sid, note, e, now, written);
      CommitKeepsInv(db, written, t, now, who.account, key, OpNote, NoteResponse(note));
    }
  }

  lemma AddCheerKeepsInv(db: Core, t: Time, who: Identity, key: Uuid, sid: Uuid, cheerId: Uuid, now: Time)
    requires Inv(db, t) && t <= now
    ensures Inv(AddCheer(db, who, key, sid, cheerId, now).0, now)
  {
    InvLater(db, t, now);
    if who.pair.Some? {
      var e := Event(who.pair.value, Cheered, sid, Some(who.account), CheerData(cheerId, now), now);
      var written := db.(reactions := db.reactions + [Reaction(cheerId, sid, who.account, now)], log := db.log + [e]);
      if sid in db.sessions && db.sessions[sid].pair == who.pair.value {
        SilentKeepsInv(db, written, t, e);
      }
      CheerKeepsInv(db, t, written, who, key, sid, cheerId, now);
    }
  }

  lemma CheerKeepsInv(db: Core, t: Time, written: Core, who: Identity, key: Uuid, sid: Uuid, cheerId: Uuid, now: Time)
    requires Inv(db, t) && t <= now && who.pair.Some?
    requires written == db.(reactions := db.reactions + [Reaction(cheerId, sid, who.account, now)],
                            log := db.log + [Event(who.pair.value, Cheered, sid, Some(who.account),
                                                   CheerData(cheerId, now), now)])
    requires sid in db.sessions && db.sessions[sid].pair == who.pair.value ==> Inv(written, now)
    ensures Inv(AddCheer(db, who, key, sid, cheerId, now).0, now)
  {
    hide Inv, CheeredRecently;
    InvLater(db, t, now);
    if sid in db.sessions && db.sessions[sid].pair == who.pair.value {
      CommitKeepsInv(db, written, t, now, who.account, key, OpCheer, CheerResponse(cheerId, now));
    }
  }

  lemma CreateInviteKeepsInv(db: Core, t: Time, account: Uuid, inviteId: Uuid, tokenHash: int,
                             expiresAt: Time, now: Time)
    requires Inv(db, t) && t <= now
    ensures Inv(CreateInvite(db, account, inviteId, tokenHash, expiresAt, now).0, now)
  {
    InvLater(db, t, now);
    var db' := CreateInvite(db, account, inviteId, tokenHash, expiresAt, now).0;
    assert TokensUnique(db);
    hide Inv, TokensUnique;
    InviteTokensUnique(db, account, inviteId, tokenHash, expiresAt, now);
    hide RevokeOpen;
    SameSessionsKeepInv(db, db', now);
  }

  lemma InviteTokensUnique(db: Core, account: Uuid, inviteId: Uuid, tokenHash: int, expiresAt: Time, now: Time)
    requires TokensUnique(db)
    ensures TokensUnique(CreateInvite(db, account, inviteId, tokenHash, expiresAt, now).0)
  {
  }

  lemma NewPairOfTwo(pairOf: map<Uuid, Uuid>, a: Uuid, b: Uuid, pair: Uuid)
    requires PairsOfTwo(pairOf) && a != b && a !in pairOf && b !in pairOf && pair !in pairOf.Values
    ensures PairsOfTwo(pairOf[a := pair][b := pair])
  {
    var pairOf' := pairOf[a := pair][b := pair];
    forall x | x in pairOf' ensures HasPartner(pairOf', x) {
      if x == a || x == b {
        NewPartner(pairOf, a, b, pair, x);
      } else {
        OldPartner(pairOf, a, b, pair, x);
      }
    }
  }

  lemma NewPartner(pairOf: map<Uuid, Uuid>, a: Uuid, b: Uuid, pair: Uuid, x: Uuid)
    requires a != b && pair !in pairOf.Values && (x == a || x == b)
    ensures var pairOf' := pairOf[a := pair][b := pair]; x in pairOf' && HasPartner(pairOf', x)
  {
    var pairOf' := pairOf[a := pair][b := pair];
    var y := if x == a then b else a;
    assert y in pairOf' && pairOf'[y] == pairOf'[x] == pair;
    forall z | z in pairOf' && pairOf'[z] == pair ensures z == x || z == y {
      assert z in pairOf ==> pairOf[z] in pairOf.Values;
    }
  }

  lemma OldPartner(pairOf: map<Uuid, Uuid>, a: Uuid, b: Uuid, pair: Uuid, x: Uuid)
    requires PairsOfTwo(pairOf) && a !in pairOf && b !in pairOf && pair !in pairOf.Values && x in pairOf
    ensures HasPartner(pairOf[a := pair][b := pair], x)
  {
    var pairOf' := pairOf[a := pair][b := pair];
    var y :| y in pairOf && y != x && pairOf[y] == pairOf[x] &&
             forall z :: z in pairOf && pairOf[z] == pairOf[x] ==> z == x || z == y;
    hide PairsOfTwo;
    assert pairOf[x] in pairOf.Values;
    assert y in pairOf' && pairOf'[y] == pairOf'[x];
  }

  /** What a successful acceptance changes. */
  lemma AcceptedPair(db: Core, account: Uuid, tokenHash: int, pair: Uuid, creatorActive: bool, now: Time)
      returns (creator: Uuid, e: Event)
    requires AcceptInvite(db, account, tokenHash, pair, creatorActive, now).1.Done?
    ensures var db' := AcceptInvite(db, account, tokenHash, pair, creatorActive, now).0;
            creator != account && creator !in db.pairOf && account !in db.pairOf && pair !in db.pairOf.Values &&
            e == Event(pair, PairCreated, pair, Some(account), PairData(creator, account), now) &&
            db' == db.(pairOf := db.pairOf[creator := pair][account := pair],
                       invites := db'.invites, log := db.log + [e]) &&
            db'.invites.Keys == db.invites.Keys &&
            forall id :: id in db.invites ==> db'.invites[id].tokenHash == db.invites[id].tokenHash
  {
    var db' := AcceptInvite(db, account, tokenHash, pair, creatorActive, now).0;
    var id :| id in db.invites && Live(db.invites[id], tokenHash, now) &&
              db'.invites == db.invites[id := db.invites[id].(acceptedBy := Some(account), acceptedAt := Some(now))] &&
              db.invites[id].createdBy != account && db.invites[id].createdBy !in db.pairOf &&
              db'.pairOf == db.pairOf[db.invites[id].createdBy := pair][account := pair] &&
              db'.log == db.log + [Event(pair, PairCreated, pair, Some(account),
                                         PairData(db.invites[id].createdBy, account), now)];
    creator := db.invites[id].createdBy;
    e := Event(pair, PairCreated, pair, Some(account), PairData(creator, account), now);
  }

  lemma AcceptInviteKeepsInv(db: Core, t: Time, account: Uuid, tokenHash: int, pair: Uuid,
                             creatorActive: bool, now: Time)
    requires Inv(db, t) && t <= now
    ensures Inv(AcceptInvite(db, account, tokenHash, pair, creatorActive, now).0, now)
  {
    InvLater(db, t, now);
    var db' := AcceptInvite(db, account, tokenHash, pair, creatorActive, now).0;
    if AcceptInvite(db, account, tokenHash, pair, creatorActive, now).1.Done? {
      var creator, e := AcceptedPair(db, account, tokenHash, pair, creatorActive, now);
      NewPairOfTwo(db.pairOf, creator, account, pair);
      hide AcceptInvite, JournalComplete, HistoriesLegal;
      SilentKeepsInv(db, db', t, e);
    }
  }

  /** Every transaction, at any later time, keeps the invariant. */
  lemma ExecuteKeepsInv(db: Core, t: Time, call: Call, now: Time)
    requires Inv(db, t) && t <= now
    ensures Inv(Execute(db, call, now).0, now)
  {
    hide Inv, Start, Import, Transition, AddNote, AddCheer, CreateInvite, AcceptInvite, Sweep;
    match call
    case CStart(who, key, sid) => StartKeepsInv(db, t, who, key, sid, now);
    case CImport(who, key, sid, startedAt, completedAt) =>
      ImportKeepsInv(db, t, who, key, sid, startedAt, completedAt, now);
    case CTransition(who, key, sid, expected, action) =>
      TransitionKeepsInv(db, t, who, key, sid, expected, action, now);
    case CNote(who, key, sid, freshId, body) => AddNoteKeepsInv(db, t, who, key, sid, freshId, body, now);
    case CCheer(who, key, sid, freshId) => AddCheerKeepsInv(db, t, who, key, sid, freshId, now);
    case CCurrent(who) =>
      InvLater(db, t, now);
      if who.pair.Some? { SweepKeepsInv(db, t, who.pair.value, now); }
    case CCreateInvite(account, inviteId, tokenHash, expiresAt) =>
      CreateInviteKeepsInv(db, t, account, inviteId, tokenHash, expiresAt, now);
    case CAcceptInvite(account, tokenHash, pair, creatorActive) =>
      AcceptInviteKeepsInv(db, t, account, tokenHash, pair, creatorActive, now);
  }

  lemma EmptyInv(t: Time)
    ensures Inv(EMPTY, t)
  {
    forall pair ensures Fold(map[], Feed(EMPTY.log, pair)) == Project(EMPTY, pair) {
      assert Project(EMPTY, pair) == map[];
    }
  }
}
