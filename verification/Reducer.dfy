/** The phone's reducer: how one event changes the local session table, and what a log folds to. */
module Reducer {
  import opened Domain
  import opened Tables

  type Local = map<Uuid, FocusSession>

  function Upsert(local: Local, fs: FocusSession): Local {
    local[fs.id := fs]
  }

  function ApplyEvent(local: Local, e: Event): Local {
    if e.payload.SessionData? then Upsert(local, e.payload.session)
    else if e.etype.NoteAdded? && e.payload.NoteData? && e.entity in local then
      var existing := local[e.entity];
      Upsert(local, existing.(notes := existing.notes + [e.payload.note]))
    else local
  }

  function Fold(local: Local, events: seq<Event>): Local {
    if |events| == 0 then local
    else ApplyEvent(Fold(local, events[..|events| - 1]), events[|events| - 1])
  }

  predicate Snapshots(e: Event, id: Uuid) {
    e.payload.SessionData? && e.payload.session.id == id
  }

  /** The last snapshot of a session in a sequence of events. */
  function LastSnapshot(events: seq<Event>, id: Uuid): Option<FocusSession> {
    if |events| == 0 then None
    else
      var last := events[|events| - 1];
      if Snapshots(last, id) then Some(last.payload.session) else LastSnapshot(events[..|events| - 1], id)
  }

  /** Every local row is stored under its own identifier. */
  ghost predicate Keyed(local: Local) {
    forall id :: id in local ==> local[id].id == id
  }

  lemma {:induction false} FoldAppend(local: Local, events: seq<Event>, e: Event)
    ensures Fold(local, events + [e]) == ApplyEvent(Fold(local, events), e)
  {
    assert (events + [e])[..|events|] == events;
  }

  lemma {:induction false} FoldConcat(local: Local, a: seq<Event>, b: seq<Event>)
    ensures Fold(local, a + b) == Fold(Fold(local, a), b)
  {
    if |b| == 0 {
      assert a + b == a;
    } else {
      FoldConcat(local, a, b[..|b| - 1]);
      assert (a + b)[..|a + b| - 1] == a + b[..|b| - 1];
    }
  }

  /** After folding, a session's row is its last snapshot, or untouched when there was none; notes aside. */
  lemma {:induction false} FoldRow(local: Local, events: seq<Event>, id: Uuid)
    requires Keyed(local)
    ensures Keyed(Fold(local, events))
    ensures LastSnapshot(events, id).Some? ==>
              id in Fold(local, events) && SameRow(Fold(local, events)[id], LastSnapshot(events, id).value)
    ensures LastSnapshot(events, id).None? ==>
              (id in Fold(local, events) <==> id in local) &&
              (id in local ==> SameRow(Fold(local, events)[id], local[id]))
  {
    if |events| > 0 {
      FoldRow(local, events[..|events| - 1], id);
    }
  }
}
