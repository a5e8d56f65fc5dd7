/**
 Legal session histories, apart from any table: the snapshots that the event log keeps of one session.
 Every fact about single sessions (shape, versions, timer) is an induction over such a history.
 */
module Timeline {
  import opened Domain

  datatype Stamp = Stamp(session: FocusSession, at: Time)

  function Opened(pair: Uuid, who: Uuid, now: Time): Row {
    Row(pair, who, Open, None, now, now + FOCUS, None, None, None, 1, false)
  }

  function Imported(pair: Uuid, who: Uuid, startedAt: Time, completedAt: Time): Row {
    Row(pair, who, Completed, None, startedAt, completedAt, None, Some(completedAt), None, 1, true)
  }

  /** The bounds the server puts on an offline session. */
  predicate Importable(startedAt: Time, completedAt: Time, now: Time) {
    startedAt <= completedAt && completedAt - startedAt <= DAY && completedAt <= now + 2 * MINUTE
  }

  /** The first snapshot: a started or an imported session. */
  predicate Born(b: Stamp) {
    var r := b.session.row;
    b.session.members == [Participant(r.startedBy, r.startedAt)] &&
    if r.offlineOrigin then
      r.completedAt.Some? && r == Imported(r.pair, r.startedBy, r.startedAt, r.completedAt.value) &&
      Importable(r.startedAt, r.completedAt.value, b.at)
    else
      r == Opened(r.pair, r.startedBy, b.at)
  }

  predicate Acted(a: Stamp, b: Stamp, action: Action, who: Uuid) {
    Act(a.session.row, action, who, b.at) == Some(b.session.row) &&
    if action.Join? then
      !HasMember(a.session.members, who) && b.session.members == a.session.members + [Participant(who, b.at)]
    else
      b.session.members == a.session.members
  }

  predicate Swept(a: Stamp, b: Stamp) {
    Due(a.session.row, b.at) && b.session.row == SweptRow(a.session.row) && b.session.members == a.session.members
  }

  /** Two consecutive snapshots: a command of a member, or the sweep. */
  ghost predicate Follows(a: Stamp, b: Stamp) {
    a.at <= b.at && a.session.id == b.session.id &&
    (Swept(a, b) || exists action, who :: Acted(a, b, action, who))
  }

  function Last(h: seq<Stamp>): Stamp
    requires |h| > 0
  {
    h[|h| - 1]
  }

  ghost predicate Chain(h: seq<Stamp>) {
    |h| > 0 &&
    if |h| == 1 then Born(h[0]) else Chain(h[..|h| - 1]) && Follows(h[|h| - 2], h[|h| - 1])
  }

  /** The state a session has apart from being paused. */
  function Effective(row: Row): State {
    if row.state.Paused? && row.pauseOrigin.Some? then row.pauseOrigin.value else row.state
  }

  /** The optional columns are set exactly in the states they belong to, and the members fit the state. */
  predicate WellFormed(fs: FocusSession) {
    var r := fs.row;
    (r.pausedAt.Some? <==> r.state.Paused?) &&
    (r.pauseOrigin.Some? <==> r.state.Paused?) &&
    (r.pauseOrigin.Some? ==> r.pauseOrigin.value.Open? || r.pauseOrigin.value.Together?) &&
    (r.completedAt.Some? <==> r.state.Completed?) &&
    (r.cancelledAt.Some? <==> r.state.Cancelled?) &&
    1 <= |fs.members| <= 2 &&
    fs.members[0] == Participant(r.startedBy, r.startedAt) &&
    (|fs.members| == 2 ==> fs.members[1].account != r.startedBy) &&
    (Effective(r).Open? ==> |fs.members| == 1) &&
    (Effective(r).Together? ==> |fs.members| == 2) &&
    (r.offlineOrigin ==> r.state.Completed? && r.version == 1 && |fs.members| == 1)
  }

  /** Version k sits at place k, and the identity of the session never changes. */
  lemma {:induction false} ChainShape(h: seq<Stamp>)
    requires Chain(h)
    ensures WellFormed(Last(h).session)
    ensures Last(h).session.row.version == |h|
    ensures Last(h).session.id == h[0].session.id
    ensures Last(h).session.row.pair == h[0].session.row.pair
    ensures Last(h).session.row.startedBy == h[0].session.row.startedBy
    ensures Last(h).session.row.startedAt == h[0].session.row.startedAt
    ensures Last(h).session.row.offlineOrigin == h[0].session.row.offlineOrigin
    ensures h[0].at <= Last(h).at
  {
    if |h| > 1 {
      ChainShape(h[..|h| - 1]);
    }
  }

  lemma {:induction false} ChainPrefix(h: seq<Stamp>, n: nat)
    requires Chain(h) && 0 < n <= |h|
    ensures Chain(h[..n])
  {
    if n == |h| {
      assert h[..n] == h;
    } else {
      ChainPrefix(h[..|h| - 1], n);
      assert h[..|h| - 1][..n] == h[..n];
    }
  }

  /** Every snapshot is well formed and the k-th carries version k, with no gap and no repeat. */
  lemma VersionsCount(h: seq<Stamp>, k: nat)
    requires Chain(h) && k < |h|
    ensures h[k].session.row.version == k + 1
    ensures WellFormed(h[k].session)
  {
    ChainPrefix(h, k + 1);
    ChainShape(h[..k + 1]);
  }

  // ---------------------------------------------------------------- timer

  /** How long the session was paused, over all pauses that were resumed. */
  ghost function ResumedPauses(h: seq<Stamp>): Time {
    if |h| < 2 then 0
    else
      var a, b := h[|h| - 2], h[|h| - 1];
      ResumedPauses(h[..|h| - 1]) +
      (if a.session.row.state.Paused? && (b.session.row.state.Open? || b.session.row.state.Together?)
       then b.at - a.at else 0)
  }

  predicate Running(s: State) {
    s.Open? || s.Together?
  }

  /** How long the session has been running and not paused, up to `now`. */
  ghost function RunningTime(h: seq<Stamp>, now: Time): Time
    requires |h| > 0
  {
    var last := h[|h| - 1];
    (if Running(last.session.row.state) then now - last.at else 0) +
    (if |h| == 1 then 0 else RunningTime(h[..|h| - 1], last.at))
  }

  /** The end of a server-started session moves by exactly the pauses that were resumed. */
  lemma {:induction false} EndMovesByPauses(h: seq<Stamp>)
    requires Chain(h) && !h[0].session.row.offlineOrigin
    ensures Last(h).session.row.endsAt == Last(h).session.row.startedAt + FOCUS + ResumedPauses(h)
    ensures Last(h).session.row.state.Paused? ==> Last(h).session.row.pausedAt == Some(Last(h).at)
  {
    if |h| > 1 {
      EndMovesByPauses(h[..|h| - 1]);
      ChainShape(h[..|h| - 1]);
    }
  }

  /** While a session is active, time left plus time run is always 25 minutes. */
  lemma {:induction false} TimerConserved(h: seq<Stamp>, now: Time)
    requires Chain(h) && !h[0].session.row.offlineOrigin
    requires Last(h).session.row.state.Active()
    ensures RawRemaining(Last(h).session.row, now) + RunningTime(h, now) == FOCUS
  {
    ChainShape(h);
    EndMovesByPauses(h);
    if |h| > 1 {
      var before := h[..|h| - 1];
      ChainShape(before);
      EndMovesByPauses(before);
      TimerConserved(before, Last(h).at);
    }
  }

  /** The displayed time does not jump at a join, a pause or a resume, and stands still during a pause. */
  lemma NoJump(a: Stamp, b: Stamp, action: Action, who: Uuid, later: Time)
    requires Acted(a, b, action, who) && WellFormed(a.session)
    requires action.Join? || action.Pause? || action.Resume?
    ensures RemainingAt(b.session.row, b.at) == RemainingAt(a.session.row, b.at)
    ensures action.Pause? ==> RemainingAt(b.session.row, later) == RemainingAt(a.session.row, b.at)
    ensures action.Join? ==> RemainingAt(b.session.row, later) == RemainingAt(a.session.row, later)
  {
  }

  /** A terminal snapshot is the last one: nothing follows it. */
  lemma TerminalHasNoSuccessor(a: Stamp, b: Stamp)
    requires Follows(a, b)
    ensures a.session.row.state.Active()
  {
  }
}
