/** The session state machine and timer that server and phone share. */
module Domain {

  datatype Option<+T> = None | Some(value: T)

  /** An identifier. The zero value is the nil UUID. */
  type Uuid = nat

  const NIL: Uuid := 0

  /** An instant or a duration, in whole microseconds. */
  type Time = int

  const SECOND: Time := 1_000_000
  const MINUTE: Time := 60 * SECOND
  const HOUR: Time := 60 * MINUTE
  const DAY: Time := 24 * HOUR
  const FOCUS: Time := 25 * MINUTE

  datatype State = Open | Together | Paused | Completed | Cancelled | Expired {
    predicate Active() {
      Open? || Together? || Paused?
    }
  }

  datatype Action = Join | Pause | Resume | Complete | Cancel | Expire

  /** A row of the session table. */
  datatype Row = Row(
    pair: Uuid,
    startedBy: Uuid,
    state: State,
    pauseOrigin: Option<State>,
    startedAt: Time,
    endsAt: Time,
    pausedAt: Option<Time>,
    completedAt: Option<Time>,
    cancelledAt: Option<Time>,
    version: int,
    offlineOrigin: bool)

  datatype Participant = Participant(account: Uuid, joinedAt: Time)

  datatype Note = Note(id: Uuid, account: Uuid, body: string, createdAt: Time)

  /** A session with its participants and notes, as the server serializes it. */
  datatype FocusSession = FocusSession(id: Uuid, row: Row, members: seq<Participant>, notes: seq<Note>)

  /** Equality of everything but the notes. */
  predicate SameRow(a: FocusSession, b: FocusSession) {
    a.id == b.id && a.row == b.row && a.members == b.members
  }

  predicate HasMember(members: seq<Participant>, account: Uuid) {
    exists i :: 0 <= i < |members| && members[i].account == account
  }

  /** The transition function: the new state and pause origin, or nothing when the action is illegal. */
  function NextState(current: State, origin: Option<State>, action: Action): Option<(State, Option<State>)> {
    match action
    case Join => if current.Open? then Some((Together, None)) else None
    case Pause => if current.Open? || current.Together? then Some((Paused, Some(current))) else None
    case Resume =>
      if current.Paused? && origin.Some? && (origin.value.Open? || origin.value.Together?)
      then Some((origin.value, None)) else None
    case Complete => if current.Active() then Some((Completed, None)) else None
    case Cancel => if current.Active() then Some((Cancelled, None)) else None
    case Expire => if current.Active() then Some((Expired, None)) else None
  }

  /** The row after `account` performs `action` at `now`, or nothing when the server answers with a conflict. */
  function Act(row: Row, action: Action, account: Uuid, now: Time): Option<Row> {
    match NextState(row.state, row.pauseOrigin, action)
    case None => None
    case Some((next, origin)) =>
      var bumped := row.(state := next, version := row.version + 1);
      match action
      case Join => if row.startedBy == account || now > row.endsAt then None else Some(bumped)
      case Pause => Some(bumped.(pauseOrigin := origin, pausedAt := Some(now)))
      case Resume =>
        if row.pausedAt.None? then None
        else Some(bumped.(pauseOrigin := None, pausedAt := None,
                          endsAt := row.endsAt + (now - row.pausedAt.value)))
      case Complete => Some(bumped.(pauseOrigin := None, pausedAt := None, completedAt := Some(now)))
      case Cancel => Some(bumped.(pauseOrigin := None, pausedAt := None, cancelledAt := Some(now)))
      case Expire => Some(bumped.(pauseOrigin := None, pausedAt := None))
  }

  /** A pause of a day or more expires. */
  predicate Stale(row: Row, now: Time) {
    row.state.Paused? && row.pausedAt.Some? && row.pausedAt.value <= now - DAY
  }

  /** A running session whose end has come. */
  predicate Elapsed(row: Row, now: Time) {
    (row.state.Open? || row.state.Together?) && row.endsAt <= now
  }

  predicate Due(row: Row, now: Time) {
    Stale(row, now) || Elapsed(row, now)
  }

  /** What the lazy sweep makes of a due row. It does not mention the time of the sweep. */
  function SweptRow(row: Row): Row {
    if row.state.Paused? then
      row.(state := Expired, pauseOrigin := None, pausedAt := None, version := row.version + 1)
    else
      row.(state := Completed, completedAt := Some(row.endsAt), version := row.version + 1)
  }

  /** Time left before clamping: a paused session shows its clock at the moment of the pause. */
  function RawRemaining(row: Row, now: Time): Time {
    row.endsAt - (if row.state.Paused? && row.pausedAt.Some? then row.pausedAt.value else now)
  }

  function RemainingAt(row: Row, now: Time): (left: Time)
    ensures left >= 0
  {
    var raw := RawRemaining(row, now);
    if raw < 0 then 0 else raw
  }
}
