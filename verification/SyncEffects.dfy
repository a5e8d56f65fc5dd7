/** What each command of a phone does at the server, and what the phone is told of it, said of the tables alone. */
module SyncEffects {
  import opened Domain
  import opened Timeline
  import opened Tables
  import opened StoreInvariant
  import opened StoreRuns
  import opened SyncMessages
  import opened Effects

  /** The first of January of year 1, in microseconds before 1970. */
  const YEAR_ONE: Time := -62_135_596_800_000_000

  /** The result line for an answer of the store; nothing when the whole request fails. */
  predicate Reports(id: Uuid, answer: Outcome, result: Option<Result>) {
    match answer
    case Ok(response, _) => result == Some(Applied(id, response))
    case Failed(NotFound) => result == Some(Rejected(id, NotFoundCode))
    case Failed(Conflict) => result == Some(Rejected(id, ConflictCode))
    case Failed(Unique) => result == Some(Rejected(id, ConflictCode))
    case Failed(Version) => result == Some(Rejected(id, VersionCode))
    case Failed(ActiveSession) => result == Some(Rejected(id, ActiveSessionCode))
    case Failed(Cooldown) => result == Some(Rejected(id, CooldownCode))
    case Failed(AlreadyPaired) => result == Some(Rejected(id, PairedCode))
    case Failed(Internal) => result == None
    case _ => result == None
  }

  /** The field checks that a command fails, by its kind. */
  predicate FieldsFail(command: Command, code: Code) {
    if command.id == 0 then code == InvalidCommandCode
    else
      match command.kind
      case StartCommand => false
      case ImportCommand =>
        code == ValidationCode &&
        (command.entity.None? || command.entity == Some(0) || command.body.NoBody?)
      case ActCommand(action) =>
        if action.Expire? then code == UnsupportedCode
        else
          code == ValidationCode && (command.entity.None? || command.expected.None? || command.expected.value <= 0)
      case NoteCommand =>
        code == ValidationCode &&
        (command.entity.None? || !command.body.TextBody? || |command.body.text| == 0 || |command.body.text| > 120)
      case CheerCommand => code == ValidationCode && command.entity.None?
      case UnknownCommand => code == UnsupportedCode
  }

  /** The session a command is about: a start may leave the choice to the server. */
  function Target(command: Command, freshSid: Uuid): Uuid {
    if command.kind.StartCommand? && (command.entity.None? || command.entity == Some(0)) then freshSid
    else if command.entity.Some? then command.entity.value
    else 0
  }

  /** The times of an import: those of the payload, or the zero time for a payload without them. */
  function ImportTimes(body: Body): (Time, Time) {
    if body.SoloBody? then (body.startedAt, body.completedAt) else (YEAR_ONE, YEAR_ONE)
  }

  /** What a command whose fields pass, and whose key is new, does to the tables and answers. */
  ghost predicate CommandDoes(db: Core, who: Identity, command: Command, freshSid: Uuid, freshId: Uuid, now: Time,
                              db': Core, answer: Outcome) {
    var sid := Target(command, freshSid);
    match command.kind
    case StartCommand => StartDoes(db, who, command.id, sid, now, db', answer)
    case ImportCommand =>
      var (startedAt, completedAt) := ImportTimes(command.body);
      ImportDoes(db, who, command.id, sid, startedAt, completedAt, now, db', answer)
    case ActCommand(action) =>
      command.expected.Some? &&
      TransitionDoes(db, who, command.id, sid, command.expected.value, action, now, db', answer)
    case NoteCommand =>
      command.body.TextBody? && NoteDoes(db, who, command.id, sid, freshId, command.body.text, now, db', answer)
    case CheerCommand => CheerDoes(db, who, command.id, sid, freshId, now, db', answer)
    case UnknownCommand => false
  }

  /** One command at the server: refused for its fields, or carried out and reported. */
  ghost predicate ServedAs(db: Core, who: Identity, command: Command, freshSid: Uuid, freshId: Uuid, now: Time,
                           db': Core, result: Option<Result>) {
    if exists code :: FieldsFail(command, code)
    then db' == db && exists code :: FieldsFail(command, code) && result == Some(Rejected(command.id, code))
    else
      exists answer :: CommandDoes(db, who, command, freshSid, freshId, now, db', answer) &&
                       Reports(command.id, answer, result)
  }

  // ---------------------------------------------------------------- the dispatcher does that

  lemma FieldsDecide(who: Identity, command: Command, freshSid: Uuid, freshId: Uuid, code: Code)
    ensures FieldsFail(command, code) <==> PlanOf(who, command, freshSid, freshId) == Refuse(code)
  {
  }

  /** The call a command becomes is described by the command itself. */
  lemma PlannedCall(db: Core, who: Identity, command: Command, freshSid: Uuid, freshId: Uuid, now: Time,
                    db': Core, answer: Outcome)
    requires PlanOf(who, command, freshSid, freshId).Perform?
    ensures var call := PlanOf(who, command, freshSid, freshId).call;
            call.Keyed() && call.KeyOf() == (who.account, command.id) &&
            (Does(db, call, now, db', answer) <==> CommandDoes(db, who, command, freshSid, freshId, now, db', answer))
  {
    hide StartDoes, ImportDoes, TransitionDoes, NoteDoes, CheerDoes;
  }

  lemma ReportsIs(id: Uuid, answer: Outcome, result: Option<Result>)
    ensures Reports(id, answer, result) <==> result == ResultOf(id, answer)
  {
  }

  /** Serving a command that is not a retry is exactly this, in every reachable state. */
  lemma ServeMeans(db: Core, t: Time, who: Identity, command: Command, freshSid: Uuid, freshId: Uuid, now: Time,
                   db': Core, result: Option<Result>)
    requires Inv(db, t) && t <= now && (who.account, command.id) !in db.keys
    ensures ServedAs(db, who, command, freshSid, freshId, now, db', result) <==>
            (db', result) == Serve(db, who, command, freshSid, freshId, now)
  {
    hide Inv, FieldsFail, PlanOf, Execute, Does, CommandDoes, Reports;
    forall code ensures FieldsFail(command, code) <==> PlanOf(who, command, freshSid, freshId) == Refuse(code) {
      FieldsDecide(who, command, freshSid, freshId, code);
    }
    var plan := PlanOf(who, command, freshSid, freshId);
    if plan.Refuse? {
      assert FieldsFail(command, plan.code);
    } else {
      PerformMeans(db, t, who, command, freshSid, freshId, now, db', result);
    }
  }

  lemma ServeDoes(db: Core, t: Time, who: Identity, command: Command, freshSid: Uuid, freshId: Uuid, now: Time)
    requires Inv(db, t) && t <= now && (who.account, command.id) !in db.keys
    ensures var (db', result) := Serve(db, who, command, freshSid, freshId, now);
            ServedAs(db, who, command, freshSid, freshId, now, db', result)
  {
    var (db', result) := Serve(db, who, command, freshSid, freshId, now);
    hide *;
    ServeMeans(db, t, who, command, freshSid, freshId, now, db', result);
  }

  lemma PerformMeans(db: Core, t: Time, who: Identity, command: Command, freshSid: Uuid, freshId: Uuid, now: Time,
                     db': Core, result: Option<Result>)
    requires Inv(db, t) && t <= now && (who.account, command.id) !in db.keys
    requires PlanOf(who, command, freshSid, freshId).Perform?
    ensures (exists answer :: CommandDoes(db, who, command, freshSid, freshId, now, db', answer) &&
                              Reports(command.id, answer, result)) <==>
            (db', result) == Serve(db, who, command, freshSid, freshId, now)
  {
    hide Inv, PlanOf, Execute, Does, CommandDoes, Reports;
    var call := PlanOf(who, command, freshSid, freshId).call;
    forall answer
      ensures CommandDoes(db, who, command, freshSid, freshId, now, db', answer) <==>
              (db', answer) == Execute(db, call, now)
      ensures Reports(command.id, answer, result) <==> result == ResultOf(command.id, answer)
    {
      PlannedCall(db, who, command, freshSid, freshId, now, db', answer);
      DoesMeans(db, t, call, now, db', answer);
      ReportsIs(command.id, answer, result);
    }
    var answer := Execute(db, call, now).1;
    if (db', result) == Serve(db, who, command, freshSid, freshId, now) {
      assert CommandDoes(db, who, command, freshSid, freshId, now, db', answer) && Reports(command.id, answer, result);
    }
  }

  // ---------------------------------------------------------------- an applied command

  /** The event a command leaves: on its session, by its caller, and with what its kind names. */
  ghost predicate Leaves(db: Core, who: Identity, command: Command, freshSid: Uuid, freshId: Uuid, now: Time,
                         e: Event) {
    var sid := Target(command, freshSid);
    who.pair.Some? && e.pair == who.pair.value && e.entity == sid && e.actor == Some(who.account) && e.at == now &&
    match command.kind
    case StartCommand =>
      e.etype == SessionStarted && e.payload.SessionData? &&
      NewlyStarted(e.payload.session, e.pair, who.account, sid, now)
    case ImportCommand =>
      var (startedAt, completedAt) := ImportTimes(command.body);
      e.etype == SessionCompleted && e.payload.SessionData? &&
      NewlyImported(e.payload.session, e.pair, who.account, sid, startedAt, completedAt)
    case ActCommand(action) =>
      e.etype == SessionDone(action) && e.payload.SessionData? && e.payload.session.id == sid &&
      MovedIn(db, e.payload.session, action, who.account, now)
    case NoteCommand =>
      command.body.TextBody? && e.etype == NoteAdded &&
      e.payload == NoteData(Note(freshId, who.account, command.body.text, now))
    case CheerCommand => e.etype == Cheered && e.payload == CheerData(freshId, now)
    case UnknownCommand => false
  }

  /** What the caller is told is what the event records. */
  predicate Carries(e: Event, response: Response) {
    match response
    case SessionResponse(session) => e.payload == SessionData(session)
    case NoteResponse(note) => e.payload == NoteData(note)
    case CheerResponse(id, createdAt) => e.payload == CheerData(id, createdAt)
  }

  /** One event is new; only a start may have found another session overdue, and then that one's event precedes it. */
  predicate OneNewEvent(db: Core, db': Core, command: Command) {
    |db'.log| > |db.log| && db.log <= db'.log &&
    (|db'.log| == |db.log| + 1 ||
     (command.kind.StartCommand? && |db'.log| == |db.log| + 2 && db'.log[|db.log|].actor.None?))
  }

  lemma StartLeaves(db: Core, who: Identity, key: Uuid, sid: Uuid, now: Time, db': Core, answer: Outcome)
    requires Starts(db, db', who, key, sid, now, answer)
    ensures answer.Ok? && |db.log| < |db'.log| <= |db.log| + 2 && db.log <= db'.log
    ensures |db'.log| == |db.log| + 2 ==> db'.log[|db.log|].actor.None?
    ensures var e := db'.log[|db'.log| - 1];
            who.pair.Some? && e.pair == who.pair.value && e.entity == sid && e.actor == Some(who.account) &&
            e.at == now && e.etype == SessionStarted && e.payload.SessionData? &&
            NewlyStarted(e.payload.session, e.pair, who.account, sid, now) && Carries(e, answer.response)
  {
    hide SweptTo, OtherSessionsSame, Overdue, RanOut;
    var swept: Core, fs: FocusSession :|
      Sweeps(db, swept, who.pair.value, now) && NewlyStarted(fs, who.pair.value, who.account, sid, now) &&
      Writes(swept, db', who, key, OpStart, SessionStarted, fs, now, answer);
    assert |swept.log| <= |db.log| + 1 && db.log <= swept.log;
  }

  lemma DoneLeaves(db: Core, who: Identity, command: Command, freshSid: Uuid, freshId: Uuid, now: Time,
                   db': Core, answer: Outcome)
    requires CommandDoes(db, who, command, freshSid, freshId, now, db', answer) && answer.Ok?
    ensures OneNewEvent(db, db', command) && Carries(db'.log[|db'.log| - 1], answer.response)
    ensures Leaves(db, who, command, freshSid, freshId, now, db'.log[|db'.log| - 1])
  {
    hide OtherSessionsSame, Moved, Free, Permits, CheeredSince;
    if command.kind.StartCommand? {
      hide Starts, NewlyStarted;
      StartLeaves(db, who, command.id, Target(command, freshSid), now, db', answer);
    } else {
      hide StartDoes, NewlyImported;
    }
  }

  /**
   An applied command has left exactly one event: on the session it names, by its caller, and with the state,
   the times or the text that its kind and payload name. The phone is told what that event records.
   */
  lemma AppliedLeaves(db: Core, t: Time, who: Identity, command: Command, freshSid: Uuid, freshId: Uuid, now: Time)
    requires Inv(db, t) && t <= now && (who.account, command.id) !in db.keys
    requires var r := Serve(db, who, command, freshSid, freshId, now).1; r.Some? && r.value.Applied?
    ensures var (db', r) := Serve(db, who, command, freshSid, freshId, now);
            OneNewEvent(db, db', command) && Leaves(db, who, command, freshSid, freshId, now, db'.log[|db'.log| - 1]) &&
            Carries(db'.log[|db'.log| - 1], r.value.resource)
  {
    var (db', r) := Serve(db, who, command, freshSid, freshId, now);
    hide *;
    ServeMeans(db, t, who, command, freshSid, freshId, now, db', r);
    ServedLeaves(db, who, command, freshSid, freshId, now, db', r);
  }

  lemma ServedLeaves(db: Core, who: Identity, command: Command, freshSid: Uuid, freshId: Uuid, now: Time,
                     db': Core, r: Option<Result>)
    requires ServedAs(db, who, command, freshSid, freshId, now, db', r) && r.Some? && r.value.Applied?
    ensures OneNewEvent(db, db', command) && Leaves(db, who, command, freshSid, freshId, now, db'.log[|db'.log| - 1])
    ensures Carries(db'.log[|db'.log| - 1], r.value.resource)
  {
    hide CommandDoes, FieldsFail, Leaves, OneNewEvent, Carries;
    var answer :| CommandDoes(db, who, command, freshSid, freshId, now, db', answer) && Reports(command.id, answer, r);
    DoneLeaves(db, who, command, freshSid, freshId, now, db', answer);
  }

  /** A command is refused as malformed, invalid or unsupported exactly when its fields say so, and changes nothing. */
  lemma FieldsRefuse(db: Core, t: Time, who: Identity, command: Command, freshSid: Uuid, freshId: Uuid, now: Time,
                     code: Code)
    requires Inv(db, t) && t <= now && (who.account, command.id) !in db.keys
    requires code.InvalidCommandCode? || code.UnsupportedCode? || code.ValidationCode?
    ensures Serve(db, who, command, freshSid, freshId, now).1 == Some(Rejected(command.id, code)) <==>
            FieldsFail(command, code)
    ensures FieldsFail(command, code) ==> Serve(db, who, command, freshSid, freshId, now).0 == db
  {
    var (db', r) := Serve(db, who, command, freshSid, freshId, now);
    hide *;
    ServeMeans(db, t, who, command, freshSid, freshId, now, db', r);
    ServedRefuses(db, who, command, freshSid, freshId, now, db', r, code);
  }

  lemma ServedRefuses(db: Core, who: Identity, command: Command, freshSid: Uuid, freshId: Uuid, now: Time,
                      db': Core, r: Option<Result>, code: Code)
    requires ServedAs(db, who, command, freshSid, freshId, now, db', r)
    requires code.InvalidCommandCode? || code.UnsupportedCode? || code.ValidationCode?
    ensures r == Some(Rejected(command.id, code)) <==> FieldsFail(command, code)
    ensures FieldsFail(command, code) ==> db' == db
  {
    OneFieldCode(command);
    hide CommandDoes, FieldsFail;
  }

  lemma OneFieldCode(command: Command)
    ensures forall a, b :: FieldsFail(command, a) && FieldsFail(command, b) ==> a == b
  {
  }
}
