/** Commands, results and replies of the sync endpoint, and how each side turns one into the other. */
module SyncMessages {
  import opened Domain
  import opened Tables
  import opened Reducer

  datatype CommandKind =
    | StartCommand | ImportCommand | ActCommand(action: Action) | NoteCommand | CheerCommand | UnknownCommand

  /** The JSON payload: absent, with the fields of an offline session, with a text, or without any of them. */
  datatype Body = NoBody | SoloBody(startedAt: Time, completedAt: Time) | TextBody(text: string) | OtherBody

  datatype Command = Command(id: Uuid, kind: CommandKind, entity: Option<Uuid>, expected: Option<int>, body: Body)

  datatype Code =
    | NotFoundCode | ConflictCode | VersionCode | ActiveSessionCode | CooldownCode | PairedCode
    | ValidationCode | InvalidCommandCode | UnsupportedCode

  datatype Result = Applied(id: Uuid, resource: Response) | Rejected(id: Uuid, code: Code)

  datatype Reply = Reply(results: seq<Result>, events: seq<Event>, current: Option<FocusSession>, next: nat,
                         hasMore: bool)

  /** The zero time that an absent JSON field decodes to: the first of January of year 1. */
  const ZERO_TIME: Time := -62_135_596_800 * SECOND

  const PAGE: nat := 200
  const BATCH: nat := 100

  /** What the dispatcher makes of a command: a refusal, or a store call. */
  datatype Plan = Refuse(code: Code) | Perform(call: Call)

  function PlanOf(who: Identity, command: Command, freshSid: Uuid, freshId: Uuid): Plan {
    if command.id == NIL then Refuse(InvalidCommandCode)
    else
      match command.kind
      case StartCommand =>
        var given := command.entity.Some? && command.entity.value != NIL;
        Perform(CStart(who, command.id, if given then command.entity.value else freshSid))
      case ImportCommand =>
        if command.entity.None? || command.entity.value == NIL || command.body.NoBody? then Refuse(ValidationCode)
        else if command.body.SoloBody?
        then Perform(CImport(who, command.id, command.entity.value, command.body.startedAt, command.body.completedAt))
        else Perform(CImport(who, command.id, command.entity.value, ZERO_TIME, ZERO_TIME))
      case ActCommand(action) =>
        if action.Expire? then Refuse(UnsupportedCode)
        else if command.entity.None? || command.expected.None? || command.expected.value < 1 then Refuse(ValidationCode)
        else Perform(CTransition(who, command.id, command.entity.value, command.expected.value, action))
      case NoteCommand =>
        if command.entity.None? || !command.body.TextBody? || !(1 <= |command.body.text| <= 120)
        then Refuse(ValidationCode)
        else Perform(CNote(who, command.id, command.entity.value, freshId, command.body.text))
      case CheerCommand =>
        if command.entity.None? then Refuse(ValidationCode)
        else Perform(CCheer(who, command.id, command.entity.value, freshId))
      case UnknownCommand => Refuse(UnsupportedCode)
  }

  /** A note whose text the database refuses. */
  predicate HoldsNul(command: Command) {
    command.kind.NoteCommand? && command.body.TextBody? && NUL in command.body.text
  }

  /** The client error for a store error; nothing for those that become a status of 500. */
  function CodeOf(error: Error): Option<Code> {
    match error
    case NotFound => Some(NotFoundCode)
    case Conflict => Some(ConflictCode)
    case Unique => Some(ConflictCode)
    case Version => Some(VersionCode)
    case ActiveSession => Some(ActiveSessionCode)
    case Cooldown => Some(CooldownCode)
    case AlreadyPaired => Some(PairedCode)
    case Internal => None
  }

  /** The result line for an answer; nothing when the whole request must fail. */
  function ResultOf(id: Uuid, answer: Outcome): Option<Result> {
    match answer
    case Ok(response, _) => Some(Applied(id, response))
    case Failed(error) => if CodeOf(error).Some? then Some(Rejected(id, CodeOf(error).value)) else None
    case Current(_) => None
    case Done => None
  }

  /** One command at the server: the new tables and its result line. */
  ghost function Serve(db: Core, who: Identity, command: Command, freshSid: Uuid, freshId: Uuid, now: Time)
    : (Core, Option<Result>)
  {
    match PlanOf(who, command, freshSid, freshId)
    case Refuse(code) => (db, Some(Rejected(command.id, code)))
    case Perform(call) =>
      var (db', answer) := Execute(db, call, now);
      (db', ResultOf(command.id, answer))
  }

  /** A batch of commands in order; nothing when one of them makes the whole request fail. */
  ghost function ServeAll(db: Core, who: Identity, commands: seq<Command>, drawn: seq<(Uuid, Uuid)>, now: Time)
    : (Core, Option<seq<Result>>)
    requires |drawn| == |commands|
  {
    if |commands| == 0 then (db, Some([]))
    else
      var n := |commands| - 1;
      var (db1, results) := ServeAll(db, who, commands[..n], drawn[..n], now);
      if results.None? then (db1, None)
      else
        var (db2, r) := Serve(db1, who, commands[n], drawn[n].0, drawn[n].1, now);
        (db2, if r.None? then None else Some(results.value + [r.value]))
  }

  // ---------------------------------------------------------------- the phone

  datatype Entry = Entry(command: Command, createdAt: Time, attempts: nat, retryAt: Option<Time>)

  type Outbox = map<Uuid, Entry>

  datatype Client = Client(local: Local, outbox: Outbox, cursor: nat)

  predicate Eligible(e: Entry, now: Time) {
    e.retryAt.None? || e.retryAt.value <= now
  }

  /** The first eligible commands by age, up to a limit; ties in any order. */
  ghost predicate IsPending(outbox: Outbox, now: Time, limit: nat, batch: seq<Command>) {
    |batch| <= limit &&
    (forall i :: 0 <= i < |batch| ==>
       batch[i].id in outbox && outbox[batch[i].id].command == batch[i] && Eligible(outbox[batch[i].id], now)) &&
    (forall i, j :: 0 <= i < j < |batch| ==>
       batch[i].id != batch[j].id && outbox[batch[i].id].createdAt <= outbox[batch[j].id].createdAt) &&
    (forall id :: id in outbox && Eligible(outbox[id], now) ==>
       InBatch(batch, id) ||
       (|batch| == limit && forall i :: 0 <= i < |batch| ==> outbox[batch[i].id].createdAt <= outbox[id].createdAt))
  }

  ghost predicate IsBatch(outbox: Outbox, now: Time, batch: seq<Command>) {
    IsPending(outbox, now, BATCH, batch)
  }

  predicate InBatch(batch: seq<Command>, id: Uuid) {
    exists i :: 0 <= i < |batch| && batch[i].id == id
  }

  const RETRY_DELAY: Time := 5 * SECOND

  function MarkFailed(outbox: Outbox, id: Uuid, now: Time): Outbox {
    if id in outbox
    then outbox[id := outbox[id].(attempts := outbox[id].attempts + 1, retryAt := Some(now + RETRY_DELAY))]
    else outbox
  }

  function ApplyResult(client: Client, result: Result, now: Time): Client {
    match result
    case Applied(id, resource) =>
      client.(local := if resource.SessionResponse? then Upsert(client.local, resource.session) else client.local,
              outbox := client.outbox - {id})
    case Rejected(id, code) =>
      client.(outbox := if code.CooldownCode? then MarkFailed(client.outbox, id, now) else client.outbox - {id})
  }

  function ApplyResults(client: Client, results: seq<Result>, now: Time): Client {
    if |results| == 0 then client
    else ApplyResult(ApplyResults(client, results[..|results| - 1], now), results[|results| - 1], now)
  }

  /** The local transaction that a reply triggers: results, then events, then the current session, then the cursor. */
  function Receive(client: Client, reply: Reply, now: Time): Client {
    var settled := ApplyResults(client, reply.results, now);
    var folded := Fold(settled.local, reply.events);
    Client(if reply.current.Some? then Upsert(folded, reply.current.value) else folded, settled.outbox, reply.next)
  }

  ghost predicate Distinct(results: seq<Result>) {
    forall i, j :: 0 <= i < j < |results| ==> results[i].id != results[j].id
  }

  /** The result line of a command, if there is one. */
  ghost function ResultFor(results: seq<Result>, id: Uuid): Option<Result> {
    if exists i :: 0 <= i < |results| && results[i].id == id
    then var i :| 0 <= i < |results| && results[i].id == id; Some(results[i])
    else None
  }

  /** A refusal that the phone retries later. */
  predicate Deferred(r: Result) {
    r.Rejected? && r.code.CooldownCode?
  }

  /** What the results of a batch do to the outbox: settled commands go, deferred ones wait, others stay. */
  lemma {:induction false} ResultsSettle(client: Client, results: seq<Result>, now: Time, id: Uuid)
    requires Distinct(results)
    ensures var after := ApplyResults(client, results, now).outbox; var r := ResultFor(results, id);
            if r.None? then (id in after <==> id in client.outbox) && (id in after ==> after[id] == client.outbox[id])
            else if Deferred(r.value) then
              (id in after <==> id in client.outbox) &&
              (id in after ==>
                 after[id].command == client.outbox[id].command && after[id].createdAt == client.outbox[id].createdAt &&
                 after[id].attempts == client.outbox[id].attempts + 1 && after[id].retryAt == Some(now + 5_000_000))
            else id !in after
  {
    if |results| > 0 {
      var n := |results| - 1;
      ResultsSettle(client, results[..n], now, id);
      if results[n].id == id {
        assert ResultFor(results[..n], id).None?;
      } else if i :| 0 <= i < |results| && results[i].id == id {
        assert results[..n][i].id == id;
        assert ResultFor(results[..n], id) == ResultFor(results, id);
      } else {
        assert ResultFor(results[..n], id).None?;
      }
    }
  }

  /** Results only write sessions that they carry. */
  lemma {:induction false} ResultsWriteOwn(client: Client, results: seq<Result>, now: Time, id: Uuid)
    requires Keyed(client.local)
    requires forall i :: 0 <= i < |results| && results[i].Applied? && results[i].resource.SessionResponse? ==>
               results[i].resource.session.id != id
    ensures var after := ApplyResults(client, results, now).local;
            (id in after <==> id in client.local) && (id in after ==> after[id] == client.local[id])
  {
    if |results| > 0 {
      ResultsWriteOwn(client, results[..|results| - 1], now, id);
    }
  }

  lemma {:induction false} ResultsKeyed(client: Client, results: seq<Result>, now: Time)
    requires Keyed(client.local)
    ensures Keyed(ApplyResults(client, results, now).local)
  {
    if |results| > 0 {
      ResultsKeyed(client, results[..|results| - 1], now);
    }
  }
}
