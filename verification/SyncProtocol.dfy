/**
 The whole protocol as a state machine: one phone, the server, everybody else, and a network that may
 lose any request or response at any point. Every transaction of the server is a step of its own, so
 other callers run between the commands of a batch.
 */
module SyncProtocol {
  import opened Domain
  import opened Timeline
  import opened Tables
  import opened Reducer
  import opened StoreInvariant
  import opened StoreRuns
  import opened Paging
  import opened SyncMessages

  /** How far a request has come. A request that is lost, or fails with status 500, leaves this for Idle. */
  datatype Phase =
    | Idle
    | Serving(batch: seq<Command>, results: seq<Result>)
    | HaveCurrent(batch: seq<Command>, results: seq<Result>, current: Option<FocusSession>)
    | Replying(batch: seq<Command>, reply: Reply)

  /** What the phone was told about a command: nothing final yet, applied, or refused. */
  datatype Fate = Waiting | Accepted | Refused

  /**
   The last five fields only record what happened: commits that took effect, whether the reads of this
   request were torn, committed commands that some batch left out, committed commands that a serialization
   failure has refused, and committed commands that were retried after their keys had expired.
   */
  datatype World = World(
    account: Uuid,
    pair: Uuid,
    core: Core,
    cursors: seq<nat>,
    clock: Time,
    client: Client,
    device: Time,
    phase: Phase,
    fate: map<Uuid, Fate>,
    commits: multiset<(Uuid, Uuid)>,
    torn: bool,
    missed: set<Uuid>,
    denied: set<Uuid>,
    lapsed: set<Uuid>)

  function Me(w: World): Identity {
    Identity(w.account, Some(w.pair))
  }

  function Mine(w: World, id: Uuid): (Uuid, Uuid) {
    (w.account, id)
  }

  ghost predicate Initial(w: World) {
    w.core == EMPTY && w.cursors == [] && w.client == Client(map[], map[], 0) &&
    w.phase == Idle && w.fate == map[] && w.commits == multiset{} && !w.torn && w.missed == {} && w.denied == {} &&
    w.lapsed == {}
  }

  // ---------------------------------------------------------------- steps

  /** One transaction at the server; new events get larger cursors. `commits` counts what really took effect. */
  ghost predicate Transact(w: World, w': World, call: Call, now: Time) {
    var (core', answer) := Execute(w.core, call, now);
    w.clock <= now && w'.clock == now && w'.core == core' &&
    w.cursors <= w'.cursors && Numbered(core'.log, w'.cursors) &&
    w'.commits == if answer.Ok? && !answer.replayed then w.commits + multiset{call.KeyOf()} else w.commits
  }

  ghost predicate SamePhone(w: World, w': World) {
    w'.account == w.account && w'.pair == w.pair && w'.client == w.client && w'.device == w.device && w'.fate == w.fate
  }

  ghost predicate SameRecord(w: World, w': World) {
    w'.torn == w.torn && w'.missed == w.missed && w'.denied == w.denied && w'.lapsed == w.lapsed
  }

  ghost predicate SameServer(w: World, w': World) {
    w'.account == w.account && w'.pair == w.pair && w'.core == w.core && w'.cursors == w.cursors &&
    w'.clock == w.clock && w'.commits == w.commits
  }

  /** Somebody else calls the server: never with a key this phone has issued. */
  ghost predicate OtherCalls(w: World, w': World, call: Call, now: Time) {
    Transact(w, w', call, now) && SamePhone(w, w') && SameRecord(w, w') && w'.phase == w.phase &&
    (call.Keyed() ==> forall id :: id in w.fate ==> call.KeyOf() != Mine(w, id))
  }

  /** A command enters the outbox under a fresh identifier. */
  ghost predicate Enqueue(w: World, w': World, command: Command, createdAt: Time) {
    SameServer(w, w') && w'.device == w.device && w'.phase == w.phase && SameRecord(w, w') &&
    command.id !in w.fate && Mine(w, command.id) !in w.core.keys &&
    w'.client == w.client.(outbox := w.client.outbox[command.id := Entry(command, createdAt, 0, None)]) &&
    w'.fate == w.fate[command.id := Waiting]
  }

  /**
   The repository writes or deletes a local session outside the sync engine: only sessions the server
   does not have, such as offline ones and optimistic starts.
   */
  ghost predicate WriteLocally(w: World, w': World, id: Uuid, fs: Option<FocusSession>) {
    SameServer(w, w') && w'.device == w.device && w'.phase == w.phase && SameRecord(w, w') && w'.fate == w.fate &&
    id !in w.core.sessions && (fs.Some? ==> fs.value.id == id) &&
    w'.client == w.client.(local := if fs.Some? then w.client.local[id := fs.value] else w.client.local - {id})
  }

  /** The history screen copies completed sessions of the pair from the server. */
  ghost predicate RefreshHistory(w: World, w': World, ids: set<Uuid>) {
    SameServer(w, w') && w'.device == w.device && w'.phase == w.phase && SameRecord(w, w') && w'.fate == w.fate &&
    (forall id :: id in ids ==>
       id in w.core.sessions && w.core.sessions[id].pair == w.pair && w.core.sessions[id].state.Completed?) &&
    w'.client == w.client.(local := w.client.local + map id | id in ids :: Read(w.core, id))
  }

  /** The commands that have committed without the phone knowing, can still be answered, and are not in the batch. */
  ghost function LeftOut(w: World, batch: seq<Command>): set<Uuid> {
    set id | id in w.client.outbox && Mine(w, id) in w.core.keys && id !in w.lapsed && !InBatch(batch, id)
  }

  ghost predicate Covers(w: World, batch: seq<Command>) {
    LeftOut(w, batch) == {}
  }

  /** A request leaves with the pending commands. */
  ghost predicate Send(w: World, w': World, batch: seq<Command>, now: Time) {
    SameServer(w, w') && w'.client == w.client && w'.fate == w.fate && w.phase.Idle? &&
    w.device <= now && w'.device == now && IsBatch(w.client.outbox, now, batch) &&
    w'.phase == Serving(batch, []) && w'.torn == w.torn && w'.denied == w.denied &&
    w'.lapsed == w.lapsed && w'.missed == w.missed + LeftOut(w, batch)
  }

  /** The next command has committed before, and its key has expired since. */
  ghost predicate Lapses(w: World, now: Time) {
    w.phase.Serving? && |w.phase.results| < |w.phase.batch| &&
    var key := Mine(w, w.phase.batch[|w.phase.results|].id);
    key in w.core.keys && w.core.keys[key].expiresAt <= now
  }

  /** The server serves the next command. */
  ghost predicate ServeNext(w: World, w': World, freshSid: Uuid, freshId: Uuid, now: Time) {
    w.phase.Serving? && |w.phase.results| < |w.phase.batch| && SamePhone(w, w') &&
    var command := w.phase.batch[|w.phase.results|];
    match PlanOf(Me(w), command, freshSid, freshId)
    case Refuse(code) =>
      SameServer(w, w') && SameRecord(w, w') &&
      w'.phase == Serving(w.phase.batch, w.phase.results + [Rejected(command.id, code)])
    case Perform(call) =>
      Transact(w, w', call, now) &&
      w'.torn == w.torn && w'.missed == w.missed && w'.denied == w.denied &&
      w'.lapsed == w.lapsed + (if Lapses(w, now) then {command.id} else {}) &&
      var r := ResultOf(command.id, Execute(w.core, call, now).1);
      w'.phase == if r.Some? then Serving(w.phase.batch, w.phase.results + [r.value]) else Idle
  }

  /** The transaction of the next command fails to serialize: status 409, and the request goes on. */
  ghost predicate Deny(w: World, w': World) {
    w.phase.Serving? && |w.phase.results| < |w.phase.batch| && SamePhone(w, w') && SameServer(w, w') &&
    var command := w.phase.batch[|w.phase.results|];
    PlanOf(Me(w), command, NIL, NIL).Perform? &&
    w'.phase == Serving(w.phase.batch, w.phase.results + [Rejected(command.id, VersionCode)]) &&
    w'.torn == w.torn && w'.missed == w.missed && w'.lapsed == w.lapsed &&
    w'.denied == w.denied + if Mine(w, command.id) in w.core.keys then {command.id} else {}
  }

  /** All commands are served; the server sweeps and reads the current session. */
  ghost predicate ReadCurrent(w: World, w': World, now: Time) {
    w.phase.Serving? && |w.phase.results| == |w.phase.batch| && SamePhone(w, w') &&
    Transact(w, w', CCurrent(Me(w)), now) && SameRecord(w, w') &&
    Execute(w.core, CCurrent(Me(w)), now).1.Current? &&
    w'.phase == HaveCurrent(w.phase.batch, w.phase.results, Execute(w.core, CCurrent(Me(w)), now).1.session)
  }

  /** The current session is still what the first read saw. */
  ghost predicate Untorn(core: Core, current: Option<FocusSession>) {
    current.Some? ==> current.value.id in core.sessions && SameRow(current.value, Read(core, current.value.id))
  }

  /** The second read: the page of events. */
  ghost predicate ReadEvents(w: World, w': World, events: seq<Event>, next: nat) {
    w.phase.HaveCurrent? && SamePhone(w, w') && SameServer(w, w') && |w.cursors| == |w.core.log| &&
    IsPage(w.core.log, w.cursors, w.pair, w.client.cursor, PAGE, events, next) &&
    w'.phase == Replying(w.phase.batch, Reply(w.phase.results, events, w.phase.current, next, |events| == PAGE)) &&
    w'.torn == !Untorn(w.core, w.phase.current) && w'.missed == w.missed && w'.denied == w.denied &&
    w'.lapsed == w.lapsed
  }

  /** The reply arrives and is applied in one local transaction. */
  ghost predicate Deliver(w: World, w': World, now: Time) {
    w.phase.Replying? && SameServer(w, w') && SameRecord(w, w') && w.device <= now && w'.device == now &&
    w'.phase == Idle &&
    w'.client == Receive(w.client, w.phase.reply, now) && w'.fate == Told(w.fate, w.phase.reply.results)
  }

  /** What the phone knows after reading the results. */
  ghost function Told(fate: map<Uuid, Fate>, results: seq<Result>): map<Uuid, Fate> {
    map id | id in fate ::
      var r := ResultFor(results, id);
      if r.None? || Deferred(r.value) then fate[id]
      else if r.value.Applied? then Accepted else Refused
  }

  /** The request or its response is lost, or answered with status 500. */
  ghost predicate Lose(w: World, w': World) {
    SamePhone(w, w') && SameServer(w, w') && w'.phase == Idle && SameRecord(w, w')
  }

  datatype Step =
    | OtherCallsStep(call: Call, now: Time)
    | EnqueueStep(command: Command, createdAt: Time)
    | WriteLocallyStep(id: Uuid, fs: Option<FocusSession>)
    | RefreshHistoryStep(ids: set<Uuid>)
    | SendStep(batch: seq<Command>, now: Time)
    | ServeNextStep(freshSid: Uuid, freshId: Uuid, now: Time)
    | DenyStep
    | ReadCurrentStep(now: Time)
    | ReadEventsStep(events: seq<Event>, next: nat)
    | DeliverStep(now: Time)
    | LoseStep

  ghost predicate Take(w: World, w': World, step: Step) {
    match step
    case OtherCallsStep(call, now) => OtherCalls(w, w', call, now)
    case EnqueueStep(command, createdAt) => Enqueue(w, w', command, createdAt)
    case WriteLocallyStep(id, fs) => WriteLocally(w, w', id, fs)
    case RefreshHistoryStep(ids) => RefreshHistory(w, w', ids)
    case SendStep(batch, now) => Send(w, w', batch, now)
    case ServeNextStep(freshSid, freshId, now) => ServeNext(w, w', freshSid, freshId, now)
    case DenyStep => Deny(w, w')
    case ReadCurrentStep(now) => ReadCurrent(w, w', now)
    case ReadEventsStep(events, next) => ReadEvents(w, w', events, next)
    case DeliverStep(now) => Deliver(w, w', now)
    case LoseStep => Lose(w, w')
  }

  // ---------------------------------------------------------------- the invariant

  /** A session of the pair has a snapshot that the phone has yet to see, or its local row is current. */
  ghost predicate Fresh(core: Core, cursors: seq<nat>, pair: Uuid, local: Local, cursor: nat, id: Uuid)
    requires |cursors| == |core.log|
  {
    SnapshotPast(core.log, cursors, pair, id, cursor) ||
    (id in core.sessions && id in local && SameRow(local[id], Read(core, id)))
  }

  /** A session as some event of the log recorded it. */
  ghost predicate Logged(log: seq<Event>, fs: FocusSession) {
    exists k :: 0 <= k < |History(log, fs.id)| && SameRow(History(log, fs.id)[k].session, fs)
  }

  /** Stored responses are recorded snapshots. */
  ghost predicate KeysLogged(core: Core) {
    forall key :: key in core.keys && core.keys[key].response.SessionResponse? ==>
      Logged(core.log, core.keys[key].response.session)
  }

  ghost predicate ServerOk(w: World) {
    Inv(w.core, w.clock) && KeysLogged(w.core) && Numbered(w.core.log, w.cursors) &&
    w.client.cursor <= Top(w.cursors) &&
    forall key :: w.commits[key] == if key in w.core.keys then 1 else 0
  }

  /** A stored response that carries a session: some snapshot of it is still ahead of the phone. */
  ghost predicate Ahead(w: World, response: Response)
    requires |w.cursors| == |w.core.log|
  {
    response.SessionResponse? ==>
      SnapshotPast(w.core.log, w.cursors, w.pair, response.session.id, w.client.cursor)
  }

  /** The stored key was saved by the very command, so that a retry will find it. */
  ghost predicate Explains(w: World, command: Command, row: KeyRow) {
    var plan := PlanOf(Me(w), command, NIL, NIL);
    plan.Perform? && plan.call.Keyed() && plan.call.KeyOf() == Mine(w, command.id) && plan.call.OpOf() == row.op &&
    (plan.call.CImport? ==> Importable(plan.call.startedAt, plan.call.completedAt, w.clock))
  }

  ghost predicate OutboxOk(w: World)
    requires |w.cursors| == |w.core.log|
  {
    forall id :: id in w.client.outbox ==>
      var e := w.client.outbox[id];
      e.command.id == id &&
      (Mine(w, id) in w.core.keys ==>
         Explains(w, e.command, w.core.keys[Mine(w, id)]) &&
         (id !in w.lapsed ==>
            Eligible(e, w.device) && (id !in w.missed ==> Ahead(w, w.core.keys[Mine(w, id)].response))))
  }

  /**
   A command waits exactly while it is in the outbox; accepted ones have committed, refused ones only if they
   were denied or have lapsed.
   */
  ghost predicate FatesOk(w: World) {
    (forall id :: id in w.client.outbox <==> id in w.fate && w.fate[id].Waiting?) &&
    (forall id :: id in w.fate && w.fate[id].Accepted? ==> Mine(w, id) in w.core.keys) &&
    (forall id :: id in w.fate && w.fate[id].Refused? && Mine(w, id) in w.core.keys ==> id in w.denied + w.lapsed) &&
    (forall id :: id in w.denied ==> id in w.fate && Mine(w, id) in w.core.keys) &&
    (forall id :: id in w.lapsed ==>
       id in w.fate && Mine(w, id) in w.core.keys && w.core.keys[Mine(w, id)].expiresAt <= w.clock)
  }

  ghost predicate BatchOk(w: World, batch: seq<Command>) {
    (forall i, j :: 0 <= i < j < |batch| ==> batch[i].id != batch[j].id) &&
    (forall i :: 0 <= i < |batch| ==>
       batch[i].id in w.client.outbox && w.client.outbox[batch[i].id].command == batch[i] &&
       Eligible(w.client.outbox[batch[i].id], w.device)) &&
    (forall id :: id in w.client.outbox && Mine(w, id) in w.core.keys ==>
       InBatch(batch, id) || id in w.missed + w.lapsed)
  }

  ghost predicate ResultsOk(w: World, batch: seq<Command>, results: seq<Result>)
    requires |w.cursors| == |w.core.log|
  {
    |results| <= |batch| &&
    forall i :: 0 <= i < |results| ==>
      results[i].id == batch[i].id &&
      (results[i].Applied? ==>
         Mine(w, results[i].id) in w.core.keys &&
         results[i].resource == w.core.keys[Mine(w, results[i].id)].response &&
         (results[i].id !in w.missed ==> Ahead(w, results[i].resource)) &&
         (results[i].resource.SessionResponse? ==> Logged(w.core.log, results[i].resource.session))) &&
      (results[i].Rejected? && Mine(w, results[i].id) in w.core.keys ==>
         (results[i].id in w.denied && results[i].code.VersionCode?) || results[i].id in w.lapsed)
  }

  ghost predicate OfPair(w: World, current: Option<FocusSession>) {
    current.Some? ==>
      current.value.id in w.core.sessions && w.core.sessions[current.value.id].pair == w.pair &&
      current.value.row.state.Active() && Logged(w.core.log, current.value)
  }

  ghost predicate ReplyOk(w: World, reply: Reply)
    requires Numbered(w.core.log, w.cursors)
  {
    reply.events == Visible(w.core.log, w.cursors, w.pair, w.client.cursor, reply.next) &&
    w.client.cursor <= reply.next <= Top(w.cursors) &&
    OfPair(w, reply.current) &&
    (!w.torn && reply.current.Some? ==>
       Fresh(w.core, w.cursors, w.pair, map[reply.current.value.id := reply.current.value], reply.next,
             reply.current.value.id))
  }

  ghost predicate PhaseOk(w: World)
    requires Numbered(w.core.log, w.cursors)
  {
    match w.phase
    case Idle => true
    case Serving(batch, results) => BatchOk(w, batch) && ResultsOk(w, batch, results)
    case HaveCurrent(batch, results, current) =>
      BatchOk(w, batch) && ResultsOk(w, batch, results) && |results| == |batch| && OfPair(w, current)
    case Replying(batch, reply) =>
      BatchOk(w, batch) && ResultsOk(w, batch, reply.results) && |reply.results| == |batch| && ReplyOk(w, reply)
  }

  ghost predicate Good(w: World) {
    ServerOk(w) && Keyed(w.client.local) && OutboxOk(w) && FatesOk(w) && PhaseOk(w)
  }
}
