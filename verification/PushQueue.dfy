/** The push queue: its tables, the worker's decision for each answer of the push service, and runs of one worker. */
module PushQueue {
  import opened Domain

  datatype Job = Job(
    device: Uuid, attempts: nat, createdAt: Time, availableAt: Time,
    lockedUntil: Option<Time>, sentAt: Option<Time>, failedAt: Option<Time>)
  {
    predicate Settled() {
      sentAt.Some? || failedAt.Some?
    }
  }

  /** The jobs, and when each device was revoked. */
  datatype Queue = Queue(jobs: map<Uuid, Job>, devices: map<Uuid, Option<Time>>)

  /** What a claim hands to the worker. */
  datatype PushJob = PushJob(id: Uuid, device: Uuid, attempts: nat)

  const LOCK: Time := MINUTE

  // ---------------------------------------------------------------- the store

  predicate Claimable(q: Queue, id: Uuid, now: Time) {
    id in q.jobs &&
    var job := q.jobs[id];
    job.device in q.devices && q.devices[job.device].None? && !job.Settled() && job.availableAt <= now &&
    (job.lockedUntil.None? || job.lockedUntil.value < now)
  }

  function Lock(q: Queue, picked: set<Uuid>, now: Time): Queue {
    q.(jobs := map id | id in q.jobs ::
         if id in picked then q.jobs[id].(lockedUntil := Some(now + LOCK)) else q.jobs[id])
  }

  function MarkSent(q: Queue, id: Uuid, now: Time): Queue {
    if id !in q.jobs then q else q.(jobs := q.jobs[id := q.jobs[id].(sentAt := Some(now), lockedUntil := None)])
  }

  function Retry(q: Queue, id: Uuid, availableAt: Time): Queue {
    if id !in q.jobs then q
    else q.(jobs := q.jobs[id := q.jobs[id].(attempts := q.jobs[id].attempts + 1, availableAt := availableAt,
                                             lockedUntil := None)])
  }

  function Fail(q: Queue, id: Uuid, now: Time): Queue {
    if id !in q.jobs then q
    else q.(jobs := q.jobs[id := q.jobs[id].(attempts := q.jobs[id].attempts + 1, failedAt := Some(now),
                                             lockedUntil := None)])
  }

  /** Revokes a device and fails all its open jobs. */
  function RevokeToken(q: Queue, device: Uuid, now: Time): Queue {
    if device !in q.devices then q
    else
      Queue(map id | id in q.jobs ::
              if q.jobs[id].device == device && !q.jobs[id].Settled()
              then q.jobs[id].(failedAt := Some(now), lockedUntil := None) else q.jobs[id],
            q.devices[device := if q.devices[device].Some? then q.devices[device] else Some(now)])
  }

  // ---------------------------------------------------------------- the worker

  const NANOS: int := 1_000_000_000
  const MILLIS: int := 1_000_000
  const LONGEST: int := 3600 * NANOS
  const TWO63: int := 0x8000_0000_0000_0000
  const TWO64: int := 0x1_0000_0000_0000_0000

  /** What the push service answered; a missing header reads as zero seconds. */
  datatype Response = TransportError | Response(status: int, reason: string, retryAfterSeconds: int)

  /** A response, when it is handled, and the random number drawn for the jitter, if that succeeded. */
  datatype Reply = Reply(response: Response, at: Time, random: Option<nat>)

  /** The signed 64-bit value that an integer wraps to. */
  function Wrapped(x: int): int {
    (x + TWO63) % TWO64 - TWO63
  }

  function RetryAfter(seconds: int): int {
    if seconds > 0 then Wrapped(seconds * NANOS) else 0
  }

  function Power(exponent: nat): nat {
    if exponent == 0 then 1 else 2 * Power(exponent - 1)
  }

  /** The pause before the next attempt, in nanoseconds. */
  function Delay(attempts: nat, retryAfter: int, random: Option<nat>): int {
    var delay :=
      if retryAfter > 0 then retryAfter
      else
        Power(if attempts > 10 then 10 else attempts) * NANOS +
        if random.Some? then random.value % 1000 * MILLIS else 0;
    if delay > LONGEST then LONGEST else delay
  }

  function RetryOrFail(q: Queue, job: PushJob, retryAfter: int, reply: Reply): Queue {
    if job.attempts >= 10 then Fail(q, job.id, reply.at)
    else Retry(q, job.id, reply.at + Delay(job.attempts, retryAfter, reply.random) / 1000)
  }

  predicate IsDeadToken(response: Response) {
    response.Response? &&
    (response.status == 410 ||
     (response.status == 400 && (response.reason == "BadDeviceToken" || response.reason == "DeviceTokenNotForTopic")))
  }

  function Process(q: Queue, job: PushJob, reply: Reply): Queue {
    if reply.response.TransportError? then RetryOrFail(q, job, 0, reply)
    else if reply.response.status == 200 then MarkSent(q, job.id, reply.at)
    else if IsDeadToken(reply.response) then RevokeToken(q, job.device, reply.at)
    else if reply.response.status == 429 || reply.response.status >= 500
    then RetryOrFail(q, job, RetryAfter(reply.response.retryAfterSeconds), reply)
    else Fail(q, job.id, reply.at)
  }

  // ---------------------------------------------------------------- retry delays

  lemma {:induction false} PowerGrows(m: nat, n: nat)
    requires m <= n
    ensures 1 <= Power(m) <= Power(n)
  {
    if m < n {
      PowerGrows(m, n - 1);
    } else if m > 0 {
      PowerGrows(m - 1, n - 1);
    }
  }

  lemma PowerOfTen()
    ensures Power(10) == 1024
  {
    assert Power(5) == 32;
    assert Power(8) == 256;
  }

  /** A retry always waits, and never longer than an hour, whatever the service asked for. */
  lemma DelayIsBounded(attempts: nat, seconds: int, random: Option<nat>)
    ensures 0 < Delay(attempts, RetryAfter(seconds), random) <= LONGEST
  {
    var exponent := if attempts > 10 then 10 else attempts;
    PowerGrows(exponent, 10);
    PowerOfTen();
  }

  /**
   A Retry-After is honoured, up to an hour, exactly when its seconds still fit a 64-bit number of
   nanoseconds or wrap around to at least an hour.
   */
  lemma RetryAfterHonoured(attempts: nat, seconds: int, random: Option<nat>)
    requires 0 < seconds < TWO63
    ensures Delay(attempts, RetryAfter(seconds), random) == (if seconds > 3600 then LONGEST else seconds * NANOS) <==>
            seconds * NANOS < TWO63 || Wrapped(seconds * NANOS) >= LONGEST
  {
    var exponent := if attempts > 10 then 10 else attempts;
    PowerGrows(exponent, 10);
    PowerOfTen();
  }

  /** The largest wait a service can ask for by wrapping around is not always the longest one. */
  lemma RetryAfterCanWrap(attempts: nat, random: Option<nat>)
    ensures Delay(attempts, RetryAfter(18_446_744_074), random) == 290_448_384
  {
  }

  /** Without a Retry-After every further attempt waits longer than the one before, whatever the jitter. */
  lemma BackoffGrows(attempts: nat, random: Option<nat>, later: Option<nat>)
    requires attempts < 10
    ensures Delay(attempts, 0, random) < Delay(attempts + 1, 0, later)
  {
    PowerGrows(0, attempts);
    PowerGrows(attempts + 1, 10);
    PowerOfTen();
  }

  // ---------------------------------------------------------------- runs of one worker

  /** The store, and the jobs that the one worker has claimed and not yet processed. */
  datatype World = World(queue: Queue, batch: map<Uuid, PushJob>)

  const EMPTY: World := World(Queue(map[], map[]), map[])

  datatype Step =
    | Enqueue(id: Uuid, device: Uuid, at: Time)
    | Register(device: Uuid)
    | Withdraw(device: Uuid, at: Time)
    | Claim(picked: set<Uuid>, at: Time)
    | Handle(id: Uuid, reply: Reply)

  predicate Enabled(w: World, step: Step) {
    match step
    case Enqueue(id, device, _) => id !in w.queue.jobs && device in w.queue.devices
    case Register(_) => true
    case Withdraw(device, _) => device in w.queue.devices
    case Claim(picked, at) => |w.batch| == 0 && forall id :: id in picked ==> Claimable(w.queue, id, at)
    case Handle(id, _) => id in w.batch
  }

  function Next(w: World, step: Step): World
    requires Enabled(w, step)
  {
    match step
    case Enqueue(id, device, at) =>
      w.(queue := w.queue.(jobs := w.queue.jobs[id := Job(device, 0, at, at, None, None, None)]))
    case Register(device) => w.(queue := w.queue.(devices := w.queue.devices[device := None]))
    case Withdraw(device, at) =>
      w.(queue := w.queue.(devices :=
           w.queue.devices[device := if w.queue.devices[device].Some? then w.queue.devices[device] else Some(at)]))
    case Claim(picked, at) =>
      World(Lock(w.queue, picked, at),
            map id | id in picked :: PushJob(id, w.queue.jobs[id].device, w.queue.jobs[id].attempts))
    case Handle(id, reply) => World(Process(w.queue, w.batch[id], reply), w.batch - {id})
  }

  predicate Run(steps: seq<Step>)
    decreases |steps|, 0
  {
    |steps| == 0 ||
    (Run(steps[..|steps| - 1]) && Enabled(After(steps[..|steps| - 1]), steps[|steps| - 1]))
  }

  function After(steps: seq<Step>): World
    requires Run(steps)
    decreases |steps|, 1
  {
    if |steps| == 0 then EMPTY else Next(After(steps[..|steps| - 1]), steps[|steps| - 1])
  }

  /** How often a job was claimed, and how often the push service accepted it. */
  function Claims(steps: seq<Step>, id: Uuid): nat {
    if |steps| == 0 then 0
    else
      var step := steps[|steps| - 1];
      Claims(steps[..|steps| - 1], id) + if step.Claim? && id in step.picked then 1 else 0
  }

  function Deliveries(steps: seq<Step>, id: Uuid): nat {
    if |steps| == 0 then 0
    else
      var step := steps[|steps| - 1];
      Deliveries(steps[..|steps| - 1], id) +
      if step.Handle? && step.id == id && step.reply.response.Response? && step.reply.response.status == 200
      then 1 else 0
  }

  /** The worker's copy of a job is current, and an open job has attempts left. */
  ghost predicate Sound(w: World) {
    (forall id :: id in w.batch ==>
       id in w.queue.jobs && w.batch[id] == PushJob(id, w.queue.jobs[id].device, w.queue.jobs[id].attempts)) &&
    (forall id :: id in w.queue.jobs ==>
       w.queue.jobs[id].device in w.queue.devices && (!w.queue.jobs[id].Settled() ==> w.queue.jobs[id].attempts <= 10))
  }

  /** How many more claims a job can see. */
  function Budget(w: World, id: Uuid): int {
    if id !in w.queue.jobs then 11
    else if w.queue.jobs[id].Settled() then 0
    else if id in w.batch then 10 - w.queue.jobs[id].attempts
    else 11 - w.queue.jobs[id].attempts
  }

  lemma HandleIsSound(w: World, id: Uuid, reply: Reply)
    requires Sound(w) && id in w.batch
    ensures Sound(Next(w, Handle(id, reply)))
  {
    hide Delay;
  }

  lemma NextIsSound(w: World, step: Step)
    requires Sound(w) && Enabled(w, step)
    ensures Sound(Next(w, step))
  {
    if step.Handle? {
      HandleIsSound(w, step.id, step.reply);
    }
  }

  /** Every step leaves settled jobs settled and spends the budget of a job it claims. */
  lemma NextSpends(w: World, step: Step, id: Uuid)
    requires Sound(w) && Enabled(w, step)
    ensures Budget(Next(w, step), id) + (if step.Claim? && id in step.picked then 1 else 0) <= Budget(w, id)
    ensures id in w.queue.jobs ==> id in Next(w, step).queue.jobs
    ensures id in w.queue.jobs && w.queue.jobs[id].Settled() ==> Next(w, step).queue.jobs[id].Settled()
  {
    hide Delay;
  }

  lemma {:induction false} RunIsSound(steps: seq<Step>)
    requires Run(steps)
    ensures Sound(After(steps))
  {
    hide Next, Enabled;
    if |steps| > 0 {
      var n := |steps| - 1;
      RunIsSound(steps[..n]);
      NextIsSound(After(steps[..n]), steps[n]);
    }
  }

  lemma {:induction false} ClaimsSpendBudget(steps: seq<Step>, id: Uuid)
    requires Run(steps)
    ensures Claims(steps, id) + Budget(After(steps), id) <= 11
  {
    hide Next, Enabled, Budget;
    var n := |steps| - 1;
    if n < 0 {
      assert Budget(EMPTY, id) == 11 by {
        FreshBudget(id);
      }
    } else {
      ClaimsSpendBudget(steps[..n], id);
      RunIsSound(steps[..n]);
      NextSpends(After(steps[..n]), steps[n], id);
    }
  }

  lemma FreshBudget(id: Uuid)
    ensures Budget(EMPTY, id) == 11
  {
  }

  /** A job is claimed at most eleven times, and after the eleventh it has left the queue. */
  lemma ClaimsAreBounded(steps: seq<Step>, id: Uuid)
    requires Run(steps)
    ensures Claims(steps, id) <= 11
    ensures Claims(steps, id) == 11 && id !in After(steps).batch ==>
              id in After(steps).queue.jobs && After(steps).queue.jobs[id].Settled()
  {
    ClaimsSpendBudget(steps, id);
    RunIsSound(steps);
    hide After, Claims;
  }

  /** What a run did so far was a run. */
  lemma {:induction false} PrefixRuns(steps: seq<Step>, i: nat)
    requires Run(steps) && i <= |steps|
    ensures Run(steps[..i])
  {
    if i == |steps| {
      assert steps[..i] == steps;
    } else {
      var n := |steps| - 1;
      PrefixRuns(steps[..n], i);
      assert steps[..n][..i] == steps[..i];
    }
  }

  /** A job that was sent or failed stays so, and no later claim picks it. */
  lemma {:induction false} SettledForever(steps: seq<Step>, i: nat, id: Uuid)
    requires Run(steps) && i <= |steps| && Run(steps[..i])
    requires id in After(steps[..i]).queue.jobs && After(steps[..i]).queue.jobs[id].Settled()
    ensures id in After(steps).queue.jobs && After(steps).queue.jobs[id].Settled()
    ensures Claims(steps, id) == Claims(steps[..i], id)
  {
    if i == |steps| {
      assert steps[..i] == steps;
    } else {
      var n := |steps| - 1;
      assert steps[..n][..i] == steps[..i];
      SettledForever(steps[..n], i, id);
      RunIsSound(steps[..n]);
      NextSpends(After(steps[..n]), steps[n], id);
      RunIsSound(steps);
      hide Next, After;
    }
  }

  /** What an accepted delivery leaves behind. */
  ghost predicate Delivered(w: World, id: Uuid) {
    id !in w.batch && id in w.queue.jobs && w.queue.jobs[id].Settled()
  }

  lemma DeliveredStays(w: World, step: Step, id: Uuid)
    requires Sound(w) && Enabled(w, step) && Delivered(w, id)
    ensures Delivered(Next(w, step), id) && (step.Handle? ==> step.id != id)
  {
    NextSpends(w, step, id);
  }

  lemma DeliveryDelivers(w: World, id: Uuid, reply: Reply)
    requires Sound(w) && id in w.batch && reply.response.Response? && reply.response.status == 200
    ensures Delivered(Next(w, Handle(id, reply)), id)
  {
  }

  /** The push service accepts a job at most once, and such a job is then out of the queue. */
  lemma {:induction false} DeliveredOnce(steps: seq<Step>, id: Uuid)
    requires Run(steps)
    ensures Deliveries(steps, id) <= 1
    ensures Deliveries(steps, id) == 1 ==> Delivered(After(steps), id)
  {
    hide Next, Enabled, Delivered;
    var n := |steps| - 1;
    if n >= 0 {
      var step, before := steps[n], After(steps[..n]);
      DeliveredOnce(steps[..n], id);
      RunIsSound(steps[..n]);
      if Deliveries(steps[..n], id) == 1 {
        DeliveredStays(before, step, id);
      } else if Deliveries(steps, id) == 1 {
        HandledIsBatched(before, step);
        DeliveryDelivers(before, id, step.reply);
      }
    }
  }

  lemma HandledIsBatched(w: World, step: Step)
    requires Enabled(w, step) && step.Handle?
    ensures step.id in w.batch
  {
  }

  /** A claimed job is claimed by no worker again while its lock lasts and no outcome is stored. */
  lemma LockExcludes(q: Queue, picked: set<Uuid>, now: Time, id: Uuid, later: Time)
    requires id in picked && id in q.jobs && later <= now + LOCK
    ensures !Claimable(Lock(q, picked, now), id, later)
  {
  }
}
