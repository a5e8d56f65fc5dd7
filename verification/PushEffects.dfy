/** What each answer of the push service does to the queue, column by column, and when a job is tried again. */
module PushEffects {
  import opened Domain
  import opened PushQueue

  const ONE_SECOND: int := 1_000_000_000
  const ONE_HOUR: int := 3_600_000_000_000

  /** The backoff in seconds, by the number of attempts so far. */
  const BACKOFF: seq<int> := [1, 2, 4, 8, 16, 32, 64, 128, 256, 512, 1024]

  /** The signed 64-bit number that is congruent to x. */
  predicate IsInt64Of(w: int, x: int) {
    -0x8000_0000_0000_0000 <= w < 0x8000_0000_0000_0000 && (x - w) % 0x1_0000_0000_0000_0000 == 0
  }

  /** The nanoseconds that a header asks for. */
  function Asked(header: int): int {
    if header > 0 then header * ONE_SECOND else 0
  }

  /** The pause in nanoseconds: what the header says if positive in 64 bits, up to an hour, or else the backoff. */
  ghost predicate Pauses(attempts: nat, header: int, random: Option<nat>, pause: int) {
    exists w ::
      IsInt64Of(w, Asked(header)) &&
      pause == (if w > ONE_HOUR then ONE_HOUR
                else if w > 0 then w
                else BACKOFF[if attempts > 10 then 10 else attempts] * ONE_SECOND +
                     (if random.Some? then random.value % 1000 * 1_000_000 else 0))
  }

  ghost predicate OnlyJob(q: Queue, q': Queue, id: Uuid) {
    q'.devices == q.devices && q'.jobs.Keys == q.jobs.Keys &&
    forall other :: other in q.jobs && other != id ==> q'.jobs[other] == q.jobs[other]
  }

  predicate SameTarget(job: Job, job': Job) {
    job'.device == job.device && job'.createdAt == job.createdAt && job'.lockedUntil.None?
  }

  ghost predicate Sends(q: Queue, q': Queue, id: Uuid, at: Time) {
    OnlyJob(q, q', id) &&
    (id in q.jobs ==>
       SameTarget(q.jobs[id], q'.jobs[id]) && q'.jobs[id].sentAt == Some(at) &&
       q'.jobs[id].attempts == q.jobs[id].attempts && q'.jobs[id].availableAt == q.jobs[id].availableAt &&
       q'.jobs[id].failedAt == q.jobs[id].failedAt)
  }

  ghost predicate Fails(q: Queue, q': Queue, id: Uuid, at: Time) {
    OnlyJob(q, q', id) &&
    (id in q.jobs ==>
       SameTarget(q.jobs[id], q'.jobs[id]) && q'.jobs[id].failedAt == Some(at) &&
       q'.jobs[id].attempts == q.jobs[id].attempts + 1 && q'.jobs[id].availableAt == q.jobs[id].availableAt &&
       q'.jobs[id].sentAt == q.jobs[id].sentAt)
  }

  ghost predicate TriesAgain(q: Queue, q': Queue, id: Uuid, availableAt: Time) {
    OnlyJob(q, q', id) &&
    (id in q.jobs ==>
       SameTarget(q.jobs[id], q'.jobs[id]) && q'.jobs[id].availableAt == availableAt &&
       q'.jobs[id].attempts == q.jobs[id].attempts + 1 && q'.jobs[id].sentAt == q.jobs[id].sentAt &&
       q'.jobs[id].failedAt == q.jobs[id].failedAt)
  }

  /** The device is revoked from now on, unless it was before, and all its open jobs have failed. */
  ghost predicate GivesUp(q: Queue, q': Queue, device: Uuid, at: Time) {
    q'.devices.Keys == q.devices.Keys && q'.jobs.Keys == q.jobs.Keys &&
    (forall d :: d in q.devices ==>
       q'.devices[d] == if d == device && q.devices[d].None? then Some(at) else q.devices[d]) &&
    forall id :: id in q.jobs ==>
      if device in q.devices && q.jobs[id].device == device && q.jobs[id].sentAt.None? && q.jobs[id].failedAt.None?
      then
        SameTarget(q.jobs[id], q'.jobs[id]) && q'.jobs[id].failedAt == Some(at) && q'.jobs[id].sentAt.None? &&
        q'.jobs[id].attempts == q.jobs[id].attempts && q'.jobs[id].availableAt == q.jobs[id].availableAt
      else q'.jobs[id] == q.jobs[id]
  }

  ghost predicate TriesOrFails(q: Queue, job: PushJob, header: int, reply: Reply, q': Queue) {
    if job.attempts >= 10 then Fails(q, q', job.id, reply.at)
    else exists pause :: Pauses(job.attempts, header, reply.random, pause) &&
                         TriesAgain(q, q', job.id, reply.at + pause / 1000)
  }

  /** What an answer of the push service to a job does to the queue. */
  ghost predicate AnswerDoes(q: Queue, job: PushJob, reply: Reply, q': Queue) {
    match reply.response
    case TransportError => TriesOrFails(q, job, 0, reply, q')
    case Response(status, reason, header) =>
      if status == 200 then Sends(q, q', job.id, reply.at)
      else if status == 410 || (status == 400 && reason in ["BadDeviceToken", "DeviceTokenNotForTopic"])
      then GivesUp(q, q', job.device, reply.at)
      else if status == 429 || 500 <= status then TriesOrFails(q, job, header, reply, q')
      else Fails(q, q', job.id, reply.at)
  }

  // ---------------------------------------------------------------- the worker does that

  lemma WrapIsInt64(x: int, w: int)
    ensures IsInt64Of(w, x) <==> w == Wrapped(x)
  {
    var y := x + TWO63;
    assert y == y / TWO64 * TWO64 + y % TWO64;
    if IsInt64Of(w, x) {
      var k := (x - w) / TWO64;
      assert x - w == k * TWO64;
      assert y == k * TWO64 + (w + TWO63) && 0 <= w + TWO63 < TWO64;
      DivisionIsUnique(y, k, w + TWO63);
    } else if w == Wrapped(x) {
      assert x - w == y / TWO64 * TWO64;
      MultipleLeavesNothing(y / TWO64);
      assert false;
    }
  }

  lemma DivisionIsUnique(y: int, k: int, r: int)
    requires y == k * TWO64 + r && 0 <= r < TWO64
    ensures y % TWO64 == r
  {
  }

  lemma MultipleLeavesNothing(k: int)
    ensures k * TWO64 % TWO64 == 0
  {
  }

  lemma BackoffIsPower(n: nat)
    requires n <= 10
    ensures BACKOFF[n] == Power(n)
  {
    PowerOfTen();
    if n > 0 && n < 10 {
      BackoffIsPower(n - 1);
    }
  }

  lemma PauseMeans(attempts: nat, header: int, random: Option<nat>, pause: int)
    ensures Pauses(attempts, header, random, pause) <==> pause == Delay(attempts, RetryAfter(header), random)
  {
    var x := Asked(header);
    forall w ensures IsInt64Of(w, x) <==> w == Wrapped(x) {
      WrapIsInt64(x, w);
    }
    assert RetryAfter(header) == Wrapped(x);
    var n := if attempts > 10 then 10 else attempts;
    BackoffIsPower(n);
    PowerGrows(n, 10);
    PowerOfTen();
    assert IsInt64Of(Wrapped(x), x);
    hide IsInt64Of, Wrapped, Power, RetryAfter, Asked;
  }

  lemma SendMeans(q: Queue, q': Queue, id: Uuid, at: Time)
    ensures Sends(q, q', id, at) <==> q' == MarkSent(q, id, at)
  {
    if Sends(q, q', id, at) {
      assert q'.jobs == MarkSent(q, id, at).jobs;
    }
  }

  lemma FailMeans(q: Queue, q': Queue, id: Uuid, at: Time)
    ensures Fails(q, q', id, at) <==> q' == Fail(q, id, at)
  {
    if Fails(q, q', id, at) {
      assert q'.jobs == Fail(q, id, at).jobs;
    }
  }

  lemma RetryMeans(q: Queue, q': Queue, id: Uuid, availableAt: Time)
    ensures TriesAgain(q, q', id, availableAt) <==> q' == Retry(q, id, availableAt)
  {
    if TriesAgain(q, q', id, availableAt) {
      assert q'.jobs == Retry(q, id, availableAt).jobs;
    }
  }

  lemma RevokeMeans(q: Queue, q': Queue, device: Uuid, at: Time)
    ensures GivesUp(q, q', device, at) <==> q' == RevokeToken(q, device, at)
  {
    if GivesUp(q, q', device, at) {
      assert q'.jobs == RevokeToken(q, device, at).jobs && q'.devices == RevokeToken(q, device, at).devices;
    }
  }

  lemma RetryOrFailMeans(q: Queue, job: PushJob, header: int, reply: Reply, q': Queue)
    ensures TriesOrFails(q, job, header, reply, q') <==> q' == RetryOrFail(q, job, RetryAfter(header), reply)
  {
    FailMeans(q, q', job.id, reply.at);
    var pause := Delay(job.attempts, RetryAfter(header), reply.random);
    forall p ensures Pauses(job.attempts, header, reply.random, p) <==> p == pause {
      PauseMeans(job.attempts, header, reply.random, p);
    }
    RetryMeans(q, q', job.id, reply.at + pause / 1000);
    assert Pauses(job.attempts, header, reply.random, pause);
    hide Pauses, Delay, RetryAfter, TriesAgain, Fails, Retry, Fail;
  }

  /** The description is complete: exactly one state of the queue fits an answer. */
  lemma AnswerMeans(q: Queue, job: PushJob, reply: Reply, q': Queue)
    ensures AnswerDoes(q, job, reply, q') <==> q' == Process(q, job, reply)
  {
    assert RetryAfter(0) == 0;
    SendMeans(q, q', job.id, reply.at);
    FailMeans(q, q', job.id, reply.at);
    RevokeMeans(q, q', job.device, reply.at);
    RetryOrFailMeans(q, job, 0, reply, q');
    if reply.response.Response? {
      RetryOrFailMeans(q, job, reply.response.retryAfterSeconds, reply, q');
    }
    hide RetryOrFail, RetryAfter, MarkSent, Fail, RevokeToken, TriesOrFails, Sends, Fails, GivesUp;
  }

  /** A claim locks the jobs it picks for a minute, and does nothing else. */
  lemma LockMeans(q: Queue, picked: set<Uuid>, now: Time, q': Queue)
    ensures q' == Lock(q, picked, now) <==>
            q'.devices == q.devices && q'.jobs.Keys == q.jobs.Keys &&
            forall id :: id in q.jobs ==>
              if id in picked
              then
                q'.jobs[id].lockedUntil == Some(now + 60_000_000) && q'.jobs[id].device == q.jobs[id].device &&
                q'.jobs[id].attempts == q.jobs[id].attempts && q'.jobs[id].createdAt == q.jobs[id].createdAt &&
                q'.jobs[id].availableAt == q.jobs[id].availableAt && q'.jobs[id].sentAt == q.jobs[id].sentAt &&
                q'.jobs[id].failedAt == q.jobs[id].failedAt
              else q'.jobs[id] == q.jobs[id]
  {
    var locked := Lock(q, picked, now);
    if q'.jobs.Keys == q.jobs.Keys && (forall id :: id in q.jobs ==> q'.jobs[id] == locked.jobs[id]) {
      assert q'.jobs == locked.jobs;
    }
  }

  // ---------------------------------------------------------------- when a job is tried again

  /** What a claim may pick: an open job of a device in use, whose time has come and whose lock has run out. */
  lemma ClaimableMeans(q: Queue, id: Uuid, now: Time)
    ensures Claimable(q, id, now) <==>
            id in q.jobs && q.jobs[id].sentAt.None? && q.jobs[id].failedAt.None? && q.jobs[id].availableAt <= now &&
            (q.jobs[id].lockedUntil == None || q.jobs[id].lockedUntil.value < now) &&
            q.jobs[id].device in q.devices && q.devices[q.jobs[id].device] == None
  {
  }

  /** No step but its own handling changes when a job is available. */
  lemma StepKeepsAvailable(w: World, step: Step, id: Uuid)
    requires Enabled(w, step) && id in w.queue.jobs && !(step.Handle? && w.batch[step.id].id == id)
    ensures id in Next(w, step).queue.jobs
    ensures Next(w, step).queue.jobs[id].availableAt == w.queue.jobs[id].availableAt
  {
    hide Delay, RetryAfter;
  }

  /** The i-th step has the job tried again after a pause. */
  ghost predicate RetriedAt(steps: seq<Step>, i: nat, id: Uuid, pause: int)
    requires i < |steps| && Run(steps[..i])
  {
    var w := After(steps[..i]);
    steps[i].Handle? && steps[i].id == id && id in w.batch && id in w.queue.jobs && w.batch[id].attempts < 10 &&
    var r := steps[i].reply.response;
    (r.TransportError? || r.status == 429 || r.status >= 500) &&
    Pauses(w.batch[id].attempts, if r.Response? then r.retryAfterSeconds else 0, steps[i].reply.random, pause)
  }

  lemma RetriedIsLater(w: World, id: Uuid, reply: Reply, pause: int)
    requires Sound(w) && id in w.batch && id in w.queue.jobs && w.batch[id].attempts < 10
    requires var r := reply.response; r.TransportError? || r.status == 429 || r.status >= 500
    requires var r := reply.response;
             Pauses(w.batch[id].attempts, if r.Response? then r.retryAfterSeconds else 0, reply.random, pause)
    ensures var q := Next(w, Handle(id, reply)).queue;
            id in q.jobs && q.jobs[id].availableAt == reply.at + pause / 1000 && id !in Next(w, Handle(id, reply)).batch
  {
    var header := if reply.response.Response? then reply.response.retryAfterSeconds else 0;
    PauseMeans(w.batch[id].attempts, header, reply.random, pause);
    assert RetryAfter(0) == 0;
    hide Pauses, Delay, RetryAfter;
  }

  /** Until its next claim a job that is to be tried again keeps its time, and is not in the worker's batch. */
  lemma {:induction false} WaitsSince(steps: seq<Step>, i: nat, j: nat, id: Uuid, pause: int)
    requires Run(steps) && i < j <= |steps| && Run(steps[..i]) && Run(steps[..j]) && RetriedAt(steps, i, id, pause)
    requires forall m :: i < m < j && steps[m].Claim? ==> id !in steps[m].picked
    ensures var w := After(steps[..j]);
            id in w.queue.jobs && w.queue.jobs[id].availableAt == steps[i].reply.at + pause / 1000 && id !in w.batch
  {
    var n := j - 1;
    assert steps[..j][..n] == steps[..n];
    PrefixRuns(steps, n);
    RunIsSound(steps[..n]);
    hide Pauses;
    assert Enabled(After(steps[..n]), steps[n]) && After(steps[..j]) == Next(After(steps[..n]), steps[n]);
    if n == i {
      RetriedIsLater(After(steps[..i]), id, steps[i].reply, pause);
    } else {
      WaitsSince(steps, i, n, id, pause);
      hide After, Run, RetriedAt;
      WaitsOn(After(steps[..n]), steps[n], id);
    }
  }

  lemma WaitsOn(w: World, step: Step, id: Uuid)
    requires Sound(w) && Enabled(w, step) && id in w.queue.jobs && id !in w.batch
    requires step.Claim? ==> id !in step.picked
    ensures id in Next(w, step).queue.jobs && id !in Next(w, step).batch
    ensures Next(w, step).queue.jobs[id].availableAt == w.queue.jobs[id].availableAt
  {
    StepKeepsAvailable(w, step, id);
    hide Process, Claimable;
  }

  /** In every run of one worker, the next claim of a job that is to be tried again comes after its whole pause. */
  lemma PauseIsKept(steps: seq<Step>, i: nat, j: nat, id: Uuid, pause: int)
    requires Run(steps) && i < j < |steps| && Run(steps[..i]) && RetriedAt(steps, i, id, pause)
    requires steps[j].Claim? && id in steps[j].picked
    requires forall m :: i < m < j && steps[m].Claim? ==> id !in steps[m].picked
    ensures steps[i].reply.at + pause / 1000 <= steps[j].at
  {
    StepIsEnabled(steps, j);
    hide After, RetriedAt, Run, Enabled;
    WaitsSince(steps, i, j, id, pause);
    PickedIsAvailable(After(steps[..j]), steps[j], id);
  }

  lemma StepIsEnabled(steps: seq<Step>, j: nat)
    requires Run(steps) && j < |steps|
    ensures Run(steps[..j]) && Enabled(After(steps[..j]), steps[j])
  {
    PrefixRuns(steps, j);
    PrefixRuns(steps, j + 1);
    assert steps[..j + 1][..j] == steps[..j];
    hide Next, Enabled;
  }

  lemma PickedIsAvailable(w: World, step: Step, id: Uuid)
    requires Enabled(w, step) && step.Claim? && id in step.picked
    ensures id in w.queue.jobs && w.queue.jobs[id].availableAt <= step.at
  {
    ClaimableMeans(w.queue, id, step.at);
    hide Claimable;
  }
}
