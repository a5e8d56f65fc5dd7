/** The push store's tables as fields, and the worker that drains them. */
module PushWorker {
  import opened Domain
  import opened PushQueue
  import opened PushEffects

  function Ids(jobs: seq<PushJob>): (ids: seq<Uuid>)
    ensures |ids| == |jobs| && forall i :: 0 <= i < |jobs| ==> ids[i] == jobs[i].id
  {
    seq(|jobs|, i requires 0 <= i < |jobs| => jobs[i].id)
  }

  class PushStore {
    var jobs: map<Uuid, Job>
    var devices: map<Uuid, Option<Time>>

    function State(): Queue
      reads this
    {
      Queue(jobs, devices)
    }

    constructor ()
      ensures State() == Queue(map[], map[])
    {
      jobs, devices := map[], map[];
    }

    /** The claimable jobs that a claim of at most `limit` picks: the oldest, each once. */
    ghost predicate IsOldest(picked: seq<Uuid>, limit: nat, now: Time)
      reads this
    {
      |picked| <= limit &&
      (forall i, j :: 0 <= i < j < |picked| ==> picked[i] != picked[j]) &&
      (forall i :: 0 <= i < |picked| ==> Claimable(State(), picked[i], now)) &&
      (forall other :: Claimable(State(), other, now) && other !in picked ==>
         |picked| == limit && forall i :: 0 <= i < |picked| ==> jobs[picked[i]].createdAt <= jobs[other].createdAt)
    }

    lemma OldestOf(rest: set<Uuid>) returns (oldest: Uuid)
      requires rest != {} && rest <= jobs.Keys
      ensures oldest in rest && forall id :: id in rest ==> jobs[oldest].createdAt <= jobs[id].createdAt
      decreases |rest|
    {
      oldest :| oldest in rest;
      if rest != {oldest} {
        var other := OldestOf(rest - {oldest});
        if jobs[other].createdAt < jobs[oldest].createdAt {
          oldest := other;
        }
      }
    }

    method PickOldest(limit: nat, now: Time) returns (picked: seq<Uuid>)
      ensures IsOldest(picked, limit, now)
    {
      var all := set id | id in jobs && Claimable(State(), id, now);
      var rest := all;
      picked := [];
      while rest != {} && |picked| < limit
        invariant |picked| <= limit && rest <= all
        invariant forall i, j :: 0 <= i < j < |picked| ==> picked[i] != picked[j]
        invariant forall i :: 0 <= i < |picked| ==> picked[i] in all && picked[i] !in rest
        invariant forall id :: id in all ==> id in rest || id in picked
        invariant forall i, other :: 0 <= i < |picked| && other in rest ==>
                    jobs[picked[i]].createdAt <= jobs[other].createdAt
        decreases |rest|
      {
        ghost var oldest := OldestOf(rest);
        var id :| id in rest && forall other :: other in rest ==> jobs[id].createdAt <= jobs[other].createdAt;
        picked := picked + [id];
        rest := rest - {id};
      }
    }

    method ClaimPushJobs(limit: nat, now: Time) returns (claimed: seq<PushJob>)
      modifies this`jobs
      ensures old(IsOldest(Ids(claimed), limit, now))
      ensures State() == Lock(old(State()), (set id | id in Ids(claimed)), now)
      ensures forall i :: 0 <= i < |claimed| ==>
                claimed[i].id in old(jobs) && claimed[i].device == old(jobs)[claimed[i].id].device &&
                claimed[i].attempts == old(jobs)[claimed[i].id].attempts
    {
      var picked := PickOldest(limit, now);
      claimed := seq(|picked|, i requires 0 <= i < |picked| && picked[i] in jobs reads this =>
                                 PushJob(picked[i], jobs[picked[i]].device, jobs[picked[i]].attempts));
      assert Ids(claimed) == picked;
      jobs := Lock(State(), (set id | id in picked), now).jobs;
    }

    method MarkPushSent(id: Uuid, now: Time)
      modifies this`jobs
      ensures State() == MarkSent(old(State()), id, now)
    {
      if id in jobs {
        jobs := jobs[id := jobs[id].(sentAt := Some(now), lockedUntil := None)];
      }
    }

    method RetryPush(id: Uuid, availableAt: Time)
      modifies this`jobs
      ensures State() == Retry(old(State()), id, availableAt)
    {
      if id in jobs {
        jobs := jobs[id := jobs[id].(attempts := jobs[id].attempts + 1, availableAt := availableAt,
                                     lockedUntil := None)];
      }
    }

    method FailPush(id: Uuid, now: Time)
      modifies this`jobs
      ensures State() == Fail(old(State()), id, now)
    {
      if id in jobs {
        jobs := jobs[id := jobs[id].(attempts := jobs[id].attempts + 1, failedAt := Some(now), lockedUntil := None)];
      }
    }

    method RevokePushToken(device: Uuid, now: Time) returns (found: bool)
      modifies this
      ensures found == (device in old(devices)) && State() == RevokeToken(old(State()), device, now)
    {
      if device !in devices {
        return false;
      }
      if devices[device].None? {
        devices := devices[device := Some(now)];
      }
      jobs := map id | id in jobs ::
          if jobs[id].device == device && jobs[id].sentAt.None? && jobs[id].failedAt.None?
          then jobs[id].(failedAt := Some(now), lockedUntil := None) else jobs[id];
      found := true;
    }
  }

  /** The jobs of a batch, handled one after the other. */
  function ProcessAll(q: Queue, jobs: seq<PushJob>, replies: seq<Reply>): Queue
    requires |jobs| <= |replies|
  {
    if |jobs| == 0 then q
    else
      var n := |jobs| - 1;
      Process(ProcessAll(q, jobs[..n], replies), jobs[n], replies[n])
  }

  /** A batch as the worker's steps: the claim, and the first `k` jobs handled. */
  function BatchSteps(jobs: seq<PushJob>, replies: seq<Reply>, now: Time, k: nat): seq<Step>
    requires k <= |jobs| <= |replies|
  {
    if k == 0 then [Claim((set id | id in Ids(jobs)), now)]
    else BatchSteps(jobs, replies, now, k - 1) + [Handle(jobs[k - 1].id, replies[k - 1])]
  }

  ghost predicate Distinct(jobs: seq<PushJob>) {
    forall i, j :: 0 <= i < j < |jobs| ==> jobs[i].id != jobs[j].id
  }

  /** The jobs of a batch are what the claim reads. */
  ghost predicate IsClaim(q: Queue, jobs: seq<PushJob>, now: Time) {
    Distinct(jobs) &&
    forall i :: 0 <= i < |jobs| ==>
      Claimable(q, jobs[i].id, now) && jobs[i].device == q.jobs[jobs[i].id].device &&
      jobs[i].attempts == q.jobs[jobs[i].id].attempts
  }

  /** The jobs from the `k`th on are still to be handled. */
  ghost predicate IsRest(batch: map<Uuid, PushJob>, jobs: seq<PushJob>, k: nat)
    requires k <= |jobs|
  {
    (forall i :: k <= i < |jobs| ==> jobs[i].id in batch && batch[jobs[i].id] == jobs[i]) &&
    forall id :: id in batch ==> exists i :: k <= i < |jobs| && jobs[i].id == id
  }

  lemma RestStarts(w: World, jobs: seq<PushJob>, now: Time)
    requires w.batch == map[] && IsClaim(w.queue, jobs, now)
    ensures var claim := Claim((set id | id in Ids(jobs)), now);
            Enabled(w, claim) && IsRest(Next(w, claim).batch, jobs, 0) &&
            Next(w, claim).queue == Lock(w.queue, (set id | id in Ids(jobs)), now)
  {
    var ids := set id | id in Ids(jobs);
    forall i | 0 <= i < |jobs| ensures jobs[i].id in ids {
      assert Ids(jobs)[i] == jobs[i].id;
    }
    hide Claimable, Lock;
    assert forall id :: id in ids ==> Claimable(w.queue, id, now);
    ClaimBatch(w, ids, now);
  }

  lemma ClaimBatch(w: World, ids: set<Uuid>, now: Time)
    requires w.batch == map[] && forall id :: id in ids ==> Claimable(w.queue, id, now)
    ensures Enabled(w, Claim(ids, now)) && Next(w, Claim(ids, now)).queue == Lock(w.queue, ids, now)
    ensures Next(w, Claim(ids, now)).batch.Keys == ids
    ensures forall id :: id in ids ==>
              id in w.queue.jobs &&
              Next(w, Claim(ids, now)).batch[id] == PushJob(id, w.queue.jobs[id].device, w.queue.jobs[id].attempts)
  {
  }

  lemma RestStep(w: World, jobs: seq<PushJob>, reply: Reply, k: nat)
    requires k < |jobs| && Distinct(jobs) && IsRest(w.batch, jobs, k)
    ensures var step := Handle(jobs[k].id, reply);
            Enabled(w, step) && Next(w, step).queue == Process(w.queue, jobs[k], reply) &&
            IsRest(Next(w, step).batch, jobs, k + 1)
  {
    hide Process;
    assert forall i :: k < i < |jobs| ==> jobs[i].id != jobs[k].id;
  }

  /** A tick of the worker is a stretch of a run, so what holds of every run holds of every sequence of ticks. */
  lemma {:induction false} BatchIsRun(steps: seq<Step>, jobs: seq<PushJob>, replies: seq<Reply>, now: Time, k: nat)
    requires Run(steps) && After(steps).batch == map[] && k <= |jobs| <= |replies|
    requires IsClaim(After(steps).queue, jobs, now)
    ensures var run := steps + BatchSteps(jobs, replies, now, k);
            Run(run) && IsRest(After(run).batch, jobs, k) &&
            After(run).queue ==
            ProcessAll(Lock(After(steps).queue, (set id | id in Ids(jobs)), now), jobs[..k], replies)
  {
    var run := steps + BatchSteps(jobs, replies, now, k);
    hide Lock, Process, IsRest, Next, Enabled, IsClaim, After, Run, ProcessAll;
    if k == 0 {
      RestStarts(After(steps), jobs, now);
      OneStepMore(steps, Claim((set id | id in Ids(jobs)), now));
      NothingProcessed(Lock(After(steps).queue, (set id | id in Ids(jobs)), now), jobs, replies);
    } else {
      BatchIsRun(steps, jobs, replies, now, k - 1);
      var before := steps + BatchSteps(jobs, replies, now, k - 1);
      ClaimIsDistinct(After(steps).queue, jobs, now);
      RestStep(After(before), jobs, replies[k - 1], k - 1);
      OneStepMore(before, Handle(jobs[k - 1].id, replies[k - 1]));
      assert run == before + [Handle(jobs[k - 1].id, replies[k - 1])];
      OneProcessed(Lock(After(steps).queue, (set id | id in Ids(jobs)), now), jobs, replies, k);
    }
  }

  lemma OneStepMore(steps: seq<Step>, step: Step)
    requires Run(steps) && Enabled(After(steps), step)
    ensures Run(steps + [step]) && After(steps + [step]) == Next(After(steps), step)
  {
    hide Next, Enabled;
    assert (steps + [step])[..|steps|] == steps;
  }

  lemma ClaimIsDistinct(q: Queue, jobs: seq<PushJob>, now: Time)
    requires IsClaim(q, jobs, now)
    ensures Distinct(jobs)
  {
  }

  lemma NothingProcessed(q: Queue, jobs: seq<PushJob>, replies: seq<Reply>)
    ensures ProcessAll(q, jobs[..0], replies) == q
  {
  }

  lemma OneProcessed(q: Queue, jobs: seq<PushJob>, replies: seq<Reply>, k: nat)
    requires 0 < k <= |jobs| <= |replies|
    ensures ProcessAll(q, jobs[..k], replies) ==
            Process(ProcessAll(q, jobs[..k - 1], replies), jobs[k - 1], replies[k - 1])
  {
    hide Process;
    assert jobs[..k][..k - 1] == jobs[..k - 1];
  }

  class Worker {
    const store: PushStore

    constructor (store: PushStore)
      ensures this.store == store
    {
      this.store := store;
    }

    /** One tick: claim a batch and handle each job; `replies` are the push service's answers to them. */
    method ProcessBatch(limit: nat, now: Time, replies: seq<Reply>) returns (jobs: seq<PushJob>)
      requires |replies| == limit
      modifies store
      ensures |jobs| <= limit
      ensures old(store.IsOldest(Ids(jobs), limit, now))
      ensures store.State() == ProcessAll(Lock(old(store.State()), (set id | id in Ids(jobs)), now), jobs, replies)
    {
      jobs := store.ClaimPushJobs(limit, now);
      ghost var locked := store.State();
      var i := 0;
      while i < |jobs|
        invariant i <= |jobs| && store.State() == ProcessAll(locked, jobs[..i], replies)
      {
        ProcessJob(jobs[i], replies[i]);
        assert jobs[..i + 1][..i] == jobs[..i];
        i := i + 1;
      }
      assert jobs[..i] == jobs;
    }

    method ProcessJob(job: PushJob, reply: Reply)
      modifies store
      ensures store.State() == Process(old(store.State()), job, reply)
      ensures AnswerDoes(old(store.State()), job, reply, store.State())
    {
      AnswerMeans(store.State(), job, reply, Process(store.State(), job, reply));
      hide AnswerDoes;
      match reply.response {
        case TransportError =>
          RetryJob(job, 0, reply);
        case Response(status, reason, seconds) =>
          if status == 200 {
            store.MarkPushSent(job.id, reply.at);
          } else if status == 410 ||
                    (status == 400 && (reason == "BadDeviceToken" || reason == "DeviceTokenNotForTopic")) {
            var found := store.RevokePushToken(job.device, reply.at);
          } else if status == 429 || status >= 500 {
            RetryJob(job, RetryAfter(seconds), reply);
          } else {
            store.FailPush(job.id, reply.at);
          }
      }
    }

    method RetryJob(job: PushJob, retryAfter: int, reply: Reply)
      modifies store
      ensures store.State() == RetryOrFail(old(store.State()), job, retryAfter, reply)
    {
      if job.attempts >= 10 {
        store.FailPush(job.id, reply.at);
        return;
      }
      var delay := retryAfter;
      if delay <= 0 {
        var exponent: int := job.attempts;
        if exponent > 10 {
          exponent := 10;
        }
        delay := NANOS * Power(exponent);
        if reply.random.Some? {
          delay := delay + reply.random.value % 1000 * MILLIS;
        }
      }
      if delay > LONGEST {
        delay := LONGEST;
      }
      store.RetryPush(job.id, reply.at + delay / 1000);
    }
  }
}
