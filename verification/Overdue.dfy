/** What a sweep does to each task: exactly those sent too long ago are taken back. */
module Overdue {
  import opened Collections
  import opened Protocol
  import opened JobCore
  import opened Coordinator
  import opened Traces
  import opened Records
  import opened RunProofs
  import Scheduler

  /** All tasks but t, and the clock, are as they were. */
  ghost predicate OthersKept(c: Ctx, d: Ctx, t: TaskId) {
    && d.cfg == c.cfg && d.now == c.now && |d.job.tasks| >= |c.job.tasks|
    && forall u | 0 <= u < |c.job.tasks| && u != t :: d.job.tasks[u] == c.job.tasks[u]
  }

  lemma {:induction false} FinishKeepsTasks(c: Ctx)
    ensures OthersKept(c, MaybeFinish(c), |c.job.tasks|)
    decreases ReduceBudget(c.job), 0
  {
    hide Requeue, MapOutputs, FinalOutput, WantsReduce, ReducePrompt, FindReduce, Scheduler.PickReduceNode,
         Scheduler.Views;
    if !c.job.reduceDispatched {
      RequeueKeepsOthers(StartReduce(c), |c.job.tasks|);
    }
  }

  /** A requeued task is in flight no more, and no other task is touched. */
  lemma {:induction false} RequeueKeepsOthers(c: Ctx, t: TaskId)
    requires t < |c.job.tasks|
    ensures OthersKept(c, Requeue(c, t), t) && !Requeue(c, t).job.tasks[t].InFlight()
    decreases ReduceBudget(c.job), 1
  {
    hide MaybeFinish, RequeueTarget, Replan;
    FinishKeepsTasks(Release(c, t, Failed));
  }

  /** From task `from` on, the timed-out ones are out of flight and the others untouched. */
  ghost predicate Swept(c: Ctx, from: nat, d: Ctx) {
    && |d.job.tasks| >= |c.job.tasks|
    && forall u | 0 <= u < |c.job.tasks| ::
         if u >= from && Expired(c, c.job.tasks[u]) then !d.job.tasks[u].InFlight()
         else d.job.tasks[u] == c.job.tasks[u]
  }

  lemma {:induction false} SweepTakesExpired(c: Ctx, from: nat)
    ensures Swept(c, from, SweepFrom(c, from))
    decreases ReduceBudget(c.job), |c.job.tasks| - from
  {
    hide Requeue;
    if from < |c.job.tasks| {
      if Expired(c, c.job.tasks[from]) {
        RequeueKeepsOthers(c, from);
        SweepTakesExpired(Requeue(c, from), from + 1);
      } else {
        SweepTakesExpired(c, from + 1);
      }
    }
  }

  lemma {:induction false} SweepOthers(s: State, k: nat, j: JobId)
    requires j in s.jobs.items && j !in s.jobs.keys[if k <= |s.jobs.keys| then k else |s.jobs.keys|..]
    ensures j in SweepJobs(s, k).jobs.items && SweepJobs(s, k).jobs.items[j] == s.jobs.items[j]
    decreases |s.jobs.keys| - k
  {
    hide Sweep;
    if k < |s.jobs.keys| && s.jobs.keys[k] in s.jobs.items {
      var i := s.jobs.keys[k];
      assert i == s.jobs.keys[k..][0] && s.jobs.keys[k..][1..] == s.jobs.keys[k + 1..];
      SweepOthers(Put(s, i, Sweep(CtxOf(s, s.jobs.items[i]))), k + 1, j);
    }
  }

  ghost predicate JobSwept(s: State, job: Job, after: Job) {
    var c := CtxOf(s, job);
    if job.Active() then Swept(c, 0, c.(job := after)) else after == job
  }

  lemma SweepOneJob(c: Ctx)
    ensures if c.job.Active() then Swept(c, 0, Sweep(c)) else Sweep(c) == c
  {
    hide SweepFrom, Swept;
    SweepTakesExpired(c, 0);
  }

  lemma SweptFrame(c: Ctx, d: Ctx, e: Ctx, f: Ctx)
    requires Swept(c, 0, d) && e.job == c.job && e.now == c.now && e.cfg == c.cfg && f.job == d.job
    ensures Swept(e, 0, f)
  {
  }

  lemma SweepClock(s: State, i: JobId)
    requires i in s.jobs.items
    ensures Sweep(CtxOf(s, s.jobs.items[i])).now == s.now && Sweep(CtxOf(s, s.jobs.items[i])).cfg == s.cfg
  {
    SweepKeepsClock(CtxOf(s, s.jobs.items[i]), 0);
  }

  lemma {:induction false} SweepKeepsClock(c: Ctx, t: nat)
    ensures SweepFrom(c, t).now == c.now && SweepFrom(c, t).cfg == c.cfg
    decreases ReduceBudget(c.job), |c.job.tasks| - t
  {
    hide Requeue;
    if t < |c.job.tasks| {
      if Expired(c, c.job.tasks[t]) {
        RequeueKeepsOthers(c, t);
        SweepKeepsClock(Requeue(c, t), t + 1);
      } else {
        SweepKeepsClock(c, t + 1);
      }
    }
  }

  lemma {:induction false} SweepReaches(s: State, k: nat, j: JobId)
    requires k <= |s.jobs.keys| && s.jobs.Valid() && j in s.jobs.keys[k..]
    ensures j in SweepJobs(s, k).jobs.items
    ensures JobSwept(s, s.jobs.items[j], SweepJobs(s, k).jobs.items[j])
    decreases |s.jobs.keys| - k
  {
    hide Sweep, Swept;
    var i := s.jobs.keys[k];
    var c := CtxOf(s, s.jobs.items[i]);
    var r := Put(s, i, Sweep(c));
    assert s.jobs.keys[k..] == [i] + s.jobs.keys[k + 1..];
    if i == j {
      SweepOneJob(c);
      SweepOthers(r, k + 1, j);
      if c.job.Active() { SweptFrame(c, Sweep(c), c, c.(job := Sweep(c).job)); }
    } else {
      SweepReaches(r, k + 1, j);
      if s.jobs.items[j].Active() { SameSweep(s, r, s.jobs.items[j], SweepJobs(s, k).jobs.items[j], i); }
    }
  }

  lemma SameSweep(s: State, r: State, job: Job, after: Job, i: JobId)
    requires i in s.jobs.items && r == Put(s, i, Sweep(CtxOf(s, s.jobs.items[i])))
    requires Swept(CtxOf(r, job), 0, CtxOf(r, job).(job := after))
    ensures Swept(CtxOf(s, job), 0, CtxOf(s, job).(job := after))
  {
    hide Sweep, Swept;
    SweepClock(s, i);
    SweepCfgNow(s, i, r);
    SweptFrame(CtxOf(r, job), CtxOf(r, job).(job := after), CtxOf(s, job), CtxOf(s, job).(job := after));
  }

  lemma SweepCfgNow(s: State, i: JobId, r: State)
    requires i in s.jobs.items && r == Put(s, i, Sweep(CtxOf(s, s.jobs.items[i])))
    ensures r.now == s.now && r.cfg == s.cfg
  {
    hide Sweep;
  }

  /** A sweep takes a task that is in flight back if and only if its latest send, by the
      record, is more than the timeout ago, and leaves every other task as it was. */
  lemma SweepTakesOverdue(s: State, j: JobId, t: TaskId, i: nat)
    requires StateInv(s) && TracedState(s) && j in s.jobs.items && s.jobs.items[j].Active()
    requires t < |s.jobs.items[j].tasks| && s.jobs.items[j].tasks[t].InFlight()
    requires i < |s.log| && IsLatest(s.log, s.jobs.items[j].serial, t, i)
    ensures j in Step(s, SweepDue).jobs.items && t < |Step(s, SweepDue).jobs.items[j].tasks|
    ensures var before, after := s.jobs.items[j].tasks[t], Step(s, SweepDue).jobs.items[j].tasks[t];
            if s.now - s.log[i].at > s.cfg.taskTimeoutMs then !after.InFlight() else after == before
  {
    hide StateOk, TracedState, SweepJobs;
    JobsPresent(s, {}, 0);
    assert s.jobs.keys[0..] == s.jobs.keys;
    SweepReaches(s, 0, j);
    JobTraced(s, j);
    LatestSend(CtxOf(s, s.jobs.items[j]), t, i);
  }

  lemma LatestSend(c: Ctx, t: TaskId, i: nat)
    requires Traced(c) && t < |c.job.tasks| && c.job.tasks[t].InFlight() && IsLatest(c.log, c.job.serial, t, i)
    ensures c.job.tasks[t].assignedAtMs == Some(c.log[i].at) && c.job.tasks[t].nodeId == Some(c.log[i].nodeId)
  {
    assert OutAt(c.log, c.job.serial, t, c.job.tasks[t]);
  }

  /** Tasks that are not in flight are left alone. */
  lemma SweepLeavesRest(s: State, j: JobId, t: TaskId)
    requires StateInv(s) && j in s.jobs.items && t < |s.jobs.items[j].tasks| && !s.jobs.items[j].tasks[t].InFlight()
    ensures var r := Step(s, SweepDue);
            j in r.jobs.items && t < |r.jobs.items[j].tasks| && r.jobs.items[j].tasks[t] == s.jobs.items[j].tasks[t]
  {
    hide StateOk, SweepJobs;
    JobsPresent(s, {}, 0);
    assert s.jobs.keys[0..] == s.jobs.keys;
    SweepReaches(s, 0, j);
  }
}
