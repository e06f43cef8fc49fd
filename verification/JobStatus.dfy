/**
 When the status of a CI run is the rollup of its jobs, over runs of the system of module Jobs
 with claims, dispatches, completions and sweeps interleaved.
 */
module JobStatus {
  import opened Jobs
  import opened Traces
  import opened Wrappers

  function RollupIn(db: Db, run: nat): Status {
    RollupOf(StatusesOf(db, run))
  }

  /** The status of the run is the worst-of its jobs, or running while one is not finished. */
  predicate Right(db: Db, run: nat) {
    run in db.runs && db.runs[run].status == RollupIn(db, run)
  }

  /** The rows after the run of a job has taken the rollup of its jobs as its status. */
  function RolledUp(db: Db, job: nat): Db
    requires job in db.jobs
  {
    Exec(db, UpdateRun(db.jobs[job].run, RollupIn(db, db.jobs[job].run)))
  }

  // ---------- Which steps move a rollup ----------

  predicate SameJobs(db: Db, db': Db, run: nat) {
    && (forall id <- db.jobs | db.jobs[id].run == run ::
          id in db'.jobs && db'.jobs[id].run == run && db'.jobs[id].status == db.jobs[id].status)
    && (forall id <- db'.jobs | db'.jobs[id].run == run :: id in db.jobs && db.jobs[id].run == run)
  }

  lemma SameJobsSameRollup(db: Db, db': Db, run: nat)
    requires SameJobs(db, db', run)
    ensures RollupIn(db', run) == RollupIn(db, run)
  {
    assert StatusesOf(db, run) == StatusesOf(db', run);
  }

  /** A claim moves a job from one unfinished status to another, so its run stays unfinished. */
  lemma ClaimKeepsRollup(db: Db, job: nat, now: int, run: nat)
    ensures RollupIn(Exec(db, UpdateWhere(job, Queued, Running, now)), run) == RollupIn(db, run)
  {
    var db' := Exec(db, UpdateWhere(job, Queued, Running, now));
    if job in db.jobs && db.jobs[job].status.Queued? && db.jobs[job].run == run {
      assert Queued in StatusesOf(db, run);
      assert db'.jobs[job].status == Running;
      assert Running in StatusesOf(db', run);
    } else {
      SameJobsSameRollup(db, db', run);
    }
  }

  /** The four kinds of steps that can: a new job, an outcome, a swept job, a failed trigger noted. */
  predicate MovesJobOf(s: State, step: Step, run: nat)
    requires Enabled(s, step)
  {
    match step
    case CreateJob(h, _, _) => s.handlers[h].run == run
    case Triggered(h, ok, noted, _) =>
      !ok && noted && s.handlers[h].current.value in s.db.jobs && s.db.jobs[s.handlers[h].current.value].run == run
    case SetResult(h, _) => s.handlers[h].job in s.db.jobs && s.db.jobs[s.handlers[h].job].run == run
    case SweepOne(_, job, _) => job in s.db.jobs && s.db.jobs[job].run == run && s.db.jobs[job].status.Running?
    case _ => false
  }

  lemma OnlyFourKindsMoveRollup(s: State, step: Step, run: nat)
    requires Enabled(s, step) && !MovesJobOf(s, step, run)
    ensures RollupIn(Next(s, step).db, run) == RollupIn(s.db, run)
  {
    if step.Claim? {
      ClaimKeepsRollup(s.db, step.job, step.now, run);
    } else {
      SameJobsSameRollup(s.db, Next(s, step).db, run);
    }
  }

  // ---------- The window between listing the jobs and reading the status ----------

  /** What the last step that moved the rollup moved it to; None when no step did. */
  ghost function Drift(s: State, steps: seq<Step>, run: nat): Option<Status>
    decreases |steps|
  {
    if steps == [] || !Enabled(s, steps[0]) then None
    else
      var next := Next(s, steps[0]);
      var rest := Drift(next, steps[1..], run);
      if rest.Some? then rest
      else if RollupIn(next.db, run) != RollupIn(s.db, run) then Some(RollupIn(next.db, run))
      else None
  }

  lemma {:induction false} DriftIsRollup(s: State, steps: seq<Step>, s': State, run: nat)
    requires Runs(TryStep, s, steps, s')
    ensures RollupIn(s'.db, run) ==
            if Drift(s, steps, run).Some? then Drift(s, steps, run).value else RollupIn(s.db, run)
    decreases |steps|
  {
    if steps != [] {
      DriftIsRollup(Next(s, steps[0]), steps[1..], s', run);
    }
  }

  function Spares(run: nat): (State, Step) -> bool {
    (s, step) => Enabled(s, step) && !MovesJobOf(s, step, run)
  }

  lemma {:induction false} SparedHasNoDrift(s: State, steps: seq<Step>, run: nat)
    requires EachStep(TryStep, Spares(run), s, steps)
    ensures Drift(s, steps, run) == None
    decreases |steps|
  {
    if steps != [] {
      assert Spares(run)(s, steps[0]);
      OnlyFourKindsMoveRollup(s, steps[0], run);
      SparedHasNoDrift(Next(s, steps[0]), steps[1..], run);
    }
  }

  /** The verdict that a dispatch is about to give its run, if it gives one. */
  predicate GivesVerdict(d: Handler) {
    d.Dispatching? && (d.malformed || (d.made > 0 && d.failed == d.made))
  }

  function Given(d: Handler): Status
    requires GivesVerdict(d)
  {
    if d.malformed then Failed else Error
  }

  predicate WritesStatus(s: State, step: Step, run: nat)
    requires Enabled(s, step)
  {
    || (step.SetRun? && s.handlers[step.h].listed.value.0 == run)
    || (step.EndDispatch? && s.handlers[step.h].run == run && GivesVerdict(s.handlers[step.h]))
  }

  function LeavesStatus(run: nat): (State, Step) -> bool {
    (s, step) => Enabled(s, step) && !WritesStatus(s, step, run)
  }

  lemma StatusStays(s: State, step: Step, run: nat)
    requires Enabled(s, step) && !WritesStatus(s, step, run) && run in s.db.runs
    ensures run in Next(s, step).db.runs && Next(s, step).db.runs[run].status == s.db.runs[run].status
  {
  }

  lemma {:induction false} StatusStaysOver(s: State, steps: seq<Step>, s': State, run: nat)
    requires Runs(TryStep, s, steps, s') && EachStep(TryStep, LeavesStatus(run), s, steps) && run in s.db.runs
    ensures run in s'.db.runs && s'.db.runs[run].status == s.db.runs[run].status
    decreases |steps|
  {
    if steps != [] {
      assert LeavesStatus(run)(s, steps[0]);
      StatusStays(s, steps[0], run);
      StatusStaysOver(Next(s, steps[0]), steps[1..], s', run);
    }
  }

  /** Handler h does not take part. */
  ghost predicate Without(steps: seq<Step>, h: nat) {
    forall st <- steps :: !By(st, h)
  }

  ghost predicate LaterWithout(s: State, h: nat, s': State) {
    exists steps: seq<Step> :: Runs(TryStep, s, steps, s') && Without(steps, h)
  }

  lemma LaterWithoutStep(s: State, h: nat, mid: State, step: Step, s': State)
    requires LaterWithout(s, h, mid) && Enabled(mid, step) && Next(mid, step) == s' && !By(step, h)
    ensures LaterWithout(s, h, s')
  {
    var steps: seq<Step> :| Runs(TryStep, s, steps, mid) && Without(steps, h);
    var none: seq<Step> := [];
    assert [step][1..] == none;
    assert Runs(TryStep, s', none, s');
    assert Runs(TryStep, mid, [step], s');
    RunsOn(TryStep, s, steps, mid, [step], s');
    assert Without(steps + [step], h);
  }

  lemma LaterWithoutSame(s: State, h: nat)
    ensures LaterWithout(s, h, s)
  {
    var none: seq<Step> := [];
    assert Runs(TryStep, s, none, s) && Without(none, h);
  }

  /**
   Between s and s', handler h has rolled up the run of the job: it lists the jobs, others go
   on, it stores the status. This is the window of StatusRightIff.
   */
  ghost predicate RolledUpSince(s: State, h: nat, job: nat, s': State) {
    exists listing: State, storing: State ::
      && Later(TryStep, s, listing) && Inv(listing) && Enabled(listing, ListJobs(h, job))
      && LaterWithout(Next(listing, ListJobs(h, job)), h, storing) && Enabled(storing, SetRun(h))
      && Later(TryStep, Next(storing, SetRun(h)), s')
  }

  lemma RolledUpSinceOn(s0: State, s: State, h: nat, job: nat, s': State, s2: State)
    requires Later(TryStep, s0, s) && RolledUpSince(s, h, job, s') && Later(TryStep, s', s2)
    ensures RolledUpSince(s0, h, job, s2)
  {
    var listing: State, storing: State :|
      && Later(TryStep, s, listing) && Inv(listing) && Enabled(listing, ListJobs(h, job))
      && LaterWithout(Next(listing, ListJobs(h, job)), h, storing) && Enabled(storing, SetRun(h))
      && Later(TryStep, Next(storing, SetRun(h)), s');
    LaterOn(TryStep, s0, s, listing);
    LaterOn(TryStep, Next(storing, SetRun(h)), s', s2);
  }

  lemma OthersKeepHandler(s: State, step: Step, h: nat)
    requires Enabled(s, step) && !By(step, h)
    ensures h in s.handlers <==> h in Next(s, step).handlers
    ensures h in s.handlers ==> Next(s, step).handlers[h] == s.handlers[h]
  {
  }

  lemma {:induction false} OthersKeepHandlerOver(s: State, steps: seq<Step>, s': State, h: nat)
    requires Runs(TryStep, s, steps, s') && Without(steps, h) && h in s.handlers
    ensures h in s'.handlers && s'.handlers[h] == s.handlers[h]
    decreases |steps|
  {
    if steps != [] {
      assert steps[0] in steps;
      OthersKeepHandler(s, steps[0], h);
      assert forall st <- steps[1..] :: st in steps;
      OthersKeepHandlerOver(Next(s, steps[0]), steps[1..], s', h);
    }
  }

  lemma SetRunWrites(s: State, h: nat)
    requires Inv(s) && Enabled(s, SetRun(h))
    ensures
      var listed := s.handlers[h].listed.value;
      && listed.0 in Next(s, SetRun(h)).db.runs
      && Next(s, SetRun(h)).db.runs[listed.0].status == listed.1
  {
    assert HandlerOk(s.db, s.handlers[h]);
  }

  /**
   A rollup lists the jobs of a run, anything else happens, the rollup stores the status,
   anything else happens, short of another status being stored for the run. At the end, the
   status is right exactly when no step since the listing has moved the rollup of the jobs, or
   the last one that did has moved it back. Only four kinds of steps on that very run can.
   */
  lemma StatusRightIff(
    s0: State, h: nat, job: nat, window: seq<Step>, s2: State, after: seq<Step>, s4: State)
    requires Inv(s0) && Enabled(s0, ListJobs(h, job))
    requires Runs(TryStep, Next(s0, ListJobs(h, job)), window, s2) && Without(window, h)
    requires Enabled(s2, SetRun(h))
    requires Runs(TryStep, Next(s2, SetRun(h)), after, s4)
    requires EachStep(TryStep, LeavesStatus(s0.db.jobs[job].run), Next(s2, SetRun(h)), after)
    ensures
      var run := s0.db.jobs[job].run;
      var s1 := Next(s0, ListJobs(h, job));
      var since := window + ([SetRun(h)] + after);
      && Runs(TryStep, s1, since, s4)
      && (Right(s4.db, run) <==>
          Drift(s1, since, run) == None || Drift(s1, since, run) == Some(RollupIn(s0.db, run)))
      && (EachStep(TryStep, Spares(run), s1, since) ==> Right(s4.db, run))
  {
    var run := s0.db.jobs[job].run;
    var s1 := Next(s0, ListJobs(h, job));
    var s3 := Next(s2, SetRun(h));
    var since := window + ([SetRun(h)] + after);
    NextKeepsInv(s0, ListJobs(h, job));
    RunIsOnward(s1, window, s2);
    OthersKeepHandlerOver(s1, window, s2, h);
    SetRunWrites(s2, h);
    StatusStaysOver(s3, after, s4, run);
    assert ([SetRun(h)] + after)[1..] == after;
    RunsOn(TryStep, s1, window, s2, [SetRun(h)] + after, s4);
    DriftIsRollup(s1, since, s4, run);
    if EachStep(TryStep, Spares(run), s1, since) {
      SparedHasNoDrift(s1, since, run);
    }
  }

  // ---------- One at a time ----------

  /** No completion and no sweep is under way. Dispatches may be. */
  ghost predicate Quiet(s: State) {
    forall h <- s.handlers :: s.handlers[h].Dispatching?
  }

  ghost predicate OneAtATime(s: State) {
    forall h, k | h in s.handlers && k in s.handlers && !s.handlers[h].Dispatching? && !s.handlers[k].Dispatching? ::
      h == k
  }

  /** A completion or sweep starts only when none is under way, and none of its calls fails. */
  ghost predicate IsOrderly(s: State, step: Step) {
    && Enabled(s, step)
    && (step.Complete? || step.FindStuck? ==> Quiet(s))
    && !step.SkipRollup? && !step.DropRollup?
    && (step.Abort? ==> s.handlers[step.h].Dispatching?)
  }

  ghost function Orderly(): (State, Step) -> bool {
    (s, step) => IsOrderly(s, step)
  }

  /** The run is among those that the handler has still to roll up, or has just listed. */
  ghost predicate Owes(db: Db, d: Handler, run: nat) {
    match d
    case Sweeping(_, found) => exists id <- found :: id in db.jobs && db.jobs[id].run == run
    case RollingUp(todo, listed) =>
      || (exists id <- todo :: id in db.jobs && db.jobs[id].run == run)
      || listed == Some((run, RollupIn(db, run)))
    case _ => false
  }

  ghost predicate Owed(s: State, run: nat) {
    exists h <- s.handlers :: Owes(s.db, s.handlers[h], run)
  }

  /** A dispatch that is still adding jobs to the run, or has yet to give its verdict. */
  predicate Disturbs(s: State, step: Step, run: nat)
    requires Enabled(s, step)
  {
    && (step.CreateJob? || step.Triggered? || step.EndDispatch?)
    && (MovesJobOf(s, step, run) || WritesStatus(s, step, run))
  }

  function Undisturbed(run: nat): (State, Step) -> bool {
    (s, step) => Enabled(s, step) && !Disturbs(s, step, run)
  }

  lemma OrderlyKeepsOne(s: State, step: Step)
    requires OneAtATime(s) && IsOrderly(s, step)
    ensures OneAtATime(Next(s, step))
  {
    var s' := Next(s, step);
    if step.Complete? || step.FindStuck? {
      forall h | h in s'.handlers && !s'.handlers[h].Dispatching? ensures h == step.h {
        if h != step.h {
          OthersKeepHandler(s, step, h);
        }
      }
    } else {
      forall h | h in s'.handlers && !s'.handlers[h].Dispatching?
        ensures h in s.handlers && !s.handlers[h].Dispatching?
      {
        if !By(step, h) {
          OthersKeepHandler(s, step, h);
        }
      }
    }
  }

  /** The outcome of a completion, or a swept job, puts its run on the list. */
  lemma MovesAreOwed(s: State, step: Step, run: nat)
    requires Inv(s) && Enabled(s, step) && MovesJobOf(s, step, run) && (step.SetResult? || step.SweepOne?)
    ensures Owed(Next(s, step), run)
  {
    var s' := Next(s, step);
    assert step.h in s'.handlers;
    if step.SetResult? {
      var id := s.handlers[step.h].job;
      assert id in s'.handlers[step.h].todo && s'.db.jobs[id].run == run;
    } else {
      assert step.job in s'.handlers[step.h].found && s'.db.jobs[step.job].run == run;
    }
    assert Owes(s'.db, s'.handlers[step.h], run);
  }

  /** No handler is about to store a status of the run that its jobs have left behind. */
  ghost predicate NotStale(s: State, run: nat) {
    forall h <- s.handlers | s.handlers[h].RollingUp? && s.handlers[h].listed.Some? ::
      s.handlers[h].listed.value.0 == run ==> s.handlers[h].listed.value.1 == RollupIn(s.db, run)
  }

  /** The status of the run is right, or the handler under way will make it so. */
  ghost predicate Kept(s: State, run: nat) {
    NotStale(s, run) && (Right(s.db, run) || Owed(s, run))
  }

  lemma MoveIsKept(s: State, step: Step, run: nat)
    requires Inv(s) && OneAtATime(s) && Enabled(s, step)
    requires MovesJobOf(s, step, run) && (step.SetResult? || step.SweepOne?)
    ensures Kept(Next(s, step), run)
  {
    var s' := Next(s, step);
    MovesAreOwed(s, step, run);
    assert !s.handlers[step.h].Dispatching?;
    forall h <- s'.handlers | s'.handlers[h].RollingUp? && s'.handlers[h].listed.Some? ensures false {
      if h != step.h {
        OthersKeepHandler(s, step, h);
      }
    }
  }

  lemma StepKeepsNotStale(s: State, step: Step, run: nat)
    requires NotStale(s, run) && Enabled(s, step) && !MovesJobOf(s, step, run)
    ensures NotStale(Next(s, step), run)
  {
    var s' := Next(s, step);
    OnlyFourKindsMoveRollup(s, step, run);
    forall h <- s'.handlers | s'.handlers[h].RollingUp? && s'.handlers[h].listed.Some?
      ensures s'.handlers[h].listed.value.0 == run ==> s'.handlers[h].listed.value.1 == RollupIn(s'.db, run)
    {
      if !By(step, h) {
        OthersKeepHandler(s, step, h);
      }
    }
  }

  lemma OwedStays(s: State, step: Step, h: nat, run: nat)
    requires Inv(s) && Enabled(s, step) && !MovesJobOf(s, step, run) && !By(step, h)
    requires h in s.handlers && Owes(s.db, s.handlers[h], run)
    ensures Owed(Next(s, step), run)
  {
    var s' := Next(s, step);
    NextKeepsInv(s, step);
    OnlyFourKindsMoveRollup(s, step, run);
    OthersKeepHandler(s, step, h);
    assert forall id <- s.db.jobs :: id in s'.db.jobs && JobOnward(s.db.jobs[id], s'.db.jobs[id]);
    assert Owes(s'.db, s'.handlers[h], run);
  }

  lemma OwnStepKeepsDebt(s: State, step: Step, run: nat)
    requires Inv(s) && IsOrderly(s, step) && !MovesJobOf(s, step, run) && !step.Claim? && NotStale(s, run)
    requires step.h in s.handlers && Owes(s.db, s.handlers[step.h], run)
    ensures Right(Next(s, step).db, run) || Owed(Next(s, step), run)
  {
    var s' := Next(s, step);
    NextKeepsInv(s, step);
    OnlyFourKindsMoveRollup(s, step, run);
    assert forall id <- s.db.jobs :: id in s'.db.jobs && JobOnward(s.db.jobs[id], s'.db.jobs[id]);
    if step.SetRun? && s.handlers[step.h].listed.value.0 == run {
      SetRunWrites(s, step.h);
    } else {
      assert step.h in s'.handlers && Owes(s'.db, s'.handlers[step.h], run);
    }
  }

  lemma StepIsKept(s: State, step: Step, run: nat)
    requires Inv(s) && OneAtATime(s) && IsOrderly(s, step) && !Disturbs(s, step, run)
    requires run in s.db.runs && Kept(s, run)
    ensures run in Next(s, step).db.runs && Kept(Next(s, step), run)
  {
    NextKeepsInv(s, step);
    if MovesJobOf(s, step, run) {
      MoveIsKept(s, step, run);
    } else {
      StepKeepsNotStale(s, step, run);
      OnlyFourKindsMoveRollup(s, step, run);
      if Owed(s, run) {
        var h :| h in s.handlers && Owes(s.db, s.handlers[h], run);
        if By(step, h) {
          OwnStepKeepsDebt(s, step, run);
        } else {
          OwedStays(s, step, h, run);
        }
      } else if WritesStatus(s, step, run) {
        SetRunWrites(s, step.h);
      } else {
        StatusStays(s, step, run);
      }
    }
  }

  lemma {:induction false} RunIsKept(s: State, steps: seq<Step>, s': State, run: nat)
    requires Inv(s) && OneAtATime(s) && run in s.db.runs && Kept(s, run)
    requires Runs(TryStep, s, steps, s')
    requires EachStep(TryStep, Orderly(), s, steps) && EachStep(TryStep, Undisturbed(run), s, steps)
    ensures Kept(s', run) && (Quiet(s') ==> Right(s'.db, run))
    decreases |steps|
  {
    if steps != [] {
      assert Orderly()(s, steps[0]) && Undisturbed(run)(s, steps[0]);
      NextKeepsInv(s, steps[0]);
      OrderlyKeepsOne(s, steps[0]);
      StepIsKept(s, steps[0], run);
      RunIsKept(Next(s, steps[0]), steps[1..], s', run);
    }
  }

  lemma {:induction false} OrderlyRun(s: State, steps: seq<Step>, s': State)
    requires Inv(s) && OneAtATime(s) && Runs(TryStep, s, steps, s') && EachStep(TryStep, Orderly(), s, steps)
    ensures Inv(s') && OneAtATime(s')
    decreases |steps|
  {
    if steps != [] {
      assert Orderly()(s, steps[0]);
      NextKeepsInv(s, steps[0]);
      OrderlyKeepsOne(s, steps[0]);
      OrderlyRun(Next(s, steps[0]), steps[1..], s');
    }
  }

  /**
   Completions and sweeps go one at a time, and none of their calls fails; claims and
   dispatches go on in between, without any order. Once a completion or a sweep has touched a
   run, the status of the run is the worst-of its jobs whenever none is under way: at the end
   of that one, and of each one after it, whatever runs they are about. The dispatch of the
   run itself must not add to it any more.
   */
  lemma RightAfterEach(before: seq<Step>, s: State, step: Step, after: seq<Step>, s': State, run: nat)
    requires Runs(TryStep, Init(), before, s) && EachStep(TryStep, Orderly(), Init(), before)
    requires IsOrderly(s, step) && (step.SetResult? || step.SweepOne?) && MovesJobOf(s, step, run)
    requires Runs(TryStep, Next(s, step), after, s') && EachStep(TryStep, Orderly(), Next(s, step), after)
    requires EachStep(TryStep, Undisturbed(run), Next(s, step), after)
    requires Quiet(s')
    ensures Right(s'.db, run)
  {
    OrderlyRun(Init(), before, s);
    MoveIsKept(s, step, run);
    NextKeepsInv(s, step);
    OrderlyKeepsOne(s, step);
    var id := if step.SetResult? then s.handlers[step.h].job else step.job;
    assert s.db.jobs[id].run in s.db.runs;
    RunIsKept(Next(s, step), after, s', run);
  }

  // ---------- When a dispatch is over ----------

  ghost predicate DispatchOver(s: State, run: nat) {
    run in s.db.runs && forall h <- s.handlers | s.handlers[h].Dispatching? :: s.handlers[h].run != run
  }

  lemma StepKeepsDispatchOver(s: State, step: Step, run: nat)
    requires Inv(s) && DispatchOver(s, run) && Enabled(s, step)
    ensures DispatchOver(Next(s, step), run) && !Disturbs(s, step, run)
  {
    var s' := Next(s, step);
    NextKeepsInv(s, step);
    forall h <- s'.handlers | s'.handlers[h].Dispatching? ensures s'.handlers[h].run != run {
      if !By(step, h) {
        OthersKeepHandler(s, step, h);
      }
    }
  }

  /** Once the dispatch of a run has ended, nothing disturbs the run any more, in any run of the system. */
  lemma {:induction false} OverIsUndisturbed(s: State, steps: seq<Step>, s': State, run: nat)
    requires Inv(s) && DispatchOver(s, run) && Runs(TryStep, s, steps, s')
    ensures EachStep(TryStep, Undisturbed(run), s, steps)
    decreases |steps|
  {
    if steps != [] {
      NextKeepsInv(s, steps[0]);
      StepKeepsDispatchOver(s, steps[0], run);
      OverIsUndisturbed(Next(s, steps[0]), steps[1..], s', run);
    }
  }

  /** So for a run whose dispatch is over, RightAfterEach asks for nothing but the order. */
  lemma RightAfterDispatch(before: seq<Step>, s: State, step: Step, after: seq<Step>, s': State, run: nat)
    requires Runs(TryStep, Init(), before, s) && EachStep(TryStep, Orderly(), Init(), before)
    requires IsOrderly(s, step) && (step.SetResult? || step.SweepOne?) && MovesJobOf(s, step, run)
    requires DispatchOver(s, run)
    requires Runs(TryStep, Next(s, step), after, s') && EachStep(TryStep, Orderly(), Next(s, step), after)
    requires Quiet(s')
    ensures Right(s'.db, run)
  {
    RunIsOnward(Init(), before, s);
    NextKeepsInv(s, step);
    StepKeepsDispatchOver(s, step, run);
    OverIsUndisturbed(Next(s, step), after, s', run);
    RightAfterEach(before, s, step, after, s', run);
  }
}
