/**
 When the status of a CI run is final, over runs of the system of module Jobs: the verdict of a
 dispatch, and any other status.
 */
module JobVerdict {
  import opened Jobs
  import opened JobRuns
  import opened JobStatus
  import opened Traces
  import opened Wrappers

  // ---------- The verdict of a dispatch ----------

  /** Each run has at most one dispatch. */
  ghost predicate OneDispatchEach(s: State) {
    forall h, k | h in s.handlers && k in s.handlers && s.handlers[h].Dispatching? && s.handlers[k].Dispatching? ::
      s.handlers[h].run == s.handlers[k].run ==> h == k
  }

  lemma StepKeepsOneDispatch(s: State, step: Step)
    requires HandlersOk(s.db, s.handlers) && OneDispatchEach(s) && Enabled(s, step)
    ensures OneDispatchEach(Next(s, step))
  {
    var s' := Next(s, step);
    forall h <- s'.handlers | s'.handlers[h].Dispatching?
      ensures if h in s.handlers && s.handlers[h].Dispatching? then s'.handlers[h].run == s.handlers[h].run
              else step.CreateRun? && step.h == h && s'.handlers[h].run !in s.db.runs
    {
      if !By(step, h) {
        OthersKeepHandler(s, step, h);
      }
    }
    forall h <- s.handlers | s.handlers[h].Dispatching? ensures s.handlers[h].run in s.db.runs {
      assert HandlerOk(s.db, s.handlers[h]);
    }
  }

  lemma {:induction false} RunKeepsOneDispatch(s: State, steps: seq<Step>, s': State)
    requires Inv(s) && OneDispatchEach(s) && Runs(TryStep, s, steps, s')
    ensures OneDispatchEach(s')
    decreases |steps|
  {
    if steps != [] {
      NextKeepsInv(s, steps[0]);
      StepKeepsOneDispatch(s, steps[0]);
      RunKeepsOneDispatch(Next(s, steps[0]), steps[1..], s');
    }
  }

  lemma VerdictGiven(s: State, h: nat)
    requires Inv(s) && OneDispatchEach(s) && Enabled(s, EndDispatch(h)) && GivesVerdict(s.handlers[h])
    ensures
      var run := s.handlers[h].run;
      var s' := Next(s, EndDispatch(h));
      DispatchOver(s', run) && s'.db.runs[run].status == Given(s.handlers[h])
  {
    assert HandlerOk(s.db, s.handlers[h]);
    var s' := Next(s, EndDispatch(h));
    forall k <- s'.handlers | s'.handlers[k].Dispatching? ensures s'.handlers[k].run != s.handlers[h].run {
      OthersKeepHandler(s, EndDispatch(h), k);
    }
  }

  function HasStatus(run: nat, status: Status): State -> bool {
    (s: State) => run in s.db.runs && s.db.runs[run].status == status
  }

  /** A rollup that stores the status of this run stores this one. */
  function StoresOnly(run: nat, status: Status): (State, Step) -> bool {
    (s, step) =>
      Enabled(s, step) &&
      (step.SetRun? && s.handlers[step.h].listed.value.0 == run ==> s.handlers[step.h].listed.value.1 == status)
  }

  lemma StatusStep(s: State, step: Step, run: nat, status: Status)
    requires Inv(s) && Enabled(s, step) && DispatchOver(s, run) && HasStatus(run, status)(s)
    ensures HasStatus(run, status)(Next(s, step)) <==> StoresOnly(run, status)(s, step)
  {
    NextKeepsInv(s, step);
    if step.SetRun? && s.handlers[step.h].listed.value.0 == run {
      SetRunWrites(s, step.h);
    } else {
      StatusStays(s, step, run);
    }
  }

  lemma {:induction false} StatusStaysIff(s: State, steps: seq<Step>, s': State, run: nat, status: Status)
    requires Inv(s) && DispatchOver(s, run) && HasStatus(run, status)(s) && Runs(TryStep, s, steps, s')
    ensures Always(TryStep, HasStatus(run, status), s, steps) <==> EachStep(TryStep, StoresOnly(run, status), s, steps)
    decreases |steps|
  {
    if steps != [] {
      var next := Next(s, steps[0]);
      NextKeepsInv(s, steps[0]);
      StepKeepsDispatchOver(s, steps[0], run);
      StatusStep(s, steps[0], run, status);
      if HasStatus(run, status)(next) {
        StatusStaysIff(next, steps[1..], s', run, status);
      } else {
        assert !Always(TryStep, HasStatus(run, status), next, steps[1..]);
      }
    }
  }

  /**
   The verdict of a dispatch on its run, failed for a malformed file or error when no runner
   starts, stays for as long as every rollup that stores a status of the run stores the same.
   */
  lemma VerdictStaysIff(before: seq<Step>, s: State, h: nat, steps: seq<Step>, s': State)
    requires Runs(TryStep, Init(), before, s) && Enabled(s, EndDispatch(h)) && GivesVerdict(s.handlers[h])
    requires Runs(TryStep, Next(s, EndDispatch(h)), steps, s')
    ensures
      var run, verdict := s.handlers[h].run, Given(s.handlers[h]);
      var s1 := Next(s, EndDispatch(h));
      && HasStatus(run, verdict)(s1)
      && (Always(TryStep, HasStatus(run, verdict), s1, steps) <==>
          EachStep(TryStep, StoresOnly(run, verdict), s1, steps))
  {
    RunIsOnward(Init(), before, s);
    RunKeepsOneDispatch(Init(), before, s);
    VerdictGiven(s, h);
    NextKeepsInv(s, EndDispatch(h));
    StatusStaysIff(Next(s, EndDispatch(h)), steps, s', s.handlers[h].run, Given(s.handlers[h]));
  }

  // ---------- Final statuses ----------

  ghost predicate AllFinished(db: Db, run: nat) {
    forall id <- db.jobs | db.jobs[id].run == run :: IsTerminal(db.jobs[id].status)
  }

  function Unfinished(db: Db, run: nat): set<nat> {
    set id <- db.jobs | db.jobs[id].run == run && !IsTerminal(db.jobs[id].status)
  }

  lemma NoneUnfinished(db: Db, run: nat)
    ensures AllFinished(db, run) <==> Unfinished(db, run) == {}
  {
    forall id <- db.jobs | db.jobs[id].run == run && !IsTerminal(db.jobs[id].status) ensures Unfinished(db, run) != {} {
      assert id in Unfinished(db, run);
    }
  }

  ghost predicate HasError(db: Db, run: nat) {
    exists id <- db.jobs :: db.jobs[id].run == run && db.jobs[id].status.Error?
  }

  /** The handler has the run, or a job of it, in hand. */
  ghost predicate Holds(db: Db, d: Handler, run: nat) {
    match d
    case Dispatching(r, _, _, _, _) => r == run
    case Completing(job, _, _, _) => job in db.jobs && db.jobs[job].run == run
    case LogStored(job, _, _, _) => job in db.jobs && db.jobs[job].run == run
    case Sweeping(todo, found) => exists id <- todo + found :: id in db.jobs && db.jobs[id].run == run
    case RollingUp(todo, listed) =>
      || (exists id <- todo :: id in db.jobs && db.jobs[id].run == run)
      || (listed.Some? && listed.value.0 == run)
  }

  ghost predicate NotHeld(s: State, run: nat) {
    forall h <- s.handlers :: !Holds(s.db, s.handlers[h], run)
  }

  /** Of the run, the handler has at most job u in hand, and at most this status to store. */
  ghost predicate HoldsOnly(db: Db, d: Handler, run: nat, u: Option<nat>, v: Status) {
    match d
    case Dispatching(r, _, _, _, _) => r != run
    case Completing(job, _, _, _) => IsOnly(db, job, run, u)
    case LogStored(job, _, _, _) => IsOnly(db, job, run, u)
    case Sweeping(todo, found) => forall id <- todo + found :: IsOnly(db, id, run, u)
    case RollingUp(todo, listed) =>
      && (forall id <- todo :: IsOnly(db, id, run, u))
      && (listed.Some? && listed.value.0 == run ==> u.Some? && listed.value.1 == v)
  }

  predicate IsOnly(db: Db, id: nat, run: nat, u: Option<nat>) {
    id in db.jobs && db.jobs[id].run == run ==> u == Some(id)
  }

  /**
   Why the status v of a run cannot change: all its jobs are finished and nobody has them in
   hand; or all but u are, one of them, e, in error, and so the rollup is error with any outcome
   of u.
   */
  ghost predicate Fixed(s: State, run: nat, u: Option<nat>, e: nat, v: Status) {
    && run in s.db.runs && s.db.runs[run].status == v
    && FixedJobs(s.db, run, u, e, v)
    && (forall h <- s.handlers :: HoldsOnly(s.db, s.handlers[h], run, u, v))
  }

  ghost predicate FixedJobs(db: Db, run: nat, u: Option<nat>, e: nat, v: Status) {
    && (forall id <- db.jobs | db.jobs[id].run == run && u != Some(id) :: IsTerminal(db.jobs[id].status))
    && (u.Some? ==> v == Error && e != u.value && e in db.jobs && db.jobs[e].run == run && db.jobs[e].status == Error)
  }

  /** A rollup comes to list the run only when job u has ended too. */
  lemma RollupIsFixed(s: State, h: nat, job: nat, run: nat, u: Option<nat>, e: nat, v: Status)
    requires Inv(s) && Enabled(s, ListJobs(h, job)) && Fixed(s, run, u, e, v) && s.db.jobs[job].run == run
    ensures u.Some? && RollupIn(s.db, run) == v
  {
    var d := s.handlers[h];
    assert HandlerOk(s.db, d) && HoldsOnly(s.db, d, run, u, v);
    assert IsOnly(s.db, job, run, u);
    assert s.db.jobs[e].status == Error;
    assert Error in StatusesOf(s.db, run);
  }

  lemma LeftHoldsOnly(s: State, step: Step, run: nat, u: Option<nat>, e: nat, v: Status)
    requires Inv(s) && Enabled(s, step) && !step.Claim? && Fixed(s, run, u, e, v)
    ensures Left(s, step).Some? ==> HoldsOnly(s.db, Left(s, step).value, run, u, v)
  {
    if Starts(step) {
      StartHoldsOnly(s, step, run, u, e, v);
    } else if step.ListJobs? {
      assert HoldsOnly(s.db, s.handlers[step.h], run, u, v);
      if s.db.jobs[step.job].run == run {
        RollupIsFixed(s, step.h, step.job, run, u, e, v);
      }
    } else {
      assert HoldsOnly(s.db, s.handlers[step.h], run, u, v);
    }
  }

  lemma StartHoldsOnly(s: State, step: Step, run: nat, u: Option<nat>, e: nat, v: Status)
    requires Inv(s) && Enabled(s, step) && Starts(step) && Fixed(s, run, u, e, v)
    ensures Left(s, step).Some? && HoldsOnly(s.db, Left(s, step).value, run, u, v)
  {
  }

  predicate Reporting(d: Handler) {
    d.Completing? || d.LogStored?
  }

  /** The jobs that the handler has in hand exist. */
  ghost predicate Knows(db: Db, d: Handler) {
    && (d.Sweeping? ==> forall id <- d.todo + d.found :: id in db.jobs)
    && (d.RollingUp? ==> forall id <- d.todo :: id in db.jobs)
    && (Reporting(d) ==> d.job in db.jobs)
  }

  lemma LeftKnows(s: State, step: Step)
    requires Inv(s) && Enabled(s, step) && !step.Claim? && Left(s, step).Some?
    ensures Knows(s.db, Left(s, step).value)
  {
    if step.h in s.handlers {
      assert HandlerOk(s.db, s.handlers[step.h]);
    }
  }

  lemma HoldsNoMore(db: Db, db': Db, d: Handler, run: nat, u: Option<nat>, v: Status)
    requires Onward(db, db') && Knows(db, d) && HoldsOnly(db, d, run, u, v)
    ensures HoldsOnly(db', d, run, u, v)
  {
    if d.Sweeping? {
      assert forall id <- d.todo + d.found :: IsOnly(db, id, run, u) && JobOnward(db.jobs[id], db'.jobs[id]);
    } else if d.RollingUp? {
      assert forall id <- d.todo :: IsOnly(db, id, run, u) && JobOnward(db.jobs[id], db'.jobs[id]);
    } else if Reporting(d) {
      assert JobOnward(db.jobs[d.job], db'.jobs[d.job]);
    }
  }

  lemma LeftStays(s: State, step: Step, run: nat, u: Option<nat>, e: nat, v: Status)
    requires Inv(s) && Enabled(s, step) && !step.Claim? && Left(s, step).Some? && Fixed(s, run, u, e, v)
    requires Onward(s.db, Exec(s.db, StmtOf(s, step)))
    ensures HoldsOnly(Exec(s.db, StmtOf(s, step)), Left(s, step).value, run, u, v)
  {
    LeftHoldsOnly(s, step, run, u, e, v);
    LeftKnows(s, step);
    HoldsNoMore(s.db, Exec(s.db, StmtOf(s, step)), Left(s, step).value, run, u, v);
  }

  lemma HandlerStays(s: State, db': Db, h: nat, run: nat, u: Option<nat>, e: nat, v: Status)
    requires Inv(s) && Onward(s.db, db') && h in s.handlers && Fixed(s, run, u, e, v)
    ensures HoldsOnly(db', s.handlers[h], run, u, v)
  {
    assert HandlerOk(s.db, s.handlers[h]);
    assert HoldsOnly(s.db, s.handlers[h], run, u, v);
    HoldsNoMore(s.db, db', s.handlers[h], run, u, v);
  }

  lemma HandlersStay(s: State, step: Step, run: nat, u: Option<nat>, e: nat, v: Status)
    requires Inv(s) && Enabled(s, step) && Fixed(s, run, u, e, v)
    ensures forall h <- Next(s, step).handlers :: HoldsOnly(Next(s, step).db, Next(s, step).handlers[h], run, u, v)
  {
    var db' := Exec(s.db, StmtOf(s, step));
    StmtOfOk(s, step);
    ExecIsOnward(s.db, StmtOf(s, step));
    if !step.Claim? && Left(s, step).Some? {
      LeftStays(s, step, run, u, e, v);
    }
    forall h <- s.handlers ensures HoldsOnly(db', s.handlers[h], run, u, v) {
      HandlerStays(s, db', h, run, u, e, v);
    }
  }

  /** The statement is not about the error that holds the status, nor a new job of the run. */
  lemma StmtSpares(s: State, step: Step, run: nat, u: Option<nat>, e: nat, v: Status)
    requires Inv(s) && Enabled(s, step) && Fixed(s, run, u, e, v)
    ensures
      var stmt := StmtOf(s, step);
      && (stmt.InsertJob? ==> stmt.run != run)
      && (u.Some? && (stmt.UpdateStatus? || stmt.UpdateResult?) ==> stmt.job != e)
      && (stmt.UpdateRun? && stmt.run == run ==> stmt.status == v)
  {
    if !step.Claim? && step.h in s.handlers {
      assert HandlerOk(s.db, s.handlers[step.h]) && HoldsOnly(s.db, s.handlers[step.h], run, u, v);
    }
  }

  lemma ExecKeepsFixed(db: Db, stmt: Stmt, run: nat, u: Option<nat>, e: nat, v: Status)
    requires StmtOk(db, stmt) && FixedJobs(db, run, u, e, v)
    requires run in db.runs && db.runs[run].status == v
    requires stmt.InsertJob? ==> stmt.run != run
    requires u.Some? && (stmt.UpdateStatus? || stmt.UpdateResult?) ==> stmt.job != e
    requires stmt.UpdateRun? && stmt.run == run ==> stmt.status == v
    ensures FixedJobs(Exec(db, stmt), run, u, e, v)
    ensures run in Exec(db, stmt).runs && Exec(db, stmt).runs[run].status == v
  {
  }

  lemma {:induction false} StaysFixed(
    s: State, steps: seq<Step>, s': State, run: nat, u: Option<nat>, e: nat, v: Status)
    requires Inv(s) && Fixed(s, run, u, e, v) && Runs(TryStep, s, steps, s')
    ensures Fixed(s', run, u, e, v)
    decreases |steps|
  {
    if steps != [] {
      StmtOfOk(s, steps[0]);
      StmtSpares(s, steps[0], run, u, e, v);
      ExecKeepsFixed(s.db, StmtOf(s, steps[0]), run, u, e, v);
      HandlersStay(s, steps[0], run, u, e, v);
      NextKeepsInv(s, steps[0]);
      StaysFixed(Next(s, steps[0]), steps[1..], s', run, u, e, v);
    }
  }

  /** The status of a run whose jobs are finished and that nobody has in hand, whatever it is, is final. */
  lemma ClosedIsFinal(s: State, steps: seq<Step>, s': State, run: nat)
    requires Inv(s) && run in s.db.runs && AllFinished(s.db, run) && NotHeld(s, run) && Runs(TryStep, s, steps, s')
    ensures run in s'.db.runs && s'.db.runs[run].status == s.db.runs[run].status
    ensures AllFinished(s'.db, run) && NotHeld(s', run)
  {
    StaysFixed(s, steps, s', run, None, 0, s.db.runs[run].status);
    forall h <- s'.handlers ensures !Holds(s'.db, s'.handlers[h], run) {
      assert HoldsOnly(s'.db, s'.handlers[h], run, None, s.db.runs[run].status);
    }
  }

  // ---------- Statuses that are not final ----------

  lemma RollupFacts(db: Db, run: nat)
    ensures RollupIn(db, run) == Running <==> Unfinished(db, run) != {}
    ensures Unfinished(db, run) == {} ==> (RollupIn(db, run) == Error <==> HasError(db, run))
    ensures IsTerminal(RollupIn(db, run)) || RollupIn(db, run) == Running
  {
    var statuses := StatusesOf(db, run);
    RollupIsWorst(statuses);
    if id :| id in Unfinished(db, run) {
      assert db.jobs[id].status in statuses;
    }
    if s :| s in statuses && !IsTerminal(s) {
      var id :| id in db.jobs && db.jobs[id].run == run && db.jobs[id].status == s;
      assert id in Unfinished(db, run);
    }
    assert HasError(db, run) <==> Error in statuses;
  }

  /** The state after a whole completion of one job of the run, with nothing in between. */
  function AfterCompletion(s: State, job: nat, outcome: Status): State
    requires job in s.db.jobs && s.db.jobs[job].run in s.db.runs
  {
    s.(db := RolledUp(Completed(s.db, job, outcome, "", 0), job))
  }

  lemma CompletionCounts(s: State, run: nat, job: nat, outcome: Status)
    requires run in s.db.runs && job in Unfinished(s.db, run) && IsTerminal(outcome)
    ensures
      var db := AfterCompletion(s, job, outcome).db;
      && Unfinished(db, run) == Unfinished(s.db, run) - {job}
      && (HasError(db, run) <==> outcome == Error || HasError(s.db, run))
      && run in db.runs && db.runs[run].status == RollupIn(db, run)
  {
    var db := AfterCompletion(s, job, outcome).db;
    SameJobsSameRollup(Completed(s.db, job, outcome, "", 0), db, run);
    assert db.jobs[job].status == outcome;
    if HasError(s.db, run) {
      var id :| id in s.db.jobs && s.db.jobs[id].run == run && s.db.jobs[id].status.Error?;
      assert db.jobs[id] == s.db.jobs[id];
    }
  }

  lemma CompletionIsLater(s: State, run: nat, job: nat, outcome: Status)
    requires Inv(s) && run in s.db.runs && NotHeld(s, run) && job in Unfinished(s.db, run)
    requires outcome in {Passed, Failed, Error}
    ensures
      var s' := AfterCompletion(s, job, outcome);
      Later(TryStep, s, s') && Inv(s') && NotHeld(s', run)
  {
    var h := Bounded(s.handlers.Keys);
    var s' := AfterCompletion(s, job, outcome);
    Completes(s, h, job, outcome, "");
    LaterIsOnward(s, s');
    forall h <- s'.handlers ensures !Holds(s'.db, s'.handlers[h], run) {
      assert HandlerOk(s.db, s.handlers[h]) && !Holds(s.db, s.handlers[h], run);
    }
  }

  ghost predicate StatusMoves(s: State, run: nat)
    requires run in s.db.runs
  {
    exists s' :: Later(TryStep, s, s') && run in s'.db.runs && s'.db.runs[run].status != s.db.runs[run].status
  }

  lemma MovesLater(s: State, s': State, run: nat)
    requires Later(TryStep, s, s') && run in s.db.runs && run in s'.db.runs && StatusMoves(s', run)
    requires s'.db.runs[run].status == s.db.runs[run].status
    ensures StatusMoves(s, run)
  {
    var s2 :| Later(TryStep, s', s2) && run in s2.db.runs && s2.db.runs[run].status != s'.db.runs[run].status;
    LaterOn(TryStep, s, s', s2);
  }

  lemma OneLeft(ids: set<nat>, id: nat)
    requires id in ids
    ensures ids - {id} == {} <==> |ids| == 1
    ensures |ids - {id}| < |ids|
  {
    assert |ids - {id}| == |ids| - 1;
  }

  /** Completing the unfinished jobs one by one moves the status, whatever it is, but for one case. */
  lemma {:induction false} OpenRunMoves(s: State, run: nat)
    requires Inv(s) && run in s.db.runs && NotHeld(s, run) && Unfinished(s.db, run) != {}
    requires !(s.db.runs[run].status == Error && |Unfinished(s.db, run)| == 1 && HasError(s.db, run))
    ensures StatusMoves(s, run)
    decreases |Unfinished(s.db, run)|
  {
    var v := s.db.runs[run].status;
    var job :| job in Unfinished(s.db, run);
    var outcome := if v == Error then Passed else Error;
    var s' := AfterCompletion(s, job, outcome);
    CompletionIsLater(s, run, job, outcome);
    CompletionCounts(s, run, job, outcome);
    RollupFacts(s'.db, run);
    OneLeft(Unfinished(s.db, run), job);
    if v == Running && Unfinished(s'.db, run) != {} {
      OpenRunMoves(s', run);
      MovesLater(s, s', run);
    } else {
      assert s'.db.runs[run].status != v;
    }
  }

  /** All jobs of the run are finished; or it is an error, one job is not, and another one is in error. */
  ghost predicate Conclusive(db: Db, run: nat)
    requires run in db.runs
  {
    || AllFinished(db, run)
    || (db.runs[run].status == Error && |Unfinished(db, run)| == 1 && HasError(db, run))
  }

  lemma ConclusiveIsFixed(s: State, run: nat) returns (u: Option<nat>, e: nat)
    requires run in s.db.runs && NotHeld(s, run) && Conclusive(s.db, run)
    ensures Fixed(s, run, u, e, s.db.runs[run].status)
  {
    u, e := None, 0;
    NoneUnfinished(s.db, run);
    if !AllFinished(s.db, run) {
      var id :| id in Unfinished(s.db, run);
      OneLeft(Unfinished(s.db, run), id);
      u := Some(id);
      e :| e in s.db.jobs && s.db.jobs[e].run == run && s.db.jobs[e].status.Error?;
      assert forall other <- Unfinished(s.db, run) :: other == id by {
        assert forall other <- Unfinished(s.db, run) - {id} :: false;
      }
      forall other <- s.db.jobs | s.db.jobs[other].run == run && other != id
        ensures IsTerminal(s.db.jobs[other].status)
      {
        assert other !in Unfinished(s.db, run);
      }
    }
    forall h <- s.handlers ensures HoldsOnly(s.db, s.handlers[h], run, u, s.db.runs[run].status) {
      assert !Holds(s.db, s.handlers[h], run);
    }
  }

  /**
   The status of a run that no handler has in hand, whatever it is, stays the same in everything
   that can still happen exactly when it is conclusive: all jobs are finished, or the run is an
   error and stays one with any outcome of the one job that is not.
   */
  lemma StatusFinalIff(s: State, run: nat)
    requires Inv(s) && run in s.db.runs && NotHeld(s, run)
    ensures (forall s' | Later(TryStep, s, s') ::
               run in s'.db.runs && s'.db.runs[run].status == s.db.runs[run].status)
            <==> Conclusive(s.db, run)
  {
    if Conclusive(s.db, run) {
      var u, e := ConclusiveIsFixed(s, run);
      forall s' | Later(TryStep, s, s') ensures run in s'.db.runs && s'.db.runs[run].status == s.db.runs[run].status {
        var steps: seq<Step> :| Runs(TryStep, s, steps, s');
        StaysFixed(s, steps, s', run, u, e, s.db.runs[run].status);
      }
    } else {
      NoneUnfinished(s.db, run);
      OpenRunMoves(s, run);
    }
  }

  /** What the run's own dispatch leaves behind holds nothing of the run. */
  lemma DispatchLetsGo(s: State, h: nat)
    requires Inv(s) && Enabled(s, EndDispatch(h))
    requires forall k <- s.handlers | k != h :: !Holds(s.db, s.handlers[k], s.handlers[h].run)
    ensures NotHeld(Next(s, EndDispatch(h)), s.handlers[h].run)
    ensures Next(s, EndDispatch(h)).db.jobs == s.db.jobs
  {
    var run, s' := s.handlers[h].run, Next(s, EndDispatch(h));
    forall k <- s'.handlers ensures !Holds(s'.db, s'.handlers[k], run) {
      OthersKeepHandler(s, EndDispatch(h), k);
      assert !Holds(s.db, s.handlers[k], run);
    }
  }

  /**
   The verdict of a dispatch, when no other handler has the run in hand as it is given: failed
   is final exactly when all jobs have finished already, error also when only one has not and
   another one is in error.
   */
  lemma VerdictFinalIff(before: seq<Step>, s: State, h: nat)
    requires Runs(TryStep, Init(), before, s) && Enabled(s, EndDispatch(h)) && GivesVerdict(s.handlers[h])
    requires forall k <- s.handlers | k != h :: !Holds(s.db, s.handlers[k], s.handlers[h].run)
    ensures
      var run, verdict, s1 := s.handlers[h].run, Given(s.handlers[h]), Next(s, EndDispatch(h));
      && HasStatus(run, verdict)(s1)
      && ((forall s' | Later(TryStep, s1, s') :: HasStatus(run, verdict)(s')) <==>
          || Unfinished(s.db, run) == {}
          || (verdict == Error && |Unfinished(s.db, run)| == 1 && HasError(s.db, run)))
  {
    var run, verdict, s1 := s.handlers[h].run, Given(s.handlers[h]), Next(s, EndDispatch(h));
    RunIsOnward(Init(), before, s);
    RunKeepsOneDispatch(Init(), before, s);
    VerdictGiven(s, h);
    NextKeepsInv(s, EndDispatch(h));
    DispatchLetsGo(s, h);
    StatusFinalIff(s1, run);
    NoneUnfinished(s1.db, run);
    assert s1.db.jobs == s.db.jobs;
  }
}
