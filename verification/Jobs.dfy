/**
 CI runs and jobs (internal/ci/report.go, internal/ci/dispatcher.go, internal/meta/ci.go): any
 number of claims, completions, sweeps and dispatches, interleaved at the level of single
 database statements and store writes.
 */
module Jobs {
  import opened Traces
  import opened Wrappers

  datatype Status = Queued | Running | Passed | Failed | Error | Superseded

  predicate IsTerminal(s: Status) {
    s.Passed? || s.Failed? || s.Error? || s.Superseded?
  }

  /** The text "ci/<repo>/<run>/<job>.log". */
  datatype LogKey = LogKey(repo: nat, run: nat, job: nat)

  /** What a completion brings: the outcome it records and the log it stores. */
  datatype Report = Report(outcome: Status, log: string)

  /**
   report is history: what the last completion that wrote the row brought. Other writes leave
   it, so the status may be another one.
   */
  datatype Job = Job(run: nat, status: Status, logKey: Option<LogKey>, updated: int, report: Option<Report>)

  datatype Run = Run(repo: nat, status: Status)

  // ---------- Rollup ----------

  /** How bad a job status is for its run. An unfinished job hides every outcome. */
  function Severity(s: Status): nat {
    match s
    case Queued => 3
    case Running => 3
    case Error => 2
    case Failed => 1
    case Passed => 0
    case Superseded => 0
  }

  /** The documented rule: running while any job is not finished, or else the worst outcome. */
  function RollupOf(statuses: set<Status>): Status {
    if exists s <- statuses :: !IsTerminal(s) then Running
    else if Error in statuses then Error
    else if Failed in statuses then Failed
    else Passed
  }

  /** The rollup is the maximum of the severities, 0 for a run without jobs. */
  lemma RollupIsWorst(statuses: set<Status>)
    ensures forall s <- statuses :: Severity(s) <= Severity(RollupOf(statuses))
    ensures Severity(RollupOf(statuses)) == 0 || exists s <- statuses :: Severity(s) == Severity(RollupOf(statuses))
    ensures RollupOf(statuses) == Running <==> exists s <- statuses :: !IsTerminal(s)
    ensures RollupOf(statuses) ==
            if Queued in statuses || Running in statuses then Running
            else if Error in statuses then Error
            else if Failed in statuses then Failed
            else Passed
  {
    if Error in statuses || Failed in statuses {
      assert Severity(Error) == 2 && Severity(Failed) == 1;
    }
  }

  /** The early-exit loop. Its result depends on which statuses occur, not on order or count. */
  method Rollup(jobs: seq<Job>) returns (r: Status)
    ensures r == RollupOf(set j <- jobs :: j.status)
    ensures r == if exists j <- jobs :: j.status == Queued || j.status == Running then Running
                 else if exists j <- jobs :: j.status == Error then Error
                 else if exists j <- jobs :: j.status == Failed then Failed
                 else Passed
  {
    var worst := Passed;
    for i := 0 to |jobs|
      invariant forall k | 0 <= k < i :: IsTerminal(jobs[k].status)
      invariant worst == Error <==> exists k | 0 <= k < i :: jobs[k].status == Error
      invariant worst == Failed <==> worst != Error && exists k | 0 <= k < i :: jobs[k].status == Failed
      invariant worst in {Passed, Failed, Error}
    {
      assert jobs[i].status in set j <- jobs :: j.status;
      if !IsTerminal(jobs[i].status) {
        return Running;
      }
      match jobs[i].status
      case Error => worst := Error;
      case Failed =>
        if worst != Error {
          worst := Failed;
        }
      case _ =>
    }
    return worst;
  }

  // ---------- Rows and statements ----------

  /** A blob is a log; as history it goes with the outcome that came with it. */
  datatype Db = Db(runs: map<nat, Run>, jobs: map<nat, Job>, blobs: map<LogKey, Report>)

  /** One database statement, or one write to the store. An UPDATE that finds no row does nothing. */
  datatype Stmt =
    | Nothing
    | InsertRun(run: nat, repo: nat)
    | InsertJob(job: nat, run: nat, now: int)
    | UpdateStatus(job: nat, status: Status, now: int)
    | UpdateWhere(job: nat, from: Status, status: Status, now: int)
    | UpdateResult(job: nat, status: Status, key: LogKey, log: string, now: int)
    | UpdateRun(run: nat, status: Status)
    | PutLog(key: LogKey, report: Report)

  function NewJob(run: nat, status: Status, now: int): Job {
    Job(run, status, None, now, None)
  }

  function Exec(db: Db, stmt: Stmt): Db {
    match stmt
    case Nothing => db
    case InsertRun(run, repo) => db.(runs := db.runs[run := Run(repo, Queued)])
    case InsertJob(job, run, now) => db.(jobs := db.jobs[job := NewJob(run, Queued, now)])
    case UpdateStatus(job, status, now) =>
      if job in db.jobs then db.(jobs := db.jobs[job := db.jobs[job].(status := status, updated := now)]) else db
    case UpdateWhere(job, from, status, now) =>
      if job in db.jobs && db.jobs[job].status == from
      then db.(jobs := db.jobs[job := db.jobs[job].(status := status, updated := now)]) else db
    case UpdateResult(job, status, key, log, now) =>
      if job in db.jobs then
        db.(jobs := db.jobs[job := Job(db.jobs[job].run, status, Some(key), now, Some(Report(status, log)))])
      else db
    case UpdateRun(run, status) =>
      if run in db.runs then db.(runs := db.runs[run := db.runs[run].(status := status)]) else db
    case PutLog(key, report) => db.(blobs := db.blobs[key := report])
  }

  function StatusesOf(db: Db, run: nat): set<Status> {
    set id <- db.jobs | db.jobs[id].run == run :: db.jobs[id].status
  }

  function Stuck(db: Db, cutoff: int): set<nat> {
    set id <- db.jobs | db.jobs[id].status.Running? && db.jobs[id].updated < cutoff
  }

  /** Running, and not updated since the cutoff. */
  lemma WhoIsStuck(db: Db, cutoff: int, id: nat)
    ensures id in Stuck(db, cutoff) <==> id in db.jobs && db.jobs[id].status == Running && db.jobs[id].updated < cutoff
  {
  }

  function KeyOf(db: Db, job: nat): LogKey
    requires job in db.jobs && db.jobs[job].run in db.runs
  {
    LogKey(db.runs[db.jobs[job].run].repo, db.jobs[job].run, job)
  }

  /** The rows and the store after a job's log and outcome are recorded. */
  function Completed(db: Db, job: nat, outcome: Status, log: string, now: int): (r: Db)
    requires job in db.jobs && db.jobs[job].run in db.runs
    ensures job in r.jobs
  {
    Exec(Exec(db, PutLog(KeyOf(db, job), Report(outcome, log))), UpdateResult(job, outcome, KeyOf(db, job), log, now))
  }

  /** A log key names the job's own log, and that is in the store. */
  predicate PointsToBlob(db: Db, id: nat)
    requires id in db.jobs && db.jobs[id].run in db.runs
  {
    db.jobs[id].logKey.None? || (db.jobs[id].logKey == Some(KeyOf(db, id)) && KeyOf(db, id) in db.blobs)
  }

  ghost predicate DbOk(db: Db) {
    forall id <- db.jobs :: db.jobs[id].run in db.runs && PointsToBlob(db, id)
  }

  /** What every statement keeps of a job: its run, that it is no longer queued, that it has ended. */
  predicate JobOnward(a: Job, b: Job) {
    && b.run == a.run
    && (!a.status.Queued? ==> !b.status.Queued?)
    && (IsTerminal(a.status) ==> IsTerminal(b.status))
    && (a.logKey.Some? ==> b.logKey == a.logKey)
  }

  ghost predicate Onward(db: Db, db': Db) {
    && db.blobs.Keys <= db'.blobs.Keys
    && (forall id <- db.jobs :: id in db'.jobs && JobOnward(db.jobs[id], db'.jobs[id]))
    && (forall run <- db.runs :: run in db'.runs && db'.runs[run].repo == db.runs[run].repo)
  }

  /** What the handlers see to before they issue a statement. */
  ghost predicate StmtOk(db: Db, stmt: Stmt) {
    match stmt
    case InsertRun(run, _) => run !in db.runs
    case InsertJob(job, run, _) => job !in db.jobs && run in db.runs
    case UpdateStatus(_, status, _) => IsTerminal(status)
    case UpdateWhere(_, from, status, _) => !IsTerminal(from) && !status.Queued?
    case UpdateResult(job, status, key, _, _) =>
      job in db.jobs && db.jobs[job].run in db.runs && IsTerminal(status) && key == KeyOf(db, job) && key in db.blobs
    case _ => true
  }

  lemma ExecIsOnward(db: Db, stmt: Stmt)
    requires DbOk(db) && StmtOk(db, stmt)
    ensures Onward(db, Exec(db, stmt))
  {
    if stmt.UpdateResult? {
      assert PointsToBlob(db, stmt.job);
    }
  }

  lemma ExecKeepsDbOk(db: Db, stmt: Stmt)
    requires DbOk(db) && StmtOk(db, stmt)
    ensures DbOk(Exec(db, stmt))
  {
    var db' := Exec(db, stmt);
    forall id <- db'.jobs ensures db'.jobs[id].run in db'.runs && PointsToBlob(db', id) {
      if id in db.jobs {
        assert PointsToBlob(db, id);
      }
    }
  }

  // ---------- The system ----------

  /** What is left to do for a request or tick that is under way. */
  datatype Handler =
    | Dispatching(run: nat, current: Option<nat>, made: nat, failed: nat, malformed: bool)
    | Completing(job: nat, outcome: Status, key: LogKey, log: string)
    | LogStored(job: nat, outcome: Status, key: LogKey, log: string)
    | Sweeping(todo: set<nat>, found: set<nat>)
    | RollingUp(todo: set<nat>, listed: Option<(nat, Status)>)

  /** What a completion that is under way has brought. */
  function ReportOf(d: Handler): Report
    requires d.Completing? || d.LogStored?
  {
    Report(d.outcome, d.log)
  }

  /** claims counts, for each job, how many claims have succeeded. */
  datatype State = State(db: Db, handlers: map<nat, Handler>, claims: multiset<nat>)

  /** In all but Claim, which is one statement, h is the handler that takes the step. */
  datatype Step =
    | CreateRun(h: nat, run: nat, repo: nat)
    | BadFile(h: nat)
    | CreateJob(h: nat, job: nat, now: int)
    | Triggered(h: nat, ok: bool, noted: bool, now: int)
    | EndDispatch(h: nat)
    | Claim(job: nat, now: int)
    | Complete(h: nat, job: nat, outcome: Status, log: string)
    | StoreLog(h: nat)
    | SetResult(h: nat, now: int)
    | FindStuck(h: nat, cutoff: int)
    | SweepOne(h: nat, job: nat, now: int)
    | EndSweep(h: nat)
    | ListJobs(h: nat, job: nat)
    | SetRun(h: nat)
    | SkipRollup(h: nat, job: nat)
    | DropRollup(h: nat)
    | EndRollup(h: nat)
    | Abort(h: nat)

  predicate By(step: Step, h: nat) {
    !step.Claim? && step.h == h
  }

  predicate Enabled(s: State, step: Step) {
    match step
    case CreateRun(h, run, _) => h !in s.handlers && run !in s.db.runs
    case Claim(_, _) => true
    case Complete(h, job, outcome, _) =>
      && h !in s.handlers && outcome in {Passed, Failed, Error}
      && job in s.db.jobs && s.db.jobs[job].run in s.db.runs && !IsTerminal(s.db.jobs[job].status)
    case FindStuck(h, _) => h !in s.handlers
    case _ => step.h in s.handlers && Handles(s.db, s.handlers[step.h], step)
  }

  predicate Handles(db: Db, d: Handler, step: Step) {
    match step
    case BadFile(_) => d.Dispatching? && d.current.None?
    case CreateJob(_, job, _) => d.Dispatching? && d.current.None? && job !in db.jobs
    case Triggered(_, _, _, _) => d.Dispatching? && d.current.Some?
    case EndDispatch(_) => d.Dispatching? && d.current.None?
    case StoreLog(_) => d.Completing?
    case SetResult(_, _) => d.LogStored?
    case SweepOne(_, job, _) => d.Sweeping? && job in d.todo
    case EndSweep(_) => d.Sweeping? && d.todo == {}
    case ListJobs(_, job) => d.RollingUp? && d.listed.None? && job in d.todo && job in db.jobs
    case SetRun(_) => d.RollingUp? && d.listed.Some?
    case SkipRollup(_, _) => d.RollingUp? && d.listed.None?
    case DropRollup(_) => d.RollingUp? && d.listed.Some?
    case EndRollup(_) => d.RollingUp? && d.listed.None? && d.todo == {}
    case Abort(_) => true
    case _ => false
  }

  /** The statement that a step issues. */
  function StmtOf(s: State, step: Step): Stmt
    requires Enabled(s, step)
  {
    match step
    case CreateRun(_, run, repo) => InsertRun(run, repo)
    case CreateJob(h, job, now) => InsertJob(job, s.handlers[h].run, now)
    case Triggered(h, ok, noted, now) =>
      if ok || !noted then Nothing else UpdateStatus(s.handlers[h].current.value, Error, now)
    case EndDispatch(h) =>
      var d := s.handlers[h];
      if d.malformed then UpdateRun(d.run, Failed)
      else if d.made > 0 && d.failed == d.made then UpdateRun(d.run, Error)
      else Nothing
    case Claim(job, now) => UpdateWhere(job, Queued, Running, now)
    case StoreLog(h) => PutLog(s.handlers[h].key, Report(s.handlers[h].outcome, s.handlers[h].log))
    case SetResult(h, now) =>
      UpdateResult(s.handlers[h].job, s.handlers[h].outcome, s.handlers[h].key, s.handlers[h].log, now)
    case SweepOne(_, job, now) => UpdateWhere(job, Running, Error, now)
    case SetRun(h) => UpdateRun(s.handlers[h].listed.value.0, s.handlers[h].listed.value.1)
    case _ => Nothing
  }

  /** What is left to do after a step, if anything. */
  function Left(s: State, step: Step): Option<Handler>
    requires Enabled(s, step) && !step.Claim?
  {
    match step
    case CreateRun(_, run, _) => Some(Dispatching(run, None, 0, 0, false))
    case BadFile(h) => Some(s.handlers[h].(malformed := true))
    case CreateJob(h, job, _) => Some(s.handlers[h].(current := Some(job), made := s.handlers[h].made + 1))
    case Triggered(h, ok, _, _) =>
      Some(s.handlers[h].(current := None, failed := s.handlers[h].failed + if ok then 0 else 1))
    case Complete(_, job, outcome, log) => Some(Completing(job, outcome, KeyOf(s.db, job), log))
    case StoreLog(h) =>
      Some(LogStored(s.handlers[h].job, s.handlers[h].outcome, s.handlers[h].key, s.handlers[h].log))
    case SetResult(h, _) => Some(RollingUp({s.handlers[h].job}, None))
    case FindStuck(_, cutoff) =>
      Some(Sweeping(Stuck(s.db, cutoff), {}))
    case SweepOne(h, job, _) => Some(Sweeping(s.handlers[h].todo - {job}, s.handlers[h].found + {job}))
    case EndSweep(h) => Some(RollingUp(s.handlers[h].found, None))
    case ListJobs(h, job) =>
      var run := s.db.jobs[job].run;
      Some(RollingUp(s.handlers[h].todo - {job}, Some((run, RollupOf(StatusesOf(s.db, run))))))
    case SetRun(h) => Some(RollingUp(s.handlers[h].todo, None))
    case SkipRollup(h, job) => Some(RollingUp(s.handlers[h].todo - {job}, None))
    case DropRollup(h) => Some(RollingUp(s.handlers[h].todo, None))
    case _ => None
  }

  function Next(s: State, step: Step): State
    requires Enabled(s, step)
  {
    var db := Exec(s.db, StmtOf(s, step));
    if step.Claim? then
      var won := step.job in s.db.jobs && s.db.jobs[step.job].status.Queued?;
      State(db, s.handlers, if won then s.claims + multiset{step.job} else s.claims)
    else
      var left := Left(s, step);
      State(db, if left.Some? then s.handlers[step.h := left.value] else s.handlers - {step.h}, s.claims)
  }

  function Init(): State {
    State(Db(map[], map[], map[]), map[], multiset{})
  }

  // ---------- Safety ----------

  predicate HandlerOk(db: Db, d: Handler) {
    match d
    case Dispatching(run, current, _, _, _) =>
      run in db.runs && (current.Some? ==> current.value in db.jobs && db.jobs[current.value].run == run)
    case Completing(job, outcome, key, _) =>
      job in db.jobs && db.jobs[job].run in db.runs && IsTerminal(outcome) && key == KeyOf(db, job)
    case LogStored(job, outcome, key, _) =>
      && job in db.jobs && db.jobs[job].run in db.runs && IsTerminal(outcome) && key == KeyOf(db, job)
      && key in db.blobs
    case Sweeping(todo, found) =>
      && (forall id <- todo :: id in db.jobs && !db.jobs[id].status.Queued?)
      && (forall id <- found :: id in db.jobs && IsTerminal(db.jobs[id].status))
    case RollingUp(todo, listed) =>
      && (forall id <- todo :: id in db.jobs && IsTerminal(db.jobs[id].status))
      && (listed.Some? ==> listed.value.0 in db.runs)
  }

  ghost predicate ClaimsOk(db: Db, claims: multiset<nat>) {
    forall id :: claims[id] <= 1 && (claims[id] == 1 ==> id in db.jobs && !db.jobs[id].status.Queued?)
  }

  ghost predicate HandlersOk(db: Db, handlers: map<nat, Handler>) {
    forall h <- handlers :: HandlerOk(db, handlers[h])
  }

  ghost predicate Inv(s: State) {
    DbOk(s.db) && ClaimsOk(s.db, s.claims) && HandlersOk(s.db, s.handlers)
  }

  lemma StmtOfOk(s: State, step: Step)
    requires HandlersOk(s.db, s.handlers) && Enabled(s, step)
    ensures StmtOk(s.db, StmtOf(s, step))
  {
    if !step.Claim? && step.h in s.handlers {
      assert HandlerOk(s.db, s.handlers[step.h]);
    }
  }

  lemma OnwardKeepsHandler(db: Db, db': Db, d: Handler)
    requires Onward(db, db') && HandlerOk(db, d)
    ensures HandlerOk(db', d)
  {
    if d.Dispatching? && d.current.Some? {
      assert JobOnward(db.jobs[d.current.value], db'.jobs[d.current.value]);
    }
    if d.Completing? || d.LogStored? {
      assert JobOnward(db.jobs[d.job], db'.jobs[d.job]);
    }
    if d.Sweeping? {
      assert forall id <- d.todo + d.found :: JobOnward(db.jobs[id], db'.jobs[id]);
    }
    if d.RollingUp? {
      assert forall id <- d.todo :: JobOnward(db.jobs[id], db'.jobs[id]);
    }
  }

  lemma OnwardKeepsClaims(db: Db, db': Db, claims: multiset<nat>)
    requires Onward(db, db') && ClaimsOk(db, claims)
    ensures ClaimsOk(db', claims)
  {
    forall id ensures claims[id] == 1 ==> id in db'.jobs && !db'.jobs[id].status.Queued? {
      if claims[id] == 1 {
        assert JobOnward(db.jobs[id], db'.jobs[id]);
      }
    }
  }

  predicate Starts(step: Step) {
    step.CreateRun? || step.Complete? || step.FindStuck?
  }

  lemma StartOk(s: State, step: Step)
    requires Enabled(s, step) && Starts(step)
    ensures Left(s, step).Some? && HandlerOk(Exec(s.db, StmtOf(s, step)), Left(s, step).value)
  {
  }

  lemma LeftOk(s: State, step: Step)
    requires DbOk(s.db) && HandlersOk(s.db, s.handlers) && Enabled(s, step) && !step.Claim?
    ensures Left(s, step).Some? ==> HandlerOk(Exec(s.db, StmtOf(s, step)), Left(s, step).value)
  {
    if Starts(step) {
      StartOk(s, step);
    } else {
      assert HandlerOk(s.db, s.handlers[step.h]);
    }
  }

  lemma NextKeepsInv(s: State, step: Step)
    requires Inv(s) && Enabled(s, step)
    ensures Inv(Next(s, step)) && Onward(s.db, Next(s, step).db)
  {
    var stmt := StmtOf(s, step);
    StmtOfOk(s, step);
    ExecIsOnward(s.db, stmt);
    ExecKeepsDbOk(s.db, stmt);
    OnwardKeepsClaims(s.db, Exec(s.db, stmt), s.claims);
    if !step.Claim? {
      LeftOk(s, step);
    }
    forall h <- s.handlers ensures HandlerOk(Exec(s.db, stmt), s.handlers[h]) {
      OnwardKeepsHandler(s.db, Exec(s.db, stmt), s.handlers[h]);
    }
  }

  // ---------- Runs of the system ----------

  function TryStep(s: State, step: Step): Option<State> {
    if Enabled(s, step) then Some(Next(s, step)) else None
  }

  lemma OnwardOn(a: Db, b: Db, c: Db)
    requires Onward(a, b) && Onward(b, c)
    ensures Onward(a, c)
  {
    forall id <- a.jobs ensures id in c.jobs && JobOnward(a.jobs[id], c.jobs[id]) {
      assert JobOnward(a.jobs[id], b.jobs[id]);
    }
  }

  lemma {:induction false} RunIsOnward(s: State, steps: seq<Step>, s': State)
    requires Inv(s) && Runs(TryStep, s, steps, s')
    ensures Inv(s') && Onward(s.db, s'.db)
    decreases |steps|
  {
    if steps != [] {
      var mid := Next(s, steps[0]);
      NextKeepsInv(s, steps[0]);
      RunIsOnward(mid, steps[1..], s');
      OnwardOn(s.db, mid.db, s'.db);
    }
  }

  lemma LaterIsOnward(s: State, s': State)
    requires Inv(s) && Later(TryStep, s, s')
    ensures Inv(s') && Onward(s.db, s'.db)
  {
    var steps :| Runs(TryStep, s, steps, s');
    RunIsOnward(s, steps, s');
  }

  lemma {:induction false} ClaimsGrow(s: State, steps: seq<Step>, s': State, job: nat)
    requires Runs(TryStep, s, steps, s')
    ensures s.claims[job] <= s'.claims[job]
    decreases |steps|
  {
    if steps != [] {
      ClaimsGrow(Next(s, steps[0]), steps[1..], s', job);
    }
  }

  /**
   In every reachable state: no job was claimed successfully twice, and a job with a log key
   has its own log in the store.
   */
  lemma ClaimedOnceLogStored(steps: seq<Step>, s: State, job: nat)
    requires Runs(TryStep, Init(), steps, s)
    ensures s.claims[job] <= 1
    ensures job in s.db.jobs ==> s.db.jobs[job].run in s.db.runs
    ensures job in s.db.jobs && s.db.jobs[job].logKey.Some? ==>
      s.db.jobs[job].logKey == Some(KeyOf(s.db, job)) && KeyOf(s.db, job) in s.db.blobs
  {
    RunIsOnward(Init(), steps, s);
    assert job in s.db.jobs ==> PointsToBlob(s.db, job);
  }

  /** From any reachable state on, a finished job stays finished and a claimed one is not queued again. */
  lemma FinishedForGood(before: seq<Step>, s: State, after: seq<Step>, s': State, job: nat)
    requires Runs(TryStep, Init(), before, s) && Runs(TryStep, s, after, s')
    requires job in s.db.jobs
    ensures job in s'.db.jobs
    ensures IsTerminal(s.db.jobs[job].status) ==> IsTerminal(s'.db.jobs[job].status)
    ensures !s.db.jobs[job].status.Queued? ==> !s'.db.jobs[job].status.Queued?
  {
    RunIsOnward(Init(), before, s);
    RunIsOnward(s, after, s');
    assert JobOnward(s.db.jobs[job], s'.db.jobs[job]);
  }

  /** The two unconditional updates, when they carry another outcome than the one recorded. */
  ghost predicate Replaces(s: State, step: Step, job: nat)
    requires Enabled(s, step) && job in s.db.jobs
  {
    || (step.SetResult? && s.handlers[step.h].job == job && s.handlers[step.h].outcome != s.db.jobs[job].status)
    || (step.Triggered? && !step.ok && step.noted && s.handlers[step.h].current.value == job
        && !s.db.jobs[job].status.Error?)
  }

  /**
   The outcome of a finished job is replaced by a step exactly when the step is a completion
   that read the job before it was finished, or the note of a failed trigger, with another
   outcome.
   */
  lemma OutcomeReplacedIff(s: State, step: Step, job: nat)
    requires Inv(s) && Enabled(s, step) && job in s.db.jobs && IsTerminal(s.db.jobs[job].status)
    ensures job in Next(s, step).db.jobs
    ensures Next(s, step).db.jobs[job].status != s.db.jobs[job].status <==> Replaces(s, step, job)
  {
    StmtOfOk(s, step);
    ExecReplacesIff(s.db, StmtOf(s, step), job);
  }

  lemma ExecReplacesIff(db: Db, stmt: Stmt, job: nat)
    requires job in db.jobs && IsTerminal(db.jobs[job].status) && StmtOk(db, stmt)
    ensures job in Exec(db, stmt).jobs
    ensures Exec(db, stmt).jobs[job].status != db.jobs[job].status <==>
            (stmt.UpdateStatus? || stmt.UpdateResult?) && stmt.job == job && stmt.status != db.jobs[job].status
  {
  }

  lemma LaterTo(s: State, mid: State, step: Step, s': State)
    requires Later(TryStep, s, mid) && Enabled(mid, step) && Next(mid, step) == s'
    ensures Later(TryStep, s, s')
  {
    LaterStep(TryStep, s, mid, step, s');
  }
}
