/**
 What is final about a CI job, over runs of the system of module Jobs: its outcome, and the log
 that goes with it.
 */
module JobFinality {
  import opened Jobs
  import opened JobStatus
  import opened Traces
  import opened Wrappers

  // ---------- The outcome of a job ----------

  /** The completion has read the job, and will record this. */
  predicate Reports(d: Handler, job: nat) {
    (d.Completing? || d.LogStored?) && d.job == job
  }

  predicate CanReplace(d: Handler, job: nat, status: Status) {
    || (Reports(d, job) && d.outcome != status)
    || (d.Dispatching? && d.current == Some(job) && status != Error)
  }

  /** Nothing under way holds another outcome of the job. */
  ghost predicate Settled(s: State, job: nat)
    requires job in s.db.jobs
  {
    forall h <- s.handlers :: !CanReplace(s.handlers[h], job, s.db.jobs[job].status)
  }

  lemma StepKeepsSettled(s: State, step: Step, job: nat)
    requires Inv(s) && Enabled(s, step)
    requires job in s.db.jobs && IsTerminal(s.db.jobs[job].status) && Settled(s, job)
    ensures job in Next(s, step).db.jobs && Next(s, step).db.jobs[job].status == s.db.jobs[job].status
    ensures Settled(Next(s, step), job)
  {
    var s' := Next(s, step);
    if !step.Claim? && step.h in s.handlers {
      assert !CanReplace(s.handlers[step.h], job, s.db.jobs[job].status);
    }
    OutcomeReplacedIff(s, step, job);
    forall h <- s'.handlers ensures !CanReplace(s'.handlers[h], job, s'.db.jobs[job].status) {
      if !By(step, h) {
        OthersKeepHandler(s, step, h);
      }
    }
  }

  lemma {:induction false} RunKeepsSettled(s: State, steps: seq<Step>, s': State, job: nat)
    requires Inv(s) && Runs(TryStep, s, steps, s')
    requires job in s.db.jobs && IsTerminal(s.db.jobs[job].status) && Settled(s, job)
    ensures job in s'.db.jobs && s'.db.jobs[job].status == s.db.jobs[job].status
    decreases |steps|
  {
    if steps != [] {
      NextKeepsInv(s, steps[0]);
      StepKeepsSettled(s, steps[0], job);
      RunKeepsSettled(Next(s, steps[0]), steps[1..], s', job);
    }
  }

  lemma NotedMoves(s: State, h: nat, job: nat)
    requires Inv(s) && job in s.db.jobs && h in s.handlers
    requires s.handlers[h].Dispatching? && s.handlers[h].current == Some(job) && s.db.jobs[job].status != Error
    ensures Moves(s, job)
  {
    var s' := Next(s, Triggered(h, false, true, 0));
    LaterSame(TryStep, s);
    LaterTo(s, s, Triggered(h, false, true, 0), s');
  }

  lemma StoredMoves(s: State, h: nat, job: nat)
    requires Inv(s) && job in s.db.jobs && h in s.handlers
    requires s.handlers[h].LogStored? && s.handlers[h].job == job && s.handlers[h].outcome != s.db.jobs[job].status
    ensures Moves(s, job)
  {
    var s' := Next(s, SetResult(h, 0));
    LaterSame(TryStep, s);
    LaterTo(s, s, SetResult(h, 0), s');
  }

  lemma ReadMoves(s: State, h: nat, job: nat)
    requires Inv(s) && job in s.db.jobs && h in s.handlers
    requires s.handlers[h].Completing? && s.handlers[h].job == job && s.handlers[h].outcome != s.db.jobs[job].status
    ensures Moves(s, job)
  {
    var mid := Next(s, StoreLog(h));
    NextKeepsInv(s, StoreLog(h));
    LaterSame(TryStep, s);
    LaterTo(s, s, StoreLog(h), mid);
    StoredMoves(mid, h, job);
    var s' :| Later(TryStep, mid, s') && job in s'.db.jobs && s'.db.jobs[job].status != mid.db.jobs[job].status;
    LaterOn(TryStep, s, mid, s');
  }

  /** The status of the job can still change. */
  ghost predicate Moves(s: State, job: nat)
    requires job in s.db.jobs
  {
    exists s' :: Later(TryStep, s, s') && job in s'.db.jobs && s'.db.jobs[job].status != s.db.jobs[job].status
  }

  /** A handler that holds another outcome can record it at once. */
  lemma UnsettledMoves(s: State, h: nat, job: nat)
    requires Inv(s) && job in s.db.jobs && h in s.handlers
    requires CanReplace(s.handlers[h], job, s.db.jobs[job].status)
    ensures Moves(s, job)
  {
    match s.handlers[h] {
      case Dispatching(_, _, _, _, _) => NotedMoves(s, h, job);
      case LogStored(_, _, _, _) => StoredMoves(s, h, job);
      case Completing(_, _, _, _) => ReadMoves(s, h, job);
    }
  }

  /**
   The outcome of a finished job is final, in everything that can still happen, exactly when
   no completion that read the job before it was finished is under way with another outcome,
   and no dispatch may yet note that the job failed to start.
   */
  lemma OutcomeFinalIff(s: State, job: nat)
    requires Inv(s) && job in s.db.jobs && IsTerminal(s.db.jobs[job].status)
    ensures (forall s' | Later(TryStep, s, s') :: job in s'.db.jobs && s'.db.jobs[job].status == s.db.jobs[job].status)
            <==> Settled(s, job)
  {
    if Settled(s, job) {
      forall s' | Later(TryStep, s, s')
        ensures job in s'.db.jobs && s'.db.jobs[job].status == s.db.jobs[job].status
      {
        var steps: seq<Step> :| Runs(TryStep, s, steps, s');
        RunKeepsSettled(s, steps, s', job);
      }
    } else {
      var h :| h in s.handlers && CanReplace(s.handlers[h], job, s.db.jobs[job].status);
      UnsettledMoves(s, h, job);
    }
  }

  // ---------- The log of a job ----------

  /** The log that the row points to, and the outcome in the row, are those of one completion. */
  predicate Together(db: Db, id: nat)
    requires id in db.jobs
  {
    var job := db.jobs[id];
    job.logKey.Some? ==>
      && job.logKey.value in db.blobs && job.report == Some(db.blobs[job.logKey.value])
      && job.status == job.report.value.outcome
  }

  /** A completion with another outcome or log, or the note of a trigger failure, can part the two. */
  predicate CanPart(d: Handler, id: nat, job: Job) {
    || (Reports(d, id) && Some(ReportOf(d)) != job.report)
    || (d.Dispatching? && d.current == Some(id) && job.status != Error)
  }

  ghost predicate NothingParts(s: State, id: nat)
    requires id in s.db.jobs
  {
    forall h <- s.handlers :: !CanPart(s.handlers[h], id, s.db.jobs[id])
  }

  lemma KeysDiffer(db: Db, a: nat, b: nat)
    requires a in db.jobs && db.jobs[a].run in db.runs && b in db.jobs && db.jobs[b].run in db.runs && a != b
    ensures KeyOf(db, a) != KeyOf(db, b)
  {
  }

  /** The statement brings nothing new about a finished job. */
  predicate Repeats(db: Db, stmt: Stmt, id: nat)
    requires id in db.jobs && db.jobs[id].run in db.runs
  {
    match stmt
    case PutLog(key, report) => key == KeyOf(db, id) ==> Some(report) == db.jobs[id].report
    case UpdateResult(job, status, _, log, _) => job == id ==> Some(Report(status, log)) == db.jobs[id].report
    case UpdateStatus(job, status, _) => job == id ==> status == db.jobs[id].status
    case _ => true
  }

  predicate IsEnded(db: Db, id: nat) {
    id in db.jobs && IsTerminal(db.jobs[id].status) && db.jobs[id].logKey.Some?
  }

  lemma ExecKeepsTogether(db: Db, stmt: Stmt, id: nat)
    requires DbOk(db) && StmtOk(db, stmt) && IsEnded(db, id) && Together(db, id) && Repeats(db, stmt, id)
    ensures IsEnded(Exec(db, stmt), id) && Together(Exec(db, stmt), id)
    ensures Exec(db, stmt).jobs[id].report == db.jobs[id].report
    ensures Exec(db, stmt).jobs[id].status == db.jobs[id].status
  {
    assert PointsToBlob(db, id);
  }

  lemma StepRepeats(s: State, step: Step, id: nat)
    requires Inv(s) && Enabled(s, step) && id in s.db.jobs && s.db.jobs[id].run in s.db.runs && NothingParts(s, id)
    ensures Repeats(s.db, StmtOf(s, step), id)
  {
    if step.StoreLog? || step.SetResult? || step.Triggered? {
      var d := s.handlers[step.h];
      assert HandlerOk(s.db, d) && !CanPart(d, id, s.db.jobs[id]);
      if !step.Triggered? && d.job != id {
        KeysDiffer(s.db, d.job, id);
      }
    }
  }

  /** No completion of a finished job begins, and no dispatch comes to hold it. */
  lemma NoNewPart(s: State, step: Step, id: nat, h: nat)
    requires Enabled(s, step) && id in s.db.jobs && IsTerminal(s.db.jobs[id].status)
    requires h in Next(s, step).handlers && CanPart(Next(s, step).handlers[h], id, s.db.jobs[id])
    ensures h in s.handlers && CanPart(s.handlers[h], id, s.db.jobs[id])
  {
    if !By(step, h) {
      OthersKeepHandler(s, step, h);
    }
  }

  lemma StepKeepsTogether(s: State, step: Step, id: nat)
    requires Inv(s) && Enabled(s, step) && IsEnded(s.db, id) && Together(s.db, id) && NothingParts(s, id)
    ensures IsEnded(Next(s, step).db, id) && Together(Next(s, step).db, id) && NothingParts(Next(s, step), id)
  {
    var s' := Next(s, step);
    assert s.db.jobs[id].run in s.db.runs;
    StmtOfOk(s, step);
    StepRepeats(s, step, id);
    ExecKeepsTogether(s.db, StmtOf(s, step), id);
    forall h <- s'.handlers | CanPart(s'.handlers[h], id, s'.db.jobs[id]) ensures false {
      NoNewPart(s, step, id, h);
    }
  }

  lemma {:induction false} RunKeepsTogether(s: State, steps: seq<Step>, s': State, id: nat)
    requires Inv(s) && Runs(TryStep, s, steps, s')
    requires IsEnded(s.db, id) && Together(s.db, id) && NothingParts(s, id)
    ensures id in s'.db.jobs && Together(s'.db, id)
    decreases |steps|
  {
    if steps != [] {
      NextKeepsInv(s, steps[0]);
      StepKeepsTogether(s, steps[0], id);
      RunKeepsTogether(Next(s, steps[0]), steps[1..], s', id);
    }
  }

  /** One step parts the two: the log is stored, the result is recorded, or the failure is noted. */
  lemma HandlerParts(s: State, h: nat, id: nat) returns (s': State)
    requires Inv(s) && IsEnded(s.db, id) && Together(s.db, id)
    requires h in s.handlers && CanPart(s.handlers[h], id, s.db.jobs[id])
    ensures Later(TryStep, s, s') && id in s'.db.jobs && !Together(s'.db, id)
  {
    var step := match s.handlers[h]
      case Completing(_, _, _, _) => StoreLog(h)
      case LogStored(_, _, _, _) => SetResult(h, 0)
      case _ => Triggered(h, false, true, 0);
    assert HandlerOk(s.db, s.handlers[h]) && PointsToBlob(s.db, id);
    s' := Next(s, step);
    LaterSame(TryStep, s);
    LaterTo(s, s, step, s');
  }

  /**
   The row and the log of a finished job are those of one completion, in everything that can
   still happen, exactly when no completion of it is under way with another outcome or log, and
   no dispatch may yet note that the job failed to start.
   */
  lemma LogBelongsForGoodIff(s: State, id: nat)
    requires Inv(s) && IsEnded(s.db, id) && Together(s.db, id)
    ensures (forall s' | Later(TryStep, s, s') :: id in s'.db.jobs && Together(s'.db, id)) <==> NothingParts(s, id)
  {
    if NothingParts(s, id) {
      forall s' | Later(TryStep, s, s') ensures id in s'.db.jobs && Together(s'.db, id) {
        var steps: seq<Step> :| Runs(TryStep, s, steps, s');
        RunKeepsTogether(s, steps, s', id);
      }
    } else {
      var h :| h in s.handlers && CanPart(s.handlers[h], id, s.db.jobs[id]);
      var s' := HandlerParts(s, h, id);
    }
  }

  /** A trigger failure is noted for a job that has its log and another outcome than error. */
  predicate NotesLate(s: State, step: Step, id: nat)
    requires Enabled(s, step)
  {
    && step.Triggered? && !step.ok && step.noted && s.handlers[step.h].current == Some(id)
    && id in s.db.jobs && s.db.jobs[id].logKey.Some? && s.db.jobs[id].status != Error
  }

  function NotesInTime(id: nat): (State, Step) -> bool {
    (s, step) => Enabled(s, step) && !NotesLate(s, step, id)
  }

  /** What the completions of the job have stored is in the store. */
  ghost predicate OwnBlobs(s: State, db: Db, id: nat) {
    forall h <- s.handlers | s.handlers[h].LogStored? && s.handlers[h].job == id ::
      s.handlers[h].key in db.blobs && db.blobs[s.handlers[h].key] == ReportOf(s.handlers[h])
  }

  /** The row goes with its log, or the completion under way is between the two writes. */
  ghost predicate LogKept(s: State, id: nat) {
    && (id in s.db.jobs ==> Together(s.db, id) || BetweenWrites(s, id))
    && OwnBlobs(s, s.db, id)
  }

  ghost predicate BetweenWrites(s: State, id: nat) {
    exists h <- s.handlers :: s.handlers[h].LogStored? && s.handlers[h].job == id
  }

  lemma ExecKeepsOtherLogs(db: Db, stmt: Stmt, id: nat)
    requires DbOk(db) && StmtOk(db, stmt) && id in db.jobs && Together(db, id)
    requires stmt.PutLog? ==> stmt.key != KeyOf(db, id)
    requires stmt.UpdateResult? ==> stmt.job != id
    requires stmt.UpdateStatus? && stmt.job == id ==>
               db.jobs[id].logKey.None? || stmt.status == db.jobs[id].status
    requires stmt.UpdateWhere? && stmt.job == id ==>
               db.jobs[id].logKey.None? || IsTerminal(db.jobs[id].status)
    ensures id in Exec(db, stmt).jobs && Together(Exec(db, stmt), id)
  {
    assert PointsToBlob(db, id);
  }

  /** The two writes of a completion of the job. */
  lemma CompletionKeepsLog(s: State, step: Step, id: nat)
    requires Inv(s) && OneAtATime(s) && Enabled(s, step) && (step.StoreLog? || step.SetResult?)
    requires s.handlers[step.h].job == id && LogKept(s, id)
    ensures LogKept(Next(s, step), id)
  {
    var s' := Next(s, step);
    assert HandlerOk(s.db, s.handlers[step.h]);
    forall h <- s'.handlers | h != step.h ensures h in s.handlers && s'.handlers[h].Dispatching? {
      OthersKeepHandler(s, step, h);
    }
    if step.StoreLog? {
      assert s'.handlers[step.h].LogStored?;
    }
  }

  lemma OthersBetweenWrites(s: State, step: Step, id: nat)
    requires IsOrderly(s, step) && ((step.StoreLog? || step.SetResult?) ==> s.handlers[step.h].job != id)
    ensures forall h <- Next(s, step).handlers
              | Next(s, step).handlers[h].LogStored? && Next(s, step).handlers[h].job == id ::
              h in s.handlers && Next(s, step).handlers[h] == s.handlers[h]
    ensures BetweenWrites(s, id) ==> BetweenWrites(Next(s, step), id)
  {
    var s' := Next(s, step);
    forall h | h in s'.handlers && s'.handlers[h].LogStored? && s'.handlers[h].job == id
      ensures h in s.handlers && s'.handlers[h] == s.handlers[h]
    {
      if !By(step, h) {
        OthersKeepHandler(s, step, h);
      }
    }
    if h :| h in s.handlers && s.handlers[h].LogStored? && s.handlers[h].job == id {
      OthersKeepHandler(s, step, h);
      assert s'.handlers[h] == s.handlers[h];
    }
  }

  /** A row with a log is finished, whatever wrote it. */
  ghost predicate LoggedIsEnded(db: Db) {
    forall id <- db.jobs | db.jobs[id].logKey.Some? :: IsTerminal(db.jobs[id].status)
  }

  lemma ExecKeepsLoggedEnded(db: Db, stmt: Stmt)
    requires StmtOk(db, stmt) && LoggedIsEnded(db)
    ensures LoggedIsEnded(Exec(db, stmt))
  {
  }

  lemma OwnBlobsStay(s: State, step: Step, id: nat)
    requires Inv(s) && Enabled(s, step) && (step.StoreLog? ==> s.handlers[step.h].job != id)
    requires OwnBlobs(s, s.db, id)
    ensures OwnBlobs(s, Next(s, step).db, id)
  {
    forall h <- s.handlers | s.handlers[h].LogStored? && s.handlers[h].job == id
      ensures s.handlers[h].key in Next(s, step).db.blobs
      ensures Next(s, step).db.blobs[s.handlers[h].key] == ReportOf(s.handlers[h])
    {
      OwnKey(s, h);
      BlobStays(s, step, id);
    }
  }

  lemma OtherStepKeepsLog(s: State, step: Step, id: nat)
    requires Inv(s) && IsOrderly(s, step) && !NotesLate(s, step, id) && LoggedIsEnded(s.db) && LogKept(s, id)
    requires (step.StoreLog? || step.SetResult?) ==> s.handlers[step.h].job != id
    ensures LogKept(Next(s, step), id)
  {
    var stmt := StmtOf(s, step);
    StmtOfOk(s, step);
    OthersBetweenWrites(s, step, id);
    if id in s.db.jobs {
      assert s.db.jobs[id].run in s.db.runs;
      if step.StoreLog? || step.SetResult? {
        assert HandlerOk(s.db, s.handlers[step.h]);
        KeysDiffer(s.db, s.handlers[step.h].job, id);
      }
      if Together(s.db, id) {
        ExecKeepsOtherLogs(s.db, stmt, id);
      }
    }
    OwnBlobsStay(s, step, id);
  }

  lemma OwnKey(s: State, h: nat)
    requires Inv(s) && h in s.handlers && s.handlers[h].LogStored?
    ensures
      var id := s.handlers[h].job;
      id in s.db.jobs && s.db.jobs[id].run in s.db.runs && s.handlers[h].key == KeyOf(s.db, id)
  {
    assert HandlerOk(s.db, s.handlers[h]);
  }

  /** Only a completion of the job itself writes under its key. */
  lemma BlobStays(s: State, step: Step, id: nat)
    requires Inv(s) && Enabled(s, step) && (step.StoreLog? ==> s.handlers[step.h].job != id)
    requires id in s.db.jobs && s.db.jobs[id].run in s.db.runs && KeyOf(s.db, id) in s.db.blobs
    ensures
      var blobs := Next(s, step).db.blobs;
      KeyOf(s.db, id) in blobs && blobs[KeyOf(s.db, id)] == s.db.blobs[KeyOf(s.db, id)]
  {
    if step.StoreLog? {
      assert HandlerOk(s.db, s.handlers[step.h]);
      KeysDiffer(s.db, s.handlers[step.h].job, id);
    }
  }

  lemma {:induction false} RunKeepsLog(s: State, steps: seq<Step>, s': State, id: nat)
    requires Inv(s) && OneAtATime(s) && LoggedIsEnded(s.db) && LogKept(s, id)
    requires Runs(TryStep, s, steps, s')
    requires EachStep(TryStep, Orderly(), s, steps) && EachStep(TryStep, NotesInTime(id), s, steps)
    ensures LogKept(s', id)
    decreases |steps|
  {
    if steps != [] {
      assert Orderly()(s, steps[0]) && NotesInTime(id)(s, steps[0]);
      NextKeepsInv(s, steps[0]);
      OrderlyKeepsOne(s, steps[0]);
      StmtOfOk(s, steps[0]);
      ExecKeepsLoggedEnded(s.db, StmtOf(s, steps[0]));
      if (steps[0].StoreLog? || steps[0].SetResult?) && s.handlers[steps[0].h].job == id {
        CompletionKeepsLog(s, steps[0], id);
      } else {
        OtherStepKeepsLog(s, steps[0], id);
      }
      RunKeepsLog(Next(s, steps[0]), steps[1..], s', id);
    }
  }

  /**
   When completions and sweeps go one at a time, whatever claims and dispatches do meanwhile,
   row and log of a job are those of one completion whenever none is under way, as long as no
   trigger failure is noted for the job after it has its log.
   */
  lemma LogsBelong(steps: seq<Step>, s: State, id: nat)
    requires Runs(TryStep, Init(), steps, s) && EachStep(TryStep, Orderly(), Init(), steps)
    requires EachStep(TryStep, NotesInTime(id), Init(), steps)
    requires Quiet(s) && id in s.db.jobs
    ensures Together(s.db, id)
  {
    RunKeepsLog(Init(), steps, s, id);
  }

  /** Nothing can bring the outcome back after a late note. */
  ghost predicate Parted(s: State, id: nat) {
    && IsEnded(s.db, id) && s.db.jobs[id].status == Error
    && s.db.jobs[id].report.Some? && s.db.jobs[id].report.value.outcome != Error
    && forall h <- s.handlers :: !Reports(s.handlers[h], id)
  }

  lemma NoNewReport(s: State, step: Step, id: nat)
    requires Enabled(s, step) && id in s.db.jobs && IsTerminal(s.db.jobs[id].status)
    requires forall h <- s.handlers :: !Reports(s.handlers[h], id)
    ensures forall h <- Next(s, step).handlers :: !Reports(Next(s, step).handlers[h], id)
  {
    var s' := Next(s, step);
    forall h | h in s'.handlers ensures !Reports(s'.handlers[h], id) {
      if !By(step, h) {
        OthersKeepHandler(s, step, h);
      }
    }
  }

  lemma {:induction false} StaysParted(s: State, steps: seq<Step>, s': State, id: nat)
    requires Inv(s) && Parted(s, id) && Runs(TryStep, s, steps, s')
    ensures Parted(s', id)
    decreases |steps|
  {
    if steps != [] {
      NextKeepsInv(s, steps[0]);
      NoNewReport(s, steps[0], id);
      StepStaysParted(s, steps[0], id);
      StaysParted(Next(s, steps[0]), steps[1..], s', id);
    }
  }

  lemma StepStaysParted(s: State, step: Step, id: nat)
    requires Inv(s) && Parted(s, id) && Enabled(s, step)
    ensures IsEnded(Next(s, step).db, id)
    ensures Next(s, step).db.jobs[id].status == Error && Next(s, step).db.jobs[id].report == s.db.jobs[id].report
  {
    StmtOfOk(s, step);
    if step.SetResult? {
      assert !Reports(s.handlers[step.h], id);
    }
  }

  /**
   After its last completion, row and log of a job stay together exactly as long as no trigger
   failure is noted for it.
   */
  lemma {:induction false} LogStaysIff(s: State, steps: seq<Step>, s': State, id: nat)
    requires Inv(s) && IsEnded(s.db, id) && Together(s.db, id)
    requires forall h <- s.handlers :: !Reports(s.handlers[h], id)
    requires Runs(TryStep, s, steps, s')
    ensures id in s'.db.jobs && (Together(s'.db, id) <==> EachStep(TryStep, NotesInTime(id), s, steps))
    decreases |steps|
  {
    if steps != [] {
      var next := Next(s, steps[0]);
      NextKeepsInv(s, steps[0]);
      NoNewReport(s, steps[0], id);
      LateNoteParts(s, steps[0], id);
      if NotesLate(s, steps[0], id) {
        StaysParted(next, steps[1..], s', id);
      } else {
        LogStaysIff(next, steps[1..], s', id);
      }
    }
  }

  lemma LateNoteParts(s: State, step: Step, id: nat)
    requires Inv(s) && Enabled(s, step) && IsEnded(s.db, id) && Together(s.db, id)
    requires forall h <- s.handlers :: !Reports(s.handlers[h], id)
    ensures IsEnded(Next(s, step).db, id)
    ensures if NotesLate(s, step, id) then
              && Next(s, step).db.jobs[id].status == Error
              && Next(s, step).db.jobs[id].report == s.db.jobs[id].report
              && s.db.jobs[id].report.Some? && s.db.jobs[id].report.value.outcome != Error
            else Together(Next(s, step).db, id)
  {
    StmtOfOk(s, step);
    if step.StoreLog? || step.SetResult? {
      assert HandlerOk(s.db, s.handlers[step.h]) && !Reports(s.handlers[step.h], id);
      KeysDiffer(s.db, s.handlers[step.h].job, id);
    }
    if !NotesLate(s, step, id) {
      ExecKeepsOtherLogs(s.db, StmtOf(s, step), id);
    }
  }
}
