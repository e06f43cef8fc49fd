/**
 What concurrent handlers can do to a job's outcome, its log and a run's status: reachable runs
 of the system of module Jobs, each the failing side of a condition in JobStatus, JobFinality or
 JobVerdict.
 */
module JobRaces {
  import opened Jobs
  import opened JobFinality
  import opened JobRuns
  import opened JobStatus
  import opened Traces
  import opened Wrappers

  // ---------- One run with one job ----------

  const KEY := LogKey(7, 1, 1)

  function Rows(status: Status, job: Job): Db {
    Db(map[1 := Run(7, status)], map[1 := job], map[])
  }

  /** A completion has brought this outcome and this log. */
  function Reported(outcome: Status, log: string): Job {
    Job(1, outcome, Some(KEY), 0, Some(Report(outcome, log)))
  }

  function Logged(status: Status, outcome: Status, log: string): Db {
    Db(map[1 := Run(7, status)], map[1 := Reported(outcome, log)], map[KEY := Report(outcome, log)])
  }

  lemma RollupOfOne(status: Status, job: Job)
    requires job.run == 1
    ensures RollupIn(Rows(status, job), 1) == RollupOf({job.status})
    ensures job.status in {Passed, Failed, Error} ==> RollupOf({job.status}) == job.status
  {
    var db := Rows(status, job);
    assert db.jobs[1] == job;
    assert StatusesOf(db, 1) == {job.status};
  }

  /** The status of a run with one job, whose file may come with a malformed one, after its dispatch. */
  function AfterDispatch(bad: bool, starts: bool): Status {
    if bad then Failed else if starts then Queued else Error
  }

  function Inserted(bad: bool): State {
    State(Rows(Queued, NewJob(1, Queued, 0)), map[0 := Dispatching(1, Some(1), 1, 0, bad)], multiset{})
  }

  /** The dispatch is over. */
  function Waiting(bad: bool, starts: bool): State {
    State(Rows(AfterDispatch(bad, starts), NewJob(1, Queued, 0)), map[], multiset{})
  }

  /** The job is claimed, even if its runner was said not to start. */
  function Claimed(bad: bool, starts: bool): State {
    State(Rows(AfterDispatch(bad, starts), NewJob(1, Running, 0)), map[], multiset{1})
  }

  function Created(bad: bool): State {
    State(Db(map[1 := Run(7, Queued)], map[], map[]), map[0 := Dispatching(1, None, 0, 0, bad)], multiset{})
  }

  lemma CreatesRun()
    ensures Later(TryStep, Init(), Created(false))
  {
    OneStep(Init(), CreateRun(0, 1, 7), Created(false));
  }

  lemma Inserts(bad: bool)
    ensures Later(TryStep, Init(), Inserted(bad))
  {
    CreatesRun();
    if bad {
      LaterTo(Init(), Created(false), BadFile(0), Created(true));
    }
    LaterTo(Init(), Created(bad), CreateJob(0, 1, 0), Inserted(bad));
  }

  /** The runner has been started, or that has failed and the note of it too. */
  function Started(bad: bool, starts: bool): State {
    Inserted(bad).(handlers := map[0 := Dispatching(1, None, 1, if starts then 0 else 1, bad)])
  }

  lemma StartedIsReachable(bad: bool, starts: bool)
    ensures Later(TryStep, Init(), Started(bad, starts))
  {
    Inserts(bad);
    LaterTo(Init(), Inserted(bad), Triggered(0, starts, false, 0), Started(bad, starts));
  }

  lemma Ends(bad: bool, starts: bool)
    ensures Later(TryStep, Started(bad, starts), Waiting(bad, starts))
  {
    assert Started(bad, starts).handlers - {0} == map[];
    OneStep(Started(bad, starts), EndDispatch(0), Waiting(bad, starts));
  }

  lemma Claims(bad: bool, starts: bool)
    ensures Later(TryStep, Waiting(bad, starts), Claimed(bad, starts))
  {
    OneStep(Waiting(bad, starts), Claim(1, 0), Claimed(bad, starts));
  }

  lemma ClaimedIsReachable(bad: bool, starts: bool)
    ensures Later(TryStep, Init(), Claimed(bad, starts))
  {
    StartedIsReachable(bad, starts);
    Ends(bad, starts);
    Claims(bad, starts);
    Chain(Init(), Started(bad, starts), Waiting(bad, starts), Claimed(bad, starts));
  }

  // ---------- The verdict of a dispatch does not last ----------

  lemma CompletedOne(status: Status, outcome: Status, log: string)
    requires outcome in {Passed, Failed, Error}
    ensures Completed(Rows(status, NewJob(1, Running, 0)), 1, outcome, log, 0) == Logged(status, outcome, log)
    ensures RollupIn(Logged(status, outcome, log), 1) == outcome
  {
    RollupOfOne(status, Reported(outcome, log));
    SameJobsSameRollup(Rows(status, Reported(outcome, log)), Logged(status, outcome, log), 1);
  }

  lemma ClaimedCompletes(bad: bool, starts: bool, outcome: Status, log: string)
    requires outcome in {Passed, Failed, Error}
    ensures Later(TryStep, Claimed(bad, starts), State(Logged(outcome, outcome, log), map[], multiset{1}))
  {
    var verdict := AfterDispatch(bad, starts);
    CompletedOne(verdict, outcome, log);
    assert Exec(Logged(verdict, outcome, log), UpdateRun(1, outcome)) == Logged(outcome, outcome, log);
    Completes(Claimed(bad, starts), 1, 1, outcome, log);
  }

  /**
   A malformed file fails a run; so does, as an error, that no runner starts. The outcome of
   the one job replaces either when it is recorded.
   */
  lemma VerdictIsReplaced(bad: bool, starts: bool, outcome: Status, log: string)
    requires outcome in {Passed, Failed, Error}
    ensures
      var verdict := AfterDispatch(bad, starts);
      && Later(TryStep, Init(), Claimed(bad, starts)) && Claimed(bad, starts).db.runs[1].status == verdict
      && Later(TryStep, Claimed(bad, starts), State(Logged(outcome, outcome, log), map[], multiset{1}))
  {
    ClaimedIsReachable(bad, starts);
    ClaimedCompletes(bad, starts, outcome, log);
  }

  // ---------- A dispatch that adds a job to a run that is rolled up ----------

  /** The first job of the run is claimed while the dispatch goes on. */
  const WORKING := State(Rows(Queued, NewJob(1, Running, 0)), map[0 := Dispatching(1, None, 1, 0, false)], multiset{1})

  /** The first job has passed and its run with it; the second one is waiting. */
  const LATE_ROWS := Db(
    map[1 := Run(7, Passed)],
    map[1 := Reported(Passed, "a"), 2 := NewJob(1, Queued, 0)],
    map[KEY := Report(Passed, "a")])

  lemma LateRowsAreWrong()
    ensures !Right(LATE_ROWS, 1)
  {
    assert LATE_ROWS.jobs[2].status == Queued;
    assert Queued in StatusesOf(LATE_ROWS, 1);
  }

  lemma WorkingIsReachable()
    ensures Later(TryStep, Init(), WORKING)
  {
    StartedIsReachable(false, true);
    LaterTo(Init(), Started(false, true), Claim(1, 0), WORKING);
  }

  const PASSED_EARLY := WORKING.(db := Logged(Passed, Passed, "a"))

  lemma PassesEarly()
    ensures Later(TryStep, WORKING, PASSED_EARLY)
  {
    CompletedOne(Queued, Passed, "a");
    Completes(WORKING, 1, 1, Passed, "a");
    assert Exec(Logged(Queued, Passed, "a"), UpdateRun(1, Passed)) == PASSED_EARLY.db;
  }

  lemma AddsLate()
    ensures Later(TryStep, PASSED_EARLY, State(LATE_ROWS, map[0 := Dispatching(1, None, 2, 0, false)], multiset{1}))
  {
    var a := State(LATE_ROWS, map[0 := Dispatching(1, Some(2), 2, 0, false)], multiset{1});
    OneStep(PASSED_EARLY, CreateJob(0, 2, 0), a);
    LaterTo(PASSED_EARLY, a, Triggered(0, true, false, 0), a.(handlers := map[0 := Dispatching(1, None, 2, 0, false)]));
  }

  lemma EndsLate()
    ensures Later(
              TryStep, State(LATE_ROWS, map[0 := Dispatching(1, None, 2, 0, false)], multiset{1}),
              State(LATE_ROWS, map[], multiset{1}))
  {
    var s := State(LATE_ROWS, map[0 := Dispatching(1, None, 2, 0, false)], multiset{1});
    OneStep(s, EndDispatch(0), s.(handlers := map[]));
  }

  /**
   recordRun starts the first runner before it inserts the next job. When the first job ends
   in between, its run has passed, for good if no other rollup comes, with a job still waiting.
   */
  lemma JobAddedAfterRollup()
    ensures Later(TryStep, Init(), State(LATE_ROWS, map[], multiset{1}))
    ensures LATE_ROWS.runs[1].status == Passed && LATE_ROWS.jobs[2].status == Queued && !Right(LATE_ROWS, 1)
  {
    var mid := State(LATE_ROWS, map[0 := Dispatching(1, None, 2, 0, false)], multiset{1});
    WorkingIsReachable();
    PassesEarly();
    AddsLate();
    EndsLate();
    LaterOn(TryStep, Init(), WORKING, PASSED_EARLY);
    LaterOn(TryStep, Init(), PASSED_EARLY, mid);
    LaterOn(TryStep, Init(), mid, State(LATE_ROWS, map[], multiset{1}));
    LateRowsAreWrong();
  }

  const LISTED := State(
    Logged(Queued, Passed, "a"),
    map[0 := Dispatching(1, None, 1, 0, false), 1 := RollingUp({}, Some((1, Passed)))],
    multiset{1})

  lemma ListsEarly()
    ensures Later(TryStep, WORKING, LISTED)
  {
    CompletedOne(Queued, Passed, "a");
    ReadsToListed(WORKING, 1, 1, Passed, "a");
    assert WORKING.handlers[1 := LISTED.handlers[1]] == LISTED.handlers;
  }

  const OVERTAKEN := State(
    LATE_ROWS.(runs := map[1 := Run(7, Queued)]),
    map[0 := Dispatching(1, Some(2), 2, 0, false), 1 := RollingUp({}, Some((1, Passed)))],
    multiset{1})

  lemma AddsWithin()
    ensures Later(TryStep, LISTED, OVERTAKEN)
  {
    OneStep(LISTED, CreateJob(0, 2, 0), OVERTAKEN);
  }

  lemma SetsWithin()
    ensures Later(TryStep, OVERTAKEN, State(LATE_ROWS, map[0 := Dispatching(1, Some(2), 2, 0, false)], multiset{1}))
  {
    Sets(OVERTAKEN, 1, 1, Passed);
    assert Exec(OVERTAKEN.db, UpdateRun(1, Passed)) == LATE_ROWS;
    assert OVERTAKEN.handlers - {1} == map[0 := Dispatching(1, Some(2), 2, 0, false)];
  }

  /** A job that is added between the two statements of a rollup: the status is wrong as it is stored. */
  lemma JobAddedWithinRollup()
    ensures Later(TryStep, Init(), State(LATE_ROWS, map[0 := Dispatching(1, Some(2), 2, 0, false)], multiset{1}))
    ensures !Right(LATE_ROWS, 1)
  {
    WorkingIsReachable();
    ListsEarly();
    AddsWithin();
    LaterOn(TryStep, Init(), WORKING, LISTED);
    LaterOn(TryStep, Init(), LISTED, OVERTAKEN);
    SetsWithin();
    LaterOn(TryStep, Init(), OVERTAKEN, State(LATE_ROWS, map[0 := Dispatching(1, Some(2), 2, 0, false)], multiset{1}));
    LateRowsAreWrong();
  }

  // ---------- Two completions ----------

  const BASE := Claimed(false, true)

  /** Both have read the job before either is recorded. */
  const BOTH_READ := BASE.(handlers := map[1 := Completing(1, Passed, KEY, "a"), 2 := Completing(1, Failed, KEY, "b")])

  const ONE_READ := BASE.(handlers := map[1 := Completing(1, Passed, KEY, "a")])

  lemma BothRead()
    ensures Later(TryStep, BASE, ONE_READ) && Later(TryStep, ONE_READ, BOTH_READ)
  {
    OneStep(BASE, Complete(1, 1, Passed, "a"), ONE_READ);
    OneStep(ONE_READ, Complete(2, 1, Failed, "b"), BOTH_READ);
  }

  const ONE_STORED := State(
    BASE.db.(blobs := map[KEY := Report(Passed, "a")]),
    map[1 := LogStored(1, Passed, KEY, "a"), 2 := Completing(1, Failed, KEY, "b")],
    multiset{1})

  const BOTH_STORED := State(
    BASE.db.(blobs := map[KEY := Report(Failed, "b")]),
    map[1 := LogStored(1, Passed, KEY, "a"), 2 := LogStored(1, Failed, KEY, "b")],
    multiset{1})

  lemma BothStore()
    ensures Later(TryStep, BOTH_READ, ONE_STORED) && Later(TryStep, ONE_STORED, BOTH_STORED)
  {
    OneStep(BOTH_READ, StoreLog(1), ONE_STORED);
    OneStep(ONE_STORED, StoreLog(2), BOTH_STORED);
  }

  const FAILED_FIRST := State(
    Logged(Queued, Failed, "b"), map[1 := LogStored(1, Passed, KEY, "a"), 2 := RollingUp({1}, None)], multiset{1})

  const PASSED_LAST := State(
    Logged(Queued, Passed, "a").(blobs := map[KEY := Report(Failed, "b")]),
    map[1 := RollingUp({1}, None), 2 := RollingUp({1}, None)],
    multiset{1})

  lemma OneRecords()
    ensures Later(TryStep, BOTH_STORED, FAILED_FIRST)
  {
    OneStep(BOTH_STORED, SetResult(2, 0), FAILED_FIRST);
  }

  lemma BothRecord()
    ensures Later(TryStep, FAILED_FIRST, PASSED_LAST)
  {
    OneStep(FAILED_FIRST, SetResult(1, 0), PASSED_LAST);
  }

  /**
   Of two completions that both read the job before either is recorded, the second replaces
   the outcome of the first, and the row can end up with the outcome of one and the log of the
   other.
   */
  lemma SecondCompletionReplaces()
    ensures Later(TryStep, Init(), FAILED_FIRST) && Later(TryStep, FAILED_FIRST, PASSED_LAST)
    ensures FAILED_FIRST.db.jobs[1].status == Failed && PASSED_LAST.db.jobs[1].status == Passed
    ensures !Together(PASSED_LAST.db, 1)
    ensures PASSED_LAST.db.jobs[1] == Reported(Passed, "a") && PASSED_LAST.db.blobs[KEY] == Report(Failed, "b")
  {
    ClaimedIsReachable(false, true);
    BothRead();
    BothStore();
    OneRecords();
    BothRecord();
    Chain(Init(), BASE, ONE_READ, BOTH_READ);
    Chain(Init(), BOTH_READ, ONE_STORED, BOTH_STORED);
    LaterOn(TryStep, Init(), BOTH_STORED, FAILED_FIRST);
  }

  // ---------- A completion and the note of a trigger failure ----------

  /** The job is claimed while its own dispatch still waits for the trigger's answer. */
  const TRIGGERING := State(
    Rows(Queued, NewJob(1, Running, 0)), map[0 := Dispatching(1, Some(1), 1, 0, false)], multiset{1})

  const PASSED_MEANWHILE := TRIGGERING.(db := Logged(Passed, Passed, "a"))

  const NOTED := State(
    Logged(Passed, Passed, "a").(jobs := map[1 := Reported(Passed, "a").(status := Error)]),
    map[0 := Dispatching(1, None, 1, 1, false)],
    multiset{1})

  lemma PassesMeanwhile()
    ensures Later(TryStep, TRIGGERING, PASSED_MEANWHILE)
  {
    CompletedOne(Queued, Passed, "a");
    Completes(TRIGGERING, 1, 1, Passed, "a");
    assert Exec(Logged(Queued, Passed, "a"), UpdateRun(1, Passed)) == PASSED_MEANWHILE.db;
  }

  lemma TriggerIsSlow()
    ensures Later(TryStep, Init(), TRIGGERING)
  {
    Inserts(false);
    LaterTo(Init(), Inserted(false), Claim(1, 0), TRIGGERING);
  }

  lemma FailureIsNoted()
    ensures Later(TryStep, PASSED_MEANWHILE, NOTED)
  {
    OneStep(PASSED_MEANWHILE, Triggered(0, false, true, 0), NOTED);
  }

  /**
   A trigger that is said to have failed although its runner has done the job: the note makes
   the passed job an error, with the log of the pass, and no other completion is involved.
   */
  lemma LateNoteReplaces()
    ensures Later(TryStep, Init(), PASSED_MEANWHILE) && Together(PASSED_MEANWHILE.db, 1)
    ensures PASSED_MEANWHILE.db.jobs[1].status == Passed
    ensures Later(TryStep, PASSED_MEANWHILE, NOTED) && Quiet(NOTED)
    ensures NOTED.db.jobs[1].status == Error && NOTED.db.blobs[KEY] == Report(Passed, "a") && !Together(NOTED.db, 1)
  {
    TriggerIsSlow();
    PassesMeanwhile();
    FailureIsNoted();
    LaterOn(TryStep, Init(), TRIGGERING, PASSED_MEANWHILE);
  }

  // ---------- A sweep and a completion ----------

  /** A completion has read the running job; a sweep has made it an error and listed it. */
  const SWEPT := State(
    Rows(Queued, NewJob(1, Error, 0)),
    map[1 := Completing(1, Passed, KEY, "a"), 2 := RollingUp({}, Some((1, Error)))],
    multiset{1})

  const SWEEPING := BASE.(handlers := map[1 := Completing(1, Passed, KEY, "a"), 2 := Sweeping({1}, {})])

  lemma SweepMeetsCompletion()
    ensures Later(TryStep, ONE_READ, SWEEPING)
  {
    var db := ONE_READ.db;
    assert db.jobs[1].status == Running && db.jobs[1].updated == 0;
    assert Stuck(db, 1) == {1};
    OneStep(ONE_READ, FindStuck(2, 1), SWEEPING);
  }

  const ENDED := State(
    Rows(Queued, NewJob(1, Error, 0)),
    map[1 := Completing(1, Passed, KEY, "a"), 2 := RollingUp({1}, None)],
    multiset{1})

  lemma SweepSweeps()
    ensures Later(TryStep, SWEEPING, ENDED)
  {
    var a := ENDED.(handlers := map[1 := Completing(1, Passed, KEY, "a"), 2 := Sweeping({}, {1})]);
    assert {1} - {1} == {} && {} + {1} == {1};
    OneStep(SWEEPING, SweepOne(2, 1, 0), a);
    LaterTo(SWEEPING, a, EndSweep(2), ENDED);
  }

  lemma SweepLists()
    ensures Later(TryStep, ENDED, SWEPT)
  {
    RollupOfOne(Queued, NewJob(1, Error, 0));
    assert {1} - {1} == {};
    OneStep(ENDED, ListJobs(2, 1), SWEPT);
  }

  lemma SweptIsReachable()
    ensures Later(TryStep, Init(), SWEPT)
  {
    ClaimedIsReachable(false, true);
    BothRead();
    SweepMeetsCompletion();
    SweepSweeps();
    SweepLists();
    Chain(Init(), BASE, ONE_READ, SWEEPING);
    Chain(Init(), SWEEPING, ENDED, SWEPT);
  }

  const REPLACED := State(
    Logged(Queued, Passed, "a"),
    map[1 := RollingUp({1}, None), 2 := RollingUp({}, Some((1, Error)))],
    multiset{1})

  const SHIPPED := State(
    SWEPT.db.(blobs := map[KEY := Report(Passed, "a")]),
    map[1 := LogStored(1, Passed, KEY, "a"), 2 := RollingUp({}, Some((1, Error)))],
    multiset{1})

  lemma CompletionShips()
    ensures Later(TryStep, SWEPT, SHIPPED)
  {
    OneStep(SWEPT, StoreLog(1), SHIPPED);
  }

  lemma CompletionReplaces()
    ensures Later(TryStep, SHIPPED, REPLACED)
  {
    OneStep(SHIPPED, SetResult(1, 0), REPLACED);
  }

  /** A completion that read the job before a sweep replaces the sweep's outcome. */
  lemma SweptOutcomeIsReplaced()
    ensures Later(TryStep, Init(), SWEPT) && SWEPT.db.jobs[1].status == Error
    ensures Later(TryStep, SWEPT, REPLACED) && REPLACED.db.jobs[1].status == Passed
  {
    SweptIsReachable();
    CompletionShips();
    CompletionReplaces();
    LaterOn(TryStep, SWEPT, SHIPPED, REPLACED);
  }

  const SET := State(Logged(Passed, Passed, "a"), map[2 := RollingUp({}, Some((1, Error)))], multiset{1})

  /** The rollup of the sweep has stored the status last, from its older list. Nothing is under way. */
  const STALE := State(Logged(Error, Passed, "a"), map[], multiset{1})

  const BOTH_LISTED := State(
    Logged(Queued, Passed, "a"),
    map[1 := RollingUp({}, Some((1, Passed))), 2 := RollingUp({}, Some((1, Error)))],
    multiset{1})

  lemma CompletionLists()
    ensures Later(TryStep, REPLACED, BOTH_LISTED)
  {
    CompletedOne(Queued, Passed, "a");
    assert {1} - {1} == {};
    OneStep(REPLACED, ListJobs(1, 1), BOTH_LISTED);
  }

  lemma CompletionSets()
    ensures Later(TryStep, BOTH_LISTED, SET)
  {
    assert Exec(BOTH_LISTED.db, UpdateRun(1, Passed)) == SET.db by {
      assert BOTH_LISTED.db.runs[1 := Run(7, Passed)] == SET.db.runs;
    }
    assert BOTH_LISTED.handlers - {1} == SET.handlers;
    Sets(BOTH_LISTED, 1, 1, Passed);
  }

  lemma SweepSetsLast()
    ensures Later(TryStep, SET, STALE)
  {
    Sets(SET, 2, 1, Error);
    assert Exec(SET.db, UpdateRun(1, Error)) == STALE.db;
    assert SET.handlers - {2} == STALE.handlers;
  }

  /** Two overlapping rollups can leave a run with a status that is not that of its jobs, for good. */
  lemma OverlappingRollupsGoStale()
    ensures Later(TryStep, Init(), STALE) && STALE.handlers == map[]
    ensures STALE.db.runs[1].status == Error && RollupIn(STALE.db, 1) == Passed
  {
    SweptOutcomeIsReplaced();
    CompletionLists();
    CompletionSets();
    SweepSetsLast();
    Chain(Init(), SWEPT, REPLACED, BOTH_LISTED);
    Chain(Init(), BOTH_LISTED, SET, STALE);
    CompletedOne(Error, Passed, "a");
  }
}
