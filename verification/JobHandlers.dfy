/**
 The handlers of internal/ci/report.go and internal/ci/dispatcher.go as code that runs on the
 system of module Jobs: between any two of its own steps, everything else may go on.
 */
module JobHandlers {
  import opened Jobs
  import opened JobRuns
  import opened JobStatus
  import opened Traces
  import opened Wrappers

  datatype Answer = BadRequest | NotFound | Internal | AlreadyDone | Recorded | Claimed

  /** One workflow file: whether it parses, and whether its runner can be started. */
  datatype File = File(valid: bool, starts: bool)

  // ---------- What becomes of the rows ----------

  /** Rolling up one run leaves its status right for the jobs as they are, and other runs alone. */
  lemma RolledUpIsRight(db: Db, job: nat)
    requires job in db.jobs && db.jobs[job].run in db.runs
    ensures
      var run := db.jobs[job].run;
      && RolledUp(db, job).jobs == db.jobs
      && Right(RolledUp(db, job), run)
      && forall other <- db.runs | other != run :: RolledUp(db, job).runs[other] == db.runs[other]
  {
    assert StatusesOf(RolledUp(db, job), db.jobs[job].run) == StatusesOf(db, db.jobs[job].run);
  }

  function Swept(db: Db, ids: set<nat>, now: int): Db {
    db.(jobs := map id <- db.jobs ::
          if id in ids && db.jobs[id].status.Running? then db.jobs[id].(status := Error, updated := now)
          else db.jobs[id])
  }

  lemma SweptOneMore(db: Db, ids: set<nat>, id: nat, now: int)
    requires id !in ids
    ensures Exec(Swept(db, ids, now), UpdateWhere(id, Running, Error, now)) == Swept(db, ids + {id}, now)
  {
    assert Exec(Swept(db, ids, now), UpdateWhere(id, Running, Error, now)).jobs == Swept(db, ids + {id}, now).jobs;
  }

  predicate AllEnded(db: Db, ids: set<nat>) {
    forall id <- ids :: id in db.jobs && IsTerminal(db.jobs[id].status)
  }

  lemma EndedStay(s: State, s': State, ids: set<nat>)
    requires Inv(s) && Later(TryStep, s, s') && AllEnded(s.db, ids)
    ensures AllEnded(s'.db, ids)
  {
    LaterIsOnward(s, s');
    assert forall id <- ids :: JobOnward(s.db.jobs[id], s'.db.jobs[id]);
  }

  /** The run of each of these jobs has been rolled up between s and s'. */
  ghost predicate EachRolledUp(s: State, h: nat, ids: set<nat>, s': State) {
    forall id <- ids :: RolledUpSince(s, h, id, s')
  }

  lemma EachRolledUpOneMore(s: State, h: nat, ids: set<nat>, id: nat, mid: State, s': State)
    requires Later(TryStep, s, mid) && Later(TryStep, mid, s')
    requires EachRolledUp(s, h, ids, mid) && RolledUpSince(mid, h, id, s')
    ensures EachRolledUp(s, h, ids + {id}, s')
  {
    LaterSame(TryStep, s);
    LaterSame(TryStep, s');
    RolledUpSinceOn(s, mid, h, id, s', s');
    forall other <- ids ensures RolledUpSince(s, h, other, s') {
      RolledUpSinceOn(s, s, h, other, mid, s');
    }
  }

  lemma EachRolledUpOn(s: State, h: nat, ids: set<nat>, mid: State, s': State)
    requires EachRolledUp(s, h, ids, mid) && Later(TryStep, mid, s')
    ensures EachRolledUp(s, h, ids, s')
  {
    LaterSame(TryStep, s);
    forall id <- ids ensures RolledUpSince(s, h, id, s') {
      RolledUpSinceOn(s, s, h, id, mid, s');
    }
  }

  /** Some job of the set belongs to the run. */
  predicate Touched(db: Db, ids: set<nat>, run: nat) {
    exists id <- ids :: id in db.jobs && db.jobs[id].run == run
  }

  /** The runs of these jobs have the rollup of their jobs as their status; nothing else changed. */
  predicate RolledUpAll(db: Db, db': Db, ids: set<nat>) {
    && db'.jobs == db.jobs && db'.blobs == db.blobs && db'.runs.Keys == db.runs.Keys
    && forall run <- db.runs ::
         if Touched(db, ids, run) then Right(db', run)
         else db'.runs[run] == db.runs[run]
  }

  /** Job by job and run by run, what a sweep with nothing else going on does. */
  lemma SweepDoes(db: Db, cutoff: int, now: int, db': Db)
    requires RolledUpAll(Swept(db, Stuck(db, cutoff), now), db', Stuck(db, cutoff))
    ensures db'.jobs.Keys == db.jobs.Keys && db'.runs.Keys == db.runs.Keys
    ensures forall id <- db.jobs ::
              db'.jobs[id] ==
              if db.jobs[id].status == Running && db.jobs[id].updated < cutoff
              then db.jobs[id].(status := Error, updated := now) else db.jobs[id]
    ensures forall run <- db.runs ::
              if exists id <- db.jobs ::
                   db.jobs[id].run == run && db.jobs[id].status == Running && db.jobs[id].updated < cutoff
              then db'.runs[run].status == RollupIn(db', run)
              else db'.runs[run] == db.runs[run]
  {
    var mid, ids := Swept(db, Stuck(db, cutoff), now), Stuck(db, cutoff);
    forall run <- db.runs
      ensures Touched(mid, ids, run) <==>
              exists id <- db.jobs ::
                db.jobs[id].run == run && db.jobs[id].status == Running && db.jobs[id].updated < cutoff
    {
      if id :|
        id in db.jobs && db.jobs[id].run == run && db.jobs[id].status == Running && db.jobs[id].updated < cutoff
      {
        assert id in ids && id in mid.jobs && mid.jobs[id].run == run;
      }
    }
  }

  /** Of the jobs found, each has ended, and its run has been rolled up since. */
  lemma FoundHaveEnded(finding: State, cutoff: int, swept: State, h: nat, s: State, reliable: bool)
    requires AllEnded(swept.db, Stuck(finding.db, cutoff))
    requires reliable ==> EachRolledUp(swept, h, Stuck(finding.db, cutoff), s)
    ensures
      forall id <- finding.db.jobs | finding.db.jobs[id].status == Running && finding.db.jobs[id].updated < cutoff ::
        && id in swept.db.jobs && swept.db.jobs[id].status in {Passed, Failed, Error, Superseded}
        && (reliable ==> RolledUpSince(swept, h, id, s))
  {
    forall id <- finding.db.jobs | finding.db.jobs[id].status == Running && finding.db.jobs[id].updated < cutoff
      ensures id in Stuck(finding.db, cutoff)
    {
      WhoIsStuck(finding.db, cutoff, id);
    }
  }

  lemma RolledUpOneMore(db: Db, db': Db, ids: set<nat>, id: nat)
    requires RolledUpAll(db, db', ids) && id in db'.jobs && db'.jobs[id].run in db'.runs
    ensures RolledUpAll(db, RolledUp(db', id), ids + {id})
  {
    var db2 := RolledUp(db', id);
    RolledUpIsRight(db', id);
    forall run <- db.runs
      ensures if Touched(db, ids + {id}, run) then Right(db2, run)
              else db2.runs[run] == db.runs[run]
    {
      SameJobsSameRollup(db', db2, run);
      if Touched(db, ids, run) {
        var other :| other in ids && other in db.jobs && db.jobs[other].run == run;
        assert other in ids + {id};
      }
      if db.jobs[id].run == run {
        assert id in ids + {id};
      }
    }
  }


  /** The two statements of a rollup, each the last of its part of the run. */
  lemma TwoStatements(s: State, h: nat, job: nat, listing: State, storing: State, ok: bool, s': State)
    requires Later(TryStep, s, listing) && Inv(listing) && Enabled(listing, ListJobs(h, job))
    requires LaterWithout(Next(listing, ListJobs(h, job)), h, storing)
    requires Later(TryStep, Next(listing, ListJobs(h, job)), storing)
    requires h in storing.handlers && storing.handlers[h] == Next(listing, ListJobs(h, job)).handlers[h]
    requires Enabled(storing, SetRun(h)) && s' == Next(storing, if ok then SetRun(h) else DropRollup(h))
    ensures Later(TryStep, s, s') && (ok ==> RolledUpSince(s, h, job, s'))
    ensures
      var d := listing.handlers[h];
      h in s'.handlers && s'.handlers[h] == RollingUp(d.todo - {job}, None)
  {
    LaterTo(s, listing, ListJobs(h, job), Next(listing, ListJobs(h, job)));
    LaterOn(TryStep, s, Next(listing, ListJobs(h, job)), storing);
    LaterTo(s, storing, if ok then SetRun(h) else DropRollup(h), s');
    LaterSame(TryStep, s');
  }

  lemma NoneBetween(s: State, h: nat, job: nat, ok: bool, s': State)
    requires Enabled(s, ListJobs(h, job)) && Enabled(Next(s, ListJobs(h, job)), SetRun(h))
    requires s' == Next(Next(s, ListJobs(h, job)), if ok then SetRun(h) else DropRollup(h))
    ensures SameBut(h, s, s') && (ok ==> s'.db == RolledUp(s.db, job))
  {
    assert (s.handlers[h := s'.handlers[h]]) - {h} == s.handlers - {h};
  }

  /** A won claim makes the queued job a running one, and touches nothing else. */
  lemma ClaimDoes(s: State, job: nat, now: int)
    requires job in s.db.jobs && s.db.jobs[job].status == Queued
    ensures
      var s' := Next(s, Claim(job, now));
      && s'.db.jobs == s.db.jobs[job := s.db.jobs[job].(status := Running, updated := now)]
      && s'.db.runs == s.db.runs && s'.db.blobs == s.db.blobs && s'.handlers == s.handlers
      && s'.claims == s.claims + multiset{job}
  {
  }

  lemma ClaimStays(s: State, s': State, job: nat)
    requires Inv(s') && Later(TryStep, s, s') && s.claims[job] == 1
    ensures s'.claims[job] == 1
  {
    var steps :| Runs(TryStep, s, steps, s');
    ClaimsGrow(s, steps, s', job);
  }

  /** The row has the outcome, the log's key and what it reports; the store has a log under that key. */
  predicate IsRecorded(db: Db, job: nat, outcome: Status, log: string, now: int) {
    && job in db.jobs && db.jobs[job].run in db.runs && KeyOf(db, job) in db.blobs
    && db.jobs[job] == Job(db.jobs[job].run, outcome, Some(KeyOf(db, job)), now, Some(Report(outcome, log)))
  }

  lemma RecordedRow(db: Db, job: nat, outcome: Status, log: string, now: int)
    requires IsRecorded(db, job, outcome, log, now)
    ensures
      var row := db.jobs[job];
      && row.status == outcome && row.updated == now && row.report == Some(Report(outcome, log))
      && row.logKey == Some(LogKey(db.runs[row.run].repo, row.run, job)) && row.logKey.value in db.blobs
  {
  }

  /** Exactly a completion has happened. */
  predicate IsCompleted(db: Db, job: nat, outcome: Status, log: string, now: int, db': Db) {
    && job in db.jobs && db.jobs[job].run in db.runs
    && db' == RolledUp(Completed(db, job, outcome, log, now), job)
  }

  /** What that is, row by row. */
  lemma CompletionDoes(db: Db, job: nat, outcome: Status, log: string, now: int, db': Db)
    requires IsCompleted(db, job, outcome, log, now, db')
    ensures
      var run := db.jobs[job].run;
      && job in db'.jobs && run in db'.runs
      && var row := db'.jobs[job];
      && row.run == run && row.status == outcome && row.updated == now
      && row.logKey == Some(LogKey(db'.runs[run].repo, run, job)) && row.logKey.value in db'.blobs
      && db'.blobs[row.logKey.value] == Report(outcome, log)
      && db'.runs[run].status == RollupIn(db', run)
      && (forall id <- db.jobs | id != job :: id in db'.jobs && db'.jobs[id] == db.jobs[id])
      && (forall other <- db.runs | other != run :: other in db'.runs && db'.runs[other] == db.runs[other])
  {
    RolledUpIsRight(Completed(db, job, outcome, log, now), job);
  }

  // ---------- What a dispatch makes of its files ----------

  /** The counters of recordRun after these files. A job row that was not inserted is not counted. */
  predicate Counts(d: Handler, files: seq<File>, reliable: bool) {
    && d.Dispatching? && d.current.None?
    && (d.malformed <==> exists f <- files :: !f.valid)
    && (reliable ==>
          && (d.made > 0 <==> exists f <- files :: f.valid)
          && d.failed <= d.made
          && (d.failed == d.made <==> forall f <- files | f.valid :: !f.starts))
  }

  lemma CountsOneMore(d: Handler, d': Handler, files: seq<File>, f: File, reliable: bool)
    requires Counts(d, files, reliable) && d'.Dispatching? && d'.current.None?
    requires d'.malformed <==> d.malformed || !f.valid
    requires reliable ==> d'.made == d.made + if f.valid then 1 else 0
    requires reliable ==> d'.failed == d.failed + if f.valid && !f.starts then 1 else 0
    ensures Counts(d', files + [f], reliable)
  {
    assert f in files + [f];
    assert forall g <- files :: g in files + [f];
    assert forall g <- files + [f] :: g in files || g == f;
  }

  function RowOf(run: nat, f: File, now: int): Job {
    NewJob(run, if f.starts then Queued else Error, now)
  }

  /** A workflow file that parses adds one job to the run, in error if its runner does not start. */
  ghost predicate RowAdded(jobs: map<nat, Job>, jobs': map<nat, Job>, run: nat, f: File, row: Option<nat>, now: int) {
    if f.valid then row.Some? && row.value !in jobs && jobs' == jobs[row.value := RowOf(run, f, now)]
    else row.None? && jobs' == jobs
  }

  /** The row, new in jobs', that a file has been given. */
  predicate HasRow(jobs: map<nat, Job>, jobs': map<nat, Job>, run: nat, f: File, row: Option<nat>) {
    if f.valid then
      && row.Some? && row.value !in jobs && row.value in jobs' && jobs'[row.value].run == run
      && (!f.starts ==> IsTerminal(jobs'[row.value].status))
    else row.None?
  }

  /** Each file that parses has its own new job; the job is finished if its runner does not start. */
  ghost predicate HaveRows(
    jobs: map<nat, Job>, jobs': map<nat, Job>, run: nat, files: seq<File>, rows: seq<Option<nat>>)
  {
    && |rows| == |files|
    && (forall i | 0 <= i < |files| :: HasRow(jobs, jobs', run, files[i], rows[i]))
    && (forall i, j | 0 <= i < j < |rows| && rows[i].Some? :: rows[i] != rows[j])
  }

  lemma RowsStay(jobs: map<nat, Job>, db: Db, db': Db, run: nat, files: seq<File>, rows: seq<Option<nat>>)
    requires HaveRows(jobs, db.jobs, run, files, rows) && Onward(db, db')
    ensures HaveRows(jobs, db'.jobs, run, files, rows)
  {
    forall i | 0 <= i < |files| ensures HasRow(jobs, db'.jobs, run, files[i], rows[i]) {
      assert HasRow(jobs, db.jobs, run, files[i], rows[i]);
      assert rows[i].Some? ==> JobOnward(db.jobs[rows[i].value], db'.jobs[rows[i].value]);
    }
  }

  lemma RowsBefore(a: Db, b: Db, c: Db, run: nat, files: seq<File>, rows: seq<Option<nat>>)
    requires HaveRows(b.jobs, c.jobs, run, files, rows) && a.jobs.Keys <= b.jobs.Keys
    ensures HaveRows(a.jobs, c.jobs, run, files, rows)
  {
    forall i | 0 <= i < |files| ensures HasRow(a.jobs, c.jobs, run, files[i], rows[i]) {
      assert HasRow(b.jobs, c.jobs, run, files[i], rows[i]);
    }
  }

  /** The new jobs are those of the files that parse, waiting, or in error if the runner does not start. */
  ghost predicate JobsAdded(
    jobs: map<nat, Job>, jobs': map<nat, Job>, run: nat, files: seq<File>, rows: seq<Option<nat>>, now: int)
  {
    && |rows| == |files|
    && (forall i | 0 <= i < |files| && rows[i].Some? ::
          rows[i].value in jobs' && jobs'[rows[i].value] == RowOf(run, files[i], now))
    && (forall id <- jobs :: id in jobs' && jobs'[id] == jobs[id])
    && (forall id <- jobs' | id !in jobs :: Some(id) in rows)
  }

  lemma TriggeredLeaves(s: State, h: nat, starts: bool, noted: bool, now: int)
    requires Inv(s) && Enabled(s, Triggered(h, starts, noted, now))
    ensures
      var d, s' := s.handlers[h], Next(s, Triggered(h, starts, noted, now));
      && d.current.value in s'.db.jobs
      && h in s'.handlers && s'.handlers[h] == d.(current := None, failed := d.failed + if starts then 0 else 1)
      && d.current.value in s.db.jobs
      && s'.db == (if starts || !noted then s.db else InError(s.db, d.current.value, now))
      && (!starts && noted ==> IsTerminal(s'.db.jobs[d.current.value].status))
  {
    assert HandlerOk(s.db, s.handlers[h]);
  }

  lemma AddedStays(jobs: map<nat, Job>, db: Db, db': Db, run: nat, f: File, job: nat)
    requires f.valid && job !in jobs && job in db.jobs && db.jobs[job].run == run && Onward(db, db')
    requires !f.starts ==> job in db'.jobs && IsTerminal(db'.jobs[job].status)
    ensures HasRow(jobs, db'.jobs, run, f, Some(job))
  {
    assert JobOnward(db.jobs[job], db'.jobs[job]);
  }

  lemma RowAddedMore(
    jobs: map<nat, Job>, mid: Db, db': Db, run: nat, files: seq<File>, rows: seq<Option<nat>>, f: File,
    row: Option<nat>)
    requires HaveRows(jobs, mid.jobs, run, files, rows) && Onward(mid, db') && jobs.Keys <= mid.jobs.Keys
    requires HasRow(mid.jobs, db'.jobs, run, f, row)
    ensures HaveRows(jobs, db'.jobs, run, files + [f], rows + [row])
  {
    forall i | 0 <= i < |files|
      ensures HasRow(jobs, db'.jobs, run, files[i], rows[i]) && (rows[i].Some? ==> rows[i] != row)
    {
      assert HasRow(jobs, mid.jobs, run, files[i], rows[i]);
      assert rows[i].Some? ==> JobOnward(mid.jobs[rows[i].value], db'.jobs[rows[i].value]);
    }
  }

  function WithRow(db: Db, id: nat, job: Job): Db {
    db.(jobs := db.jobs[id := job])
  }

  function InError(db: Db, id: nat, now: int): Db
    requires id in db.jobs
  {
    WithRow(db, id, db.jobs[id].(status := Error, updated := now))
  }

  lemma StartedRow(db: Db, db': Db, run: nat, f: File, now: int, job: nat)
    requires f.valid && job !in db.jobs
    requires
      var db1 := WithRow(db, job, NewJob(run, Queued, now));
      db' == if f.starts then db1 else InError(db1, job, now)
    ensures RowAdded(db.jobs, db'.jobs, run, f, Some(job), now)
  {
    assert db'.jobs == db.jobs[job := RowOf(run, f, now)];
  }

  lemma JobAddedMore(
    jobs: map<nat, Job>, mid: map<nat, Job>, jobs': map<nat, Job>, run: nat, files: seq<File>,
    rows: seq<Option<nat>>, f: File, row: Option<nat>, now: int)
    requires JobsAdded(jobs, mid, run, files, rows, now) && RowAdded(mid, jobs', run, f, row, now)
    ensures JobsAdded(jobs, jobs', run, files + [f], rows + [row], now)
  {
    var all, more := rows + [row], files + [f];
    forall id <- jobs' | id !in jobs ensures Some(id) in all {
      if id in mid {
        var i :| 0 <= i < |rows| && rows[i] == Some(id);
        assert all[i] == Some(id);
      } else {
        assert all[|rows|] == Some(id);
      }
    }
    forall i | 0 <= i < |files| && rows[i].Some? ensures rows[i].value in mid && rows[i] != row {
      assert rows[i].value in mid;
    }
  }

  /** The status that recordRun leaves, for one that it finds. */
  function VerdictOn(files: seq<File>, was: Status): Status {
    if exists f <- files :: !f.valid then Failed
    else if files != [] && forall f <- files :: !f.starts then Error
    else was
  }

  lemma CountsDecide(d: Handler, files: seq<File>)
    requires Counts(d, files, true)
    ensures forall was :: VerdictOn(files, was) == if GivesVerdict(d) then Given(d) else was
  {
    assert files != [] ==> files[0] in files;
  }

  /** The run goes from the status it has in s to the one that the files call for. */
  predicate VerdictGivenOn(files: seq<File>, s: State, s': State, run: nat) {
    && run in s.db.runs
    && s'.db.runs == s.db.runs[run := s.db.runs[run].(status := VerdictOn(files, s.db.runs[run].status))]
  }

  lemma EndGivesVerdict(s: State, h: nat, files: seq<File>)
    requires Inv(s) && h in s.handlers && Counts(s.handlers[h], files, true)
    ensures VerdictGivenOn(files, s, Next(s, EndDispatch(h)), s.handlers[h].run)
  {
    var run := s.handlers[h].run;
    assert HandlerOk(s.db, s.handlers[h]);
    CountsDecide(s.handlers[h], files);
    assert s.db.runs == s.db.runs[run := s.db.runs[run].(status := s.db.runs[run].status)];
  }

  /** One run and its jobs are new, and nothing else in these two tables has changed. */
  ghost predicate RunAdded(
    db: Db, db': Db, repo: nat, run: nat, files: seq<File>, rows: seq<Option<nat>>, now: int)
  {
    && JobsAdded(db.jobs, db'.jobs, run, files, rows, now)
    && run !in db.runs && db'.runs == db.runs[run := Run(repo, VerdictOn(files, Queued))]
  }

  /** The new rows file by file, and the status of the new run. */
  lemma DispatchDoes(db: Db, db': Db, repo: nat, run: nat, files: seq<File>, rows: seq<Option<nat>>, now: int)
    requires RunAdded(db, db', repo, run, files, rows, now)
    requires HaveRows(db.jobs, db'.jobs, run, files, rows)
    ensures |rows| == |files| && forall i | 0 <= i < |files| ::
              if files[i].valid then
                && rows[i].Some? && rows[i].value !in db.jobs && rows[i].value in db'.jobs
                && db'.jobs[rows[i].value] == Job(run, if files[i].starts then Queued else Error, None, now, None)
              else rows[i].None?
    ensures forall i, j | 0 <= i < j < |rows| && rows[i].Some? :: rows[i] != rows[j]
    ensures forall id <- db'.jobs :: if id in db.jobs then db'.jobs[id] == db.jobs[id] else Some(id) in rows
    ensures run !in db.runs && run in db'.runs && db'.runs[run].repo == repo
    ensures db'.runs[run].status ==
            if exists f <- files :: !f.valid then Failed
            else if files != [] && (forall f <- files :: !f.starts) then Error
            else Queued
  {
    forall i | 0 <= i < |files|
      ensures if files[i].valid then
                && rows[i].Some? && rows[i].value !in db.jobs && rows[i].value in db'.jobs
                && db'.jobs[rows[i].value] == Job(run, if files[i].starts then Queued else Error, None, now, None)
              else rows[i].None?
    {
      assert HasRow(db.jobs, db'.jobs, run, files[i], rows[i]);
    }
  }

  /** The files have their jobs, and the last step, from ending, gives the verdict on the run. */
  ghost predicate IsDispatched(
    s: State, h: nat, files: seq<File>, rows: seq<Option<nat>>, run: nat, ending: State, s': State)
  {
    && Enabled(ending, EndDispatch(h)) && s' == Next(ending, EndDispatch(h)) && ending.handlers[h].run == run
    && HaveRows(s.db.jobs, ending.db.jobs, run, files, rows)
    && VerdictGivenOn(files, ending, s', run)
  }

  lemma DispatchedBefore(
    s: State, w: State, h: nat, files: seq<File>, rows: seq<Option<nat>>, run: nat, ending: State, s': State)
    requires IsDispatched(w, h, files, rows, run, ending, s') && s.db.jobs.Keys <= w.db.jobs.Keys
    ensures IsDispatched(s, h, files, rows, run, ending, s')
  {
    RowsBefore(s.db, w.db, ending.db, run, files, rows);
  }

  /** Every row of db is unchanged in db'. */
  predicate KeepsJobs(db: Db, db': Db) {
    forall id <- db.jobs :: id in db'.jobs && db'.jobs[id] == db.jobs[id]
  }

  // ---------- The handlers ----------

  /** Apart from handler h, only rows and stored logs differ. */
  predicate SameBut(h: nat, s: State, s': State) {
    s'.claims == s.claims && s'.handlers - {h} == s.handlers - {h}
  }

  class Ci {
    var s: State
    /** Whether nothing else runs at the same time, and whether the database and the store work. */
    const alone: bool
    const reliable: bool

    ghost predicate Valid()
      reads this
    {
      Inv(s)
    }

    constructor (alone: bool, reliable: bool)
      ensures Valid() && s == Init() && this.alone == alone && this.reliable == reliable
    {
      this.s, this.alone, this.reliable := Init(), alone, reliable;
    }

    method Take(step: Step)
      requires Valid() && Enabled(s, step)
      modifies this
      ensures Valid() && s == Next(old(s), step) && Later(TryStep, old(s), s)
    {
      NextKeepsInv(s, step);
      LaterSame(TryStep, s);
      LaterTo(s, s, step, Next(s, step));
      s := Next(s, step);
    }

    /** h is where it was. */
    twostate predicate Keeps(h: nat)
      reads this
    {
      && (h in s.handlers <==> h in old(s).handlers)
      && (h in s.handlers ==> s.handlers[h] == old(s).handlers[h])
    }

    /** Everything goes on but handler h, who calls this. */
    method Others(h: nat)
      requires Valid()
      modifies this
      ensures Valid() && LaterWithout(old(s), h, s) && Later(TryStep, old(s), s)
      ensures Keeps(h) && (alone ==> s == old(s))
    {
      LaterSame(TryStep, s);
      LaterWithoutSame(s, h);
      var count: nat :| 0 <= count;
      if alone {
        return;
      }
      for _ := 0 to count
        invariant Valid() && LaterWithout(old(s), h, s) && Later(TryStep, old(s), s) && Keeps(h)
      {
        var step: Step := *;
        if Enabled(s, step) && !By(step, h) {
          ghost var before := s;
          Take(step);
          LaterOn(TryStep, old(s), before, s);
          LaterWithoutStep(old(s), h, before, step, s);
        }
      }
    }

    /** The others go on, then h takes its step; or it fails, and h gives up. */
    method Try(h: nat, step: Step) returns (ok: bool, ghost before: State)
      requires Valid() && !step.Claim? && !step.ListJobs? && !step.CreateJob? && step.h == h
      requires h in s.handlers && Handles(s.db, s.handlers[h], step)
      modifies this
      ensures Valid() && Later(TryStep, old(s), s) && (reliable ==> ok)
      ensures Inv(before) && (alone ==> before == old(s))
      ensures Later(TryStep, old(s), before) && Later(TryStep, before, s)
      ensures h in before.handlers && before.handlers[h] == old(s).handlers[h]
      ensures ok ==> Enabled(before, step) && s == Next(before, step)
      ensures !ok ==> s == before.(handlers := before.handlers - {h})
    {
      Others(h);
      before := s;
      ok := *;
      if reliable || ok {
        ok := true;
        Take(step);
      } else {
        Take(Abort(h));
      }
      LaterOn(TryStep, old(s), before, s);
    }

    /** ClaimJob. The update is done, or it fails. */
    method ClaimJob(h: nat, job: nat, now: int) returns (r: Answer, ghost at: State)
      requires Valid()
      modifies this
      ensures Valid() && Inv(at) && Later(TryStep, old(s), at) && (alone ==> at == old(s))
      ensures r == Claimed || r == NotFound || (r == Internal && !reliable)
      ensures s == if r == Internal then at else Next(at, Claim(job, now))
      ensures r != Internal ==> (r == Claimed <==> job in at.db.jobs && at.db.jobs[job].status == Queued)
    {
      Others(h);
      at := s;
      var fails: bool := *;
      if fails && !reliable {
        return Internal, at;
      }
      r := if job in s.db.jobs && s.db.jobs[job].status == Queued then Claimed else NotFound;
      Take(Claim(job, now));
    }

    /** GetRun and GetRepoByID, after the claim. Rows are not deleted, so only a failure keeps them away. */
    method LookUp(h: nat) returns (ok: bool)
      requires Valid()
      modifies this
      ensures Valid() && Later(TryStep, old(s), s) && (reliable ==> ok) && (alone ==> s == old(s))
    {
      Others(h);
      ok := *;
      ok := ok || reliable;
    }

    /**
     A claim decides at one moment, at: it is won exactly if the job is queued then. Of all
     claims of a job only one is won, ever; it is answered with the job, unless a lookup fails.
     */
    method HandleClaim(h: nat, job: nat, now: int) returns (r: Answer, ghost at: State)
      requires Valid()
      modifies this
      ensures Valid() && Inv(at) && Later(TryStep, old(s), at) && Later(TryStep, at, s)
      ensures r == Claimed || r == NotFound || (r == Internal && !reliable)
      ensures r == Claimed ==>
        && job in at.db.jobs && at.db.jobs[job].status == Queued && at.claims[job] == 0
        && Later(TryStep, Next(at, Claim(job, now)), s) && s.claims[job] == 1
      ensures r == NotFound ==>
        (job in at.db.jobs ==> at.db.jobs[job].status != Queued) && (alone ==> s == old(s))
      ensures alone ==> at == old(s) && (s == at || s == Next(at, Claim(job, now)))
    {
      r, at := ClaimJob(h, job, now);
      LaterSame(TryStep, s);
      LaterSame(TryStep, at);
      if r != Claimed {
        if r == NotFound {
          LaterStep(TryStep, at, at, Claim(job, now), s);
        }
        return;
      }
      ghost var won := s;
      LaterStep(TryStep, at, at, Claim(job, now), won);
      var ok := LookUp(h);
      LaterOn(TryStep, at, won, s);
      ClaimStays(won, s, job);
      r := if ok then Claimed else Internal;
    }

    method ListJobsOf(run: nat) returns (jobs: seq<Job>)
      ensures (set j <- jobs :: j.status) == StatusesOf(s.db, run)
    {
      jobs := [];
      var left := s.db.jobs.Keys;
      while exists id :: id in left
        invariant left <= s.db.jobs.Keys
        invariant forall j <- jobs :: j.run == run && exists id :: id in s.db.jobs && s.db.jobs[id] == j
        invariant forall id <- s.db.jobs | s.db.jobs[id].run == run && id !in left :: s.db.jobs[id] in jobs
        decreases |left|
      {
        var id :| id in left;
        left := left - {id};
        if s.db.jobs[id].run == run {
          jobs := jobs + [s.db.jobs[id]];
        }
      }
    }

    /** ListJobs and the loop over the rows. */
    method ListAndRollup(h: nat, job: nat) returns (ghost listing: State)
      requires Valid() && h in s.handlers && Handles(s.db, s.handlers[h], ListJobs(h, job))
      modifies this
      ensures Valid() && Inv(listing) && Later(TryStep, old(s), listing) && (alone ==> listing == old(s))
      ensures Enabled(listing, ListJobs(h, job)) && s == Next(listing, ListJobs(h, job))
      ensures h in listing.handlers && listing.handlers[h] == old(s).handlers[h]
    {
      Others(h);
      LaterIsOnward(old(s), s);
      listing := s;
      var jobs := ListJobsOf(s.db.jobs[job].run);
      var status := Rollup(jobs);
      Take(ListJobs(h, job));
      assert s.handlers[h].listed.value.1 == status;
    }

    /** The rest of rollupRun. */
    method SetRunStatus(h: nat) returns (ok: bool, ghost storing: State)
      requires Valid() && h in s.handlers && Handles(s.db, s.handlers[h], SetRun(h))
      modifies this
      ensures Valid() && LaterWithout(old(s), h, storing) && Later(TryStep, old(s), storing) && (reliable ==> ok)
      ensures Enabled(storing, SetRun(h)) && storing.handlers[h] == old(s).handlers[h]
      ensures s == Next(storing, if ok then SetRun(h) else DropRollup(h))
      ensures alone ==> storing == old(s)
    {
      Others(h);
      storing := s;
      ok := *;
      ok := ok || reliable;
      if ok {
        Take(SetRun(h));
      } else {
        Take(DropRollup(h));
      }
    }

    /** Both halves. The states before the two statements are those of RolledUpSince. */
    method ListAndSet(h: nat, job: nat)
      requires Valid() && h in s.handlers && Handles(s.db, s.handlers[h], ListJobs(h, job))
      modifies this
      ensures Valid() && Later(TryStep, old(s), s)
      ensures h in s.handlers && s.handlers[h] == RollingUp(old(s).handlers[h].todo - {job}, None)
      ensures reliable ==> RolledUpSince(old(s), h, job, s)
      ensures alone ==> SameBut(h, old(s), s)
      ensures alone && reliable ==> s.db == RolledUp(old(s).db, job)
    {
      ghost var listing := ListAndRollup(h, job);
      ghost var listed := s;
      var ok; ghost var storing;
      ok, storing := SetRunStatus(h);
      TwoStatements(old(s), h, job, listing, storing, ok, s);
      if alone {
        NoneBetween(old(s), h, job, ok, s);
      }
    }

    /** Recomputes the status of the run of one job. Errors are only logged. */
    method RollupRun(h: nat, job: nat)
      requires Valid() && h in s.handlers && Handles(s.db, s.handlers[h], ListJobs(h, job))
      modifies this
      ensures Valid() && Later(TryStep, old(s), s)
      ensures h in s.handlers && s.handlers[h] == RollingUp(old(s).handlers[h].todo - {job}, None)
      ensures reliable ==> RolledUpSince(old(s), h, job, s)
      ensures alone ==> SameBut(h, old(s), s)
      ensures alone && reliable ==> s.db == RolledUp(old(s).db, job)
    {
      var fails: bool := *;
      if fails && !reliable {
        Take(SkipRollup(h, job));
      } else {
        ListAndSet(h, job);
      }
    }

    method PutLogBlob(h: nat) returns (ok: bool)
      requires Valid() && h in s.handlers && s.handlers[h].Completing?
      modifies this
      ensures Valid() && Later(TryStep, old(s), s) && (reliable ==> ok)
      ensures if ok then
                var d := old(s).handlers[h];
                h in s.handlers && s.handlers[h] == LogStored(d.job, d.outcome, d.key, d.log)
              else h !in s.handlers
      ensures alone ==> SameBut(h, old(s), s)
      ensures alone && ok ==> s.db == Exec(old(s).db, PutLog(old(s).handlers[h].key, ReportOf(old(s).handlers[h])))
    {
      ghost var before;
      ok, before := Try(h, StoreLog(h));
    }

    method SetJobResult(h: nat, now: int) returns (ok: bool)
      requires Valid() && h in s.handlers && s.handlers[h].LogStored?
      modifies this
      ensures Valid() && Later(TryStep, old(s), s) && (reliable ==> ok)
      ensures if ok then
                var d := old(s).handlers[h];
                && h in s.handlers && s.handlers[h] == RollingUp({d.job}, None)
                && IsRecorded(s.db, d.job, d.outcome, d.log, now)
              else h !in s.handlers
      ensures alone ==> SameBut(h, old(s), s)
      ensures alone && ok ==>
        var d := old(s).handlers[h];
        s.db == Exec(old(s).db, UpdateResult(d.job, d.outcome, d.key, d.log, now))
    {
      ghost var before;
      ok, before := Try(h, SetResult(h, now));
      assert HandlerOk(before.db, before.handlers[h]);
    }

    /** The log goes into the store before the row points to it. */
    method RecordResult(h: nat, now: int) returns (ok: bool)
      requires Valid() && h in s.handlers && s.handlers[h].Completing?
      modifies this
      ensures Valid() && Later(TryStep, old(s), s) && (reliable ==> ok)
      ensures if ok then
                var d := old(s).handlers[h];
                && h in s.handlers && s.handlers[h] == RollingUp({d.job}, None)
                && IsRecorded(s.db, d.job, d.outcome, d.log, now)
              else h !in s.handlers
      ensures alone ==> SameBut(h, old(s), s)
      ensures alone && ok ==>
        var d := old(s).handlers[h];
        s.db == Exec(Exec(old(s).db, PutLog(d.key, ReportOf(d))), UpdateResult(d.job, d.outcome, d.key, d.log, now))
    {
      ok := PutLogBlob(h);
      if ok {
        ghost var w := s;
        ok := SetJobResult(h, now);
        LaterOn(TryStep, old(s), w, s);
      }
    }

    /** GetJob, the check that it is not finished yet, and GetRun. */
    method ReadJob(h: nat, job: nat, outcome: Status, log: string) returns (r: Answer)
      requires Valid() && h !in s.handlers && outcome in {Passed, Failed, Error}
      modifies this
      ensures Valid() && Later(TryStep, old(s), s)
      ensures r == NotFound || r == AlreadyDone || r == Recorded || (r == Internal && !reliable)
      ensures r == AlreadyDone ==> job in s.db.jobs && IsTerminal(s.db.jobs[job].status)
      ensures r == NotFound ==> job !in s.db.jobs
      ensures r == Recorded ==>
        && job in s.db.jobs && s.db.jobs[job].run in s.db.runs && !IsTerminal(s.db.jobs[job].status)
        && h in s.handlers && s.handlers[h] == Completing(job, outcome, KeyOf(s.db, job), log)
      ensures r != Recorded ==> h !in s.handlers
      ensures alone ==> s.db == old(s).db && s.claims == old(s).claims
      ensures alone ==> s.handlers - {h} == old(s).handlers
    {
      Others(h);
      var fails: bool := *;
      if fails && !reliable {
        return Internal;
      }
      if job !in s.db.jobs {
        return NotFound;
      }
      if IsTerminal(s.db.jobs[job].status) {
        return AlreadyDone;
      }
      ghost var w := s;
      Take(Complete(h, job, outcome, log));
      LaterOn(TryStep, old(s), w, s);
      return Recorded;
    }

    /** The end of a completion. */
    method RollupLast(h: nat, job: nat)
      requires Valid() && h in s.handlers && s.handlers[h] == RollingUp({job}, None) && job in s.db.jobs
      modifies this
      ensures Valid() && Later(TryStep, old(s), s) && h !in s.handlers
      ensures reliable ==> RolledUpSince(old(s), h, job, s)
      ensures alone ==> s.claims == old(s).claims && s.handlers == old(s).handlers - {h}
      ensures alone && reliable ==> s.db == RolledUp(old(s).db, job)
    {
      RollupRun(h, job);
      assert {job} - {job} == {};
      ghost var w := s;
      Take(EndRollup(h));
      LaterOn(TryStep, old(s), w, s);
      if reliable {
        LaterSame(TryStep, old(s));
        RolledUpSinceOn(old(s), old(s), h, job, w, s);
      }
    }

    /** Everything after the check. */
    method RecordAndRollup(h: nat, now: int) returns (ok: bool, ghost done: State)
      requires Valid() && h in s.handlers && s.handlers[h].Completing?
      modifies this
      ensures Valid() && Later(TryStep, old(s), s) && h !in s.handlers && (reliable ==> ok)
      ensures ok ==>
        var d := old(s).handlers[h];
        && Inv(done) && Later(TryStep, old(s), done) && Later(TryStep, done, s)
        && IsRecorded(done.db, d.job, d.outcome, d.log, now)
        && (reliable ==> RolledUpSince(done, h, d.job, s))
      ensures alone ==> s.claims == old(s).claims && s.handlers == old(s).handlers - {h}
      ensures alone && reliable ==>
        var d := old(s).handlers[h];
        IsCompleted(old(s).db, d.job, d.outcome, d.log, now, s.db)
    {
      assert HandlerOk(s.db, s.handlers[h]);
      ghost var d := s.handlers[h];
      var job := s.handlers[h].job;
      ok := RecordResult(h, now);
      done := s;
      if ok {
        RollupLast(h, job);
        LaterOn(TryStep, old(s), done, s);
      }
    }

    /**
     Records a job's log and outcome, then rolls up its run. When it says so, the row and the
     store have been written at one moment, done, and the run has been rolled up since then.
     With nothing else going on, the new rows are those of Completed and RolledUp.
     */
    method HandleComplete(h: nat, job: nat, outcome: Status, log: string, now: int)
      returns (r: Answer, ghost done: State)
      requires Valid() && h !in s.handlers
      modifies this
      ensures Valid() && Later(TryStep, old(s), s) && h !in s.handlers
      ensures r == BadRequest <==> outcome !in {Passed, Failed, Error}
      ensures r == AlreadyDone ==> job in s.db.jobs && IsTerminal(s.db.jobs[job].status)
      ensures r == NotFound ==> job !in old(s).db.jobs
      ensures r == Recorded ==>
        && Inv(done) && Later(TryStep, old(s), done) && Later(TryStep, done, s)
        && IsRecorded(done.db, job, outcome, log, now)
        && (reliable ==> RolledUpSince(done, h, job, s))
      ensures alone ==> s.claims == old(s).claims && s.handlers == old(s).handlers
      ensures alone && (r == BadRequest || r == NotFound || r == AlreadyDone) ==> s.db == old(s).db
      ensures alone && reliable && r == Recorded ==>
        IsCompleted(old(s).db, job, outcome, log, now, s.db)
      ensures reliable ==> r != Internal
    {
      done := s;
      if outcome !in {Passed, Failed, Error} {
        LaterSame(TryStep, s);
        return BadRequest, done;
      }
      r := ReadJob(h, job, outcome, log);
      ghost var w := s;
      LaterIsOnward(old(s), w);
      if r != Recorded {
        return;
      }
      var ok;
      ok, done := RecordAndRollup(h, now);
      LaterOn(TryStep, old(s), w, s);
      if !ok {
        return Internal, done;
      }
      LaterOn(TryStep, old(s), w, done);
    }

    method SweepJob(h: nat, job: nat, now: int) returns (ok: bool)
      requires Valid() && h in s.handlers && Handles(s.db, s.handlers[h], SweepOne(h, job, now))
      modifies this
      ensures Valid() && Later(TryStep, old(s), s) && (reliable ==> ok)
      ensures if ok then
                var d := old(s).handlers[h];
                h in s.handlers && s.handlers[h] == Sweeping(d.todo - {job}, d.found + {job})
              else h !in s.handlers
      ensures alone ==> SameBut(h, old(s), s)
      ensures alone && ok ==> s.db == Exec(old(s).db, UpdateWhere(job, Running, Error, now))
    {
      ghost var before;
      ok, before := Try(h, SweepOne(h, job, now));
    }

    /** The update loop of SweepStuckJobs. */
    method SweepAll(h: nat, now: int) returns (ok: bool)
      requires Valid() && h in s.handlers && s.handlers[h].Sweeping? && s.handlers[h].found == {}
      modifies this
      ensures Valid() && Later(TryStep, old(s), s) && (reliable ==> ok)
      ensures if ok then h in s.handlers && s.handlers[h] == Sweeping({}, old(s).handlers[h].todo) else h !in s.handlers
      ensures alone ==> SameBut(h, old(s), s)
      ensures alone && ok ==> s.db == Swept(old(s).db, old(s).handlers[h].todo, now)
    {
      ghost var all := s.handlers[h].todo;
      var todo := s.handlers[h].todo;
      LaterSame(TryStep, s);
      assert Swept(s.db, {}, now).jobs == s.db.jobs;
      while exists id :: id in todo
        invariant Valid() && Later(TryStep, old(s), s)
        invariant todo <= all && h in s.handlers && s.handlers[h] == Sweeping(todo, all - todo)
        invariant alone ==> SameBut(h, old(s), s)
        invariant alone ==> s.db == Swept(old(s).db, all - todo, now)
        decreases |todo|
      {
        var id :| id in todo;
        ghost var w := s;
        ok := SweepJob(h, id, now);
        LaterOn(TryStep, old(s), w, s);
        if !ok {
          return false;
        }
        assert all - todo + {id} == all - (todo - {id});
        SweptOneMore(old(s).db, all - todo, id, now);
        todo := todo - {id};
      }
      assert todo == {} && all - todo == all;
      return true;
    }

    /** One turn of the rollup loop of ReconcileStuck. first is how all was, seen the jobs dealt with. */
    method RollupNext(h: nat, job: nat, ghost first: State, ghost seen: set<nat>)
      requires Valid() && h in s.handlers && s.handlers[h].RollingUp? && s.handlers[h].listed.None?
      requires job in s.handlers[h].todo && Later(TryStep, first, s)
      requires reliable ==> EachRolledUp(first, h, seen, s)
      requires alone && reliable ==> RolledUpAll(first.db, s.db, seen)
      modifies this
      ensures Valid() && Later(TryStep, first, s)
      ensures h in s.handlers && s.handlers[h] == RollingUp(old(s).handlers[h].todo - {job}, None)
      ensures reliable ==> EachRolledUp(first, h, seen + {job}, s)
      ensures alone ==> SameBut(h, old(s), s)
      ensures alone && reliable ==> RolledUpAll(first.db, s.db, seen + {job})
    {
      assert HandlerOk(s.db, s.handlers[h]);
      if alone && reliable {
        RolledUpOneMore(first.db, s.db, seen, job);
      }
      RollupRun(h, job);
      if reliable {
        EachRolledUpOneMore(first, h, seen, job, old(s), s);
      }
      LaterOn(TryStep, first, old(s), s);
    }

    /** The rollup loop of ReconcileStuck. */
    method RollupAll(h: nat)
      requires Valid() && h in s.handlers && s.handlers[h].RollingUp? && s.handlers[h].listed.None?
      modifies this
      ensures Valid() && Later(TryStep, old(s), s) && h in s.handlers && s.handlers[h] == RollingUp({}, None)
      ensures reliable ==> EachRolledUp(old(s), h, old(s).handlers[h].todo, s)
      ensures alone ==> SameBut(h, old(s), s)
      ensures alone && reliable ==> RolledUpAll(old(s).db, s.db, old(s).handlers[h].todo)
    {
      ghost var all := s.handlers[h].todo;
      var todo := s.handlers[h].todo;
      LaterSame(TryStep, s);
      while exists id :: id in todo
        invariant Valid() && Later(TryStep, old(s), s)
        invariant todo <= all && h in s.handlers && s.handlers[h] == RollingUp(todo, None)
        invariant reliable ==> EachRolledUp(old(s), h, all - todo, s)
        invariant alone ==> SameBut(h, old(s), s)
        invariant alone && reliable ==> RolledUpAll(old(s).db, s.db, all - todo)
        decreases |todo|
      {
        var id :| id in todo;
        RollupNext(h, id, old(s), all - todo);
        assert all - todo + {id} == all - (todo - {id});
        todo := todo - {id};
      }
      assert todo == {} && all - todo == all;
    }

    method StartSweep(h: nat, cutoff: int)
      requires Valid() && h !in s.handlers
      modifies this
      ensures Valid() && Later(TryStep, old(s), s)
      ensures h in s.handlers && s.handlers[h] == Sweeping(Stuck(s.db, cutoff), {})
      ensures alone ==> s.db == old(s).db && s.claims == old(s).claims && s.handlers - {h} == old(s).handlers
    {
      Others(h);
      ghost var w := s;
      Take(FindStuck(h, cutoff));
      LaterOn(TryStep, old(s), w, s);
    }

    method StartRollups(h: nat)
      requires Valid() && h in s.handlers && s.handlers[h].Sweeping? && s.handlers[h].todo == {}
      modifies this
      ensures Valid() && Later(TryStep, old(s), s)
      ensures h in s.handlers && s.handlers[h] == RollingUp(old(s).handlers[h].found, None)
      ensures s.db == old(s).db && SameBut(h, old(s), s)
    {
      Take(EndSweep(h));
    }

    /** SweepStuckJobs. */
    method FindAndSweep(h: nat, cutoff: int, now: int) returns (ok: bool, ghost finding: State)
      requires Valid() && h !in s.handlers
      modifies this
      ensures Valid() && Inv(finding) && (reliable ==> ok)
      ensures Later(TryStep, old(s), s) && Later(TryStep, old(s), finding) && Later(TryStep, finding, s)
      ensures if ok then h in s.handlers && s.handlers[h] == RollingUp(Stuck(finding.db, cutoff), None)
              else h !in s.handlers
      ensures ok ==> AllEnded(s.db, Stuck(finding.db, cutoff))
      ensures alone ==> s.claims == old(s).claims && s.handlers - {h} == old(s).handlers
      ensures alone && ok ==>
        finding.db == old(s).db && s.db == Swept(old(s).db, Stuck(old(s).db, cutoff), now)
    {
      StartSweep(h, cutoff);
      finding := s;
      ok := SweepAll(h, now);
      if ok {
        assert HandlerOk(s.db, s.handlers[h]);
        ghost var w := s;
        StartRollups(h);
        LaterOn(TryStep, finding, w, s);
      }
      LaterOn(TryStep, old(s), finding, s);
    }

    /**
     A runner that died leaves its job running; the sweep ends such jobs and rolls up their
     runs. The jobs are those found at one moment, finding; at a later one, swept, all of them
     have ended, and each run is rolled up after that. With nothing else going on, afterwards
     exactly the running jobs last updated before the cutoff are errors, and each of their runs
     has the rollup of its jobs as its status.
     */
    method ReconcileStuck(h: nat, cutoff: int, now: int) returns (ok: bool, ghost finding: State, ghost swept: State)
      requires Valid() && h !in s.handlers
      modifies this
      ensures Valid() && Later(TryStep, old(s), s) && h !in s.handlers && (reliable ==> ok)
      ensures ok ==>
        && Later(TryStep, old(s), finding) && Later(TryStep, finding, swept) && Later(TryStep, swept, s)
        && AllEnded(swept.db, Stuck(finding.db, cutoff)) && AllEnded(s.db, Stuck(finding.db, cutoff))
        && (reliable ==> EachRolledUp(swept, h, Stuck(finding.db, cutoff), s))
      ensures ok ==>
        forall id <- finding.db.jobs | finding.db.jobs[id].status == Running && finding.db.jobs[id].updated < cutoff ::
          && id in swept.db.jobs && swept.db.jobs[id].status in {Passed, Failed, Error, Superseded}
          && (reliable ==> RolledUpSince(swept, h, id, s))
      ensures alone && reliable ==>
        && s.db.jobs.Keys == old(s).db.jobs.Keys && s.db.runs.Keys == old(s).db.runs.Keys
        && (forall id <- old(s).db.jobs ::
              var job := old(s).db.jobs[id];
              s.db.jobs[id] ==
              if job.status == Running && job.updated < cutoff then job.(status := Error, updated := now) else job)
        && (forall run <- old(s).db.runs ::
              if exists id <- old(s).db.jobs ::
                   && old(s).db.jobs[id].run == run && old(s).db.jobs[id].status == Running
                   && old(s).db.jobs[id].updated < cutoff
              then s.db.runs[run].status == RollupIn(s.db, run)
              else s.db.runs[run] == old(s).db.runs[run])
      ensures alone ==> s.claims == old(s).claims && s.handlers == old(s).handlers
      ensures alone && reliable ==>
        RolledUpAll(Swept(old(s).db, Stuck(old(s).db, cutoff), now), s.db, Stuck(old(s).db, cutoff))
    {
      ok, finding := FindAndSweep(h, cutoff, now);
      swept := s;
      if !ok {
        return;
      }
      RollupAll(h);
      ghost var w := s;
      Take(EndRollup(h));
      LaterOn(TryStep, swept, w, s);
      LaterOn(TryStep, old(s), swept, s);
      if reliable {
        EachRolledUpOn(swept, h, Stuck(finding.db, cutoff), w, s);
      }
      EndedStay(swept, s, Stuck(finding.db, cutoff));
      FoundHaveEnded(finding, cutoff, swept, h, s, reliable);
      if alone && reliable {
        SweepDoes(old(s).db, cutoff, now, s.db);
      }
    }

    /** CreateJob. The row gets an id that no row has. */
    method AddJob(h: nat, now: int) returns (ok: bool, job: nat)
      requires Valid() && h in s.handlers && s.handlers[h].Dispatching? && s.handlers[h].current.None?
      modifies this
      ensures Valid() && Later(TryStep, old(s), s) && (reliable ==> ok)
      ensures h in s.handlers
      ensures if ok then s.handlers[h] == old(s).handlers[h].(current := Some(job), made := old(s).handlers[h].made + 1)
              else s.handlers[h] == old(s).handlers[h]
      ensures ok ==> job !in old(s).db.jobs && job in s.db.jobs && s.db.jobs[job].run == s.handlers[h].run
      ensures alone && !ok ==> s.db == old(s).db
      ensures alone && ok ==> s.db == WithRow(old(s).db, job, NewJob(s.handlers[h].run, Queued, now))
    {
      Others(h);
      LaterIsOnward(old(s), s);
      ok, job := *, 0;
      if reliable || ok {
        ok := true;
        ghost var w := s;
        ghost var bound := Bounded(s.db.jobs.Keys);
        assert bound !in s.db.jobs;
        job :| job !in s.db.jobs;
        Take(CreateJob(h, job, now));
        LaterOn(TryStep, old(s), w, s);
      }
    }

    /** The runner of the job just added is started, or its failure to start is noted. */
    method StartRunner(h: nat, starts: bool, now: int)
      requires Valid() && h in s.handlers && s.handlers[h].Dispatching? && s.handlers[h].current.Some?
      requires s.handlers[h].current.value in s.db.jobs
      modifies this
      ensures Valid() && Later(TryStep, old(s), s) && h in s.handlers
      ensures
        var d := old(s).handlers[h];
        s.handlers[h] == d.(current := None, failed := d.failed + if starts then 0 else 1)
      ensures
        var job := old(s).handlers[h].current.value;
        && (reliable && !starts ==> job in s.db.jobs && IsTerminal(s.db.jobs[job].status))
        && (alone ==> s.db == old(s).db || (!starts && s.db == InError(old(s).db, job, now)))
        && (alone && reliable && !starts ==> s.db == InError(old(s).db, job, now))
    {
      Others(h);
      ghost var w := s;
      var noted: bool := *;
      noted := noted || reliable;
      TriggeredLeaves(s, h, starts, noted, now);
      Take(Triggered(h, starts, noted, now));
      LaterOn(TryStep, old(s), w, s);
    }

    method MarkMalformed(h: nat)
      requires Valid() && h in s.handlers && s.handlers[h].Dispatching? && s.handlers[h].current.None?
      modifies this
      ensures Valid() && Later(TryStep, old(s), s) && h in s.handlers
      ensures s.handlers[h] == old(s).handlers[h].(malformed := true) && s.db == old(s).db
    {
      Take(BadFile(h));
    }

    /** A file that parses. */
    method DispatchValid(h: nat, starts: bool, now: int) returns (ghost row: Option<nat>)
      requires Valid() && h in s.handlers && s.handlers[h].Dispatching? && s.handlers[h].current.None?
      modifies this
      ensures Valid() && Later(TryStep, old(s), s) && h in s.handlers
      ensures
        var d := old(s).handlers[h];
        if row.Some? then s.handlers[h] == d.(made := d.made + 1, failed := d.failed + if starts then 0 else 1)
        else s.handlers[h] == d && !reliable
      ensures reliable ==> HasRow(old(s).db.jobs, s.db.jobs, old(s).handlers[h].run, File(true, starts), row)
      ensures alone ==> s.db.runs == old(s).db.runs && KeepsJobs(old(s).db, s.db)
      ensures alone && reliable ==>
        RowAdded(old(s).db.jobs, s.db.jobs, old(s).handlers[h].run, File(true, starts), row, now)
    {
      var ok, job := AddJob(h, now);
      if !ok {
        return None;
      }
      row := Some(job);
      ghost var w := s;
      StartRunner(h, starts, now);
      LaterOn(TryStep, old(s), w, s);
      if reliable {
        LaterIsOnward(w, s);
        AddedStays(old(s).db.jobs, w.db, s.db, old(s).handlers[h].run, File(true, starts), job);
        if alone {
          StartedRow(old(s).db, s.db, old(s).handlers[h].run, File(true, starts), now, job);
        }
      }
    }

    /** One turn of the loop over the workflow files. */
    method DispatchFile(h: nat, f: File, now: int) returns (ghost row: Option<nat>)
      requires Valid() && h in s.handlers && s.handlers[h].Dispatching? && s.handlers[h].current.None?
      modifies this
      ensures Valid() && Later(TryStep, old(s), s) && h in s.handlers
      ensures s.handlers[h].Dispatching? && s.handlers[h].current.None? && s.handlers[h].run == old(s).handlers[h].run
      ensures s.handlers[h].malformed <==> old(s).handlers[h].malformed || !f.valid
      ensures reliable ==> s.handlers[h].made == old(s).handlers[h].made + if f.valid then 1 else 0
      ensures reliable ==>
        s.handlers[h].failed == old(s).handlers[h].failed + if f.valid && !f.starts then 1 else 0
      ensures reliable ==> HasRow(old(s).db.jobs, s.db.jobs, old(s).handlers[h].run, f, row)
      ensures alone ==> s.db.runs == old(s).db.runs && KeepsJobs(old(s).db, s.db)
      ensures alone && reliable ==> RowAdded(old(s).db.jobs, s.db.jobs, old(s).handlers[h].run, f, row, now)
    {
      if f.valid {
        row := DispatchValid(h, f.starts, now);
      } else {
        row := None;
        MarkMalformed(h);
      }
    }

    method DispatchFiles(h: nat, files: seq<File>, now: int) returns (ghost rows: seq<Option<nat>>)
      requires Valid() && h in s.handlers && s.handlers[h].Dispatching? && Counts(s.handlers[h], [], reliable)
      modifies this
      ensures Valid() && Later(TryStep, old(s), s) && h in s.handlers
      ensures Counts(s.handlers[h], files, reliable) && s.handlers[h].run == old(s).handlers[h].run
      ensures reliable ==> HaveRows(old(s).db.jobs, s.db.jobs, old(s).handlers[h].run, files, rows)
      ensures alone ==> s.db.runs == old(s).db.runs && KeepsJobs(old(s).db, s.db)
      ensures alone && reliable ==>
        JobsAdded(old(s).db.jobs, s.db.jobs, old(s).handlers[h].run, files, rows, now)
    {
      LaterSame(TryStep, s);
      rows := [];
      for i := 0 to |files|
        invariant Valid() && Later(TryStep, old(s), s) && h in s.handlers
        invariant Counts(s.handlers[h], files[..i], reliable) && s.handlers[h].run == old(s).handlers[h].run
        invariant reliable ==> HaveRows(old(s).db.jobs, s.db.jobs, old(s).handlers[h].run, files[..i], rows)
        invariant alone ==> s.db.runs == old(s).db.runs && KeepsJobs(old(s).db, s.db)
        invariant alone && reliable ==>
          JobsAdded(old(s).db.jobs, s.db.jobs, old(s).handlers[h].run, files[..i], rows, now)
      {
        ghost var w, run := s, s.handlers[h].run;
        ghost var row := DispatchFile(h, files[i], now);
        LaterOn(TryStep, old(s), w, s);
        assert files[..i + 1] == files[..i] + [files[i]];
        if reliable {
          LaterIsOnward(old(s), w);
          LaterIsOnward(w, s);
          RowAddedMore(old(s).db.jobs, w.db, s.db, run, files[..i], rows, files[i], row);
          if alone {
            JobAddedMore(old(s).db.jobs, w.db.jobs, s.db.jobs, run, files[..i], rows, files[i], row, now);
          }
        }
        CountsOneMore(w.handlers[h], s.handlers[h], files[..i], files[i], reliable);
        rows := rows + [row];
      }
      assert files[..|files|] == files;
    }

    /** A database failure leaves the status of the run as it is. */
    method EndRun(h: nat) returns (ghost ending: State)
      requires Valid() && h in s.handlers && s.handlers[h].Dispatching? && s.handlers[h].current.None?
      modifies this
      ensures Valid() && Later(TryStep, old(s), s) && h !in s.handlers
      ensures Inv(ending) && h in ending.handlers && ending.handlers[h] == old(s).handlers[h]
      ensures Later(TryStep, old(s), ending) && Later(TryStep, ending, s)
      ensures reliable ==> s == Next(ending, EndDispatch(h))
      ensures alone ==> ending == old(s) && s.db.jobs == old(s).db.jobs
    {
      var ok;
      ok, ending := Try(h, EndDispatch(h));
    }

    /** All of recordRun but the insertion of the run. */
    method FillRun(h: nat, files: seq<File>, now: int) returns (ghost rows: seq<Option<nat>>, ghost ending: State)
      requires Valid() && h in s.handlers && s.handlers[h].Dispatching? && Counts(s.handlers[h], [], reliable)
      modifies this
      ensures Valid() && Later(TryStep, old(s), s) && h !in s.handlers
      ensures Later(TryStep, old(s), ending)
      ensures reliable ==> IsDispatched(old(s), h, files, rows, old(s).handlers[h].run, ending, s)
      ensures alone ==> ending.db.runs == old(s).db.runs && KeepsJobs(old(s).db, s.db)
      ensures alone && reliable ==>
        JobsAdded(old(s).db.jobs, s.db.jobs, old(s).handlers[h].run, files, rows, now)
    {
      rows := DispatchFiles(h, files, now);
      ghost var v := s;
      ending := EndRun(h);
      LaterOn(TryStep, old(s), v, ending);
      LaterOn(TryStep, old(s), ending, s);
      LaterIsOnward(v, ending);
      if reliable {
        EndGivesVerdict(ending, h, files);
        RowsStay(old(s).db.jobs, v.db, ending.db, old(s).handlers[h].run, files, rows);
      }
    }

    /**
     A new run with one job a workflow file. A file that does not parse fails the run but not
     the other jobs; a run none of whose runners start is an error. The verdict is given last,
     at the moment ending.
     */
    method RecordRun(h: nat, repo: nat, files: seq<File>, now: int)
      returns (run: Option<nat>, ghost rows: seq<Option<nat>>, ghost ending: State)
      requires Valid() && h !in s.handlers
      modifies this
      ensures Valid() && Later(TryStep, old(s), s) && h !in s.handlers && (reliable ==> run.Some?)
      ensures reliable ==>
        && run.Some? && run.value !in old(s).db.runs && run.value in s.db.runs && s.db.runs[run.value].repo == repo
        && Later(TryStep, old(s), ending) && IsDispatched(old(s), h, files, rows, run.value, ending, s)
      ensures alone ==> KeepsJobs(old(s).db, s.db)
      ensures alone && reliable ==>
        run.Some? && RunAdded(old(s).db, s.db, repo, run.value, files, rows, now)
    {
      rows, ending := [], s;
      run := InsertNewRun(h, repo);
      if run.None? {
        return;
      }
      ghost var w := s;
      rows, ending := FillRun(h, files, now);
      LaterOn(TryStep, old(s), w, s);
      LaterOn(TryStep, old(s), w, ending);
      LaterIsOnward(w, s);
      if reliable {
        DispatchedBefore(old(s), w, h, files, rows, run.value, ending, s);
      }
    }

    method InsertNewRun(h: nat, repo: nat) returns (run: Option<nat>)
      requires Valid() && h !in s.handlers
      modifies this
      ensures Valid() && Later(TryStep, old(s), s) && (reliable ==> run.Some?)
      ensures if run.Some? then h in s.handlers && s.handlers[h] == Dispatching(run.value, None, 0, 0, false)
              else h !in s.handlers
      ensures run.Some? ==> run.value !in old(s).db.runs && run.value in s.db.runs && s.db.runs[run.value].repo == repo
      ensures old(s).db.jobs.Keys <= s.db.jobs.Keys
      ensures alone ==> s.db.jobs == old(s).db.jobs
      ensures alone && run.Some? ==> s.db.runs == old(s).db.runs[run.value := Run(repo, Queued)]
    {
      Others(h);
      LaterIsOnward(old(s), s);
      var ok: bool := *;
      if !reliable && !ok {
        return None;
      }
      ghost var w := s;
      ghost var bound := Bounded(s.db.runs.Keys);
      assert bound !in s.db.runs;
      var id: nat :| id !in s.db.runs;
      Take(CreateRun(h, id, repo));
      LaterOn(TryStep, old(s), w, s);
      return Some(id);
    }
  }
}
