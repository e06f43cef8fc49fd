/**
 A completion as a run of the system of module Jobs, from any state: its steps one by one, and
 all of them with nothing in between.
 */
module JobRuns {
  import opened Jobs
  import opened JobStatus
  import opened Traces
  import opened Wrappers

  lemma {:induction false} Bounded(ids: set<nat>) returns (bound: nat)
    ensures forall id <- ids :: id < bound
  {
    if ids == {} {
      bound := 0;
    } else {
      var id :| id in ids;
      var rest := Bounded(ids - {id});
      bound := if id < rest then rest else id + 1;
      assert forall other <- ids :: other == id || other in ids - {id};
    }
  }

  /** Handler h is now at d. */
  function At(s: State, db: Db, h: nat, d: Handler): State {
    State(db, s.handlers[h := d], s.claims)
  }

  predicate CanComplete(s: State, h: nat, job: nat, outcome: Status) {
    && h !in s.handlers && outcome in {Passed, Failed, Error}
    && job in s.db.jobs && s.db.jobs[job].run in s.db.runs && !IsTerminal(s.db.jobs[job].status)
  }

  lemma OneStep(s: State, step: Step, s': State)
    requires Enabled(s, step) && Next(s, step) == s'
    ensures Later(TryStep, s, s')
  {
    LaterSame(TryStep, s);
    LaterTo(s, s, step, s');
  }

  lemma Chain(a: State, b: State, c: State, d: State)
    requires Later(TryStep, a, b) && Later(TryStep, b, c) && Later(TryStep, c, d)
    ensures Later(TryStep, a, d)
  {
    LaterOn(TryStep, a, b, c);
    LaterOn(TryStep, a, c, d);
  }

  lemma Reads(s: State, h: nat, job: nat, outcome: Status, log: string)
    requires CanComplete(s, h, job, outcome)
    ensures Later(TryStep, s, At(s, s.db, h, Completing(job, outcome, KeyOf(s.db, job), log)))
  {
    OneStep(s, Complete(h, job, outcome, log), At(s, s.db, h, Completing(job, outcome, KeyOf(s.db, job), log)));
  }

  lemma Stores(s: State, h: nat)
    requires h in s.handlers && s.handlers[h].Completing?
    ensures
      var d := s.handlers[h];
      Later(TryStep, s, At(s, Exec(s.db, PutLog(d.key, ReportOf(d))), h, LogStored(d.job, d.outcome, d.key, d.log)))
  {
    var d := s.handlers[h];
    var db := Exec(s.db, PutLog(d.key, ReportOf(d)));
    OneStep(s, StoreLog(h), At(s, db, h, LogStored(d.job, d.outcome, d.key, d.log)));
  }

  lemma Records(s: State, h: nat)
    requires h in s.handlers && s.handlers[h].LogStored?
    ensures
      var d := s.handlers[h];
      Later(TryStep, s, At(s, Exec(s.db, UpdateResult(d.job, d.outcome, d.key, d.log, 0)), h, RollingUp({d.job}, None)))
  {
    var d := s.handlers[h];
    var db := Exec(s.db, UpdateResult(d.job, d.outcome, d.key, d.log, 0));
    OneStep(s, SetResult(h, 0), At(s, db, h, RollingUp({d.job}, None)));
  }

  lemma Lists(s: State, h: nat, job: nat)
    requires h in s.handlers && s.handlers[h] == RollingUp({job}, None) && job in s.db.jobs
    ensures
      var run := s.db.jobs[job].run;
      Later(TryStep, s, At(s, s.db, h, RollingUp({}, Some((run, RollupIn(s.db, run))))))
  {
    var run := s.db.jobs[job].run;
    assert {job} - {job} == {};
    OneStep(s, ListJobs(h, job), At(s, s.db, h, RollingUp({}, Some((run, RollupIn(s.db, run))))));
  }

  lemma Sets(s: State, h: nat, run: nat, status: Status)
    requires h in s.handlers && s.handlers[h] == RollingUp({}, Some((run, status)))
    ensures Later(TryStep, s, State(Exec(s.db, UpdateRun(run, status)), s.handlers - {h}, s.claims))
  {
    var mid := At(s, Exec(s.db, UpdateRun(run, status)), h, RollingUp({}, None));
    OneStep(s, SetRun(h), mid);
    assert mid.handlers - {h} == s.handlers - {h};
    LaterTo(s, mid, EndRollup(h), State(mid.db, s.handlers - {h}, s.claims));
  }

  lemma ReadsAndRecords(s: State, h: nat, job: nat, outcome: Status, log: string)
    requires CanComplete(s, h, job, outcome)
    ensures Later(TryStep, s, At(s, Completed(s.db, job, outcome, log, 0), h, RollingUp({job}, None)))
  {
    var key := KeyOf(s.db, job);
    var a := At(s, s.db, h, Completing(job, outcome, key, log));
    var b := At(s, Exec(s.db, PutLog(key, Report(outcome, log))), h, LogStored(job, outcome, key, log));
    var c := At(s, Completed(s.db, job, outcome, log, 0), h, RollingUp({job}, None));
    Reads(s, h, job, outcome, log);
    Stores(a, h);
    assert a.handlers[h := b.handlers[h]] == b.handlers;
    LaterOn(TryStep, s, a, b);
    Records(b, h);
    assert b.handlers[h := c.handlers[h]] == c.handlers;
    LaterOn(TryStep, s, b, c);
  }

  lemma ReadsToListed(s: State, h: nat, job: nat, outcome: Status, log: string)
    requires CanComplete(s, h, job, outcome)
    ensures
      var db, run := Completed(s.db, job, outcome, log, 0), s.db.jobs[job].run;
      Later(TryStep, s, At(s, db, h, RollingUp({}, Some((run, RollupIn(db, run))))))
  {
    var db, run := Completed(s.db, job, outcome, log, 0), s.db.jobs[job].run;
    var c := At(s, db, h, RollingUp({job}, None));
    var d := At(s, db, h, RollingUp({}, Some((run, RollupIn(db, run)))));
    ReadsAndRecords(s, h, job, outcome, log);
    Lists(c, h, job);
    assert c.handlers[h := d.handlers[h]] == d.handlers;
    LaterOn(TryStep, s, c, d);
  }

  /** A completion with nothing in between. */
  lemma Completes(s: State, h: nat, job: nat, outcome: Status, log: string)
    requires CanComplete(s, h, job, outcome)
    ensures Later(TryStep, s, s.(db := RolledUp(Completed(s.db, job, outcome, log, 0), job)))
  {
    var db, run := Completed(s.db, job, outcome, log, 0), s.db.jobs[job].run;
    var d := At(s, db, h, RollingUp({}, Some((run, RollupIn(db, run)))));
    ReadsToListed(s, h, job, outcome, log);
    Sets(d, h, run, RollupIn(db, run));
    assert d.handlers - {h} == s.handlers;
    LaterOn(TryStep, s, d, s.(db := RolledUp(db, job)));
  }
}
