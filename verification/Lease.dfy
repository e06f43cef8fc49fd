/**
 The leased metadata database shared by several instances (cmd/gitmote/main.go and the
 contract of s3lite that internal/meta/meta.go states).

 The contract taken as given: promotion restores the replica; a yield or a clean close has
 shipped everything before it releases the lock; only the lock holder commits; a hard kill or
 a lost lease forgets the commits that were not shipped yet.

 T is the database content, W one committed write, f what a write does.
 */
module Lease {
  import opened Wrappers

  type Id = nat

  /** pending: the commits this instance has made and not shipped to the replica. */
  datatype Node<T, W> = Node(leader: bool, table: T, pending: seq<W>)

  /**
   The last three fields are history. log: the surviving commits of all instances in commit
   order. shipped: how many of them the replica has. all: every commit ever made.
   */
  datatype State<T, W> = State(
    nodes: map<Id, Node<T, W>>,
    lock: Option<Id>,
    replica: T,
    log: seq<W>,
    shipped: nat,
    all: seq<W>)

  datatype Step<W> =
    | Boot(i: Id)
    | Promote(i: Id)
    | Refresh(i: Id)
    | Commit(i: Id, w: W)
    | Ship(i: Id, count: nat)
    | Yield(i: Id)
    | Close(i: Id)
    | Kill(i: Id)
    | Demote(i: Id)
    | Expire

  function Fold<T, W>(f: (T, W) -> T, t: T, ws: seq<W>): T {
    if |ws| == 0 then t else f(Fold(f, t, ws[..|ws| - 1]), ws[|ws| - 1])
  }

  predicate Enabled<T, W>(s: State<T, W>, step: Step<W>) {
    match step
    case Boot(i) => i !in s.nodes
    case Promote(i) => i in s.nodes && !s.nodes[i].leader && s.lock.None?
    case Refresh(i) => i in s.nodes && !s.nodes[i].leader
    case Commit(i, _) => i in s.nodes && s.nodes[i].leader
    case Ship(i, count) => i in s.nodes && s.nodes[i].leader && count <= |s.nodes[i].pending|
    case Yield(i) => i in s.nodes && s.nodes[i].leader && |s.nodes[i].pending| == 0
    case Close(i) => i in s.nodes && |s.nodes[i].pending| == 0
    case Kill(i) => i in s.nodes
    case Demote(i) => i in s.nodes && s.nodes[i].leader
    case Expire => s.lock.Some? && (s.lock.value !in s.nodes || !s.nodes[s.lock.value].leader)
  }

  function Next<T, W>(f: (T, W) -> T, s: State<T, W>, step: Step<W>): State<T, W>
    requires Enabled(s, step)
  {
    match step
    case Boot(i) => s.(nodes := s.nodes[i := Node(false, s.replica, [])])
    case Promote(i) => s.(nodes := s.nodes[i := Node(true, s.replica, [])], lock := Some(i))
    case Refresh(i) => s.(nodes := s.nodes[i := Node(false, s.replica, [])])
    case Commit(i, w) =>
      var n := s.nodes[i];
      s.(nodes := s.nodes[i := Node(true, f(n.table, w), n.pending + [w])],
         log := s.log + [w],
         all := s.all + [w])
    case Ship(i, count) =>
      var n := s.nodes[i];
      s.(nodes := s.nodes[i := n.(pending := n.pending[count..])],
         replica := Fold(f, s.replica, n.pending[..count]),
         shipped := s.shipped + count)
    case Yield(i) => s.(nodes := s.nodes[i := s.nodes[i].(leader := false)], lock := None)
    case Close(i) =>
      s.(nodes := s.nodes - {i}, lock := if s.nodes[i].leader then None else s.lock)
    case Kill(i) =>
      s.(nodes := s.nodes - {i},
         log := if s.nodes[i].leader && s.shipped <= |s.log| then s.log[..s.shipped] else s.log)
    case Demote(i) =>
      s.(nodes := s.nodes[i := s.nodes[i].(leader := false, pending := [])],
         lock := None,
         log := if s.shipped <= |s.log| then s.log[..s.shipped] else s.log)
    case Expire => s.(lock := None)
  }

  function Init<T, W>(base: T): State<T, W> {
    State(map[], None, base, [], 0, [])
  }

  /** At most one holder; its table and the replica are folds of the surviving commits. */
  ghost predicate Inv<T, W>(f: (T, W) -> T, base: T, s: State<T, W>) {
    && s.shipped <= |s.log|
    && s.replica == Fold(f, base, s.log[..s.shipped])
    && (forall i <- s.nodes | s.nodes[i].leader ::
          && s.lock == Some(i)
          && s.nodes[i].pending == s.log[s.shipped..]
          && s.nodes[i].table == Fold(f, base, s.log))
    && (forall i <- s.nodes | !s.nodes[i].leader :: s.nodes[i].pending == [])
    && (NoLeader(s) ==> s.shipped == |s.log|)
  }

  ghost predicate NoLeader<T, W>(s: State<T, W>) {
    forall i <- s.nodes :: !s.nodes[i].leader
  }

  lemma {:induction false} FoldConcat<T, W>(f: (T, W) -> T, t: T, a: seq<W>, b: seq<W>)
    ensures Fold(f, t, a + b) == Fold(f, Fold(f, t, a), b)
  {
    if b == [] {
      assert a + b == a;
    } else {
      FoldConcat(f, t, a, b[..|b| - 1]);
      assert (a + b)[..|a + b| - 1] == a + b[..|b| - 1];
    }
  }

  lemma FoldOne<T, W>(f: (T, W) -> T, t: T, a: seq<W>, w: W)
    ensures Fold(f, t, a + [w]) == f(Fold(f, t, a), w)
  {
    assert (a + [w])[..|a|] == a;
  }

  lemma InitInv<T, W>(f: (T, W) -> T, base: T)
    ensures Inv(f, base, Init<T, W>(base))
  {
  }

  lemma ShipKeepsInv<T, W>(f: (T, W) -> T, base: T, s: State<T, W>, i: Id, count: nat)
    requires Inv(f, base, s) && Enabled(s, Ship(i, count))
    ensures Inv(f, base, Next(f, s, Ship(i, count)))
  {
    var s' := Next(f, s, Ship(i, count));
    var batch := s.log[s.shipped..][..count];
    FoldConcat(f, base, s.log[..s.shipped], batch);
    assert s.log[..s.shipped] + batch == s.log[..s.shipped + count];
    assert s.log[s.shipped..][count..] == s.log[s.shipped + count..];
    assert s'.nodes[i].leader;
  }

  lemma CommitKeepsInv<T, W>(f: (T, W) -> T, base: T, s: State<T, W>, i: Id, w: W)
    requires Inv(f, base, s) && Enabled(s, Commit(i, w))
    ensures Inv(f, base, Next(f, s, Commit(i, w)))
  {
    var s' := Next(f, s, Commit(i, w));
    FoldOne(f, base, s.log, w);
    assert s'.log[..s.shipped] == s.log[..s.shipped];
    assert s'.log[s.shipped..] == s.log[s.shipped..] + [w];
    assert s'.nodes[i].leader;
  }

  lemma ReleaseKeepsInv<T, W>(f: (T, W) -> T, base: T, s: State<T, W>, step: Step<W>)
    requires Inv(f, base, s) && Enabled(s, step)
    requires step.Yield? || step.Close?
    ensures Inv(f, base, Next(f, s, step))
  {
    if s.nodes[step.i].leader {
      assert |s.log[s.shipped..]| == 0;
    }
  }

  lemma LossKeepsInv<T, W>(f: (T, W) -> T, base: T, s: State<T, W>, step: Step<W>)
    requires Inv(f, base, s) && Enabled(s, step)
    requires step.Kill? || step.Demote?
    ensures Inv(f, base, Next(f, s, step))
  {
    assert s.log[..s.shipped][..s.shipped] == s.log[..s.shipped];
  }

  lemma AcquireKeepsInv<T, W>(f: (T, W) -> T, base: T, s: State<T, W>, step: Step<W>)
    requires Inv(f, base, s) && Enabled(s, step)
    requires step.Boot? || step.Promote? || step.Refresh? || step.Expire?
    ensures Inv(f, base, Next(f, s, step))
  {
    if step.Promote? {
      assert s.log[..s.shipped] == s.log;
      assert s.log[s.shipped..] == [];
    }
    if step.Refresh? || step.Boot? {
      assert NoLeader(Next(f, s, step)) ==> NoLeader(s) by {
        forall j <- s.nodes | NoLeader(Next(f, s, step)) ensures !s.nodes[j].leader {
          assert j in Next(f, s, step).nodes;
        }
      }
    }
  }

  lemma NextKeepsInv<T, W>(f: (T, W) -> T, base: T, s: State<T, W>, step: Step<W>)
    requires Inv(f, base, s) && Enabled(s, step)
    ensures Inv(f, base, Next(f, s, step))
  {
    match step
    case Commit(i, w) => CommitKeepsInv(f, base, s, i, w);
    case Ship(i, count) => ShipKeepsInv(f, base, s, i, count);
    case Yield(_) => ReleaseKeepsInv(f, base, s, step);
    case Close(_) => ReleaseKeepsInv(f, base, s, step);
    case Kill(_) => LossKeepsInv(f, base, s, step);
    case Demote(_) => LossKeepsInv(f, base, s, step);
    case _ => AcquireKeepsInv(f, base, s, step);
  }

  /** Short of a commit, a step makes no new table but copies of the replica, and no new log. */
  lemma NextTables<T, W>(f: (T, W) -> T, base: T, s: State<T, W>, step: Step<W>)
    requires Inv(f, base, s) && Enabled(s, step) && !step.Commit?
    ensures Next(f, s, step).log <= s.log
    ensures forall i <- Next(f, s, step).nodes ::
              || (i in s.nodes && Next(f, s, step).nodes[i].table == s.nodes[i].table)
              || Next(f, s, step).nodes[i].table == Fold(f, base, s.log[..s.shipped])
  {
  }

  // ---------- Runs ----------

  ghost predicate Runs<T, W>(f: (T, W) -> T, s: State<T, W>, steps: seq<Step<W>>, s': State<T, W>)
    decreases |steps|
  {
    if steps == [] then s' == s
    else Enabled(s, steps[0]) && Runs(f, Next(f, s, steps[0]), steps[1..], s')
  }

  /** A kill or a lost lease forgets something only when commits are waiting to be shipped. */
  predicate Forgets<T, W>(s: State<T, W>, step: Step<W>) {
    (step.Kill? || step.Demote?) && step.i in s.nodes && |s.nodes[step.i].pending| > 0
  }

  /** A step forgets exactly when it takes commits out of the log. */
  lemma ForgetsIffLogShrinks<T, W>(f: (T, W) -> T, base: T, s: State<T, W>, step: Step<W>)
    requires Inv(f, base, s) && Enabled(s, step)
    ensures Forgets(s, step) && s.nodes[step.i].leader <==> |Next(f, s, step).log| < |s.log|
    ensures Forgets(s, step) ==> s.nodes[step.i].leader
  {
    if (step.Kill? || step.Demote?) && s.nodes[step.i].leader {
      assert |s.log[s.shipped..]| == |s.log| - s.shipped;
    }
  }

  ghost predicate LossFree<T, W>(f: (T, W) -> T, s: State<T, W>, steps: seq<Step<W>>)
    decreases |steps|
  {
    steps == [] ||
    (Enabled(s, steps[0]) && !Forgets(s, steps[0]) && LossFree(f, Next(f, s, steps[0]), steps[1..]))
  }

  lemma {:induction false} RunKeepsInv<T, W>(
    f: (T, W) -> T, base: T, s: State<T, W>, steps: seq<Step<W>>, s': State<T, W>)
    requires Inv(f, base, s) && Runs(f, s, steps, s')
    ensures Inv(f, base, s')
    decreases |steps|
  {
    if steps != [] {
      NextKeepsInv(f, base, s, steps[0]);
      RunKeepsInv(f, base, Next(f, s, steps[0]), steps[1..], s');
    }
  }

  /**
   The request gate: an instance serves when it holds the lease or can take it at once. The
   result is the state in which the request then reads.
   */
  ghost function Gate<T, W>(f: (T, W) -> T, s: State<T, W>, i: Id): (r: Option<State<T, W>>) {
    if i in s.nodes && s.nodes[i].leader then Some(s)
    else if Enabled(s, Promote(i)) then Some(Next(f, s, Promote(i)))
    else None
  }

  /** The table a gated request reads is the fold of the surviving commits of all instances. */
  lemma GatedReadIsSurvivingLog<T, W>(f: (T, W) -> T, base: T, s: State<T, W>, i: Id)
    requires Inv(f, base, s) && Gate(f, s, i).Some?
    ensures var r := Gate(f, s, i).value; i in r.nodes && r.nodes[i].table == Fold(f, base, s.log)
  {
    if !s.nodes[i].leader {
      NextKeepsInv(f, base, s, Promote(i));
      assert Next(f, s, Promote(i)).nodes[i].leader;
    }
  }

  lemma {:induction false} LossFreeKeepsAll<T, W>(
    f: (T, W) -> T, base: T, s: State<T, W>, steps: seq<Step<W>>, s': State<T, W>)
    requires Inv(f, base, s) && Runs(f, s, steps, s') && LossFree(f, s, steps)
    requires s.log == s.all
    ensures Inv(f, base, s') && s'.log == s'.all
    decreases |steps|
  {
    if steps != [] {
      var step := steps[0];
      NextKeepsInv(f, base, s, step);
      if step.Kill? || step.Demote? {
        assert s.nodes[step.i].leader ==> |s.log[s.shipped..]| == 0;
      }
      LossFreeKeepsAll(f, base, Next(f, s, step), steps[1..], s');
    }
  }

  /**
   Over any run in which no kill or lost lease meets unshipped commits, whichever instance
   passes the gate reads the fold of every commit made so far, by any instance, in commit
   order.
   */
  lemma GatedReadSeesEveryCommit<T, W>(
    f: (T, W) -> T, base: T, steps: seq<Step<W>>, s: State<T, W>, i: Id)
    requires Runs(f, Init(base), steps, s) && LossFree(f, Init(base), steps)
    requires Gate(f, s, i).Some?
    ensures var r := Gate(f, s, i).value; i in r.nodes && r.nodes[i].table == Fold(f, base, s.all)
  {
    InitInv<T, W>(f, base);
    LossFreeKeepsAll(f, base, Init(base), steps, s);
    GatedReadIsSurvivingLog(f, base, s, i);
  }

  /** Whatever the replica has at one point of a run is part of the surviving log ever after. */
  lemma {:induction false} ShippedSurvives<T, W>(
    f: (T, W) -> T, base: T, s: State<T, W>, steps: seq<Step<W>>, s': State<T, W>)
    requires Inv(f, base, s) && Runs(f, s, steps, s')
    ensures s.shipped <= s'.shipped <= |s'.log|
    ensures s'.log[..s.shipped] == s.log[..s.shipped]
    decreases |steps|
  {
    if steps != [] {
      NextKeepsInv(f, base, s, steps[0]);
      var mid := Next(f, s, steps[0]);
      ShippedSurvives(f, base, mid, steps[1..], s');
      assert mid.log[..s.shipped] == s.log[..s.shipped];
      assert s'.log[..s.shipped] == s'.log[..mid.shipped][..s.shipped];
      assert mid.log[..s.shipped] == mid.log[..mid.shipped][..s.shipped];
    }
  }

  /**
   A hard kill of the holder takes exactly its unshipped commits, a suffix of the log, and
   the next instance to pass the gate reads the rest.
   */
  lemma KillDropsUnshippedSuffix<T, W>(f: (T, W) -> T, base: T, s: State<T, W>, i: Id, j: Id)
    requires Inv(f, base, s) && i in s.nodes && s.nodes[i].leader
    requires j in s.nodes && j != i
    ensures
      var dead := Next(f, s, Kill(i));
      var free := Next(f, dead, Expire);
      && s.log == dead.log + s.nodes[i].pending
      && Gate(f, dead, j).None?
      && Gate(f, free, j).Some?
      && Gate(f, free, j).value.nodes[j].table == Fold(f, base, dead.log)
  {
    var dead := Next(f, s, Kill(i));
    assert !s.nodes[j].leader;
    NextKeepsInv(f, base, s, Kill(i));
    NextKeepsInv(f, base, dead, Expire);
    GatedReadIsSurvivingLog(f, base, Next(f, dead, Expire), j);
  }

  // ---------- Followers ----------

  ghost predicate IsPrefixTable<T, W>(f: (T, W) -> T, base: T, log: seq<W>, t: T) {
    exists k | 0 <= k <= |log| :: t == Fold(f, base, log[..k])
  }

  /** The commits that an instance can have in its table: a follower has none that is not shipped. */
  ghost function Known<T, W>(s: State<T, W>, i: Id): seq<W>
    requires i in s.nodes && s.shipped <= |s.log|
  {
    if s.nodes[i].leader then s.log else s.log[..s.shipped]
  }

  /** Every table, a follower's stale snapshot included, is the fold of a prefix of the log. */
  ghost predicate AllPrefixTables<T, W>(f: (T, W) -> T, base: T, s: State<T, W>) {
    s.shipped <= |s.log| && forall i <- s.nodes :: IsPrefixTable(f, base, Known(s, i), s.nodes[i].table)
  }

  lemma PrefixTableOfLonger<T, W>(f: (T, W) -> T, base: T, a: seq<W>, b: seq<W>, t: T)
    requires IsPrefixTable(f, base, a, t) && a <= b
    ensures IsPrefixTable(f, base, b, t)
  {
    var k :| 0 <= k <= |a| && t == Fold(f, base, a[..k]);
    assert a[..k] == b[..k];
  }

  lemma LossFreeLogGrows<T, W>(f: (T, W) -> T, base: T, s: State<T, W>, step: Step<W>)
    requires Inv(f, base, s) && Enabled(s, step) && !Forgets(s, step)
    ensures s.log <= Next(f, s, step).log
  {
    if step.Kill? || step.Demote? {
      assert s.nodes[step.i].leader ==> |s.log[s.shipped..]| == 0;
    }
  }

  lemma LossFreeKnownGrows<T, W>(f: (T, W) -> T, base: T, s: State<T, W>, step: Step<W>, i: Id)
    requires Inv(f, base, s) && Enabled(s, step) && !Forgets(s, step)
    requires i in s.nodes && i in Next(f, s, step).nodes
    ensures s.shipped <= Next(f, s, step).shipped <= |Next(f, s, step).log|
    ensures Known(s, i) <= Known(Next(f, s, step), i)
  {
    LossFreeLogGrows(f, base, s, step);
    NextKeepsInv(f, base, s, step);
    if step.Yield? || step.Demote? {
      assert s.nodes[step.i].leader ==> |s.log[s.shipped..]| == 0;
    }
  }

  lemma LossFreeKeepsPrefixTables<T, W>(f: (T, W) -> T, base: T, s: State<T, W>, step: Step<W>)
    requires Inv(f, base, s) && AllPrefixTables(f, base, s)
    requires Enabled(s, step) && !Forgets(s, step)
    ensures AllPrefixTables(f, base, Next(f, s, step)) && s.log <= Next(f, s, step).log
  {
    var s' := Next(f, s, step);
    NextKeepsInv(f, base, s, step);
    LossFreeLogGrows(f, base, s, step);
    forall i <- s'.nodes ensures IsPrefixTable(f, base, Known(s', i), s'.nodes[i].table) {
      if s'.nodes[i].leader {
        assert s'.log[..|s'.log|] == s'.log;
      } else if i in s.nodes && s'.nodes[i].table == s.nodes[i].table {
        LossFreeKnownGrows(f, base, s, step, i);
        PrefixTableOfLonger(f, base, Known(s, i), Known(s', i), s.nodes[i].table);
      } else {
        assert s'.log[..s'.shipped][..s'.shipped] == s'.log[..s'.shipped];
      }
    }
  }
}
