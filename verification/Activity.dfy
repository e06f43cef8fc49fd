/**
 How an idle writer hands its lease back (cmd/gitmote/main.go: leaseActivity, reconcileOnce
 and the request gate), for one instance, interleaved at the level of single loads, stores and
 lock operations.
 */
module Activity {
  import opened Traces
  import opened Wrappers

  /** Times are nanoseconds of one clock that never runs backwards. */
  const IDLE_YIELD_AFTER: int := 5_000_000_000

  /**
   Where a holder of the read lock is: before the gate, past it with the lease, done with its
   work, and for a request the two halves of noting its end.
   */
  datatype Phase = Entered | Serving | Done | Stamped(at: int) | Stored

  /** A tracked request, or a reconcile sweep, which does not count as activity. */
  datatype Actor = Actor(tracked: bool, phase: Phase)

  /** Where maybeYield is. In the last three it holds the write lock. */
  datatype Yielder = Resting | Loaded(last: int) | Willing | Holding | Reloaded(last: int) | Yielding

  /**
   ended and overtaken are history: the noted ends of requests (and the start of the process),
   and the actors past the gate that saw the lease lost from outside.
   */
  datatype State = State(
    now: int,
    last: int,
    leader: bool,
    actors: map<nat, Actor>,
    yielder: Yielder,
    ended: set<int>,
    overtaken: set<nat>)

  datatype Step =
    | Tick(to: int)
    | Enter(a: nat, tracked: bool)
    | Gate(a: nat, acquired: bool)
    | Finish(a: nat)
    | Stamp(a: nat)
    | Store(a: nat)
    | Leave(a: nat)
    | Lose
    | Load
    | CheckIdle
    | TryLock
    | Reload
    | Recheck
    | EndYield(ok: bool)

  predicate Locked(y: Yielder) {
    y.Holding? || y.Reloaded? || y.Yielding?
  }

  predicate Idle(now: int, last: int) {
    now - last >= IDLE_YIELD_AFTER
  }

  /** Five seconds, in nanoseconds. */
  lemma IdleForFiveSeconds(now: int, last: int)
    ensures IDLE_YIELD_AFTER == 5_000_000_000
    ensures Idle(now, last) <==> now - last >= 5_000_000_000
  {
  }

  predicate Enabled(s: State, step: Step) {
    match step
    case Tick(to) => to >= s.now
    case Enter(a, _) => a !in s.actors && !Locked(s.yielder)
    case Gate(a, _) => a in s.actors && s.actors[a].phase.Entered?
    case Finish(a) => a in s.actors && s.actors[a].phase.Serving?
    case Stamp(a) => a in s.actors && s.actors[a].tracked && s.actors[a].phase.Done?
    case Store(a) => a in s.actors && s.actors[a].phase.Stamped?
    case Leave(a) => a in s.actors && s.actors[a].phase == (if s.actors[a].tracked then Stored else Done)
    case Lose => s.leader
    case Load => s.yielder.Resting?
    case CheckIdle => s.yielder.Loaded?
    case TryLock => s.yielder.Willing?
    case Reload => s.yielder.Holding?
    case Recheck => s.yielder.Reloaded?
    case EndYield(ok) => s.yielder.Yielding? && (ok ==> s.leader)
  }

  function At(s: State, a: nat, phase: Phase): State
    requires a in s.actors
  {
    s.(actors := s.actors[a := s.actors[a].(phase := phase)])
  }

  function Next(s: State, step: Step): State
    requires Enabled(s, step)
  {
    match step
    case Tick(to) => s.(now := to)
    case Enter(a, tracked) => s.(actors := s.actors[a := Actor(tracked, Entered)])
    case Gate(a, acquired) =>
      if s.leader || acquired then At(s, a, Serving).(leader := true) else At(s, a, Done)
    case Finish(a) => At(s, a, Done)
    case Stamp(a) => At(s, a, Stamped(s.now))
    case Store(a) => At(s, a, Stored).(last := s.actors[a].phase.at, ended := s.ended + {s.actors[a].phase.at})
    case Leave(a) => s.(actors := s.actors - {a}, overtaken := s.overtaken - {a})
    case Lose =>
      s.(leader := false, overtaken := s.overtaken + set a <- s.actors | s.actors[a].phase.Serving?)
    case Load => s.(yielder := Loaded(s.last))
    case CheckIdle => s.(yielder := if Idle(s.now, s.yielder.last) then Willing else Resting)
    case TryLock => s.(yielder := if |s.actors| == 0 then Holding else Resting)
    case Reload => s.(yielder := Reloaded(s.last))
    case Recheck => s.(yielder := if Idle(s.now, s.yielder.last) then Yielding else Resting)
    case EndYield(ok) => s.(yielder := Resting, leader := s.leader && !ok)
  }

  function TryStep(s: State, step: Step): Option<State> {
    if Enabled(s, step) then Some(Next(s, step)) else None
  }

  function Init(now: int, leader: bool): State {
    State(now, now, leader, map[], Resting, {now}, {})
  }

  // ---------- Invariants ----------

  /** The lock excludes; the time stamps are past; a value read under the lock is current. */
  ghost predicate Inv(s: State) {
    && (Locked(s.yielder) ==> s.actors == map[])
    && s.last in s.ended
    && (forall e <- s.ended :: e <= s.now)
    && (forall a <- s.actors | s.actors[a].phase.Stamped? :: s.actors[a].phase.at <= s.now)
    && (s.yielder.Reloaded? ==> s.yielder.last == s.last)
    && (s.yielder.Yielding? ==> Idle(s.now, s.last))
    && (forall a <- s.actors | s.actors[a].phase.Serving? :: s.leader || a in s.overtaken)
  }

  /** No noted end is more than slack newer than the last one stored. */
  ghost predicate Lag(s: State, slack: int) {
    forall e <- s.ended :: e - s.last <= slack
  }

  lemma NextKeepsInv(s: State, step: Step)
    requires Inv(s) && Enabled(s, step)
    ensures Inv(Next(s, step))
  {
    var s' := Next(s, step);
    if step.TryLock? {
      assert |s.actors| == 0 ==> s.actors == map[];
    }
    if step.Lose? {
      forall a <- s'.actors | s'.actors[a].phase.Serving? ensures a in s'.overtaken {
      }
    }
  }

  /** How much older than the clock the stamp is that a step stores. */
  predicate Timely(s: State, step: Step, slack: int)
    requires Enabled(s, step)
  {
    step.Store? ==> s.now - s.actors[step.a].phase.at <= slack
  }

  /** A step does not store a stamp older than the last one. */
  predicate InOrder(s: State, step: Step)
    requires Enabled(s, step)
  {
    step.Store? ==> s.actors[step.a].phase.at >= s.last
  }

  lemma TimelyKeepsLag(s: State, step: Step, slack: int)
    requires Inv(s) && Enabled(s, step) && Lag(s, slack) && slack >= 0
    requires Timely(s, step, slack) || InOrder(s, step)
    ensures Lag(Next(s, step), slack)
  {
  }

  // ---------- Runs ----------

  /** Every stamp of the run is stored within slack, or at least not after a newer one. */
  ghost predicate StoresSoon(s: State, steps: seq<Step>, slack: int)
    decreases |steps|
  {
    steps == [] ||
    (Enabled(s, steps[0]) && (Timely(s, steps[0], slack) || InOrder(s, steps[0])) &&
     StoresSoon(Next(s, steps[0]), steps[1..], slack))
  }

  lemma {:induction false} RunKeepsInv(s: State, steps: seq<Step>, s': State)
    requires Inv(s) && Runs(TryStep, s, steps, s')
    ensures Inv(s')
    decreases |steps|
  {
    if steps != [] {
      NextKeepsInv(s, steps[0]);
      RunKeepsInv(Next(s, steps[0]), steps[1..], s');
    }
  }

  lemma {:induction false} RunKeepsLag(s: State, steps: seq<Step>, s': State, slack: int)
    requires Inv(s) && Runs(TryStep, s, steps, s') && StoresSoon(s, steps, slack)
    requires Lag(s, slack) && slack >= 0
    ensures Lag(s', slack)
    decreases |steps|
  {
    if steps != [] {
      NextKeepsInv(s, steps[0]);
      TimelyKeepsLag(s, steps[0], slack);
      RunKeepsLag(Next(s, steps[0]), steps[1..], s', slack);
    }
  }

  /**
   In every reachable state: while a yield runs, nothing holds the read lock, so no tracked
   request and no sweep is in flight; and who is past the gate keeps the lease to its end,
   unless the lease is lost from outside.
   */
  lemma YieldIsExclusive(now: int, leader: bool, steps: seq<Step>, s: State)
    requires Runs(TryStep, Init(now, leader), steps, s)
    ensures s.yielder.Yielding? ==> s.actors == map[]
    ensures forall a <- s.actors | s.actors[a].phase.Serving? :: s.leader || a in s.overtaken
  {
    RunKeepsInv(Init(now, leader), steps, s);
  }

  /**
   When a yield runs, every tracked request ended at least IDLE_YIELD_AFTER earlier, short of
   the time that a stamp waits between being taken and being stored. With every stamp stored
   in the order of taking, slack 0 serves and the bound is exact.
   */
  lemma YieldComesAfterIdle(now: int, leader: bool, steps: seq<Step>, s: State, slack: int)
    requires Runs(TryStep, Init(now, leader), steps, s) && slack >= 0 && StoresSoon(Init(now, leader), steps, slack)
    requires s.yielder.Yielding?
    ensures forall e <- s.ended :: s.now - e >= IDLE_YIELD_AFTER - slack
  {
    RunKeepsInv(Init(now, leader), steps, s);
    RunKeepsLag(Init(now, leader), steps, s, slack);
  }

  // ---------- The bound is attained ----------

  lemma LaterTo(s: State, mid: State, step: Step, s': State)
    requires Later(TryStep, s, mid) && Enabled(mid, step) && Next(mid, step) == s'
    ensures Later(TryStep, s, s')
  {
    LaterStep(TryStep, s, mid, step, s');
  }

  /** Two requests in flight, past the gate. */
  function TwoServing(): State {
    Init(0, true).(actors := map[0 := Actor(true, Serving), 1 := Actor(true, Serving)])
  }

  lemma TwoRequestsEnter()
    ensures Later(TryStep, Init(0, true), TwoServing())
  {
    var a := Actor(true, Entered);
    var s := Init(0, true);
    LaterSame(TryStep, s);
    var s1 := s.(actors := map[0 := a]);
    LaterTo(s, s, Enter(0, true), s1);
    var s2 := s.(actors := map[0 := a.(phase := Serving)]);
    LaterTo(s, s1, Gate(0, false), s2);
    var s3 := s.(actors := map[0 := a.(phase := Serving), 1 := a]);
    LaterTo(s, s2, Enter(1, true), s3);
    LaterTo(s, s3, Gate(1, false), TwoServing());
  }

  lemma TwoRequestsEnd()
    ensures Later(
              TryStep, TwoServing(),
              Init(0, true).(actors := map[0 := Actor(true, Stamped(0)), 1 := Actor(true, Done)]))
  {
    var a := Actor(true, Serving);
    var s := TwoServing();
    LaterSame(TryStep, s);
    var s1 := s.(actors := map[0 := a, 1 := a.(phase := Done)]);
    LaterTo(s, s, Finish(1), s1);
    var s2 := s.(actors := map[0 := a.(phase := Done), 1 := a.(phase := Done)]);
    LaterTo(s, s1, Finish(0), s2);
    LaterTo(s, s2, Stamp(0), s.(actors := map[0 := a.(phase := Stamped(0)), 1 := a.(phase := Done)]));
  }

  /** The newer stamp is stored first. */
  function NewerStored(delta: int): State {
    var s := Init(0, true).(now := delta, last := delta, ended := {0, delta});
    s.(actors := map[0 := Actor(true, Stamped(0)), 1 := Actor(true, Stored)])
  }

  lemma NewerStampStored(delta: int)
    requires delta > 0
    ensures Later(
              TryStep, Init(0, true).(actors := map[0 := Actor(true, Stamped(0)), 1 := Actor(true, Done)]),
              NewerStored(delta))
  {
    var older := Actor(true, Stamped(0));
    var s := Init(0, true).(actors := map[0 := older, 1 := Actor(true, Done)]);
    LaterSame(TryStep, s);
    var s1 := s.(now := delta);
    LaterTo(s, s, Tick(delta), s1);
    var s2 := s1.(actors := map[0 := older, 1 := Actor(true, Stamped(delta))]);
    LaterTo(s, s1, Stamp(1), s2);
    LaterTo(s, s2, Store(1), NewerStored(delta));
  }

  lemma OlderStampStoredLast(delta: int)
    requires delta > 0
    ensures Later(TryStep, NewerStored(delta), Init(0, true).(now := delta, ended := {0, delta}))
  {
    var s := NewerStored(delta);
    LaterSame(TryStep, s);
    var s1 := s.(actors := map[0 := Actor(true, Stamped(0))]);
    LaterTo(s, s, Leave(1), s1);
    var s2 := s1.(last := 0, actors := map[0 := Actor(true, Stored)]);
    assert s1.ended + {0} == s1.ended;
    LaterTo(s, s1, Store(0), s2);
    LaterTo(s, s2, Leave(0), s2.(actors := map[]));
  }

  /** The steps of a stretch in which no request or sweep comes in. */
  function NoEntry(s: State, step: Step): Option<State> {
    if step.Enter? then None else TryStep(s, step)
  }

  lemma NoEntryTo(s: State, mid: State, step: Step, s': State)
    requires Later(NoEntry, s, mid) && Enabled(mid, step) && !step.Enter? && Next(mid, step) == s'
    ensures Later(NoEntry, s, s')
  {
    LaterStep(NoEntry, s, mid, step, s');
  }

  lemma {:induction false} NoEntryRuns(s: State, steps: seq<Step>, s': State)
    requires Runs(NoEntry, s, steps, s')
    ensures Runs(TryStep, s, steps, s')
    decreases |steps|
  {
    if steps != [] {
      NoEntryRuns(Next(s, steps[0]), steps[1..], s');
    }
  }

  function IdleAt(s: State): int {
    if s.now > s.last + IDLE_YIELD_AFTER then s.now else s.last + IDLE_YIELD_AFTER
  }

  lemma IdleLoads(s: State)
    requires s.yielder.Resting? && s.actors == map[]
    ensures Later(NoEntry, s, s.(now := IdleAt(s), yielder := Willing))
  {
    LaterSame(NoEntry, s);
    var s1 := s.(now := IdleAt(s));
    NoEntryTo(s, s, Tick(IdleAt(s)), s1);
    NoEntryTo(s, s1, Load, s1.(yielder := Loaded(s.last)));
    NoEntryTo(s, s1.(yielder := Loaded(s.last)), CheckIdle, s1.(yielder := Willing));
  }

  /** An idle instance with nothing in flight can yield as soon as the idle check allows it. */
  lemma IdleYields(s: State)
    requires s.yielder.Resting? && s.actors == map[]
    ensures Later(NoEntry, s, s.(now := IdleAt(s), yielder := Yielding))
  {
    var s1 := s.(now := IdleAt(s));
    IdleLoads(s);
    NoEntryTo(s, s1.(yielder := Willing), TryLock, s1.(yielder := Holding));
    NoEntryTo(s, s1.(yielder := Holding), Reload, s1.(yielder := Reloaded(s.last)));
    NoEntryTo(s, s1.(yielder := Reloaded(s.last)), Recheck, s1.(yielder := Yielding));
  }

  lemma {:induction false} NothingEnters(s: State, steps: seq<Step>, s': State)
    requires Inv(s) && s.actors == map[] && Runs(NoEntry, s, steps, s')
    ensures Inv(s') && s'.actors == map[] && s'.ended == s.ended && s'.last == s.last && s'.now >= s.now
    decreases |steps|
  {
    if steps != [] {
      NextKeepsInv(s, steps[0]);
      NothingEnters(Next(s, steps[0]), steps[1..], s');
    }
  }

  /** A yield is running although a request has ended within IDLE_YIELD_AFTER. */
  ghost predicate YieldsEarly(s: State) {
    s.yielder.Yielding? && exists e <- s.ended :: s.now - e < IDLE_YIELD_AFTER
  }

  /**
   When nothing is in flight, and until something comes in: a yield can come too early exactly
   when a stamp from within the idle time was overwritten by an older one. When the idle time
   since the last stored stamp is not over yet, any overwritten stamp will do.
   */
  lemma EarlyYieldIff(s: State)
    requires Inv(s) && s.yielder.Resting? && s.actors == map[]
    ensures (exists s' :: Later(NoEntry, s, s') && YieldsEarly(s')) <==>
            (exists e <- s.ended :: e > s.last && s.now - e < IDLE_YIELD_AFTER)
    ensures s.now <= s.last + IDLE_YIELD_AFTER ==>
              ((exists s' :: Later(NoEntry, s, s') && YieldsEarly(s')) <==> !Lag(s, 0))
  {
    if e :| e in s.ended && e > s.last && s.now - e < IDLE_YIELD_AFTER {
      IdleYields(s);
      assert YieldsEarly(s.(now := IdleAt(s), yielder := Yielding));
    }
    if s' :| Later(NoEntry, s, s') && YieldsEarly(s') {
      var steps: seq<Step> :| Runs(NoEntry, s, steps, s');
      NothingEnters(s, steps, s');
      var e :| e in s'.ended && s'.now - e < IDLE_YIELD_AFTER;
      assert Idle(s'.now, s'.last);
    }
  }

  /**
   The bound of YieldComesAfterIdle is attained: for every delta up to the idle time, some
   run yields only IDLE_YIELD_AFTER - delta after a request has ended. So the exact quiet time
   is not promised when a store is delayed.
   */
  lemma LateStoreYieldsEarly(delta: int)
    requires 0 < delta <= IDLE_YIELD_AFTER
    ensures exists s ::
      && Later(TryStep, Init(0, true), s) && s.yielder.Yielding?
      && delta in s.ended && s.now - delta == IDLE_YIELD_AFTER - delta
  {
    var ending := Init(0, true).(actors := map[0 := Actor(true, Stamped(0)), 1 := Actor(true, Done)]);
    var quiet := Init(0, true).(now := delta, ended := {0, delta});
    TwoRequestsEnter();
    TwoRequestsEnd();
    LaterOn(TryStep, Init(0, true), TwoServing(), ending);
    NewerStampStored(delta);
    LaterOn(TryStep, Init(0, true), ending, NewerStored(delta));
    OlderStampStoredLast(delta);
    LaterOn(TryStep, Init(0, true), NewerStored(delta), quiet);
    IdleYields(quiet);
    var steps: seq<Step> :| Runs(NoEntry, quiet, steps, quiet.(now := IDLE_YIELD_AFTER, yielder := Yielding));
    NoEntryRuns(quiet, steps, quiet.(now := IDLE_YIELD_AFTER, yielder := Yielding));
    LaterOn(TryStep, Init(0, true), quiet, quiet.(now := IDLE_YIELD_AFTER, yielder := Yielding));
  }

  // ---------- The code ----------

  predicate OfYielder(step: Step) {
    step.Load? || step.CheckIdle? || step.TryLock? || step.Reload? || step.Recheck? || step.EndYield?
  }

  /** Where the yielder is after its step. */
  predicate Reached(step: Step, y: Yielder) {
    match step
    case Load => y.Loaded?
    case CheckIdle => y.Resting? || y.Willing?
    case TryLock => y.Resting? || y.Holding?
    case Reload => y.Reloaded?
    case Recheck => y.Resting? || y.Yielding?
    case _ => true
  }

  predicate OfActor(step: Step, a: nat) {
    (step.Enter? || step.Gate? || step.Finish? || step.Stamp? || step.Store? || step.Leave?) && step.a == a
  }

  /** a is where it was. */
  predicate SameActor(s: State, s': State, a: nat) {
    (a in s.actors <==> a in s'.actors) && (a in s.actors ==> s'.actors[a] == s.actors[a])
  }

  /** What goes on beside actor a, as long as no yield has the lock. */
  function Beside(a: nat): (State, Step) -> Option<State> {
    (s: State, step: Step) => if Locked(s.yielder) || OfActor(step, a) then None else TryStep(s, step)
  }

  lemma BesideStep(a: nat, first: State, s: State, step: Step)
    requires Later(Beside(a), first, s) && Inv(s) && a in s.actors
    requires Enabled(s, step) && !OfActor(step, a)
    ensures Later(Beside(a), first, Next(s, step))
  {
    assert s.actors != map[];
    assert Beside(a)(s, step) == Some(Next(s, step));
    LaterStep(Beside(a), first, s, step, Next(s, step));
  }

  /** From its gate to its end, actor a is in, no yield runs, and the lease is kept unless it is lost from outside. */
  ghost predicate HeldThrough(a: nat, acquired: bool, atGate: State, atEnd: State) {
    && Enabled(atGate, Gate(a, acquired))
    && Later(Beside(a), Next(atGate, Gate(a, acquired)), atEnd)
    && a in atEnd.actors && atEnd.actors[a].phase.Serving? && !Locked(atEnd.yielder)
    && (atEnd.leader || a in atEnd.overtaken)
  }

  lemma OtherSteps(s: State, step: Step, a: nat)
    requires Inv(s) && Enabled(s, step)
    ensures !OfYielder(step) ==> Next(s, step).yielder == s.yielder
    ensures Locked(s.yielder) ==> Next(s, step).last == s.last
    ensures !OfActor(step, a) ==> SameActor(s, Next(s, step), a)
    ensures Next(s, step).now >= s.now && s.ended <= Next(s, step).ended
  {
  }

  /** The struct, the clock and the lease of one running instance. */
  class Instance {
    var s: State
    /** Whether nothing else happens while a method runs. */
    const alone: bool

    ghost predicate Valid()
      reads this
    {
      Inv(s)
    }

    constructor (now: int, leader: bool, alone: bool)
      ensures Valid() && s == Init(now, leader) && this.alone == alone
    {
      this.s, this.alone := Init(now, leader), alone;
    }

    method Take(step: Step)
      requires Valid() && Enabled(s, step)
      modifies this
      ensures Valid() && s == Next(old(s), step) && Later(TryStep, old(s), s)
    {
      NextKeepsInv(s, step);
      LaterSame(TryStep, s);
      LaterStep(TryStep, s, s, step, Next(s, step));
      s := Next(s, step);
    }

    /** Requests, sweeps, the clock and the lease go on; then the yielder takes its step. */
    method YielderStep(step: Step)
      requires Valid() && (step.Load? || step.CheckIdle? || step.TryLock? || step.Reload? || step.Recheck?)
      requires Enabled(s, step)
      modifies this
      ensures Valid() && Later(TryStep, old(s), s) && Reached(step, s.yielder)
      ensures alone ==> s == Next(old(s), step)
    {
      OthersOfYielder();
      ghost var before := s;
      Take(step);
      LaterOn(TryStep, old(s), before, s);
    }

    method OthersOfYielder()
      requires Valid()
      modifies this
      ensures Valid() && Later(TryStep, old(s), s) && s.yielder == old(s).yielder
      ensures alone ==> s == old(s)
    {
      var count: nat :| 0 <= count;
      LaterSame(TryStep, s);
      if alone {
        return;
      }
      for _ := 0 to count
        invariant Valid() && Later(TryStep, old(s), s) && s.yielder == old(s).yielder
      {
        var step: Step := *;
        if Enabled(s, step) && !OfYielder(step) {
          ghost var before := s;
          OtherSteps(s, step, 0);
          Take(step);
          LaterOn(TryStep, old(s), before, s);
        }
      }
    }

    /**
     One check of the yielder, with anything else going on between its steps. It yields only
     in a state, at, in which nothing is in flight and the last noted end is IDLE_YIELD_AFTER
     ago. A yield that is tried there succeeds exactly when the lease is still held and the call
     does not fail; one that fails leaves the lease as it is. With nothing else going on it
     yields whenever it may, and otherwise changes nothing.
     */
    method MaybeYield(yieldFails: bool) returns (yielded: bool, ghost tried: bool, ghost at: State)
      requires Valid() && s.yielder.Resting?
      modifies this
      ensures Valid() && s.yielder.Resting? && Later(TryStep, old(s), s)
      ensures yielded ==> tried && s == at.(leader := false, yielder := Resting)
      ensures tried ==>
        && Later(TryStep, old(s), at) && at.actors == map[] && Idle(at.now, at.last)
        && (yielded <==> at.leader && !yieldFails)
        && (!yielded ==> s == at.(yielder := Resting))
      ensures alone ==>
        && (yielded <==> old(s).leader && |old(s).actors| == 0 && Idle(old(s).now, old(s).last) && !yieldFails)
        && s == old(s).(leader := old(s).leader && !yielded)
    {
      OthersOfYielder();
      if !s.leader {
        return false, false, s;
      }
      ghost var w := s;
      YielderStep(Load);
      LaterOn(TryStep, old(s), w, s);
      w := s;
      YielderStep(CheckIdle);
      LaterOn(TryStep, old(s), w, s);
      if s.yielder.Resting? {
        return false, false, s;
      }
      w := s;
      YielderStep(TryLock);
      LaterOn(TryStep, old(s), w, s);
      if s.yielder.Resting? {
        return false, false, s;
      }
      w := s;
      YielderStep(Reload);
      LaterOn(TryStep, old(s), w, s);
      w := s;
      YielderStep(Recheck);
      LaterOn(TryStep, old(s), w, s);
      if s.yielder.Resting? {
        return false, false, s;
      }
      w := s;
      OthersOfYielder();
      LaterOn(TryStep, old(s), w, s);
      tried, at := true, s;
      yielded := s.leader && !yieldFails;
      Take(EndYield(yielded));
      LaterOn(TryStep, old(s), at, s);
    }

    method OthersOfActor(a: nat)
      requires Valid()
      modifies this
      ensures Valid() && Later(TryStep, old(s), s) && SameActor(old(s), s, a)
      ensures s.now >= old(s).now && old(s).ended <= s.ended
      ensures a in old(s).actors ==> Later(Beside(a), old(s), s)
      ensures alone ==> s == old(s)
    {
      var count: nat :| 0 <= count;
      LaterSame(TryStep, s);
      LaterSame(Beside(a), s);
      if alone {
        return;
      }
      for _ := 0 to count
        invariant Valid() && Later(TryStep, old(s), s) && SameActor(old(s), s, a)
        invariant s.now >= old(s).now && old(s).ended <= s.ended
        invariant a in old(s).actors ==> Later(Beside(a), old(s), s)
      {
        var step: Step := *;
        if Enabled(s, step) && !OfActor(step, a) {
          ghost var before := s;
          OtherSteps(s, step, a);
          Take(step);
          LaterOn(TryStep, old(s), before, s);
          if a in old(s).actors {
            BesideStep(a, old(s), before, step);
          }
        }
      }
    }

    /** Everything but actor a goes on, then a takes its step. */
    method ActorStep(a: nat, step: Step) returns (ghost before: State)
      requires Valid() && OfActor(step, a) && !step.Enter? && Enabled(s, step)
      modifies this
      ensures Valid() && Inv(before) && Later(TryStep, old(s), before) && Later(TryStep, old(s), s)
      ensures SameActor(old(s), before, a) && Enabled(before, step) && s == Next(before, step)
      ensures Later(Beside(a), old(s), before)
      ensures s.now >= old(s).now && old(s).ended <= s.ended
      ensures alone ==> before == old(s)
    {
      OthersOfActor(a);
      before := s;
      OtherSteps(s, step, a);
      Take(step);
      LaterOn(TryStep, old(s), before, s);
    }

    /** From the read lock to the gate's answer. */
    method PassGate(a: nat, tracked: bool, acquired: bool) returns (served: bool, ghost atGate: State)
      requires Valid() && a !in s.actors && !Locked(s.yielder)
      modifies this
      ensures Valid() && Later(TryStep, old(s), atGate) && Later(TryStep, old(s), s) && s.now >= old(s).now
      ensures Enabled(atGate, Gate(a, acquired)) && s == Next(atGate, Gate(a, acquired))
      ensures a in s.actors && s.actors[a] == Actor(tracked, if served then Serving else Done)
      ensures served <==> atGate.leader || acquired
      ensures alone ==> atGate == old(s).(actors := old(s).actors[a := Actor(tracked, Entered)])
    {
      Take(Enter(a, tracked));
      ghost var w := s;
      atGate := ActorStep(a, Gate(a, acquired));
      LaterOn(TryStep, old(s), w, atGate);
      LaterOn(TryStep, old(s), w, s);
      served := s.actors[a].phase.Serving?;
    }

    /**
     From the read lock to the gate's answer and the end of the work. Who is let past the
     gate has the lease to the end of its work, unless it is lost from outside.
     */
    method Gated(a: nat, tracked: bool, acquired: bool)
      returns (served: bool, ghost atGate: State, ghost atEnd: State)
      requires Valid() && a !in s.actors && !Locked(s.yielder)
      modifies this
      ensures Valid() && Later(TryStep, old(s), s) && s.now >= old(s).now
      ensures a in s.actors && s.actors[a] == Actor(tracked, Done)
      ensures Later(TryStep, old(s), atGate) && (served <==> atGate.leader || acquired)
      ensures served ==> Later(TryStep, old(s), atEnd) && HeldThrough(a, acquired, atGate, atEnd)
      ensures alone ==> atGate.leader == old(s).leader
      ensures alone ==>
        s == old(s).(leader := old(s).leader || acquired, actors := old(s).actors[a := Actor(tracked, Done)])
    {
      served, atGate := PassGate(a, tracked, acquired);
      atEnd := s;
      if served {
        ghost var w := s;
        atEnd := ActorStep(a, Finish(a));
        assert a in atEnd.actors && atEnd.actors[a].phase.Serving?;
        LaterOn(TryStep, old(s), w, atEnd);
        LaterOn(TryStep, old(s), w, s);
      }
    }

    /** The deferred half of track: the time is taken, then stored, then the lock is given back. */
    method NoteEnd(a: nat) returns (end: int)
      requires Valid() && a in s.actors && s.actors[a] == Actor(true, Done)
      modifies this
      ensures Valid() && Later(TryStep, old(s), s)
      ensures end in s.ended && old(s).now <= end <= s.now
      ensures alone ==> s.last == end == old(s).now && s.ended == old(s).ended + {end}
      ensures alone ==> s.actors == old(s).actors - {a} && s.leader == old(s).leader
    {
      ghost var _ := ActorStep(a, Stamp(a));
      end := s.actors[a].phase.at;
      ghost var w := s;
      ghost var _ := ActorStep(a, Store(a));
      LaterOn(TryStep, old(s), w, s);
      w := s;
      ghost var _ := ActorStep(a, Leave(a));
      LaterOn(TryStep, old(s), w, s);
    }

    /**
     A tracked request: it is served exactly when it gets past the gate, with no yield until it
     is done, and when it leaves, the time of its end has been noted.
     */
    method Track(a: nat, acquired: bool)
      returns (served: bool, end: int, ghost atGate: State, ghost atEnd: State)
      requires Valid() && a !in s.actors && !Locked(s.yielder)
      modifies this
      ensures Valid() && Later(TryStep, old(s), s)
      ensures end in s.ended && old(s).now <= end <= s.now
      ensures Later(TryStep, old(s), atGate) && (served <==> atGate.leader || acquired)
      ensures served ==> Later(TryStep, old(s), atEnd) && HeldThrough(a, acquired, atGate, atEnd)
      ensures alone ==> s.last == end == old(s).now && s.ended == old(s).ended + {end}
      ensures alone ==> s.actors == old(s).actors && s.leader == (old(s).leader || acquired) == served
    {
      served, atGate, atEnd := Gated(a, true, acquired);
      ghost var w := s;
      end := NoteEnd(a);
      LaterOn(TryStep, old(s), w, s);
    }

    /**
     A sweep holds the read lock throughout, so no yield overlaps it; it is skipped while
     another instance writes, and does not count as activity.
     */
    method ReconcileOnce(a: nat, acquired: bool) returns (swept: bool, ghost atGate: State, ghost atEnd: State)
      requires Valid() && a !in s.actors && !Locked(s.yielder)
      modifies this
      ensures Valid() && Later(TryStep, old(s), s)
      ensures Later(TryStep, old(s), atGate) && (swept <==> atGate.leader || acquired)
      ensures swept ==> Later(TryStep, old(s), atEnd) && HeldThrough(a, acquired, atGate, atEnd)
      ensures alone ==> s.last == old(s).last && s.ended == old(s).ended
      ensures alone ==> s.actors == old(s).actors && s.leader == (old(s).leader || acquired) == swept
    {
      swept, atGate, atEnd := Gated(a, false, acquired);
      ghost var w := s;
      ghost var _ := ActorStep(a, Leave(a));
      LaterOn(TryStep, old(s), w, s);
    }
  }
}
