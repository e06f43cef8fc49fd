/**
 Get-or-create of a named server secret (internal/meta/secrets.go) by instances that share one
 leased database.

 Every call into the database, and the moments between two calls, may see the other instances
 and the other requests of this one do anything that Lease allows, short of losing commits.
 */
module ServerSecrets {
  import opened Wrappers
  import opened Lease
  import opened Traces

  type Secrets = map<string, string>

  /** A committed write: the guarded INSERT of this file, or a write to another table. */
  datatype Write = Insert(name: string, value: string) | Elsewhere

  /** INSERT ... ON CONFLICT(name) DO NOTHING. */
  function Apply(t: Secrets, w: Write): Secrets {
    match w
    case Insert(name, value) => if name in t then t else t[name := value]
    case Elsewhere => t
  }

  type World = State<Secrets, Write>

  datatype SecretError = NoRows | DbError | ReadOnly | GenError | TimedOut

  ghost predicate Sound(base: Secrets, s: World) {
    Inv(Apply, base, s) && AllPrefixTables(Apply, base, s)
  }

  /** A step of any instance that loses no commit. */
  function Calm(s: World, step: Step<Write>): Option<World> {
    if Enabled(s, step) && !Forgets(s, step) then Some(Next(Apply, s, step)) else None
  }

  /** The committed value of the secret, in the log that all instances share. */
  ghost predicate Settled(base: Secrets, s: World, name: string, value: string) {
    var all := Fold(Apply, base, s.log);
    name in all && all[name] == value
  }

  lemma CalmStep(base: Secrets, s: World, step: Step<Write>)
    requires Sound(base, s) && Calm(s, step).Some?
    ensures Later(Calm, s, Next(Apply, s, step)) && Sound(base, Next(Apply, s, step))
  {
    LaterSame(Calm, s);
    LaterStep(Calm, s, s, step, Next(Apply, s, step));
    NextKeepsInv(Apply, base, s, step);
    LossFreeKeepsPrefixTables(Apply, base, s, step);
  }

  /** What an insert does: the first one of a name decides, and other names are untouched. */
  lemma FirstInsertWins(base: Secrets, log: seq<Write>, name: string, value: string)
    ensures
      var before, after := Fold(Apply, base, log), Fold(Apply, base, log + [Insert(name, value)]);
      && after.Keys == before.Keys + {name}
      && after[name] == (if name in before then before[name] else value)
      && forall other <- before :: after[other] == before[other]
    ensures Fold(Apply, base, []) == base && Fold(Apply, base, log + [Elsewhere]) == Fold(Apply, base, log)
  {
    FoldOne(Apply, base, log, Insert(name, value));
    FoldOne(Apply, base, log, Elsewhere);
  }

  /** A secret once written keeps its value in every longer log. */
  lemma {:induction false} WriteOnce(base: Secrets, a: seq<Write>, b: seq<Write>, name: string)
    requires a <= b && name in Fold(Apply, base, a)
    ensures name in Fold(Apply, base, b)
    ensures Fold(Apply, base, b)[name] == Fold(Apply, base, a)[name]
    decreases |b|
  {
    if |a| < |b| {
      WriteOnce(base, a, b[..|b| - 1], name);
    } else {
      assert a == b;
    }
  }

  /** Any table of any instance, a stale snapshot included, shows only the settled value. */
  lemma ReadIsSettled(base: Secrets, s: World, i: Id, name: string)
    requires Sound(base, s) && i in s.nodes && name in s.nodes[i].table
    ensures Settled(base, s, name, s.nodes[i].table[name])
  {
    var known := Known(s, i);
    var k :| 0 <= k <= |known| && s.nodes[i].table == Fold(Apply, base, known[..k]);
    WriteOnce(base, known[..k], s.log, name);
  }

  lemma ReplicaHasFollowersNames(base: Secrets, s: World, i: Id, name: string)
    requires Sound(base, s) && i in s.nodes && !s.nodes[i].leader && name in s.nodes[i].table
    ensures name in s.replica
  {
    var known := Known(s, i);
    var k :| 0 <= k <= |known| && s.nodes[i].table == Fold(Apply, base, known[..k]);
    WriteOnce(base, known[..k], known, name);
  }

  /** What an instance can read it can go on reading, through yields, promotions and refreshes. */
  lemma TableKeepsName(base: Secrets, s: World, step: Step<Write>, i: Id, name: string)
    requires Sound(base, s) && Enabled(s, step) && !Forgets(s, step) && !Ends(step, i)
    requires i in s.nodes && name in s.nodes[i].table
    ensures i in Next(Apply, s, step).nodes && name in Next(Apply, s, step).nodes[i].table
  {
    if (step.Promote? || step.Refresh?) && step.i == i {
      ReplicaHasFollowersNames(base, s, i, name);
    }
  }

  lemma {:induction false} LaterKeepsSettledBy(
    base: Secrets, s: World, steps: seq<Step<Write>>, s': World, name: string, value: string)
    requires Sound(base, s) && Traces.Runs(Calm, s, steps, s')
    requires Settled(base, s, name, value)
    ensures Settled(base, s', name, value)
    decreases |steps|
  {
    if steps != [] {
      var mid := Next(Apply, s, steps[0]);
      LossFreeKeepsPrefixTables(Apply, base, s, steps[0]);
      NextKeepsInv(Apply, base, s, steps[0]);
      WriteOnce(base, s.log, mid.log, name);
      LaterKeepsSettledBy(base, mid, steps[1..], s', name, value);
    }
  }

  /**
   Two calls that return a value for one name return the same value: on any two instances, at
   any two points of a run that loses no commit, whatever else happens in between.
   */
  lemma CallersAgree(base: Secrets, s: World, s': World, name: string, value: string, value': string)
    requires Sound(base, s) && Later(Calm, s, s')
    requires Settled(base, s, name, value)   // what the earlier call returned, GetOrCreateSecret
    requires Settled(base, s', name, value') // what the later call returned
    ensures value == value'
  {
    var steps: seq<Step<Write>> :| Traces.Runs(Calm, s, steps, s');
    LaterKeepsSettledBy(base, s, steps, s', name, value);
  }

  predicate StepsTo(s: World, step: Step<Write>, s': World) {
    Enabled(s, step) && Next(Apply, s, step) == s'
  }

  lemma {:induction false} RunsAlong(ss: seq<World>, steps: seq<Step<Write>>)
    requires |ss| == |steps| + 1
    requires forall i | 0 <= i < |steps| :: StepsTo(ss[i], steps[i], ss[i + 1])
    ensures Lease.Runs(Apply, ss[0], steps, ss[|steps|])
    decreases |steps|
  {
    if steps != [] {
      assert StepsTo(ss[0], steps[0], ss[0 + 1]);
      forall i | 0 <= i < |steps[1..]| ensures StepsTo(ss[1..][i], steps[1..][i], ss[1..][i + 1]) {
        assert StepsTo(ss[i + 1], steps[i + 1], ss[i + 1 + 1]);
      }
      RunsAlong(ss[1..], steps[1..]);
    }
  }

  /** The writer finds no secret and inserts one, which is then its answer. */
  ghost predicate Creates(base: Secrets, s: World, i: Id, name: string, value: string, s': World) {
    && i in s.nodes && s.nodes[i].leader && name !in s.nodes[i].table
    && StepsTo(s, Commit(i, Insert(name, value)), s')
    && i in s'.nodes && name in s'.nodes[i].table && s'.nodes[i].table[name] == value
    && Settled(base, s', name, value)
  }

  /** Instances 0 and 1 have started; 0 is the writer. */
  const TWO: World := State(map[0 := Node(true, map[], []), 1 := Node(false, map[], [])], Some(0), map[], [], 0, [])

  function Only(leader: bool, lock: Option<Id>, w: Write): World {
    State(map[1 := Node(leader, map[], [])], lock, map[], [], 0, [w])
  }

  lemma TwoStart()
    ensures Lease.Runs(Apply, Init(map[]), [Boot(0), Boot(1), Promote(0)], TWO)
  {
    var s0: World := Init(map[]);
    var s1: World := s0.(nodes := map[0 := Node(false, map[], [])]);
    var s2: World := s0.(nodes := map[0 := Node(false, map[], []), 1 := Node(false, map[], [])]);
    assert StepsTo(s0, Boot(0), s1) && StepsTo(s1, Boot(1), s2) && StepsTo(s2, Promote(0), TWO);
    RunsAlong([s0, s1, s2, TWO], [Boot(0), Boot(1), Promote(0)]);
  }

  lemma OneIsLost(s: World, w: Write)
    requires StepsTo(TWO, Commit(0, w), s)
    ensures Lease.Runs(Apply, s, [Kill(0), Expire, Promote(1)], Only(true, Some(1), w))
  {
    var a, b, c := Only(false, Some(0), w), Only(false, None, w), Only(true, Some(1), w);
    assert s.nodes - {0} == a.nodes;
    assert s.log[..0] == [];
    assert StepsTo(s, Kill(0), a) && StepsTo(a, Expire, b) && StepsTo(b, Promote(1), c);
    RunsAlong([s, a, b, c], [Kill(0), Expire, Promote(1)]);
  }

  lemma OneInsert(name: string, value: string)
    ensures Fold(Apply, map[], [Insert(name, value)]) == map[name := value]
  {
    var w := Insert(name, value);
    assert [w][..0] == [];
    assert Fold(Apply, map[], []) == map[];
    assert Fold(Apply, map[], [w]) == Apply(map[], w);
  }

  lemma EmptyCreates(s: World, i: Id, name: string, value: string)
    requires i in s.nodes && s.nodes[i] == Node(true, map[], []) && s.log == []
    ensures Creates(map[], s, i, name, value, Next(Apply, s, Commit(i, Insert(name, value))))
  {
    var s' := Next(Apply, s, Commit(i, Insert(name, value)));
    OneInsert(name, value);
    assert s'.log == [Insert(name, value)];
    assert s'.nodes[i].table == map[name := value];
  }

  /**
   The promise about lost commits is needed: when the creator is killed before its commit is
   shipped, the next writer finds no secret and creates it anew. Both answers are settled when
   they are given, in one run from the start, and differ.
   */
  lemma KillSplitsCallers(name: string, value: string, value': string)
    ensures exists a: seq<Step<Write>>, s1: World, s2: World, b: seq<Step<Write>>, s3: World, s4: World ::
      && Lease.Runs(Apply, Init(map[]), a, s1) && Creates(map[], s1, 0, name, value, s2)
      && Lease.Runs(Apply, s2, b, s3) && Creates(map[], s3, 1, name, value', s4)
  {
    var w, w' := Insert(name, value), Insert(name, value');
    var s2 := Next(Apply, TWO, Commit(0, w));
    var s3 := Only(true, Some(1), w);
    TwoStart();
    EmptyCreates(TWO, 0, name, value);
    OneIsLost(s2, w);
    EmptyCreates(s3, 1, name, value');
    assert Creates(map[], TWO, 0, name, value, s2);
    assert Creates(map[], s3, 1, name, value', Next(Apply, s3, Commit(1, w')));
  }

  predicate Ends(step: Step<Write>, i: Id) {
    (step.Kill? || step.Close?) && step.i == i
  }

  function StepIfEnabled(s: World, step: Step<Write>): World {
    if Enabled(s, step) then Next(Apply, s, step) else s
  }

  lemma RefreshShows(s: World, i: Id)
    requires i in s.nodes
    ensures
      var s' := StepIfEnabled(s, Refresh(i));
      && s'.log == s.log && s'.lock == s.lock && i in s'.nodes
      && (!s.nodes[i].leader ==> s'.nodes[i] == Node(false, s.replica, []))
  {
  }

  lemma PromoteTakes(s: World, i: Id)
    requires i in s.nodes
    ensures
      var s' := StepIfEnabled(s, Promote(i));
      && s'.log == s.log && i in s'.nodes
      && (s'.nodes[i].leader <==> s.nodes[i].leader || s.lock.None?)
  {
  }

  /**
   An instance that can get at the secret: it can read or fetch it, or it is the writer, or it
   can become the writer because nobody is.
   */
  predicate CanServe(s: World, i: Id, name: string)
    requires i in s.nodes
  {
    name in s.nodes[i].table || s.nodes[i].leader || name in s.replica || s.lock.None?
  }

  /** A value returned later is the one that was settled before, if one was. */
  lemma AgreesWithBefore(base: Secrets, s: World, s': World, name: string, r: Result<string, SecretError>)
    requires Sound(base, s) && Later(Calm, s, s') && (r.Success? ==> Settled(base, s', name, r.value))
    ensures r.Success? ==> forall v | Settled(base, s, name, v) :: r.value == v
  {
    forall v | r.Success? && Settled(base, s, name, v) ensures r.value == v {
      CallersAgree(base, s, s', name, v, r.value);
    }
  }

  lemma StepMoves(base: Secrets, s: World, step: Step<Write>, i: Id)
    requires Sound(base, s) && Enabled(s, step) && !Forgets(s, step)
    requires i in s.nodes && !Ends(step, i)
    ensures Sound(base, Next(Apply, s, step)) && Later(Calm, s, Next(Apply, s, step))
    ensures i in Next(Apply, s, step).nodes
    ensures s.nodes[i].table.Keys <= Next(Apply, s, step).nodes[i].table.Keys
  {
    CalmStep(base, s, step);
    assert i in Next(Apply, s, step).nodes;
    forall name <- s.nodes[i].table ensures name in Next(Apply, s, step).nodes[i].table {
      TableKeepsName(base, s, step, i, name);
    }
  }

  // ---------- The code ----------

  /** One instance's handle on the database; world is what all instances share. */
  class Metadata {
    const id: Id
    ghost const base: Secrets
    var world: World
    /** How many database calls of this handle have failed so far. */
    var faults: nat
    /** Whether nothing else moves while a method runs, and whether the database works. */
    const alone: bool
    const reliable: bool

    ghost predicate Valid()
      reads this
    {
      id in world.nodes && Sound(base, world)
    }

    constructor (id: Id, ghost base: Secrets, world: World, alone: bool, reliable: bool)
      requires id in world.nodes && Sound(base, world)
      ensures Valid() && this.id == id && this.base == base && this.world == world
      ensures this.alone == alone && this.reliable == reliable
    {
      this.id, this.base, this.world, this.faults := id, base, world, 0;
      this.alone, this.reliable := alone, reliable;
    }

    /** What this instance can read. */
    function Readable(): set<string>
      requires id in world.nodes
      reads this
    {
      world.nodes[id].table.Keys
    }

    /** The world moves on by any steps of any instance, and this one goes on running. */
    twostate predicate Moves()
      reads this
    {
      && old(Valid()) && Valid() && Later(Calm, old(world), world)
      && old(Readable()) <= Readable() && old(faults) <= faults
    }

    method Take(step: Step<Write>)
      requires Valid() && Enabled(world, step) && !Forgets(world, step) && !Ends(step, id)
      modifies this`world
      ensures Moves() && world == Next(Apply, old(world), step)
    {
      StepMoves(base, world, step, id);
      world := Next(Apply, world, step);
    }

    /** The rest of the system moves: any steps, of any instance, but the end of this process. */
    method Others()
      requires Valid()
      modifies this`world
      ensures Moves() && (alone ==> world == old(world))
    {
      var count: nat :| 0 <= count;
      LaterSame(Calm, world);
      if alone {
        return;
      }
      for _ := 0 to count
        invariant Moves()
      {
        var step: Step<Write> := *;
        if Enabled(world, step) && !Forgets(world, step) && !Ends(step, id) {
          ghost var w := world;
          Take(step);
          LaterOn(Calm, old(world), w, world);
        }
      }
    }

    method GetSecret(name: string) returns (r: Result<string, SecretError>)
      requires Valid()
      modifies this`world, this`faults
      ensures Moves()
      ensures r.Success? ==> Settled(base, world, name, r.value)
      ensures r.Failure? ==> r.error in {NoRows, DbError}
      ensures r == Failure(NoRows) ==> name !in old(Readable())
      ensures r == Failure(DbError) ==> faults > old(faults) && !reliable
      ensures alone ==> world == old(world)
      ensures alone && name in Readable() && reliable ==> r == Success(world.nodes[id].table[name])
    {
      Others();
      var fails: bool := *;
      if fails && !reliable {
        faults := faults + 1;
        return Failure(DbError);
      }
      var t := world.nodes[id].table;
      if name !in t {
        return Failure(NoRows);
      }
      ReadIsSettled(base, world, id, name);
      return Success(t[name]);
    }

    /** s' is s with one more commit, made by this instance while it holds the lease. */
    ghost predicate Wrote(s: World, w: Write, s': World) {
      && id in s.nodes && s.nodes[id].leader && s.lock == Some(id)
      && s'.log == s.log + [w] && id in s'.nodes && s'.nodes[id].table == Apply(s.nodes[id].table, w)
    }

    /** The database of a follower is read-only, so only the writer's insert is committed. */
    method Exec(w: Write) returns (err: Option<SecretError>, ghost at: World)
      requires Valid()
      modifies this`world, this`faults
      ensures Moves()
      ensures Later(Calm, old(world), at)
      ensures err.None? ==> Wrote(at, w, world)
      ensures err.None? || err == Some(ReadOnly) || (err == Some(DbError) && faults > old(faults) && !reliable)
      ensures err == Some(ReadOnly) ==> !world.nodes[id].leader
      ensures alone ==> at == old(world) && (err.Some? ==> world == old(world))
    {
      Others();
      at := world;
      var fails: bool := *;
      if fails && !reliable {
        faults := faults + 1;
        return Some(DbError), at;
      }
      if !world.nodes[id].leader {
        return Some(ReadOnly), at;
      }
      Take(Commit(id, w));
      LaterOn(Calm, old(world), at, world);
      return None, at;
    }

    method IsLeader() returns (leader: bool)
      requires Valid()
      modifies this`world
      ensures Moves()
      ensures leader == world.nodes[id].leader
      ensures alone ==> world == old(world)
    {
      Others();
      return world.nodes[id].leader;
    }

    /** Catches up from the replica; does nothing on the writer. */
    method Refresh() returns (ok: bool)
      requires Valid()
      modifies this`world, this`faults
      ensures Moves()
      ensures !ok ==> faults > old(faults) && !reliable
      ensures alone ==> world.log == old(world).log && world.lock == old(world).lock
      ensures alone && ok && !old(world).nodes[id].leader ==>
        Readable() == old(world).replica.Keys && !world.nodes[id].leader
    {
      RefreshShows(world, id);
      ok := TryStep(Lease.Refresh(id));
    }

    /** Takes the lease when no instance holds it; does nothing on the writer. */
    method TryPromote() returns (ok: bool)
      requires Valid()
      modifies this`world, this`faults
      ensures Moves()
      ensures !ok ==> faults > old(faults) && !reliable
      ensures alone ==> world.log == old(world).log
      ensures alone && ok ==> (world.nodes[id].leader <==> old(world).nodes[id].leader || old(world).lock.None?)
    {
      PromoteTakes(world, id);
      ok := TryStep(Promote(id));
    }

    method TryStep(step: Step<Write>) returns (ok: bool)
      requires Valid() && (step == Promote(id) || step == Lease.Refresh(id))
      modifies this`world, this`faults
      ensures Moves()
      ensures !ok ==> faults > old(faults) && !reliable
      ensures alone ==> world == if ok then StepIfEnabled(old(world), step) else old(world)
    {
      Others();
      ghost var w := world;
      var fails: bool := *;
      if fails && !reliable {
        faults := faults + 1;
      } else if Enabled(world, step) {
        Take(step);
        LaterOn(Calm, old(world), w, world);
      }
      return reliable || !fails;
    }

    /** One turn of the loop: read, and unless this is the writer, catch up, read again, try for the lease. */
    method TrySecret(name: string) returns (r: Option<Result<string, SecretError>>, ghost seen: World)
      requires Valid()
      modifies this`world, this`faults
      ensures Moves() && Later(Calm, old(world), seen) && id in seen.nodes
      ensures r.Some? && r.value.Success? ==> Settled(base, world, name, r.value.value)
      ensures r.Some? && r.value.Failure? ==> r.value == Failure(NoRows) || r.value == Failure(DbError)
      ensures r == Some(Failure(NoRows)) ==> seen.nodes[id].leader && name !in old(Readable())
      ensures r == Some(Failure(DbError)) ==> faults > old(faults) && !reliable
      ensures alone ==> world.log == old(world).log
      ensures alone && r == Some(Failure(NoRows)) ==> world == old(world) && world.nodes[id].leader
      ensures alone && r.None? && CanServe(old(world), id, name) ==>
        !old(world).nodes[id].leader && world.nodes[id].leader
    {
      var read := GetSecret(name);
      seen := world;
      if read != Failure(NoRows) {
        return Some(read), seen;
      }
      ghost var w := world;
      var leader := IsLeader();
      LaterOn(Calm, old(world), w, world);
      seen := world;
      if leader {
        return Some(read), seen;
      }
      w := world;
      r := CatchUp(name);
      LaterOn(Calm, old(world), w, world);
    }

    /** Refresh, the second read, and TryPromote. */
    method CatchUp(name: string) returns (r: Option<Result<string, SecretError>>)
      requires Valid()
      modifies this`world, this`faults
      ensures Moves()
      ensures r.Some? && r.value.Success? ==> Settled(base, world, name, r.value.value)
      ensures r.Some? && r.value.Failure? ==> r.value == Failure(DbError) && faults > old(faults) && !reliable
      ensures alone ==> world.log == old(world).log
      ensures alone && !old(world).nodes[id].leader && r.None? ==>
        name !in old(world).replica && (old(world).lock.None? ==> world.nodes[id].leader)
    {
      var refreshed := Refresh();
      if !refreshed {
        return Some(Failure(DbError));
      }
      ghost var w := world;
      var read := GetSecret(name);
      LaterOn(Calm, old(world), w, world);
      if read != Failure(NoRows) {
        return Some(read);
      }
      w := world;
      var tried := TryPromote();
      LaterOn(Calm, old(world), w, world);
      return if tried then None else Some(Failure(DbError));
    }

    /**
     A value is the settled one. "No rows" is the answer only of an instance that was the
     writer when it looked, so a follower never goes on to create the secret. rounds is how
     many tries fit into the timeout. An instance that can get at the secret or at the lease
     does so within two.
     */
    method AwaitSecret(name: string, rounds: nat) returns (r: Result<string, SecretError>, ghost seen: World)
      requires Valid()
      modifies this`world, this`faults
      ensures Moves()
      ensures r.Success? ==> Settled(base, world, name, r.value)
      ensures r.Failure? ==> r.error in {NoRows, DbError, TimedOut}
      ensures r == Failure(NoRows) ==> Later(Calm, old(world), seen) && id in seen.nodes && seen.nodes[id].leader
      ensures r == Failure(NoRows) ==> name !in old(Readable())
      ensures r == Failure(DbError) ==> faults > old(faults) && !reliable
      ensures alone ==> world.log == old(world).log
      ensures alone && r == Failure(NoRows) ==> world.nodes[id].leader && name !in Readable()
      ensures alone && reliable && rounds >= 2 && CanServe(old(world), id, name) ==> r.Success? || r == Failure(NoRows)
    {
      LaterSame(Calm, world);
      for i := 0 to rounds
        invariant Moves()
        invariant alone ==> world.log == old(world).log
        invariant i == 0 ==> world == old(world)
        invariant alone && CanServe(old(world), id, name) ==> i <= 1 && (i == 1 ==> world.nodes[id].leader)
      {
        ghost var w := world;
        var tried;
        tried, seen := TrySecret(name);
        LaterOn(Calm, old(world), w, world);
        LaterOn(Calm, old(world), w, seen);
        if tried.Some? {
          return tried.value, seen;
        }
      }
      return Failure(TimedOut), world;
    }

    /** The insert and the second read. */
    method CreateSecret(name: string, value: string) returns (r: Result<string, SecretError>)
      requires Valid()
      modifies this`world, this`faults
      ensures Moves()
      ensures r.Success? ==> Settled(base, world, name, r.value)
      ensures r.Failure? ==> r == Failure(DbError) || r == Failure(ReadOnly)
      ensures r == Failure(DbError) ==> faults > old(faults) && !reliable
      ensures r == Failure(ReadOnly) ==> !world.nodes[id].leader
      ensures alone && name !in old(Readable()) && r.Success? ==> r.value == value
      ensures alone && reliable && old(world).nodes[id].leader ==> r.Success?
    {
      var err, _ := Exec(Insert(name, value));
      if err.Some? {
        return Failure(err.value);
      }
      ghost var w := world;
      r := GetSecret(name);
      LaterOn(Calm, old(world), w, world);
    }

    /**
     Whatever the rest of the system does in between, a value that comes back is the settled
     one. It need not be the generated one: an insert that meets an existing row changes
     nothing, and the value is read again. That second read always finds a row, also when the
     lease has been handed on since the insert.
     */
    method GetOrCreateSecret(name: string, gen: Option<string>, rounds: nat) returns (r: Result<string, SecretError>)
      requires Valid()
      modifies this`world, this`faults
      ensures Moves()
      ensures r.Success? ==> Settled(base, world, name, r.value)
      ensures r.Success? ==> forall v | Settled(base, old(world), name, v) :: r.value == v
      ensures alone && r.Success? && name !in Fold(Apply, base, old(world).log) ==> gen == Some(r.value)
      ensures alone && reliable && gen.Some? && rounds >= 2 && CanServe(old(world), id, name) ==> r.Success?
      ensures r != Failure(NoRows)
      ensures r == Failure(DbError) ==> faults > old(faults) && !reliable
      ensures r == Failure(GenError) ==> gen.None?
      ensures r == Failure(ReadOnly) ==> !world.nodes[id].leader
      ensures name in old(Readable()) && r.Failure? ==> r == Failure(DbError) || r == Failure(TimedOut)
    {
      ghost var seen;
      r, seen := AwaitSecret(name, rounds);
      if r != Failure(NoRows) {
        AgreesWithBefore(base, old(world), world, name, r);
        return;
      }
      if gen.None? {
        return Failure(GenError);
      }
      ghost var w := world;
      r := CreateSecret(name, gen.value);
      LaterOn(Calm, old(world), w, world);
      AgreesWithBefore(base, old(world), world, name, r);
    }
  }
}
