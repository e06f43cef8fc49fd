/**
 What a cache has on disk when its refs are mirrored (internal/repo/materialize.go): objects are
 listed and copied first, refs are listed after that, and pushes go on in between.
 */
module PushCaches {
  import opened Wrappers
  import opened Objects
  import opened Refs
  import opened Hook
  import opened PushSystem
  import opened PushSafety
  import opened PushTheorems
  import Lease

  lemma StepKeepsObjects(g: Graph, w: World, step: Step, at: Lease.Id, repo: nat)
    requires Enabled(g, w, step)
    ensures CacheAt(w, at, repo).objects <= CacheAt(Next(g, w, step), at, repo).objects
  {
    match step
    case LeaseStep(ls) => LeaseStepKeepsCaches(w, ls);
    case Swap(c) => SwapKeepsCaches(w, c);
    case _ => OtherStepKeepsObjects(g, w, step, at, repo);
  }

  lemma OtherStepKeepsObjects(g: Graph, w: World, step: Step, at: Lease.Id, repo: nat)
    requires Enabled(g, w, step) && !step.LeaseStep? && !step.Swap?
    ensures CacheAt(w, at, repo).objects <= CacheAt(Next(g, w, step), at, repo).objects
  {
  }

  lemma {:induction false} RunKeepsObjects(g: Graph, w: World, steps: seq<Step>, w': World, at: Lease.Id, repo: nat)
    requires Runs(g, w, steps, w')
    ensures CacheAt(w, at, repo).objects <= CacheAt(w', at, repo).objects
    decreases |steps|
  {
    if steps != [] {
      StepKeepsObjects(g, w, steps[0], at, repo);
      RunKeepsObjects(g, Next(g, w, steps[0]), steps[1..], w', at, repo);
    }
  }

  /** From listing on, a ref that had its value by then has its closure on disk once the copies are done. */
  lemma OldRefIsHydrated(
    g: Graph, listing: World, copied: World, later: seq<Step>, w: World, at: Lease.Id, repo: nat, n: string, v: string)
    requires PastClosed(g, listing) && WasState(listing.past, RefKey(repo, n), v) && v != ""
    requires Stored(listing, repo) <= CacheAt(copied, at, repo).objects && Runs(g, copied, later, w)
    ensures ClosedIn(g, CacheAt(w, at, repo).objects, v)
  {
    CommittedIsClosed(g, listing, RefKey(repo, n), v);
    RunKeepsObjects(g, copied, later, w, at, repo);
  }

  lemma ListedWasState(g: Graph, w: World, at: Lease.Id, repo: nat, n: string)
    requires Safe(g, w) && at in w.lease.nodes && n in Rows(w.lease.nodes[at].table, repo)
    ensures Rows(w.lease.nodes[at].table, repo)[n] != ""
    ensures WasState(w.past, RefKey(repo, n), Rows(w.lease.nodes[at].table, repo)[n])
  {
    var t := w.lease.nodes[at].table;
    assert t in w.past && TableClosed(g, w, t);
    var key :| key in t && key.repo == repo && key.name == n;
    assert key == RefKey(repo, n);
    var k :| 0 <= k < |w.past| && w.past[k] == t;
    assert Current(w.past[k], key) == t[key];
  }

  /**
   The store is listed; what it lists is copied, with anything else going on; then the refs are
   listed, and anything goes on. Every listed ref that had its value when the store was listed
   has its whole closure on disk, from then on. So all of them have when no push was committed
   between the two lists.
   */
  lemma MirroredIsHydrated(
    g: Graph, w0: World, before: seq<Step>, listing: World, copying: seq<Step>, copied: World,
    m: MirrorId, at: Lease.Id, repo: nat, after: seq<Step>, w: World)
    requires Initial(g, w0) && Runs(g, w0, before, listing) && Runs(g, listing, copying, copied)
    requires Stored(listing, repo) <= CacheAt(copied, at, repo).objects
    requires Enabled(g, copied, ListRefs(m, at, repo)) && Runs(g, Next(g, copied, ListRefs(m, at, repo)), after, w)
    ensures
      var listed := Rows(copied.lease.nodes[at].table, repo);
      && (forall n <- listed | WasState(listing.past, RefKey(repo, n), listed[n]) ::
            ClosedIn(g, CacheAt(w, at, repo).objects, listed[n]))
      && (copied.past == listing.past ==>
            forall n <- listed :: ClosedIn(g, CacheAt(w, at, repo).objects, listed[n]))
  {
    var listed := Rows(copied.lease.nodes[at].table, repo);
    Reached(g, w0, before, listing);
    RunKeepsInv(g, listing, copying, copied);
    forall n <- listed
      ensures WasState(copied.past, RefKey(repo, n), listed[n])
      ensures WasState(listing.past, RefKey(repo, n), listed[n]) ==>
                ClosedIn(g, CacheAt(w, at, repo).objects, listed[n])
    {
      ListedWasState(g, copied, at, repo, n);
      if WasState(listing.past, RefKey(repo, n), listed[n]) {
        var w1 := Next(g, copied, ListRefs(m, at, repo));
        OldRefIsHydrated(g, listing, w1, after, w, at, repo, n, listed[n]);
      }
    }
  }

  // ---------- A push that is committed between the two lists ----------

  ghost predicate StepsTo(g: Graph, w: World, step: Step, w': World) {
    Enabled(g, w, step) && Next(g, w, step) == w'
  }

  lemma {:induction false} RunsAlong(g: Graph, ws: seq<World>, steps: seq<Step>)
    requires |ws| == |steps| + 1
    requires forall i | 0 <= i < |steps| :: StepsTo(g, ws[i], steps[i], ws[i + 1])
    ensures Runs(g, ws[0], steps, ws[|steps|])
    decreases |steps|
  {
    if steps != [] {
      assert StepsTo(g, ws[0], steps[0], ws[0 + 1]);
      forall i | 0 <= i < |steps[1..]| ensures StepsTo(g, ws[1..][i], steps[1..][i], ws[1..][i + 1]) {
        assert StepsTo(g, ws[i + 1], steps[i + 1], ws[i + 1 + 1]);
      }
      RunsAlong(g, ws[1..], steps[1..]);
    }
  }

  const NAME := "refs/heads/a"

  /** One object without links. */
  ghost predicate Lone(g: Graph, x: Oid) {
    IsId(x) && g.links(x) == {}
  }

  function Create(x: Oid): Command {
    Command(ZERO_SHA, x, NAME, false)
  }

  const NOTHING: Lease.State<Table, Txn> := Lease.Init(map[])

  function Start(): World {
    World(NOTHING, map[], map[], map[], map[], map[], map[], [map[]])
  }

  const BOOTED: Lease.State<Table, Txn> := NOTHING.(nodes := map[0 := Lease.Node(false, map[], [])])

  const LEADING: Lease.State<Table, Txn> :=
    NOTHING.(nodes := map[0 := Lease.Node(true, map[], [])], lock := Some(0))

  const FREE := Memory({}, map[])

  function Led(): World {
    Start().(lease := LEADING, memory := map[0 := FREE])
  }

  function Booted(): World {
    Start().(lease := BOOTED, memory := map[0 := FREE])
  }

  lemma Leads(g: Graph)
    ensures StepsTo(g, Start(), LeaseStep(Lease.Boot(0)), Booted())
    ensures StepsTo(g, Booted(), LeaseStep(Lease.Promote(0)), Led())
  {
  }

  function PushOf(taken: Option<CallId>): Push {
    Push(0, 0, "a", false, taken, None, [], None, false)
  }

  function Begun(): World {
    Led().(pushes := map[0 := PushOf(None)], memory := map[0 := Memory({0}, map[0 := 0])])
  }

  function CallOf(x: Oid, put: set<Oid>, stage: Stage): Call {
    Call(0, 0, 0, [Create(x)], {x}, put, stage)
  }

  function Asked(x: Oid): World {
    Begun().(calls := map[0 := CallOf(x, {}, Checked)])
  }

  /** The hook call holds the nonce and has put nothing yet. The store is empty. */
  function Listing(x: Oid): World {
    Begun().(
      memory := map[0 := Memory({}, map[0 := 0])], pushes := map[0 := PushOf(Some(0))],
      calls := map[0 := CallOf(x, {}, Putting)])
  }

  lemma LoneReaches(g: Graph, x: Oid, y: Oid)
    requires Lone(g, x) && Reaches(g.links, x, y)
    ensures y == x
  {
    var p :| IsPath(g.links, p) && p[0] == x && p[|p| - 1] == y;
    assert g.links(p[0]) == {};
  }

  lemma Asks(g: Graph, x: Oid)
    requires Lone(g, x)
    ensures StepsTo(g, Begun(), Check(0, 0, [Create(x)], {x}), Asked(x))
  {
    forall c <- [Create(x)], y | IsId(c.newSha) && Reaches(g.links, c.newSha, y) ensures y in {x} {
      LoneReaches(g, x, y);
    }
    assert Connected(g, CacheAt(Begun(), 0, 0), [Create(x)], {x});
  }

  lemma Takes(g: Graph, x: Oid)
    ensures StepsTo(g, Asked(x), Take(0), Listing(x))
  {
    assert Guarded("a", false, [Create(x)]);
    assert {0} - {0} == {};
  }

  lemma Begins(g: Graph)
    ensures StepsTo(g, Led(), Begin(0, 0, 0, "a", false), Begun())
  {
    assert FREE.registered + {0} == {0};
  }

  function StepsToListing(x: Oid): seq<Step> {
    [LeaseStep(Lease.Boot(0)), LeaseStep(Lease.Promote(0)), Begin(0, 0, 0, "a", false),
     Check(0, 0, [Create(x)], {x}), Take(0)]
  }

  lemma ListingIsReached(g: Graph, x: Oid)
    requires Lone(g, x)
    ensures Initial(g, Start()) && Runs(g, Start(), StepsToListing(x), Listing(x))
  {
    Leads(g);
    Begins(g);
    Asks(g, x);
    Takes(g, x);
    RunsAlong(g, [Start(), Booted(), Led(), Begun(), Asked(x), Listing(x)], StepsToListing(x));
  }

  function Txn0(x: Oid): Txn {
    Txn(0, 0, "a", false, [Create(x)])
  }

  function Pushed(x: Oid): Table {
    map[RefKey(0, NAME) := x]
  }

  lemma CreateIsAccepted(x: Oid)
    requires IsId(x)
    ensures CasFold(map[], Updates(0, [Create(x)])) == Success(Pushed(x))
    ensures ApplyTxn(map[], Txn0(x)) == Pushed(x)
  {
    var us := Updates(0, [Create(x)]);
    assert us[..0] == [];
    assert CasFold(map[], us[..0]) == Success(map[]);
    assert us[0] == Update(RefKey(0, NAME), ZERO_SHA, x);
  }

  function Stocked(x: Oid): World {
    Listing(x).(store := map[0 := {x}], calls := map[0 := CallOf(x, {x}, Putting)])
  }

  /** The push is committed; its objects are still in the quarantine on disk. */
  function Done(x: Oid): World {
    Stocked(x).(
      lease := Lease.State(map[0 := Lease.Node(true, Pushed(x), [Txn0(x)])], Some(0), map[], [Txn0(x)], 0, [Txn0(x)]),
      calls := map[0 := CallOf(x, {x}, Swapped)],
      pushes := map[0 := PushOf(Some(0)).(committed := Some([Create(x)]))],
      past := [map[], Pushed(x)])
  }

  lemma Puts(g: Graph, x: Oid)
    ensures StepsTo(g, Listing(x), Put(0, x), Stocked(x))
  {
    assert {} + {x} == {x};
  }

  lemma Swaps(g: Graph, x: Oid)
    requires IsId(x)
    ensures StepsTo(g, Stocked(x), Step.Swap(0), Done(x))
  {
    CreateIsAccepted(x);
    assert LEADING.log + [Txn0(x)] == [Txn0(x)];
    assert [map[]] + [Pushed(x)] == Done(x).past;
  }

  function Mirroring(x: Oid): World {
    Done(x).(mirrors := map[0 := Mirror(0, 0, map[NAME := x], false)])
  }

  function Mirrored(x: Oid): World {
    Done(x).(
      caches := map[(0, 0) := Cache({}, map[], map[NAME := x], true)],
      mirrors := map[0 := Mirror(0, 0, map[NAME := x], true)])
  }

  lemma ListsRefs(g: Graph, x: Oid)
    ensures StepsTo(g, Done(x), ListRefs(0, 0, 0), Mirroring(x))
  {
    var t := Pushed(x);
    assert t[RefKey(0, NAME)] == x;
    assert Rows(t, 0) == map[NAME := x];
    var nodes := Done(x).lease.nodes;
    assert nodes[0].table == t;
  }

  lemma WritesRefs(g: Graph, x: Oid)
    ensures StepsTo(g, Mirroring(x), WritePacked(0), Mirrored(x))
  {
    assert CacheAt(Mirroring(x), 0, 0) == EMPTY_CACHE;
  }

  lemma PushOvertakes(g: Graph, x: Oid)
    requires IsId(x)
    ensures Runs(g, Listing(x), [Put(0, x), Step.Swap(0)], Done(x))
  {
    Puts(g, x);
    Swaps(g, x);
    RunsAlong(g, [Listing(x), Stocked(x), Done(x)], [Put(0, x), Step.Swap(0)]);
  }

  lemma MirrorFollows(g: Graph, x: Oid)
    ensures Runs(g, Done(x), [ListRefs(0, 0, 0), WritePacked(0)], Mirrored(x))
  {
    ListsRefs(g, x);
    WritesRefs(g, x);
    RunsAlong(g, [Done(x), Mirroring(x), Mirrored(x)], [ListRefs(0, 0, 0), WritePacked(0)]);
  }

  /** All that was in the store as it was listed is copied, and yet a mirrored ref dangles. */
  ghost predicate Dangles(g: Graph, listing: World, copied: World, w: World, name: string) {
    && Stored(listing, 0) <= CacheAt(copied, 0, 0).objects
    && name in CacheAt(w, 0, 0).packed
    && !ClosedIn(g, CacheAt(w, 0, 0).objects, CacheAt(w, 0, 0).packed[name])
  }

  lemma MirroredDangles(g: Graph, x: Oid)
    requires Lone(g, x)
    ensures Dangles(g, Listing(x), Done(x), Mirrored(x), NAME)
  {
    ReachesSelf(g.links, x);
    var cache := CacheAt(Mirrored(x), 0, 0);
    assert cache.packed == map[NAME := x] && cache.objects == {};
  }

  /**
   A fetch lists the store; a push to the same repository puts its object and commits; then the
   fetch lists the refs. All it has listed is copied, and the mirrored ref names an object that
   is not on disk.
   */
  lemma PushBetweenListsDangles(g: Graph, x: Oid)
    requires Lone(g, x)
    ensures Initial(g, Start()) && Runs(g, Start(), StepsToListing(x), Listing(x))
    ensures Runs(g, Listing(x), [Put(0, x), Step.Swap(0)], Done(x))
    ensures Runs(g, Done(x), [ListRefs(0, 0, 0), WritePacked(0)], Mirrored(x))
    ensures Dangles(g, Listing(x), Done(x), Mirrored(x), NAME)
  {
    ListingIsReached(g, x);
    PushOvertakes(g, x);
    MirrorFollows(g, x);
    MirroredDangles(g, x);
  }
}
