/**
 Pushes, leases, caches and crashes as one transition system: any number of instances, with
 every step of internal/githttp/receive.go, internal/repo/materialize.go and the lease
 handoff of cmd/gitmote/main.go interleaved without restriction.

 A repository is named by its number, which stands for its normalized name; the per-repo
 lock, the object prefix and the cache directory are all keyed by it.

 Taken as given: the hook flags its updates honestly (module Hook), the connectivity check of
 receive-pack (Connected), and that the quarantine does not change during a hook call. A push
 may be released, and its instance may yield, while its hook call still runs.
 */
module PushSystem {
  import opened Wrappers
  import opened Objects
  import opened Refs
  import opened Hook
  import Lease

  type Nonce = nat
  type CallId = nat
  type MirrorId = nat

  /** A committed push as the database sees it, with what the guard knew about the pusher. */
  datatype Txn = Txn(nonce: Nonce, repo: nat, branch: string, admin: bool, commands: seq<Command>)

  function Updates(repo: nat, cs: seq<Command>): (us: seq<Update>)
    ensures |us| == |cs|
  {
    seq(|cs|, i requires 0 <= i < |cs| => Update(RefKey(repo, cs[i].ref), cs[i].oldSha, cs[i].newSha))
  }

  function ApplyTxn(t: Table, x: Txn): Table {
    var r := CasFold(t, Updates(x.repo, x.commands));
    if r.Success? then r.value else t
  }

  datatype CommitInfo = CommitInfo(repo: nat, ref: string, oldSha: string, newSha: string)

  function Infos(repo: nat, cs: seq<Command>): seq<CommitInfo> {
    seq(|cs|, i requires 0 <= i < |cs| => CommitInfo(repo, cs[i].ref, cs[i].oldSha, cs[i].newSha))
  }

  /** A bare repository on disk. mirrored: some mirror has written packed-refs. */
  datatype Cache = Cache(objects: set<Oid>, loose: map<string, Oid>, packed: map<string, Oid>, mirrored: bool)

  const EMPTY_CACHE := Cache({}, map[], map[], false)

  /** taken, committed and fired are history. */
  datatype Push = Push(
    at: Lease.Id,
    repo: nat,
    branch: string,
    admin: bool,
    taken: Option<CallId>,
    committed: Option<seq<Command>>,
    outcome: seq<CommitInfo>,
    fired: Option<seq<CommitInfo>>,
    released: bool)

  datatype Stage = Checked | Refused | Rejected | Putting | Swapped | Recorded

  datatype Call = Call(
    nonce: Nonce,
    at: Lease.Id,
    repo: nat,
    commands: seq<Command>,
    quarantine: set<Oid>,
    put: set<Oid>,
    stage: Stage)

  datatype Mirror = Mirror(at: Lease.Id, repo: nat, listed: map<string, Oid>, written: bool)

  datatype Memory = Memory(registered: set<Nonce>, locked: map<nat, Nonce>)

  /** past is history: every state the ref table was committed in, oldest first. */
  datatype World = World(
    lease: Lease.State<Table, Txn>,
    store: map<nat, set<Oid>>,
    caches: map<(Lease.Id, nat), Cache>,
    memory: map<Lease.Id, Memory>,
    pushes: map<Nonce, Push>,
    calls: map<CallId, Call>,
    mirrors: map<MirrorId, Mirror>,
    past: seq<Table>)

  datatype Step =
    | LeaseStep(step: Lease.Step<Txn>)
    | Begin(n: Nonce, at: Lease.Id, repo: nat, branch: string, admin: bool)
    | Check(c: CallId, n: Nonce, commands: seq<Command>, quarantine: set<Oid>)
    | Take(c: CallId)
    | Put(c: CallId, x: Oid)
    | Fail(c: CallId)
    | Swap(c: CallId)
    | Record(c: CallId)
    | Migrate(c: CallId)
    | WriteRef(c: CallId, k: nat)
    | Fire(n: Nonce)
    | Release(n: Nonce)
    | Hydrate(at: Lease.Id, repo: nat, x: Oid)
    | ListRefs(m: MirrorId, at: Lease.Id, repo: nat)
    | WritePacked(m: MirrorId)
    | Unlink(m: MirrorId, ref: string)

  // ---------- Reading the state ----------

  function Stored(w: World, repo: nat): set<Oid> {
    if repo in w.store then w.store[repo] else {}
  }

  function CacheAt(w: World, at: Lease.Id, repo: nat): Cache {
    if (at, repo) in w.caches then w.caches[(at, repo)] else EMPTY_CACHE
  }

  function Look(m: map<string, Oid>, name: string): string {
    if name in m then m[name] else ""
  }

  /** The rows of one repository. */
  function Rows(t: Table, repo: nat): map<string, Oid> {
    map key <- t | key.repo == repo :: key.name := t[key]
  }

  /**
   The connectivity check of receive-pack: from every new tip, each object is in the
   quarantine, in the repository on disk, or in the history of a ref on disk.
   */
  ghost predicate Connected(g: Graph, cache: Cache, cs: seq<Command>, quarantine: set<Oid>) {
    forall c <- cs | IsId(c.newSha) ::
      forall x | Reaches(g.links, c.newSha, x) ::
        || x in quarantine
        || x in cache.objects
        || (exists ref <- cache.loose :: Reaches(g.links, cache.loose[ref], x))
        || (exists ref <- cache.packed :: Reaches(g.links, cache.packed[ref], x))
  }

  /** The default-branch guard: a non-admin may not force the branch fixed at Begin. */
  predicate Guarded(branch: string, admin: bool, cs: seq<Command>) {
    admin || forall c <- cs :: c.ref == "refs/heads/" + branch ==> !c.force
  }

  /** No later command of the push names the same ref. */
  predicate LastOfRef(cs: seq<Command>, k: nat) {
    k < |cs| && forall j | k < j < |cs| :: cs[j].ref != cs[k].ref
  }

  predicate Live(w: World, n: Nonce) {
    && n in w.pushes
    && w.pushes[n].at in w.memory
    && w.pushes[n].repo in w.memory[w.pushes[n].at].locked
    && w.memory[w.pushes[n].at].locked[w.pushes[n].repo] == n
  }

  predicate CanSwap(w: World, c: CallId)
    requires c in w.calls
  {
    var call := w.calls[c];
    && call.at in w.lease.nodes
    && w.lease.nodes[call.at].leader
    && CasFold(w.lease.nodes[call.at].table, Updates(call.repo, call.commands)).Success?
  }

  // ---------- Steps ----------

  ghost predicate Enabled(g: Graph, w: World, step: Step) {
    match step
    case LeaseStep(ls) => !ls.Commit? && Lease.Enabled(w.lease, ls)
    case Begin(n, at, repo, _, _) => n !in w.pushes && at in w.memory && repo !in w.memory[at].locked
    case Check(c, n, cs, q) =>
      && c !in w.calls && n in w.pushes && w.pushes[n].at in w.memory && cs != []
      && w.pushes[n].taken != Some(c)
      && (forall x <- cs :: Honest(g, x))
      && Connected(g, CacheAt(w, w.pushes[n].at, w.pushes[n].repo), cs, q)
    case Take(c) => c in w.calls && w.calls[c].stage == Checked
    case Put(c, x) => c in w.calls && w.calls[c].stage == Putting && x in w.calls[c].quarantine
    case Fail(c) => c in w.calls && w.calls[c].stage == Putting
    case Swap(c) => c in w.calls && w.calls[c].stage == Putting && w.calls[c].quarantine <= w.calls[c].put
    case Record(c) => c in w.calls && w.calls[c].stage == Swapped
    case Migrate(c) => c in w.calls && w.calls[c].stage == Recorded
    case WriteRef(c, k) => c in w.calls && w.calls[c].stage == Recorded && LastOfRef(w.calls[c].commands, k)
    case Fire(n) => Live(w, n) && w.pushes[n].fired.None?
    case Release(n) => Live(w, n)
    case Hydrate(at, repo, x) => at in w.memory && x in Stored(w, repo)
    case ListRefs(m, at, _) => m !in w.mirrors && at in w.memory && at in w.lease.nodes
    case WritePacked(m) => m in w.mirrors && !w.mirrors[m].written
    case Unlink(m, _) => m in w.mirrors && w.mirrors[m].written
  }

  /** What a process takes with it when it ends. Its disk stays. */
  function Stop(w: World, i: Lease.Id): World {
    w.(memory := w.memory - {i},
       calls := map c <- w.calls | w.calls[c].at != i :: w.calls[c],
       mirrors := map m <- w.mirrors | w.mirrors[m].at != i :: w.mirrors[m])
  }

  ghost function NextLease(w: World, ls: Lease.Step<Txn>): World
    requires Lease.Enabled(w.lease, ls)
  {
    var w1 := w.(lease := Lease.Next(ApplyTxn, w.lease, ls));
    match ls
    case Boot(i) => w1.(memory := w.memory[i := Memory({}, map[])])
    case Kill(i) => Stop(w1, i)
    case Close(i) => Stop(w1, i)
    case _ => w1
  }

  function SetStage(w: World, c: CallId, stage: Stage): World
    requires c in w.calls
  {
    w.(calls := w.calls[c := w.calls[c].(stage := stage)])
  }

  function SetCache(w: World, at: Lease.Id, repo: nat, cache: Cache): World {
    w.(caches := w.caches[(at, repo) := cache])
  }

  function NextBegin(w: World, n: Nonce, at: Lease.Id, repo: nat, branch: string, admin: bool): World
    requires at in w.memory
  {
    var m := w.memory[at];
    w.(pushes := w.pushes[n := Push(at, repo, branch, admin, None, None, [], None, false)],
       memory := w.memory[at := Memory(m.registered + {n}, m.locked[repo := n])])
  }

  function NextCheck(w: World, c: CallId, n: Nonce, cs: seq<Command>, q: set<Oid>): World
    requires n in w.pushes
  {
    w.(calls := w.calls[c := Call(n, w.pushes[n].at, w.pushes[n].repo, cs, q, {}, Checked)])
  }

  predicate HoldsNonce(w: World, c: CallId)
    requires c in w.calls
  {
    var call := w.calls[c];
    call.at in w.memory && call.nonce in w.memory[call.at].registered && call.nonce in w.pushes
  }

  /** The nonce is burned, whatever the guard then decides. */
  function Taken(w: World, c: CallId): World
    requires c in w.calls && HoldsNonce(w, c)
  {
    var call := w.calls[c];
    var p := w.pushes[call.nonce];
    var m := w.memory[call.at];
    SetStage(w, c, if Guarded(p.branch, p.admin, call.commands) then Putting else Rejected)
      .(memory := w.memory[call.at := m.(registered := m.registered - {call.nonce})],
        pushes := w.pushes[call.nonce := p.(taken := Some(c))])
  }

  function NextTake(w: World, c: CallId): World
    requires c in w.calls
  {
    if HoldsNonce(w, c) then Taken(w, c) else SetStage(w, c, Refused)
  }

  function NextPut(w: World, c: CallId, x: Oid): World
    requires c in w.calls
  {
    var call := w.calls[c];
    w.(store := w.store[call.repo := Stored(w, call.repo) + {x}],
       calls := w.calls[c := call.(put := call.put + {x})])
  }

  function TxnOf(w: World, c: CallId): Txn
    requires c in w.calls && w.calls[c].nonce in w.pushes
  {
    var call := w.calls[c];
    var p := w.pushes[call.nonce];
    Txn(call.nonce, call.repo, p.branch, p.admin, call.commands)
  }

  ghost function Committed(w: World, c: CallId): World
    requires c in w.calls && w.calls[c].nonce in w.pushes && CanSwap(w, c)
  {
    var call := w.calls[c];
    var x := TxnOf(w, c);
    SetStage(w, c, Swapped)
      .(lease := Lease.Next(ApplyTxn, w.lease, Lease.Commit(call.at, x)),
        past := w.past + [ApplyTxn(w.lease.nodes[call.at].table, x)],
        pushes := w.pushes[call.nonce := w.pushes[call.nonce].(committed := Some(call.commands))])
  }

  /** The linearization point. A follower's database is read-only, so there the swap fails. */
  ghost function NextSwap(w: World, c: CallId): World
    requires c in w.calls
  {
    if w.calls[c].nonce in w.pushes && CanSwap(w, c) then Committed(w, c) else SetStage(w, c, Rejected)
  }

  function NextRecord(w: World, c: CallId): World
    requires c in w.calls
  {
    var call := w.calls[c];
    var w1 := SetStage(w, c, Recorded);
    if call.nonce in w.pushes then
      w1.(pushes := w.pushes[call.nonce := w.pushes[call.nonce].(outcome := Infos(call.repo, call.commands))])
    else w1
  }

  function NextMigrate(w: World, c: CallId): World
    requires c in w.calls
  {
    var call := w.calls[c];
    var cache := CacheAt(w, call.at, call.repo);
    SetCache(w, call.at, call.repo, cache.(objects := cache.objects + call.quarantine))
  }

  /** receive-pack brings one ref on disk up to date: a loose file, or a removal from both places. */
  function RefWrittenTo(w: World, c: CallId, k: nat): Cache
    requires c in w.calls && k < |w.calls[c].commands|
  {
    var call := w.calls[c];
    var cmd := call.commands[k];
    var cache := CacheAt(w, call.at, call.repo);
    if IsId(cmd.newSha) then cache.(loose := cache.loose[cmd.ref := cmd.newSha])
    else cache.(loose := cache.loose - {cmd.ref}, packed := cache.packed - {cmd.ref})
  }

  function NextWriteRef(w: World, c: CallId, k: nat): World
    requires c in w.calls && k < |w.calls[c].commands|
  {
    SetCache(w, w.calls[c].at, w.calls[c].repo, RefWrittenTo(w, c, k))
  }

  /** The after-commit hook gets what the push has on record at this moment. */
  function NextFire(w: World, n: Nonce): World
    requires n in w.pushes
  {
    w.(pushes := w.pushes[n := w.pushes[n].(fired := Some(w.pushes[n].outcome))])
  }

  function NextRelease(w: World, n: Nonce): World
    requires Live(w, n)
  {
    var p := w.pushes[n];
    var m := w.memory[p.at];
    w.(pushes := w.pushes[n := p.(released := true)],
       memory := w.memory[p.at := Memory(m.registered - {n}, m.locked - {p.repo})])
  }

  function NextHydrate(w: World, at: Lease.Id, repo: nat, x: Oid): World {
    var cache := CacheAt(w, at, repo);
    SetCache(w, at, repo, cache.(objects := cache.objects + {x}))
  }

  function NextListRefs(w: World, m: MirrorId, at: Lease.Id, repo: nat): World
    requires at in w.lease.nodes
  {
    w.(mirrors := w.mirrors[m := Mirror(at, repo, Rows(w.lease.nodes[at].table, repo), false)])
  }

  function NextWritePacked(w: World, m: MirrorId): World
    requires m in w.mirrors
  {
    var x := w.mirrors[m];
    SetCache(w, x.at, x.repo, CacheAt(w, x.at, x.repo).(packed := x.listed, mirrored := true))
      .(mirrors := w.mirrors[m := x.(written := true)])
  }

  function NextUnlink(w: World, m: MirrorId, ref: string): World
    requires m in w.mirrors
  {
    var x := w.mirrors[m];
    var cache := CacheAt(w, x.at, x.repo);
    SetCache(w, x.at, x.repo, cache.(loose := cache.loose - {ref}))
  }

  ghost function Next(g: Graph, w: World, step: Step): World
    requires Enabled(g, w, step)
  {
    match step
    case LeaseStep(ls) => NextLease(w, ls)
    case Begin(n, at, repo, branch, admin) => NextBegin(w, n, at, repo, branch, admin)
    case Check(c, n, cs, q) => NextCheck(w, c, n, cs, q)
    case Take(c) => NextTake(w, c)
    case Put(c, x) => NextPut(w, c, x)
    case Fail(c) => SetStage(w, c, Rejected)
    case Swap(c) => NextSwap(w, c)
    case Record(c) => NextRecord(w, c)
    case Migrate(c) => NextMigrate(w, c)
    case WriteRef(c, k) => NextWriteRef(w, c, k)
    case Fire(n) => NextFire(w, n)
    case Release(n) => NextRelease(w, n)
    case Hydrate(at, repo, x) => NextHydrate(w, at, repo, x)
    case ListRefs(m, at, repo) => NextListRefs(w, m, at, repo)
    case WritePacked(m) => NextWritePacked(w, m)
    case Unlink(m, ref) => NextUnlink(w, m, ref)
  }
}
