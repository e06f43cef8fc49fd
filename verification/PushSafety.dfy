/**
 Content before pointer, over every run of PushSystem: whatever the interleaving, every ref
 anyone can read names an object whose whole closure is in the store, and every ref value a
 mirrored cache shows was committed.
 */
module PushSafety {
  import opened Wrappers
  import opened Objects
  import opened Refs
  import opened Hook
  import opened PushSystem
  import Lease

  ghost predicate TableClosed(g: Graph, w: World, t: Table) {
    WellFormed(t) && forall key <- t :: ClosedIn(g, Stored(w, key.repo), t[key])
  }

  /** At some time the ref had this value; "" means it was absent. */
  ghost predicate WasState(past: seq<Table>, key: RefKey, v: string) {
    exists k | 0 <= k < |past| :: Current(past[k], key) == v
  }

  // ---------- The invariant, one part per component ----------

  ghost predicate TablesInPast(w: World) {
    && w.past != []
    && (forall i <- w.lease.nodes :: w.lease.nodes[i].table in w.past)
    && (forall k | 0 <= k <= |w.lease.log| :: Lease.Fold(ApplyTxn, w.past[0], w.lease.log[..k]) in w.past)
  }

  ghost predicate PastClosed(g: Graph, w: World) {
    forall t <- w.past :: TableClosed(g, w, t)
  }

  ghost predicate CacheOk(w: World, repo: nat, c: Cache) {
    && c.objects <= Stored(w, repo)
    && (forall n <- c.loose :: c.loose[n] != "" && WasState(w.past, RefKey(repo, n), c.loose[n]))
    && (forall n <- c.packed :: c.packed[n] != "" && WasState(w.past, RefKey(repo, n), c.packed[n]))
    && (c.mirrored ==> forall n :: WasState(w.past, RefKey(repo, n), Look(c.packed, n)))
  }

  ghost predicate CachesOk(w: World) {
    forall at, repo | (at, repo) in w.caches :: CacheOk(w, repo, w.caches[(at, repo)])
  }

  /** Every pushed tip's closure is in the store or still in the quarantine. */
  ghost predicate Covered(g: Graph, w: World, c: Call) {
    forall x <- c.commands | IsId(x.newSha) :: ClosedIn(g, Stored(w, c.repo) + c.quarantine, x.newSha)
  }

  ghost predicate Published(w: World, c: Call) {
    && c.quarantine <= Stored(w, c.repo)
    && forall k: nat | LastOfRef(c.commands, k) ::
         WasState(w.past, RefKey(c.repo, c.commands[k].ref), Normalize(c.commands[k].newSha))
  }

  ghost predicate CallOk(g: Graph, w: World, c: Call) {
    && c.put <= Stored(w, c.repo)
    && Covered(g, w, c)
    && (c.stage in {Swapped, Recorded} ==> Published(w, c))
  }

  ghost predicate CallsOk(g: Graph, w: World) {
    forall c <- w.calls :: CallOk(g, w, w.calls[c])
  }

  ghost predicate MirrorOk(w: World, m: Mirror) {
    && (forall n <- m.listed :: m.listed[n] != "")
    && forall n :: WasState(w.past, RefKey(m.repo, n), Look(m.listed, n))
  }

  ghost predicate MirrorsOk(w: World) {
    forall m <- w.mirrors :: MirrorOk(w, w.mirrors[m])
  }

  ghost predicate Safe(g: Graph, w: World) {
    && TablesInPast(w)
    && Lease.Inv(ApplyTxn, w.past[0], w.lease)
    && PastClosed(g, w)
    && CachesOk(w)
    && CallsOk(g, w)
    && MirrorsOk(w)
  }

  // ---------- Growth ----------

  /** Nothing is ever taken out of the store or out of history. */
  ghost predicate Grows(w: World, w': World) {
    && (forall repo :: Stored(w, repo) <= Stored(w', repo))
    && w.past <= w'.past
  }

  lemma WasStateGrows(past: seq<Table>, past': seq<Table>, key: RefKey, v: string)
    requires WasState(past, key, v) && past <= past'
    ensures WasState(past', key, v)
  {
    var k :| 0 <= k < |past| && Current(past[k], key) == v;
    assert past'[k] == past[k];
  }

  lemma CacheGrows(w: World, w': World, repo: nat, c: Cache)
    requires CacheOk(w, repo, c) && Grows(w, w')
    ensures CacheOk(w', repo, c)
  {
    forall n, v | WasState(w.past, RefKey(repo, n), v) ensures WasState(w'.past, RefKey(repo, n), v) {
      WasStateGrows(w.past, w'.past, RefKey(repo, n), v);
    }
  }

  lemma MirrorGrows(w: World, w': World, m: Mirror)
    requires MirrorOk(w, m) && Grows(w, w')
    ensures MirrorOk(w', m)
  {
    forall n ensures WasState(w'.past, RefKey(m.repo, n), Look(m.listed, n)) {
      WasStateGrows(w.past, w'.past, RefKey(m.repo, n), Look(m.listed, n));
    }
  }

  lemma CallGrows(g: Graph, w: World, w': World, c: Call)
    requires CallOk(g, w, c) && Grows(w, w')
    ensures CallOk(g, w', c)
  {
    if c.stage in {Swapped, Recorded} {
      forall k: nat | LastOfRef(c.commands, k)
        ensures WasState(w'.past, RefKey(c.repo, c.commands[k].ref), Normalize(c.commands[k].newSha))
      {
        WasStateGrows(w.past, w'.past, RefKey(c.repo, c.commands[k].ref), Normalize(c.commands[k].newSha));
      }
    }
  }

  lemma CachesStay(w: World, w': World)
    requires CachesOk(w) && Grows(w, w') && w'.caches == w.caches
    ensures CachesOk(w')
  {
    forall at, repo | (at, repo) in w'.caches ensures CacheOk(w', repo, w'.caches[(at, repo)]) {
      CacheGrows(w, w', repo, w.caches[(at, repo)]);
    }
  }

  lemma OneCacheChanges(w: World, w': World, at: Lease.Id, repo: nat, cache: Cache)
    requires CachesOk(w) && Grows(w, w') && w'.caches == w.caches[(at, repo) := cache]
    requires CacheOk(w', repo, cache)
    ensures CachesOk(w')
  {
    forall a, r | (a, r) in w'.caches ensures CacheOk(w', r, w'.caches[(a, r)]) {
      if (a, r) != (at, repo) {
        CacheGrows(w, w', r, w.caches[(a, r)]);
      }
    }
  }

  lemma CallsStay(g: Graph, w: World, w': World)
    requires CallsOk(g, w) && Grows(w, w')
    requires forall c <- w'.calls :: c in w.calls && w'.calls[c] == w.calls[c]
    ensures CallsOk(g, w')
  {
    forall c <- w'.calls ensures CallOk(g, w', w'.calls[c]) {
      CallGrows(g, w, w', w.calls[c]);
    }
  }

  lemma OneCallChanges(g: Graph, w: World, w': World, c: CallId, call: Call)
    requires CallsOk(g, w) && Grows(w, w') && w'.calls == w.calls[c := call]
    requires CallOk(g, w', call)
    ensures CallsOk(g, w')
  {
    forall d <- w'.calls ensures CallOk(g, w', w'.calls[d]) {
      if d != c {
        CallGrows(g, w, w', w.calls[d]);
      }
    }
  }

  lemma MirrorsStay(w: World, w': World)
    requires MirrorsOk(w) && Grows(w, w')
    requires forall m <- w'.mirrors :: m in w.mirrors && w'.mirrors[m] == w.mirrors[m]
    ensures MirrorsOk(w')
  {
    forall m <- w'.mirrors ensures MirrorOk(w', w'.mirrors[m]) {
      MirrorGrows(w, w', w.mirrors[m]);
    }
  }

  lemma PastClosedGrows(g: Graph, w: World, w': World)
    requires PastClosed(g, w) && Grows(w, w') && w'.past == w.past
    ensures PastClosed(g, w')
  {
    forall t <- w'.past ensures TableClosed(g, w', t) {
      assert TableClosed(g, w, t);
    }
  }

  // ---------- The steps that carry the argument ----------

  /** A committed ref value has its closure in the store. */
  lemma CommittedIsClosed(g: Graph, w: World, key: RefKey, v: string)
    requires PastClosed(g, w) && WasState(w.past, key, v) && v != ""
    ensures ClosedIn(g, Stored(w, key.repo), v)
  {
    var k :| 0 <= k < |w.past| && Current(w.past[k], key) == v;
    assert w.past[k] in w.past && TableClosed(g, w, w.past[k]);
  }

  /** What the connectivity check establishes, given what the disk is known to hold. */
  lemma ConnectedIsCovered(g: Graph, w: World, repo: nat, cache: Cache, cs: seq<Command>, q: set<Oid>)
    requires PastClosed(g, w) && CacheOk(w, repo, cache) && Connected(g, cache, cs, q)
    ensures forall x <- cs | IsId(x.newSha) :: ClosedIn(g, Stored(w, repo) + q, x.newSha)
  {
    forall x <- cs, y | IsId(x.newSha) && Reaches(g.links, x.newSha, y) ensures y in Stored(w, repo) + q {
      if y !in q && y !in cache.objects {
        if ref :| ref in cache.loose && Reaches(g.links, cache.loose[ref], y) {
          CommittedIsClosed(g, w, RefKey(repo, ref), cache.loose[ref]);
        } else {
          var ref :| ref in cache.packed && Reaches(g.links, cache.packed[ref], y);
          CommittedIsClosed(g, w, RefKey(repo, ref), cache.packed[ref]);
        }
      }
    }
  }

  /** What an accepted push leaves in the table: every row is old, or one of the new tips. */
  lemma {:induction false} AcceptedRows(t: Table, repo: nat, cs: seq<Command>, j: nat, key: RefKey)
    requires j <= |cs|
    ensures
      var v := Before(t, Updates(repo, cs), j, key);
      || v == Current(t, key)
      || (exists x <- cs :: key == RefKey(repo, x.ref) && v == Normalize(x.newSha))
  {
    if j > 0 {
      if Updates(repo, cs)[j - 1].key == key {
        assert cs[j - 1] in cs;
      } else {
        AcceptedRows(t, repo, cs, j - 1, key);
      }
    }
  }

  lemma {:induction false} LastCommandWins(t: Table, repo: nat, cs: seq<Command>, k: nat, j: nat)
    requires LastOfRef(cs, k) && k < j <= |cs|
    ensures Before(t, Updates(repo, cs), j, RefKey(repo, cs[k].ref)) == Normalize(cs[k].newSha)
  {
    if j > k + 1 {
      LastCommandWins(t, repo, cs, k, j - 1);
    }
  }

  /** An accepted push whose new tips are covered keeps the table closed. */
  lemma AcceptedIsClosed(g: Graph, w: World, t: Table, repo: nat, cs: seq<Command>)
    requires TableClosed(g, w, t)
    requires CasFold(t, Updates(repo, cs)).Success?
    requires forall x <- cs | IsId(x.newSha) :: ClosedIn(g, Stored(w, repo), x.newSha)
    ensures TableClosed(g, w, CasFold(t, Updates(repo, cs)).value)
    ensures forall k: nat | LastOfRef(cs, k) ::
              Current(CasFold(t, Updates(repo, cs)).value, RefKey(repo, cs[k].ref)) == Normalize(cs[k].newSha)
  {
    var us := Updates(repo, cs);
    var t' := CasFold(t, us).value;
    CasFoldIsPositional(t, us);
    forall key <- t' ensures ClosedIn(g, Stored(w, key.repo), t'[key]) {
      assert Current(t', key) == Before(t, us, |us|, key);
      AcceptedRows(t, repo, cs, |cs|, key);
    }
    forall k: nat | LastOfRef(cs, k) ensures Current(t', RefKey(repo, cs[k].ref)) == Normalize(cs[k].newSha) {
      LastCommandWins(t, repo, cs, k, |cs|);
      assert Current(t', RefKey(repo, cs[k].ref)) == Before(t, us, |us|, RefKey(repo, cs[k].ref));
    }
  }

  // ---------- Lease steps ----------

  /** A handoff or a loss leaves only tables that were committed states already. */
  lemma LeaseKeepsTables(w: World, w': World, ls: Lease.Step<Txn>)
    requires TablesInPast(w) && Lease.Inv(ApplyTxn, w.past[0], w.lease)
    requires !ls.Commit? && Lease.Enabled(w.lease, ls)
    requires w'.past == w.past && w'.lease == Lease.Next(ApplyTxn, w.lease, ls)
    ensures TablesInPast(w')
  {
    var base := w.past[0];
    Lease.NextTables(ApplyTxn, base, w.lease, ls);
    forall k | 0 <= k <= |w'.lease.log| ensures Lease.Fold(ApplyTxn, base, w'.lease.log[..k]) in w.past {
      assert w'.lease.log[..k] == w.lease.log[..k];
    }
  }

  lemma LeaseKeepsSafe(g: Graph, w: World, ls: Lease.Step<Txn>)
    requires Safe(g, w) && !ls.Commit? && Lease.Enabled(w.lease, ls)
    ensures Safe(g, NextLease(w, ls))
  {
    var w' := NextLease(w, ls);
    LeaseKeepsTables(w, w', ls);
    Lease.NextKeepsInv(ApplyTxn, w.past[0], w.lease, ls);
    PastClosedGrows(g, w, w');
    CachesStay(w, w');
    CallsStay(g, w, w');
    MirrorsStay(w, w');
  }

  // ---------- Push steps ----------

  lemma CheckKeepsSafe(g: Graph, w: World, step: Step)
    requires Safe(g, w) && step.Check? && Enabled(g, w, step)
    ensures Safe(g, Next(g, w, step))
  {
    var w' := Next(g, w, step);
    var p := w.pushes[step.n];
    ConnectedIsCovered(g, w, p.repo, CacheAt(w, p.at, p.repo), step.commands, step.quarantine);
    PastClosedGrows(g, w, w');
    CachesStay(w, w');
    OneCallChanges(g, w, w', step.c, w'.calls[step.c]);
    MirrorsStay(w, w');
  }

  /** A call changes stage, without reaching the swap, and nothing it rests on shrinks. */
  lemma StageKeepsSafe(g: Graph, w: World, w': World, c: CallId)
    requires Safe(g, w) && c in w.calls && c in w'.calls
    requires w'.calls == w.calls[c := w.calls[c].(stage := w'.calls[c].stage)]
    requires w'.calls[c].stage in {Swapped, Recorded} ==> w.calls[c].stage in {Swapped, Recorded}
    requires w'.store == w.store && w'.past == w.past && w'.lease == w.lease
    requires w'.caches == w.caches && w'.mirrors == w.mirrors
    ensures Safe(g, w')
  {
    PastClosedGrows(g, w, w');
    CachesStay(w, w');
    CallGrows(g, w, w', w.calls[c]);
    OneCallChanges(g, w, w', c, w'.calls[c]);
    MirrorsStay(w, w');
  }

  lemma PutKeepsSafe(g: Graph, w: World, c: CallId, x: Oid)
    requires Safe(g, w) && Enabled(g, w, Put(c, x))
    ensures Safe(g, NextPut(w, c, x))
  {
    var w' := NextPut(w, c, x);
    assert CallOk(g, w, w.calls[c]);
    PastClosedGrows(g, w, w');
    CachesStay(w, w');
    OneCallChanges(g, w, w', c, w'.calls[c]);
    MirrorsStay(w, w');
  }

  lemma CommitKeepsTables(w: World, w': World, at: Lease.Id, x: Txn)
    requires TablesInPast(w) && Lease.Inv(ApplyTxn, w.past[0], w.lease)
    requires Lease.Enabled(w.lease, Lease.Commit(at, x))
    requires w'.lease == Lease.Next(ApplyTxn, w.lease, Lease.Commit(at, x))
    requires w'.past == w.past + [ApplyTxn(w.lease.nodes[at].table, x)]
    ensures TablesInPast(w')
  {
    assert w'.past[|w.past|] == ApplyTxn(w.lease.nodes[at].table, x);
    forall k | 0 <= k <= |w'.lease.log| ensures Lease.Fold(ApplyTxn, w.past[0], w'.lease.log[..k]) in w'.past {
      if k <= |w.lease.log| {
        assert w'.lease.log[..k] == w.lease.log[..k];
      } else {
        assert w'.lease.log[..k] == w.lease.log + [x];
        Lease.FoldOne(ApplyTxn, w.past[0], w.lease.log, x);
      }
    }
  }

  lemma CommitKeepsClosed(g: Graph, w: World, w': World, at: Lease.Id, repo: nat, cs: seq<Command>)
    requires PastClosed(g, w) && at in w.lease.nodes && w.lease.nodes[at].table in w.past
    requires CasFold(w.lease.nodes[at].table, Updates(repo, cs)).Success?
    requires forall x <- cs | IsId(x.newSha) :: ClosedIn(g, Stored(w, repo), x.newSha)
    requires w'.store == w.store
    requires w'.past == w.past + [CasFold(w.lease.nodes[at].table, Updates(repo, cs)).value]
    ensures PastClosed(g, w')
    ensures forall k: nat | LastOfRef(cs, k) ::
              WasState(w'.past, RefKey(repo, cs[k].ref), Normalize(cs[k].newSha))
  {
    var t := w.lease.nodes[at].table;
    assert TableClosed(g, w, t);
    AcceptedIsClosed(g, w, t, repo, cs);
    forall k: nat | LastOfRef(cs, k)
      ensures WasState(w'.past, RefKey(repo, cs[k].ref), Normalize(cs[k].newSha))
    {
      assert Current(w'.past[|w.past|], RefKey(repo, cs[k].ref)) == Normalize(cs[k].newSha);
    }
    forall u <- w'.past ensures TableClosed(g, w', u) {
      assert u in w.past || u == w'.past[|w.past|];
    }
  }

  /** Everything but the calls' own part, once a swap has succeeded. */
  lemma SwapCommits(g: Graph, w: World, c: CallId)
    requires Safe(g, w) && Enabled(g, w, Swap(c)) && w.calls[c].nonce in w.pushes && CanSwap(w, c)
    ensures var w' := Committed(w, c);
      && TablesInPast(w') && Lease.Inv(ApplyTxn, w'.past[0], w'.lease)
      && PastClosed(g, w') && Published(w', w'.calls[c])
  {
    var call := w.calls[c];
    var w' := Committed(w, c);
    assert CallOk(g, w, call);
    assert Stored(w, call.repo) + call.quarantine == Stored(w, call.repo);
    CommitKeepsClosed(g, w, w', call.at, call.repo, call.commands);
    CommitKeepsTables(w, w', call.at, TxnOf(w, c));
    Lease.NextKeepsInv(ApplyTxn, w.past[0], w.lease, Lease.Commit(call.at, TxnOf(w, c)));
  }

  lemma CommitKeepsRest(g: Graph, w: World, w': World, c: CallId)
    requires CachesOk(w) && CallsOk(g, w) && MirrorsOk(w) && c in w.calls
    requires w'.store == w.store && w.past <= w'.past && w'.caches == w.caches && w'.mirrors == w.mirrors
    requires w'.calls == w.calls[c := w.calls[c].(stage := Swapped)] && Published(w', w'.calls[c])
    ensures CachesOk(w') && CallsOk(g, w') && MirrorsOk(w')
  {
    CallGrows(g, w, w', w.calls[c]);
    CachesStay(w, w');
    OneCallChanges(g, w, w', c, w'.calls[c]);
    MirrorsStay(w, w');
  }

  lemma CommittedKeepsSafe(g: Graph, w: World, c: CallId)
    requires Safe(g, w) && Enabled(g, w, Swap(c)) && w.calls[c].nonce in w.pushes && CanSwap(w, c)
    ensures Safe(g, Committed(w, c))
  {
    SwapCommits(g, w, c);
    CommitKeepsRest(g, w, Committed(w, c), c);
  }

  lemma SwapKeepsSafe(g: Graph, w: World, c: CallId)
    requires Safe(g, w) && Enabled(g, w, Swap(c))
    ensures Safe(g, NextSwap(w, c))
  {
    if w.calls[c].nonce in w.pushes && CanSwap(w, c) {
      CommittedKeepsSafe(g, w, c);
    } else {
      StageKeepsSafe(g, w, SetStage(w, c, Rejected), c);
    }
  }

  /** Steps that touch one cache and no other part of the state. */
  lemma CacheStepKeepsSafe(g: Graph, w: World, w': World, at: Lease.Id, repo: nat, cache: Cache)
    requires Safe(g, w) && CacheOk(w, repo, cache)
    requires w'.caches == w.caches[(at, repo) := cache]
    requires w'.store == w.store && w'.past == w.past && w'.lease == w.lease && w'.calls == w.calls
    requires w'.mirrors.Keys == w.mirrors.Keys
    requires forall m <- w.mirrors :: w'.mirrors[m] == w.mirrors[m].(written := w'.mirrors[m].written)
    ensures Safe(g, w')
  {
    PastClosedGrows(g, w, w');
    CacheGrows(w, w', repo, cache);
    OneCacheChanges(w, w', at, repo, cache);
    CallsStay(g, w, w');
    forall m <- w'.mirrors ensures MirrorOk(w', w'.mirrors[m]) {
      assert MirrorOk(w, w.mirrors[m]);
    }
  }

  lemma EmptyCacheOk(w: World, at: Lease.Id, repo: nat)
    requires CachesOk(w)
    ensures CacheOk(w, repo, CacheAt(w, at, repo))
  {
  }

  lemma RefWritten(w: World, repo: nat, c: Cache, ref: string, v: string)
    requires CacheOk(w, repo, c) && WasState(w.past, RefKey(repo, ref), v)
    ensures v != "" ==> CacheOk(w, repo, c.(loose := c.loose[ref := v]))
    ensures v == "" ==> CacheOk(w, repo, c.(loose := c.loose - {ref}, packed := c.packed - {ref}))
  {
    forall n ensures c.mirrored && v == "" ==> WasState(w.past, RefKey(repo, n), Look(c.packed - {ref}, n)) {
      assert c.mirrored ==> WasState(w.past, RefKey(repo, n), Look(c.packed, n));
    }
  }

  lemma PackedWritten(w: World, c: Cache, m: Mirror)
    requires CacheOk(w, m.repo, c) && MirrorOk(w, m)
    ensures CacheOk(w, m.repo, c.(packed := m.listed, mirrored := true))
  {
    forall n <- m.listed ensures WasState(w.past, RefKey(m.repo, n), m.listed[n]) {
      assert WasState(w.past, RefKey(m.repo, n), Look(m.listed, n));
    }
  }

  lemma WriteRefCacheOk(g: Graph, w: World, c: CallId, k: nat)
    requires CachesOk(w) && CallsOk(g, w) && Enabled(g, w, WriteRef(c, k))
    ensures CacheOk(w, w.calls[c].repo, RefWrittenTo(w, c, k))
  {
    var call := w.calls[c];
    assert CallOk(g, w, call);
    EmptyCacheOk(w, call.at, call.repo);
    RefWritten(w, call.repo, CacheAt(w, call.at, call.repo), call.commands[k].ref, Normalize(call.commands[k].newSha));
  }

  lemma WriteRefKeepsSafe(g: Graph, w: World, c: CallId, k: nat)
    requires Safe(g, w) && Enabled(g, w, WriteRef(c, k))
    ensures Safe(g, NextWriteRef(w, c, k))
  {
    WriteRefCacheOk(g, w, c, k);
    CacheStepKeepsSafe(g, w, NextWriteRef(w, c, k), w.calls[c].at, w.calls[c].repo, RefWrittenTo(w, c, k));
  }

  lemma WritePackedKeepsSafe(g: Graph, w: World, m: MirrorId)
    requires Safe(g, w) && Enabled(g, w, WritePacked(m))
    ensures Safe(g, NextWritePacked(w, m))
  {
    var x := w.mirrors[m];
    EmptyCacheOk(w, x.at, x.repo);
    PackedWritten(w, CacheAt(w, x.at, x.repo), x);
    CacheStepKeepsSafe(g, w, NextWritePacked(w, m), x.at, x.repo,
                       CacheAt(w, x.at, x.repo).(packed := x.listed, mirrored := true));
  }

  lemma UnlinkKeepsSafe(g: Graph, w: World, m: MirrorId, ref: string)
    requires Safe(g, w) && Enabled(g, w, Unlink(m, ref))
    ensures Safe(g, NextUnlink(w, m, ref))
  {
    var x := w.mirrors[m];
    EmptyCacheOk(w, x.at, x.repo);
    var cache := CacheAt(w, x.at, x.repo);
    CacheStepKeepsSafe(g, w, NextUnlink(w, m, ref), x.at, x.repo, cache.(loose := cache.loose - {ref}));
  }

  /** The rows of any table that was ever committed make a good list for a mirror. */
  lemma ListedIsOk(w: World, t: Table, at: Lease.Id, repo: nat)
    requires t in w.past && WellFormed(t)
    ensures MirrorOk(w, Mirror(at, repo, Rows(t, repo), false))
  {
    forall n ensures WasState(w.past, RefKey(repo, n), Look(Rows(t, repo), n)) {
      var k :| 0 <= k < |w.past| && w.past[k] == t;
      assert Current(w.past[k], RefKey(repo, n)) == Look(Rows(t, repo), n);
    }
  }

  lemma ListRefsKeepsSafe(g: Graph, w: World, m: MirrorId, at: Lease.Id, repo: nat)
    requires Safe(g, w) && Enabled(g, w, ListRefs(m, at, repo))
    ensures Safe(g, NextListRefs(w, m, at, repo))
  {
    var w' := NextListRefs(w, m, at, repo);
    var t := w.lease.nodes[at].table;
    assert TableClosed(g, w, t);
    ListedIsOk(w, t, at, repo);
    PastClosedGrows(g, w, w');
    CachesStay(w, w');
    CallsStay(g, w, w');
    forall d <- w'.mirrors ensures MirrorOk(w', w'.mirrors[d]) {
      if d != m {
        MirrorGrows(w, w', w.mirrors[d]);
      }
    }
  }

  /** Steps that change only pushes and memory. */
  lemma BookkeepingKeepsSafe(g: Graph, w: World, w': World)
    requires Safe(g, w)
    requires w'.store == w.store && w'.past == w.past && w'.lease == w.lease
    requires w'.caches == w.caches && w'.calls == w.calls && w'.mirrors == w.mirrors
    ensures Safe(g, w')
  {
    PastClosedGrows(g, w, w');
    CachesStay(w, w');
    CallsStay(g, w, w');
    MirrorsStay(w, w');
  }

  lemma MigrateKeepsSafe(g: Graph, w: World, c: CallId)
    requires Safe(g, w) && Enabled(g, w, Migrate(c))
    ensures Safe(g, NextMigrate(w, c))
  {
    var call := w.calls[c];
    assert CallOk(g, w, call);
    EmptyCacheOk(w, call.at, call.repo);
    var cache := CacheAt(w, call.at, call.repo);
    CacheStepKeepsSafe(g, w, NextMigrate(w, c), call.at, call.repo,
                       cache.(objects := cache.objects + call.quarantine));
  }

  lemma HydrateKeepsSafe(g: Graph, w: World, at: Lease.Id, repo: nat, x: Oid)
    requires Safe(g, w) && Enabled(g, w, Hydrate(at, repo, x))
    ensures Safe(g, NextHydrate(w, at, repo, x))
  {
    EmptyCacheOk(w, at, repo);
    var cache := CacheAt(w, at, repo);
    CacheStepKeepsSafe(g, w, NextHydrate(w, at, repo, x), at, repo, cache.(objects := cache.objects + {x}));
  }

  /** Of what Safe speaks about, only the stage of call c moves, and not to Swapped. */
  ghost predicate OnlyStageMoves(w: World, w': World, c: CallId) {
    && c in w.calls && c in w'.calls
    && w'.calls == w.calls[c := w.calls[c].(stage := w'.calls[c].stage)]
    && (w'.calls[c].stage in {Swapped, Recorded} ==> w.calls[c].stage in {Swapped, Recorded})
    && w'.store == w.store && w'.past == w.past && w'.lease == w.lease
    && w'.caches == w.caches && w'.mirrors == w.mirrors
  }

  lemma TakeMovesStage(w: World, c: CallId)
    requires c in w.calls
    ensures OnlyStageMoves(w, NextTake(w, c), c)
  {
  }

  lemma FailMovesStage(w: World, c: CallId)
    requires c in w.calls
    ensures OnlyStageMoves(w, SetStage(w, c, Rejected), c)
  {
  }

  lemma RecordMovesStage(w: World, c: CallId)
    requires c in w.calls && w.calls[c].stage == Swapped
    ensures OnlyStageMoves(w, NextRecord(w, c), c)
  {
  }

  lemma StageStepKeepsSafe(g: Graph, w: World, step: Step)
    requires Safe(g, w) && Enabled(g, w, step) && (step.Take? || step.Fail? || step.Record?)
    ensures Safe(g, Next(g, w, step))
  {
    match step {
      case Take(c) => TakeMovesStage(w, c);
      case Fail(c) => FailMovesStage(w, c);
      case Record(c) => RecordMovesStage(w, c);
    }
    StageKeepsSafe(g, w, Next(g, w, step), step.c);
  }

  lemma CallStepKeepsSafe(g: Graph, w: World, step: Step)
    requires Safe(g, w) && Enabled(g, w, step)
    requires step.Check? || step.Put? || step.Swap?
    ensures Safe(g, Next(g, w, step))
  {
    match step
    case Check(_, _, _, _) => CheckKeepsSafe(g, w, step);
    case Put(c, x) => PutKeepsSafe(g, w, c, x);
    case Swap(c) => SwapKeepsSafe(g, w, c);
  }

  lemma MirrorStepKeepsSafe(g: Graph, w: World, step: Step)
    requires Safe(g, w) && Enabled(g, w, step)
    requires step.ListRefs? || step.WritePacked? || step.Unlink?
    ensures Safe(g, Next(g, w, step))
  {
    match step
    case ListRefs(m, at, repo) => ListRefsKeepsSafe(g, w, m, at, repo);
    case WritePacked(m) => WritePackedKeepsSafe(g, w, m);
    case Unlink(m, ref) => UnlinkKeepsSafe(g, w, m, ref);
  }

  lemma DiskStepKeepsSafe(g: Graph, w: World, step: Step)
    requires Safe(g, w) && Enabled(g, w, step)
    requires step.Migrate? || step.Hydrate? || step.WriteRef?
    ensures Safe(g, Next(g, w, step))
  {
    match step
    case Migrate(c) => MigrateKeepsSafe(g, w, c);
    case Hydrate(at, repo, x) => HydrateKeepsSafe(g, w, at, repo, x);
    case WriteRef(c, k) => WriteRefKeepsSafe(g, w, c, k);
  }

  lemma NextKeepsSafe(g: Graph, w: World, step: Step)
    requires Safe(g, w) && Enabled(g, w, step)
    ensures Safe(g, Next(g, w, step))
  {
    match step
    case LeaseStep(ls) => LeaseKeepsSafe(g, w, ls);
    case Begin(_, _, _, _, _) => BookkeepingKeepsSafe(g, w, Next(g, w, step));
    case Fire(_) => BookkeepingKeepsSafe(g, w, Next(g, w, step));
    case Release(_) => BookkeepingKeepsSafe(g, w, Next(g, w, step));
    case Check(_, _, _, _) => CallStepKeepsSafe(g, w, step);
    case Take(_) => StageStepKeepsSafe(g, w, step);
    case Put(_, _) => CallStepKeepsSafe(g, w, step);
    case Fail(_) => StageStepKeepsSafe(g, w, step);
    case Swap(_) => CallStepKeepsSafe(g, w, step);
    case Record(_) => StageStepKeepsSafe(g, w, step);
    case ListRefs(_, _, _) => MirrorStepKeepsSafe(g, w, step);
    case WritePacked(_) => MirrorStepKeepsSafe(g, w, step);
    case Unlink(_, _) => MirrorStepKeepsSafe(g, w, step);
    case _ => DiskStepKeepsSafe(g, w, step);
  }
}
