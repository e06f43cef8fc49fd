/**
 Who was let through, and what was recorded: nonces, the per-repo lock, the outcome of each
 push and the list of commits, over every run of PushSystem.
 */
module PushLedger {
  import opened Wrappers
  import opened Objects
  import opened Refs
  import opened Hook
  import opened PushSystem
  import Lease

  // ---------- The invariant ----------

  /** A registered nonce belongs to a live push that no hook call has claimed. */
  ghost predicate RegisteredOk(w: World) {
    forall i <- w.memory :: forall n <- w.memory[i].registered ::
      Live(w, n) && w.pushes[n].at == i && w.pushes[n].taken.None?
  }

  ghost predicate LockedOk(w: World) {
    forall i <- w.memory :: forall r <- w.memory[i].locked ::
      var n := w.memory[i].locked[r];
      n in w.pushes && w.pushes[n].at == i && w.pushes[n].repo == r
  }

  /** What a call's stage says about the push it speaks for. */
  ghost predicate StageOk(p: Push, c: CallId, call: Call) {
    match call.stage
    case Checked => p.taken != Some(c)
    case Refused => true
    case Rejected => p.taken == Some(c) && p.committed.None?
    case Putting => p.taken == Some(c) && p.committed.None? && Guarded(p.branch, p.admin, call.commands)
    case Swapped => p.taken == Some(c) && p.committed == Some(call.commands) && p.outcome == []
    case Recorded => p.taken == Some(c) && p.committed == Some(call.commands)
  }

  ghost predicate CallOk(g: Graph, w: World, c: CallId, call: Call) {
    && call.nonce in w.pushes
    && call.at == w.pushes[call.nonce].at
    && call.repo == w.pushes[call.nonce].repo
    && call.commands != []
    && (forall x <- call.commands :: Honest(g, x))
    && StageOk(w.pushes[call.nonce], c, call)
  }

  ghost predicate CallsOk(g: Graph, w: World) {
    forall c <- w.calls :: CallOk(g, w, c, w.calls[c])
  }

  ghost predicate PushOk(p: Push) {
    && (p.taken.None? ==> p.committed.None?)
    && (p.committed.None? ==> p.outcome == [])
    && (p.committed.Some? ==> p.outcome == [] || p.outcome == Infos(p.repo, p.committed.value))
    && (p.fired.Some? ==> p.fired.value == [] || p.fired.value == p.outcome)
  }

  ghost predicate PushesOk(w: World) {
    forall n <- w.pushes :: PushOk(w.pushes[n])
  }

  /** A commit carries what its push was known by, passed the guard, and was flagged honestly. */
  ghost predicate TxnOk(g: Graph, w: World, x: Txn) {
    && x.nonce in w.pushes
    && w.pushes[x.nonce].committed == Some(x.commands)
    && w.pushes[x.nonce].repo == x.repo
    && Guarded(x.branch, x.admin, x.commands)
    && forall c <- x.commands :: Honest(g, c)
  }

  ghost predicate CommitsOk(g: Graph, w: World) {
    && (forall x <- w.lease.all :: TxnOk(g, w, x))
    && (forall x <- w.lease.log :: x in w.lease.all)
    && (forall j, k | 0 <= j < k < |w.lease.all| :: w.lease.all[j].nonce != w.lease.all[k].nonce)
    && (forall n <- w.pushes | w.pushes[n].committed.Some? :: exists x <- w.lease.all :: x.nonce == n)
  }

  /** Every surviving commit was accepted against the table its predecessors left. */
  ghost predicate LogAccepted(t: Table, log: seq<Txn>) {
    forall k | 0 <= k < |log| ::
      CasFold(Lease.Fold(ApplyTxn, t, log[..k]), Updates(log[k].repo, log[k].commands)).Success?
  }

  ghost predicate Ledger(g: Graph, w: World) {
    && Records(w)
    && CallsOk(g, w)
    && CommitsOk(g, w)
  }

  ghost predicate Records(w: World) {
    RegisteredOk(w) && LockedOk(w) && PushesOk(w)
  }

  // ---------- Frames ----------

  /** Pushes keep what other records say about them. */
  ghost predicate PushesKeep(w: World, w': World) {
    forall n <- w.pushes ::
      && n in w'.pushes
      && w'.pushes[n].committed == w.pushes[n].committed
      && w'.pushes[n].repo == w.pushes[n].repo
  }

  lemma CommitsStay(g: Graph, w: World, w': World)
    requires CommitsOk(g, w) && PushesKeep(w, w')
    requires forall n <- w'.pushes :: n in w.pushes || w'.pushes[n].committed.None?
    requires w'.lease.all == w.lease.all && w'.lease.log <= w.lease.log
    ensures CommitsOk(g, w')
  {
    forall x <- w'.lease.all ensures TxnOk(g, w', x) {
      assert TxnOk(g, w, x);
    }
    forall n <- w'.pushes | w'.pushes[n].committed.Some? ensures exists x <- w'.lease.all :: x.nonce == n {
      assert n in w.pushes;
    }
  }

  lemma CallsStay(g: Graph, w: World, w': World)
    requires CallsOk(g, w)
    requires forall c <- w'.calls :: c in w.calls && w'.calls[c] == w.calls[c]
    requires forall n <- w.pushes ::
      && n in w'.pushes
      && w'.pushes[n] == w.pushes[n].(fired := w'.pushes[n].fired, released := w'.pushes[n].released)
    ensures CallsOk(g, w')
  {
    forall c <- w'.calls ensures CallOk(g, w', c, w'.calls[c]) {
      assert CallOk(g, w, c, w.calls[c]);
    }
  }

  /** One call moves on, and with it the push it speaks for. */
  lemma OneCallMoves(g: Graph, w: World, w': World, c: CallId, call: Call, p: Push)
    requires CallsOk(g, w) && call.nonce in w.pushes
    requires w'.calls == w.calls[c := call] && w'.pushes == w.pushes[call.nonce := p]
    requires p.at == w.pushes[call.nonce].at && p.repo == w.pushes[call.nonce].repo
    requires CallOk(g, w', c, call)
    requires forall d <- w.calls | d != c && w.calls[d].nonce == call.nonce :: StageOk(p, d, w.calls[d])
    ensures CallsOk(g, w')
  {
    forall d <- w'.calls ensures CallOk(g, w', d, w'.calls[d]) {
      if d != c {
        assert CallOk(g, w, d, w.calls[d]);
      }
    }
  }

  // ---------- Steps ----------

  lemma LeaseKeepsLedger(g: Graph, w: World, ls: Lease.Step<Txn>)
    requires Ledger(g, w) && !ls.Commit? && Lease.Enabled(w.lease, ls)
    ensures Ledger(g, NextLease(w, ls))
  {
    CallsStay(g, w, NextLease(w, ls));
    CommitsStay(g, w, NextLease(w, ls));
  }

  lemma BeginKeepsRecords(w: World, n: Nonce, at: Lease.Id, repo: nat, branch: string, admin: bool)
    requires Records(w) && n !in w.pushes && at in w.memory && repo !in w.memory[at].locked
    ensures Records(NextBegin(w, n, at, repo, branch, admin))
  {
  }

  lemma BeginKeepsLedger(g: Graph, w: World, n: Nonce, at: Lease.Id, repo: nat, branch: string, admin: bool)
    requires Ledger(g, w) && n !in w.pushes && at in w.memory && repo !in w.memory[at].locked
    ensures Ledger(g, NextBegin(w, n, at, repo, branch, admin))
  {
    BeginKeepsRecords(w, n, at, repo, branch, admin);
    CallsStay(g, w, NextBegin(w, n, at, repo, branch, admin));
    CommitsStay(g, w, NextBegin(w, n, at, repo, branch, admin));
  }

  lemma ReleaseKeepsRecords(w: World, n: Nonce)
    requires Records(w) && Live(w, n)
    ensures Records(NextRelease(w, n))
  {
  }

  lemma ReleaseKeepsLedger(g: Graph, w: World, n: Nonce)
    requires Ledger(g, w) && Live(w, n)
    ensures Ledger(g, NextRelease(w, n))
  {
    ReleaseKeepsRecords(w, n);
    CallsStay(g, w, NextRelease(w, n));
    CommitsStay(g, w, NextRelease(w, n));
  }

  lemma FireKeepsRecords(w: World, n: Nonce)
    requires Records(w) && n in w.pushes && w.pushes[n].fired.None?
    ensures Records(NextFire(w, n))
  {
    assert PushOk(w.pushes[n]);
  }

  lemma FireKeepsLedger(g: Graph, w: World, n: Nonce)
    requires Ledger(g, w) && Live(w, n) && w.pushes[n].fired.None?
    ensures Ledger(g, NextFire(w, n))
  {
    FireKeepsRecords(w, n);
    CallsStay(g, w, NextFire(w, n));
    CommitsStay(g, w, NextFire(w, n));
  }

  lemma CheckKeepsLedger(g: Graph, w: World, step: Step)
    requires Ledger(g, w) && step.Check? && Enabled(g, w, step)
    ensures Ledger(g, Next(g, w, step))
  {
    var w' := Next(g, w, step);
    OneCallMoves(g, w, w', step.c, w'.calls[step.c], w.pushes[step.n]);
    CommitsStay(g, w, w');
  }

  lemma TakenKeepsRecords(w: World, c: CallId)
    requires Records(w) && c in w.calls && HoldsNonce(w, c)
    ensures Records(Taken(w, c))
  {
  }

  lemma TakenKeepsCalls(g: Graph, w: World, c: CallId)
    requires RegisteredOk(w) && PushesOk(w) && CallsOk(g, w) && Enabled(g, w, Take(c)) && HoldsNonce(w, c)
    ensures CallsOk(g, Taken(w, c))
  {
    var w' := Taken(w, c);
    var n := w.calls[c].nonce;
    assert CallOk(g, w, c, w.calls[c]) && PushOk(w.pushes[n]);
    forall d <- w.calls | d != c && w.calls[d].nonce == n ensures StageOk(w'.pushes[n], d, w.calls[d]) {
      assert CallOk(g, w, d, w.calls[d]);
    }
    OneCallMoves(g, w, w', c, w'.calls[c], w'.pushes[n]);
  }

  lemma TakenKeepsCommits(g: Graph, w: World, c: CallId)
    requires CommitsOk(g, w) && c in w.calls && HoldsNonce(w, c)
    ensures CommitsOk(g, Taken(w, c))
  {
    CommitsStay(g, w, Taken(w, c));
  }

  lemma TakenKeepsLedger(g: Graph, w: World, c: CallId)
    requires Ledger(g, w) && Enabled(g, w, Take(c)) && HoldsNonce(w, c)
    ensures Ledger(g, Taken(w, c))
  {
    TakenKeepsRecords(w, c);
    TakenKeepsCalls(g, w, c);
    TakenKeepsCommits(g, w, c);
  }

  lemma TakeKeepsLedger(g: Graph, w: World, c: CallId)
    requires Ledger(g, w) && Enabled(g, w, Take(c))
    ensures Ledger(g, NextTake(w, c))
  {
    if HoldsNonce(w, c) {
      TakenKeepsLedger(g, w, c);
    } else {
      StopKeepsLedger(g, w, c, Refused);
    }
  }

  lemma PutKeepsLedger(g: Graph, w: World, c: CallId, x: Oid)
    requires Ledger(g, w) && Enabled(g, w, Put(c, x))
    ensures Ledger(g, NextPut(w, c, x))
  {
    var w' := NextPut(w, c, x);
    assert CallOk(g, w, c, w.calls[c]);
    assert w'.pushes == w.pushes && w'.memory == w.memory && w'.lease == w.lease;
    OneCallMoves(g, w, w', c, w'.calls[c], w.pushes[w.calls[c].nonce]);
    CommitsStay(g, w, w');
  }

  /** A call that goes no further leaves the push as it is. */
  lemma StopKeepsLedger(g: Graph, w: World, c: CallId, stage: Stage)
    requires Ledger(g, w) && c in w.calls
    requires stage == Refused || (stage == Rejected && w.calls[c].stage == Putting)
    ensures Ledger(g, SetStage(w, c, stage))
  {
    var w' := SetStage(w, c, stage);
    assert CallOk(g, w, c, w.calls[c]);
    OneCallMoves(g, w, w', c, w'.calls[c], w.pushes[w.calls[c].nonce]);
    CommitsStay(g, w, w');
  }

  lemma CommitExtendsCommits(g: Graph, w: World, c: CallId)
    requires CommitsOk(g, w) && c in w.calls && CallOk(g, w, c, w.calls[c]) && w.calls[c].stage == Putting
    requires CanSwap(w, c)
    ensures CommitsOk(g, Committed(w, c))
  {
    var w' := Committed(w, c);
    var x := TxnOf(w, c);
    assert w'.lease.all == w.lease.all + [x] && w'.lease.log == w.lease.log + [x];
    forall y <- w.lease.all ensures TxnOk(g, w', y) && y.nonce != x.nonce {
      assert TxnOk(g, w, y);
    }
    forall n <- w'.pushes | w'.pushes[n].committed.Some? ensures exists y <- w'.lease.all :: y.nonce == n {
      if n == x.nonce {
        assert x in w'.lease.all;
      } else {
        var y :| y in w.lease.all && y.nonce == n;
        assert y in w'.lease.all;
      }
    }
  }

  lemma CommittedKeepsRecords(g: Graph, w: World, c: CallId)
    requires Records(w) && c in w.calls && CallOk(g, w, c, w.calls[c]) && w.calls[c].stage == Putting
    requires CanSwap(w, c)
    ensures Records(Committed(w, c))
  {
    assert PushOk(w.pushes[w.calls[c].nonce]);
  }

  lemma CommittedKeepsCalls(g: Graph, w: World, c: CallId)
    requires Records(w) && CallsOk(g, w) && Enabled(g, w, Swap(c)) && CanSwap(w, c)
    requires w.calls[c].nonce in w.pushes
    ensures CallsOk(g, Committed(w, c))
  {
    var w' := Committed(w, c);
    var n := w.calls[c].nonce;
    assert CallOk(g, w, c, w.calls[c]) && PushOk(w.pushes[n]);
    forall d <- w.calls | d != c && w.calls[d].nonce == n ensures StageOk(w'.pushes[n], d, w.calls[d]) {
      assert CallOk(g, w, d, w.calls[d]);
    }
    OneCallMoves(g, w, w', c, w'.calls[c], w'.pushes[n]);
  }

  lemma CommittedKeepsLedger(g: Graph, w: World, c: CallId)
    requires Ledger(g, w) && Enabled(g, w, Swap(c)) && CanSwap(w, c) && w.calls[c].nonce in w.pushes
    ensures Ledger(g, Committed(w, c))
  {
    assert CallOk(g, w, c, w.calls[c]);
    CommittedKeepsRecords(g, w, c);
    CommittedKeepsCalls(g, w, c);
    CommitExtendsCommits(g, w, c);
  }

  lemma SwapKeepsLedger(g: Graph, w: World, c: CallId)
    requires Ledger(g, w) && Enabled(g, w, Swap(c))
    ensures Ledger(g, NextSwap(w, c))
  {
    if w.calls[c].nonce in w.pushes && CanSwap(w, c) {
      CommittedKeepsLedger(g, w, c);
    } else {
      StopKeepsLedger(g, w, c, Rejected);
    }
  }

  lemma RecordKeepsRecords(g: Graph, w: World, c: CallId)
    requires Records(w) && c in w.calls && CallOk(g, w, c, w.calls[c]) && w.calls[c].stage == Swapped
    ensures Records(NextRecord(w, c))
  {
    assert PushOk(w.pushes[w.calls[c].nonce]);
  }

  lemma RecordKeepsCalls(g: Graph, w: World, c: CallId)
    requires CallsOk(g, w) && c in w.calls && w.calls[c].stage == Swapped
    ensures CallsOk(g, NextRecord(w, c))
  {
    var w' := NextRecord(w, c);
    var n := w.calls[c].nonce;
    assert CallOk(g, w, c, w.calls[c]);
    forall d <- w.calls | d != c && w.calls[d].nonce == n ensures StageOk(w'.pushes[n], d, w.calls[d]) {
      assert CallOk(g, w, d, w.calls[d]);
    }
    OneCallMoves(g, w, w', c, w'.calls[c], w'.pushes[n]);
  }

  lemma RecordKeepsLedger(g: Graph, w: World, c: CallId)
    requires Ledger(g, w) && Enabled(g, w, Record(c))
    ensures Ledger(g, NextRecord(w, c))
  {
    assert CallOk(g, w, c, w.calls[c]);
    RecordKeepsRecords(g, w, c);
    RecordKeepsCalls(g, w, c);
    CommitsStay(g, w, NextRecord(w, c));
  }

  /** Steps on disks and mirrors leave the ledger alone. */
  lemma DiskKeepsLedger(g: Graph, w: World, w': World)
    requires Ledger(g, w)
    requires w'.lease == w.lease && w'.memory == w.memory && w'.pushes == w.pushes && w'.calls == w.calls
    ensures Ledger(g, w')
  {
    CallsStay(g, w, w');
    CommitsStay(g, w, w');
  }

  lemma CallStepKeepsLedger(g: Graph, w: World, step: Step)
    requires Ledger(g, w) && Enabled(g, w, step)
    requires step.Check? || step.Take? || step.Put? || step.Fail? || step.Swap? || step.Record?
    ensures Ledger(g, Next(g, w, step))
  {
    match step
    case Check(_, _, _, _) => CheckKeepsLedger(g, w, step);
    case Take(c) => TakeKeepsLedger(g, w, c);
    case Put(c, x) => PutKeepsLedger(g, w, c, x);
    case Fail(c) => StopKeepsLedger(g, w, c, Rejected);
    case Swap(c) => SwapKeepsLedger(g, w, c);
    case Record(c) => RecordKeepsLedger(g, w, c);
  }

  predicate IsDiskStep(step: Step) {
    step.Migrate? || step.WriteRef? || step.Hydrate? || step.ListRefs? || step.WritePacked? || step.Unlink?
  }

  predicate IsPushStep(step: Step) {
    step.LeaseStep? || step.Begin? || step.Fire? || step.Release?
  }

  lemma DiskStepKeepsLedger(g: Graph, w: World, step: Step)
    requires Ledger(g, w) && Enabled(g, w, step) && IsDiskStep(step)
    ensures Ledger(g, Next(g, w, step))
  {
    DiskKeepsLedger(g, w, Next(g, w, step));
  }

  lemma PushStepKeepsLedger(g: Graph, w: World, step: Step)
    requires Ledger(g, w) && Enabled(g, w, step) && IsPushStep(step)
    ensures Ledger(g, Next(g, w, step))
  {
    match step
    case LeaseStep(ls) => LeaseKeepsLedger(g, w, ls);
    case Begin(n, at, repo, branch, admin) => BeginKeepsLedger(g, w, n, at, repo, branch, admin);
    case Fire(n) => FireKeepsLedger(g, w, n);
    case Release(n) => ReleaseKeepsLedger(g, w, n);
  }

  lemma NextKeepsLedger(g: Graph, w: World, step: Step)
    requires Ledger(g, w) && Enabled(g, w, step)
    ensures Ledger(g, Next(g, w, step))
  {
    if IsDiskStep(step) {
      DiskStepKeepsLedger(g, w, step);
    } else if IsPushStep(step) {
      PushStepKeepsLedger(g, w, step);
    } else {
      CallStepKeepsLedger(g, w, step);
    }
  }
}
