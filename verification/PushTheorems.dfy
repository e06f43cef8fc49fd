/** What the write path promises, over every run from an initial state. */
module PushTheorems {
  import opened Wrappers
  import opened Objects
  import opened Refs
  import opened Hook
  import opened PushSystem
  import opened PushSafety
  import Ledgers = PushLedger
  import Lease

  /** No instance yet; the replica holds some closed ref table. */
  ghost predicate Initial(g: Graph, w: World) {
    && |w.past| == 1
    && w.lease == Lease.Init(w.past[0])
    && TableClosed(g, w, w.past[0])
    && w.caches == map[] && w.memory == map[] && w.pushes == map[] && w.calls == map[] && w.mirrors == map[]
  }

  ghost predicate Runs(g: Graph, w: World, steps: seq<Step>, w': World)
    decreases |steps|
  {
    if steps == [] then w' == w
    else Enabled(g, w, steps[0]) && Runs(g, Next(g, w, steps[0]), steps[1..], w')
  }

  ghost predicate Inv(g: Graph, w: World) {
    Safe(g, w) && Ledgers.Ledger(g, w) && Ledgers.LogAccepted(w.past[0], w.lease.log)
  }

  lemma InitialInv(g: Graph, w: World)
    requires Initial(g, w)
    ensures Inv(g, w)
  {
    assert w.lease.log[..0] == [];
    assert w.past[0] in w.past;
  }

  lemma LogStaysAccepted(t: Table, log: seq<Txn>, log': seq<Txn>)
    requires Ledgers.LogAccepted(t, log) && log' <= log
    ensures Ledgers.LogAccepted(t, log')
  {
    forall k | 0 <= k < |log'|
      ensures CasFold(Lease.Fold(ApplyTxn, t, log'[..k]), Updates(log'[k].repo, log'[k].commands)).Success?
    {
      assert log'[..k] == log[..k];
    }
  }

  lemma LogAcceptsOne(t: Table, log: seq<Txn>, x: Txn)
    requires Ledgers.LogAccepted(t, log)
    requires CasFold(Lease.Fold(ApplyTxn, t, log), Updates(x.repo, x.commands)).Success?
    ensures Ledgers.LogAccepted(t, log + [x])
  {
    forall k | 0 <= k < |log + [x]|
      ensures CasFold(Lease.Fold(ApplyTxn, t, (log + [x])[..k]),
                      Updates((log + [x])[k].repo, (log + [x])[k].commands)).Success?
    {
      if k < |log| {
        assert (log + [x])[..k] == log[..k];
      } else {
        assert (log + [x])[..k] == log;
      }
    }
  }

  /** Only lease steps and swaps touch the metadata. */
  lemma MetadataStays(g: Graph, w: World, step: Step)
    requires Enabled(g, w, step) && !step.LeaseStep? && !step.Swap?
    ensures Next(g, w, step).lease == w.lease && Next(g, w, step).past == w.past
  {
    match step
    case Begin(_, _, _, _, _) =>
    case Check(_, _, _, _) =>
    case Take(_) =>
    case Put(_, _) =>
    case Fail(_) =>
    case Record(_) =>
    case Migrate(_) =>
    case WriteRef(_, _) =>
    case Fire(_) =>
    case Release(_) =>
    case Hydrate(_, _, _) =>
    case ListRefs(_, _, _) =>
    case WritePacked(_) =>
    case Unlink(_, _) =>
  }

  lemma LeaseKeepsLogAccepted(w: World, ls: Lease.Step<Txn>)
    requires w.past != [] && Lease.Inv(ApplyTxn, w.past[0], w.lease)
    requires Ledgers.LogAccepted(w.past[0], w.lease.log) && !ls.Commit? && Lease.Enabled(w.lease, ls)
    ensures NextLease(w, ls).past == w.past
    ensures Ledgers.LogAccepted(w.past[0], NextLease(w, ls).lease.log)
  {
    Lease.NextTables(ApplyTxn, w.past[0], w.lease, ls);
    LogStaysAccepted(w.past[0], w.lease.log, NextLease(w, ls).lease.log);
  }

  lemma SwapKeepsLogAccepted(w: World, c: CallId)
    requires w.past != [] && Lease.Inv(ApplyTxn, w.past[0], w.lease)
    requires Ledgers.LogAccepted(w.past[0], w.lease.log) && c in w.calls
    ensures w.past <= NextSwap(w, c).past
    ensures Ledgers.LogAccepted(w.past[0], NextSwap(w, c).lease.log)
  {
    if w.calls[c].nonce in w.pushes && CanSwap(w, c) {
      LogAcceptsOne(w.past[0], w.lease.log, TxnOf(w, c));
    }
  }

  lemma NextKeepsLogAccepted(g: Graph, w: World, step: Step)
    requires w.past != [] && Lease.Inv(ApplyTxn, w.past[0], w.lease)
    requires Ledgers.LogAccepted(w.past[0], w.lease.log) && Enabled(g, w, step)
    ensures w.past <= Next(g, w, step).past
    ensures Ledgers.LogAccepted(w.past[0], Next(g, w, step).lease.log)
  {
    match step
    case LeaseStep(ls) => LeaseKeepsLogAccepted(w, ls);
    case Swap(c) => SwapKeepsLogAccepted(w, c);
    case _ => MetadataStays(g, w, step);
  }

  lemma NextKeepsInv(g: Graph, w: World, step: Step)
    requires Inv(g, w) && Enabled(g, w, step)
    ensures Inv(g, Next(g, w, step))
  {
    NextKeepsSafe(g, w, step);
    Ledgers.NextKeepsLedger(g, w, step);
    NextKeepsLogAccepted(g, w, step);
  }

  lemma {:induction false} RunKeepsInv(g: Graph, w: World, steps: seq<Step>, w': World)
    requires Inv(g, w) && Runs(g, w, steps, w')
    ensures Inv(g, w') && w'.past != [] && w'.past[0] == w.past[0]
    decreases |steps|
  {
    if steps != [] {
      NextKeepsLogAccepted(g, w, steps[0]);
      NextKeepsInv(g, w, steps[0]);
      RunKeepsInv(g, Next(g, w, steps[0]), steps[1..], w');
    }
  }

  lemma Reached(g: Graph, w0: World, steps: seq<Step>, w: World)
    requires Initial(g, w0) && Runs(g, w0, steps, w)
    ensures Inv(g, w) && w.past != [] && w.past[0] == w0.past[0]
  {
    InitialInv(g, w0);
    RunKeepsInv(g, w0, steps, w);
  }

  // ---------- No ref dangles ----------

  /**
   In every reachable state, every row of every instance's table (the holder's and every
   follower's snapshot) and of the replica names an object whose whole closure is in the
   store; so does every ref on every instance's disk.
   */
  lemma RefsNeverDangle(g: Graph, w0: World, steps: seq<Step>, w: World)
    requires Initial(g, w0) && Runs(g, w0, steps, w)
    ensures forall i <- w.lease.nodes :: TableClosed(g, w, w.lease.nodes[i].table)
    ensures TableClosed(g, w, w.lease.replica)
    ensures forall at, repo, n | (at, repo) in w.caches && n in w.caches[(at, repo)].loose ::
              ClosedIn(g, Stored(w, repo), w.caches[(at, repo)].loose[n])
    ensures forall at, repo, n | (at, repo) in w.caches && n in w.caches[(at, repo)].packed ::
              ClosedIn(g, Stored(w, repo), w.caches[(at, repo)].packed[n])
  {
    Reached(g, w0, steps, w);
    assert w.lease.replica in w.past;
    forall at, repo, n | (at, repo) in w.caches && n in w.caches[(at, repo)].loose
      ensures ClosedIn(g, Stored(w, repo), w.caches[(at, repo)].loose[n])
    {
      CommittedIsClosed(g, w, RefKey(repo, n), w.caches[(at, repo)].loose[n]);
    }
    forall at, repo, n | (at, repo) in w.caches && n in w.caches[(at, repo)].packed
      ensures ClosedIn(g, Stored(w, repo), w.caches[(at, repo)].packed[n])
    {
      CommittedIsClosed(g, w, RefKey(repo, n), w.caches[(at, repo)].packed[n]);
    }
  }

  // ---------- What a cache shows ----------

  /** A reader looks for the loose file first and, if there is none, in packed-refs later. */
  function ReadRef(first: Cache, later: Cache, n: string): string {
    if n in first.loose then first.loose[n] else Look(later.packed, n)
  }

  lemma {:induction false} RunGrows(g: Graph, w: World, steps: seq<Step>, w': World, at: Lease.Id, repo: nat)
    requires Runs(g, w, steps, w')
    ensures w.past <= w'.past
    ensures CacheAt(w, at, repo).mirrored ==> CacheAt(w', at, repo).mirrored
    decreases |steps|
  {
    if steps != [] {
      StepGrows(g, w, steps[0], at, repo);
      RunGrows(g, Next(g, w, steps[0]), steps[1..], w', at, repo);
    }
  }

  lemma StepGrows(g: Graph, w: World, step: Step, at: Lease.Id, repo: nat)
    requires Enabled(g, w, step)
    ensures w.past <= Next(g, w, step).past
    ensures CacheAt(w, at, repo).mirrored ==> CacheAt(Next(g, w, step), at, repo).mirrored
  {
    match step
    case LeaseStep(ls) => LeaseStepKeepsCaches(w, ls);
    case Swap(c) => SwapKeepsCaches(w, c);
    case _ =>
      MetadataStays(g, w, step);
      CacheStaysMirrored(g, w, step, at, repo);
  }

  lemma LeaseStepKeepsCaches(w: World, ls: Lease.Step<Txn>)
    requires Lease.Enabled(w.lease, ls)
    ensures NextLease(w, ls).past == w.past && NextLease(w, ls).caches == w.caches
  {
  }

  lemma SwapKeepsCaches(w: World, c: CallId)
    requires c in w.calls
    ensures w.past <= NextSwap(w, c).past && NextSwap(w, c).caches == w.caches
  {
  }

  lemma CacheStaysMirrored(g: Graph, w: World, step: Step, at: Lease.Id, repo: nat)
    requires Enabled(g, w, step) && !step.LeaseStep? && !step.Swap?
    ensures CacheAt(w, at, repo).mirrored ==> CacheAt(Next(g, w, step), at, repo).mirrored
  {
  }

  /**
   However mirrors, pushes, handoffs and the reader interleave, what a reader gets for a ref
   from a cache that has been mirrored, absence included, is a state in which that ref was
   committed at some earlier time.
   */
  lemma CacheShowsCommitted(
    g: Graph, w0: World, s1: seq<Step>, w1: World, s2: seq<Step>, w2: World,
    at: Lease.Id, repo: nat, n: string)
    requires Initial(g, w0) && Runs(g, w0, s1, w1) && Runs(g, w1, s2, w2)
    requires CacheAt(w1, at, repo).mirrored
    ensures WasState(w2.past, RefKey(repo, n), ReadRef(CacheAt(w1, at, repo), CacheAt(w2, at, repo), n))
  {
    Reached(g, w0, s1, w1);
    RunKeepsInv(g, w1, s2, w2);
    RunGrows(g, w1, s2, w2, at, repo);
    assert CacheOk(w1, repo, CacheAt(w1, at, repo));
    assert CacheOk(w2, repo, CacheAt(w2, at, repo));
    if n in CacheAt(w1, at, repo).loose {
      WasStateGrows(w1.past, w2.past, RefKey(repo, n), CacheAt(w1, at, repo).loose[n]);
    }
  }

  // ---------- Nonces and the after-commit hook ----------

  /** One entry for each command, with its repository, ref, old and new value. */
  predicate AreCommands(infos: seq<CommitInfo>, repo: nat, cs: seq<Command>) {
    && |infos| == |cs|
    && forall j | 0 <= j < |infos| ::
         && infos[j].repo == repo && infos[j].ref == cs[j].ref
         && infos[j].oldSha == cs[j].oldSha && infos[j].newSha == cs[j].newSha
  }

  ghost predicate NoneOrCommitted(w: World, n: Nonce, infos: seq<CommitInfo>) {
    infos != [] ==>
      exists k | 0 <= k < |w.lease.all| ::
        w.lease.all[k].nonce == n && AreCommands(infos, w.lease.all[k].repo, w.lease.all[k].commands)
  }

  /**
   An instance has at most one nonce registered per repository; a nonce has been accepted by at
   most one hook call and has made at most one commit; and what is recorded for a push, as what
   the after-commit hook got for it, is nothing or exactly the updates of that commit.
   */
  ghost predicate NoncesDecide(w: World) {
    && (forall i <- w.memory :: forall n1 <- w.memory[i].registered, n2 <- w.memory[i].registered ::
          n1 in w.pushes && n2 in w.pushes && (w.pushes[n1].repo == w.pushes[n2].repo ==> n1 == n2))
    && (forall c1 <- w.calls, c2 <- w.calls
          | w.calls[c1].nonce == w.calls[c2].nonce
            && w.calls[c1].stage !in {Checked, Refused} && w.calls[c2].stage !in {Checked, Refused} ::
          c1 == c2)
    && (forall n <- w.pushes ::
          && NoneOrCommitted(w, n, w.pushes[n].outcome)
          && (w.pushes[n].fired.Some? ==> NoneOrCommitted(w, n, w.pushes[n].fired.value)))
    && (forall j, k | 0 <= j < k < |w.lease.all| :: w.lease.all[j].nonce != w.lease.all[k].nonce)
  }

  lemma LedgerDecides(g: Graph, w: World)
    requires Ledgers.Ledger(g, w)
    ensures NoncesDecide(w)
  {
    OneNoncePerRepo(g, w);
    OneCallPerNonce(g, w);
    OutcomesAreCommitted(g, w);
  }

  lemma NoncesAndOutcomes(g: Graph, w0: World, steps: seq<Step>, w: World)
    requires Initial(g, w0) && Runs(g, w0, steps, w)
    ensures NoncesDecide(w)
  {
    Reached(g, w0, steps, w);
    LedgerDecides(g, w);
  }

  /** So in full: the after-commit hook is told each ref with the old and the new value that were committed. */
  lemma FiredIsCommitted(g: Graph, w0: World, steps: seq<Step>, w: World, n: Nonce)
    requires Initial(g, w0) && Runs(g, w0, steps, w) && n in w.pushes && w.pushes[n].fired.Some?
    ensures
      var infos := w.pushes[n].fired.value;
      infos != [] ==>
        exists k | 0 <= k < |w.lease.all| ::
          && w.lease.all[k].nonce == n && |infos| == |w.lease.all[k].commands|
          && forall j | 0 <= j < |infos| ::
               && infos[j].repo == w.lease.all[k].repo && infos[j].ref == w.lease.all[k].commands[j].ref
               && infos[j].oldSha == w.lease.all[k].commands[j].oldSha
               && infos[j].newSha == w.lease.all[k].commands[j].newSha
  {
    NoncesAndOutcomes(g, w0, steps, w);
    assert NoneOrCommitted(w, n, w.pushes[n].fired.value);
  }

  /** And in the table that a surviving commit leaves, each of its refs has the last new value it was given. */
  lemma CommitSetsRows(g: Graph, w0: World, steps: seq<Step>, w: World, i: nat, k: nat)
    requires Initial(g, w0) && Runs(g, w0, steps, w) && i < |w.lease.log|
    requires LastOfRef(w.lease.log[i].commands, k)
    ensures
      var x := w.lease.log[i];
      Current(Lease.Fold(ApplyTxn, w0.past[0], w.lease.log[..i + 1]), RefKey(x.repo, x.commands[k].ref))
      == Normalize(x.commands[k].newSha)
  {
    Reached(g, w0, steps, w);
    var x := w.lease.log[i];
    var t := Lease.Fold(ApplyTxn, w0.past[0], w.lease.log[..i]);
    assert t in w.past && TableClosed(g, w, t);
    assert w.lease.log[..i + 1][..i] == w.lease.log[..i];
    AcceptedSetsRow(t, x.repo, x.commands, k);
  }

  lemma AcceptedSetsRow(t: Table, repo: nat, cs: seq<Command>, k: nat)
    requires WellFormed(t) && CasFold(t, Updates(repo, cs)).Success? && LastOfRef(cs, k)
    ensures Current(CasFold(t, Updates(repo, cs)).value, RefKey(repo, cs[k].ref)) == Normalize(cs[k].newSha)
  {
    CasFoldIsPositional(t, Updates(repo, cs));
    LastCommandWins(t, repo, cs, k, |cs|);
  }

  lemma OneNoncePerRepo(g: Graph, w: World)
    requires Ledgers.RegisteredOk(w)
    ensures forall i <- w.memory :: forall n1 <- w.memory[i].registered, n2 <- w.memory[i].registered ::
              n1 in w.pushes && n2 in w.pushes && (w.pushes[n1].repo == w.pushes[n2].repo ==> n1 == n2)
  {
    forall i <- w.memory, n <- w.memory[i].registered ensures Live(w, n) && w.pushes[n].at == i {
    }
  }

  lemma OneCallPerNonce(g: Graph, w: World)
    requires Ledgers.CallsOk(g, w)
    ensures forall c1 <- w.calls, c2 <- w.calls
              | w.calls[c1].nonce == w.calls[c2].nonce
                && w.calls[c1].stage !in {Checked, Refused} && w.calls[c2].stage !in {Checked, Refused} ::
              c1 == c2
  {
    forall c <- w.calls | w.calls[c].stage !in {Checked, Refused}
      ensures w.calls[c].nonce in w.pushes && w.pushes[w.calls[c].nonce].taken == Some(c)
    {
      assert Ledgers.CallOk(g, w, c, w.calls[c]);
    }
  }

  lemma OutcomeIsCommitted(g: Graph, w: World, n: Nonce)
    requires Ledgers.PushesOk(w) && Ledgers.CommitsOk(g, w) && n in w.pushes
    ensures NoneOrCommitted(w, n, w.pushes[n].outcome)
    ensures w.pushes[n].fired.Some? ==> NoneOrCommitted(w, n, w.pushes[n].fired.value)
  {
    assert Ledgers.PushOk(w.pushes[n]);
    if w.pushes[n].committed.Some? {
      var x :| x in w.lease.all && x.nonce == n;
      assert Ledgers.TxnOk(g, w, x);
      var k :| 0 <= k < |w.lease.all| && w.lease.all[k] == x;
      assert AreCommands(Infos(x.repo, x.commands), w.lease.all[k].repo, w.lease.all[k].commands);
    }
  }

  lemma OutcomesAreCommitted(g: Graph, w: World)
    requires Ledgers.PushesOk(w) && Ledgers.CommitsOk(g, w)
    ensures forall n <- w.pushes ::
              && NoneOrCommitted(w, n, w.pushes[n].outcome)
              && (w.pushes[n].fired.Some? ==> NoneOrCommitted(w, n, w.pushes[n].fired.value))
  {
    forall n <- w.pushes
      ensures NoneOrCommitted(w, n, w.pushes[n].outcome)
      ensures w.pushes[n].fired.Some? ==> NoneOrCommitted(w, n, w.pushes[n].fired.value)
    {
      OutcomeIsCommitted(g, w, n);
    }
  }

  /** What a push has claimed, committed and fired is settled the first time, for the rest of the run. */
  lemma {:induction false} PushHistorySettles(g: Graph, w: World, steps: seq<Step>, w': World, n: Nonce)
    requires Inv(g, w) && Runs(g, w, steps, w') && n in w.pushes
    ensures n in w'.pushes && Settles(w.pushes[n], w'.pushes[n])
    decreases |steps|
  {
    if steps != [] {
      StepSettles(g, w, steps[0], n);
      NextKeepsInv(g, w, steps[0]);
      PushHistorySettles(g, Next(g, w, steps[0]), steps[1..], w', n);
    }
  }

  ghost predicate Settles(p: Push, p': Push) {
    && (p.taken.Some? ==> p'.taken == p.taken)
    && (p.committed.Some? ==> p'.committed == p.committed)
    && (p.fired.Some? ==> p'.fired == p.fired)
  }

  lemma OwnStepSettles(g: Graph, w: World, step: Step, n: Nonce)
    requires Enabled(g, w, step) && n in w.pushes
    requires step.Begin? || step.Record? || step.Fire? || step.Release?
    ensures n in Next(g, w, step).pushes && Settles(w.pushes[n], Next(g, w, step).pushes[n])
  {
  }

  lemma TakeSettles(w: World, c: CallId, n: Nonce)
    requires Ledgers.RegisteredOk(w) && c in w.calls && n in w.pushes
    ensures n in NextTake(w, c).pushes && Settles(w.pushes[n], NextTake(w, c).pushes[n])
  {
  }

  lemma SwapSettles(g: Graph, w: World, c: CallId, n: Nonce)
    requires c in w.calls && Ledgers.CallOk(g, w, c, w.calls[c]) && w.calls[c].stage == Putting && n in w.pushes
    ensures n in NextSwap(w, c).pushes && Settles(w.pushes[n], NextSwap(w, c).pushes[n])
  {
  }

  lemma StepSettles(g: Graph, w: World, step: Step, n: Nonce)
    requires Ledgers.RegisteredOk(w) && Ledgers.CallsOk(g, w) && Enabled(g, w, step) && n in w.pushes
    ensures n in Next(g, w, step).pushes && Settles(w.pushes[n], Next(g, w, step).pushes[n])
  {
    match step
    case Take(c) => TakeSettles(w, c, n);
    case Swap(c) => SwapSettles(g, w, c, n);
    case Begin(_, _, _, _, _) => OwnStepSettles(g, w, step, n);
    case Record(_) => OwnStepSettles(g, w, step, n);
    case Fire(_) => OwnStepSettles(g, w, step, n);
    case Release(_) => OwnStepSettles(g, w, step, n);
    case _ => PushesStay(g, w, step);
  }

  lemma PushesStay(g: Graph, w: World, step: Step)
    requires Enabled(g, w, step)
    requires !step.Begin? && !step.Take? && !step.Swap? && !step.Record? && !step.Fire? && !step.Release?
    ensures Next(g, w, step).pushes == w.pushes
  {
    match step
    case LeaseStep(_) =>
    case Check(_, _, _, _) =>
    case Put(_, _) =>
    case Fail(_) =>
    case Migrate(_) =>
    case WriteRef(_, _) =>
    case Hydrate(_, _, _) =>
    case ListRefs(_, _, _) =>
    case WritePacked(_) =>
    case Unlink(_, _) =>
  }
}
