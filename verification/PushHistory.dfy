/** The history of each ref: the surviving commits form chains, and default branches only advance. */
module PushHistory {
  import opened Wrappers
  import opened Objects
  import opened Refs
  import opened Hook
  import opened PushSystem
  import opened PushSafety
  import opened PushTheorems
  import Ledgers = PushLedger
  import Lease

  /** All the ref updates of a log, in the order they took effect. */
  ghost function Flat(log: seq<Txn>): seq<Update> {
    if log == [] then []
    else Flat(log[..|log| - 1]) + Updates(log[|log| - 1].repo, log[|log| - 1].commands)
  }

  lemma {:induction false} BeforeAfterConcat(
    t: Table, t1: Table, a: seq<Update>, b: seq<Update>, j: nat, key: RefKey)
    requires HoldsResult(t, a, t1) && j <= |b|
    ensures Before(t, a + b, |a| + j, key) == Before(t1, b, j, key)
  {
    if j == 0 {
      assert (a + b)[..|a|] == a;
      BeforeOfPrefix(t, a + b, |a|, |a|, key);
      assert Current(t1, key) == Before(t, a, |a|, key);
    } else {
      assert (a + b)[|a| + j - 1] == b[j - 1];
      BeforeAfterConcat(t, t1, a, b, j - 1, key);
    }
  }

  /** Two accepted batches in a row are one accepted batch. */
  lemma AcceptedConcat(t: Table, a: seq<Update>, t1: Table, b: seq<Update>, t2: Table)
    requires Accepted(t, a) && HoldsResult(t, a, t1)
    requires Accepted(t1, b) && HoldsResult(t1, b, t2)
    ensures Accepted(t, a + b) && HoldsResult(t, a + b, t2)
  {
    forall j | 0 <= j < |a + b| ensures Matches(t, a + b, j) {
      if j < |a| {
        assert Matches(t, a, j) && (a + b)[..|a|] == a;
        BeforeOfPrefix(t, a + b, |a|, j, a[j].key);
      } else {
        assert Matches(t1, b, j - |a|);
        BeforeAfterConcat(t, t1, a, b, j - |a|, b[j - |a|].key);
      }
    }
    forall key ensures Current(t2, key) == Before(t, a + b, |a + b|, key) {
      assert Current(t2, key) == Before(t1, b, |b|, key);
      BeforeAfterConcat(t, t1, a, b, |b|, key);
    }
  }

  /** A log accepted commit by commit is accepted update by update, with the same result. */
  lemma {:induction false} LogIsOneBatch(t: Table, log: seq<Txn>)
    requires WellFormed(t) && Ledgers.LogAccepted(t, log)
    ensures Accepted(t, Flat(log)) && HoldsResult(t, Flat(log), Lease.Fold(ApplyTxn, t, log))
  {
    if log != [] {
      var front := log[..|log| - 1];
      var x := log[|log| - 1];
      LogStaysAccepted(t, log, front);
      LogIsOneBatch(t, front);
      var t1 := Lease.Fold(ApplyTxn, t, front);
      CasFoldIsPositional(t1, Updates(x.repo, x.commands));
      AcceptedConcat(t, Flat(front), t1, Updates(x.repo, x.commands), Lease.Fold(ApplyTxn, t, log));
    }
  }

  /**
   In the surviving history of any run, the updates of one ref form a chain: the old value of
   each is the new value of the one before it, and of the first one, the value the ref had at
   the start.
   */
  lemma SurvivingUpdatesChain(g: Graph, w0: World, steps: seq<Step>, w: World)
    requires Initial(g, w0) && Runs(g, w0, steps, w)
    ensures Accepted(w0.past[0], Flat(w.lease.log))
    ensures forall i, j | 0 <= i < j < |Flat(w.lease.log)|
                          && Flat(w.lease.log)[i].key == Flat(w.lease.log)[j].key
                          && (forall k | i < k < j :: Flat(w.lease.log)[k].key != Flat(w.lease.log)[i].key) ::
              Normalize(Flat(w.lease.log)[j].oldSha) == Normalize(Flat(w.lease.log)[i].newSha)
  {
    Reached(g, w0, steps, w);
    assert w.past[0] in w.past;
    LogIsOneBatch(w0.past[0], w.lease.log);
    var us := Flat(w.lease.log);
    forall i, j | 0 <= i < j < |us| && us[i].key == us[j].key && (forall k | i < k < j :: us[k].key != us[i].key)
      ensures Normalize(us[j].oldSha) == Normalize(us[i].newSha)
    {
      AcceptedIsChain(w0.past[0], us, i, j);
    }
  }

  /**
   Two updates of one ref from the same old tip, the first of which moved the ref, are both
   in the surviving history only if an update between them brought the tip back.
   */
  lemma SameTipTwiceOnlyIfRestored(g: Graph, w0: World, steps: seq<Step>, w: World, i: nat, j: nat)
    requires Initial(g, w0) && Runs(g, w0, steps, w)
    requires
      var us := Flat(w.lease.log);
      && i < j < |us| && us[i].key == us[j].key
      && Normalize(us[i].oldSha) == Normalize(us[j].oldSha) != Normalize(us[i].newSha)
    ensures exists k | i < k < j :: Restores(Flat(w.lease.log), i, k)
  {
    SurvivingUpdatesChain(g, w0, steps, w);
    SameOldNeedsRestore(w0.past[0], Flat(w.lease.log), i, j);
  }

  // ---------- The default branch ----------

  /** The update goes from nothing, or from an ancestor, to an object. */
  ghost predicate Advances(g: Graph, u: Update) {
    IsId(u.newSha) && (IsId(u.oldSha) ==> Ancestor(g, u.oldSha, u.newSha))
  }

  ghost predicate OnlyAdvances(g: Graph, us: seq<Update>, key: RefKey) {
    forall u <- us | u.key == key :: Advances(g, u)
  }

  /** A chain of advances only moves the ref to descendants, and never loses it. */
  lemma {:induction false} ChainAdvances(g: Graph, t: Table, us: seq<Update>, key: RefKey, i: nat, j: nat)
    requires i <= j <= |us| && Accepted(t, us) && OnlyAdvances(g, us, key)
    requires Before(t, us, i, key) != ""
    ensures Before(t, us, j, key) != "" && Ancestor(g, Before(t, us, i, key), Before(t, us, j, key))
  {
    if i == j {
      AncestorSelf(g, Before(t, us, i, key));
    } else {
      ChainAdvances(g, t, us, key, i, j - 1);
      var first, last := Before(t, us, i, key), Before(t, us, j - 1, key);
      if us[j - 1].key == key {
        assert us[j - 1] in us && Matches(t, us, j - 1);
        LastAdvance(g, t, us, j - 1);
        AncestorTransitive(g, first, last, us[j - 1].newSha);
      }
    }
  }

  /** One accepted advance from a value moves the ref to a descendant of it. */
  lemma LastAdvance(g: Graph, t: Table, us: seq<Update>, j: nat)
    requires j < |us| && Matches(t, us, j) && Advances(g, us[j])
    requires Before(t, us, j, us[j].key) != ""
    ensures Ancestor(g, Before(t, us, j, us[j].key), us[j].newSha)
    ensures Before(t, us, j + 1, us[j].key) == us[j].newSha != ""
  {
    assert us[j].oldSha == Before(t, us, j, us[j].key);
  }

  /** A non-admin's commit that passed the guard advances the branch the guard protected. */
  lemma GuardedCommitAdvances(g: Graph, x: Txn)
    requires !x.admin && Guarded(x.branch, x.admin, x.commands) && forall c <- x.commands :: Honest(g, c)
    ensures OnlyAdvances(g, Updates(x.repo, x.commands), RefKey(x.repo, "refs/heads/" + x.branch))
  {
    var us := Updates(x.repo, x.commands);
    forall u <- us | u.key == RefKey(x.repo, "refs/heads/" + x.branch) ensures Advances(g, u) {
      var k :| 0 <= k < |us| && us[k] == u;
      assert x.commands[k] in x.commands;
      assert Honest(g, x.commands[k]);
    }
  }

  /** Every commit to repo in this stretch was a non-admin's, with this default branch. */
  ghost predicate NonAdminStretch(log: seq<Txn>, repo: nat, branch: string) {
    forall x <- log | x.repo == repo :: !x.admin && x.branch == branch
  }

  lemma {:induction false} StretchAdvances(g: Graph, log: seq<Txn>, repo: nat, branch: string)
    requires NonAdminStretch(log, repo, branch)
    requires forall x <- log :: Guarded(x.branch, x.admin, x.commands) && forall c <- x.commands :: Honest(g, c)
    ensures OnlyAdvances(g, Flat(log), RefKey(repo, "refs/heads/" + branch))
  {
    if log != [] {
      var x := log[|log| - 1];
      StretchAdvances(g, log[..|log| - 1], repo, branch);
      assert x in log;
      if x.repo == repo {
        GuardedCommitAdvances(g, x);
      }
    }
  }

  lemma {:induction false} LogSuffixAccepted(t: Table, a: seq<Txn>, b: seq<Txn>)
    requires Ledgers.LogAccepted(t, a + b)
    ensures Ledgers.LogAccepted(Lease.Fold(ApplyTxn, t, a), b)
  {
    forall k | 0 <= k < |b|
      ensures CasFold(Lease.Fold(ApplyTxn, Lease.Fold(ApplyTxn, t, a), b[..k]),
                      Updates(b[k].repo, b[k].commands)).Success?
    {
      Lease.FoldConcat(ApplyTxn, t, a, b[..k]);
      assert (a + b)[..|a| + k] == a + b[..k];
      assert (a + b)[|a| + k] == b[k];
    }
  }

  lemma StretchKeepsBranch(g: Graph, t: Table, log: seq<Txn>, repo: nat, branch: string)
    requires WellFormed(t) && Ledgers.LogAccepted(t, log) && NonAdminStretch(log, repo, branch)
    requires forall x <- log :: Guarded(x.branch, x.admin, x.commands) && forall c <- x.commands :: Honest(g, c)
    ensures
      var key := RefKey(repo, "refs/heads/" + branch);
      var after := Current(Lease.Fold(ApplyTxn, t, log), key);
      Current(t, key) != "" ==> after != "" && Ancestor(g, Current(t, key), after)
  {
    var key := RefKey(repo, "refs/heads/" + branch);
    LogIsOneBatch(t, log);
    StretchAdvances(g, log, repo, branch);
    assert Current(Lease.Fold(ApplyTxn, t, log), key) == Before(t, Flat(log), |Flat(log)|, key);
    if Current(t, key) != "" {
      ChainAdvances(g, t, Flat(log), key, 0, |Flat(log)|);
    }
  }

  /** What the surviving log is known to satisfy, in every reachable state. */
  lemma SurvivingLogFacts(g: Graph, w0: World, steps: seq<Step>, w: World)
    requires Initial(g, w0) && Runs(g, w0, steps, w)
    ensures WellFormed(w0.past[0]) && Ledgers.LogAccepted(w0.past[0], w.lease.log)
    ensures forall x <- w.lease.log :: Guarded(x.branch, x.admin, x.commands) && forall c <- x.commands :: Honest(g, c)
  {
    Reached(g, w0, steps, w);
    assert w.past[0] in w.past;
    assert TableClosed(g, w, w.past[0]);
    forall x <- w.lease.log ensures Guarded(x.branch, x.admin, x.commands) && forall c <- x.commands :: Honest(g, c) {
      assert Ledgers.TxnOk(g, w, x);
    }
  }

  /**
   Over any stretch of the surviving history in which every push to a repository is a
   non-admin's, its default branch (the one fixed at Begin) only moves to descendants and
   never disappears, whatever old ids the clients claimed.
   */
  lemma DefaultBranchOnlyAdvances(
    g: Graph, w0: World, steps: seq<Step>, w: World, from: nat, repo: nat, branch: string)
    requires Initial(g, w0) && Runs(g, w0, steps, w)
    requires from <= |w.lease.log| && NonAdminStretch(w.lease.log[from..], repo, branch)
    ensures
      var key := RefKey(repo, "refs/heads/" + branch);
      var before := Current(Lease.Fold(ApplyTxn, w0.past[0], w.lease.log[..from]), key);
      var after := Current(Lease.Fold(ApplyTxn, w0.past[0], w.lease.log), key);
      before != "" ==> after != "" && Ancestor(g, before, after)
  {
    SurvivingLogFacts(g, w0, steps, w);
    SuffixKeepsBranch(g, w0.past[0], w.lease.log, from, repo, branch);
  }

  lemma SuffixKeepsBranch(g: Graph, base: Table, log: seq<Txn>, from: nat, repo: nat, branch: string)
    requires WellFormed(base) && Ledgers.LogAccepted(base, log)
    requires forall x <- log :: Guarded(x.branch, x.admin, x.commands) && forall c <- x.commands :: Honest(g, c)
    requires from <= |log| && NonAdminStretch(log[from..], repo, branch)
    ensures
      var key := RefKey(repo, "refs/heads/" + branch);
      var before := Current(Lease.Fold(ApplyTxn, base, log[..from]), key);
      var after := Current(Lease.Fold(ApplyTxn, base, log), key);
      before != "" ==> after != "" && Ancestor(g, before, after)
  {
    SuffixStands(base, log, from);
    forall x <- log[from..] ensures x in log {
    }
    StretchKeepsBranch(g, Lease.Fold(ApplyTxn, base, log[..from]), log[from..], repo, branch);
  }

  /** The rest of an accepted log is accepted on the table that its first part leaves. */
  lemma SuffixStands(base: Table, log: seq<Txn>, from: nat)
    requires WellFormed(base) && Ledgers.LogAccepted(base, log) && from <= |log|
    ensures WellFormed(Lease.Fold(ApplyTxn, base, log[..from]))
    ensures Ledgers.LogAccepted(Lease.Fold(ApplyTxn, base, log[..from]), log[from..])
    ensures Lease.Fold(ApplyTxn, base, log) ==
            Lease.Fold(ApplyTxn, Lease.Fold(ApplyTxn, base, log[..from]), log[from..])
  {
    var a, b := log[..from], log[from..];
    assert a + b == log;
    LogStaysAccepted(base, log, a);
    LogIsOneBatch(base, a);
    LogSuffixAccepted(base, a, b);
    Lease.FoldConcat(ApplyTxn, base, a, b);
  }

  /**
   On such a branch the plain reading holds: commits are acyclic, so a ref that has moved on
   never returns, and two updates from the same old tip are never both accepted.
   */
  lemma SameTipNeverTwice(g: Graph, t: Table, us: seq<Update>, i: nat, j: nat)
    requires Acyclic(g) && Accepted(t, us) && i < j < |us| && us[i].key == us[j].key
    requires OnlyAdvances(g, us, us[i].key) && IsId(us[i].oldSha)
    requires us[i].oldSha != us[i].newSha
    ensures us[j].oldSha != us[i].oldSha
  {
    if us[j].oldSha == us[i].oldSha {
      ReturnIsCycle(g, t, us, i, j);
    }
  }

  lemma ReturnIsCycle(g: Graph, t: Table, us: seq<Update>, i: nat, j: nat)
    requires Accepted(t, us) && i < j < |us| && us[i].key == us[j].key
    requires OnlyAdvances(g, us, us[i].key) && IsId(us[i].oldSha) && us[j].oldSha == us[i].oldSha
    ensures Ancestor(g, us[i].oldSha, us[i].newSha) && Ancestor(g, us[i].newSha, us[i].oldSha)
  {
    UpdateMoves(g, t, us, i);
    UpdateMoves(g, t, us, j);
    ChainAdvances(g, t, us, us[i].key, i + 1, j);
  }

  /** Around one accepted advance from an id: what the ref was, and what it is. */
  lemma UpdateMoves(g: Graph, t: Table, us: seq<Update>, i: nat)
    requires Accepted(t, us) && i < |us| && OnlyAdvances(g, us, us[i].key) && IsId(us[i].oldSha)
    ensures Before(t, us, i, us[i].key) == us[i].oldSha
    ensures Ancestor(g, us[i].oldSha, us[i].newSha)
    ensures Before(t, us, i + 1, us[i].key) == us[i].newSha != ""
  {
    assert us[i] in us && Matches(t, us, i);
    LastAdvance(g, t, us, i);
  }

  /**
   So if every push to a repository was a non-admin's, the surviving history never has two
   updates of its default branch from one old tip.
   */
  lemma DefaultBranchTipNeverTwice(
    g: Graph, w0: World, steps: seq<Step>, w: World, repo: nat, branch: string, i: nat, j: nat)
    requires Initial(g, w0) && Runs(g, w0, steps, w) && Acyclic(g)
    requires NonAdminStretch(w.lease.log, repo, branch)
    requires
      var us := Flat(w.lease.log);
      && i < j < |us| && us[i].key == us[j].key == RefKey(repo, "refs/heads/" + branch)
      && IsId(us[i].oldSha) && us[i].oldSha != us[i].newSha
    ensures Flat(w.lease.log)[j].oldSha != Flat(w.lease.log)[i].oldSha
  {
    SurvivingLogFacts(g, w0, steps, w);
    LogIsOneBatch(w0.past[0], w.lease.log);
    StretchAdvances(g, w.lease.log, repo, branch);
    SameTipNeverTwice(g, w0.past[0], Flat(w.lease.log), i, j);
  }
}
