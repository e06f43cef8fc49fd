/**
 The hook call of Receive.Writer as a run of PushSystem: the same decision, the same rows and
 the same outcome, step by step, so that whatever holds in every run holds around it.
 */
module PushCalls {
  import opened Wrappers
  import opened Objects
  import opened Refs
  import opened Hook
  import opened PushSystem
  import opened PushSafety
  import opened PushTheorems
  import Receive
  import Lease

  /** The call meets no failure; or, with some of its objects put, the store, the seam or the database fails. */
  datatype Fault = NoFault | FailsAfter(put: set<Oid>)

  predicate OfCall(step: Step, c: CallId) {
    (step.Take? || step.Put? || step.Fail? || step.Swap? || step.Record?) && step.c == c
  }

  ghost predicate RunsCall(g: Graph, w: World, steps: seq<Step>, w': World, c: CallId) {
    Runs(g, w, steps, w') && forall st <- steps :: OfCall(st, c)
  }

  lemma RunsFrom(g: Graph, w: World, step: Step, rest: seq<Step>, w': World, c: CallId)
    requires Enabled(g, w, step) && OfCall(step, c) && RunsCall(g, Next(g, w, step), rest, w', c)
    ensures RunsCall(g, w, [step] + rest, w', c)
  {
    assert ([step] + rest)[0] == step && ([step] + rest)[1..] == rest;
  }

  lemma UpdatesAreKeyed(repo: nat, cs: seq<Command>)
    ensures Updates(repo, cs) == Keyed(repo, Receive.ToUpdates(cs))
  {
  }

  lemma GuardIsAllowed(op: Receive.PushOp, cs: seq<Command>)
    ensures Receive.Allowed(op, cs) <==> Guarded(op.defaultBranch, op.pusherIsAdmin, cs)
  {
  }

  /** With some more objects put. */
  function WithPut(w: World, c: CallId, xs: set<Oid>): World
    requires c in w.calls
  {
    var call := w.calls[c];
    if xs == {} then w
    else
      w.(store := w.store[call.repo := Stored(w, call.repo) + xs],
         calls := w.calls[c := call.(put := call.put + xs)])
  }

  lemma PutFirst(w: World, c: CallId, xs: set<Oid>, x: Oid)
    requires c in w.calls && x in xs
    ensures WithPut(NextPut(w, c, x), c, xs - {x}) == WithPut(w, c, xs)
  {
    var call, w1 := w.calls[c], NextPut(w, c, x);
    assert {x} + (xs - {x}) == xs;
    assert xs - {x} == {} ==> xs == {x};
    assert w1.calls[c].put + (xs - {x}) == call.put + xs;
    assert Stored(w1, call.repo) + (xs - {x}) == Stored(w, call.repo) + xs;
    assert WithPut(w1, c, xs - {x}).store == WithPut(w, c, xs).store;
    assert WithPut(w1, c, xs - {x}).calls == WithPut(w, c, xs).calls;
  }

  /** Objects are put one at a time, in any order, and the call goes on. */
  lemma {:induction false} PutsRun(g: Graph, w: World, c: CallId, xs: set<Oid>, rest: seq<Step>, w': World)
    returns (steps: seq<Step>)
    requires c in w.calls && w.calls[c].stage == Putting && xs <= w.calls[c].quarantine
    requires RunsCall(g, WithPut(w, c, xs), rest, w', c)
    ensures RunsCall(g, w, steps, w', c)
    decreases xs
  {
    if xs == {} {
      steps := rest;
    } else {
      var x :| x in xs;
      PutFirst(w, c, xs, x);
      var more := PutsRun(g, NextPut(w, c, x), c, xs - {x}, rest, w');
      RunsFrom(g, w, Put(c, x), more, w', c);
      steps := [Put(c, x)] + more;
    }
  }

  // ---------- The decision ----------

  /** The nonce is live and the guard lets the push through. */
  predicate Admits(w: World, c: CallId)
    requires c in w.calls
  {
    var call := w.calls[c];
    HoldsNonce(w, c) && Guarded(w.pushes[call.nonce].branch, w.pushes[call.nonce].admin, call.commands)
  }

  /** The rows that the instance reads and writes. */
  function RowsAt(w: World, at: Lease.Id): Table {
    if at in w.lease.nodes then w.lease.nodes[at].table else map[]
  }

  predicate Leads(w: World, at: Lease.Id) {
    at in w.lease.nodes && w.lease.nodes[at].leader
  }

  /** What the updates of a call are for the compare-and-swap of Receive. */
  function UpdatesOf(call: Call): seq<Update> {
    Keyed(call.repo, Receive.ToUpdates(call.commands))
  }

  /** The contract of Receive.Writer.Handle, read in the system: a yes. */
  ghost predicate SaidYes(w: World, c: CallId, w': World)
    requires c in w.calls
  {
    var call := w.calls[c];
    && call.nonce in w'.pushes && c in w'.calls && w'.calls[c].stage == Recorded
    && Stored(w', call.repo) == Stored(w, call.repo) + call.quarantine
    && Accepted(RowsAt(w, call.at), UpdatesOf(call))
    && HoldsResult(RowsAt(w, call.at), UpdatesOf(call), RowsAt(w', call.at))
    && AreCommands(w'.pushes[call.nonce].outcome, call.repo, call.commands)
    && ShowsRows(RowsAt(w', call.at), w'.pushes[call.nonce].outcome)
  }

  /** The last entry of each ref is its row. */
  predicate ShowsRows(t: Table, infos: seq<CommitInfo>) {
    forall k | 0 <= k < |infos| && (forall j | k < j < |infos| :: infos[j].ref != infos[k].ref) ::
      Current(t, RefKey(infos[k].repo, infos[k].ref)) == Normalize(infos[k].newSha)
  }

  /** And a no: rows and outcomes as before; without admission the store too. */
  ghost predicate SaidNo(w: World, c: CallId, w': World)
    requires c in w.calls
  {
    && c in w'.calls && w'.calls[c].stage in {Refused, Rejected}
    && w'.lease == w.lease
    && (forall n <- w.pushes :: n in w'.pushes && w'.pushes[n].outcome == w.pushes[n].outcome)
    && (!Admits(w, c) ==> w'.store == w.store)
  }

  lemma SwapIsAccepted(w: World, c: CallId)
    requires c in w.calls && WellFormed(RowsAt(w, w.calls[c].at))
    ensures CanSwap(w, c) <==> Leads(w, w.calls[c].at) && Accepted(RowsAt(w, w.calls[c].at), UpdatesOf(w.calls[c]))
    ensures CanSwap(w, c) ==>
              var call := w.calls[c];
              var r := CasFold(RowsAt(w, call.at), UpdatesOf(call));
              r.Success? && HoldsResult(RowsAt(w, call.at), UpdatesOf(call), r.value)
  {
    var call := w.calls[c];
    UpdatesAreKeyed(call.repo, call.commands);
    if call.at in w.lease.nodes {
      CasFoldIsPositional(RowsAt(w, call.at), UpdatesOf(call));
    }
  }

  // ---------- The whole call ----------

  predicate IsWaiting(w: World, c: CallId) {
    c in w.calls && w.calls[c].stage == Checked
  }

  /** After the nonce is taken, and some objects are put. */
  function AfterPuts(w: World, c: CallId, xs: set<Oid>): World
    requires c in w.calls && HoldsNonce(w, c)
  {
    WithPut(Taken(w, c), c, xs)
  }

  lemma PutsFollowTake(g: Graph, w: World, c: CallId, xs: set<Oid>, rest: seq<Step>, w': World)
    returns (steps: seq<Step>)
    requires IsWaiting(w, c) && Admits(w, c) && xs <= w.calls[c].quarantine
    requires RunsCall(g, AfterPuts(w, c, xs), rest, w', c)
    ensures RunsCall(g, w, steps, w', c)
  {
    var more := PutsRun(g, Taken(w, c), c, xs, rest, w');
    assert NextTake(w, c) == Taken(w, c);
    RunsFrom(g, w, Take(c), more, w', c);
    steps := [Take(c)] + more;
  }

  lemma NoSteps(g: Graph, w: World, c: CallId)
    ensures RunsCall(g, w, [], w, c)
  {
  }

  lemma TakeSaysNo(w: World, c: CallId)
    requires IsWaiting(w, c) && !Admits(w, c)
    ensures SaidNo(w, c, NextTake(w, c))
  {
  }

  lemma StopSaysNo(w: World, c: CallId, put: set<Oid>)
    requires IsWaiting(w, c) && Admits(w, c)
    ensures SaidNo(w, c, SetStage(AfterPuts(w, c, put), c, Rejected))
  {
  }

  lemma NotAdmitted(g: Graph, w: World, c: CallId) returns (steps: seq<Step>, w': World)
    requires IsWaiting(w, c) && !Admits(w, c)
    ensures RunsCall(g, w, steps, w', c) && SaidNo(w, c, w')
  {
    w' := NextTake(w, c);
    TakeSaysNo(w, c);
    NoSteps(g, w', c);
    RunsFrom(g, w, Take(c), [], w', c);
    steps := [Take(c)] + [];
  }

  lemma Fails(g: Graph, w: World, c: CallId, put: set<Oid>) returns (steps: seq<Step>, w': World)
    requires IsWaiting(w, c) && Admits(w, c) && put <= w.calls[c].quarantine
    ensures RunsCall(g, w, steps, w', c) && SaidNo(w, c, w')
  {
    var mid := AfterPuts(w, c, put);
    w' := SetStage(mid, c, Rejected);
    StopSaysNo(w, c, put);
    NoSteps(g, w', c);
    RunsFrom(g, mid, Fail(c), [], w', c);
    steps := PutsFollowTake(g, w, c, put, [Fail(c)] + [], w');
  }

  lemma DoesNotMatch(g: Graph, w: World, c: CallId) returns (steps: seq<Step>, w': World)
    requires IsWaiting(w, c) && Admits(w, c) && !CanSwap(w, c)
    ensures RunsCall(g, w, steps, w', c) && SaidNo(w, c, w')
  {
    var mid := AfterPuts(w, c, w.calls[c].quarantine);
    w' := SetStage(mid, c, Rejected);
    StopSaysNo(w, c, w.calls[c].quarantine);
    NoSteps(g, w', c);
    assert NextSwap(mid, c) == w';
    RunsFrom(g, mid, Step.Swap(c), [], w', c);
    steps := PutsFollowTake(g, w, c, w.calls[c].quarantine, [Step.Swap(c)] + [], w');
  }

  /** The world after a call that goes through. */
  ghost function Through(w: World, c: CallId): World
    requires c in w.calls && HoldsNonce(w, c) && CanSwap(w, c)
  {
    NextRecord(Committed(AfterPuts(w, c, w.calls[c].quarantine), c), c)
  }

  lemma GoesThrough(g: Graph, w: World, c: CallId) returns (steps: seq<Step>)
    requires IsWaiting(w, c) && Admits(w, c) && CanSwap(w, c)
    ensures RunsCall(g, w, steps, Through(w, c), c)
  {
    var mid := AfterPuts(w, c, w.calls[c].quarantine);
    var swapped := Committed(mid, c);
    var w' := NextRecord(swapped, c);
    NoSteps(g, w', c);
    RunsFrom(g, swapped, Record(c), [], w', c);
    assert NextSwap(mid, c) == swapped;
    RunsFrom(g, mid, Step.Swap(c), [Record(c)] + [], w', c);
    steps := PutsFollowTake(g, w, c, w.calls[c].quarantine, [Step.Swap(c)] + ([Record(c)] + []), w');
  }

  lemma PutsMove(w: World, c: CallId, xs: set<Oid>)
    requires IsWaiting(w, c) && Admits(w, c)
    ensures
      var call, mid := w.calls[c], AfterPuts(w, c, xs);
      && mid.lease == w.lease && Stored(mid, call.repo) == Stored(w, call.repo) + xs
      && c in mid.calls && mid.calls[c] == call.(stage := Putting, put := call.put + xs)
      && call.nonce in mid.pushes && mid.pushes[call.nonce] == w.pushes[call.nonce].(taken := Some(c))
  {
    assert w.calls[c].put + {} == w.calls[c].put;
    assert Stored(w, w.calls[c].repo) + {} == Stored(w, w.calls[c].repo);
  }

  lemma CommitMoves(mid: World, c: CallId)
    requires c in mid.calls && mid.calls[c].nonce in mid.pushes && CanSwap(mid, c)
    ensures
      var call, w' := mid.calls[c], NextRecord(Committed(mid, c), c);
      && w'.store == mid.store && c in w'.calls && w'.calls[c].stage == Recorded
      && call.nonce in w'.pushes && w'.pushes[call.nonce].outcome == Infos(call.repo, call.commands)
      && RowsAt(w', call.at) == ApplyTxn(RowsAt(mid, call.at), TxnOf(mid, c))
  {
  }

  lemma ThroughMoves(w: World, c: CallId)
    requires IsWaiting(w, c) && Admits(w, c) && CanSwap(w, c)
    ensures
      var call, w' := w.calls[c], Through(w, c);
      && call.nonce in w'.pushes && w'.pushes[call.nonce].outcome == Infos(call.repo, call.commands)
      && c in w'.calls && w'.calls[c].stage == Recorded
      && Stored(w', call.repo) == Stored(w, call.repo) + call.quarantine
      && RowsAt(w', call.at) == ApplyTxn(RowsAt(w, call.at), TxnOf(w, c))
  {
    PutsMove(w, c, w.calls[c].quarantine);
    CommitMoves(AfterPuts(w, c, w.calls[c].quarantine), c);
  }

  lemma ThroughIsYes(w: World, c: CallId)
    requires IsWaiting(w, c) && Admits(w, c) && CanSwap(w, c) && WellFormed(RowsAt(w, w.calls[c].at))
    ensures SaidYes(w, c, Through(w, c))
  {
    ThroughMoves(w, c);
    SwapIsAccepted(w, c);
    UpdatesAreKeyed(w.calls[c].repo, w.calls[c].commands);
    Receive.RowsOfPush(
      RowsAt(w, w.calls[c].at), RowsAt(Through(w, c), w.calls[c].at), w.calls[c].repo, w.calls[c].commands);
  }

  lemma RowsAreWellFormed(g: Graph, w: World, at: Lease.Id)
    requires Inv(g, w)
    ensures WellFormed(RowsAt(w, at))
  {
    if at in w.lease.nodes {
      assert w.lease.nodes[at].table in w.past;
      assert TableClosed(g, w, w.lease.nodes[at].table);
    }
  }

  /**
   What Receive.Writer.Handle does is a run of the system by the one call. It ends in a yes
   exactly when the nonce is live, the guard lets the push through, nothing fails, the instance
   holds the lease and the updates are accepted; with the effects that Handle promises.
   */
  lemma HandleIsRun(g: Graph, w: World, c: CallId, fault: Fault) returns (steps: seq<Step>, w': World)
    requires Inv(g, w) && IsWaiting(w, c) && (fault.FailsAfter? ==> fault.put <= w.calls[c].quarantine)
    ensures RunsCall(g, w, steps, w', c)
    ensures if Admits(w, c) && fault.NoFault? && Leads(w, w.calls[c].at)
               && Accepted(RowsAt(w, w.calls[c].at), UpdatesOf(w.calls[c]))
            then SaidYes(w, c, w') else SaidNo(w, c, w')
  {
    var at := w.calls[c].at;
    RowsAreWellFormed(g, w, at);
    SwapIsAccepted(w, c);
    if !Admits(w, c) {
      steps, w' := NotAdmitted(g, w, c);
    } else if fault.FailsAfter? {
      steps, w' := Fails(g, w, c, fault.put);
    } else if CanSwap(w, c) {
      w' := Through(w, c);
      steps := GoesThrough(g, w, c);
      ThroughIsYes(w, c);
    } else {
      steps, w' := DoesNotMatch(g, w, c);
    }
  }
}
