/**
 The ref table and its multi-ref compare-and-swap (internal/meta/refs.go).

 A row is keyed by repository and ref name. The empty string stands for "absent" in every
 value this module computes, as it does in the code after normalizeSHA.
 */
module Refs {
  import opened Wrappers

  const ZERO_SHA := "0000000000000000000000000000000000000000"

  datatype RefKey = RefKey(repo: nat, name: string)

  type Table = map<RefKey, string>

  datatype RefUpdate = RefUpdate(name: string, oldSha: string, newSha: string)

  /** One update with the row it addresses. */
  datatype Update = Update(key: RefKey, oldSha: string, newSha: string)

  /** want and got are normalized: "" means absent. */
  datatype Mismatch = Mismatch(name: string, want: string, got: string)

  function Normalize(sha: string): string {
    if sha == ZERO_SHA then "" else sha
  }

  function Current(t: Table, key: RefKey): string {
    if key in t then t[key] else ""
  }

  /** No stored id is empty or all-zero. */
  predicate WellFormed(t: Table) {
    forall key <- t :: t[key] != "" && t[key] != ZERO_SHA
  }

  function Keyed(repo: nat, us: seq<RefUpdate>): (r: seq<Update>)
    ensures |r| == |us|
  {
    seq(|us|, i requires 0 <= i < |us| => Update(RefKey(repo, us[i].name), us[i].oldSha, us[i].newSha))
  }

  /** The all-zero id of 40 digits, and the empty string, stand for "absent"; nothing else does. */
  lemma ZeroIsAbsent(sha: string)
    ensures |ZERO_SHA| == 40 && forall i | 0 <= i < 40 :: ZERO_SHA[i] == '0'
    ensures Normalize(sha) == "" <==> sha == "" || (|sha| == 40 && forall i | 0 <= i < 40 :: sha[i] == '0')
    ensures Normalize(sha) != "" ==> Normalize(sha) == sha
  {
    assert |ZERO_SHA| == 40;
    if |sha| == 40 && forall i | 0 <= i < 40 :: sha[i] == '0' {
      assert sha == ZERO_SHA;
    }
  }

  // ---------- The sequential meaning ----------

  function Swap(t: Table, u: Update): Result<Table, Mismatch> {
    var want := Normalize(u.oldSha);
    var got := Normalize(Current(t, u.key));
    var next := Normalize(u.newSha);
    if got != want then Failure(Mismatch(u.key.name, want, got))
    else if next == "" then Success(t - {u.key})
    else Success(t[u.key := next])
  }

  /** All the updates in order, stopping at the first one that fails. */
  function CasFold(t: Table, us: seq<Update>): Result<Table, Mismatch> {
    if us == [] then Success(t)
    else
      match CasFold(t, us[..|us| - 1])
      case Failure(e) => Failure(e)
      case Success(t') => Swap(t', us[|us| - 1])
  }

  // ---------- The meaning by positions, without any intermediate table ----------

  /** The value of key just before update j: the last earlier update of the key, or the start. */
  function Before(t: Table, us: seq<Update>, j: nat, key: RefKey): string
    requires j <= |us|
  {
    if j == 0 then Current(t, key)
    else if us[j - 1].key == key then Normalize(us[j - 1].newSha)
    else Before(t, us, j - 1, key)
  }

  predicate Matches(t: Table, us: seq<Update>, j: nat)
    requires j < |us|
  {
    Normalize(us[j].oldSha) == Before(t, us, j, us[j].key)
  }

  /** Every update finds the value it expects. */
  predicate Accepted(t: Table, us: seq<Update>) {
    forall j | 0 <= j < |us| :: Matches(t, us, j)
  }

  /** The update that a rejected batch reports, and what it says about it. */
  ghost predicate ReportsFirst(t: Table, us: seq<Update>, e: Mismatch) {
    exists j | 0 <= j < |us| ::
      && !Matches(t, us, j)
      && (forall i | 0 <= i < j :: Matches(t, us, i))
      && e == Mismatch(us[j].key.name, Normalize(us[j].oldSha), Before(t, us, j, us[j].key))
  }

  /** t' holds, at every row, what the batch leaves there. */
  ghost predicate HoldsResult(t: Table, us: seq<Update>, t': Table) {
    WellFormed(t') && forall key :: Current(t', key) == Before(t, us, |us|, key)
  }

  lemma {:induction false} BeforeOfPrefix(t: Table, us: seq<Update>, n: nat, j: nat, key: RefKey)
    requires j <= n <= |us|
    ensures Before(t, us[..n], j, key) == Before(t, us, j, key)
  {
    if j > 0 {
      BeforeOfPrefix(t, us, n, j - 1, key);
    }
  }

  /** The sequential meaning and the positional meaning agree, in every outcome. */
  lemma {:induction false} CasFoldIsPositional(t: Table, us: seq<Update>)
    requires WellFormed(t)
    ensures CasFold(t, us).Success? <==> Accepted(t, us)
    ensures CasFold(t, us).Success? ==> HoldsResult(t, us, CasFold(t, us).value)
    ensures CasFold(t, us).Failure? ==> ReportsFirst(t, us, CasFold(t, us).error)
  {
    if us != [] {
      var n := |us| - 1;
      CasFoldIsPositional(t, us[..n]);
      match CasFold(t, us[..n])
      case Failure(e) =>
        ReportSurvivesSuffix(t, us, n, e);
      case Success(t') =>
        ResultOfOneMore(t, us, t');
    }
  }

  lemma ReportSurvivesSuffix(t: Table, us: seq<Update>, n: nat, e: Mismatch)
    requires n <= |us| && ReportsFirst(t, us[..n], e)
    ensures ReportsFirst(t, us, e) && !Accepted(t, us)
  {
    var front := us[..n];
    var j :| 0 <= j < |front| && !Matches(t, front, j) &&
      (forall i | 0 <= i < j :: Matches(t, front, i)) &&
      e == Mismatch(front[j].key.name, Normalize(front[j].oldSha), Before(t, front, j, front[j].key));
    forall i | 0 <= i <= j ensures Matches(t, us, i) <==> Matches(t, front, i) {
      BeforeOfPrefix(t, us, n, i, us[i].key);
    }
    BeforeOfPrefix(t, us, n, j, us[j].key);
  }

  lemma ResultOfOneMore(t: Table, us: seq<Update>, t': Table)
    requires us != [] && Accepted(t, us[..|us| - 1]) && HoldsResult(t, us[..|us| - 1], t')
    ensures Swap(t', us[|us| - 1]).Success? <==> Accepted(t, us)
    ensures Swap(t', us[|us| - 1]).Success? ==> HoldsResult(t, us, Swap(t', us[|us| - 1]).value)
    ensures Swap(t', us[|us| - 1]).Failure? ==> ReportsFirst(t, us, Swap(t', us[|us| - 1]).error)
  {
    var n := |us| - 1;
    var u := us[n];
    forall j, key | 0 <= j <= n ensures Before(t, us[..n], j, key) == Before(t, us, j, key) {
      BeforeOfPrefix(t, us, n, j, key);
    }
    forall j | 0 <= j < n ensures Matches(t, us, j) {
      assert Matches(t, us[..n], j);
    }
    assert Accepted(t, us) <==> Matches(t, us, n);
    assert forall key :: Current(t', key) == Before(t, us, n, key);
    SwapKeepsWellFormed(t', u);
  }

  /** A successful swap sets the one row it names, and keeps the table well formed. */
  lemma SwapKeepsWellFormed(t: Table, u: Update)
    requires WellFormed(t)
    ensures Swap(t, u).Success? <==> Normalize(u.oldSha) == Current(t, u.key)
    ensures Swap(t, u).Success? ==> WellFormed(Swap(t, u).value)
    ensures Swap(t, u).Success? ==> forall key :: Current(Swap(t, u).value, key) ==
                                                  (if key == u.key then Normalize(u.newSha) else Current(t, key))
    ensures Swap(t, u).Failure? ==>
      Swap(t, u).error == Mismatch(u.key.name, Normalize(u.oldSha), Current(t, u.key))
  {
    assert Normalize(Current(t, u.key)) == Current(t, u.key);
  }

  /** The table that holds a batch's result is unique. */
  lemma HoldsResultUnique(t: Table, us: seq<Update>, t1: Table, t2: Table)
    requires HoldsResult(t, us, t1) && HoldsResult(t, us, t2)
    ensures t1 == t2
  {
    forall key ensures key in t1 <==> key in t2 {
      assert Current(t1, key) == Current(t2, key);
    }
    forall key | key in t1 ensures t1[key] == t2[key] {
      assert Current(t1, key) == Current(t2, key);
    }
  }

  // ---------- Chains ----------

  /**
   In an accepted batch the updates of one ref form a chain: each one's old value is the
   previous one's new value.
   */
  lemma {:induction false} AcceptedIsChain(t: Table, us: seq<Update>, i: nat, j: nat)
    requires Accepted(t, us)
    requires i < j < |us| && us[i].key == us[j].key
    requires forall k | i < k < j :: us[k].key != us[i].key
    ensures Normalize(us[j].oldSha) == Normalize(us[i].newSha)
  {
    BeforeIsLastWrite(t, us, i, j);
    assert Matches(t, us, j);
  }

  lemma {:induction false} BeforeIsLastWrite(t: Table, us: seq<Update>, i: nat, j: nat)
    requires i < j <= |us|
    requires forall k | i < k < j :: us[k].key != us[i].key
    ensures Before(t, us, j, us[i].key) == Normalize(us[i].newSha)
  {
    if j > i + 1 {
      BeforeIsLastWrite(t, us, i, j - 1);
    }
  }

  /** A key that no earlier update names still has its row. */
  lemma {:induction false} BeforeFirst(t: Table, us: seq<Update>, j: nat, key: RefKey)
    requires j <= |us| && forall k | 0 <= k < j :: us[k].key != key
    ensures Before(t, us, j, key) == Current(t, key)
  {
    if j > 0 {
      BeforeFirst(t, us, j - 1, key);
    }
  }

  /** Update k gives ref us[i].key back the value that update i moved it away from. */
  ghost predicate Restores(us: seq<Update>, i: nat, k: nat)
    requires i < |us| && k < |us|
  {
    i < k && us[k].key == us[i].key && Normalize(us[k].newSha) == Normalize(us[i].oldSha)
  }

  /**
   Two updates of one ref that start from the same value, the first of which moves the ref
   away, are both accepted only if an update between them brings the value back.
   */
  lemma {:induction false} SameOldNeedsRestore(t: Table, us: seq<Update>, i: nat, j: nat)
    requires Accepted(t, us)
    requires i < j < |us| && us[i].key == us[j].key
    requires Normalize(us[i].oldSha) == Normalize(us[j].oldSha)
    requires Normalize(us[i].newSha) != Normalize(us[i].oldSha)
    ensures exists k | i < k < j :: Restores(us, i, k)
  {
    assert Matches(t, us, j);
    var k := LastWrite(us, i, j);
    BeforeIsLastWrite(t, us, k, j);
    assert k != i;
    assert Restores(us, i, k);
  }

  function LastWrite(us: seq<Update>, i: nat, j: nat): (k: nat)
    requires i < j <= |us|
    ensures i <= k < j && us[k].key == us[i].key
    ensures forall m | k < m < j :: us[m].key != us[i].key
  {
    if us[j - 1].key == us[i].key then j - 1 else LastWrite(us, i, j - 1)
  }

  /**
   After an accepted batch in which update i moved its ref away from a value, a further
   update from that same value is accepted exactly when the last write to the ref brought
   the value back. So a second push from the same old tip is refused, unless the ref has
   returned to that tip.
   */
  lemma {:induction false} SecondPushIffRestored(t: Table, us: seq<Update>, i: nat, u: Update)
    requires Accepted(t, us)
    requires i < |us| && u.key == us[i].key
    requires Normalize(u.oldSha) == Normalize(us[i].oldSha)
    requires Normalize(us[i].newSha) != Normalize(us[i].oldSha)
    ensures Accepted(t, us + [u]) <==> Restores(us, i, LastWrite(us, i, |us|))
  {
    var all := us + [u];
    var k := LastWrite(us, i, |us|);
    assert all[..|us|] == us;
    forall j, key | 0 <= j <= |us| ensures Before(t, all, j, key) == Before(t, us, j, key) {
      BeforeOfPrefix(t, all, |us|, j, key);
    }
    forall j | 0 <= j < |us| ensures Matches(t, all, j) {
      assert Matches(t, us, j);
    }
    BeforeIsLastWrite(t, us, k, |us|);
    assert Accepted(t, all) <==> Matches(t, all, |us|);
  }

  /** The plain reading, "two pushes from one old tip never both commit", fails: a ref can return. */
  lemma SameOldBothCommit(a: string, b: string, c: string)
    requires a != b && a != c && b != c
    requires "" !in {a, b, c} && ZERO_SHA !in {a, b, c}
    ensures
      var key := RefKey(1, "refs/heads/main");
      var us := [Update(key, a, b), Update(key, b, a), Update(key, a, c)];
      WellFormed(map[key := a]) && Accepted(map[key := a], us)
  {
    var key := RefKey(1, "refs/heads/main");
    var t := map[key := a];
    var us := [Update(key, a, b), Update(key, b, a), Update(key, a, c)];
    assert Before(t, us, 0, key) == a;
    assert Before(t, us, 1, key) == b;
    assert Before(t, us, 2, key) == a;
  }

  // ---------- The code ----------

  /** Where the database fails in one call, if it does. */
  datatype Fault = NoFault | AtBegin | AtSelect(at: nat) | AtExec(at: nat) | AtCommit

  datatype CasError = CasMismatch(mismatch: Mismatch) | DbError

  /** A transaction: its own view of the rows, not yet committed. */
  class Tx {
    var rows: Table

    constructor (rows: Table)
      ensures this.rows == rows
    {
      this.rows := rows;
    }

    method CasOne(u: Update, selectFails: bool, execFails: bool) returns (err: Option<CasError>)
      requires WellFormed(rows)
      modifies this
      ensures WellFormed(rows)
      ensures selectFails ==> err == Some(DbError)
      ensures err.None? ==> Swap(old(rows), u) == Success(rows)
      ensures err.Some? ==> rows == old(rows)
      ensures err.Some? && err.value.CasMismatch? ==> Swap(old(rows), u) == Failure(err.value.mismatch)
      ensures err == Some(DbError) ==> selectFails || (execFails && Swap(old(rows), u).Success?)
    {
      if selectFails {
        return Some(DbError);
      }
      var current := "";
      if u.key in rows {
        current := rows[u.key];
      }
      var want := Normalize(u.oldSha);
      if Normalize(current) != want {
        return Some(CasMismatch(Mismatch(u.key.name, want, Normalize(current))));
      }
      if execFails {
        return Some(DbError);
      }
      var next := Normalize(u.newSha);
      if next == "" {
        rows := rows - {u.key};
      } else if current == "" {
        assert u.key !in rows; // an INSERT never meets an existing row
        rows := rows[u.key := next];
      } else {
        assert u.key in rows;
        rows := rows[u.key := next];
      }
      return None;
    }
  }

  class Metadata {
    var rows: Table

    constructor ()
      ensures rows == map[]
    {
      rows := map[];
    }

    /**
     All or nothing: a call that returns no error leaves what the accepted batch leaves, and
     any other call leaves the rows alone. A mismatch is reported for the first update that
     does not match.
     */
    method CASRefs(repo: nat, updates: seq<RefUpdate>, fault: Fault) returns (err: Option<CasError>)
      requires WellFormed(rows)
      modifies this
      ensures WellFormed(rows)
      ensures err.None? ==>
        Accepted(old(rows), Keyed(repo, updates)) && HoldsResult(old(rows), Keyed(repo, updates), rows)
      ensures err.None? ==> forall key: RefKey | key.repo != repo :: Current(rows, key) == Current(old(rows), key)
      ensures err.Some? ==> rows == old(rows) && updates != []
      ensures err.Some? && err.value.CasMismatch? ==>
        ReportsFirst(old(rows), Keyed(repo, updates), err.value.mismatch)
      ensures fault == NoFault ==> err != Some(DbError)
    {
      var us := Keyed(repo, updates);
      if |updates| == 0 {
        return None;
      }
      if fault == AtBegin {
        return Some(DbError);
      }
      var tx := new Tx(rows);
      var n := 0;
      while n < |updates|
        invariant 0 <= n <= |us|
        invariant WellFormed(tx.rows) && rows == old(rows)
        invariant CasFold(rows, us[..n]) == Success(tx.rows)
      {
        ghost var before := tx.rows;
        var e := tx.CasOne(us[n], fault == AtSelect(n), fault == AtExec(n));
        if e.Some? {
          if e.value.CasMismatch? {
            FirstFailureReported(rows, us, n, e.value.mismatch);
          }
          return e; // the transaction is dropped
        }
        FoldOneMore(rows, us, n, before, tx.rows);
        n := n + 1;
      }
      assert us[..n] == us;
      if fault == AtCommit {
        return Some(DbError);
      }
      BatchLeaves(rows, us, repo, tx.rows);
      rows := tx.rows;
      return None;
    }
  }

  /**
   What the updates of CASRefs ask for and do, by name: the first update of a ref is accepted on
   the old value it gives, the last one leaves its new value; without repeated names the batch
   is accepted exactly when every old value is the current one.
   */
  lemma UpdatesByName(t: Table, repo: nat, updates: seq<RefUpdate>, t': Table)
    requires Accepted(t, Keyed(repo, updates)) ==> HoldsResult(t, Keyed(repo, updates), t')
    ensures
      Accepted(t, Keyed(repo, updates)) ==>
        forall k | 0 <= k < |updates| ::
          && ((forall j | 0 <= j < k :: updates[j].name != updates[k].name) ==>
                Current(t, RefKey(repo, updates[k].name)) == Normalize(updates[k].oldSha))
          && ((forall j | k < j < |updates| :: updates[j].name != updates[k].name) ==>
                Current(t', RefKey(repo, updates[k].name)) == Normalize(updates[k].newSha))
    ensures (forall j, k | 0 <= j < k < |updates| :: updates[j].name != updates[k].name) ==>
              (Accepted(t, Keyed(repo, updates)) <==>
               forall k | 0 <= k < |updates| ::
                 Current(t, RefKey(repo, updates[k].name)) == Normalize(updates[k].oldSha))
  {
    var us := Keyed(repo, updates);
    forall k | 0 <= k < |updates| && (forall j | 0 <= j < k :: updates[j].name != updates[k].name)
      ensures Matches(t, us, k) <==> Current(t, RefKey(repo, updates[k].name)) == Normalize(updates[k].oldSha)
    {
      BeforeFirst(t, us, k, us[k].key);
    }
    forall k | 0 <= k < |updates| && (forall j | k < j < |updates| :: updates[j].name != updates[k].name)
      ensures Before(t, us, |us|, RefKey(repo, updates[k].name)) == Normalize(updates[k].newSha)
    {
      BeforeIsLastWrite(t, us, k, |us|);
    }
  }

  lemma FoldOneMore(t: Table, us: seq<Update>, n: nat, t1: Table, t2: Table)
    requires n < |us| && CasFold(t, us[..n]) == Success(t1) && Swap(t1, us[n]) == Success(t2)
    ensures CasFold(t, us[..n + 1]) == Success(t2)
  {
    assert us[..n + 1][..n] == us[..n];
  }

  lemma BatchLeaves(t: Table, us: seq<Update>, repo: nat, t': Table)
    requires WellFormed(t) && CasFold(t, us) == Success(t') && forall u <- us :: u.key.repo == repo
    ensures Accepted(t, us) && HoldsResult(t, us, t')
    ensures forall key: RefKey | key.repo != repo :: Current(t', key) == Current(t, key)
  {
    CasFoldIsPositional(t, us);
    OtherReposKeep(t, us, |us|, repo);
  }

  lemma FirstFailureReported(t: Table, us: seq<Update>, n: nat, e: Mismatch)
    requires WellFormed(t) && n < |us|
    requires CasFold(t, us[..n]).Success? && Swap(CasFold(t, us[..n]).value, us[n]) == Failure(e)
    ensures ReportsFirst(t, us, e)
  {
    assert us[..n + 1][..n] == us[..n];
    CasFoldIsPositional(t, us[..n + 1]);
    ReportSurvivesSuffix(t, us, n + 1, e);
  }

  lemma {:induction false} OtherReposKeep(t: Table, us: seq<Update>, j: nat, repo: nat)
    requires j <= |us| && forall u <- us :: u.key.repo == repo
    ensures forall key: RefKey | key.repo != repo :: Before(t, us, j, key) == Current(t, key)
  {
    if j > 0 {
      OtherReposKeep(t, us, j - 1, repo);
    }
  }
}
