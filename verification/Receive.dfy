/**
 The coordinator of the write path inside one instance (internal/githttp/receive.go): the
 per-repo locks, the single-use nonces, and the hook call with its order, objects first and
 refs second.
 */
module Receive {
  import opened Strings
  import opened Wrappers
  import opened Refs
  import opened Hook

  // ---------- Which quarantine files are objects ----------

  predicate IsHex(c: char) {
    '0' <= c <= '9' || 'a' <= c <= 'f'
  }

  /** Something under pack/, or under a directory with a two-digit hexadecimal name. */
  predicate ObjectPath(rel: string) {
    || "pack/" <= rel
    || (|rel| >= 3 && IsHex(rel[0]) && IsHex(rel[1]) && rel[2] == '/')
  }

  const HEX := "0123456789abcdef"

  lemma HexDigits(c: char)
    ensures IsHex(c) <==> c in "0123456789abcdef"
  {
    assert HEX[0] == '0' && HEX[1] == '1' && HEX[2] == '2' && HEX[3] == '3' && HEX[4] == '4' && HEX[5] == '5';
    assert HEX[6] == '6' && HEX[7] == '7' && HEX[8] == '8' && HEX[9] == '9' && HEX[10] == 'a' && HEX[11] == 'b';
    assert HEX[12] == 'c' && HEX[13] == 'd' && HEX[14] == 'e' && HEX[15] == 'f';
  }

  /** Packs and their indexes, and loose objects; bookkeeping, and files of the top directory, are not. */
  lemma ObjectPaths(name: string)
    ensures ObjectPath("pack/" + name)
    ensures forall a, b | a in "0123456789abcdef" && b in "0123456789abcdef" :: ObjectPath([a, b, '/'] + name)
    ensures ObjectPath(name) ==>
      || "pack/" <= name
      || (|name| >= 3 && name[0] in "0123456789abcdef" && name[1] in "0123456789abcdef" && name[2] == '/')
    ensures !ObjectPath("info/" + name) && ('/' !in name ==> !ObjectPath(name))
  {
    forall a, b | a in "0123456789abcdef" && b in "0123456789abcdef" ensures ObjectPath([a, b, '/'] + name) {
      HexDigits(a);
      HexDigits(b);
    }
    if ObjectPath(name) && !("pack/" <= name) {
      HexDigits(name[0]);
      HexDigits(name[1]);
    }
    assert "pack/"[0] == 'p' && "pack/"[4] == '/' && ("info/" + name)[0] == 'i';
    assert '/' !in name ==> !("pack/" <= name) by {
      if "pack/" <= name {
        assert name[4] == "pack/"[4];
      }
    }
  }

  method IsObjectPath(rel: string) returns (r: bool)
    ensures r <==> ObjectPath(rel)
    ensures r <==>
      || "pack/" <= rel
      || (|rel| >= 3 && rel[0] in "0123456789abcdef" && rel[1] in "0123456789abcdef" && rel[2] == '/')
  {
    ObjectPaths(rel);
    if |rel| >= 3 && rel[2] == '/' {
      HexDigits(rel[0]);
      HexDigits(rel[1]);
    }
    var n := IndexOf(rel, '/');
    SlashOfPackPath(rel);
    if n == |rel| {
      return false;
    }
    var head := rel[..n];
    if head == "pack" {
      return true;
    }
    if |head| != 2 {
      return false;
    }
    for i := 0 to |head|
      invariant forall k | 0 <= k < i :: IsHex(head[k])
    {
      if !IsHex(head[i]) {
        return false;
      }
    }
    assert IsHex(head[0]) && IsHex(head[1]);
    return true;
  }

  lemma SlashOfPackPath(rel: string)
    ensures "pack/" <= rel <==> IndexOf(rel, '/') == 4 < |rel| && rel[..4] == "pack"
  {
    if "pack/" <= rel {
      assert rel[0] == 'p' && rel[1] == 'a' && rel[2] == 'c' && rel[3] == 'k' && rel[4] == '/';
    }
    if IndexOf(rel, '/') == 4 < |rel| && rel[..4] == "pack" {
      assert rel[..5] == rel[..4] + [rel[4]];
    }
  }

  // ---------- The object store ----------

  /** One file of the quarantine: its path there, with slashes, and its content. */
  datatype File = File(rel: string, data: string)

  class ObjectStore {
    var blobs: map<string, string>

    constructor ()
      ensures blobs == map[]
    {
      blobs := map[];
    }

    method Put(key: string, data: string)
      modifies this
      ensures blobs == old(blobs)[key := data]
    {
      blobs := blobs[key := data];
    }
  }

  function ObjectKey(repoName: string, rel: string): string {
    repoName + "/objects/" + rel
  }

  /** The store after the object files of a quarantine have been put, in walk order. */
  function Uploaded(blobs: map<string, string>, repoName: string, files: seq<File>): map<string, string> {
    if files == [] then blobs
    else
      var before := Uploaded(blobs, repoName, files[..|files| - 1]);
      var f := files[|files| - 1];
      if ObjectPath(f.rel) then before[ObjectKey(repoName, f.rel) := f.data] else before
  }

  function ObjectKeys(repoName: string, files: seq<File>): set<string> {
    set f <- files | ObjectPath(f.rel) :: ObjectKey(repoName, f.rel)
  }

  lemma {:induction false} UploadedKeys(blobs: map<string, string>, repoName: string, files: seq<File>)
    ensures Uploaded(blobs, repoName, files).Keys == blobs.Keys + ObjectKeys(repoName, files)
    ensures forall key <- blobs | key !in ObjectKeys(repoName, files) ::
              Uploaded(blobs, repoName, files)[key] == blobs[key]
  {
    if files != [] {
      var front, last := files[..|files| - 1], files[|files| - 1];
      UploadedKeys(blobs, repoName, front);
      assert files == front + [last];
      assert ObjectKeys(repoName, files) ==
             ObjectKeys(repoName, front) + if ObjectPath(last.rel) then {ObjectKey(repoName, last.rel)} else {};
    }
  }

  lemma ObjectKeyInjective(repoName: string, a: string, b: string)
    requires ObjectKey(repoName, a) == ObjectKey(repoName, b)
    ensures a == b
  {
    var n := |repoName + "/objects/"|;
    assert ObjectKey(repoName, a)[n..] == a && ObjectKey(repoName, b)[n..] == b;
  }

  lemma {:induction false} UploadedValue(blobs: map<string, string>, repoName: string, files: seq<File>, i: nat)
    requires forall j, k | 0 <= j < k < |files| :: files[j].rel != files[k].rel
    requires i < |files| && ObjectPath(files[i].rel)
    ensures ObjectKey(repoName, files[i].rel) in Uploaded(blobs, repoName, files)
    ensures Uploaded(blobs, repoName, files)[ObjectKey(repoName, files[i].rel)] == files[i].data
  {
    var n := |files| - 1;
    if i < n {
      UploadedValue(blobs, repoName, files[..n], i);
      if ObjectKey(repoName, files[i].rel) == ObjectKey(repoName, files[n].rel) {
        ObjectKeyInjective(repoName, files[i].rel, files[n].rel);
      }
    }
  }

  lemma UploadedIsObject(blobs: map<string, string>, repoName: string, files: seq<File>, key: string)
    requires key in Uploaded(blobs, repoName, files) && key !in blobs
    ensures exists f <- files ::
              && key == repoName + "/objects/" + f.rel
              && ("pack/" <= f.rel
                  || (|f.rel| >= 3 && f.rel[0] in "0123456789abcdef" && f.rel[1] in "0123456789abcdef"
                      && f.rel[2] == '/'))
  {
    UploadedKeys(blobs, repoName, files);
    var f :| f in files && ObjectPath(f.rel) && ObjectKey(repoName, f.rel) == key;
    ObjectPaths(f.rel);
  }

  lemma ObjectIsUploaded(blobs: map<string, string>, repoName: string, files: seq<File>, f: File)
    requires f in files
    requires
      || "pack/" <= f.rel
      || (|f.rel| >= 3 && f.rel[0] in "0123456789abcdef" && f.rel[1] in "0123456789abcdef" && f.rel[2] == '/')
    ensures
      var uploaded := Uploaded(blobs, repoName, files);
      && repoName + "/objects/" + f.rel in uploaded
      && ((forall j, k | 0 <= j < k < |files| :: files[j].rel != files[k].rel) ==>
            uploaded[repoName + "/objects/" + f.rel] == f.data)
  {
    if "pack/" <= f.rel {
      ObjectPaths(f.rel[5..]);
      assert f.rel == "pack/" + f.rel[5..];
    } else {
      ObjectPaths(f.rel[3..]);
      assert f.rel == [f.rel[0], f.rel[1], '/'] + f.rel[3..];
    }
    UploadedKeys(blobs, repoName, files);
    assert ObjectKey(repoName, f.rel) in ObjectKeys(repoName, files);
    if forall j, k | 0 <= j < k < |files| :: files[j].rel != files[k].rel {
      var i :| 0 <= i < |files| && files[i] == f;
      UploadedValue(blobs, repoName, files, i);
    }
  }

  /**
   A complete upload leaves every object of the quarantine, each pack and its index and each
   loose object, in the store under its name, adds nothing that is not one, and takes nothing
   away.
   */
  lemma {:induction false} UploadedExactly(blobs: map<string, string>, repoName: string, files: seq<File>)
    requires forall j, k | 0 <= j < k < |files| :: files[j].rel != files[k].rel
    ensures forall f <- files
              | "pack/" <= f.rel
                || (|f.rel| >= 3 && f.rel[0] in "0123456789abcdef" && f.rel[1] in "0123456789abcdef"
                    && f.rel[2] == '/') ::
              && repoName + "/objects/" + f.rel in Uploaded(blobs, repoName, files)
              && Uploaded(blobs, repoName, files)[repoName + "/objects/" + f.rel] == f.data
    ensures forall key <- Uploaded(blobs, repoName, files) | key !in blobs ::
              exists f <- files ::
                && key == repoName + "/objects/" + f.rel
                && ("pack/" <= f.rel
                    || (|f.rel| >= 3 && f.rel[0] in "0123456789abcdef" && f.rel[1] in "0123456789abcdef"
                        && f.rel[2] == '/'))
    ensures forall key <- blobs ::
              && key in Uploaded(blobs, repoName, files)
              && ((forall f <- files :: key != repoName + "/objects/" + f.rel) ==>
                    Uploaded(blobs, repoName, files)[key] == blobs[key])
  {
    UploadedKeys(blobs, repoName, files);
    forall f <- files
      | "pack/" <= f.rel
        || (|f.rel| >= 3 && f.rel[0] in "0123456789abcdef" && f.rel[1] in "0123456789abcdef" && f.rel[2] == '/')
      ensures repoName + "/objects/" + f.rel in Uploaded(blobs, repoName, files)
      ensures Uploaded(blobs, repoName, files)[repoName + "/objects/" + f.rel] == f.data
    {
      ObjectIsUploaded(blobs, repoName, files, f);
    }
    forall key <- Uploaded(blobs, repoName, files) | key !in blobs
      ensures exists f <- files ::
                && key == repoName + "/objects/" + f.rel
                && ("pack/" <= f.rel
                    || (|f.rel| >= 3 && f.rel[0] in "0123456789abcdef" && f.rel[1] in "0123456789abcdef"
                        && f.rel[2] == '/'))
    {
      UploadedIsObject(blobs, repoName, files, key);
    }
  }

  lemma PutByName(blobs: map<string, string>, repoName: string, files: seq<File>)
    ensures forall f <- files
              | "pack/" <= f.rel
                || (|f.rel| >= 3 && f.rel[0] in "0123456789abcdef" && f.rel[1] in "0123456789abcdef"
                    && f.rel[2] == '/') ::
              repoName + "/objects/" + f.rel in Uploaded(blobs, repoName, files)
  {
    forall f <- files
      | "pack/" <= f.rel
        || (|f.rel| >= 3 && f.rel[0] in "0123456789abcdef" && f.rel[1] in "0123456789abcdef" && f.rel[2] == '/')
      ensures repoName + "/objects/" + f.rel in Uploaded(blobs, repoName, files)
    {
      ObjectIsUploaded(blobs, repoName, files, f);
    }
  }

  // ---------- Pushes in flight ----------

  datatype CommitInfo = CommitInfo(repoId: nat, repoName: string, ref: string, oldSha: string, newSha: string)

  class PushOutcome {
    var commits: seq<CommitInfo>

    constructor ()
      ensures commits == []
    {
      commits := [];
    }

    method Record(commits: seq<CommitInfo>)
      modifies this
      ensures this.commits == commits
    {
      this.commits := commits;
    }
  }

  class Mutex {
    var held: bool

    constructor ()
      ensures !held
    {
      held := false;
    }
  }

  datatype PushOp = PushOp(
    repoId: nat, repoName: string, defaultBranch: string, pusherIsAdmin: bool, outcome: PushOutcome)

  /** A push in flight, as Begin hands it to the request. */
  datatype Push = Push(nonce: string, outcome: PushOutcome, lock: Mutex)

  datatype RepoRow = RepoRow(id: nat, defaultBranch: string)

  /** Waiting: another push holds the mutex, and the request goes on waiting for it. */
  datatype BeginError = NotFound | AclFailed | Waiting | NoRandomness

  /** What can go wrong in one hook call besides what the request itself decides. */
  datatype Weather = Weather(putFails: Option<nat>, seamRejects: bool, cas: Fault)

  function ToUpdates(cs: seq<Command>): (us: seq<RefUpdate>)
    ensures |us| == |cs|
  {
    seq(|cs|, i requires 0 <= i < |cs| => RefUpdate(cs[i].ref, cs[i].oldSha, cs[i].newSha))
  }

  function Infos(repoId: nat, repoName: string, cs: seq<Command>): (r: seq<CommitInfo>)
    ensures |r| == |cs|
  {
    seq(|cs|, i requires 0 <= i < |cs| => CommitInfo(repoId, repoName, cs[i].ref, cs[i].oldSha, cs[i].newSha))
  }

  /** What is said about a push, field by field. */
  lemma InfosAreCommands(repoId: nat, repoName: string, cs: seq<Command>)
    ensures |Infos(repoId, repoName, cs)| == |cs|
    ensures forall k | 0 <= k < |cs| ::
              && Infos(repoId, repoName, cs)[k].repoId == repoId && Infos(repoId, repoName, cs)[k].repoName == repoName
              && Infos(repoId, repoName, cs)[k].ref == cs[k].ref
              && Infos(repoId, repoName, cs)[k].oldSha == cs[k].oldSha
              && Infos(repoId, repoName, cs)[k].newSha == cs[k].newSha
  {
  }

  /** An accepted push finds each ref's first old value in its row and leaves its last new value there. */
  lemma RowsOfPush(rows: Table, rows': Table, repo: nat, cs: seq<Command>)
    requires Accepted(rows, Keyed(repo, ToUpdates(cs))) && HoldsResult(rows, Keyed(repo, ToUpdates(cs)), rows')
    ensures forall k | 0 <= k < |cs| && (forall j | 0 <= j < k :: cs[j].ref != cs[k].ref) ::
              Current(rows, RefKey(repo, cs[k].ref)) == Normalize(cs[k].oldSha)
    ensures forall k | 0 <= k < |cs| && (forall j | k < j < |cs| :: cs[j].ref != cs[k].ref) ::
              Current(rows', RefKey(repo, cs[k].ref)) == Normalize(cs[k].newSha)
    ensures forall key: RefKey | key.repo != repo || (forall c <- cs :: c.ref != key.name) ::
              Current(rows', key) == Current(rows, key)
  {
    var us := Keyed(repo, ToUpdates(cs));
    forall k | 0 <= k < |cs| && (forall j | 0 <= j < k :: cs[j].ref != cs[k].ref)
      ensures Current(rows, RefKey(repo, cs[k].ref)) == Normalize(cs[k].oldSha)
    {
      assert Matches(rows, us, k);
      BeforeFirst(rows, us, k, us[k].key);
    }
    forall k | 0 <= k < |cs| && (forall j | k < j < |cs| :: cs[j].ref != cs[k].ref)
      ensures Current(rows', RefKey(repo, cs[k].ref)) == Normalize(cs[k].newSha)
    {
      BeforeIsLastWrite(rows, us, k, |us|);
    }
    forall key: RefKey | key.repo != repo || (forall c <- cs :: c.ref != key.name)
      ensures Current(rows', key) == Current(rows, key)
    {
      forall j | 0 <= j < |us| ensures us[j].key != key {
        assert cs[j] in cs;
      }
      BeforeFirst(rows, us, |us|, key);
    }
  }

  /** Only an admin may force the default branch. */
  predicate Allowed(op: PushOp, cs: seq<Command>) {
    op.pusherIsAdmin || forall c <- cs :: !(c.ref == "refs/heads/" + op.defaultBranch && c.force)
  }

  const REFUSED := Response(false, "rejected")

  class Writer {
    const md: Metadata
    const store: ObjectStore
    var locks: map<string, Mutex>
    var pushes: map<string, PushOp>

    constructor (md: Metadata, store: ObjectStore)
      ensures this.md == md && this.store == store && locks == map[] && pushes == map[]
    {
      this.md := md;
      this.store := store;
      locks := map[];
      pushes := map[];
    }

    ghost predicate Valid()
      reads this, md
    {
      WellFormed(md.rows)
    }

    /** A push to the repo is under way. */
    predicate IsHeld(repoName: string)
      reads this, if repoName in locks then {locks[repoName]} else {}
    {
      repoName in locks && locks[repoName].held
    }

    /** One mutex per repo name, for good. */
    method LockRepo(repoName: string) returns (m: Mutex)
      modifies this`locks
      ensures repoName in locks && locks[repoName] == m
      ensures repoName in old(locks) ==> locks == old(locks)
      ensures repoName !in old(locks) ==> fresh(m) && !m.held && locks == old(locks)[repoName := m]
    {
      if repoName !in locks {
        m := new Mutex();
        locks := locks[repoName := m];
      }
      m := locks[repoName];
    }

    method Register(op: PushOp, nonce: string)
      requires nonce !in pushes
      modifies this`pushes
      ensures pushes == old(pushes)[nonce := op]
    {
      pushes := pushes[nonce := op];
    }

    method Unregister(nonce: string)
      modifies this`pushes
      ensures pushes == old(pushes) - {nonce}
    {
      pushes := pushes - {nonce};
    }

    /** Looks a nonce up and burns it, so it is good for one call. */
    method Take(nonce: string) returns (op: Option<PushOp>)
      modifies this`pushes
      ensures op == if nonce in old(pushes) then Some(old(pushes)[nonce]) else None
      ensures pushes == old(pushes) - {nonce}
    {
      op := None;
      if nonce in pushes {
        op := Some(pushes[nonce]);
        pushes := pushes - {nonce};
      }
    }

    /**
     While another push holds the repo's mutex nothing happens; once it is free, the push takes
     it. nonce is the random value drawn, None when drawing fails; that it is new is the promise
     of 128 random bits.
     */
    method Begin(repoName: string, repo: Option<RepoRow>, admin: Option<bool>, nonce: Option<string>)
      returns (r: Result<Push, BeginError>)
      requires nonce.Some? ==> nonce.value !in pushes
      modifies this`locks, this`pushes, if repoName in locks then {locks[repoName]} else {}
      ensures r.Failure? ==> pushes == old(pushes)
      ensures r.Failure? ==> IsHeld(repoName) == old(IsHeld(repoName))
      ensures r == Failure(Waiting) <==> repo.Some? && admin.Some? && old(IsHeld(repoName))
      ensures r == Failure(Waiting) ==> locks == old(locks)
      ensures r.Success? <==> repo.Some? && admin.Some? && nonce.Some? && !old(IsHeld(repoName))
      ensures r.Success? ==>
        && r.value.nonce == nonce.value
        && repoName in locks && r.value.lock == locks[repoName] && r.value.lock.held
        && (if repoName in old(locks) then r.value.lock == old(locks)[repoName] else fresh(r.value.lock))
        && fresh(r.value.outcome) && r.value.outcome.commits == []
        && pushes == old(pushes)[r.value.nonce :=
             PushOp(repo.value.id, repoName, repo.value.defaultBranch, admin.value, r.value.outcome)]
    {
      if repo.None? {
        return Failure(NotFound);
      }
      if admin.None? {
        return Failure(AclFailed);
      }
      var lk := LockRepo(repoName);
      if lk.held {
        return Failure(Waiting);
      }
      lk.held := true;
      var outcome := new PushOutcome();
      if nonce.None? {
        lk.held := false;
        return Failure(NoRandomness);
      }
      Register(PushOp(repo.value.id, repoName, repo.value.defaultBranch, admin.value, outcome), nonce.value);
      return Success(Push(nonce.value, outcome, lk));
    }

    method Release(p: Push)
      modifies this`pushes, p.lock
      ensures pushes == old(pushes) - {p.nonce} && !p.lock.held
    {
      Unregister(p.nonce);
      p.lock.held := false;
    }

    /** Stops at the first file that cannot be put; what was put before stays. */
    method PutObjects(repoName: string, files: seq<File>, fails: Option<nat>) returns (ok: bool)
      modifies store
      ensures ok ==> store.blobs == Uploaded(old(store.blobs), repoName, files)
      ensures !ok ==> exists k | 0 <= k < |files| :: store.blobs == Uploaded(old(store.blobs), repoName, files[..k])
      ensures fails.None? ==> ok
      ensures ok ==> forall f <- files
                       | "pack/" <= f.rel
                         || (|f.rel| >= 3 && f.rel[0] in "0123456789abcdef" && f.rel[1] in "0123456789abcdef"
                             && f.rel[2] == '/') ::
                       repoName + "/objects/" + f.rel in store.blobs
    {
      var i := 0;
      while i < |files|
        invariant 0 <= i <= |files|
        invariant store.blobs == Uploaded(old(store.blobs), repoName, files[..i])
      {
        assert files[..i + 1][..i] == files[..i];
        var isObject := IsObjectPath(files[i].rel);
        if isObject {
          if fails == Some(i) {
            return false;
          }
          store.Put(ObjectKey(repoName, files[i].rel), files[i].data);
        }
        i := i + 1;
      }
      assert files[..i] == files;
      PutByName(old(store.blobs), repoName, files);
      return true;
    }

    /**
     One hook call. The nonce is gone afterwards in any case. A yes means that all the objects
     are in the store, all the ref updates took effect at once, and the outcome lists them; a
     no means that neither refs nor outcome changed, and after a refusal by the guard not even
     the store did.
     */
    method Handle(req: Request, files: seq<File>, weather: Weather) returns (resp: Response)
      requires Valid()
      modifies this`pushes, store, md, if req.nonce in pushes then {pushes[req.nonce].outcome} else {}
      ensures Valid()
      ensures pushes == old(pushes) - {req.nonce}
      ensures resp.ok ==>
        && req.nonce in old(pushes)
        && var op := old(pushes)[req.nonce];
        && Allowed(op, req.commands)
        && store.blobs == Uploaded(old(store.blobs), op.repoName, files)
        && Accepted(old(md.rows), Keyed(op.repoId, ToUpdates(req.commands)))
        && HoldsResult(old(md.rows), Keyed(op.repoId, ToUpdates(req.commands)), md.rows)
        && op.outcome.commits == Infos(op.repoId, op.repoName, req.commands)
      ensures resp.ok ==>
        var op, cs := old(pushes)[req.nonce], req.commands;
        && (op.pusherIsAdmin || forall c <- cs | c.ref == "refs/heads/" + op.defaultBranch :: !c.force)
        && (forall f <- files
              | "pack/" <= f.rel
                || (|f.rel| >= 3 && f.rel[0] in "0123456789abcdef" && f.rel[1] in "0123456789abcdef"
                    && f.rel[2] == '/') ::
              op.repoName + "/objects/" + f.rel in store.blobs)
        && (forall k | 0 <= k < |cs| && (forall j | k < j < |cs| :: cs[j].ref != cs[k].ref) ::
              Current(md.rows, RefKey(op.repoId, cs[k].ref)) == Normalize(cs[k].newSha))
      ensures !resp.ok ==> md.rows == old(md.rows)
      ensures !resp.ok && req.nonce in old(pushes) ==>
        old(pushes)[req.nonce].outcome.commits == old(pushes[req.nonce].outcome.commits)
      ensures req.nonce !in old(pushes) || !Allowed(old(pushes)[req.nonce], req.commands) ==>
        !resp.ok && store.blobs == old(store.blobs)
      ensures weather == Weather(None, false, NoFault) && req.nonce in old(pushes) ==>
        var op := old(pushes)[req.nonce];
        && (resp.ok <==>
            Allowed(op, req.commands) && Accepted(old(md.rows), Keyed(op.repoId, ToUpdates(req.commands))))
        && (Allowed(op, req.commands) <==>
            op.pusherIsAdmin || forall c <- req.commands | c.ref == "refs/heads/" + op.defaultBranch :: !c.force)
    {
      var taken := Take(req.nonce);
      if taken.None? {
        return REFUSED;
      }
      var op := taken.value;
      if !op.pusherIsAdmin {
        var protected := "refs/heads/" + op.defaultBranch;
        for i := 0 to |req.commands|
          invariant forall k | 0 <= k < i :: !(req.commands[k].ref == protected && req.commands[k].force)
        {
          if req.commands[i].ref == protected && req.commands[i].force {
            assert req.commands[i] in req.commands;
            return REFUSED;
          }
        }
      }
      assert Allowed(op, req.commands);
      var put := PutObjects(op.repoName, files, weather.putFails);
      if !put {
        return REFUSED;
      }
      if weather.seamRejects {
        return REFUSED;
      }
      var err := md.CASRefs(op.repoId, ToUpdates(req.commands), weather.cas);
      if err.Some? {
        return REFUSED;
      }
      op.outcome.Record(Infos(op.repoId, op.repoName, req.commands));
      RowsOfPush(old(md.rows), md.rows, op.repoId, req.commands);
      PutByName(old(store.blobs), op.repoName, files);
      return Response(true, "");
    }

    /** The hook runs for a push that committed something, once. */
    method FireAfterCommit(hasHook: bool, commits: seq<CommitInfo>) returns (delivered: seq<seq<CommitInfo>>)
      ensures delivered == if hasHook && commits != [] then [commits] else []
    {
      if !hasHook || |commits| == 0 {
        return [];
      }
      return [commits];
    }

    /**
     The hook calls receive-pack makes with one push's nonce. Only the first can be let through;
     the nonce is gone before a second one arrives.
     */
    method RunHookCalls(push: Push, calls: seq<HookCall>) returns (answers: seq<Response>)
      requires Valid() && push.nonce in pushes
      requires pushes[push.nonce].outcome == push.outcome && push.outcome.commits == []
      modifies this`pushes, store, md, push.outcome
      ensures Valid() && |answers| == |calls|
      ensures pushes == if calls == [] then old(pushes) else old(pushes) - {push.nonce}
      ensures forall k | 0 <= k < |answers| :: answers[k].ok ==> k == 0
      ensures answers == [] || !answers[0].ok ==> push.outcome.commits == [] && md.rows == old(md.rows)
      ensures answers != [] && answers[0].ok ==>
        var op := old(pushes)[push.nonce];
        && HoldsResult(old(md.rows), Keyed(op.repoId, ToUpdates(calls[0].commands)), md.rows)
        && push.outcome.commits == Infos(op.repoId, op.repoName, calls[0].commands)
      ensures answers != [] && answers[0].ok ==>
        var op, cs, infos := old(pushes)[push.nonce], calls[0].commands, push.outcome.commits;
        && |infos| == |cs|
        && (forall k | 0 <= k < |cs| ::
              && infos[k].repoId == op.repoId && infos[k].repoName == op.repoName
              && infos[k].ref == cs[k].ref && infos[k].oldSha == cs[k].oldSha && infos[k].newSha == cs[k].newSha)
        && (forall k | 0 <= k < |infos| && (forall j | k < j < |infos| :: infos[j].ref != infos[k].ref) ::
              Current(md.rows, RefKey(op.repoId, infos[k].ref)) == Normalize(infos[k].newSha))
    {
      answers := [];
      if calls == [] {
        return;
      }
      var first := calls[0];
      var resp := Handle(Request(push.nonce, first.commands, first.quarantine), first.files, first.weather);
      answers := [resp];
      label AfterFirst:
      for k := 1 to |calls|
        invariant |answers| == k && answers[0] == resp
        invariant forall j | 1 <= j < k :: !answers[j].ok
        invariant Valid() && pushes == old(pushes) - {push.nonce}
        invariant md.rows == old@AfterFirst(md.rows)
        invariant push.outcome.commits == old@AfterFirst(push.outcome.commits)
      {
        var call := calls[k];
        var again := Handle(Request(push.nonce, call.commands, call.quarantine), call.files, call.weather);
        answers := answers + [again];
      }
    }

    /**
     A whole push request: begin, materialize, hook calls, the after-commit hook, release. The
     after-commit hook gets exactly what the one accepted call committed, and afterwards the
     nonce is gone and the repo is free.
     */
    method ServeReceivePack(
      repoName: string, repo: Option<RepoRow>, admin: Option<bool>, nonce: Option<string>,
      materialized: bool, calls: seq<HookCall>, hasHook: bool)
      returns (answers: seq<Response>, delivered: seq<seq<CommitInfo>>)
      requires Valid()
      requires nonce.Some? ==> nonce.value !in pushes
      modifies this`locks, this`pushes, store, md, if repoName in locks then {locks[repoName]} else {}
      ensures Valid()
      ensures pushes == old(pushes) && IsHeld(repoName) == old(IsHeld(repoName))
      ensures old(IsHeld(repoName)) ==> answers == []
      ensures forall k | 0 <= k < |answers| :: answers[k].ok ==> k == 0
      ensures answers == [] || !answers[0].ok ==> delivered == [] && md.rows == old(md.rows)
      ensures answers != [] && answers[0].ok ==>
        && repo.Some? && |answers| == |calls|
        && HoldsResult(old(md.rows), Keyed(repo.value.id, ToUpdates(calls[0].commands)), md.rows)
        && delivered == if hasHook && calls[0].commands != []
                        then [Infos(repo.value.id, repoName, calls[0].commands)] else []
      ensures delivered != [] ==>
        && repo.Some? && answers != [] && answers[0].ok && |answers| == |calls|
        && |delivered| == 1 && |delivered[0]| == |calls[0].commands|
        && (forall k | 0 <= k < |delivered[0]| ::
              && delivered[0][k].repoId == repo.value.id && delivered[0][k].repoName == repoName
              && delivered[0][k].ref == calls[0].commands[k].ref
              && delivered[0][k].oldSha == calls[0].commands[k].oldSha
              && delivered[0][k].newSha == calls[0].commands[k].newSha)
        && (forall k | 0 <= k < |delivered[0]|
                       && (forall j | k < j < |delivered[0]| :: delivered[0][j].ref != delivered[0][k].ref) ::
              Current(md.rows, RefKey(repo.value.id, delivered[0][k].ref)) == Normalize(delivered[0][k].newSha))
    {
      answers, delivered := [], [];
      var begun := Begin(repoName, repo, admin, nonce);
      if begun.Failure? {
        return;
      }
      var push := begun.value;
      if materialized {
        answers := RunHookCalls(push, calls);
        delivered := FireAfterCommit(hasHook, push.outcome.commits);
      }
      Release(push);
    }
  }

  datatype HookCall = HookCall(commands: seq<Command>, quarantine: string, files: seq<File>, weather: Weather)
}
