/**
 The repository cache on local disk (internal/repo/materialize.go): refs mirrored from the
 metadata, objects copied from the store.
 */
module Materialize {
  import opened Strings
  import opened Wrappers

  datatype Ref = Ref(name: string, sha: string)

  function Look(m: map<string, string>, name: string): Option<string> {
    if name in m then Some(m[name]) else None
  }

  predicate IsLock(name: string) {
    |name| >= 5 && name[|name| - 5..] == ".lock"
  }

  /** Exactly the names that end in ".lock". */
  lemma LockNames(name: string)
    ensures IsLock(name) <==> exists stem :: name == stem + ".lock"
  {
    if IsLock(name) {
      assert name == name[..|name| - 5] + ".lock";
    }
    if stem :| name == stem + ".lock" {
      assert name[|name| - 5..] == ".lock";
    }
  }

  // ---------- The packed-refs file ----------

  function PackedLine(r: Ref): string {
    r.sha + " " + r.name + "\n"
  }

  function PackedText(refs: seq<Ref>): string {
    if refs == [] then "" else PackedText(refs[..|refs| - 1]) + PackedLine(refs[|refs| - 1])
  }

  /** One line "<sha> <name>" for each ref, in order. */
  lemma PackedLines(refs: seq<Ref>, name: string, sha: string)
    ensures PackedText([]) == ""
    ensures PackedText(refs + [Ref(name, sha)]) == PackedText(refs) + (sha + " " + name + "\n")
  {
    assert (refs + [Ref(name, sha)])[..|refs|] == refs;
  }

  /** How git reads the file: one "<sha> <name>" a line. */
  function ParsePacked(text: string): map<string, string>
    decreases |text|
  {
    if text == "" then map[]
    else
      var n := IndexOf(text, '\n');
      var line := text[..n];
      var rest := ParsePacked(if n < |text| then text[n + 1..] else "");
      var sp := IndexOf(line, ' ');
      if sp < |line| then rest[line[sp + 1..] := line[..sp]] else rest
  }

  /** What the rows of the refs table look like: names are its key, and neither part breaks a line. */
  predicate ProperRefs(refs: seq<Ref>) {
    && (forall i, j | 0 <= i < j < |refs| :: refs[i].name != refs[j].name)
    && forall r <- refs :: ' ' !in r.sha && '\n' !in r.sha && '\n' !in r.name
  }

  /** m holds exactly the listed refs. */
  ghost predicate Holds(m: map<string, string>, refs: seq<Ref>) {
    && m.Keys == (set r <- refs :: r.name)
    && forall r <- refs :: r.name in m && m[r.name] == r.sha
  }

  lemma Regroup(a: string, b: string, c: string)
    ensures a + b + c == a + (b + c)
  {
  }

  lemma PackedTextBack(refs: seq<Ref>, last: Ref)
    ensures PackedText(refs + [last]) == PackedText(refs) + PackedLine(last)
  {
    assert (refs + [last])[..|refs|] == refs;
  }

  lemma {:induction false} PackedTextFront(first: Ref, refs: seq<Ref>)
    ensures PackedText([first] + refs) == PackedLine(first) + PackedText(refs)
  {
    if refs == [] {
      assert [first] + refs == [] + [first];
      PackedTextBack([], first);
    } else {
      var init, last := refs[..|refs| - 1], refs[|refs| - 1];
      assert [first] + refs == ([first] + init) + [last] && refs == init + [last];
      PackedTextFront(first, init);
      PackedTextBack([first] + init, last);
      PackedTextBack(init, last);
      Regroup(PackedLine(first), PackedText(init), PackedLine(last));
    }
  }

  lemma ParseOneLine(r: Ref, rest: string)
    requires ' ' !in r.sha && '\n' !in r.sha && '\n' !in r.name
    ensures ParsePacked(PackedLine(r) + rest) == ParsePacked(rest)[r.name := r.sha]
  {
    var text := PackedLine(r) + rest;
    var line := r.sha + " " + r.name;
    assert text == line + "\n" + rest;
    IndexIs(text, '\n', |line|);
    assert text[..|line|] == line && text[|line| + 1..] == rest;
    IndexIs(line, ' ', |r.sha|);
    assert line[|r.sha| + 1..] == r.name && line[..|r.sha|] == r.sha;
  }

  lemma HoldsOneMore(m: map<string, string>, refs: seq<Ref>)
    requires refs != [] && Holds(m, refs[1..])
    requires forall i | 0 < i < |refs| :: refs[i].name != refs[0].name
    ensures Holds(m[refs[0].name := refs[0].sha], refs)
  {
    assert refs == [refs[0]] + refs[1..];
    forall r <- refs[1..] ensures r.name != refs[0].name {
      var i :| 0 <= i < |refs[1..]| && refs[1..][i] == r;
      assert refs[i + 1] == r;
    }
  }

  /** Reading the file back gives exactly the refs it was written from. */
  lemma {:induction false} PackedRoundTrip(refs: seq<Ref>)
    requires ProperRefs(refs)
    ensures Holds(ParsePacked(PackedText(refs)), refs)
  {
    if refs != [] {
      assert refs == [refs[0]] + refs[1..];
      PackedTextFront(refs[0], refs[1..]);
      PackedRoundTrip(refs[1..]);
      assert refs[0] in refs;
      ParseOneLine(refs[0], PackedText(refs[1..]));
      HoldsOneMore(ParsePacked(PackedText(refs[1..])), refs);
    }
  }

  // ---------- A mirror and a reader, interleaved ----------

  /** The refs of one repository on disk: loose files by name, and packed-refs. */
  datatype Disk = OnDisk(loose: map<string, string>, packed: map<string, string>)

  /** A loose file overrides packed-refs. */
  function Effective(d: Disk, name: string): Option<string> {
    if name in d.loose then Some(d.loose[name]) else Look(d.packed, name)
  }

  /**
   The disk states one mirror of the listed refs goes through: packed-refs is replaced first,
   then loose files that are not lock files go one at a time, in any order.
   */
  ghost predicate MirrorStates(ds: seq<Disk>, listed: map<string, string>) {
    && ds != []
    && (|ds| > 1 ==> ds[1] == ds[0].(packed := listed))
    && forall i | 1 <= i < |ds| - 1 :: ds[i + 1].packed == ds[i].packed && OneGone(ds[i].loose, ds[i + 1].loose)
  }

  /** One file that is not a lock file is unlinked; it may have vanished already. */
  ghost predicate OneGone(loose: map<string, string>, loose': map<string, string>) {
    exists gone :: !IsLock(gone) && loose' == loose - {gone}
  }

  ghost predicate Unlinks(steps: seq<map<string, string>>) {
    forall i | 0 <= i < |steps| - 1 :: OneGone(steps[i], steps[i + 1])
  }

  lemma UnlinksOneMore(steps: seq<map<string, string>>, name: string)
    requires steps != [] && Unlinks(steps) && !IsLock(name)
    ensures Unlinks(steps + [steps[|steps| - 1] - {name}])
  {
    var more := steps + [steps[|steps| - 1] - {name}];
    assert OneGone(more[|steps| - 1], more[|steps|]);
    forall i | 0 <= i < |more| - 1 ensures OneGone(more[i], more[i + 1]) {
      if i < |steps| - 1 {
        assert more[i] == steps[i] && more[i + 1] == steps[i + 1];
      }
    }
  }

  ghost predicate MirrorDone(ds: seq<Disk>) {
    |ds| > 1 && forall name <- ds[|ds| - 1].loose :: IsLock(name)
  }

  lemma {:induction false} LooseOnlyShrinks(ds: seq<Disk>, listed: map<string, string>, i: nat, name: string)
    requires MirrorStates(ds, listed) && i < |ds|
    ensures i > 0 ==> ds[i].packed == listed
    ensures name in ds[i].loose ==> name in ds[0].loose && ds[i].loose[name] == ds[0].loose[name]
    ensures i <= 1 || IsLock(name) ==> (name in ds[i].loose <==> name in ds[0].loose)
  {
    if i > 1 {
      LooseOnlyShrinks(ds, listed, i - 1, name);
      assert OneGone(ds[i - 1].loose, ds[i - 1 + 1].loose);
    }
  }

  /**
   A reader that checks the loose file at one moment of a mirror and packed-refs at a later
   one gets, for every ref, the value from before the mirror or the listed value. So it never
   misses a ref that has both.
   */
  lemma ReaderSeesOldOrNew(ds: seq<Disk>, listed: map<string, string>, i: nat, j: nat, name: string)
    requires MirrorStates(ds, listed) && i <= j < |ds|
    ensures
      var read := if name in ds[i].loose then Some(ds[i].loose[name]) else Look(ds[j].packed, name);
      && (read == Effective(ds[0], name) || read == Look(listed, name))
      && (Effective(ds[0], name).Some? && name in listed ==> read.Some?)
  {
    LooseOnlyShrinks(ds, listed, i, name);
    LooseOnlyShrinks(ds, listed, j, name);
  }

  /** When the mirror is done, the refs on disk, lock files aside, are exactly the listed ones. */
  lemma MirrorEndsExact(ds: seq<Disk>, listed: map<string, string>, name: string)
    requires MirrorStates(ds, listed) && MirrorDone(ds) && forall stem :: name != stem + ".lock"
    ensures name !in ds[|ds| - 1].loose
    ensures Effective(ds[|ds| - 1], name) == Look(listed, name)
  {
    LockNames(name);
    LooseOnlyShrinks(ds, listed, |ds| - 1, name);
  }

  ghost function MirrorStatesOf(d: Disk, listed: map<string, string>, steps: seq<map<string, string>>): (ds: seq<Disk>)
    requires steps != [] && steps[0] == d.loose && Unlinks(steps)
    ensures MirrorStates(ds, listed) && |ds| == |steps| + 1
    ensures ds[0] == d && ds[|steps|] == OnDisk(steps[|steps| - 1], listed)
  {
    var ds := [d] + seq(|steps|, i requires 0 <= i < |steps| => OnDisk(steps[i], listed));
    assert ds[1] == OnDisk(steps[0], listed);
    assert forall i | 1 <= i < |ds| - 1 :: OneGone(ds[i].loose, ds[i + 1].loose) by {
      forall i | 1 <= i < |ds| - 1 ensures OneGone(ds[i].loose, ds[i + 1].loose) {
        assert OneGone(steps[i - 1], steps[i - 1 + 1]);
      }
    }
    ds
  }

  lemma MirrorEndsAt(ds: seq<Disk>, listed: map<string, string>)
    requires MirrorStates(ds, listed) && MirrorDone(ds)
    ensures forall name | !IsLock(name) ::
              name !in ds[|ds| - 1].loose && Effective(ds[|ds| - 1], name) == Look(listed, name)
  {
    forall name | !IsLock(name)
      ensures name !in ds[|ds| - 1].loose && Effective(ds[|ds| - 1], name) == Look(listed, name)
    {
      LockNames(name);
      MirrorEndsExact(ds, listed, name);
    }
  }

  // ---------- The code ----------

  /** What of the listed refs is on disk when packed-refs has been written from them. */
  function Listed(refs: seq<Ref>): map<string, string> {
    ParsePacked(PackedText(refs))
  }

  const HYDRATE_CONCURRENCY: nat := 16

  predicate Distinct(keys: seq<string>) {
    forall i, j | 0 <= i < j < |keys| :: keys[i] != keys[j]
  }

  /** The keys before i have been looked at: each is there, or its copy is under way or has failed. */
  ghost predicate Hydrating(
    before: map<string, string>, objects: map<string, string>, keys: seq<string>, blobs: map<string, string>,
    i: nat, running: set<string>, failed: set<string>)
    requires forall key <- keys :: key in blobs
  {
    && i <= |keys|
    && (forall key <- running + failed :: key in keys[..i] && key !in before)
    && (forall rel <- before :: rel in objects && objects[rel] == before[rel])
    && (forall rel <- objects | rel !in before :: rel in keys && objects[rel] == blobs[rel])
    && (forall key <- keys[..i] :: key in objects || key in running || key in failed)
    && (Distinct(keys) ==> failed !! running && failed !! objects.Keys)
  }

  lemma CopyStarts(
    before: map<string, string>, objects: map<string, string>, keys: seq<string>, blobs: map<string, string>,
    i: nat, running: set<string>, failed: set<string>)
    requires (forall key <- keys :: key in blobs) && i < |keys|
    requires Hydrating(before, objects, keys, blobs, i, running, failed)
    ensures
      var more := if keys[i] in objects then {} else {keys[i]};
      Hydrating(before, objects, keys, blobs, i + 1, running + more, failed)
  {
    assert keys[..i + 1] == keys[..i] + [keys[i]];
  }

  lemma CopyEnds(
    before: map<string, string>, objects: map<string, string>, keys: seq<string>, blobs: map<string, string>,
    i: nat, running: set<string>, failed: set<string>, key: string)
    requires (forall key <- keys :: key in blobs) && key in running
    requires Hydrating(before, objects, keys, blobs, i, running, failed)
    ensures key in keys && key in blobs
    ensures Hydrating(before, objects[key := blobs[key]], keys, blobs, i, running - {key}, failed)
    ensures key !in objects ==> Hydrating(before, objects, keys, blobs, i, running - {key}, failed + {key})
  {
    assert key in keys[..i];
  }

  class RepoDir {
    /** Files under refs/, by ref name. */
    var loose: map<string, string>
    /** The text of packed-refs. */
    var packedRefs: string
    /** Files under objects/, by their path below the repository. */
    var objects: map<string, string>
    /** The branch that HEAD points to. */
    var head: string
    /** Whether no call to the file system, to git or to the store fails. */
    const reliable: bool

    /** A bare repository as `git init` leaves it. */
    constructor (head: string, reliable: bool)
      ensures loose == map[] && packedRefs == "" && objects == map[]
      ensures this.head == head && this.reliable == reliable
    {
      loose, packedRefs, objects := map[], "", map[];
      this.head, this.reliable := head, reliable;
    }

    function View(): Disk
      reads this
    {
      OnDisk(loose, ParsePacked(packedRefs))
    }

    /** The file is replaced as a whole or not at all. */
    method WritePackedRefs(refs: seq<Ref>) returns (ok: bool)
      modifies this`packedRefs
      ensures packedRefs == if ok then PackedText(refs) else old(packedRefs)
      ensures reliable ==> ok
    {
      var b := "";
      for i := 0 to |refs|
        invariant b == PackedText(refs[..i])
      {
        assert refs[..i + 1][..i] == refs[..i];
        b := b + refs[i].sha;
        b := b + " ";
        b := b + refs[i].name;
        b := b + "\n";
        assert b == PackedText(refs[..i]) + PackedLine(refs[i]);
      }
      assert refs[..|refs|] == refs;
      ok := *;
      ok := ok || reliable;
      if ok {
        packedRefs := b;
      }
    }

    /**
     Every loose file goes but the lock files. An error ends the walk; some files are left then.
     steps records the disk after each removal.
     */
    method RemoveLooseRefs() returns (ok: bool, ghost steps: seq<map<string, string>>)
      modifies this`loose
      ensures reliable ==> ok
      ensures ok ==> loose == map name <- old(loose) | IsLock(name) :: old(loose)[name]
      ensures ok ==> forall name <- loose :: exists stem :: name == stem + ".lock"
      ensures forall stem: string | stem + ".lock" in old(loose) ::
                stem + ".lock" in loose && loose[stem + ".lock"] == old(loose)[stem + ".lock"]
      ensures forall name <- loose :: name in old(loose) && loose[name] == old(loose)[name]
      ensures steps != [] && steps[0] == old(loose) && steps[|steps| - 1] == loose
      ensures Unlinks(steps)
    {
      var walk := loose.Keys;
      steps := [loose];
      forall name: string ensures IsLock(name) <==> exists stem :: name == stem + ".lock" {
        LockNames(name);
      }
      while walk != {}
        invariant walk <= old(loose).Keys
        invariant loose == map name <- old(loose) | name in walk || IsLock(name) :: old(loose)[name]
        invariant steps != [] && steps[0] == old(loose) && steps[|steps| - 1] == loose
        invariant Unlinks(steps)
        decreases walk
      {
        ok := *;
        if !ok && !reliable {
          return false, steps;
        }
        var name :| name in walk;
        walk := walk - {name};
        if !IsLock(name) {
          UnlinksOneMore(steps, name);
          loose := loose - {name};
          steps := steps + [loose];
        }
      }
      ok := true;
    }

    /**
     Afterwards the refs on disk are exactly the listed ones, and the states on the way are
     those of MirrorStates. A failure ends it in one of these states.
     */
    method MirrorRefs(refs: seq<Ref>) returns (ok: bool, ghost states: seq<Disk>)
      requires ProperRefs(refs)
      modifies this`loose, this`packedRefs
      ensures reliable ==> ok
      ensures Holds(Listed(refs), refs) && MirrorStates(states, Listed(refs))
      ensures states[0] == old(View()) && states[|states| - 1] == View()
      ensures ok ==> MirrorDone(states) && ParsePacked(packedRefs) == Listed(refs)
      ensures ok ==> forall name | (forall stem :: name != stem + ".lock") ::
                       name !in loose && Effective(View(), name) == Look(Listed(refs), name)
      ensures ok ==> forall r <- refs | (forall stem :: r.name != stem + ".lock") ::
                       r.name !in loose && r.name in ParsePacked(packedRefs) && ParsePacked(packedRefs)[r.name] == r.sha
      ensures forall stem: string | stem + ".lock" in old(loose) ::
                stem + ".lock" in loose && loose[stem + ".lock"] == old(loose)[stem + ".lock"]
    {
      PackedRoundTrip(refs);
      forall name: string ensures IsLock(name) <==> exists stem :: name == stem + ".lock" {
        LockNames(name);
      }
      ok := WritePackedRefs(refs);
      if !ok {
        return false, [View()];
      }
      ghost var steps;
      ok, steps := RemoveLooseRefs();
      states := MirrorStatesOf(old(View()), Listed(refs), steps);
      if ok {
        MirrorEndsAt(states, Listed(refs));
      }
    }

    /** One copy ends: the object is there, or it is not and the copy has failed. */
    method CopyObject(key: string, blob: string) returns (ok: bool)
      modifies this`objects
      ensures objects == if ok then old(objects)[key := blob] else old(objects)
      ensures reliable ==> ok
    {
      ok := *;
      ok := ok || reliable;
      if ok {
        objects := objects[key := blob];
      }
    }

    /**
     Copies what is missing and touches nothing that is there. Up to HYDRATE_CONCURRENCY copies
     are under way at a time and end in any order. When one fails, others may still succeed.
     */
    method HydrateObjects(keys: seq<string>, blobs: map<string, string>) returns (ok: bool)
      requires forall key <- keys :: key in blobs
      modifies this`objects
      ensures reliable ==> ok
      ensures forall rel <- old(objects) :: rel in objects && objects[rel] == old(objects)[rel]
      ensures forall rel <- objects | rel !in old(objects) :: rel in keys && objects[rel] == blobs[rel]
      ensures ok ==> forall key <- keys :: key in objects
      ensures !ok && Distinct(keys) ==> exists key <- keys :: key !in objects
    {
      var i, running: set<string> := 0, {};
      ghost var failed: set<string> := {};
      ok := true;
      while i < |keys| || running != {}
        invariant 0 <= i && Hydrating(old(objects), objects, keys, blobs, i, running, failed)
        invariant running !! objects.Keys
        invariant ok <==> failed == {}
        invariant reliable ==> ok
        decreases 2 * (|keys| - i) + |running|
      {
        var another: bool := *;
        if i < |keys| && |running| < HYDRATE_CONCURRENCY && (running == {} || another) {
          CopyStarts(old(objects), objects, keys, blobs, i, running, failed);
          running := running + if keys[i] in objects then {} else {keys[i]};
          i := i + 1;
        } else {
          var key :| key in running;
          CopyEnds(old(objects), objects, keys, blobs, i, running, failed, key);
          running := running - {key};
          var copied := CopyObject(key, blobs[key]);
          if !copied {
            failed := failed + {key};
            ok := false;
          }
        }
      }
      assert keys[..i] == keys;
    }

    /** symbolic-ref. */
    method SetHead(branch: string) returns (ok: bool)
      modifies this`head
      ensures head == if ok then branch else old(head)
      ensures reliable ==> ok
    {
      ok := *;
      ok := ok || reliable;
      if ok {
        head := branch;
      }
    }

    /**
     Objects first, then refs, then HEAD. On success the directory holds every listed object
     and exactly the listed refs, whatever it held before: a warm cache and a rebuilt one agree.
     Whatever fails, refs change only once every listed object is there, and only along the
     states of a mirror.
     */
    method Materialize(keys: seq<string>, blobs: map<string, string>, refs: seq<Ref>, branch: string)
      returns (ok: bool, ghost states: seq<Disk>)
      requires forall key <- keys :: key in blobs
      requires ProperRefs(refs)
      modifies this
      ensures reliable ==> ok
      ensures ok ==> head == branch && Holds(ParsePacked(packedRefs), refs)
      ensures ok ==> forall name | (forall stem :: name != stem + ".lock") ::
                       name !in loose && Effective(View(), name) == Look(Listed(refs), name)
      ensures ok ==> forall r <- refs | (forall stem :: r.name != stem + ".lock") ::
                       r.name !in loose && r.name in ParsePacked(packedRefs) && ParsePacked(packedRefs)[r.name] == r.sha
      ensures forall stem: string | stem + ".lock" in old(loose) ::
                stem + ".lock" in loose && loose[stem + ".lock"] == old(loose)[stem + ".lock"]
      ensures ok || View() != old(View()) || head != old(head) ==> forall key <- keys :: key in objects
      ensures MirrorStates(states, Listed(refs)) && states[0] == old(View()) && states[|states| - 1] == View()
      ensures forall rel <- old(objects) :: rel in objects && objects[rel] == old(objects)[rel]
    {
      states := [View()];
      ok := HydrateObjects(keys, blobs);
      if ok {
        ok, states := MirrorRefs(refs);
      }
      if ok {
        ok := SetHead(branch);
      }
    }
  }
}
