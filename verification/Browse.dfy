/**
 Ref and path in one URL (internal/webui/browse.go): greedy resolution, and the URLs that the
 pages print.
 */
module Browse {
  import opened Strings
  import opened Wrappers

  const HEADS := "refs/heads/"
  const TAGS := "refs/tags/"

  /** The full name of a branch or tag. */
  function Qualify(name: string, branch: bool): string {
    if branch then HEADS + name else TAGS + name
  }

  predicate IsRef(refs: seq<string>, name: string, branch: bool) {
    Qualify(name, branch) in refs
  }

  /** A branch or a tag. */
  predicate Named(refs: seq<string>, name: string) {
    IsRef(refs, name, true) || IsRef(refs, name, false)
  }

  // ---------- What greedy resolution means ----------

  /** cand is a prefix of rest that ends at a slash or at the end. */
  predicate SlashPrefix(cand: string, rest: string) {
    cand <= rest && (|cand| == |rest| || rest[|cand|] == '/')
  }

  /** A ref and a path, as they stand in a URL. */
  function Joined(ref: string, path: string): string {
    if path == "" then ref else ref + "/" + path
  }

  predicate Trimmed(s: string) {
    s == "" || (s[0] != '/' && s[|s| - 1] != '/')
  }

  function TrimLeft(s: string): string {
    if s != "" && s[0] == '/' then TrimLeft(s[1..]) else s
  }

  function TrimRight(s: string): string {
    if s != "" && s[|s| - 1] == '/' then TrimRight(s[..|s| - 1]) else s
  }

  function Trim(s: string): string {
    TrimRight(TrimLeft(s))
  }

  datatype Resolution = Resolution(name: string, path: string, branch: bool)

  /** The documented rule, for what is left after trimming: the longest prefix wins, then a branch. */
  ghost predicate Picks(refs: seq<string>, rest: string, r: Resolution) {
    && Joined(r.name, r.path) == rest
    && IsRef(refs, r.name, r.branch)
    && (!r.branch ==> !IsRef(refs, r.name, true))
    && forall cand | SlashPrefix(cand, rest) && Named(refs, cand) :: |cand| <= |r.name|
  }

  ghost predicate Resolves(refs: seq<string>, rest: string, defaultBranch: string, r: Option<Resolution>) {
    if Trim(rest) == "" then r == Some(Resolution(defaultBranch, "", true))
    else if r.Some? then SlashPrefix(r.value.name, Trim(rest)) && Picks(refs, Trim(rest), r.value)
    else forall cand | SlashPrefix(cand, Trim(rest)) :: !Named(refs, cand)
  }

  lemma TrimIsTrimmed(s: string)
    ensures Trimmed(Trim(s))
  {
    TrimLeftStart(s);
    TrimRightEnd(TrimLeft(s));
  }

  lemma {:induction false} TrimLeftStart(s: string)
    ensures TrimLeft(s) == "" || TrimLeft(s)[0] != '/'
  {
    if s != "" && s[0] == '/' {
      TrimLeftStart(s[1..]);
    }
  }

  lemma {:induction false} TrimRightEnd(s: string)
    ensures TrimRight(s) <= s
    ensures TrimRight(s) == "" || TrimRight(s)[|TrimRight(s)| - 1] != '/'
    ensures forall i | |TrimRight(s)| <= i < |s| :: s[i] == '/'
  {
    if s != "" && s[|s| - 1] == '/' {
      TrimRightEnd(s[..|s| - 1]);
    }
  }

  /** Trimming takes the slashes at both ends, and nothing else. */
  lemma TrimIs(s: string) returns (a: string, b: string)
    ensures s == a + Trim(s) + b && (forall c <- a :: c == '/') && (forall c <- b :: c == '/')
    ensures Trim(s) == "" || (Trim(s)[0] != '/' && Trim(s)[|Trim(s)| - 1] != '/')
  {
    TrimIsTrimmed(s);
    a := TrimLeftTakes(s);
    TrimRightEnd(TrimLeft(s));
    b := TrimLeft(s)[|Trim(s)|..];
  }

  lemma {:induction false} TrimLeftTakes(s: string) returns (a: string)
    ensures s == a + TrimLeft(s) && forall c <- a :: c == '/'
  {
    a := "";
    if s != "" && s[0] == '/' {
      var more := TrimLeftTakes(s[1..]);
      a := "/" + more;
    }
  }

  /** What the answer says, for the trimmed URL: the ref is there, and what is left is the path. */
  lemma ResolvesToRef(refs: seq<string>, rest: string, defaultBranch: string, r: Option<Resolution>)
    requires Resolves(refs, rest, defaultBranch, r)
    ensures Trim(rest) == "" ==> r == Some(Resolution(defaultBranch, "", true))
    ensures Trim(rest) != "" && r.Some? ==>
              var name, path := r.value.name, r.value.path;
              && Trim(rest) == (if path == "" then name else name + "/" + path)
              && (r.value.branch ==> "refs/heads/" + name in refs)
              && (!r.value.branch ==> "refs/tags/" + name in refs && "refs/heads/" + name !in refs)
  {
  }

  /** And no longer prefix up to a slash names a branch or tag; without an answer none does. */
  lemma ResolvesToLongest(
    refs: seq<string>, rest: string, defaultBranch: string, r: Option<Resolution>, name: string, tail: string)
    requires Resolves(refs, rest, defaultBranch, r) && Trim(rest) != ""
    requires "refs/heads/" + name in refs || "refs/tags/" + name in refs
    requires Trim(rest) == name || Trim(rest) == name + "/" + tail
    ensures r.Some? && |name| <= |r.value.name|
  {
    assert Qualify(name, true) == "refs/heads/" + name && Qualify(name, false) == "refs/tags/" + name;
    assert Named(refs, name) && SlashPrefix(name, Trim(rest));
  }

  /** There is one answer. */
  lemma ResolvesUnique(
    refs: seq<string>, rest: string, defaultBranch: string, r: Option<Resolution>, r': Option<Resolution>)
    requires Resolves(refs, rest, defaultBranch, r) && Resolves(refs, rest, defaultBranch, r')
    ensures r == r'
  {
    var t := Trim(rest);
    if t != "" && r.Some? && r'.Some? {
      assert |r.value.name| == |r'.value.name|;
      assert r.value.name == t[..|r.value.name|] == r'.value.name;
      TrimIsTrimmed(rest);
      PathOf(t, r.value);
      PathOf(t, r'.value);
    }
  }

  /** In a trimmed rest the path is what follows the slash after the name. */
  lemma PathOf(rest: string, r: Resolution)
    requires Trimmed(rest) && Joined(r.name, r.path) == rest
    ensures r.path == if |r.name| == |rest| then "" else rest[|r.name| + 1..]
  {
  }

  /** The length of the longest slash-bounded prefix, up to n, that names a ref. */
  function Longest(refs: seq<string>, rest: string, n: nat): (r: Option<nat>)
    requires n <= |rest|
    ensures r.Some? ==> r.value <= n && SlashPrefix(rest[..r.value], rest) && Named(refs, rest[..r.value])
    ensures forall k | (if r.Some? then r.value < k else 0 <= k) && k <= n && SlashPrefix(rest[..k], rest) ::
              !Named(refs, rest[..k])
  {
    if SlashPrefix(rest[..n], rest) && Named(refs, rest[..n]) then Some(n)
    else if n == 0 then None
    else Longest(refs, rest, n - 1)
  }

  function ResolvedAt(refs: seq<string>, t: string, n: nat): Resolution
    requires n <= |t|
  {
    Resolution(t[..n], if n == |t| then "" else t[n + 1..], IsRef(refs, t[..n], true))
  }

  lemma LongestPicks(refs: seq<string>, t: string, n: nat)
    requires Trimmed(t) && Longest(refs, t, |t|) == Some(n)
    ensures SlashPrefix(ResolvedAt(refs, t, n).name, t) && Picks(refs, t, ResolvedAt(refs, t, n))
  {
    assert n < |t| ==> Joined(t[..n], t[n + 1..]) == t;
    assert n == |t| ==> t[..n] == t;
    forall cand | SlashPrefix(cand, t) && Named(refs, cand) ensures |cand| <= n {
      assert cand == t[..|cand|];
    }
  }

  lemma NoneNamed(refs: seq<string>, t: string)
    requires Longest(refs, t, |t|).None?
    ensures forall cand | SlashPrefix(cand, t) :: !Named(refs, cand)
  {
    forall cand | SlashPrefix(cand, t) ensures !Named(refs, cand) {
      assert cand == t[..|cand|];
    }
  }

  /** The answer that the documented rule gives. */
  function Resolve(refs: seq<string>, rest: string, defaultBranch: string): (r: Option<Resolution>)
    ensures Resolves(refs, rest, defaultBranch, r)
  {
    var t := Trim(rest);
    if t == "" then Some(Resolution(defaultBranch, "", true))
    else
      match Longest(refs, t, |t|)
      case None => NoneNamed(refs, t); None
      case Some(n) => TrimIsTrimmed(rest); LongestPicks(refs, t, n); Some(ResolvedAt(refs, t, n))
  }

  // ---------- Printing and resolving ----------

  function TreeURL(repo: string, ref: string, path: string): string {
    "/" + repo + "/tree/" + ref + if path == "" then "" else "/" + path
  }

  /** What the route passes on: the URL after "/{repo}/tree/". */
  function RestOf(repo: string, url: string): Option<string> {
    var prefix := "/" + repo + "/tree/";
    if prefix <= url then Some(url[|prefix|..]) else None
  }

  lemma TreeURLs(repo: string, ref: string, path: string)
    ensures TreeURL(repo, ref, "") == "/" + repo + "/tree/" + ref
    ensures path != "" ==> TreeURL(repo, ref, path) == "/" + repo + "/tree/" + ref + "/" + path
    ensures RestOf(repo, "/" + repo + "/tree/" + path) == Some(path)
  {
    assert TreeURL(repo, ref, "") == "/" + repo + "/tree/" + ref + "";
    var prefix := "/" + repo + "/tree/";
    assert prefix <= prefix + path && (prefix + path)[|prefix|..] == path;
  }

  lemma RestOfTreeURL(repo: string, ref: string, path: string)
    ensures RestOf(repo, TreeURL(repo, ref, path)) == Some(Joined(ref, path))
  {
    var prefix := "/" + repo + "/tree/";
    assert TreeURL(repo, ref, path) == prefix + Joined(ref, path);
  }

  /** No longer slash-bounded prefix of ref/path names a ref. */
  predicate Unshadowed(refs: seq<string>, ref: string, path: string) {
    forall n | |ref| < n <= |Joined(ref, path)| && SlashPrefix(Joined(ref, path)[..n], Joined(ref, path)) ::
      !Named(refs, Joined(ref, path)[..n])
  }

  lemma {:induction false} TrimOfTrimmed(s: string)
    requires Trimmed(s)
    ensures Trim(s) == s
  {
  }

  /**
   The URL printed for a ref and a path resolves back to them exactly when no longer
   slash-bounded prefix of ref/path names a ref; and then as a branch, if there is one.
   */
  lemma TreeURLRoundTripIff(
    refs: seq<string>, repo: string, ref: string, path: string, defaultBranch: string, r: Option<Resolution>)
    requires ref != "" && Named(refs, ref) && Trimmed(Joined(ref, path))
    requires Resolves(refs, RestOf(repo, TreeURL(repo, ref, path)).value, defaultBranch, r)
    ensures r == Some(Resolution(ref, path, IsRef(refs, ref, true))) <==> Unshadowed(refs, ref, path)
  {
    var rest := Joined(ref, path);
    RestOfTreeURL(repo, ref, path);
    TrimOfTrimmed(rest);
    assert SlashPrefix(ref, rest);
    if Unshadowed(refs, ref, path) {
      forall cand | SlashPrefix(cand, rest) && Named(refs, cand) ensures |cand| <= |ref| {
        assert cand == rest[..|cand|];
      }
      assert Resolves(refs, rest, defaultBranch, Some(Resolution(ref, path, IsRef(refs, ref, true))));
      ResolvesUnique(refs, rest, defaultBranch, r, Some(Resolution(ref, path, IsRef(refs, ref, true))));
    }
  }

  /** crumb is where a breadcrumb of the path points. */
  predicate IsCrumb(crumb: string, path: string) {
    crumb != "" && SlashPrefix(crumb, Trim(path))
  }

  lemma {:induction false} TrimRightAppend(a: string, c: string)
    requires TrimRight(c) != ""
    ensures TrimRight(a + c) == a + TrimRight(c)
  {
    if c[|c| - 1] == '/' {
      assert (a + c)[..|a + c| - 1] == a + c[..|c| - 1];
      TrimRightAppend(a, c[..|c| - 1]);
    }
  }

  lemma {:induction false} PrefixCons(a: string, p: string, rest: string)
    ensures SlashPrefix(a + "/" + p, a + "/" + rest) <==> SlashPrefix(p, rest)
  {
    var long, whole := a + "/" + p, a + "/" + rest;
    if SlashPrefix(p, rest) {
      assert rest[..|p|] == p;
      assert whole[..|long|] == long;
    }
    if SlashPrefix(long, whole) {
      assert whole[..|long|] == long;
      assert whole[..|long|][|a| + 1..] == rest[..|p|] && long[|a| + 1..] == p;
    }
  }

  /** What is left of a breadcrumb after trimming is still a slash-bounded prefix of the path. */
  lemma {:induction false} CrumbCore(path: string, crumb: string)
    requires Trimmed(path) && IsCrumb(crumb, path)
    ensures TrimRight(crumb) != "" && SlashPrefix(TrimRight(crumb), path)
    ensures crumb[0] != '/' && TrimRight(crumb)[|TrimRight(crumb)| - 1] != '/'
  {
    var core := TrimRight(crumb);
    TrimOfTrimmed(path);
    TrimRightEnd(crumb);
    assert crumb[0] == path[0];
    assert core == path[..|core|];
    assert |core| < |crumb| ==> crumb[|core|] == path[|core|];
  }

  lemma {:induction false} PrefixUnder(rest: string, name: string, path: string, core: string)
    requires rest == name + "/" + path && SlashPrefix(core, path) && core != ""
    ensures SlashPrefix(Joined(name, core), rest)
  {
    PrefixCons(name, core, path);
  }

  /** A path that has breadcrumbs comes with a name, and both ends of the two together are clean. */
  lemma CrumbedPage(refs: seq<string>, rest: string, defaultBranch: string, r: Resolution)
    requires Resolves(refs, rest, defaultBranch, Some(r)) && Trim(r.path) != ""
    ensures Trim(rest) == r.name + "/" + r.path && r.name != "" && r.name[0] != '/'
    ensures r.branch == IsRef(refs, r.name, true) && Named(refs, r.name)
  {
    TrimIsTrimmed(rest);
    assert r.path != "";
    assert Trim(rest)[0] != '/';
  }

  /** What is left of a breadcrumb after trimming is a slash-bounded prefix of the trimmed path. */
  lemma {:induction false} CrumbURL(name: string, path: string, crumb: string)
    requires name != "" && name[0] != '/' && IsCrumb(crumb, path)
    ensures TrimRight(crumb) != "" && Trim(Joined(name, crumb)) == Joined(name, TrimRight(crumb))
    ensures Trimmed(Joined(name, TrimRight(crumb)))
    ensures SlashPrefix(Joined(name, TrimRight(crumb)), Joined(name, Trim(path)))
  {
    TrimIsTrimmed(path);
    TrimOfTrimmed(Trim(path));
    CrumbCore(Trim(path), crumb);
    TrimRightAppend(name + "/", crumb);
    PrefixUnder(name + "/" + Trim(path), name, Trim(path), TrimRight(crumb));
    assert TrimLeft(name + "/" + crumb) == name + "/" + crumb;
  }

  lemma {:induction false} PrefixUnshadowed(refs: seq<string>, name: string, path: string, core: string)
    requires Unshadowed(refs, name, path) && SlashPrefix(Joined(name, core), Joined(name, path))
    ensures Unshadowed(refs, name, core)
  {
    var short, rest := Joined(name, core), Joined(name, path);
    forall n | |name| < n <= |short| && SlashPrefix(short[..n], short) ensures !Named(refs, short[..n]) {
      assert short[..n] == rest[..n];
      assert n < |short| ==> short[n] == rest[n];
      assert SlashPrefix(rest[..n], rest);
    }
  }

  /** The URL of the breadcrumb leads to the ref of the page. */
  ghost predicate CrumbStays(
    refs: seq<string>, defaultBranch: string, r: Resolution, crumb: string, repo: string)
  {
    Resolve(refs, RestOf(repo, TreeURL(repo, r.name, crumb)).value, defaultBranch)
    == Some(Resolution(r.name, TrimRight(crumb), r.branch))
  }

  /**
   One breadcrumb of a page: its URL resolves to the ref of the page, branch or tag alike,
   exactly when no longer slash-bounded prefix of the ref and the crumb names a ref.
   */
  lemma {:induction false} CrumbKeepsRefIff(
    refs: seq<string>, rest: string, defaultBranch: string, r: Resolution, crumb: string, repo: string)
    requires Resolve(refs, rest, defaultBranch) == Some(r) && IsCrumb(crumb, r.path)
    ensures CrumbStays(refs, defaultBranch, r, crumb, repo) <==> Unshadowed(refs, r.name, TrimRight(crumb))
  {
    var core := TrimRight(crumb);
    CrumbedPage(refs, rest, defaultBranch, r);
    CrumbURL(r.name, r.path, crumb);
    RestOfTreeURL(repo, r.name, crumb);
    RestOfTreeURL(repo, r.name, core);
    TrimOfTrimmed(Joined(r.name, core));
    var r' := Resolve(refs, Joined(r.name, crumb), defaultBranch);
    assert Resolves(refs, Joined(r.name, core), defaultBranch, r');
    TreeURLRoundTripIff(refs, repo, r.name, core, defaultBranch, r');
  }

  /**
   All breadcrumbs of a page resolve to its ref exactly when no longer slash-bounded prefix of
   the ref and the trimmed path names a ref. That is so whenever the path does not start with
   a slash.
   */
  lemma {:induction false} CrumbsKeepRefIff(
    refs: seq<string>, rest: string, defaultBranch: string, r: Resolution, repo: string)
    requires Resolve(refs, rest, defaultBranch) == Some(r)
    ensures (forall crumb | IsCrumb(crumb, r.path) :: CrumbStays(refs, defaultBranch, r, crumb, repo)) <==>
            Unshadowed(refs, r.name, Trim(r.path))
    ensures r.path == "" || r.path[0] != '/' ==> Unshadowed(refs, r.name, Trim(r.path))
  {
    var whole := Trim(r.path);
    TrimIsTrimmed(r.path);
    TrimOfTrimmed(whole);
    if whole != "" {
      assert IsCrumb(whole, r.path);
      TrimRightOfTrimmed(whole);
      CrumbKeepsRefIff(refs, rest, defaultBranch, r, whole, repo);
      CleanPath(refs, rest, defaultBranch, r);
    }
    if Unshadowed(refs, r.name, whole) {
      forall crumb | IsCrumb(crumb, r.path) ensures CrumbStays(refs, defaultBranch, r, crumb, repo) {
        CrumbedPage(refs, rest, defaultBranch, r);
        CrumbURL(r.name, r.path, crumb);
        PrefixUnshadowed(refs, r.name, whole, TrimRight(crumb));
        CrumbKeepsRefIff(refs, rest, defaultBranch, r, crumb, repo);
      }
    }
  }

  lemma {:induction false} TrimRightOfTrimmed(s: string)
    requires Trimmed(s)
    ensures TrimRight(s) == s
  {
  }

  lemma CleanPath(refs: seq<string>, rest: string, defaultBranch: string, r: Resolution)
    requires Resolves(refs, rest, defaultBranch, Some(r)) && Trim(r.path) != ""
    ensures r.path[0] != '/' ==> Unshadowed(refs, r.name, Trim(r.path))
  {
    CrumbedPage(refs, rest, defaultBranch, r);
    TrimIsTrimmed(rest);
    var t := Trim(rest);
    if r.path[0] != '/' {
      assert r.path[|r.path| - 1] == t[|t| - 1];
      TrimOfTrimmed(r.path);
      assert Joined(r.name, r.path) == t;
    }
  }

  /** With a double slash after the ref, a breadcrumb can lead to another ref. */
  lemma {:induction false} CrumbCanLeaveRef()
    ensures
      var refs := [HEADS + "a", HEADS + "a/b"];
      && Resolves(refs, "a//b", "main", Some(Resolution("a", "/b", true)))
      && IsCrumb("b", "/b")
      && Resolves(refs, Joined("a", "b"), "main", Some(Resolution("a/b", "", true)))
  {
    assert "/b"[1..] == "b" && TrimLeft("b") == "b" && TrimRight("b") == "b";
    PageOfA();
    PageOfAB();
  }

  lemma {:induction false} PageOfA()
    ensures Resolves([HEADS + "a", HEADS + "a/b"], "a//b", "main", Some(Resolution("a", "/b", true)))
  {
    var refs := [HEADS + "a", HEADS + "a/b"];
    TrimOfTrimmed("a//b");
    assert refs[0] == Qualify("a", true);
    forall cand | SlashPrefix(cand, "a//b") && Named(refs, cand) ensures |cand| <= 1 {
      NamedOfTwo(refs, cand);
    }
  }

  lemma {:induction false} PageOfAB()
    ensures Resolves([HEADS + "a", HEADS + "a/b"], Joined("a", "b"), "main", Some(Resolution("a/b", "", true)))
  {
    var refs := [HEADS + "a", HEADS + "a/b"];
    TrimOfTrimmed("a/b");
    assert refs[1] == Qualify("a/b", true);
    assert Joined("a", "b") == "a/b";
  }

  lemma {:induction false} NamedOfTwo(refs: seq<string>, cand: string)
    requires refs == [HEADS + "a", HEADS + "a/b"] && Named(refs, cand)
    ensures cand == "a" || cand == "a/b"
  {
    var branch := IsRef(refs, cand, true);
    var full := Qualify(cand, branch);
    assert full in refs;
    assert full[|HEADS|..] == "a" || full[|HEADS|..] == "a/b";
    assert full[5] == 'h';
    assert branch by {
      assert TAGS[5] == 't';
    }
    assert full[|HEADS|..] == cand;
  }

  // ---------- The code ----------

  lemma {:induction false} JoinCons(head: string, tail: seq<string>)
    requires tail != []
    ensures Join([head] + tail, '/') == head + "/" + Join(tail, '/')
  {
    assert ([head] + tail)[1..] == tail;
  }

  /** How a string splits: one segment, or a first segment and the split of the rest. */
  lemma {:induction false} SplitCons(s: string)
    ensures
      var n := IndexOf(s, '/');
      if n == |s| then Split(s, '/') == [s]
      else Split(s, '/') == [s[..n]] + Split(s[n + 1..], '/') && s == s[..n] + "/" + s[n + 1..]
  {
  }

  lemma JoinRegroup(a: string, b: string, c: string)
    ensures a + "/" + (b + "/" + c) == a + "/" + b + "/" + c
  {
  }

  lemma {:induction false} JoinSplit(segs: seq<string>, i: nat)
    requires 0 < i < |segs|
    ensures Join(segs, '/') == Join(segs[..i], '/') + "/" + Join(segs[i..], '/')
  {
    var head, tail := segs[0], segs[1..];
    assert segs == [head] + tail;
    JoinCons(head, tail);
    if i == 1 {
      assert segs[..1] == [head];
    } else {
      JoinSplit(tail, i - 1);
      assert segs[..i] == [head] + tail[..i - 1] && segs[i..] == tail[i - 1..];
      JoinCons(head, tail[..i - 1]);
      JoinRegroup(head, Join(tail[..i - 1], '/'), Join(tail[i - 1..], '/'));
    }
  }

  lemma {:induction false} JoinAll(s: string)
    ensures Join(Split(s, '/'), '/') == s
    decreases |s|
  {
    var n := IndexOf(s, '/');
    SplitCons(s);
    if n < |s| {
      JoinAll(s[n + 1..]);
      JoinCons(s[..n], Split(s[n + 1..], '/'));
    }
  }

  lemma {:induction false} SlashPrefixOf(p: string, rest: string)
    ensures SlashPrefix(p, p + "/" + rest)
  {
  }

  /** The leading segments, joined, are a slash-bounded prefix; what follows the slash is the rest of them. */
  lemma {:induction false} JoinSlashPrefix(s: string, i: nat)
    requires 0 < i <= |Split(s, '/')|
    ensures SlashPrefix(Join(Split(s, '/')[..i], '/'), s)
    ensures s == if i == |Split(s, '/')| then Join(Split(s, '/')[..i], '/')
                 else Join(Split(s, '/')[..i], '/') + "/" + Join(Split(s, '/')[i..], '/')
  {
    var segs := Split(s, '/');
    JoinAll(s);
    if i == |segs| {
      assert segs[..i] == segs;
    } else {
      JoinSplit(segs, i);
      SlashPrefixOf(Join(segs[..i], '/'), Join(segs[i..], '/'));
    }
  }

  lemma {:induction false} PrefixPastFirst(s: string, cand: string, n: nat)
    requires SlashPrefix(cand, s) && n < |s| && n < |cand| && s == s[..n] + "/" + s[n + 1..]
    ensures cand == s[..n] + "/" + cand[n + 1..] && SlashPrefix(cand[n + 1..], s[n + 1..])
  {
    assert cand == s[..|cand|];
    assert cand[..n] == s[..n] && cand[n] == s[n] == '/';
    assert cand == cand[..n] + [cand[n]] + cand[n + 1..];
    PrefixCons(s[..n], cand[n + 1..], s[n + 1..]);
  }

  /** Every slash-bounded prefix is a join of leading segments. */
  lemma {:induction false} SlashPrefixIsJoin(s: string, cand: string) returns (i: nat)
    requires SlashPrefix(cand, s)
    ensures 0 < i <= |Split(s, '/')| && cand == Join(Split(s, '/')[..i], '/')
    decreases |s|
  {
    var n := IndexOf(s, '/');
    SplitCons(s);
    if |cand| <= n {
      i := 1;
      FirstIsHead(s);
      assert cand == s[..n];
    } else {
      PrefixPastFirst(s, cand, n);
      var k := SlashPrefixIsJoin(s[n + 1..], cand[n + 1..]);
      i := k + 1;
      FirstThenRest(s[..n], Split(s[n + 1..], '/'), k);
    }
  }

  lemma {:induction false} FirstThenRest(a: string, segs: seq<string>, k: nat)
    requires 0 < k <= |segs|
    ensures Join(([a] + segs)[..k + 1], '/') == a + "/" + Join(segs[..k], '/')
  {
    assert ([a] + segs)[..k + 1] == [a] + segs[..k];
    JoinCons(a, segs[..k]);
  }

  lemma {:induction false} FirstIsHead(s: string)
    ensures Join(Split(s, '/')[..1], '/') == s[..IndexOf(s, '/')]
  {
    var n := IndexOf(s, '/');
    SplitCons(s);
    assert n == |s| ==> s[..n] == s;
    assert Split(s, '/')[..1] == [s[..n]];
  }

  /** CutPrefix: what follows a prefix, if it is there. */
  function CutPrefix(s: string, prefix: string): Option<string> {
    if prefix <= s then Some(s[|prefix|..]) else None
  }

  lemma {:induction false} CutsQualified(full: string, name: string)
    ensures CutPrefix(full, HEADS) == Some(name) <==> full == Qualify(name, true)
    ensures CutPrefix(full, HEADS).None? && CutPrefix(full, TAGS) == Some(name) <==> full == Qualify(name, false)
  {
    assert HEADS <= full ==> full == HEADS + full[|HEADS|..];
    assert TAGS <= full ==> full == TAGS + full[|TAGS|..];
    assert (HEADS + name)[|HEADS|..] == name && (TAGS + name)[|TAGS|..] == name;
    assert HEADS <= full ==> full[5] == HEADS[5] == 'h';
    assert TAGS <= full ==> full[5] == TAGS[5] == 't';
  }

  /** The two maps of greedyRef, as sets of names. */
  method NamesOf(refs: seq<string>) returns (branches: set<string>, tags: set<string>)
    ensures forall name :: name in branches <==> IsRef(refs, name, true)
    ensures forall name :: name in tags <==> IsRef(refs, name, false)
  {
    branches, tags := {}, {};
    for i := 0 to |refs|
      invariant forall name :: name in branches <==> IsRef(refs[..i], name, true)
      invariant forall name :: name in tags <==> IsRef(refs[..i], name, false)
    {
      assert refs[..i + 1] == refs[..i] + [refs[i]];
      forall name
        ensures refs[i] == Qualify(name, true) <==> CutPrefix(refs[i], HEADS) == Some(name)
        ensures refs[i] == Qualify(name, false) <==>
                CutPrefix(refs[i], HEADS).None? && CutPrefix(refs[i], TAGS) == Some(name)
      {
        CutsQualified(refs[i], name);
      }
      var n := CutPrefix(refs[i], HEADS);
      if n.Some? {
        branches := branches + {n.value};
      } else {
        n := CutPrefix(refs[i], TAGS);
        if n.Some? {
          tags := tags + {n.value};
        }
      }
    }
    assert refs[..|refs|] == refs;
  }

  /** The scan from the longest candidate down. */
  method GreedyRef(refs: seq<string>, rest: string, defaultBranch: string) returns (r: Option<Resolution>)
    ensures Resolves(refs, rest, defaultBranch, r)
  {
    var branches, tags := NamesOf(refs);
    var t := Trim(rest);
    TrimIsTrimmed(rest);
    if |t| == 0 {
      return Some(Resolution(defaultBranch, "", true));
    }
    var segs := Split(t, '/');
    var i := |segs|;
    while i > 0
      invariant 0 <= i <= |segs|
      invariant forall k | i < k <= |segs| :: !Named(refs, Join(segs[..k], '/'))
    {
      var cand := Join(segs[..i], '/');
      var tail := Join(segs[i..], '/');
      if cand in branches || cand in tags {
        LongestWins(refs, t, i);
        return Some(Resolution(cand, tail, cand in branches));
      }
      i := i - 1;
    }
    forall cand | SlashPrefix(cand, t) ensures !Named(refs, cand) {
      var k := SlashPrefixIsJoin(t, cand);
    }
    return None;
  }

  lemma {:induction false} LongestWins(refs: seq<string>, t: string, i: nat)
    requires Trimmed(t) && t != "" && 0 < i <= |Split(t, '/')|
    requires forall k | i < k <= |Split(t, '/')| :: !Named(refs, Join(Split(t, '/')[..k], '/'))
    ensures
      var cand, tail := Join(Split(t, '/')[..i], '/'), Join(Split(t, '/')[i..], '/');
      && SlashPrefix(cand, t) && Joined(cand, tail) == t
      && forall other | SlashPrefix(other, t) && Named(refs, other) :: |other| <= |cand|
  {
    var segs := Split(t, '/');
    JoinSlashPrefix(t, i);
    forall other | SlashPrefix(other, t) && Named(refs, other) ensures |other| <= |Join(segs[..i], '/')| {
      var k := SlashPrefixIsJoin(t, other);
      JoinGrows(segs, k, i);
    }
  }

  lemma {:induction false} JoinGrows(segs: seq<string>, k: nat, i: nat)
    requires 0 < k <= i <= |segs|
    ensures |Join(segs[..k], '/')| <= |Join(segs[..i], '/')|
  {
    if k > 1 {
      JoinGrows(segs[1..], k - 1, i - 1);
      assert segs[..k] == [segs[0]] + segs[1..][..k - 1];
      assert segs[..i] == [segs[0]] + segs[1..][..i - 1];
      JoinCons(segs[0], segs[1..][..k - 1]);
      JoinCons(segs[0], segs[1..][..i - 1]);
    } else if i > 1 {
      assert segs[..i] == [segs[0]] + segs[1..i];
      JoinCons(segs[0], segs[1..i]);
      assert segs[..1] == [segs[0]];
    }
  }

  datatype Crumb = Crumb(name: string, path: string)

  function CrumbAt(segs: seq<string>, k: nat): Crumb
    requires k < |segs|
  {
    Crumb(segs[k], Join(segs[..k + 1], '/'))
  }

  lemma {:induction false} CrumbIsPrefix(t: string, k: nat)
    requires Trimmed(t) && t != "" && k < |Split(t, '/')|
    ensures CrumbAt(Split(t, '/'), k).path != "" && SlashPrefix(CrumbAt(Split(t, '/'), k).path, t)
  {
    var segs := Split(t, '/');
    assert segs[..1] == [segs[0]] && segs[0] != "";
    JoinGrows(segs, 1, k + 1);
    JoinSlashPrefix(t, k + 1);
  }

  ghost predicate AreCrumbs(out: seq<Crumb>, segs: seq<string>) {
    |out| <= |segs| && forall k | 0 <= k < |out| :: out[k] == CrumbAt(segs, k)
  }

  lemma {:induction false} CrumbsArePrefixes(p: string, out: seq<Crumb>)
    requires Trim(p) != "" && AreCrumbs(out, Split(Trim(p), '/'))
    ensures forall c <- out :: IsCrumb(c.path, p)
  {
    TrimIsTrimmed(p);
    forall c <- out ensures IsCrumb(c.path, p) {
      var k :| 0 <= k < |out| && out[k] == c;
      CrumbIsPrefix(Trim(p), k);
    }
  }

  lemma {:induction false} NextCrumb(t: string, i: nat, acc: string)
    requires Trimmed(t) && t != "" && i < |Split(t, '/')|
    requires acc == if i == 0 then "" else CrumbAt(Split(t, '/'), i - 1).path
    ensures acc == "" <==> i == 0
    ensures CrumbAt(Split(t, '/'), i).path == if acc == "" then Split(t, '/')[i] else acc + "/" + Split(t, '/')[i]
  {
    JoinOneMore(Split(t, '/'), i);
    if i > 0 {
      CrumbIsPrefix(t, i - 1);
    }
  }

  /** One crumb for each segment, its path being all segments up to it: a slash-bounded prefix. */
  method Crumbs(p: string) returns (out: seq<Crumb>)
    ensures Trim(p) == "" ==> out == []
    ensures Trim(p) != "" ==> |out| == |Split(Trim(p), '/')| && AreCrumbs(out, Split(Trim(p), '/'))
    ensures forall k | 0 <= k < |out| ::
              && k < |Split(Trim(p), '/')| && out[k].name == Split(Trim(p), '/')[k]
              && out[k].path == Join(Split(Trim(p), '/')[..k + 1], '/')
    ensures forall c <- out :: IsCrumb(c.path, p)
  {
    out := [];
    var t := Trim(p);
    TrimIsTrimmed(p);
    if |t| == 0 {
      return;
    }
    var acc := "";
    var segs := Split(t, '/');
    for i := 0 to |segs|
      invariant |out| == i && AreCrumbs(out, segs)
      invariant acc == if i == 0 then "" else CrumbAt(segs, i - 1).path
    {
      NextCrumb(t, i, acc);
      if |acc| == 0 {
        acc := segs[i];
      } else {
        acc := acc + "/" + segs[i];
      }
      out := out + [Crumb(segs[i], acc)];
    }
    CrumbsArePrefixes(p, out);
  }

  lemma {:induction false} JoinOneMore(segs: seq<string>, i: nat)
    requires i < |segs|
    ensures Join(segs[..i + 1], '/') == if i == 0 then segs[0] else Join(segs[..i], '/') + "/" + segs[i]
  {
    if i == 0 {
      assert segs[..1] == [segs[0]];
    } else {
      JoinOneMore(segs[1..], i - 1);
      assert segs[..i + 1] == [segs[0]] + segs[1..][..i] && segs[..i] == [segs[0]] + segs[1..][..i - 1];
      JoinCons(segs[0], segs[1..][..i]);
      if i > 1 {
        JoinCons(segs[0], segs[1..][..i - 1]);
        JoinRegroup(segs[0], Join(segs[1..][..i - 1], '/'), segs[i]);
      } else {
        assert segs[..1] == [segs[0]];
      }
    }
  }
}
