/**
 The pre-receive hook (cmd/gitmote-hook/main.go) and the messages it exchanges with the
 parent (internal/hookrpc/hookrpc.go).
 */
module Hook {
  import opened Wrappers
  import opened Objects
  import Refs

  datatype Command = Command(oldSha: string, newSha: string, ref: string, force: bool)

  datatype Request = Request(nonce: string, commands: seq<Command>, quarantine: string)

  datatype Response = Response(ok: bool, reason: string)

  /** id names an object: it is neither spelling of "absent". */
  predicate IsId(id: string) {
    Refs.Normalize(id) != ""
  }

  /** The exit status of `git merge-base --is-ancestor`; zero is believed. */
  ghost predicate Correct(g: Graph, isAncestor: (string, string) -> bool) {
    forall a, b | isAncestor(a, b) :: IsId(a) && IsId(b) && Ancestor(g, a, b)
  }

  /** An update that is not marked as a force moves from nothing, or from an ancestor, to an object. */
  ghost predicate Honest(g: Graph, c: Command) {
    !c.force ==> IsId(c.newSha) && (c.oldSha == Refs.ZERO_SHA || (IsId(c.oldSha) && Ancestor(g, c.oldSha, c.newSha)))
  }

  function IsForce(isAncestor: (string, string) -> bool, oldSha: string, newSha: string): bool {
    if newSha == Refs.ZERO_SHA then true
    else if oldSha == Refs.ZERO_SHA then false
    else !isAncestor(oldSha, newSha)
  }

  /** The flag of a well-spelled command is honest: newSha is never the empty string. */
  lemma IsForceIsHonest(g: Graph, isAncestor: (string, string) -> bool, c: Command)
    requires Correct(g, isAncestor) && c.newSha != ""
    requires c.force == IsForce(isAncestor, c.oldSha, c.newSha)
    ensures Honest(g, c)
    ensures c.newSha == Refs.ZERO_SHA ==> c.force
  {
    if !c.force && c.oldSha != Refs.ZERO_SHA {
      assert isAncestor(c.oldSha, c.newSha);
    }
  }

  /** A deletion is a force, a creation is not, and otherwise merge-base decides. */
  lemma ForceCases(isAncestor: (string, string) -> bool, oldSha: string, newSha: string)
    ensures |Refs.ZERO_SHA| == 40 && forall i | 0 <= i < 40 :: Refs.ZERO_SHA[i] == '0'
    ensures IsForce(isAncestor, oldSha, Refs.ZERO_SHA)
    ensures newSha != Refs.ZERO_SHA ==> !IsForce(isAncestor, Refs.ZERO_SHA, newSha)
    ensures newSha != Refs.ZERO_SHA && oldSha != Refs.ZERO_SHA ==>
              (IsForce(isAncestor, oldSha, newSha) <==> !isAncestor(oldSha, newSha))
  {
    Refs.ZeroIsAbsent(newSha);
  }

  /** A deletion, or a move from a commit to one whose history lacks it. */
  ghost predicate Rewrites(g: Graph, c: Command) {
    c.newSha == Refs.ZERO_SHA || (c.oldSha != Refs.ZERO_SHA && !Ancestor(g, c.oldSha, c.newSha))
  }

  /** With a merge-base that answers exactly, a force is exactly a deletion or a rewrite. */
  lemma IsForceIffRewrites(g: Graph, isAncestor: (string, string) -> bool, c: Command)
    requires forall a, b :: isAncestor(a, b) <==> Ancestor(g, a, b)
    ensures IsForce(isAncestor, c.oldSha, c.newSha) <==> Rewrites(g, c)
  {
    assert isAncestor(c.oldSha, c.newSha) <==> Ancestor(g, c.oldSha, c.newSha);
  }

  // ---------- Reading the commands ----------

  /** The white space of the Unicode standard, as strings.Fields splits on it. */
  predicate IsSpace(c: char) {
    || '\t' <= c <= '\r' || c == ' ' || c == '\U{85}' || c == '\U{A0}' || c == '\U{1680}'
    || '\U{2000}' <= c <= '\U{200A}' || c == '\U{2028}' || c == '\U{2029}'
    || c == '\U{202F}' || c == '\U{205F}' || c == '\U{3000}'
  }

  /** How many leading characters are not white space. */
  function WordLength(s: string): (n: nat)
    ensures n <= |s|
    ensures forall i | 0 <= i < n :: !IsSpace(s[i])
    ensures n < |s| ==> IsSpace(s[n])
  {
    if s == "" || IsSpace(s[0]) then 0 else 1 + WordLength(s[1..])
  }

  /** The maximal runs of characters that are not white space, in order. */
  function Fields(s: string): seq<string>
    decreases |s|
  {
    if s == "" then []
    else if IsSpace(s[0]) then Fields(s[1..])
    else
      var n := WordLength(s);
      [s[..n]] + Fields(s[n..])
  }

  predicate IsWord(s: string) {
    s != "" && forall c <- s :: !IsSpace(c)
  }

  lemma {:induction false} WordLengthOfWord(w: string, rest: string)
    requires forall c <- w :: !IsSpace(c)
    requires rest == "" || IsSpace(rest[0])
    ensures WordLength(w + rest) == |w|
  {
    if w != "" {
      assert (w + rest)[1..] == w[1..] + rest;
      WordLengthOfWord(w[1..], rest);
    } else {
      assert w + rest == rest;
    }
  }

  lemma {:induction false} FieldsOfWord(w: string, rest: string)
    requires IsWord(w) && (rest == "" || IsSpace(rest[0]))
    ensures Fields(w + rest) == [w] + Fields(rest)
  {
    WordLengthOfWord(w, rest);
    assert !IsSpace((w + rest)[0]);
    assert (w + rest)[..|w|] == w && (w + rest)[|w|..] == rest;
  }

  /** The line git writes for an update. */
  function Line(c: Command): string {
    c.oldSha + " " + c.newSha + " " + c.ref
  }

  /** Reading back git's line gives the three fields it was written from. */
  lemma {:induction false} FieldsOfLine(c: Command)
    requires IsWord(c.oldSha) && IsWord(c.newSha) && IsWord(c.ref)
    ensures Fields(Line(c)) == [c.oldSha, c.newSha, c.ref]
  {
    var tail := " " + c.newSha + " " + c.ref;
    var tail2 := " " + c.ref;
    assert Line(c) == c.oldSha + tail;
    assert tail[1..] == c.newSha + tail2;
    assert tail2[1..] == c.ref == c.ref + "";
    FieldsOfWord(c.oldSha, tail);
    FieldsOfWord(c.newSha, tail2);
    FieldsOfWord(c.ref, "");
    assert Fields("") == [];
  }

  lemma HexIsWord(id: string)
    requires id != "" && forall c <- id :: c in "0123456789abcdef"
    ensures IsWord(id) && forall c <- id :: '!' <= c <= '~'
  {
    forall c <- id ensures '!' <= c <= '~' && !IsSpace(c) {
      var i :| 0 <= i < 16 && "0123456789abcdef"[i] == c;
    }
  }

  lemma {:induction false} BytesOfAscii(s: string)
    requires forall c <- s :: c <= '~'
    ensures Bytes(s) == |s|
  {
    if s != "" {
      assert s[0] in s && forall c <- s[1..] :: c in s;
      BytesOfAscii(s[1..]);
    }
  }

  /**
   The line of two hexadecimal ids and a ref name in printable characters without a blank gives
   its three fields, and is read if it has less than 65536 characters.
   */
  lemma FieldsOfHexLine(oldSha: string, newSha: string, ref: string)
    requires oldSha != "" && forall c <- oldSha :: c in "0123456789abcdef"
    requires newSha != "" && forall c <- newSha :: c in "0123456789abcdef"
    requires ref != "" && forall c <- ref :: '!' <= c <= '~'
    ensures Fields(oldSha + " " + newSha + " " + ref) == [oldSha, newSha, ref]
    ensures IsCommandLine(oldSha + " " + newSha + " " + ref) <==> |oldSha| + |newSha| + |ref| + 2 < 65536
  {
    HexIsWord(oldSha);
    HexIsWord(newSha);
    assert forall c <- ref :: !IsSpace(c);
    FieldsOfLine(Command(oldSha, newSha, ref, false));
    var line := oldSha + " " + newSha + " " + ref;
    forall c <- line ensures c <= '~' {
      assert c in oldSha || c == ' ' || c in newSha || c in ref;
    }
    BytesOfAscii(line);
  }

  /** Blanks, tabs, line ends and the space characters of the Unicode standard separate fields. */
  lemma SpacesAre(c: char)
    ensures IsSpace(' ') && IsSpace('\t') && IsSpace('\n') && IsSpace('\r')
    ensures '!' <= c <= '~' ==> !IsSpace(c)
  {
  }

  lemma {:induction false} FieldsAreWords(s: string)
    ensures forall f <- Fields(s) :: IsWord(f)
    decreases |s|
  {
    if s != "" {
      if IsSpace(s[0]) {
        FieldsAreWords(s[1..]);
      } else {
        FieldsAreWords(s[WordLength(s)..]);
      }
    }
  }

  /** bufio.MaxScanTokenSize: the scanner gives up on a line that fills its buffer. */
  const MAX_SCAN_TOKEN_SIZE: nat := 64 * 1024

  /** The length of the UTF-8 encoding. */
  function Bytes(s: string): nat {
    if s == "" then 0
    else
      var c := s[0] as int;
      (if c < 0x80 then 1 else if c < 0x800 then 2 else if c < 0x1_0000 then 3 else 4) + Bytes(s[1..])
  }

  /** What every line must be: short enough to be scanned, and made of three fields. */
  predicate IsCommandLine(l: string) {
    Bytes(l) < MAX_SCAN_TOKEN_SIZE && |Fields(l)| == 3
  }

  /** The command has the three fields of the line. */
  predicate IsParsed(line: string, c: Command) {
    Fields(line) == [c.oldSha, c.newSha, c.ref] && IsWord(c.oldSha) && IsWord(c.newSha) && IsWord(c.ref)
  }

  lemma ThreeFields(line: string, force: bool)
    requires |Fields(line)| == 3
    ensures IsParsed(line, Command(Fields(line)[0], Fields(line)[1], Fields(line)[2], force))
  {
    FieldsAreWords(line);
    assert Fields(line) == [Fields(line)[0], Fields(line)[1], Fields(line)[2]];
  }

  /**
   One command per line, or nothing at all: when some line is too long or has not exactly three
   fields, or when reading fails after the lines.
   */
  method ParseCommands(lines: seq<string>, readFails: bool) returns (r: Option<seq<Command>>)
    ensures r.Some? <==> !readFails && forall l <- lines :: IsCommandLine(l)
    ensures r.Some? ==> |r.value| == |lines|
    ensures r.Some? ==> forall i | 0 <= i < |lines| :: IsParsed(lines[i], r.value[i])
  {
    var commands: seq<Command> := [];
    for i := 0 to |lines|
      invariant |commands| == i
      invariant forall k | 0 <= k < i :: IsCommandLine(lines[k])
      invariant forall k | 0 <= k < i :: IsParsed(lines[k], commands[k])
    {
      if Bytes(lines[i]) >= MAX_SCAN_TOKEN_SIZE {
        assert lines[i] in lines;
        return None;
      }
      var fields := Fields(lines[i]);
      if |fields| != 3 {
        assert lines[i] in lines;
        return None;
      }
      ThreeFields(lines[i], false);
      commands := commands + [Command(fields[0], fields[1], fields[2], false)];
    }
    if readFails {
      return None;
    }
    return Some(commands);
  }

  lemma ForcesAreRewrites(g: Graph, isAncestor: (string, string) -> bool, commands: seq<Command>)
    requires forall a, b :: isAncestor(a, b) <==> Ancestor(g, a, b)
    requires forall c <- commands :: c.force == IsForce(isAncestor, c.oldSha, c.newSha)
    ensures forall c <- commands :: c.force <==> Rewrites(g, c)
  {
    forall c <- commands ensures c.force <==> Rewrites(g, c) {
      IsForceIffRewrites(g, isAncestor, c);
    }
  }

  datatype Environment = Environment(sock: string, nonce: string, objectDirectory: string)

  ghost predicate SameUpdate(a: Command, b: Command) {
    a.oldSha == b.oldSha && a.newSha == b.newSha && a.ref == b.ref
  }

  /**
   The hook lets a push through only when the parent said yes to a request that carries the
   nonce, git's own updates and honest force flags; with an exact merge-base the flags are set
   for exactly the deletions and rewrites. Everything else rejects.

   abs resolves a path against the working directory; call is the round trip to the parent.
   */
  method Run(
    env: Environment, lines: seq<string>, readFails: bool, abs: string -> Option<string>,
    isAncestor: (string, string) -> bool, call: (string, Request) -> Option<Response>, ghost g: Graph)
    returns (accepted: bool, sent: Option<Request>)
    requires Correct(g, isAncestor)
    ensures accepted <==> sent.Some? && call(env.sock, sent.value).Some? && call(env.sock, sent.value).value.ok
    ensures sent.Some? <==>
      && env.sock != "" && env.nonce != "" && env.objectDirectory != ""
      && abs(env.objectDirectory).Some?
      && !readFails && forall l <- lines :: IsCommandLine(l)
    ensures sent.Some? ==>
      && sent.value.nonce == env.nonce
      && abs(env.objectDirectory) == Some(sent.value.quarantine)
      && |sent.value.commands| == |lines|
    ensures sent.Some? ==> forall i | 0 <= i < |lines| ::
      && Fields(lines[i]) == [sent.value.commands[i].oldSha, sent.value.commands[i].newSha, sent.value.commands[i].ref]
      && sent.value.commands[i].force
         == IsForce(isAncestor, sent.value.commands[i].oldSha, sent.value.commands[i].newSha)
      && Honest(g, sent.value.commands[i])
    ensures sent.Some? && (forall a, b :: isAncestor(a, b) <==> Ancestor(g, a, b)) ==>
      forall c <- sent.value.commands :: c.force <==> Rewrites(g, c)
  {
    if env.sock == "" || env.nonce == "" || env.objectDirectory == "" {
      return false, None;
    }
    var quarantine := abs(env.objectDirectory);
    if quarantine.None? {
      return false, None;
    }
    var parsed := ParseCommands(lines, readFails);
    if parsed.None? {
      return false, None;
    }
    var commands := parsed.value;
    for i := 0 to |commands|
      invariant |commands| == |parsed.value|
      invariant forall k | 0 <= k < |commands| :: SameUpdate(commands[k], parsed.value[k])
      invariant forall k | 0 <= k < i ::
        Honest(g, commands[k]) && commands[k].force == IsForce(isAncestor, commands[k].oldSha, commands[k].newSha)
    {
      var c := commands[i].(force := IsForce(isAncestor, commands[i].oldSha, commands[i].newSha));
      assert SameUpdate(commands[i], parsed.value[i]);
      IsForceIsHonest(g, isAncestor, c);
      commands := commands[i := c];
    }
    assert forall k | 0 <= k < |commands| :: SameUpdate(commands[k], parsed.value[k]);
    if forall a, b :: isAncestor(a, b) <==> Ancestor(g, a, b) {
      ForcesAreRewrites(g, isAncestor, commands);
    }
    var req := Request(env.nonce, commands, quarantine.value);
    var resp := call(env.sock, req);
    return resp.Some? && resp.value.ok, Some(req);
  }
}
