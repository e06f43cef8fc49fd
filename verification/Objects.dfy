/**
 Git objects as the write path sees them. An id names its content, so what an object links
 to never changes: the two link functions are fixed for all time.
 */
module Objects {
  type Oid = string

  /** links: every object an object refers to. parents: the parents of a commit. */
  datatype Graph = Graph(links: Oid -> set<Oid>, parents: Oid -> set<Oid>)

  ghost predicate IsPath(next: Oid -> set<Oid>, p: seq<Oid>) {
    p != [] && forall i {:trigger next(p[i])} | 0 <= i < |p| - 1 :: p[i + 1] in next(p[i])
  }

  ghost predicate Reaches(next: Oid -> set<Oid>, a: Oid, b: Oid) {
    exists p :: IsPath(next, p) && p[0] == a && p[|p| - 1] == b
  }

  /** What `git merge-base --is-ancestor a b` decides: b's history contains a. */
  ghost predicate Ancestor(g: Graph, a: Oid, b: Oid) {
    Reaches(g.parents, b, a)
  }

  /** The whole closure of id is in s. */
  ghost predicate ClosedIn(g: Graph, s: set<Oid>, id: Oid) {
    forall x | Reaches(g.links, id, x) :: x in s
  }

  lemma ReachesSelf(next: Oid -> set<Oid>, a: Oid)
    ensures Reaches(next, a, a)
  {
    assert IsPath(next, [a]);
  }

  lemma ReachesTransitive(next: Oid -> set<Oid>, a: Oid, b: Oid, c: Oid)
    requires Reaches(next, a, b) && Reaches(next, b, c)
    ensures Reaches(next, a, c)
  {
    var p :| IsPath(next, p) && p[0] == a && p[|p| - 1] == b;
    var q :| IsPath(next, q) && q[0] == b && q[|q| - 1] == c;
    var r := p + q[1..];
    assert forall i | 0 <= i < |r| - 1 :: r[i + 1] in next(r[i]) by {
      forall i | 0 <= i < |r| - 1 ensures r[i + 1] in next(r[i]) {
        if i >= |p| - 1 {
          assert r[i + 1] == q[i - |p| + 2];
          assert r[i] == q[i - |p| + 1];
        }
      }
    }
    assert r[|r| - 1] == c;
  }

  lemma {:induction false} ReachesStep(next: Oid -> set<Oid>, a: Oid, b: Oid)
    ensures Reaches(next, a, b) <==> a == b || exists c <- next(a) :: Reaches(next, c, b)
  {
    if Reaches(next, a, b) && a != b {
      var p :| IsPath(next, p) && p[0] == a && p[|p| - 1] == b;
      assert p[0 + 1] in next(p[0]);
      var rest := p[1..];
      assert forall i | 0 <= i < |rest| - 1 :: rest[i + 1] in next(rest[i]) by {
        forall i | 0 <= i < |rest| - 1 ensures rest[i + 1] in next(rest[i]) {
          assert p[i + 1 + 1] in next(p[i + 1]);
        }
      }
      assert IsPath(next, rest) && rest[0] == p[1] && rest[|rest| - 1] == b;
    }
    if a == b {
      ReachesSelf(next, a);
    }
    if c :| c in next(a) && Reaches(next, c, b) {
      assert IsPath(next, [a, c]);
      assert Reaches(next, a, c);
      ReachesTransitive(next, a, c, b);
    }
  }

  /** An object's closure is the object and the closures of all that it refers to. */
  lemma ClosedIffLinksAre(g: Graph, s: set<Oid>, id: Oid)
    ensures ClosedIn(g, s, id) <==> id in s && forall x <- g.links(id) :: ClosedIn(g, s, x)
  {
    ReachesSelf(g.links, id);
    forall x, y | x in g.links(id) && Reaches(g.links, x, y) ensures Reaches(g.links, id, y) {
      ReachesStep(g.links, id, y);
    }
    forall y | Reaches(g.links, id, y) ensures y == id || exists x <- g.links(id) :: Reaches(g.links, x, y) {
      ReachesStep(g.links, id, y);
    }
  }

  /** A commit's ancestors are itself and the ancestors of its parents. */
  lemma AncestorIffOfParent(g: Graph, a: Oid, b: Oid)
    ensures Ancestor(g, a, b) <==> a == b || exists p <- g.parents(b) :: Ancestor(g, a, p)
  {
    ReachesStep(g.parents, b, a);
  }

  lemma AncestorSelf(g: Graph, a: Oid)
    ensures Ancestor(g, a, a)
  {
    ReachesSelf(g.parents, a);
  }

  lemma AncestorTransitive(g: Graph, a: Oid, b: Oid, c: Oid)
    requires Ancestor(g, a, b) && Ancestor(g, b, c)
    ensures Ancestor(g, a, c)
  {
    ReachesTransitive(g.parents, c, b, a);
  }

  /** No commit is its own proper ancestor, as content addressing guarantees. */
  ghost predicate Acyclic(g: Graph) {
    forall a, b | Ancestor(g, a, b) && Ancestor(g, b, a) :: a == b
  }
}
