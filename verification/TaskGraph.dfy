/** Dependency graphs: a task id maps to the ids it depends on. Ids that are not keys have no
    dependencies of their own. */
module TaskGraph {
  import opened OrderedMaps

  type Graph = map<string, seq<string>>

  function Deps(g: Graph, v: string): seq<string> {
    if v in g then g[v] else []
  }

  /** A walk along dependency edges. */
  ghost predicate IsPath(g: Graph, p: seq<string>) {
    p != [] && forall i :: 0 <= i < |p| - 1 ==> p[i + 1] in Deps(g, p[i])
  }

  ghost predicate IsCycle(g: Graph, p: seq<string>, v: string) {
    |p| >= 2 && IsPath(g, p) && p[0] == v == p[|p| - 1]
  }

  ghost predicate OnCycle(g: Graph, v: string) {
    exists p :: IsCycle(g, p, v)
  }

  ghost predicate Acyclic(g: Graph) {
    forall v :: !OnCycle(g, v)
  }

  /** Every id a task mentions, directly or through others, is a task. */
  ghost predicate Grounded(g: Graph, v: string) {
    forall p :: IsPath(g, p) && p[0] == v ==> p[|p| - 1] in g
  }

  ghost predicate NoMissing(g: Graph) {
    forall v, d :: v in g && d in g[v] ==> d in g
  }

  /** Grounded, and no chain of dependencies from `v` has more than `k` tasks. */
  ghost predicate Complete(g: Graph, v: string, k: nat) {
    forall p :: IsPath(g, p) && p[0] == v ==> |p| <= k && p[|p| - 1] in g
  }

  lemma PathCons(g: Graph, v: string, q: seq<string>)
    requires IsPath(g, q) && q[0] in Deps(g, v)
    ensures IsPath(g, [v] + q)
  {
  }

  lemma PathTail(g: Graph, p: seq<string>)
    requires IsPath(g, p) && |p| > 1
    ensures IsPath(g, p[1..]) && p[1] in Deps(g, p[0])
  {
  }

  lemma CompleteStep(g: Graph, v: string, k: nat)
    ensures Complete(g, v, k + 1) <==> v in g && forall d :: d in Deps(g, v) ==> Complete(g, d, k)
  {
    if Complete(g, v, k + 1) {
      assert IsPath(g, [v]);
      forall d, q | d in Deps(g, v) && IsPath(g, q) && q[0] == d ensures |q| <= k && q[|q| - 1] in g {
        PathCons(g, v, q);
        assert ([v] + q)[0] == v;
      }
    }
    if v in g && forall d :: d in Deps(g, v) ==> Complete(g, d, k) {
      forall p | IsPath(g, p) && p[0] == v ensures |p| <= k + 1 && p[|p| - 1] in g {
        if |p| > 1 {
          PathTail(g, p);
          assert Complete(g, p[1], k) && p[1..][0] == p[1];
        }
      }
    }
  }

  lemma CompleteIsTask(g: Graph, v: string, k: nat)
    requires Complete(g, v, k)
    ensures v in g && k > 0
  {
    assert IsPath(g, [v]);
  }

  lemma Slice(g: Graph, p: seq<string>, i: nat, j: nat)
    requires IsPath(g, p) && i < j <= |p|
    ensures IsPath(g, p[i..j])
  {
  }

  /** In an acyclic graph a walk never returns to a task, so it is no longer than the number of tasks. */
  lemma PathFits(g: Graph, p: seq<string>)
    requires Acyclic(g) && IsPath(g, p) && forall x :: x in p ==> x in g
    ensures |p| <= |g|
  {
    forall i, j | 0 <= i < j < |p| ensures p[i] != p[j] {
      Slice(g, p, i, j + 1);
      assert !OnCycle(g, p[i]) && !IsCycle(g, p[i..j + 1], p[i]);
    }
    DistinctWithin(p, g.Keys);
  }

  lemma {:induction false} DistinctWithin(s: seq<string>, u: set<string>)
    requires Distinct(s) && forall x :: x in s ==> x in u
    ensures |s| <= |u|
  {
    if s != [] { DistinctWithin(s[1..], u - {s[0]}); }
  }

  lemma GroundedIsComplete(g: Graph, v: string)
    requires Acyclic(g) && Grounded(g, v)
    ensures Complete(g, v, |g|)
  {
    forall p | IsPath(g, p) && p[0] == v ensures |p| <= |g| && p[|p| - 1] in g {
      forall x | x in p ensures x in g {
        var i :| 0 <= i < |p| && p[i] == x;
        Slice(g, p, 0, i + 1);
        assert p[0..i + 1][|p[0..i + 1]| - 1] == x;
      }
      PathFits(g, p);
    }
  }

  /** If completeness adds nothing from `k` to `k + 1`, it never adds anything again. */
  lemma {:induction false} CompleteSaturates(g: Graph, k: nat, m: nat)
    requires forall v :: Complete(g, v, k + 1) ==> Complete(g, v, k)
    requires k <= m
    ensures forall v :: Complete(g, v, m) ==> Complete(g, v, k)
  {
    if k < m {
      CompleteSaturates(g, k, m - 1);
      forall v | Complete(g, v, m) ensures Complete(g, v, k) {
        CompleteStep(g, v, m - 1);
        CompleteStep(g, v, k);
      }
    }
  }

  lemma NothingMissingIsGrounded(g: Graph, v: string)
    requires NoMissing(g) && v in g
    ensures Grounded(g, v)
  {
    forall p | IsPath(g, p) && p[0] == v ensures p[|p| - 1] in g {
      PathStays(g, p);
    }
  }

  lemma {:induction false} PathStays(g: Graph, p: seq<string>)
    requires NoMissing(g) && IsPath(g, p) && p[0] in g
    ensures p[|p| - 1] in g
  {
    if |p| > 1 {
      PathTail(g, p);
      PathStays(g, p[1..]);
    }
  }

  // ----- an order that witnesses acyclicity -----

  /** Every dependency of a listed task is listed before it. */
  ghost predicate DependenciesFirst(g: Graph, order: seq<string>) {
    forall i, d :: 0 <= i < |order| && d in Deps(g, order[i]) ==> d in order[..i]
  }

  lemma {:induction false} PathDescends(g: Graph, order: seq<string>, p: seq<string>)
    requires DependenciesFirst(g, order) && IsPath(g, p) && p[0] in order
    ensures p[|p| - 1] in order && IndexOf(order, p[|p| - 1]) <= IndexOf(order, p[0]) - (|p| - 1)
  {
    if |p| > 1 {
      PathTail(g, p);
      var i := IndexOf(order, p[0]);
      var j :| 0 <= j < i && order[..i][j] == p[1];
      assert order[j] == p[1];
      var k := IndexOf(order, p[1]);
      assert forall m :: 0 <= m < k ==> order[..k][m] == order[m];
      PathDescends(g, order, p[1..]);
    }
  }

  lemma OrderedIsAcyclic(g: Graph, order: seq<string>)
    requires DependenciesFirst(g, order) && forall v :: v in g ==> v in order
    ensures Acyclic(g)
  {
    forall v ensures !OnCycle(g, v) {
      if p :| IsCycle(g, p, v) {
        assert v in g by { PathTail(g, p); }
        PathDescends(g, order, p);
      }
    }
  }

  ghost predicate Continues(g: Graph, group: set<string>, v: string) {
    exists d :: d in Deps(g, v) && d in group
  }

  /** In an acyclic graph no non-empty set of tasks can have every member depend on another member. */
  lemma NoDescent(g: Graph, group: set<string>)
    requires Acyclic(g) && group <= g.Keys
    requires forall v {:trigger Continues(g, group, v)} :: v in group ==> Continues(g, group, v)
    ensures group == {}
  {
    if v :| v in group {
      var p := Descend(g, group, v, |g| + 1);
      PathFits(g, p);
    }
  }

  lemma {:induction false} Descend(g: Graph, group: set<string>, v: string, n: nat) returns (p: seq<string>)
    requires n > 0 && v in group
    requires forall x {:trigger Continues(g, group, x)} :: x in group ==> Continues(g, group, x)
    ensures IsPath(g, p) && |p| == n && p[0] == v && forall x :: x in p ==> x in group
    decreases n
  {
    if n == 1 {
      p := [v];
    } else {
      assert Continues(g, group, v);
      var d :| d in Deps(g, v) && d in group;
      var q := Descend(g, group, d, n - 1);
      PathCons(g, v, q);
      p := [v] + q;
    }
  }
}
