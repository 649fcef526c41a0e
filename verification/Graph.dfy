/** Finite directed graphs given by child sets: paths, reachability, cycles. */
module Graph {
  /** Every child set names nodes of the graph. */
  ghost predicate Closed<T(!new)>(children: map<T, set<T>>) {
    forall x :: x in children ==> children[x] <= children.Keys
  }

  ghost predicate Step<T(!new)>(children: map<T, set<T>>, x: T, y: T) {
    x in children && y in children[x]
  }

  ghost predicate Path<T(!new)>(children: map<T, set<T>>, p: seq<T>) {
    |p| > 0 && forall i :: 0 <= i < |p| - 1 ==> Step(children, p[i], p[i + 1])
  }

  ghost predicate Reaches<T(!new)>(children: map<T, set<T>>, from: set<T>, x: T) {
    exists p :: Path(children, p) && p[0] in from && p[|p| - 1] == x
  }

  ghost predicate HasCycle<T(!new)>(children: map<T, set<T>>) {
    exists p :: Path(children, p) && |p| > 1 && p[0] == p[|p| - 1]
  }

  lemma ReachesSelf<T(!new)>(children: map<T, set<T>>, from: set<T>, x: T)
    requires x in from
    ensures Reaches(children, from, x)
  {
    var p := [x];
    assert Path(children, p) && p[0] in from && p[|p| - 1] == x;
  }

  lemma ReachesChild<T(!new)>(children: map<T, set<T>>, from: set<T>, x: T, y: T)
    requires Reaches(children, from, x) && Step(children, x, y)
    ensures Reaches(children, from, y)
  {
    var p :| Path(children, p) && p[0] in from && p[|p| - 1] == x;
    var q := p + [y];
    forall i | 0 <= i < |q| - 1 ensures Step(children, q[i], q[i + 1]) {
      if i < |p| - 1 {
        assert Step(children, p[i], p[i + 1]);
      }
    }
    assert Path(children, q) && q[0] in from && q[|q| - 1] == y;
  }

  /** A set that contains the sources and is closed under children contains everything reachable. */
  lemma {:induction false} ClosedContains<T(!new)>(children: map<T, set<T>>, from: set<T>, s: set<T>, p: seq<T>)
    requires Path(children, p) && p[0] in from && from <= s
    requires forall x, y :: x in s && Step(children, x, y) ==> y in s
    ensures p[|p| - 1] in s
    decreases |p|
  {
    if |p| > 1 {
      var q := p[..|p| - 1];
      assert Path(children, q) by {
        forall i | 0 <= i < |q| - 1 ensures Step(children, q[i], q[i + 1]) {
          assert Step(children, p[i], p[i + 1]);
        }
      }
      ClosedContains(children, from, s, q);
      assert Step(children, p[|p| - 2], p[|p| - 1]);
    }
  }

  lemma ClosureIsReach<T(!new)>(children: map<T, set<T>>, from: set<T>, s: set<T>)
    requires from <= s
    requires forall x, y :: x in s && Step(children, x, y) ==> y in s
    requires forall x :: x in s ==> Reaches(children, from, x)
    ensures forall x :: x in s <==> Reaches(children, from, x)
  {
    forall x | Reaches(children, from, x) ensures x in s {
      var p :| Path(children, p) && p[0] in from && p[|p| - 1] == x;
      ClosedContains(children, from, s, p);
    }
  }

  // ---------------------------------------------------------------------------------------------
  // Where every node of a nonempty set has a parent in the set, there is a cycle
  // ---------------------------------------------------------------------------------------------

  ghost predicate HasParent<T(!new)>(children: map<T, set<T>>, stuck: set<T>, y: T) {
    exists x :: x in stuck && Step(children, x, y)
  }

  ghost predicate NoSource<T(!new)>(children: map<T, set<T>>, stuck: set<T>) {
    forall y {:trigger HasParent(children, stuck, y)} :: y in stuck ==> HasParent(children, stuck, y)
  }

  lemma {:induction false} WalkBack<T(!new)>(children: map<T, set<T>>, stuck: set<T>, n: nat) returns (p: seq<T>)
    requires stuck != {} && NoSource(children, stuck)
    ensures |p| == n + 1 && Path(children, p) && forall i :: 0 <= i < |p| ==> p[i] in stuck
  {
    if n == 0 {
      var x :| x in stuck;
      p := [x];
    } else {
      var q := WalkBack(children, stuck, n - 1);
      assert HasParent(children, stuck, q[0]);
      var x :| x in stuck && Step(children, x, q[0]);
      p := [x] + q;
      forall i | 0 <= i < |p| - 1 ensures Step(children, p[i], p[i + 1]) {
        if i > 0 {
          assert Step(children, q[i - 1], q[i]);
        }
      }
    }
  }

  lemma {:induction false} Pigeonhole<T(!new)>(p: seq<T>, s: set<T>) returns (i: nat, j: nat)
    requires |p| > |s| && forall k :: 0 <= k < |p| ==> p[k] in s
    ensures i < j < |p| && p[i] == p[j]
    decreases |s|
  {
    var x := p[|p| - 1];
    if exists k :: 0 <= k < |p| - 1 && p[k] == x {
      i :| 0 <= i < |p| - 1 && p[i] == x;
      j := |p| - 1;
    } else {
      i, j := Pigeonhole(p[..|p| - 1], s - {x});
    }
  }

  lemma StuckHasCycle<T(!new)>(children: map<T, set<T>>, stuck: set<T>)
    requires stuck != {} && NoSource(children, stuck)
    ensures HasCycle(children)
  {
    var p := WalkBack(children, stuck, |stuck|);
    var i, j := Pigeonhole(p, stuck);
    var q := p[i..j + 1];
    forall k | 0 <= k < |q| - 1 ensures Step(children, q[k], q[k + 1]) {
      assert Step(children, p[i + k], p[i + k + 1]);
    }
    assert Path(children, q) && |q| > 1 && q[0] == q[|q| - 1];
  }

  /** Along a path the rank of a node grows, so a ranked graph has no cycle. */
  lemma {:induction false} RankGrows<T(!new)>(children: map<T, set<T>>, rank: map<T, nat>, p: seq<T>)
    requires forall x, y :: Step(children, x, y) ==> x in rank && y in rank && rank[x] < rank[y]
    requires Path(children, p) && |p| > 1
    ensures p[0] in rank && p[|p| - 1] in rank && rank[p[0]] < rank[p[|p| - 1]]
    decreases |p|
  {
    assert Step(children, p[0], p[1]);
    if |p| > 2 {
      var q := p[1..];
      forall i | 0 <= i < |q| - 1 ensures Step(children, q[i], q[i + 1]) {
        assert Step(children, p[i + 1], p[i + 2]);
      }
      RankGrows(children, rank, q);
    }
  }

  lemma RankedHasNoCycle<T(!new)>(children: map<T, set<T>>, rank: map<T, nat>)
    requires forall x, y :: Step(children, x, y) ==> x in rank && y in rank && rank[x] < rank[y]
    ensures !HasCycle(children)
  {
    if HasCycle(children) {
      var p :| Path(children, p) && |p| > 1 && p[0] == p[|p| - 1];
      RankGrows(children, rank, p);
    }
  }

  /** As above with a rank that falls along every step. */
  lemma {:induction false} RankFalls<T(!new)>(children: map<T, set<T>>, rank: map<T, nat>, p: seq<T>)
    requires forall x, y :: Step(children, x, y) ==> x in rank && y in rank && rank[y] < rank[x]
    requires Path(children, p) && |p| > 1
    ensures p[0] in rank && p[|p| - 1] in rank && rank[p[|p| - 1]] < rank[p[0]]
    decreases |p|
  {
    assert Step(children, p[0], p[1]);
    if |p| > 2 {
      var q := p[1..];
      forall i | 0 <= i < |q| - 1 ensures Step(children, q[i], q[i + 1]) {
        assert Step(children, p[i + 1], p[i + 2]);
      }
      RankFalls(children, rank, q);
    }
  }

  lemma FallingHasNoCycle<T(!new)>(children: map<T, set<T>>, rank: map<T, nat>)
    requires forall x, y :: Step(children, x, y) ==> x in rank && y in rank && rank[y] < rank[x]
    ensures !HasCycle(children)
  {
    if HasCycle(children) {
      var p :| Path(children, p) && |p| > 1 && p[0] == p[|p| - 1];
      RankFalls(children, rank, p);
    }
  }

  /** New nodes that nothing points to close no cycle. */
  lemma NoNewCycle<T(!new)>(before: map<T, set<T>>, after: map<T, set<T>>, added: set<T>)
    requires forall x, y :: Step(after, x, y) ==> y !in added && (x in added || Step(before, x, y))
    requires HasCycle(after)
    ensures HasCycle(before)
  {
    var p :| Path(after, p) && |p| > 1 && p[0] == p[|p| - 1];
    forall i | 0 <= i < |p| - 1 ensures Step(before, p[i], p[i + 1]) {
      assert Step(after, p[i], p[i + 1]);
      var j := if i == 0 then |p| - 2 else i - 1;
      assert Step(after, p[j], p[j + 1]);
    }
    assert Path(before, p);
  }
}
