/** `affected_tasks` of src/fsf/production/segments.py: Kahn's count detects cycles, a breadth-first sweep closes. */
module Dependencies {
  import opened Ids
  import opened Graph

  datatype Answer = Affected(tasks: set<Id>) | DependencyInvalid

  ghost function ChildrenOf(dependencies: map<Id, set<Id>>): map<Id, set<Id>> {
    map p | p in dependencies :: set t | t in dependencies && p in dependencies[t]
  }

  ghost predicate Declared(dependencies: map<Id, set<Id>>) {
    forall t :: t in dependencies ==> dependencies[t] <= dependencies.Keys
  }

  /** Parents become child lists; undeclared parents are refused. */
  method Invert(dependencies: map<Id, set<Id>>) returns (ok: bool, children: map<Id, set<Id>>)
    ensures ok <==> Declared(dependencies)
    ensures ok ==> children == ChildrenOf(dependencies)
  {
    children := map p | p in dependencies :: {};
    var rest := dependencies.Keys;
    while rest != {}
      invariant rest <= dependencies.Keys && children.Keys == dependencies.Keys
      invariant forall t :: t in dependencies.Keys - rest ==> dependencies[t] <= dependencies.Keys
      invariant forall p :: p in children ==> children[p] == set t | t in dependencies.Keys - rest && p in dependencies[t]
      decreases rest
    {
      var task :| task in rest;
      rest := rest - {task};
      if !(dependencies[task] <= dependencies.Keys) {
        return false, children;
      }
      children := map p | p in children :: if p in dependencies[task] then children[p] + {task} else children[p];
    }
    forall p | p in children ensures children[p] == ChildrenOf(dependencies)[p] {
    }
    return true, children;
  }

  // ---------------------------------------------------------------------------------------------
  // Kahn's algorithm
  // ---------------------------------------------------------------------------------------------

  ghost predicate Distinct(s: seq<Id>) {
    forall i, j :: 0 <= i < j < |s| ==> s[i] != s[j]
  }

  lemma DistinctTail(s: seq<Id>)
    requires Distinct(s) && s != []
    ensures Distinct(s[1..]) && s[0] !in s[1..] && s[0] in s
    ensures forall x :: x in s <==> x == s[0] || x in s[1..]
  {
  }

  lemma DistinctMore(s: seq<Id>, x: Id)
    requires Distinct(s) && x !in s
    ensures Distinct(s + [x]) && forall y :: y in s + [x] <==> y in s || y == x
  {
  }

  /** Ready and done are the tasks without an unvisited parent; a task's count is its unvisited parents. */
  ghost predicate Counting(dependencies: map<Id, set<Id>>, done: set<Id>, ready: seq<Id>, indegree: map<Id, int>) {
    && indegree.Keys == dependencies.Keys && done <= dependencies.Keys && Distinct(ready)
    && (forall t {:trigger Counted(dependencies, done, ready, indegree, t)} ::
          t in dependencies ==> Counted(dependencies, done, ready, indegree, t))
    && (forall t :: t in ready ==> t in dependencies && t !in done)
  }

  ghost predicate Counted(dependencies: map<Id, set<Id>>, done: set<Id>, ready: seq<Id>, indegree: map<Id, int>, t: Id)
    requires t in dependencies && indegree.Keys == dependencies.Keys
  {
    indegree[t] == |dependencies[t] - done| && (t in done || t in ready <==> indegree[t] == 0)
  }

  /** Every visited task's parents were visited before it. */
  ghost predicate Ranked(dependencies: map<Id, set<Id>>, done: set<Id>, count: nat, rank: map<Id, nat>) {
    && rank.Keys == done
    && forall t {:trigger RankOk(dependencies, rank, count, t)} :: t in done ==> RankOk(dependencies, rank, count, t)
  }

  ghost predicate RankOk(dependencies: map<Id, set<Id>>, rank: map<Id, nat>, count: nat, t: Id)
    requires t in rank
  {
    rank[t] < count && (t in dependencies ==> forall p :: p in dependencies[t] ==> p in rank && rank[p] < rank[t])
  }

  /** Visiting the first ready task: its children lose one unvisited parent each. */
  method Visit(dependencies: map<Id, set<Id>>, kids: set<Id>, indegree: map<Id, int>, ready: seq<Id>, ghost done: set<Id>)
    returns (counts: map<Id, int>, queue: seq<Id>)
    requires ready != [] && Counting(dependencies, done, ready, indegree)
    requires kids == set t | t in dependencies && ready[0] in dependencies[t]
    ensures Counting(dependencies, done + {ready[0]}, queue, counts)
  {
    DistinctTail(ready);
    counts, queue := indegree, ready[1..];
    var rest := kids;
    while rest != {}
      invariant rest <= kids && counts.Keys == dependencies.Keys && Distinct(queue)
      invariant forall t :: t in counts ==> counts[t] == if t in kids - rest then indegree[t] - 1 else indegree[t]
      invariant forall t :: t in queue <==> t in ready[1..] || (t in kids - rest && counts[t] == 0)
      decreases rest
    {
      var t :| t in rest;
      KidWaits(dependencies, done, ready, indegree, ready[0], t);
      counts := counts[t := counts[t] - 1];
      if counts[t] == 0 {
        DistinctMore(queue, t);
        queue := queue + [t];
      }
      rest := rest - {t};
    }
    Visited(dependencies, kids, indegree, ready, done, counts, queue);
  }

  lemma Visited(dependencies: map<Id, set<Id>>, kids: set<Id>, indegree: map<Id, int>, ready: seq<Id>, done: set<Id>,
                counts: map<Id, int>, queue: seq<Id>)
    requires ready != [] && Counting(dependencies, done, ready, indegree)
    requires kids == set t | t in dependencies && ready[0] in dependencies[t]
    requires counts.Keys == dependencies.Keys && Distinct(queue)
    requires forall t :: t in counts ==> counts[t] == if t in kids then indegree[t] - 1 else indegree[t]
    requires forall t :: t in queue <==> t in ready[1..] || (t in kids && counts[t] == 0)
    ensures Counting(dependencies, done + {ready[0]}, queue, counts)
  {
    DistinctTail(ready);
    var task := ready[0];
    forall t | t in dependencies ensures Counted(dependencies, done + {task}, queue, counts, t) {
      assert Counted(dependencies, done, ready, indegree, t);
      LessOne(dependencies[t], done, task);
    }
    forall t | t in queue ensures t in dependencies && t !in done + {task} {
      if t in kids {
        KidWaits(dependencies, done, ready, indegree, task, t);
      }
    }
  }

  lemma LessOne(parents: set<Id>, done: set<Id>, task: Id)
    requires task !in done
    ensures |parents - (done + {task})| == |parents - done| - (if task in parents then 1 else 0)
  {
    if task in parents {
      assert parents - done == (parents - (done + {task})) + {task};
    } else {
      assert parents - done == parents - (done + {task});
    }
  }

  lemma KidWaits(dependencies: map<Id, set<Id>>, done: set<Id>, line: seq<Id>, indegree: map<Id, int>, task: Id, t: Id)
    requires Counting(dependencies, done, line, indegree) && task in line && t in dependencies && task in dependencies[t]
    ensures t !in done && t !in line && indegree[t] > 0
  {
    assert Counted(dependencies, done, line, indegree, t);
    assert task in dependencies[t] - done;
    assert |dependencies[t] - done| > 0;
  }

  /** The first ready task has only visited parents, so it can be ranked next. */
  lemma ReadyIsFree(dependencies: map<Id, set<Id>>, done: set<Id>, ready: seq<Id>, indegree: map<Id, int>)
    requires Counting(dependencies, done, ready, indegree) && ready != []
    ensures ready[0] in dependencies && ready[0] !in done && dependencies[ready[0]] <= done
  {
    var task := ready[0];
    assert task in ready;
    assert Counted(dependencies, done, ready, indegree, task);
    var waiting := dependencies[task] - done;
    assert waiting == {};
    forall p | p in dependencies[task] ensures p in done {
      assert p !in waiting;
    }
  }

  lemma RankNext(dependencies: map<Id, set<Id>>, done: set<Id>, count: nat, rank: map<Id, nat>, task: Id)
    requires Ranked(dependencies, done, count, rank) && task in dependencies && task !in done && dependencies[task] <= done
    ensures Ranked(dependencies, done + {task}, count + 1, rank[task := count])
  {
    forall t | t in done + {task} ensures RankOk(dependencies, rank[task := count], count + 1, t) {
      if t != task {
        assert RankOk(dependencies, rank, count, t);
      } else {
        forall p | p in dependencies[task] ensures rank[p] < count {
          assert RankOk(dependencies, rank, count, p);
        }
      }
    }
  }

  lemma OneMoreDone(all: set<Id>, done: set<Id>, task: Id)
    requires task in all && task !in done
    ensures |done + {task}| == |done| + 1 && |all - (done + {task})| < |all - done|
  {
    assert all - done == (all - (done + {task})) + {task};
  }

  /** All visited: the visiting order ranks the graph. */
  lemma AllVisited(dependencies: map<Id, set<Id>>, done: set<Id>, count: nat, rank: map<Id, nat>)
    requires Ranked(dependencies, done, count, rank) && done == dependencies.Keys
    ensures !HasCycle(ChildrenOf(dependencies))
  {
    var children := ChildrenOf(dependencies);
    forall x, y | Step(children, x, y) ensures x in rank && y in rank && rank[x] < rank[y] {
      assert y in dependencies && x in dependencies[y] && RankOk(dependencies, rank, count, y);
    }
    RankedHasNoCycle(children, rank);
  }

  /** Some never visited: each of those has such a parent. */
  lemma SomeStuck(dependencies: map<Id, set<Id>>, done: set<Id>, indegree: map<Id, int>)
    requires Declared(dependencies) && Counting(dependencies, done, [], indegree) && done != dependencies.Keys
    ensures HasCycle(ChildrenOf(dependencies))
  {
    var children, stuck := ChildrenOf(dependencies), dependencies.Keys - done;
    forall t | t in stuck ensures HasParent(children, stuck, t) {
      assert Counted(dependencies, done, [], indegree, t);
      var waiting := dependencies[t] - done;
      assert |waiting| != 0;
      var p :| p in waiting;
      assert p in stuck && Step(children, p, t);
    }
    assert stuck != {} by {
      assert done == {} + done && (stuck == {} ==> done == dependencies.Keys);
    }
    StuckHasCycle(children, stuck);
  }

  lemma CountDecides(dependencies: map<Id, set<Id>>, done: set<Id>, count: nat, rank: map<Id, nat>, indegree: map<Id, int>)
    requires Declared(dependencies) && Counting(dependencies, done, [], indegree) && Ranked(dependencies, done, count, rank)
    ensures |done| == |dependencies| <==> !HasCycle(ChildrenOf(dependencies))
  {
    assert dependencies.Keys == done + (dependencies.Keys - done);
    assert |dependencies.Keys| == |done| + |dependencies.Keys - done|;
    if done == dependencies.Keys {
      AllVisited(dependencies, done, count, rank);
    } else {
      SomeStuck(dependencies, done, indegree);
    }
  }

  method Acyclic(dependencies: map<Id, set<Id>>, children: map<Id, set<Id>>) returns (ok: bool)
    requires Declared(dependencies) && children == ChildrenOf(dependencies)
    ensures ok <==> !HasCycle(children)
  {
    var indegree := map t | t in dependencies :: |dependencies[t]|;
    var ready := Sources(dependencies, indegree);
    var visited: nat := 0;
    ghost var done, rank: map<Id, nat> := {}, map[];
    StartCounting(dependencies, ready, indegree);
    while ready != []
      invariant Counting(dependencies, done, ready, indegree) && Ranked(dependencies, done, visited, rank) && visited == |done|
      decreases |dependencies.Keys - done|
    {
      var parent := ready[0];
      ReadyIsFree(dependencies, done, ready, indegree);
      RankNext(dependencies, done, visited, rank, parent);
      OneMoreDone(dependencies.Keys, done, parent);
      indegree, ready := Visit(dependencies, children[parent], indegree, ready, done);
      rank := rank[parent := visited];
      done := done + {parent};
      visited := visited + 1;
    }
    CountDecides(dependencies, done, visited, rank, indegree);
    return visited == |dependencies|;
  }

  lemma StartCounting(dependencies: map<Id, set<Id>>, ready: seq<Id>, indegree: map<Id, int>)
    requires indegree == map t | t in dependencies :: |dependencies[t]|
    requires Distinct(ready) && forall t :: t in ready <==> t in dependencies && indegree[t] == 0
    ensures Counting(dependencies, {}, ready, indegree)
  {
    forall t | t in dependencies ensures Counted(dependencies, {}, ready, indegree, t) {
      assert dependencies[t] - {} == dependencies[t];
    }
  }

  /** The tasks without parents, in some order. */
  method Sources(dependencies: map<Id, set<Id>>, indegree: map<Id, int>) returns (ready: seq<Id>)
    requires indegree == map t | t in dependencies :: |dependencies[t]|
    ensures forall t :: t in ready <==> t in dependencies && indegree[t] == 0
    ensures Distinct(ready)
  {
    ready := [];
    var rest := dependencies.Keys;
    while rest != {}
      invariant rest <= dependencies.Keys
      invariant forall t :: t in ready <==> t in dependencies.Keys - rest && indegree[t] == 0
      invariant Distinct(ready)
      decreases rest
    {
      var t :| t in rest;
      rest := rest - {t};
      if indegree[t] == 0 {
        ready := ready + [t];
      }
    }
  }

  // ---------------------------------------------------------------------------------------------
  // The closure
  // ---------------------------------------------------------------------------------------------

  method Reach(children: map<Id, set<Id>>, changed: set<Id>) returns (result: set<Id>)
    requires changed <= children.Keys && Closed(children)
    ensures forall x :: x in result <==> Reaches(children, changed, x)
    ensures result <= children.Keys
  {
    result := changed;
    var pending := changed;
    forall x | x in changed ensures Reaches(children, changed, x) {
      ReachesSelf(children, changed, x);
    }
    while pending != {}
      invariant pending <= result <= children.Keys && changed <= result
      invariant forall x :: x in result ==> Reaches(children, changed, x)
      invariant forall x, y :: x in result - pending && Step(children, x, y) ==> y in result
      decreases |children.Keys - result| + |pending|, |children.Keys - result|
    {
      var x :| x in pending;
      var more := children[x] - result;
      forall y | y in more ensures Reaches(children, changed, y) {
        assert Step(children, x, y);
        ReachesChild(children, changed, x, y);
      }
      Drains(children.Keys, result, pending, x, more);
      result := result + more;
      pending := pending - {x} + more;
    }
    ClosureIsReach(children, changed, result);
  }

  lemma Drains(all: set<Id>, result: set<Id>, pending: set<Id>, x: Id, more: set<Id>)
    requires x in pending && pending <= result <= all && more <= all && more * result == {}
    ensures |all - (result + more)| + |pending - {x} + more| < |all - result| + |pending|
  {
    assert all - result == (all - (result + more)) + more;
    assert pending == (pending - {x}) + {x};
    assert (pending - {x}) * more == {};
    assert |pending - {x} + more| == |pending - {x}| + |more|;
  }

  /** Refused exactly for an unknown change, an undeclared parent or a cycle; otherwise all that the change reaches. */
  method AffectedTasks(dependencies: map<Id, set<Id>>, changed: set<Id>) returns (a: Answer)
    ensures a.DependencyInvalid? <==>
      !(changed <= dependencies.Keys) || !Declared(dependencies) || HasCycle(ChildrenOf(dependencies))
    ensures a.Affected? ==> forall x :: x in a.tasks <==> Reaches(ChildrenOf(dependencies), changed, x)
    ensures a.Affected? ==> a.tasks <= dependencies.Keys
  {
    if !(changed <= dependencies.Keys) {
      return DependencyInvalid;
    }
    var ok, children := Invert(dependencies);
    if !ok {
      return DependencyInvalid;
    }
    ok := Acyclic(dependencies, children);
    if !ok {
      return DependencyInvalid;
    }
    var result := Reach(children, changed);
    return Affected(result);
  }
}
