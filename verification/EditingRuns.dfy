/** Whole patches and what they do to the film: validation, application, and locating a clip by frame. */
module EditingRuns {
  import opened Wrappers
  import opened Ids
  import opened Graph
  import opened Editing

  // ---------------------------------------------------------------------------------------------
  // The flattened film
  // ---------------------------------------------------------------------------------------------

  function Frames(c: Clip): seq<(Id, int)> {
    seq(if c.end >= c.first then c.end - c.first else 0, k => (c.source, c.first + k))
  }

  /** The film as source and frame pairs, in order. */
  function Flat(clips: seq<Clip>): seq<(Id, int)> {
    if clips == [] then [] else Frames(clips[0]) + Flat(clips[1..])
  }

  lemma {:induction false} FlatJoins(a: seq<Clip>, b: seq<Clip>)
    ensures Flat(a + b) == Flat(a) + Flat(b)
  {
    if a == [] {
      assert a + b == b;
    } else {
      assert (a + b)[1..] == a[1..] + b;
      FlatJoins(a[1..], b);
      assert Frames(a[0]) + (Flat(a[1..]) + Flat(b)) == Frames(a[0]) + Flat(a[1..]) + Flat(b);
    }
  }

  lemma FlatReplaced(clips: seq<Clip>, i: nat, put: seq<Clip>)
    requires i < |clips|
    ensures Flat(Replaced(clips, i, put)) == Flat(clips[..i]) + Flat(put) + Flat(clips[i + 1..])
    ensures Flat(clips) == Flat(clips[..i]) + Frames(clips[i]) + Flat(clips[i + 1..])
  {
    FlatJoins(clips[..i] + put, clips[i + 1..]);
    FlatJoins(clips[..i], put);
    assert clips == Replaced(clips, i, [clips[i]]);
    FlatJoins(clips[..i] + [clips[i]], clips[i + 1..]);
    FlatJoins(clips[..i], [clips[i]]);
    FlatOne(clips[i]);
  }

  lemma FlatOne(c: Clip)
    ensures Flat([c]) == Frames(c)
  {
    assert [c][1..] == [];
    assert Frames(c) + [] == Frames(c);
  }

  lemma FlatTwo(a: Clip, b: Clip)
    ensures Flat([a, b]) == Frames(a) + Frames(b)
  {
    assert [a, b] == [a] + [b];
    FlatJoins([a], [b]);
    FlatOne(a);
    FlatOne(b);
  }

  lemma ReplacedByOne(clips: seq<Clip>, i: nat, c: Clip)
    requires i < |clips|
    ensures Flat(clips[i := c]) == Flat(clips[..i]) + Frames(c) + Flat(clips[i + 1..])
  {
    assert clips[i := c] == Replaced(clips, i, [c]);
    FlatReplaced(clips, i, [c]);
    FlatOne(c);
  }

  lemma HalvesFlat(clip: Clip, left: Id, right: Id, at: int)
    requires 0 < at < clip.end - clip.first
    ensures Flat(Halves(clip, left, right, at)) == Frames(clip)
  {
    var put := Halves(clip, left, right, at);
    FlatTwo(put[0], put[1]);
    assert Frames(put[0]) + Frames(put[1]) == Frames(clip);
  }

  /** What each operation on one clip does to the film around it. */
  lemma OpMeaning(st: State, op: Op)
    requires !op.Reorder? && ApplyOp(st, op).Success?
    ensures IndexOf(st.clips, op.id).Some? && IndexOf(st.clips, op.id).value < |st.clips|
    ensures var i, after := IndexOf(st.clips, op.id).value, Flat(ApplyOp(st, op).value.clips);
      var clip, pre, post := st.clips[i], Flat(st.clips[..i]), Flat(st.clips[i + 1..]);
      && clip.id == op.id && Flat(st.clips) == pre + Frames(clip) + post
      && match op
         case Rename(_, _) => after == Flat(st.clips)
         case Split(_, _, _, _) => after == Flat(st.clips)
         case Trim(_, first, end) => after == pre + Frames(clip.(first := first, end := end)) + post
         case Remove(_) => after == pre + post
         case Duplicate(_, _) => after == pre + Frames(clip) + Frames(clip) + post
  {
    IdAt(st.clips, op.id);
    var i := IndexOf(st.clips, op.id).value;
    var clip := st.clips[i];
    var pre, post := Flat(st.clips[..i]), Flat(st.clips[i + 1..]);
    FlatReplaced(st.clips, i, []);
    match op
    case Rename(_, title) => ReplacedByOne(st.clips, i, clip.(title := title));
    case Trim(_, first, end) => ReplacedByOne(st.clips, i, clip.(first := first, end := end));
    case Remove(_) => assert pre + [] + post == pre + post;
    case Duplicate(_, copy) => DuplicateFlat(st.clips, i, copy);
    case Split(_, left, right, at) =>
      FlatReplaced(st.clips, i, Halves(clip, left, right, at));
      HalvesFlat(clip, left, right, at);
  }

  lemma DuplicateFlat(clips: seq<Clip>, i: nat, copy: Id)
    requires i < |clips|
    ensures Flat(Replaced(clips, i, [clips[i], Child(clips[i], copy)]))
      == Flat(clips[..i]) + Frames(clips[i]) + Frames(clips[i]) + Flat(clips[i + 1..])
  {
    var clip, pre, post := clips[i], Flat(clips[..i]), Flat(clips[i + 1..]);
    FlatReplaced(clips, i, [clip, Child(clip, copy)]);
    FlatTwo(clip, Child(clip, copy));
    assert Frames(Child(clip, copy)) == Frames(clip);
    assert pre + (Frames(clip) + Frames(clip)) + post == pre + Frames(clip) + Frames(clip) + post;
  }

  /** A reorder puts the same clips in the order named. */
  lemma ReorderMeaning(st: State, ids: seq<Id>)
    requires IdentityOk(st) && WellShaped(Reorder(ids)) && ApplyOp(st, Reorder(ids)).Success?
    ensures var after := ApplyOp(st, Reorder(ids)).value.clips;
      && |after| == |ids| == |st.clips| && (forall i :: 0 <= i < |ids| ==> after[i].id == ids[i])
      && multiset(after) == multiset(st.clips) && multiset(Flat(after)) == multiset(Flat(st.clips))
  {
    var after := ApplyOp(st, Reorder(ids)).value.clips;
    ByIdsPermutes(st.clips, ids);
    ReorderSame(st.clips, ids);
    SameSize(ids, st.clips);
    forall c ensures multiset(after)[c] == multiset(st.clips)[c] {
      CountOnce(after, c);
      CountOnce(st.clips, c);
    }
    FlatPermutes(after, st.clips);
  }

  lemma {:induction false} CountOnce(clips: seq<Clip>, c: Clip)
    requires Unique(clips)
    ensures multiset(clips)[c] == if c in clips then 1 else 0
  {
    if clips != [] {
      assert clips == [clips[0]] + clips[1..];
      CountOnce(clips[1..], c);
    }
  }

  lemma {:induction false} FlatPermutes(a: seq<Clip>, b: seq<Clip>)
    requires multiset(a) == multiset(b)
    ensures multiset(Flat(a)) == multiset(Flat(b))
    decreases |a|
  {
    if a == [] {
      assert |multiset(b)| == 0;
      assert b == [];
    } else {
      var c := a[0];
      assert c in multiset(a);
      var j :| 0 <= j < |b| && b[j] == c;
      TakeOut(a, 0);
      TakeOut(b, j);
      Cancel(multiset(Replaced(a, 0, [])), multiset(Replaced(b, j, [])), multiset([c]));
      FlatPermutes(Replaced(a, 0, []), Replaced(b, j, []));
      TakeOutFrames(a, 0);
      TakeOutFrames(b, j);
    }
  }

  lemma Cancel<T>(m: multiset<T>, n: multiset<T>, x: multiset<T>)
    requires m + x == n + x
    ensures m == n
  {
    forall e ensures m[e] == n[e] {
      assert (m + x)[e] == (n + x)[e];
    }
  }

  /** One clip fewer, */
  lemma TakeOut(b: seq<Clip>, j: nat)
    requires j < |b|
    ensures multiset(b) == multiset(Replaced(b, j, [])) + multiset([b[j]]) && |Replaced(b, j, [])| == |b| - 1
  {
    assert b == b[..j] + [b[j]] + b[j + 1..];
    assert Replaced(b, j, []) == b[..j] + b[j + 1..];
    Apart(b, Replaced(b, j, []), b[..j], [b[j]], b[j + 1..]);
  }

  /** its frames fewer. */
  lemma TakeOutFrames(b: seq<Clip>, j: nat)
    requires j < |b|
    ensures multiset(Flat(b)) == multiset(Flat(Replaced(b, j, []))) + multiset(Frames(b[j]))
  {
    FlatReplaced(b, j, []);
    NothingBetween(Flat(b[..j]), Flat(b[j + 1..]));
    Apart(Flat(b), Flat(Replaced(b, j, [])), Flat(b[..j]), Frames(b[j]), Flat(b[j + 1..]));
  }

  lemma NothingBetween<T>(a: seq<T>, c: seq<T>)
    ensures a + [] + c == a + c
  {
  }

  lemma Apart<T>(whole: seq<T>, rest: seq<T>, a: seq<T>, b: seq<T>, c: seq<T>)
    requires whole == a + b + c && rest == a + c
    ensures multiset(whole) == multiset(rest) + multiset(b)
  {
  }

  // ---------------------------------------------------------------------------------------------
  // validate_edit
  // ---------------------------------------------------------------------------------------------

  predicate ClipPlays(sources: map<Id, int>, c: Clip) {
    c.source in sources && 0 <= c.first < c.end <= sources[c.source]
  }

  /** There are clips, and each shows a nonempty interval of a known source. */
  ghost predicate Playable(sources: map<Id, int>, clips: seq<Clip>) {
    clips != [] && forall c :: c in clips ==> ClipPlays(sources, c)
  }

  function Opening(clips: seq<Clip>, retired: seq<Id>): State {
    State(clips, retired, IdsOf(clips) + Elements(retired))
  }

  ghost predicate Valid(sources: map<Id, int>, clips: seq<Clip>, retired: seq<Id>) {
    Playable(sources, clips) && IdentityOk(Opening(clips, retired))
  }

  /** Finished nodes: everything they point to was finished before. */
  ghost predicate Finished(g: map<Id, set<Id>>, visited: set<Id>, rank: map<Id, nat>) {
    && rank.Keys == visited && visited <= g.Keys
    && forall x {:trigger FinishedAt(g, rank, x)} :: x in visited ==> FinishedAt(g, rank, x)
  }

  ghost predicate FinishedAt(g: map<Id, set<Id>>, rank: map<Id, nat>, x: Id)
    requires x in rank
  {
    forall y :: Step(g, x, y) ==> y in rank && rank[y] < rank[x]
  }

  /** The nodes being visited, each reached from the one before. */
  ghost predicate Trail(g: map<Id, set<Id>>, stack: seq<Id>, visiting: set<Id>) {
    (stack != [] ==> Path(g, stack)) && forall x :: x in visiting <==> x in stack
  }

  lemma TrailCloses(g: map<Id, set<Id>>, stack: seq<Id>, id: Id)
    requires stack != [] && Path(g, stack) && Step(g, stack[|stack| - 1], id) && id in stack
    ensures HasCycle(g)
  {
    var k :| 0 <= k < |stack| && stack[k] == id;
    var p := stack[k..] + [id];
    forall i | 0 <= i < |p| - 1 ensures Step(g, p[i], p[i + 1]) {
      if i < |p| - 2 {
        assert Step(g, stack[k + i], stack[k + i + 1]);
      }
    }
    assert Path(g, p) && |p| > 1 && p[0] == p[|p| - 1];
  }

  lemma TrailGrows(g: map<Id, set<Id>>, stack: seq<Id>, visiting: set<Id>, id: Id)
    requires Trail(g, stack, visiting) && (stack != [] ==> Step(g, stack[|stack| - 1], id))
    ensures Trail(g, stack + [id], visiting + {id})
  {
    var p := stack + [id];
    forall i | 0 <= i < |p| - 1 ensures Step(g, p[i], p[i + 1]) {
      if i < |stack| - 1 {
        assert Step(g, stack[i], stack[i + 1]);
      }
    }
  }

  /** What a visit starts from. */
  ghost predicate Visiting(clips: seq<Clip>, visiting: set<Id>, visited: set<Id>, stack: seq<Id>, rank: map<Id, nat>, bound: nat) {
    && Unique(clips) && Trail(Parents(clips), stack, visiting) && visiting <= IdsOf(clips) && visiting !! visited
    && Finished(Parents(clips), visited, rank) && forall x :: x in rank ==> rank[x] < bound
  }

  /** `visit`: depth first through the lineage, failing on a node that is still being visited. */
  method Visit(clips: seq<Clip>, id: Id, visiting: set<Id>, visited: set<Id>, ghost stack: seq<Id>, ghost rank: map<Id, nat>, ghost bound: nat)
    returns (ok: bool, after: set<Id>, ghost ranks: map<Id, nat>, ghost top: nat)
    requires Visiting(clips, visiting, visited, stack, rank, bound)
    requires stack != [] && id in IdsOf(clips) ==> Step(Parents(clips), stack[|stack| - 1], id)
    ensures !ok ==> HasCycle(Parents(clips))
    ensures ok ==> Visiting(clips, visiting, after, stack, ranks, top) && visited <= after && (id in IdsOf(clips) ==> id in after)
    decreases |IdsOf(clips) - visiting|, 0, 0
  {
    after, ranks, top := visited, rank, bound;
    if id in visiting {
      TrailCloses(Parents(clips), stack, id);
      return false, after, ranks, top;
    }
    var at := IndexOf(clips, id);
    IdFound(clips, id);
    if id in visited || at.None? {
      return true, after, ranks, top;
    }
    var clip := clips[at.value];
    IdOf(clips, at.value);
    TrailGrows(Parents(clips), stack, visiting, id);
    FewerLeft(IdsOf(clips), visiting, id);
    ok, after, ranks, top := VisitLineage(clips, clip, 0, visiting + {id}, visited, stack + [id], rank, bound);
    if ok {
      FinishVisit(clips, clip, visiting, after, stack, ranks, top);
      after, ranks, top := after + {id}, ranks[id := top], top + 1;
    }
  }

  /** The loop of `visit` over a clip's lineage, from the i-th entry on. */
  method VisitLineage(clips: seq<Clip>, clip: Clip, i: nat, visiting: set<Id>, visited: set<Id>, ghost stack: seq<Id>, ghost rank: map<Id, nat>, ghost bound: nat)
    returns (ok: bool, after: set<Id>, ghost ranks: map<Id, nat>, ghost top: nat)
    requires Visiting(clips, visiting, visited, stack, rank, bound) && i <= |clip.lineage|
    requires clip in clips && stack != [] && stack[|stack| - 1] == clip.id
    ensures !ok ==> HasCycle(Parents(clips))
    ensures ok ==> Visiting(clips, visiting, after, stack, ranks, top) && visited <= after
    ensures ok ==> forall j :: i <= j < |clip.lineage| && clip.lineage[j] in IdsOf(clips) ==> clip.lineage[j] in after
    decreases |IdsOf(clips) - visiting|, 1, |clip.lineage| - i
  {
    ok, after, ranks, top := true, visited, rank, bound;
    if i < |clip.lineage| {
      LineageStep(clips, clip, clip.lineage[i]);
      ok, after, ranks, top := Visit(clips, clip.lineage[i], visiting, visited, stack, rank, bound);
      if ok {
        ok, after, ranks, top := VisitLineage(clips, clip, i + 1, visiting, after, stack, ranks, top);
      }
    }
  }

  lemma FewerLeft(all: set<Id>, visiting: set<Id>, id: Id)
    requires id in all && id !in visiting
    ensures |all - (visiting + {id})| < |all - visiting|
  {
    assert all - visiting == (all - (visiting + {id})) + {id};
  }

  lemma FinishVisit(clips: seq<Clip>, clip: Clip, visiting: set<Id>, visited: set<Id>, stack: seq<Id>, rank: map<Id, nat>, top: nat)
    requires clip in clips && clip.id !in visiting && visiting <= IdsOf(clips) && Trail(Parents(clips), stack, visiting)
    requires Visiting(clips, visiting + {clip.id}, visited, stack + [clip.id], rank, top)
    requires forall y :: y in clip.lineage && y in IdsOf(clips) ==> y in visited
    ensures Visiting(clips, visiting, visited + {clip.id}, stack, rank[clip.id := top], top + 1)
  {
    Finish(clips, clip, visited, rank, top);
  }

  lemma LineageStep(clips: seq<Clip>, clip: Clip, y: Id)
    requires clip in clips && y in clip.lineage
    ensures y in IdsOf(clips) ==> Step(Parents(clips), clip.id, y)
  {
    assert clip.id in IdsOf(clips);
    assert Descends(clips, clip.id, y);
  }

  lemma Finish(clips: seq<Clip>, clip: Clip, visited: set<Id>, rank: map<Id, nat>, top: nat)
    requires Unique(clips) && clip in clips && clip.id !in visited && Finished(Parents(clips), visited, rank)
    requires forall x :: x in rank ==> rank[x] < top
    requires forall y :: y in clip.lineage && y in IdsOf(clips) ==> y in visited
    ensures Finished(Parents(clips), visited + {clip.id}, rank[clip.id := top])
  {
    var g, now := Parents(clips), rank[clip.id := top];
    assert clip.id in IdsOf(clips);
    forall x | x in visited + {clip.id} ensures FinishedAt(g, now, x) {
      if x == clip.id {
        forall y | Step(g, x, y) ensures y in now && now[y] < now[x] {
          var c :| c in clips && c.id == x && y in c.lineage;
          assert c == clip;
        }
      } else {
        assert FinishedAt(g, rank, x);
      }
    }
  }

  /** The loop over all clips: lineage is cyclic exactly when some visit fails. */
  method LineageAcyclic(clips: seq<Clip>) returns (ok: bool)
    requires Unique(clips)
    ensures ok <==> !HasCycle(Parents(clips))
  {
    var visited: set<Id> := {};
    ghost var rank: map<Id, nat>, top: nat := map[], 0;
    for i := 0 to |clips|
      invariant Finished(Parents(clips), visited, rank) && (forall x :: x in rank ==> rank[x] < top)
      invariant forall j :: 0 <= j < i ==> clips[j].id in visited
    {
      IdOf(clips, i);
      ok, visited, rank, top := Visit(clips, clips[i].id, {}, visited, [], rank, top);
      if !ok {
        return false;
      }
    }
    AllFinished(clips, visited, rank);
    return true;
  }

  lemma AllFinished(clips: seq<Clip>, visited: set<Id>, rank: map<Id, nat>)
    requires Finished(Parents(clips), visited, rank) && forall j :: 0 <= j < |clips| ==> clips[j].id in visited
    ensures !HasCycle(Parents(clips))
  {
    var g := Parents(clips);
    forall x, y | Step(g, x, y) ensures x in rank && y in rank && rank[y] < rank[x] {
      assert x in IdsOf(clips);
      assert FinishedAt(g, rank, x);
    }
    FallingHasNoCycle(g, rank);
  }

  method ValidateEdit(sources: map<Id, int>, clips: seq<Clip>, retired: seq<Id>) returns (ok: bool)
    ensures ok <==> Valid(sources, clips, retired)
  {
    if clips == [] {
      return false;
    }
    var ids: set<Id> := {};
    for i := 0 to |clips|
      invariant forall x :: x in ids <==> exists j :: 0 <= j < i && clips[j].id == x
      invariant forall j, k :: 0 <= j < k < i ==> clips[j].id != clips[k].id
    {
      if clips[i].id in ids {
        return false;
      }
      ids := ids + {clips[i].id};
    }
    assert ids == IdsOf(clips) by {
      forall x | x in IdsOf(clips) ensures x in ids {
        var k := IndexIn(clips, x);
      }
    }
    if exists x :: x in retired && x in ids {
      return false;
    }
    for i := 0 to |clips|
      invariant forall j :: 0 <= j < i ==> ClipPlays(sources, clips[j]) && LineageOk(ids + Elements(retired), clips[j])
    {
      var clip := clips[i];
      var known := forall p :: p in clip.lineage ==> p in ids || p in retired;
      if !ClipPlays(sources, clip) || clip.id in clip.lineage || !known {
        assert clip in clips;
        assert known <==> Elements(clip.lineage) <= ids + Elements(retired);
        assert !ClipPlays(sources, clip) || !LineageOk(ids + Elements(retired), clip);
        return false;
      }
    }
    ok := LineageAcyclic(clips);
  }

  // ---------------------------------------------------------------------------------------------
  // apply_edit_patch
  // ---------------------------------------------------------------------------------------------

  method Find(clips: seq<Clip>, id: Id) returns (r: Option<nat>)
    ensures r == IndexOf(clips, id)
  {
    for i := 0 to |clips|
      invariant IndexOf(clips, id) == match IndexOf(clips[i..], id) case None => None case Some(k) => Some(k + i)
    {
      if clips[i].id == id {
        return Some(i);
      }
    }
    return None;
  }

  method ApplyOne(st: State, op: Op) returns (r: Result<State, Error>)
    ensures r == ApplyOp(st, op)
  {
    if op.Reorder? {
      if Elements(op.ids) != IdsOf(st.clips) {
        return Failure(BadReorder);
      }
      return Success(st.(clips := ByIds(st.clips, op.ids)));
    }
    var index := Find(st.clips, op.id);
    if index.None? {
      return Failure(MissingClip);
    }
    IdAt(st.clips, op.id);
    var i := index.value;
    var clip := st.clips[i];
    match op
    case Rename(_, title) => return Success(st.(clips := st.clips[i := clip.(title := title)]));
    case Trim(_, first, end) => return Success(st.(clips := st.clips[i := clip.(first := first, end := end)]));
    case Remove(_) =>
      assert Replaced(st.clips, i, []) == st.clips[..i] + st.clips[i + 1..];
      return Success(st.(clips := st.clips[..i] + st.clips[i + 1..], retired := st.retired + [clip.id]));
    case Duplicate(_, copy) =>
      if copy in st.used {
        return Failure(IdUsed);
      }
      assert Replaced(st.clips, i, [clip, Child(clip, copy)]) == st.clips[..i + 1] + [Child(clip, copy)] + st.clips[i + 1..];
      return Success(st.(clips := st.clips[..i + 1] + [Child(clip, copy)] + st.clips[i + 1..], used := st.used + {copy}));
    case Split(_, left, right, at) =>
      if left in st.used || right in st.used {
        return Failure(IdUsed);
      }
      if !(0 < at < clip.end - clip.first) {
        return Failure(SplitOutside);
      }
      return Success(State(st.clips[..i] + Halves(clip, left, right, at) + st.clips[i + 1..], st.retired + [clip.id], st.used + {left, right}));
  }

  /**
   A patch on a valid edit: all operations or none. It fails only where an operation is refused or the clips it leaves
   do not play; the final check of ids, retirement and lineage cannot be what refuses it.
   */
  method ApplyPatch(sources: map<Id, int>, clips: seq<Clip>, retired: seq<Id>, ops: seq<Op>) returns (r: Result<State, Error>)
    ensures var done := ApplyAll(Opening(clips, retired), ops);
      && (r.Success? <==>
            && Valid(sources, clips, retired) && (forall i :: 0 <= i < |ops| ==> WellShaped(ops[i]))
            && done.Success? && Playable(sources, done.value.clips))
      && (r.Success? ==> r == done && Valid(sources, r.value.clips, r.value.retired))
  {
    var ok := ValidateEdit(sources, clips, retired);
    var shaped := forall i :: 0 <= i < |ops| ==> WellShaped(ops[i]);
    if !ok || !shaped {
      return Failure(Invalid);
    }
    var start := Opening(clips, retired);
    var st := start;
    for i := 0 to |ops|
      invariant ApplyAll(start, ops[..i]) == Success(st) && IdentityOk(st)
    {
      NextOp(start, ops, i);
      var next := ApplyOne(st, ops[i]);
      if next.Failure? {
        FailsFor(start, ops, i + 1);
        return next;
      }
      OpKeepsIdentity(st, ops[i]);
      st := next.value;
    }
    assert ops[..|ops|] == ops;
    ok := ValidateEdit(sources, st.clips, st.retired);
    SameOpening(st);
    return if ok then Success(st) else Failure(Invalid);
  }

  lemma NextOp(start: State, ops: seq<Op>, i: nat)
    requires i < |ops|
    ensures ApplyAll(start, ops[..i + 1])
      == match ApplyAll(start, ops[..i]) case Failure(e) => Failure(e) case Success(st) => ApplyOp(st, ops[i])
  {
    assert ops[..i + 1][..i] == ops[..i];
  }

  lemma SameOpening(st: State)
    requires IdentityOk(st)
    ensures Opening(st.clips, st.retired) == st
  {
  }

  lemma {:induction false} FailsFor(st: State, ops: seq<Op>, k: nat)
    requires k <= |ops| && ApplyAll(st, ops[..k]).Failure?
    ensures ApplyAll(st, ops).Failure?
    decreases |ops|
  {
    if k == |ops| {
      assert ops[..k] == ops;
    } else {
      assert ops[..|ops| - 1][..k] == ops[..k];
      FailsFor(st, ops[..|ops| - 1], k);
    }
  }

  // ---------------------------------------------------------------------------------------------
  // inspect_edit and locate_clips
  // ---------------------------------------------------------------------------------------------

  datatype Row = Row(position: nat, clip: Clip, start: int, end: int)

  /** One row per clip, in order, each starting where the clips before it end. */
  ghost predicate Listed(clips: seq<Clip>, rows: seq<Row>) {
    && |rows| == |clips|
    && forall i {:trigger RowOf(clips, rows, i)} :: 0 <= i < |clips| ==> RowOf(clips, rows, i)
  }

  ghost predicate RowOf(clips: seq<Clip>, rows: seq<Row>, i: nat)
    requires i < |clips| && i < |rows|
  {
    rows[i] == Row(i + 1, clips[i], Offset(clips, i), Offset(clips, i) + Duration(clips[i]))
  }

  method Inspect(clips: seq<Clip>) returns (rows: seq<Row>, total: int)
    ensures total == Offset(clips, |clips|) && Listed(clips, rows)
  {
    rows, total := [], 0;
    for i := 0 to |clips|
      invariant total == Offset(clips, i) && |rows| == i
      invariant forall j {:trigger RowOf(clips, rows, j)} :: 0 <= j < i ==> RowOf(clips, rows, j)
    {
      var end := total + clips[i].end - clips[i].first;
      ghost var before := rows;
      rows := rows + [Row(i + 1, clips[i], total, end)];
      total := end;
      forall j | 0 <= j <= i ensures RowOf(clips, rows, j) {
        assert j < i ==> RowOf(clips, before, j);
      }
    }
  }

  /** Rows follow each other without gaps. */
  ghost predicate Chained(rows: seq<Row>) {
    forall i :: 0 <= i < |rows| ==> (if i == 0 then 0 else rows[i - 1].end) == rows[i].start < rows[i].end
  }

  method RowsAt(rows: seq<Row>, frame: int) returns (found: seq<Row>, ghost at: nat)
    requires Chained(rows)
    ensures |found| == if rows != [] && 0 <= frame < rows[|rows| - 1].end then 1 else 0
    ensures found != [] ==> at < |rows| && found[0] == rows[at] && rows[at].start <= frame < rows[at].end
  {
    found, at := [], 0;
    for i := 0 to |rows|
      invariant |found| == if i > 0 && 0 <= frame < rows[i - 1].end then 1 else 0
      invariant i > 0 ==> rows[i - 1].end > 0
      invariant found != [] ==> at < i && found[0] == rows[at] && rows[at].start <= frame < rows[at].end
    {
      if rows[i].start <= frame < rows[i].end {
        found, at := found + [rows[i]], i;
      }
    }
  }

  lemma RowsChain(clips: seq<Clip>, rows: seq<Row>)
    requires forall c :: c in clips ==> c.first < c.end
    requires Listed(clips, rows)
    ensures Chained(rows) && Offset(clips, |clips|) == if rows == [] then 0 else rows[|rows| - 1].end
  {
    forall i | 0 <= i < |rows| ensures (if i == 0 then 0 else rows[i - 1].end) == rows[i].start < rows[i].end {
      assert clips[i] in clips;
      assert RowOf(clips, rows, i) && (i > 0 ==> RowOf(clips, rows, i - 1));
    }
    assert rows != [] ==> RowOf(clips, rows, |rows| - 1);
  }

  /** Exactly one clip holds each frame of the film, and it holds that very element of the flattened film. */
  method LocateFrame(clips: seq<Clip>, frame: int) returns (found: seq<Row>)
    requires forall c :: c in clips ==> c.first < c.end
    ensures |found| == if 0 <= frame < |Flat(clips)| then 1 else 0
    ensures found != [] ==>
      && found[0].clip in clips
      && Flat(clips)[frame] == (found[0].clip.source, found[0].clip.first + frame - found[0].start)
  {
    var rows, total := Inspect(clips);
    RowsChain(clips, rows);
    FlatLength(clips, |clips|);
    assert clips[..|clips|] == clips;
    ghost var at;
    found, at := RowsAt(rows, frame);
    if found != [] {
      RowIsFrame(clips, rows, frame, at);
    }
  }

  lemma RowIsFrame(clips: seq<Clip>, rows: seq<Row>, frame: int, i: nat)
    requires (forall c :: c in clips ==> c.first < c.end) && Listed(clips, rows) && i < |rows| && rows[i].start <= frame < rows[i].end
    ensures rows[i].clip in clips && 0 <= frame < |Flat(clips)|
    ensures Flat(clips)[frame] == (rows[i].clip.source, rows[i].clip.first + frame - rows[i].start)
  {
    assert RowOf(clips, rows, i);
    RowHolds(clips, frame, i);
  }

  lemma {:induction false} FlatLength(clips: seq<Clip>, n: nat)
    requires n <= |clips| && forall c :: c in clips ==> c.first < c.end
    ensures |Flat(clips[..n])| == Offset(clips, n)
  {
    if n > 0 {
      var front, last := clips[..n - 1], clips[n - 1];
      assert clips[..n] == front + [last] && last in clips;
      FlatLength(clips, n - 1);
      FlatJoins(front, [last]);
      FlatOne(last);
    }
  }

  lemma {:induction false} RowHolds(clips: seq<Clip>, frame: int, i: nat)
    requires i < |clips| && (forall c :: c in clips ==> c.first < c.end)
    requires Offset(clips, i) <= frame < Offset(clips, i) + Duration(clips[i])
    ensures 0 <= frame < |Flat(clips)| && Flat(clips)[frame] == (clips[i].source, clips[i].first + frame - Offset(clips, i))
  {
    FlatReplaced(clips, i, []);
    FlatLength(clips, i);
    OffsetGrows(clips, i);
  }
}
