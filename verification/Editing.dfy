/**
 Edit patches of src/fsf/core/editing.py: clips over sources, reordered, split, duplicated, renamed, trimmed and
 removed by id; retired ids stay retired, lineage stays sound, and the flattened frames change only as each operation says.
 */
module Editing {
  import opened Wrappers
  import opened Ids
  import opened Graph

  datatype Clip = Clip(id: Id, source: Id, first: int, end: int, title: Id, lineage: seq<Id>)

  datatype Op =
    | Reorder(ids: seq<Id>)
    | Rename(id: Id, title: Id)
    | Trim(id: Id, first: int, end: int)
    | Remove(id: Id)
    | Duplicate(id: Id, copy: Id)
    | Split(id: Id, left: Id, right: Id, at: int)

  datatype Error = BadReorder | MissingClip | IdUsed | SplitOutside | Invalid

  /** The part of an edit that clip operations change, with the ids used up so far. */
  datatype State = State(clips: seq<Clip>, retired: seq<Id>, used: set<Id>)

  function IdsOf(clips: seq<Clip>): set<Id> {
    set c | c in clips :: c.id
  }

  function Duration(c: Clip): int {
    c.end - c.first
  }

  /** The timeline frame at which the i-th clip begins. */
  function Offset(clips: seq<Clip>, i: nat): int
    requires i <= |clips|
  {
    if i == 0 then 0 else Offset(clips, i - 1) + Duration(clips[i - 1])
  }

  lemma {:induction false} OffsetGrows(clips: seq<Clip>, i: nat)
    requires i <= |clips| && forall c :: c in clips ==> c.first < c.end
    ensures Offset(clips, i) >= 0
  {
    if i > 0 {
      OffsetGrows(clips, i - 1);
      assert clips[i - 1] in clips;
    }
  }

  ghost predicate Unique(clips: seq<Clip>) {
    forall i, j :: 0 <= i < j < |clips| ==> clips[i].id != clips[j].id
  }

  function IndexOf(clips: seq<Clip>, id: Id): Option<nat> {
    if clips == [] then None
    else if clips[0].id == id then Some(0)
    else match IndexOf(clips[1..], id) case None => None case Some(i) => Some(i + 1)
  }

  /** `dict.fromkeys`: each id once, where it first stands. */
  function Dedupe(s: seq<Id>): seq<Id> {
    if s == [] then [] else
      var rest := Dedupe(s[..|s| - 1]);
      if s[|s| - 1] in rest then rest else rest + [s[|s| - 1]]
  }

  function Child(clip: Clip, id: Id): Clip {
    clip.(id := id, lineage := Dedupe(clip.lineage + [clip.id]))
  }

  function Halves(clip: Clip, left: Id, right: Id, at: int): seq<Clip> {
    [Child(clip, left).(end := clip.first + at), Child(clip, right).(first := clip.first + at)]
  }

  function Replaced(clips: seq<Clip>, i: nat, put: seq<Clip>): seq<Clip>
    requires i < |clips|
  {
    clips[..i] + put + clips[i + 1..]
  }

  function ByIds(clips: seq<Clip>, ids: seq<Id>): seq<Clip>
    requires Elements(ids) <= IdsOf(clips)
  {
    if ids == [] then []
    else
      IdFound(clips, ids[0]);
      [clips[IndexOf(clips, ids[0]).value]] + ByIds(clips, ids[1..])
  }

  function ApplyOp(st: State, op: Op): Result<State, Error> {
    if op.Reorder? then
      if Elements(op.ids) != IdsOf(st.clips) then Failure(BadReorder) else Success(st.(clips := ByIds(st.clips, op.ids)))
    else
      match IndexOf(st.clips, op.id)
      case None => Failure(MissingClip)
      case Some(i) => IdAt(st.clips, op.id); ApplyTo(st, op, i)
  }

  function ApplyTo(st: State, op: Op, i: nat): Result<State, Error>
    requires i < |st.clips| && !op.Reorder?
  {
    var clip := st.clips[i];
    match op
    case Rename(_, title) => Success(st.(clips := st.clips[i := clip.(title := title)]))
    case Trim(_, first, end) => Success(st.(clips := st.clips[i := clip.(first := first, end := end)]))
    case Remove(_) => Success(st.(clips := Replaced(st.clips, i, []), retired := st.retired + [clip.id]))
    case Duplicate(_, copy) =>
      if copy in st.used then Failure(IdUsed)
      else Success(st.(clips := Replaced(st.clips, i, [clip, Child(clip, copy)]), used := st.used + {copy}))
    case Split(_, left, right, at) =>
      if left in st.used || right in st.used then Failure(IdUsed)
      else if !(0 < at < clip.end - clip.first) then Failure(SplitOutside)
      else Success(State(Replaced(st.clips, i, Halves(clip, left, right, at)), st.retired + [clip.id], st.used + {left, right}))
  }

  /** What the patch schema says: the two ids of a split differ, and a reorder names no clip twice. */
  predicate WellShaped(op: Op) {
    && (op.Split? ==> op.left != op.right && op.at >= 1)
    && (op.Reorder? ==> forall i, j :: 0 <= i < j < |op.ids| ==> op.ids[i] != op.ids[j])
  }

  function ApplyAll(st: State, ops: seq<Op>): Result<State, Error> {
    if ops == [] then Success(st)
    else match ApplyAll(st, ops[..|ops| - 1])
      case Failure(e) => Failure(e)
      case Success(mid) => ApplyOp(mid, ops[|ops| - 1])
  }

  // ---------------------------------------------------------------------------------------------
  // Finding clips
  // ---------------------------------------------------------------------------------------------

  lemma {:induction false} IdFound(clips: seq<Clip>, id: Id)
    ensures IndexOf(clips, id).Some? <==> id in IdsOf(clips)
    ensures IndexOf(clips, id).Some? ==> IndexOf(clips, id).value < |clips| && clips[IndexOf(clips, id).value].id == id
    ensures IndexOf(clips, id).Some? ==> forall j :: 0 <= j < IndexOf(clips, id).value ==> clips[j].id != id
  {
    if clips != [] {
      IdFound(clips[1..], id);
      assert clips == [clips[0]] + clips[1..];
      assert IdsOf(clips) == {clips[0].id} + IdsOf(clips[1..]);
    }
  }

  lemma IdAt(clips: seq<Clip>, id: Id)
    ensures IndexOf(clips, id).Some? ==> IndexOf(clips, id).value < |clips| && clips[IndexOf(clips, id).value].id == id
  {
    IdFound(clips, id);
  }

  lemma IdOf(clips: seq<Clip>, i: nat)
    requires i < |clips|
    ensures clips[i].id in IdsOf(clips)
  {
    assert clips[i] in clips;
  }

  lemma IndexIn(clips: seq<Clip>, id: Id) returns (i: nat)
    requires id in IdsOf(clips)
    ensures i < |clips| && clips[i].id == id
  {
    IdFound(clips, id);
    i := IndexOf(clips, id).value;
  }

  lemma {:induction false} DedupeSame(s: seq<Id>)
    ensures Elements(Dedupe(s)) == Elements(s)
  {
    if s != [] {
      var front := s[..|s| - 1];
      DedupeSame(front);
      assert s == front + [s[|s| - 1]];
      assert Elements(s) == Elements(front) + {s[|s| - 1]};
      var rest := Dedupe(front);
      assert s[|s| - 1] in rest <==> s[|s| - 1] in Elements(rest);
      assert Elements(rest + [s[|s| - 1]]) == Elements(rest) + {s[|s| - 1]};
    }
  }

  lemma IdsReplaced(clips: seq<Clip>, i: nat, put: seq<Clip>)
    requires i < |clips| && Unique(clips)
    ensures IdsOf(Replaced(clips, i, put)) == IdsOf(clips) - {clips[i].id} + IdsOf(put)
  {
    var after := Replaced(clips, i, put);
    forall id ensures id in IdsOf(after) <==> id in IdsOf(clips) - {clips[i].id} + IdsOf(put) {
      if id in IdsOf(clips) - {clips[i].id} {
        var k := IndexIn(clips, id);
        assert clips[k] in after;
      }
      if id in IdsOf(put) {
        var k := IndexIn(put, id);
        assert put[k] in after;
      }
      if id in IdsOf(after) {
        var k := IndexIn(after, id);
        assert after[k] in clips[..i] || after[k] in put || after[k] in clips[i + 1..];
      }
    }
  }

  // ---------------------------------------------------------------------------------------------
  // Identity: ids, retirement, lineage
  // ---------------------------------------------------------------------------------------------

  /** From each current clip to the current clips of its lineage. */
  ghost function Parents(clips: seq<Clip>): map<Id, set<Id>> {
    map x | x in IdsOf(clips) :: set y | y in IdsOf(clips) && Descends(clips, x, y)
  }

  ghost predicate Descends(clips: seq<Clip>, x: Id, y: Id) {
    exists c :: c in clips && c.id == x && y in c.lineage
  }

  ghost predicate LineageOk(used: set<Id>, c: Clip) {
    Elements(c.lineage) <= used && c.id !in c.lineage
  }

  /** Ids are distinct and never both current and retired; lineage names only ids in use at some time, and never in a circle. */
  ghost predicate IdentityOk(st: State) {
    && Unique(st.clips) && st.used == IdsOf(st.clips) + Elements(st.retired)
    && (forall x :: x in st.retired ==> x !in IdsOf(st.clips))
    && (forall c {:trigger LineageOk(st.used, c)} :: c in st.clips ==> LineageOk(st.used, c))
    && !HasCycle(Parents(st.clips))
  }

  /** Clips are as before but for places, titles and trims, or are new and only name ids used before. */
  ghost predicate Kin(st: State, added: set<Id>, c: Clip) {
    || (c.id !in added && exists b :: b in st.clips && b.id == c.id && b.lineage == c.lineage)
    || (c.id in added && Elements(c.lineage) <= st.used)
  }

  lemma StillAcyclic(st: State, after: seq<Clip>, added: set<Id>)
    requires IdentityOk(st) && added !! st.used
    requires forall c :: c in after ==> Kin(st, added, c)
    ensures !HasCycle(Parents(after))
    ensures forall c :: c in after ==> Elements(c.lineage) <= st.used && c.id !in c.lineage
  {
    var before, now := Parents(st.clips), Parents(after);
    forall c | c in after ensures Elements(c.lineage) <= st.used && c.id !in c.lineage {
      assert Kin(st, added, c);
      if c.id !in added {
        var b :| b in st.clips && b.id == c.id && b.lineage == c.lineage;
        assert LineageOk(st.used, b);
      } else {
        assert c.id in c.lineage ==> c.id in Elements(c.lineage);
      }
    }
    forall x, y | Step(now, x, y) ensures y !in added && (x in added || Step(before, x, y)) {
      StepKept(st, after, added, x, y);
    }
    if HasCycle(now) {
      NoNewCycle(before, now, added);
    }
  }

  lemma StepKept(st: State, after: seq<Clip>, added: set<Id>, x: Id, y: Id)
    requires added !! st.used && st.used >= IdsOf(st.clips)
    requires forall c :: c in after ==> Kin(st, added, c)
    requires forall c :: c in after ==> Elements(c.lineage) <= st.used
    requires Step(Parents(after), x, y)
    ensures y !in added && (x in added || Step(Parents(st.clips), x, y))
  {
    var c :| c in after && c.id == x && y in c.lineage;
    assert y in Elements(c.lineage);
    assert Kin(st, added, c);
    var k := IndexIn(after, y);
    assert Kin(st, added, after[k]);
    if x !in added {
      var b :| b in st.clips && b.id == c.id && b.lineage == c.lineage;
      assert Descends(st.clips, x, y);
      var d :| d in st.clips && d.id == y;
    }
  }

  lemma {:induction false} ByIdsPermutes(clips: seq<Clip>, ids: seq<Id>)
    requires Elements(ids) <= IdsOf(clips)
    ensures |ByIds(clips, ids)| == |ids|
    ensures forall i :: 0 <= i < |ids| ==> ByIds(clips, ids)[i] in clips && ByIds(clips, ids)[i].id == ids[i]
  {
    if ids != [] {
      assert ids == [ids[0]] + ids[1..];
      assert Elements(ids[1..]) <= Elements(ids);
      IdFound(clips, ids[0]);
      ByIdsPermutes(clips, ids[1..]);
    }
  }

  /** A reorder has the same clips, each once. */
  lemma ReorderSame(clips: seq<Clip>, ids: seq<Id>)
    requires Unique(clips) && WellShaped(Reorder(ids)) && Elements(ids) == IdsOf(clips)
    ensures forall c :: c in ByIds(clips, ids) <==> c in clips
    ensures IdsOf(ByIds(clips, ids)) == IdsOf(clips) && Unique(ByIds(clips, ids))
  {
    var after := ByIds(clips, ids);
    ByIdsPermutes(clips, ids);
    forall c | c in clips ensures c in after {
      assert c.id in IdsOf(clips);
      assert c.id in Elements(ids);
      var k :| 0 <= k < |ids| && ids[k] == c.id;
      assert after[k].id == c.id && after[k] in clips;
    }
    forall c | c in after ensures c in clips {
      var k :| 0 <= k < |after| && after[k] == c;
    }
    forall i, j | 0 <= i < j < |after| ensures after[i].id != after[j].id {
      assert after[i].id == ids[i] && after[j].id == ids[j];
    }
  }

  lemma ReorderKeeps(st: State, ids: seq<Id>)
    requires IdentityOk(st) && WellShaped(Reorder(ids)) && Elements(ids) == IdsOf(st.clips)
    ensures IdentityOk(st.(clips := ByIds(st.clips, ids)))
  {
    var after := ByIds(st.clips, ids);
    ReorderSame(st.clips, ids);
    forall c | c in after ensures Kin(st, {}, c) {
      assert c in st.clips;
    }
    StillAcyclic(st, after, {});
  }

  lemma SameSize(ids: seq<Id>, clips: seq<Clip>)
    requires Unique(clips) && Elements(ids) == IdsOf(clips) && forall i, j :: 0 <= i < j < |ids| ==> ids[i] != ids[j]
    ensures |ids| == |clips|
  {
    DistinctCount(ids);
    var names := seq(|clips|, i requires 0 <= i < |clips| => clips[i].id);
    assert Elements(names) == IdsOf(clips) by {
      forall x | x in IdsOf(clips) ensures x in names {
        var k := IndexIn(clips, x);
        assert names[k] == x;
      }
    }
    DistinctCount(names);
  }

  lemma {:induction false} DistinctCount(s: seq<Id>)
    requires forall i, j :: 0 <= i < j < |s| ==> s[i] != s[j]
    ensures |Elements(s)| == |s|
  {
    if s != [] {
      DistinctCount(s[1..]);
      assert s == [s[0]] + s[1..];
      assert Elements(s) == {s[0]} + Elements(s[1..]);
    }
  }

  /** Rename and trim touch neither ids nor lineage. */
  lemma TouchKeeps(st: State, i: nat, c: Clip)
    requires IdentityOk(st) && i < |st.clips| && c.id == st.clips[i].id && c.lineage == st.clips[i].lineage
    ensures IdentityOk(st.(clips := st.clips[i := c]))
  {
    var after := st.clips[i := c];
    forall x ensures x in IdsOf(after) <==> x in IdsOf(st.clips) {
      if x in IdsOf(after) {
        var k := IndexIn(after, x);
        IdOf(st.clips, k);
      }
      if x in IdsOf(st.clips) {
        var k := IndexIn(st.clips, x);
        IdOf(after, k);
      }
    }
    assert st.clips[i] in st.clips;
    StillAcyclic(st, after, {});
  }

  lemma UniqueReplaced(clips: seq<Clip>, i: nat, put: seq<Clip>)
    requires Unique(clips) && i < |clips| && Unique(put)
    requires forall c :: c in put ==> c.id == clips[i].id || c.id !in IdsOf(clips)
    ensures Unique(Replaced(clips, i, put))
  {
    var after := Replaced(clips, i, put);
    forall j, k | 0 <= j < k < |after| ensures after[j].id != after[k].id {
      if i <= j < i + |put| && i + |put| <= k {
        IdOf(clips, k - |put| + 1);
        assert put[j - i] in put;
      }
      if j < i && i <= k < i + |put| {
        IdOf(clips, j);
        assert put[k - i] in put;
      }
    }
  }

  lemma ElementsMore(s: seq<Id>, x: Id)
    ensures Elements(s + [x]) == Elements(s) + {x}
  {
  }

  lemma ReplaceUsed(st: State, i: nat, put: seq<Clip>, added: set<Id>, gone: bool)
    requires Unique(st.clips) && i < |st.clips| && added !! st.used && st.used == IdsOf(st.clips) + Elements(st.retired)
    requires forall x :: x in st.retired ==> x !in IdsOf(st.clips)
    requires IdsOf(put) == if gone then added else added + {st.clips[i].id}
    ensures var after, retired := Replaced(st.clips, i, put), if gone then st.retired + [st.clips[i].id] else st.retired;
      && st.used + added == IdsOf(after) + Elements(retired) && forall x :: x in retired ==> x !in IdsOf(after)
  {
    var after, retired := Replaced(st.clips, i, put), if gone then st.retired + [st.clips[i].id] else st.retired;
    IdOf(st.clips, i);
    IdsReplaced(st.clips, i, put);
    ElementsMore(st.retired, st.clips[i].id);
    forall x | x in retired ensures x !in IdsOf(after) {
      assert x in Elements(retired);
      assert x in st.retired ==> x in Elements(st.retired);
    }
  }

  lemma ReplaceKin(st: State, i: nat, put: seq<Clip>, added: set<Id>)
    requires i < |st.clips| && added !! st.used && IdsOf(st.clips) <= st.used
    requires forall c :: c in put ==> Kin(st, added, c)
    ensures forall c :: c in Replaced(st.clips, i, put) ==> Kin(st, added, c)
  {
    forall c | c in Replaced(st.clips, i, put) ensures Kin(st, added, c) {
      if c !in put {
        assert c in st.clips;
        assert c.id in IdsOf(st.clips);
      }
    }
  }

  /** A clip gives way to itself, its copies or nothing; if it is gone its id retires. */
  lemma ReplaceKeeps(st: State, i: nat, put: seq<Clip>, added: set<Id>, gone: bool)
    requires IdentityOk(st) && i < |st.clips| && Unique(put) && added !! st.used
    requires IdsOf(put) == if gone then added else added + {st.clips[i].id}
    requires forall c :: c in put ==> Kin(st, added, c)
    ensures IdentityOk(State(Replaced(st.clips, i, put), if gone then st.retired + [st.clips[i].id] else st.retired, st.used + added))
  {
    var after := Replaced(st.clips, i, put);
    forall c | c in put ensures c.id == st.clips[i].id || c.id !in IdsOf(st.clips) {
      assert c.id in IdsOf(put);
    }
    UniqueReplaced(st.clips, i, put);
    ReplaceUsed(st, i, put, added, gone);
    ReplaceKin(st, i, put, added);
    StillAcyclic(st, after, added);
    forall c | c in after ensures LineageOk(st.used + added, c) {
    }
  }

  lemma ChildIsKin(st: State, i: nat, id: Id, added: set<Id>, c: Clip)
    requires IdentityOk(st) && i < |st.clips| && id in added && c.id == id && c.lineage == Child(st.clips[i], id).lineage
    ensures Kin(st, added, c)
  {
    var clip := st.clips[i];
    IdOf(st.clips, i);
    assert clip in st.clips && LineageOk(st.used, clip);
    DedupeSame(clip.lineage + [clip.id]);
    assert Elements(clip.lineage + [clip.id]) == Elements(clip.lineage) + {clip.id};
  }

  lemma RemoveKeeps(st: State, i: nat)
    requires IdentityOk(st) && i < |st.clips|
    ensures IdentityOk(State(Replaced(st.clips, i, []), st.retired + [st.clips[i].id], st.used))
  {
    ReplaceKeeps(st, i, [], {}, true);
    assert st.used + {} == st.used;
  }

  lemma DuplicateKeeps(st: State, i: nat, copy: Id)
    requires IdentityOk(st) && i < |st.clips| && copy !in st.used
    ensures IdentityOk(State(Replaced(st.clips, i, [st.clips[i], Child(st.clips[i], copy)]), st.retired, st.used + {copy}))
  {
    var clip := st.clips[i];
    var put := [clip, Child(clip, copy)];
    IdOf(st.clips, i);
    assert clip in st.clips && put[0] in put && put[1] in put;
    ChildIsKin(st, i, copy, {copy}, put[1]);
    assert IdsOf(put) == {copy} + {clip.id};
    ReplaceKeeps(st, i, put, {copy}, false);
  }

  lemma HalvesIds(clip: Clip, left: Id, right: Id, at: int)
    requires left != right
    ensures IdsOf(Halves(clip, left, right, at)) == {left, right} && Unique(Halves(clip, left, right, at))
  {
    var put := Halves(clip, left, right, at);
    assert put[0] in put && put[1] in put;
  }

  lemma SplitKeeps(st: State, i: nat, left: Id, right: Id, at: int)
    requires IdentityOk(st) && i < |st.clips| && left !in st.used && right !in st.used && left != right
    ensures IdentityOk(State(Replaced(st.clips, i, Halves(st.clips[i], left, right, at)), st.retired + [st.clips[i].id], st.used + {left, right}))
  {
    var put := Halves(st.clips[i], left, right, at);
    ChildIsKin(st, i, left, {left, right}, put[0]);
    ChildIsKin(st, i, right, {left, right}, put[1]);
    HalvesIds(st.clips[i], left, right, at);
    forall c | c in put ensures Kin(st, {left, right}, c) {
      assert c == put[0] || c == put[1];
    }
    ReplaceKeeps(st, i, put, {left, right}, true);
  }

  /** Every operation keeps identity in order. */
  lemma OpKeepsIdentity(st: State, op: Op)
    requires IdentityOk(st) && WellShaped(op) && ApplyOp(st, op).Success?
    ensures IdentityOk(ApplyOp(st, op).value)
  {
    if op.Reorder? {
      ReorderKeeps(st, op.ids);
    } else {
      IdAt(st.clips, op.id);
      EditKeepsIdentity(st, op, IndexOf(st.clips, op.id).value);
    }
  }

  lemma EditKeepsIdentity(st: State, op: Op, i: nat)
    requires IdentityOk(st) && WellShaped(op) && !op.Reorder? && i < |st.clips| && ApplyTo(st, op, i).Success?
    ensures IdentityOk(ApplyTo(st, op, i).value)
  {
    match op
    case Rename(_, title) => TouchKeeps(st, i, st.clips[i].(title := title));
    case Trim(_, first, end) => TouchKeeps(st, i, st.clips[i].(first := first, end := end));
    case Remove(_) => RemoveKeeps(st, i);
    case Duplicate(_, copy) => DuplicateKeeps(st, i, copy);
    case Split(_, left, right, at) => SplitKeeps(st, i, left, right, at);
  }

  /** What was ever used stays used and what retired stays retired, */
  lemma OpOnlyAdds(st: State, op: Op)
    requires ApplyOp(st, op).Success?
    ensures st.used <= ApplyOp(st, op).value.used && st.retired <= ApplyOp(st, op).value.retired
  {
    if !op.Reorder? {
      IdAt(st.clips, op.id);
    }
  }

  /** so an id that was used before and is not current never comes back, whatever operations follow. */
  lemma {:induction false} RetiredForGood(st: State, ops: seq<Op>, id: Id)
    requires IdentityOk(st) && (forall i :: 0 <= i < |ops| ==> WellShaped(ops[i])) && ApplyAll(st, ops).Success?
    ensures IdentityOk(ApplyAll(st, ops).value) && st.used <= ApplyAll(st, ops).value.used && st.retired <= ApplyAll(st, ops).value.retired
    ensures id in st.retired ==> id !in IdsOf(ApplyAll(st, ops).value.clips)
    decreases |ops|
  {
    if ops != [] {
      var front := ops[..|ops| - 1];
      RetiredForGood(st, front, id);
      OpKeepsIdentity(ApplyAll(st, front).value, ops[|ops| - 1]);
      OpOnlyAdds(ApplyAll(st, front).value, ops[|ops| - 1]);
    }
    var after := ApplyAll(st, ops).value;
    assert id in st.retired ==> id in after.retired;
  }
}
