/** What each clip operation does to the clips themselves, and what it refuses, stated clip by clip. */
module EditingLaws {
  import opened Wrappers
  import opened Ids
  import opened Graph
  import opened Editing
  import opened EditingRuns

  // ---------------------------------------------------------------------------------------------
  // Descent
  // ---------------------------------------------------------------------------------------------

  ghost predicate Distinct(s: seq<Id>) {
    forall i, j :: 0 <= i < j < |s| ==> s[i] != s[j]
  }

  lemma {:induction false} DedupeDistinct(s: seq<Id>)
    ensures Distinct(Dedupe(s)) && (Distinct(s) ==> Dedupe(s) == s)
  {
    if s != [] {
      var front, last := s[..|s| - 1], s[|s| - 1];
      DedupeDistinct(front);
      DedupeSame(front);
      assert s == front + [last];
      if last in Dedupe(front) {
        assert last in Elements(Dedupe(front));
        assert last in front;
      } else {
        assert Distinct(Dedupe(front) + [last]);
      }
    }
  }

  /** The new clip shows the same source under a new id and descends from the clip it was made of, and from all that did. */
  ghost predicate MadeOf(child: Clip, clip: Clip, id: Id) {
    && child.id == id && child.source == clip.source && child.title == clip.title
    && clip.id in child.lineage && (forall x :: x in child.lineage <==> x in clip.lineage || x == clip.id) && Distinct(child.lineage)
    && (Distinct(clip.lineage + [clip.id]) ==> child.lineage == clip.lineage + [clip.id])
  }

  lemma ChildMadeOf(clip: Clip, id: Id)
    ensures MadeOf(Child(clip, id), clip, id) && Child(clip, id).first == clip.first && Child(clip, id).end == clip.end
  {
    var line := clip.lineage + [clip.id];
    DedupeDistinct(line);
    DedupeSame(line);
    forall x ensures x in Dedupe(line) <==> x in line {
      assert x in Elements(Dedupe(line)) <==> x in Elements(line);
    }
  }

  // ---------------------------------------------------------------------------------------------
  // One operation
  // ---------------------------------------------------------------------------------------------

  /** The clips before the i-th, the ones put in its place, the clips behind it. */
  ghost predicate InPlace(before: seq<Clip>, i: nat, put: seq<Clip>, after: seq<Clip>) {
    i < |before| && after == before[..i] + put + before[i + 1..]
  }

  /** What happens to the i-th clip, the one the operation names. */
  ghost predicate Does(st: State, op: Op, i: nat, after: State)
    requires i < |st.clips| && !op.Reorder?
  {
    var clip := st.clips[i];
    match op
    case Rename(_, title) =>
      && InPlace(st.clips, i, [Clip(clip.id, clip.source, clip.first, clip.end, title, clip.lineage)], after.clips)
      && after.retired == st.retired && after.used == st.used
    case Trim(_, first, end) =>
      && InPlace(st.clips, i, [Clip(clip.id, clip.source, first, end, clip.title, clip.lineage)], after.clips)
      && after.retired == st.retired && after.used == st.used
    case Remove(_) => InPlace(st.clips, i, [], after.clips) && after.retired == st.retired + [clip.id] && after.used == st.used
    case Duplicate(_, copy) =>
      && |after.clips| == |st.clips| + 1
      && InPlace(st.clips, i, [clip, after.clips[i + 1]], after.clips) && MadeOf(after.clips[i + 1], clip, copy)
      && after.clips[i + 1].first == clip.first && after.clips[i + 1].end == clip.end
      && after.retired == st.retired && after.used == st.used + {copy}
    case Split(_, left, right, at) =>
      && |after.clips| == |st.clips| + 1
      && InPlace(st.clips, i, [after.clips[i], after.clips[i + 1]], after.clips)
      && MadeOf(after.clips[i], clip, left) && MadeOf(after.clips[i + 1], clip, right)
      && after.clips[i].first == clip.first && after.clips[i].end == clip.first + at == after.clips[i + 1].first && after.clips[i + 1].end == clip.end
      && after.retired == st.retired + [clip.id] && after.used == st.used + {left, right}
  }

  /** What the schema lets through: a split into two different clips, a reorder that names no clip twice, and everything else. */
  lemma ShapedWhen(op: Op)
    ensures WellShaped(op) <==> match op
      case Reorder(ids) => Distinct(ids)
      case Split(_, left, right, at) => left != right && at > 0
      case _ => true
  {
  }

  /** Nothing but a used id or a cut outside the clip stands against an operation on a clip that is there. */
  predicate Allowed(st: State, op: Op, clip: Clip)
    requires !op.Reorder?
  {
    match op
    case Duplicate(_, copy) => copy !in st.used
    case Split(_, left, right, at) => left !in st.used && right !in st.used && 0 < at && clip.first + at < clip.end
    case _ => true
  }

  /** An operation on a clip that is there. */
  lemma OpOnClip(st: State, op: Op, i: nat)
    requires !op.Reorder? && Unique(st.clips) && i < |st.clips| && st.clips[i].id == op.id
    ensures var told := ApplyOp(st, op);
      && (told.Success? <==> Allowed(st, op, st.clips[i]))
      && (told.Success? ==> Does(st, op, i, told.value))
      && (told.Failure? ==> told.error == if op.Split? && op.left !in st.used && op.right !in st.used then SplitOutside else IdUsed)
  {
    IdOf(st.clips, i);
    IdFound(st.clips, op.id);
    var clip := st.clips[i];
    match op
    case Duplicate(_, copy) => ChildMadeOf(clip, copy);
    case Split(_, left, right, at) =>
      ChildMadeOf(clip, left);
      ChildMadeOf(clip, right);
    case _ =>
  }

  /** An operation on a clip that is not there is refused. */
  lemma OpOnNoClip(st: State, op: Op)
    requires !op.Reorder? && forall c :: c in st.clips ==> c.id != op.id
    ensures ApplyOp(st, op) == Failure(MissingClip)
  {
    IdAt(st.clips, op.id);
  }

  /** A reorder is refused unless it names exactly the clips there are; then they stand in the order named. */
  lemma ReorderAnswers(st: State, ids: seq<Id>)
    ensures var told := ApplyOp(st, Reorder(ids));
      && (told.Success? <==> (forall x :: x in ids <==> exists c :: c in st.clips && c.id == x))
      && (told.Failure? ==> told.error == BadReorder)
      && (told.Success? ==>
            && told.value == st.(clips := told.value.clips) && |told.value.clips| == |ids|
            && forall k :: 0 <= k < |ids| ==> told.value.clips[k] in st.clips && told.value.clips[k].id == ids[k])
  {
    forall x ensures x in Elements(ids) <==> x in ids {
    }
    forall x ensures x in IdsOf(st.clips) <==> exists c :: c in st.clips && c.id == x {
    }
    if Elements(ids) == IdsOf(st.clips) {
      ByIdsPermutes(st.clips, ids);
    }
  }

  /** A patch is its operations one after the other; the first refusal is the patch's. */
  lemma PatchSteps(st: State, ops: seq<Op>, more: Op)
    ensures ApplyAll(st, []) == Success(st)
    ensures ApplyAll(st, ops + [more]) == if ApplyAll(st, ops).Success? then ApplyOp(ApplyAll(st, ops).value, more) else ApplyAll(st, ops)
  {
    assert (ops + [more])[..|ops|] == ops;
  }

  /** What passes as an edit: clips of known sources under distinct ids not retired, descending from known ids and never from themselves. */
  lemma EditMeans(sources: map<Id, int>, clips: seq<Clip>, retired: seq<Id>)
    ensures Valid(sources, clips, retired) <==>
      && clips != []
      && (forall c :: c in clips ==> c.source in sources && 0 <= c.first && c.first < c.end && c.end <= sources[c.source])
      && (forall i, j :: 0 <= i < j < |clips| ==> clips[i].id != clips[j].id)
      && (forall c :: c in clips ==> c.id !in retired)
      && (forall c, x :: c in clips && x in c.lineage ==> x != c.id && (x in retired || exists b :: b in clips && b.id == x))
      && !HasCycle(Parents(clips))
  {
    var used := IdsOf(clips) + Elements(retired);
    forall x ensures x in used <==> x in retired || exists b :: b in clips && b.id == x {
    }
    forall c | c in clips ensures LineageOk(used, c) <==> forall x :: x in c.lineage ==> x in used && x != c.id {
    }
    if Valid(sources, clips, retired) {
      forall c | c in clips ensures ClipPlays(sources, c) && LineageOk(used, c) && c.id !in retired {
        assert c.id in IdsOf(clips);
      }
    }
  }
}
