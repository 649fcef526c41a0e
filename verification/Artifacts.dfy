/**
 Chunk manifests and resumable assembly of src/fsf/production/artifacts.py. A digest stands for the bytes it is the
 digest of. Files appear atomically when renamed; a crash may leave any bytes after the last synchronised position.
 */
module Artifacts {
  import opened Wrappers

  type Byte = x: int | 0 <= x < 256
  type Bytes = seq<Byte>

  const CHUNK_BYTES: int := 8 * 1024 * 1024
  const MAX_CHUNKS: int := 8192
  const MAX_BYTES: int := 64 * 1024 * 1024 * 1024

  datatype Sha = Sha(content: Bytes)
  datatype Chunk = Chunk(offset: int, size: int, sha: Sha)

  /** The manifest digest is over all of it, so equal digests are equal manifests. */
  datatype Manifest = Manifest(sha: Sha, size: int, chunkBytes: int, chunks: seq<Chunk>)

  datatype Error = ChunkInvalid | ChunkChanged | SourceChanged | TargetConflict | CheckpointLost

  // ---------------------------------------------------------------------------------------------
  // Manifests
  // ---------------------------------------------------------------------------------------------

  /** Bytes declared by the first `k` chunks. */
  function Declared(chunks: seq<Chunk>, k: nat): int
    requires k <= |chunks|
  {
    if k == 0 then 0 else Declared(chunks, k - 1) + chunks[k - 1].size
  }

  /** Bytes held by the first `k` chunks. */
  function Prefix(chunks: seq<Chunk>, k: nat): Bytes
    requires k <= |chunks|
  {
    if k == 0 then [] else Prefix(chunks, k - 1) + chunks[k - 1].sha.content
  }

  ghost predicate ManifestValid(m: Manifest) {
    && m.chunkBytes == CHUNK_BYTES && 1 <= |m.chunks| <= MAX_CHUNKS && 1 <= m.size <= MAX_BYTES
    && (forall i {:trigger ChunkValid(m.chunks, i)} :: 0 <= i < |m.chunks| ==> ChunkValid(m.chunks, i))
    && Declared(m.chunks, |m.chunks|) == m.size
  }

  predicate ChunkValid(chunks: seq<Chunk>, i: nat)
    requires i < |chunks|
  {
    1 <= chunks[i].size <= CHUNK_BYTES && chunks[i].offset == Declared(chunks, i)
  }

  method ValidateManifest(m: Manifest) returns (ok: bool)
    ensures ok <==> ManifestValid(m)
  {
    if m.chunkBytes != CHUNK_BYTES || !(1 <= |m.chunks| <= MAX_CHUNKS) || !(1 <= m.size <= MAX_BYTES) {
      return false;
    }
    var offset := 0;
    for i := 0 to |m.chunks|
      invariant offset == Declared(m.chunks, i)
      invariant forall j {:trigger ChunkValid(m.chunks, j)} :: 0 <= j < i ==> ChunkValid(m.chunks, j)
    {
      if m.chunks[i].offset != offset || !(1 <= m.chunks[i].size <= CHUNK_BYTES) {
        assert !ChunkValid(m.chunks, i);
        return false;
      }
      assert ChunkValid(m.chunks, i);
      offset := offset + m.chunks[i].size;
    }
    return offset == m.size;
  }

  /** 1 to 8192 chunks of 1 byte to 8 MiB, each where the one before ends, up to the artifact's size of at most 64 GiB. */
  ghost predicate EndToEnd(m: Manifest) {
    && m.chunkBytes == 0x80_0000 && 0 < |m.chunks| <= 0x2000 && 0 < m.size <= 0x10_0000_0000
    && (forall i :: 0 <= i < |m.chunks| ==> 0 < m.chunks[i].size <= 0x80_0000)
    && m.chunks[0].offset == 0 && (forall i :: 0 < i < |m.chunks| ==> m.chunks[i].offset == m.chunks[i - 1].offset + m.chunks[i - 1].size)
    && m.chunks[|m.chunks| - 1].offset + m.chunks[|m.chunks| - 1].size == m.size
  }

  lemma ManifestMeans(m: Manifest)
    ensures ManifestValid(m) <==> EndToEnd(m)
  {
    if ManifestValid(m) {
      ValidIsEndToEnd(m);
    }
    if EndToEnd(m) {
      EndToEndIsValid(m);
    }
  }

  lemma ValidIsEndToEnd(m: Manifest)
    requires ManifestValid(m)
    ensures EndToEnd(m)
  {
    assert forall i {:trigger m.chunks[i]} :: 0 <= i < |m.chunks| ==> ChunkValid(m.chunks, i);
    OffsetsAdd(m.chunks, |m.chunks|);
  }

  lemma EndToEndIsValid(m: Manifest)
    requires EndToEnd(m)
    ensures ManifestValid(m)
  {
    OffsetsAdd(m.chunks, |m.chunks|);
    forall i: nat | i < |m.chunks| ensures ChunkValid(m.chunks, i) {
    }
    assert m.chunks[|m.chunks| - 1].offset == Declared(m.chunks, |m.chunks| - 1);
  }

  /** Offsets are what the chunks before declare exactly when each chunk begins where the one before ends. */
  lemma {:induction false} OffsetsAdd(chunks: seq<Chunk>, k: nat)
    requires 0 < k <= |chunks|
    ensures (forall i :: 0 <= i < k ==> chunks[i].offset == Declared(chunks, i)) <==>
      chunks[0].offset == 0 && forall i :: 0 < i < k ==> chunks[i].offset == chunks[i - 1].offset + chunks[i - 1].size
  {
    if k > 1 {
      OffsetsAdd(chunks, k - 1);
      assert Declared(chunks, k - 1) == Declared(chunks, k - 2) + chunks[k - 2].size;
    }
  }

  /** Every chunk's size is that of its bytes, and together they are the artifact. */
  ghost predicate Sound(m: Manifest) {
    && (forall i :: 0 <= i < |m.chunks| ==> m.chunks[i].size == |m.chunks[i].sha.content|)
    && Prefix(m.chunks, |m.chunks|) == m.sha.content
  }

  lemma {:induction false} PrefixLength(chunks: seq<Chunk>, k: nat)
    requires k <= |chunks| && forall i :: 0 <= i < |chunks| ==> chunks[i].size == |chunks[i].sha.content|
    ensures |Prefix(chunks, k)| == Declared(chunks, k)
  {
    if k > 0 {
      PrefixLength(chunks, k - 1);
    }
  }

  /** More chunks leave the earlier ones where they were. */
  lemma {:induction false} PrefixStays(chunks: seq<Chunk>, more: seq<Chunk>, k: nat)
    requires k <= |chunks|
    ensures Prefix(chunks + more, k) == Prefix(chunks, k) && Declared(chunks + more, k) == Declared(chunks, k)
  {
    if k > 0 {
      PrefixStays(chunks, more, k - 1);
      assert (chunks + more)[k - 1] == chunks[k - 1];
    }
  }

  lemma {:induction false} PrefixGrows(chunks: seq<Chunk>, j: nat, k: nat)
    requires j <= k <= |chunks|
    ensures Prefix(chunks, j) <= Prefix(chunks, k)
    decreases k - j
  {
    if j < k {
      PrefixGrows(chunks, j + 1, k);
    }
  }

  // ---------------------------------------------------------------------------------------------
  // split_artifact
  // ---------------------------------------------------------------------------------------------

  /** Chunk files are named by their digest; an honest root holds under each name the bytes it stands for. */
  ghost predicate Honest(files: map<Sha, Bytes>) {
    forall s :: s in files ==> files[s] == s.content
  }

  predicate Intact(files: map<Sha, Bytes>, c: Chunk) {
    c.sha in files && files[c.sha] == c.sha.content && |files[c.sha]| == c.size
  }

  /** Split so far: equal full chunks of what was read, but for a last shorter one. */
  ghost predicate SplitSoFar(source: Bytes, chunks: seq<Chunk>, offset: nat) {
    && offset <= |source| && Prefix(chunks, |chunks|) == source[..offset] && Declared(chunks, |chunks|) == offset
    && (forall i {:trigger SplitOk(chunks, i)} :: 0 <= i < |chunks| ==> SplitOk(chunks, i))
    && (offset < |source| ==> offset == CHUNK_BYTES * |chunks|)
    && CHUNK_BYTES * |chunks| < offset + CHUNK_BYTES
  }

  ghost predicate SplitOk(chunks: seq<Chunk>, i: nat)
    requires i < |chunks|
  {
    chunks[i].size == |chunks[i].sha.content| && ChunkValid(chunks, i)
  }

  lemma SplitMore(source: Bytes, chunks: seq<Chunk>, offset: nat, block: Bytes)
    requires SplitSoFar(source, chunks, offset) && offset < |source|
    requires block == source[offset..if offset + CHUNK_BYTES < |source| then offset + CHUNK_BYTES else |source|]
    ensures SplitSoFar(source, chunks + [Chunk(offset, |block|, Sha(block))], offset + |block|)
  {
    var c := Chunk(offset, |block|, Sha(block));
    var more := chunks + [c];
    PrefixStays(chunks, [c], |chunks|);
    assert source[..offset] + block == source[..offset + |block|];
    forall i: nat | i < |more| ensures SplitOk(more, i) {
      if i < |chunks| {
        assert SplitOk(chunks, i);
        PrefixStays(chunks, [c], i);
      }
    }
  }

  /** What was split is described by a valid, sound manifest exactly when its size is legal. */
  lemma SplitManifest(source: Bytes, chunks: seq<Chunk>)
    requires SplitSoFar(source, chunks, |source|)
    ensures var m := Manifest(Sha(source), |source|, CHUNK_BYTES, chunks); Sound(m) && (ManifestValid(m) <==> 1 <= |source| <= MAX_BYTES)
  {
    assert source[..|source|] == source;
    forall i | 0 <= i < |chunks| ensures chunks[i].size == |chunks[i].sha.content| && ChunkValid(chunks, i) {
      assert SplitOk(chunks, i);
    }
  }

  class ChunkRoot {
    var files: map<Sha, Bytes>

    constructor ()
      ensures files == map[]
    {
      files := map[];
    }

    /**
     The source is measured, read, and measured again; what it held each time need not be the same. Unless a file already
     there is not what its name says, it is split exactly when it did not change and has a legal size, into a sound, valid
     manifest whose chunks are all stored; and no run, however interrupted, puts a dishonest file there.
     */
    method Split(before: Bytes, source: Bytes, later: Bytes, reliable: bool) returns (r: Result<Manifest, Error>, crashed: bool)
      modifies this
      ensures forall s :: s in old(files) ==> s in files && files[s] == old(files)[s]
      ensures Honest(old(files)) ==> Honest(files)
      ensures !crashed && r.Success? ==>
        && ManifestValid(r.value) && Sound(r.value) && r.value.sha == Sha(source) && r.value.size == |source|
        && before == source == later
        && forall i :: 0 <= i < |r.value.chunks| ==> Intact(files, r.value.chunks[i])
      ensures reliable ==> !crashed
      ensures !crashed && Honest(old(files)) && r.Failure? ==> r.error == if before == source == later then ChunkInvalid else SourceChanged
      ensures !crashed && Honest(old(files)) ==> (r.Success? <==> before == source == later && 1 <= |source| <= MAX_BYTES)
    {
      crashed := false;
      var chunks: seq<Chunk>, offset := [], 0;
      while offset < |source|
        invariant SplitSoFar(source, chunks, offset)
        invariant forall s :: s in old(files) ==> s in files && files[s] == old(files)[s]
        invariant Honest(old(files)) ==> Honest(files)
        invariant forall i :: 0 <= i < |chunks| ==> Intact(files, chunks[i])
      {
        var block := source[offset..if offset + CHUNK_BYTES < |source| then offset + CHUNK_BYTES else |source|];
        SplitMore(source, chunks, offset, block);
        var sha := Sha(block);
        if sha in files {
          if files[sha] != block {
            return Failure(ChunkChanged), false;
          }
        } else {
          var crash: bool := *;
          if crash && !reliable {
            return Failure(ChunkChanged), true;
          }
          files := files[sha := block];
        }
        chunks := chunks + [Chunk(offset, |block|, sha)];
        offset := offset + |block|;
        if offset > |before| {
          return Failure(SourceChanged), false;
        }
      }
      if Sha(source) != Sha(before) || offset != |before| || later != before {
        return Failure(SourceChanged), false;
      }
      SplitManifest(source, chunks);
      var m := Manifest(Sha(source), |source|, CHUNK_BYTES, chunks);
      var ok := ValidateManifest(m);
      return if ok then Success(m) else Failure(ChunkInvalid), false;
    }
  }

  // ---------------------------------------------------------------------------------------------
  // assemble_artifact
  // ---------------------------------------------------------------------------------------------

  datatype Checkpoint = Checkpoint(manifest: Manifest, complete: int)

  /** `Done`: the target is in place. A crash can strike after any write. */
  datatype Outcome = Done(reused: bool) | Crashed | Refused(error: Error)

  /** A checkpoint of k chunks means the partial file starts with the first k chunks; a target in place is the artifact. */
  ghost predicate Recoverable(m: Manifest, target: Option<Bytes>, partial: Option<Bytes>, checkpoint: Option<Checkpoint>) {
    && (target.Some? ==> target.value == m.sha.content)
    && (target.None? && checkpoint.Some? ==>
          && checkpoint.value.manifest == m && 0 <= checkpoint.value.complete <= |m.chunks|
          && partial.Some? && Prefix(m.chunks, checkpoint.value.complete) <= partial.value)
  }

  /** The file identity check of the finished artifact. */
  predicate Identical(m: Manifest, bytes: Bytes) {
    Sha(bytes) == m.sha && |bytes| == m.size
  }

  function Truncated(bytes: Bytes, length: nat): Bytes {
    if length <= |bytes| then bytes[..length] else bytes + seq(length - |bytes|, _ => 0)
  }

  class Workspace {
    var target: Option<Bytes>
    var partial: Option<Bytes>
    var checkpoint: Option<Checkpoint>

    constructor ()
      ensures target.None? && partial.None? && checkpoint.None?
    {
      target, partial, checkpoint := None, None, None;
    }

    /** The checkpoint's claim, verified block by block against the partial file. */
    method Resume(m: Manifest) returns (r: Result<nat, Error>)
      requires ManifestValid(m)
      ensures r.Success? ==> r.value <= |m.chunks|
      ensures r.Success? && (r.value > 0 || checkpoint.Some?) ==> checkpoint.Some? && checkpoint.value.complete == r.value
      ensures Sound(m) && r.Success? && partial.Some? ==> Prefix(m.chunks, r.value) <= partial.value
      ensures r.Success? && r.value > 0 ==> partial.Some?
      ensures Sound(m) && target.None? && Recoverable(m, target, partial, checkpoint) ==> r.Success?
    {
      var count := 0;
      if checkpoint.Some? {
        if checkpoint.value.manifest != m || !(0 <= checkpoint.value.complete <= |m.chunks|) {
          return Failure(ChunkInvalid);
        }
        count := checkpoint.value.complete;
      }
      if count > 0 && partial.None? {
        return Failure(CheckpointLost);
      }
      if partial.Some? {
        var at := 0;
        for i := 0 to count
          invariant 0 <= at <= |partial.value|
          invariant Sound(m) ==> at == Declared(m.chunks, i) && Prefix(m.chunks, i) == partial.value[..at]
        {
          assert ChunkValid(m.chunks, i);
          var next := if at + m.chunks[i].size < |partial.value| then at + m.chunks[i].size else |partial.value|;
          var block := partial.value[at..next];
          if Sha(block) != m.chunks[i].sha {
            if Sound(m) && target.None? && Recoverable(m, target, partial, checkpoint) && checkpoint.Some? {
              ReadsBack(m, i, count, partial.value, at, next);
            }
            return Failure(ChunkChanged);
          }
          assert partial.value[..at] + block == partial.value[..next];
          at := next;
        }
      }
      return Success(count);
    }

    /** One chunk: check its file, write, synchronise, then publish the checkpoint. */
    method Append(m: Manifest, root: ChunkRoot, index: nat, reliable: bool) returns (e: Option<Outcome>)
      requires index < |m.chunks| && partial.Some? && target.None?
      modifies this`partial, this`checkpoint
      ensures e.None? ==> partial == Some(old(partial).value + m.chunks[index].sha.content) && checkpoint == Some(Checkpoint(m, index + 1))
      ensures Sound(m) && Prefix(m.chunks, index) == old(partial).value && Recoverable(m, target, old(partial), old(checkpoint)) ==>
        Recoverable(m, target, partial, checkpoint)
      ensures e.Some? ==> !e.value.Done? && (Intact(root.files, m.chunks[index]) ==> e.value.Crashed?) && (reliable ==> e.value.Refused?)
    {
      var item := m.chunks[index];
      if !Intact(root.files, item) {
        return Some(Refused(ChunkChanged));
      }
      var crash: bool := *;
      if crash && !reliable {
        var torn: Bytes := *;
        partial := Some(partial.value + torn);
        assert Prefix(m.chunks, index) == old(partial).value ==> old(partial).value <= partial.value;
        return Some(Crashed);
      }
      partial := Some(partial.value + root.files[item.sha]);
      crash := *;
      if crash && !reliable {
        return Some(Crashed);
      }
      checkpoint := Some(Checkpoint(m, index + 1));
      return None;
    }
  
    /** The remaining chunks, one after the other. */
    method Fill(m: Manifest, root: ChunkRoot, count: nat, reliable: bool) returns (e: Option<Outcome>)
      requires count <= |m.chunks| && partial.Some? && target.None?
      modifies this`partial, this`checkpoint
      ensures e.None? ==> partial.Some?
      ensures Sound(m) && Prefix(m.chunks, count) == old(partial).value && Recoverable(m, target, old(partial), old(checkpoint)) ==>
        Recoverable(m, target, partial, checkpoint) && (e.None? ==> partial.value == m.sha.content)
      ensures e.Some? ==> !e.value.Done? && (reliable ==> e.value.Refused?)
      ensures (forall i :: 0 <= i < |m.chunks| ==> Intact(root.files, m.chunks[i])) && e.Some? ==> e.value.Crashed?
    {
      ghost var kept := Sound(m) && Prefix(m.chunks, count) == partial.value && Recoverable(m, target, partial, checkpoint);
      for index := count to |m.chunks|
        invariant partial.Some?
        invariant kept ==> Prefix(m.chunks, index) == partial.value && Recoverable(m, target, partial, checkpoint)
      {
        var stop := Append(m, root, index, reliable);
        if stop.Some? {
          return stop;
        }
      }
      return None;
    }

    /**
     One call. Whatever state it starts from, success means the target has the manifest's identity. From a recoverable
     state with sound chunks at hand it stays recoverable at every write, and only a crash can keep it from succeeding.
     */
    method Assemble(m: Manifest, root: ChunkRoot, reliable: bool) returns (r: Outcome)
      modifies this
      ensures r.Done? ==> target.Some? && Identical(m, target.value)
      ensures ManifestValid(m) && Sound(m) && Recoverable(m, old(target), old(partial), old(checkpoint)) ==>
        Recoverable(m, target, partial, checkpoint)
      ensures (&& ManifestValid(m) && Sound(m) && Recoverable(m, old(target), old(partial), old(checkpoint))
               && forall i :: 0 <= i < |m.chunks| ==> Intact(root.files, m.chunks[i])) ==> !r.Refused?
      ensures reliable ==> !r.Crashed?
      ensures old(target).Some? ==> target == old(target)
    {
      var ok := ValidateManifest(m);
      if !ok {
        return Refused(ChunkInvalid);
      }
      if Sound(m) {
        PrefixLength(m.chunks, |m.chunks|);
      }
      if target.Some? {
        return if Identical(m, target.value) then Done(true) else Refused(TargetConflict);
      }
      var resumed := Resume(m);
      if resumed.Failure? {
        return Refused(resumed.error);
      }
      var count := resumed.value;
      Declares(m, count);
      if Sound(m) {
        PrefixLength(m.chunks, count);
      }
      partial := Some(Truncated(if partial.Some? then partial.value else [], Declared(m.chunks, count)));
      var stop := Fill(m, root, count, reliable);
      if stop.Some? {
        return stop.value;
      }
      if !Identical(m, partial.value) {
        return Refused(ChunkChanged);
      }
      target, partial := partial, None;
      var crash: bool := *;
      if crash && !reliable {
        return Crashed;
      }
      checkpoint := None;
      return Done(false);
    }

    /** Interrupted any number of times at any write and run again, assembly ends with exactly the artifact's bytes. */
    method AssembleThrough(m: Manifest, root: ChunkRoot, crashes: nat)
      requires ManifestValid(m) && Sound(m) && Recoverable(m, target, partial, checkpoint)
      requires forall i :: 0 <= i < |m.chunks| ==> Intact(root.files, m.chunks[i])
      modifies this
      ensures target == Some(m.sha.content)
    {
      for i := 0 to crashes
        invariant Recoverable(m, target, partial, checkpoint)
      {
        var _ := Assemble(m, root, false);
      }
      var r := Assemble(m, root, true);
      assert r.Done?;
    }
  }

  lemma {:induction false} Declares(m: Manifest, k: nat)
    requires ManifestValid(m) && k <= |m.chunks|
    ensures Declared(m.chunks, k) >= 0
  {
    if k > 0 {
      assert ChunkValid(m.chunks, k - 1);
      Declares(m, k - 1);
    }
  }

  /** Split, then assemble elsewhere, each through any number of crashes: the same bytes, whatever they are, if their size is legal. */
  method RoundTrip(source: Bytes, splitCrashes: nat, assemblyCrashes: nat) returns (copy: Option<Bytes>)
    ensures copy == if 1 <= |source| <= MAX_BYTES then Some(source) else None
  {
    var root := new ChunkRoot();
    for i := 0 to splitCrashes
      invariant Honest(root.files)
    {
      var _, _ := root.Split(source, source, source, false);
    }
    var split, crashed := root.Split(source, source, source, true);
    if split.Failure? {
      return None;
    }
    var workspace := new Workspace();
    workspace.AssembleThrough(split.value, root, assemblyCrashes);
    return workspace.target;
  }

  /** Where the partial file starts with the claimed chunks, reading block by block reads exactly them. */
  lemma {:induction false} ReadsBack(m: Manifest, i: nat, count: nat, partial: Bytes, at: nat, next: nat)
    requires i < count <= |m.chunks| && at <= next <= |partial| && Sound(m) && Prefix(m.chunks, count) <= partial
    requires at == Declared(m.chunks, i) && Prefix(m.chunks, i) == partial[..at]
    requires next == if at + m.chunks[i].size < |partial| then at + m.chunks[i].size else |partial|
    ensures partial[at..next] == m.chunks[i].sha.content
  {
    PrefixGrows(m.chunks, i + 1, count);
    PrefixLength(m.chunks, i);
    var upTo := Prefix(m.chunks, i + 1);
    assert upTo == partial[..|upTo|];
    assert upTo[at..] == m.chunks[i].sha.content;
  }
}
