/**
 What every step of the spill protocol keeps: each name has at most one party that will unlink
 it, published pairs are complete and untouched, and leftovers fit their reservation.
 */
module SpillInvariant {
  import opened Common
  import opened SpillFiles
  import opened SpillStore

  // ---------------------------------------------------------------- invariant

  /** Names the writer has created and not yet published, unlinked or given up. */
  function HeldPaths(w: Writer): seq<Path> {
    match w.stage
    case Checking(_) => [BodyPart(w.id)]
    case Committed(todo) => todo
    case Failing(todo, kept) => todo + kept
    case Leaving(kept, _, _) => kept
    case Gone => []
    case _ => CleanupPaths(w)
  }

  function InodeFor(w: Writer, p: Path): nat {
    if p.IsBodyKind() then w.body else w.meta
  }

  function Quota(w: Writer, p: Path): nat {
    if p.IsBodyKind() then |w.streamed| else |w.metaBytes|
  }

  predicate Holds(s: State, p: Path, content: Bytes) {
    p in s.dir && s.dir[p] < |s.data| && s.data[s.dir[p]] == content
  }

  predicate HoldsSome(s: State, p: Path, content: Bytes) {
    p in s.dir && s.dir[p] < |s.data| && s.data[s.dir[p]] <= content
  }

  ghost function UnaliasedBytes(dir: Dir, data: Inodes, paths: seq<Path>): nat {
    Stored(data, Unaliased(dir, paths))
  }

  ghost function Unaliased(dir: Dir, paths: seq<Path>): set<nat> {
    set p | p in paths && p in dir && !AliasesCommittedPair(dir, p) :: dir[p]
  }

  /** The size of an inode once everything in flight has landed. */
  function EverSize(s: State, i: nat): nat
    requires i < |s.data|
  {
    if i in s.late then |s.late[i]| else |s.data[i]|
  }

  ghost predicate HeldOk(s: State, j: nat, w: Writer) {
    && Distinct(HeldPaths(w))
    && forall p :: p in HeldPaths(w) ==>
         && p.id == w.id && !p.Meta?
         && p in s.holder && s.holder[p] == ByWriter(j)
         && p in s.dir && s.dir[p] == InodeFor(w, p) && s.dir[p] < |s.data|
         && EverSize(s, s.dir[p]) <= Quota(w, p)
  }

  ghost predicate StageOk(s: State, w: Writer) {
    match w.stage
    case Checking(k) => k < 3 && (k >= 1 ==> Body(w.id) !in s.dir) && (k >= 2 ==> MetaPart(w.id) !in s.dir)
                        && w.streamed == [] && w.metaBytes == []
    case Streaming => Body(w.id) !in s.dir && MetaPart(w.id) !in s.dir && Meta(w.id) !in s.dir && w.metaBytes == []
                      && HoldsSome(s, BodyPart(w.id), w.streamed)
    case Flushed => Body(w.id) !in s.dir && MetaPart(w.id) !in s.dir && Meta(w.id) !in s.dir && w.metaBytes == []
                    && Holds(s, BodyPart(w.id), w.streamed)
    case BodyLinked => MetaPart(w.id) !in s.dir && Meta(w.id) !in s.dir && w.metaBytes == []
                       && Holds(s, BodyPart(w.id), w.streamed)
    case MetaReserved => MetaPart(w.id) !in s.dir && Meta(w.id) !in s.dir && Holds(s, BodyPart(w.id), w.streamed)
    case MetaOpen => Meta(w.id) !in s.dir && Holds(s, BodyPart(w.id), w.streamed)
                     && HoldsSome(s, MetaPart(w.id), w.metaBytes)
    case MetaFlushed => Meta(w.id) !in s.dir && Holds(s, BodyPart(w.id), w.streamed)
                        && Holds(s, MetaPart(w.id), w.metaBytes)
    case Leaving(kept, bytes, most) => bytes <= most <= w.reserved && UnaliasedBytes(s.dir, Ever(s), kept) <= most
    case _ => true
  }

  ghost predicate WriterOk(s: State, j: nat)
    requires j < |s.writers|
  {
    var w := s.writers[j];
    && HeldOk(s, j, w)
    && StageOk(s, w)
    && w.reserved == if w.stage.Gone? then 0 else |w.streamed| + |w.metaBytes|
  }

  ghost predicate GroupOk(s: State, group: nat, paths: seq<Path>, most: nat) {
    && group < s.groups && Distinct(paths)
    && (forall p :: p in paths ==> !p.Meta? && p in s.holder && s.holder[p] == ByGroup(group) && p in s.dir)
    && UnaliasedBytes(s.dir, Ever(s), paths) <= most
  }

  ghost predicate GroupsOk(s: State) {
    && (forall k :: 0 <= k < |s.orphans| ==> GroupOk(s, s.orphans[k].group, s.orphans[k].paths, s.orphans[k].most))
    && (forall k, l :: 0 <= k < l < |s.orphans| ==> s.orphans[k].group != s.orphans[l].group)
    && (s.retry.Some? ==>
          && GroupOk(s, s.retry.value.group, s.retry.value.todo + s.retry.value.kept, s.retry.value.most)
          && forall k :: 0 <= k < |s.orphans| ==> s.orphans[k].group != s.retry.value.group)
  }

  /** The reader-visible part: a meta name is visible exactly for the published ids, its body is
      there, both hold exactly what was published, and nobody is going to unlink them. */
  ghost predicate PublishedOk(s: State) {
    && (forall id :: Meta(id) in s.dir ==> id in s.published)
    && (forall id :: id in s.published ==> PairOk(s, id))
  }

  ghost predicate PairOk(s: State, id: RefId) {
    && id in s.published
    && Holds(s, Body(id), s.published[id].body) && Holds(s, Meta(id), s.published[id].meta)
    && Body(id) !in s.holder && Meta(id) !in s.holder
  }

  ghost predicate NamesOk(s: State) {
    && DirOk(s.dir, s.data)
    && (forall p :: p in s.holder ==> p in s.dir)
    && (forall i :: i in s.late ==> i < |s.data| && s.data[i] <= s.late[i])
    && PublishedOk(s)
  }

  ghost predicate FilesOk(s: State) {
    && NamesOk(s)
    && (forall j: nat :: j < |s.writers| ==> WriterOk(s, j))
    && GroupsOk(s)
    && (!s.ready ==>
          s.writers == [] && s.late == map[] && s.holder == map[] && s.orphans == [] && s.retry.None? && s.groups == 0)
  }

  /** A name of a file in flight is still to be unlinked, by a failed spill or by an orphan group. */
  ghost predicate LateNameOk(s: State, p: Path) {
    p in s.holder && match s.holder[p]
                     case ByGroup(_) => true
                     case ByWriter(j) => j < |s.writers| && HasFailed(s.writers[j]) && p in HeldPaths(s.writers[j])
  }

  predicate HasFailed(w: Writer) {
    w.stage.Failing? || w.stage.Leaving?
  }

  ghost predicate LateOk(s: State) {
    forall p :: p in s.dir && s.dir[p] in s.late ==> LateNameOk(s, p)
  }

  // ---------------------------------------------------------------- what a step leaves alone

  ghost predicate Keeps(s: State, s': State, p: Path) {
    && p in s.dir && p in s'.dir && s'.dir[p] == s.dir[p]
    && s.dir[p] < |s.data| <= |s'.data| && s'.data[s.dir[p]] == s.data[s.dir[p]]
    && SameLate(s, s', s.dir[p])
  }

  ghost predicate SameLate(s: State, s': State, i: nat) {
    if i in s.late then i in s'.late && s'.late[i] == s.late[i] else i !in s'.late
  }

  /** A step of `actor` touches only names that `actor` holds, never a published pair, and a new
      name is either a fresh part or belongs to an id whose part `actor` holds. */
  ghost predicate Frame(s: State, s': State, actor: Holder) {
    && (forall p :: p in s.holder && s.holder[p] != actor ==>
          p in s'.holder && s'.holder[p] == s.holder[p] && Keeps(s, s', p))
    && (forall id :: id in s.published ==> id in s'.published && s'.published[id] == s.published[id]
                                           && Keeps(s, s', Body(id)) && Keeps(s, s', Meta(id)))
    && (forall p :: p in s'.dir && p !in s.dir ==>
          p.BodyPart? || (BodyPart(p.id) in s.holder && s.holder[BodyPart(p.id)] == actor))
    && |s.data| <= |s'.data|
  }

  lemma UnaliasedFrame(s: State, s': State, actor: Holder, paths: seq<Path>)
    requires PublishedOk(s) && Frame(s, s', actor)
    requires forall p :: p in paths ==> Keeps(s, s', p)
    ensures UnaliasedBytes(s'.dir, Ever(s'), paths) <= UnaliasedBytes(s.dir, Ever(s), paths)
  {
    var old', new' := Unaliased(s.dir, paths), Unaliased(s'.dir, paths);
    forall i | i in new'
      ensures i in old' && i < |s.data| && Ever(s')[i] == Ever(s)[i]
    {
      var p :| p in paths && p in s'.dir && !AliasesCommittedPair(s'.dir, p) && s'.dir[p] == i;
      assert Keeps(s, s', p);
      assert AliasesCommittedPair(s.dir, p) ==> Meta(p.id) in s.dir;
    }
    StoredFrame(Ever(s), Ever(s'), new');
    StoredMonotone(Ever(s), new', old');
  }

  lemma FrameWriter(s: State, s': State, actor: Holder, j: nat)
    requires PublishedOk(s) && Frame(s, s', actor)
    requires j < |s.writers| && WriterOk(s, j)
    requires j < |s'.writers| && s'.writers[j] == s.writers[j] && actor != ByWriter(j)
    ensures WriterOk(s', j)
  {
    var w := s.writers[j];
    assert HeldOk(s, j, w);
    forall p | p in HeldPaths(w)
      ensures Keeps(s, s', p) && p in s'.holder && s'.holder[p] == ByWriter(j)
    {
    }
    assert HeldOk(s', j, w);
    match w.stage {
      case Checking(_) => assert BodyPart(w.id) in HeldPaths(w);
      case Leaving(kept, _, _) => UnaliasedFrame(s, s', actor, kept);
      case Committed(_) =>
      case Failing(_, _) =>
      case Gone =>
      case MetaOpen => assert HeldPaths(w)[0] == BodyPart(w.id) && HeldPaths(w)[2] == MetaPart(w.id);
      case MetaFlushed => assert HeldPaths(w)[0] == BodyPart(w.id) && HeldPaths(w)[2] == MetaPart(w.id);
      case _ => assert HeldPaths(w)[0] == BodyPart(w.id);
    }
  }

  lemma OtherWriters(s: State, s': State, actor: Holder)
    requires PublishedOk(s) && Frame(s, s', actor) && forall j: nat :: j < |s.writers| ==> WriterOk(s, j)
    requires |s.writers| <= |s'.writers|
    requires forall j: nat :: j < |s.writers| && actor != ByWriter(j) ==> s'.writers[j] == s.writers[j]
    ensures forall j: nat :: j < |s.writers| && actor != ByWriter(j) ==> WriterOk(s', j)
  {
    forall j: nat | j < |s.writers| && actor != ByWriter(j)
      ensures WriterOk(s', j)
    {
      FrameWriter(s, s', actor, j);
    }
  }

  lemma FrameGroup(s: State, s': State, actor: Holder, group: nat, paths: seq<Path>, most: nat)
    requires PublishedOk(s) && Frame(s, s', actor) && s.groups <= s'.groups
    requires GroupOk(s, group, paths, most) && actor != ByGroup(group)
    ensures GroupOk(s', group, paths, most)
  {
    forall p | p in paths
      ensures Keeps(s, s', p)
    {
    }
    UnaliasedFrame(s, s', actor, paths);
  }

  // ---------------------------------------------------------------- every step keeps the files consistent

  /** The bookkeeping of a step that only one writer takes. */
  ghost predicate OnlyWriter(s: State, s': State, w: nat) {
    && s.ready && s'.ready && s'.orphans == s.orphans && s'.retry == s.retry && s'.groups == s.groups
    && (if w < |s.writers| then |s'.writers| == |s.writers| else w == |s.writers| && |s'.writers| == w + 1)
    && forall j: nat :: j < |s.writers| && j != w ==> s'.writers[j] == s.writers[j]
  }

  /** It is enough to look at the acting writer once everything else is framed. */
  lemma ByWriterStep(s: State, s': State, w: nat)
    requires FilesOk(s) && Frame(s, s', ByWriter(w)) && OnlyWriter(s, s', w)
    requires NamesOk(s') && WriterOk(s', w)
    ensures FilesOk(s')
  {
    OtherWriters(s, s', ByWriter(w));
    FrameGroups(s, s', ByWriter(w));
  }

  lemma FrameGroups(s: State, s': State, actor: Holder)
    requires PublishedOk(s) && GroupsOk(s) && Frame(s, s', actor) && actor.ByWriter? && s.groups <= s'.groups
    requires s'.orphans == s.orphans && s'.retry == s.retry
    ensures GroupsOk(s')
  {
    forall k | 0 <= k < |s.orphans|
      ensures GroupOk(s', s.orphans[k].group, s.orphans[k].paths, s.orphans[k].most)
    {
      FrameGroup(s, s', actor, s.orphans[k].group, s.orphans[k].paths, s.orphans[k].most);
    }
    if s.retry.Some? {
      FrameGroup(s, s', actor, s.retry.value.group, s.retry.value.todo + s.retry.value.kept, s.retry.value.most);
    }
  }

  ghost predicate SameFiles(s: State, s': State) {
    s'.dir == s.dir && s'.data == s.data && s'.late == s.late && s'.holder == s.holder && s'.published == s.published
  }

  lemma SameFilesFrame(s: State, s': State, actor: Holder)
    requires NamesOk(s) && SameFiles(s, s')
    ensures Frame(s, s', actor) && NamesOk(s')
  {
    forall id | id in s.published
      ensures PairOk(s', id)
    {
      assert PairOk(s, id);
    }
  }

  /** A step that changes no file and no held name of the acting writer. */
  lemma PlainStep(s: State, s': State, w: nat)
    requires FilesOk(s) && SameFiles(s, s') && OnlyWriter(s, s', w)
    requires w < |s.writers|
    requires var x, y := s.writers[w], s'.writers[w];
             && y.id == x.id && y.body == x.body && y.meta == x.meta
             && |x.streamed| <= |y.streamed| && |x.metaBytes| <= |y.metaBytes|
             && Distinct(HeldPaths(y)) && (forall p :: p in HeldPaths(y) ==> p in HeldPaths(x))
             && StageOk(s', y) && y.reserved == if y.stage.Gone? then 0 else |y.streamed| + |y.metaBytes|
    ensures FilesOk(s')
  {
    assert WriterOk(s, w);
    SameFilesFrame(s, s', ByWriter(w));
    assert HeldOk(s', w, s'.writers[w]);
    ByWriterStep(s, s', w);
  }

  lemma PlainBodySteps(s: State, step: Step)
    requires FilesOk(s) && CanBody(s, step) && (step.Look? || step.Write? || step.Flush?)
    ensures FilesOk(AfterBody(s, step))
  {
    var s' := AfterBody(s, step);
    assert WriterOk(s, step.w);
    var x, y := s.writers[step.w], s'.writers[step.w];
    assert HeldPaths(y) == HeldPaths(x) == [BodyPart(x.id)];
    PlainStep(s, s', step.w);
  }

  lemma ReserveMetaStep(s: State, w: nat, metaBytes: Bytes)
    requires FilesOk(s) && CanReserveMeta(s, w, metaBytes)
    ensures FilesOk(AfterReserveMeta(s, w, metaBytes))
  {
    var s' := AfterReserveMeta(s, w, metaBytes);
    assert WriterOk(s, w);
    assert HeldPaths(s'.writers[w]) == HeldPaths(s.writers[w]);
    PlainStep(s, s', w);
  }

  lemma FlushMetaStep(s: State, w: nat)
    requires FilesOk(s) && CanFlushMeta(s, w)
    ensures FilesOk(AfterFlushMeta(s, w))
  {
    var s' := AfterFlushMeta(s, w);
    var x := s.writers[w];
    assert WriterOk(s, w);
    assert HeldPaths(s'.writers[w]) == HeldPaths(x);
    assert HeldPaths(x)[2] == MetaPart(x.id);
    PlainStep(s, s', w);
  }

  lemma FinishSpillStep(s: State, w: nat)
    requires FilesOk(s) && CanFinishSpill(s, w)
    ensures FilesOk(AfterFinishSpill(s, w))
  {
    assert WriterOk(s, w);
    PlainStep(s, AfterFinishSpill(s, w), w);
  }

  ghost predicate Claims(s: State, s': State, id: RefId, w: nat) {
    && BodyPart(id) !in s.dir && s'.dir == s.dir[BodyPart(id) := |s.data|] && s'.data == s.data + [[]]
    && s'.late == s.late && s'.published == s.published && s'.holder == s.holder[BodyPart(id) := ByWriter(w)]
  }

  lemma ClaimFrame(s: State, s': State, id: RefId)
    requires NamesOk(s) && Claims(s, s', id, |s.writers|)
    ensures Frame(s, s', ByWriter(|s.writers|)) && NamesOk(s')
  {
    ClaimKeepsDir(s, s', id, |s.writers|);
    forall known | known in s.published
      ensures PairOk(s', known)
    {
      assert PairOk(s, known);
    }
  }

  lemma ClaimKeepsDir(s: State, s': State, id: RefId, w: nat)
    requires NamesOk(s) && Claims(s, s', id, w)
    ensures DirOk(s'.dir, s'.data) && forall p :: p in s.dir ==> Keeps(s, s', p)
  {
  }

  lemma ClaimStep(s: State, id: RefId)
    requires FilesOk(s) && CanClaim(s, id)
    ensures FilesOk(AfterClaim(s, id))
  {
    var s' := AfterClaim(s, id);
    var w := |s.writers|;
    ClaimFrame(s, s', id);
    assert HeldPaths(s'.writers[w]) == [BodyPart(id)];
    assert HeldOk(s', w, s'.writers[w]);
    ByWriterStep(s, s', w);
  }

  /** Nobody else's name, and no published name, leads to a part that is still unpublished. */
  ghost predicate Private(s: State, w: nat, own: Path) {
    && own in s.dir && own in s.holder && s.holder[own] == ByWriter(w)
    && ((own.BodyPart? && Body(own.id) !in s.dir) || (own.MetaPart? && Meta(own.id) !in s.dir))
  }

  lemma PrivateIsAlone(s: State, w: nat, own: Path)
    requires NamesOk(s) && Private(s, w, own)
    ensures forall p :: p in s.dir && s.dir[p] == s.dir[own] ==> p == own
    ensures forall id :: id in s.published ==> s.dir[Body(id)] != s.dir[own] && s.dir[Meta(id)] != s.dir[own]
  {
    forall id | id in s.published
      ensures s.dir[Body(id)] != s.dir[own] && s.dir[Meta(id)] != s.dir[own]
    {
      assert PairOk(s, id);
    }
  }

  lemma LandFrame(s: State, s': State, w: nat, own: Path, content: Bytes)
    requires NamesOk(s) && Private(s, w, own) && s.dir[own] !in s.late
    requires s' == s.(data := s.data[s.dir[own] := content])
    ensures Frame(s, s', ByWriter(w)) && NamesOk(s')
    ensures forall p :: p in s.dir && p != own ==> s'.data[s'.dir[p]] == s.data[s.dir[p]]
  {
    PrivateIsAlone(s, w, own);
    forall id | id in s.published
      ensures PairOk(s', id)
    {
      assert PairOk(s, id);
    }
  }

  /** Bytes landing in an unpublished part of the acting writer. */
  lemma LandStep(s: State, s': State, w: nat, own: Path, content: Bytes)
    requires FilesOk(s) && LateOk(s) && w < |s.writers| && own in HeldPaths(s.writers[w]) && OnlyWriter(s, s', w)
    requires || (own == BodyPart(s.writers[w].id) && s.writers[w].stage.Streaming?)
             || (own == MetaPart(s.writers[w].id) && s.writers[w].stage.MetaOpen?)
    requires content <= (if own.BodyPart? then s.writers[w].streamed else s.writers[w].metaBytes)
    requires InodeFor(s.writers[w], own) < |s.data|
    requires s' == s.(data := s.data[InodeFor(s.writers[w], own) := content])
    ensures FilesOk(s')
  {
    assert WriterOk(s, w);
    LandOwn(s, s', w, s.writers[w], own, content);
    ByWriterStep(s, s', w);
  }

  lemma LandOwn(s: State, s': State, w: nat, x: Writer, own: Path, content: Bytes)
    requires NamesOk(s) && LateOk(s) && HeldOk(s, w, x) && StageOk(s, x) && own in HeldPaths(x)
    requires w < |s.writers| && s.writers[w] == x
    requires || (own == BodyPart(x.id) && x.stage.Streaming? && content <= x.streamed)
             || (own == MetaPart(x.id) && x.stage.MetaOpen? && content <= x.metaBytes)
    requires s' == s.(data := s.data[s.dir[own] := content])
    ensures Frame(s, s', ByWriter(w)) && NamesOk(s') && HeldOk(s', w, x) && StageOk(s', x)
  {
    LiveFilesAreNotLate(s, own);
    LandFrame(s, s', w, own, content);
    LandHeld(s, s', w, x, own, content);
  }

  lemma LandHeld(s: State, s': State, w: nat, x: Writer, own: Path, content: Bytes)
    requires DirOk(s.dir, s.data) && HeldOk(s, w, x) && StageOk(s, x) && own in HeldPaths(x) && s.dir[own] !in s.late
    requires || (own == BodyPart(x.id) && x.stage.Streaming? && content <= x.streamed)
             || (own == MetaPart(x.id) && x.stage.MetaOpen? && content <= x.metaBytes)
    requires s' == s.(data := s.data[s.dir[own] := content])
    requires forall p :: p in s.dir && p != own ==> s'.data[s'.dir[p]] == s.data[s.dir[p]]
    ensures HeldOk(s', w, x) && StageOk(s', x)
  {
    assert x.stage.MetaOpen? ==> HeldPaths(x)[0] == BodyPart(x.id);
  }

  lemma LandBodyStep(s: State, w: nat, n: nat)
    requires FilesOk(s) && LateOk(s) && CanLand(s, w, n)
    ensures FilesOk(AfterLand(s, w, n))
  {
    var x := s.writers[w];
    assert HeldPaths(x)[0] == BodyPart(x.id);
    LandStep(s, AfterLand(s, w, n), w, BodyPart(x.id), x.streamed[..n]);
  }

  lemma LandMetaStep(s: State, w: nat, n: nat)
    requires FilesOk(s) && LateOk(s) && CanLandMeta(s, w, n)
    ensures FilesOk(AfterLandMeta(s, w, n))
  {
    var x := s.writers[w];
    assert HeldPaths(x)[2] == MetaPart(x.id);
    LandStep(s, AfterLandMeta(s, w, n), w, MetaPart(x.id), x.metaBytes[..n]);
  }

  /** A spill that fails leaves what it had handed over in flight. */
  lemma FailFrame(s: State, s': State, w: nat, own: Path, content: Bytes)
    requires NamesOk(s) && Private(s, w, own) && HoldsSome(s, own, content)
    requires s'.dir == s.dir && s'.data == s.data && s'.holder == s.holder && s'.published == s.published
    requires s'.late == s.late[s.dir[own] := content]
    ensures Frame(s, s', ByWriter(w)) && NamesOk(s')
    ensures forall p :: p in s.dir && p != own ==> SameLate(s, s', s.dir[p])
  {
    PrivateIsAlone(s, w, own);
    forall id | id in s.published
      ensures PairOk(s', id)
    {
      assert PairOk(s, id);
    }
  }

  lemma FailHeld(s: State, s': State, w: nat, x: Writer, y: Writer, own: Path, content: Bytes)
    requires HeldOk(s, w, x) && own in HeldPaths(x) && HeldPaths(y) == HeldPaths(x) && y == x.(stage := y.stage)
    requires s'.dir == s.dir && s'.data == s.data && s'.holder == s.holder && |content| <= Quota(x, own)
    requires own in s.dir && s'.late == s.late[s.dir[own] := content]
    requires forall p :: p in s.dir && p != own ==> SameLate(s, s', s.dir[p])
    ensures HeldOk(s', w, y)
  {
  }

  lemma FailInFlight(s: State, s': State, w: nat, own: Path, content: Bytes)
    requires FilesOk(s) && w < |s.writers| && OnlyWriter(s, s', w)
    requires || (s.writers[w].stage.Streaming? && own == BodyPart(s.writers[w].id) && content == s.writers[w].streamed)
             || (s.writers[w].stage.MetaOpen? && own == MetaPart(s.writers[w].id) && content == s.writers[w].metaBytes)
    requires s'.dir == s.dir && s'.data == s.data && s'.holder == s.holder && s'.published == s.published
    requires s'.late == s.late[InodeFor(s.writers[w], own) := content]
    requires s'.writers[w] == s.writers[w].(stage := Failing(CleanupPaths(s.writers[w]), []))
    ensures FilesOk(s')
  {
    var x := s.writers[w];
    assert WriterOk(s, w);
    assert HeldPaths(x)[if x.stage.Streaming? then 0 else 2] == own;
    FailFrame(s, s', w, own, content);
    FailHeld(s, s', w, x, s'.writers[w], own, content);
    ByWriterStep(s, s', w);
  }

  lemma FailStreaming(s: State, w: nat)
    requires FilesOk(s) && CanFail(s, w) && s.writers[w].stage.Streaming?
    ensures FilesOk(AfterFail(s, w))
  {
    var x := s.writers[w];
    assert s.late + InFlight(x) == s.late[x.body := x.streamed];
    FailInFlight(s, AfterFail(s, w), w, BodyPart(x.id), x.streamed);
  }

  lemma FailWithMeta(s: State, w: nat)
    requires FilesOk(s) && CanFail(s, w) && s.writers[w].stage.MetaOpen?
    ensures FilesOk(AfterFail(s, w))
  {
    var x := s.writers[w];
    assert s.late + InFlight(x) == s.late[x.meta := x.metaBytes];
    FailInFlight(s, AfterFail(s, w), w, MetaPart(x.id), x.metaBytes);
  }

  lemma FailBetween(s: State, w: nat)
    requires FilesOk(s) && CanFail(s, w) && !s.writers[w].stage.Streaming? && !s.writers[w].stage.MetaOpen?
    ensures FilesOk(AfterFail(s, w))
  {
    assert s.late + map[] == s.late;
    NothingInFlight(s, AfterFail(s, w), w);
  }

  lemma NothingInFlight(s: State, s': State, w: nat)
    requires FilesOk(s) && w < |s.writers| && CleanupPaths(s.writers[w]) != [] && SameFiles(s, s')
    requires OnlyWriter(s, s', w)
    requires s'.writers[w] == s.writers[w].(stage := Failing(CleanupPaths(s.writers[w]), []))
    ensures FilesOk(s')
  {
    assert WriterOk(s, w);
    assert HeldPaths(s'.writers[w]) == HeldPaths(s.writers[w]);
    PlainStep(s, s', w);
  }

  lemma FailStep(s: State, w: nat)
    requires FilesOk(s) && CanFail(s, w)
    ensures FilesOk(AfterFail(s, w))
  {
    if s.writers[w].stage.Streaming? {
      FailStreaming(s, w);
    } else if s.writers[w].stage.MetaOpen? {
      FailWithMeta(s, w);
    } else {
      FailBetween(s, w);
    }
  }

  // ---------------------------------------------------------------- landing late

  /** Neither a published file nor the file of a spill that has not failed is in flight. */
  lemma LiveFilesAreNotLate(s: State, p: Path)
    requires NamesOk(s) && LateOk(s) && p in s.dir
    requires p in s.holder ==> s.holder[p].ByWriter? && s.holder[p].writer < |s.writers|
                               && !HasFailed(s.writers[s.holder[p].writer])
    ensures s.dir[p] !in s.late
  {
  }

  lemma LandLateNames(s: State, s': State, i: nat, n: nat)
    requires NamesOk(s) && LateOk(s) && CanLandLate(s, i, n) && s' == AfterLandLate(s, i, n)
    ensures NamesOk(s')
  {
    forall id | id in s.published
      ensures PairOk(s', id)
    {
      assert PairOk(s, id);
      LiveFilesAreNotLate(s, Body(id));
      LiveFilesAreNotLate(s, Meta(id));
    }
  }

  lemma EverShrinks(s: State, s': State, chosen: set<nat>)
    requires |s'.data| == |s.data| && forall i :: 0 <= i < |s.data| ==> EverSize(s', i) <= EverSize(s, i)
    ensures Stored(Ever(s'), chosen) <= Stored(Ever(s), chosen)
  {
    forall i | 0 <= i < |s.data|
      ensures |Ever(s')[i]| <= |Ever(s)[i]|
    {
      assert EverSize(s', i) <= EverSize(s, i);
    }
    StoredGrows(Ever(s'), Ever(s), chosen);
  }

  /** The contents a live spill relies on stay as they are. */
  lemma SameEverKeepsWriter(s: State, s': State, j: nat)
    requires NamesOk(s) && LateOk(s) && j < |s.writers| && WriterOk(s, j) && s'.writers == s.writers
    requires s'.dir == s.dir && s'.holder == s.holder && |s'.data| == |s.data|
    requires forall i :: 0 <= i < |s.data| && i !in s.late ==> s'.data[i] == s.data[i]
    requires forall i :: 0 <= i < |s.data| ==> EverSize(s', i) <= EverSize(s, i)
    ensures WriterOk(s', j)
  {
    var w := s.writers[j];
    assert HeldOk(s', j, w);
    if w.stage.Leaving? {
      EverShrinks(s, s', Unaliased(s.dir, w.stage.kept));
    } else if !w.stage.Failing? {
      forall p | p in HeldPaths(w)
        ensures s.dir[p] !in s.late
      {
        LiveFilesAreNotLate(s, p);
      }
      LiveStage(s, s', w);
    }
  }

  lemma LiveStage(s: State, s': State, w: Writer)
    requires StageOk(s, w) && !HasFailed(w) && s'.dir == s.dir && |s'.data| == |s.data|
    requires forall p :: p in HeldPaths(w) && p in s.dir && s.dir[p] < |s.data| ==>
            s'.data[s.dir[p]] == s.data[s.dir[p]]
    ensures StageOk(s', w)
  {
    assert w.stage.MetaOpen? || w.stage.MetaFlushed? ==> HeldPaths(w)[2] == MetaPart(w.id);
    assert !w.stage.Committed? && !w.stage.Gone? ==> HeldPaths(w)[0] == BodyPart(w.id);
  }

  lemma SameEverKeepsGroups(s: State, s': State)
    requires GroupsOk(s) && s'.orphans == s.orphans && s'.retry == s.retry && s'.groups == s.groups
    requires s'.dir == s.dir && s'.holder == s.holder && |s'.data| == |s.data|
    requires forall i :: 0 <= i < |s.data| ==> EverSize(s', i) <= EverSize(s, i)
    ensures GroupsOk(s')
  {
    forall k | 0 <= k < |s.orphans|
      ensures GroupOk(s', s.orphans[k].group, s.orphans[k].paths, s.orphans[k].most)
    {
      assert GroupOk(s, s.orphans[k].group, s.orphans[k].paths, s.orphans[k].most);
      EverShrinks(s, s', Unaliased(s.dir, s.orphans[k].paths));
    }
    if s.retry.Some? {
      EverShrinks(s, s', Unaliased(s.dir, s.retry.value.todo + s.retry.value.kept));
    }
  }

  lemma LandLateStep(s: State, i: nat, n: nat)
    requires FilesOk(s) && LateOk(s) && CanLandLate(s, i, n)
    ensures FilesOk(AfterLandLate(s, i, n))
  {
    var s' := AfterLandLate(s, i, n);
    LandLateNames(s, s', i, n);
    forall j: nat | j < |s.writers|
      ensures WriterOk(s', j)
    {
      SameEverKeepsWriter(s, s', j);
    }
    SameEverKeepsGroups(s, s');
  }

  lemma SettleStep(s: State, i: nat)
    requires FilesOk(s) && LateOk(s) && CanSettle(s, i)
    ensures FilesOk(AfterSettle(s, i))
  {
    var s' := AfterSettle(s, i);
    forall id | id in s.published
      ensures PairOk(s', id)
    {
      assert PairOk(s, id);
    }
    forall j: nat | j < |s.writers|
      ensures WriterOk(s', j)
    {
      SameEverKeepsWriter(s, s', j);
    }
    SameEverKeepsGroups(s, s');
  }

  // ---------------------------------------------------------------- new names

  /** The directory after a writer added one name, for a new file or as a second link. */
  ghost predicate AddsName(s: State, s': State, p: Path, inode: nat) {
    && p !in s.dir && !p.BodyPart?
    && s'.dir == s.dir[p := inode]
    && (s'.data == s.data || (s'.data == s.data + [[]] && inode == |s.data|))
    && s'.late == s.late
  }

  lemma AddNameDir(s: State, s': State, p: Path, inode: nat, twin: Path)
    requires AddsName(s, s', p, inode) && DirOk(s.dir, s.data)
    requires s'.data == s.data ==> twin in s.dir && SameFile(p, twin) && inode == s.dir[twin]
    ensures DirOk(s'.dir, s'.data)
  {
  }

  lemma AddNameFrame(s: State, s': State, w: nat, p: Path, inode: nat)
    requires NamesOk(s) && AddsName(s, s', p, inode) && DirOk(s'.dir, s'.data)
    requires BodyPart(p.id) in s.holder && s.holder[BodyPart(p.id)] == ByWriter(w)
    requires s'.holder == s.holder[p := ByWriter(w)] && s'.published == s.published && !p.Meta?
    ensures Frame(s, s', ByWriter(w)) && NamesOk(s')
  {
    forall id | id in s.published
      ensures PairOk(s', id)
    {
      assert PairOk(s, id);
    }
  }

  lemma AddNameHeld(s: State, s': State, w: nat, x: Writer, y: Writer, p: Path)
    requires HeldOk(s, w, x) && AddsName(s, s', p, InodeFor(y, p))
    requires s'.holder == s.holder[p := ByWriter(w)] && !p.Meta? && p.id == x.id
    requires HeldPaths(y) == HeldPaths(x) + [p]
    requires y.id == x.id && y.body == x.body && y.streamed == x.streamed && y.metaBytes == x.metaBytes
    requires forall q :: q in HeldPaths(x) ==> InodeFor(y, q) == InodeFor(x, q)
    requires InodeFor(y, p) < |s'.data| && EverSize(s', InodeFor(y, p)) <= Quota(y, p)
    ensures HeldOk(s', w, y)
  {
    assert forall q :: q in HeldPaths(y) <==> q in HeldPaths(x) || q == p;
  }

  lemma LinkBodyStep(s: State, w: nat)
    requires FilesOk(s) && CanLinkBody(s, w)
    ensures FilesOk(AfterLinkBody(s, w))
  {
    var s' := AfterLinkBody(s, w);
    var x, y := s.writers[w], s'.writers[w];
    assert WriterOk(s, w);
    assert HeldPaths(x)[0] == BodyPart(x.id);
    assert HeldPaths(y) == HeldPaths(x) + [Body(x.id)];
    AddNameDir(s, s', Body(x.id), x.body, BodyPart(x.id));
    AddNameFrame(s, s', w, Body(x.id), x.body);
    AddNameHeld(s, s', w, x, y, Body(x.id));
    ByWriterStep(s, s', w);
  }

  lemma OpenMetaStep(s: State, w: nat)
    requires FilesOk(s) && CanOpenMeta(s, w)
    ensures FilesOk(AfterOpenMeta(s, w))
  {
    var s', x := AfterOpenMeta(s, w), s.writers[w];
    assert WriterOk(s, w);
    OpenMetaOwn(s, s', w, x, s'.writers[w]);
    ByWriterStep(s, s', w);
  }

  lemma OpenMetaOwn(s: State, s': State, w: nat, x: Writer, y: Writer)
    requires NamesOk(s) && HeldOk(s, w, x) && StageOk(s, x) && x.stage.MetaReserved?
    requires y == x.(meta := |s.data|, stage := MetaOpen)
    requires s'.dir == s.dir[MetaPart(x.id) := |s.data|] && s'.data == s.data + [[]] && s'.late == s.late
    requires s'.holder == s.holder[MetaPart(x.id) := ByWriter(w)] && s'.published == s.published
    ensures Frame(s, s', ByWriter(w)) && NamesOk(s') && HeldOk(s', w, y) && StageOk(s', y)
  {
    assert HeldPaths(x)[0] == BodyPart(x.id);
    assert HeldPaths(y) == HeldPaths(x) + [MetaPart(x.id)];
    AddNameDir(s, s', MetaPart(x.id), |s.data|, MetaPart(x.id));
    AddNameFrame(s, s', w, MetaPart(x.id), |s.data|);
    AddNameHeld(s, s', w, x, y, MetaPart(x.id));
  }

  /** The directory after the meta name was linked and the body name is nobody's to unlink any more. */
  ghost predicate Commits(s: State, s': State, x: Writer) {
    && s'.dir == s.dir[Meta(x.id) := x.meta] && s'.data == s.data && s'.late == s.late
    && s'.holder == s.holder - {Body(x.id)}
    && s'.published == s.published[x.id := Pair(x.streamed, x.metaBytes)]
  }

  /** Linking the meta name is the commit: it publishes exactly the bytes that were streamed. */
  lemma CommitPublishesPair(s: State, s': State, w: nat, x: Writer)
    requires NamesOk(s) && HeldOk(s, w, x) && x.stage.MetaFlushed? && StageOk(s, x) && Commits(s, s', x)
    ensures DirOk(s'.dir, s'.data) && PairOk(s', x.id) && x.id !in s.published
  {
    assert HeldPaths(x)[0] == BodyPart(x.id) && HeldPaths(x)[1] == Body(x.id) && HeldPaths(x)[2] == MetaPart(x.id);
    AddNameDir(s, s', Meta(x.id), x.meta, MetaPart(x.id));
    assert x.id in s.published ==> PairOk(s, x.id);
  }

  lemma CommitKeepsPairs(s: State, s': State, x: Writer, id: RefId)
    requires NamesOk(s) && Commits(s, s', x) && Meta(x.id) !in s.dir && id in s.published && id != x.id
    ensures PairOk(s', id) && Keeps(s, s', Body(id)) && Keeps(s, s', Meta(id))
  {
    assert PairOk(s, id);
  }

  lemma LinkMetaFrame(s: State, s': State, w: nat, x: Writer)
    requires NamesOk(s) && HeldOk(s, w, x) && x.stage.MetaFlushed? && StageOk(s, x) && Commits(s, s', x)
    ensures Frame(s, s', ByWriter(w)) && NamesOk(s') && PairOk(s', x.id)
  {
    assert HeldPaths(x)[0] == BodyPart(x.id) && HeldPaths(x)[1] == Body(x.id);
    CommitPublishesPair(s, s', w, x);
    forall id | id in s.published
      ensures PairOk(s', id) && Keeps(s, s', Body(id)) && Keeps(s, s', Meta(id))
    {
      CommitKeepsPairs(s, s', x, id);
    }
    CommitFrames(s, s', w, x);
  }

  lemma CommitFrames(s: State, s': State, w: nat, x: Writer)
    requires NamesOk(s) && Commits(s, s', x) && Meta(x.id) !in s.dir
    requires Body(x.id) in s.holder && s.holder[Body(x.id)] == ByWriter(w)
    ensures forall p :: p in s.holder && s.holder[p] != ByWriter(w) ==>
              p in s'.holder && s'.holder[p] == s.holder[p] && Keeps(s, s', p)
  {
    assert Ever(s') == Ever(s);
  }

  lemma LinkMetaHeld(s: State, s': State, w: nat, x: Writer, y: Writer)
    requires HeldOk(s, w, x) && x.stage.MetaFlushed? && Meta(x.id) !in s.dir
    requires Commits(s, s', x)
    requires y == x.(stage := Committed([BodyPart(x.id), MetaPart(x.id)]))
    ensures HeldOk(s', w, y)
  {
    assert HeldPaths(x)[0] == BodyPart(x.id) && HeldPaths(x)[2] == MetaPart(x.id);
    assert HeldPaths(y) == [BodyPart(x.id), MetaPart(x.id)];
  }

  lemma LinkMetaStep(s: State, w: nat)
    requires FilesOk(s) && CanLinkMeta(s, w)
    ensures FilesOk(AfterLinkMeta(s, w))
  {
    CommitStep(s, AfterLinkMeta(s, w), w, s.writers[w]);
  }

  lemma CommitStep(s: State, s': State, w: nat, x: Writer)
    requires FilesOk(s) && w < |s.writers| && s.writers[w] == x && x.stage.MetaFlushed? && Meta(x.id) !in s.dir
    requires Commits(s, s', x) && OnlyWriter(s, s', w)
    requires s'.writers[w] == x.(stage := Committed([BodyPart(x.id), MetaPart(x.id)]))
    ensures FilesOk(s')
  {
    assert WriterOk(s, w);
    LinkMetaFrame(s, s', w, x);
    LinkMetaHeld(s, s', w, x, s'.writers[w]);
    ByWriterStep(s, s', w);
  }

  // ---------------------------------------------------------------- unlinking

  /** Dropping a held name, whether the unlink succeeded or the name is merely given up. */
  lemma DropFrame(s: State, s': State, actor: Holder, p: Path)
    requires NamesOk(s) && p in s.holder && s.holder[p] == actor
    requires (s'.dir == s.dir - {p} || s'.dir == s.dir) && s'.holder == s.holder - {p}
    requires s'.data == s.data && s'.late == s.late && s'.published == s.published
    ensures Frame(s, s', actor) && NamesOk(s')
  {
    forall id | id in s.published
      ensures PairOk(s', id) && Keeps(s, s', Body(id)) && Keeps(s, s', Meta(id))
    {
      assert PairOk(s, id);
    }
  }

  lemma DropHeld(s: State, s': State, w: nat, x: Writer, y: Writer)
    requires HeldOk(s, w, x) && HeldPaths(x) != [] && HeldPaths(y) == HeldPaths(x)[1..]
    requires s'.data == s.data && s'.late == s.late && s'.holder == s.holder - {HeldPaths(x)[0]}
    requires s'.dir == s.dir || s'.dir == s.dir - {HeldPaths(x)[0]}
    requires y == x.(stage := y.stage)
    ensures HeldOk(s', w, y)
  {
    TailIsDistinct(HeldPaths(x));
  }

  lemma TailIsDistinct<T>(xs: seq<T>)
    requires xs != [] && Distinct(xs)
    ensures Distinct(xs[1..]) && forall x :: x in xs[1..] ==> x in xs && x != xs[0]
  {
  }

  lemma DropStep(s: State, s': State, w: nat)
    requires FilesOk(s) && OnlyWriter(s, s', w) && w < |s.writers|
    requires s'.data == s.data && s'.late == s.late && s'.published == s.published
    requires var x, y := s.writers[w], s'.writers[w];
             && HeldPaths(x) != [] && HeldPaths(y) == HeldPaths(x)[1..] && y == x.(stage := y.stage)
             && s'.holder == s.holder - {HeldPaths(x)[0]}
             && (s'.dir == s.dir || s'.dir == s.dir - {HeldPaths(x)[0]})
             && StageOk(s', y) && y.reserved == if y.stage.Gone? then 0 else |y.streamed| + |y.metaBytes|
    ensures FilesOk(s')
  {
    assert WriterOk(s, w);
    var p := HeldPaths(s.writers[w])[0];
    assert p in HeldPaths(s.writers[w]);
    DropFrame(s, s', ByWriter(w), p);
    DropHeld(s, s', w, s.writers[w], s'.writers[w]);
    ByWriterStep(s, s', w);
  }

  lemma GiveUpStep(s: State, w: nat, unlinked: bool)
    requires FilesOk(s) && CanGiveUp(s, w, unlinked)
    ensures FilesOk(AfterGiveUp(s, w, unlinked))
  {
    assert WriterOk(s, w);
    DropStep(s, AfterGiveUp(s, w, unlinked), w);
  }

  lemma UnlinkAliasStep(s: State, w: nat, ok: bool)
    requires FilesOk(s) && CanUnlinkAlias(s, w, ok)
    ensures FilesOk(AfterUnlinkAlias(s, w, ok))
  {
    assert WriterOk(s, w);
    DropStep(s, AfterUnlinkAlias(s, w, ok), w);
  }

  lemma UnlinkFailedStep(s: State, w: nat)
    requires FilesOk(s) && CanUnlinkFailed(s, w, true)
    ensures FilesOk(AfterUnlinkFailed(s, w, true))
  {
    assert WriterOk(s, w);
    var stage := s.writers[w].stage;
    assert (stage.todo + stage.kept)[1..] == stage.todo[1..] + stage.kept;
    DropStep(s, AfterUnlinkFailed(s, w, true), w);
  }

  lemma DistinctRotates<T>(xs: seq<T>)
    requires xs != [] && Distinct(xs)
    ensures Distinct(xs[1..] + [xs[0]])
    ensures forall x :: x in xs <==> x in xs[1..] + [xs[0]]
  {
    assert xs == [xs[0]] + xs[1..];
  }

  lemma UnlinkBlockedStep(s: State, w: nat)
    requires FilesOk(s) && CanUnlinkFailed(s, w, false)
    ensures FilesOk(AfterUnlinkFailed(s, w, false))
  {
    var s' := AfterUnlinkFailed(s, w, false);
    var x, y := s.writers[w], s'.writers[w];
    var todo, kept := x.stage.todo, x.stage.kept;
    assert WriterOk(s, w);
    DistinctRotates(todo + kept);
    assert HeldPaths(y) == (todo + kept)[1..] + [(todo + kept)[0]];
    PlainStep(s, s', w);
  }

  // ---------------------------------------------------------------- leftovers and debt

  lemma AliasIsAlone(s: State, p: Path, q: Path)
    requires NamesOk(s) && p in s.holder && q in s.holder
    requires s.dir[p] == s.dir[q] && AliasesCommittedPair(s.dir, q)
    ensures p == q
  {
    assert Meta(q.id) in s.dir;
    assert PairOk(s, q.id);
    assert SameFile(p, q);
  }

  /** Under the protocol a leftover that aliases a complete pair is the only leftover of its file,
      so measuring by file identity and measuring name by name agree. */
  lemma MeasureByName(s: State, paths: seq<Path>)
    requires NamesOk(s) && forall p :: p in paths ==> p in s.holder
    ensures Retained(s.dir, paths) == Unaliased(s.dir, paths)
  {
    forall i | i in Unaliased(s.dir, paths)
      ensures i in Retained(s.dir, paths)
    {
      var p :| p in paths && p in s.dir && !AliasesCommittedPair(s.dir, p) && s.dir[p] == i;
      forall q | q in paths && q in s.dir && s.dir[q] == s.dir[p]
        ensures !AliasesCommittedPair(s.dir, q)
      {
        if AliasesCommittedPair(s.dir, q) {
          AliasIsAlone(s, p, q);
        }
      }
    }
  }

  /** Leftover bytes never exceed what the failed spill had reserved, whatever of them lands when. */
  lemma LeftoverWithinReservation(s: State, w: nat, x: Writer)
    requires DirOk(s.dir, s.data) && HeldOk(s, w, x)
    ensures UnaliasedBytes(s.dir, Ever(s), HeldPaths(x)) <= |x.streamed| + |x.metaBytes|
  {
    var chosen := Unaliased(s.dir, HeldPaths(x));
    assert chosen <= {x.body, x.meta};
    if x.body in chosen && x.meta in chosen {
      StoredPair(Ever(s), chosen, x.body, x.meta);
    } else if x.body in chosen {
      StoredPair(Ever(s), chosen, x.body, x.body);
    } else if x.meta in chosen {
      StoredPair(Ever(s), chosen, x.meta, x.meta);
    } else {
      assert chosen == {};
      StoredNothing(Ever(s));
    }
  }

  lemma {:induction false} StoredGrows(data: Inodes, more: Inodes, chosen: set<nat>)
    requires |data| == |more| && forall i :: 0 <= i < |data| ==> |data[i]| <= |more[i]|
    ensures Stored(data, chosen) <= Stored(more, chosen)
  {
    if data != [] {
      StoredGrows(data[..|data| - 1], more[..|data| - 1], chosen);
    }
  }

  /** What is there never exceeds what may ever be there. */
  lemma RetainedWithinEver(s: State, paths: seq<Path>)
    requires NamesOk(s)
    ensures RetainedBytes(s.dir, s.data, paths) <= RetainedBytes(s.dir, Ever(s), paths)
  {
    StoredGrows(s.data, Ever(s), Retained(s.dir, paths));
  }

  lemma MeasureStep(s: State, w: nat, measured: bool)
    requires FilesOk(s) && CanMeasure(s, w, measured)
    ensures FilesOk(AfterMeasure(s, w, measured))
  {
    var s' := AfterMeasure(s, w, measured);
    var x, y := s.writers[w], s'.writers[w];
    assert WriterOk(s, w);
    assert HeldPaths(x) == x.stage.kept == HeldPaths(y);
    MeasureByName(s, x.stage.kept);
    RetainedWithinEver(s, x.stage.kept);
    LeftoverWithinReservation(s, w, x);
    assert Ever(s') == Ever(s);
    PlainStep(s, s', w);
  }

  lemma HandOverFrame(s: State, s': State, w: nat, paths: seq<Path>)
    requires NamesOk(s) && forall p :: p in paths ==> p in s.holder && s.holder[p] == ByWriter(w)
    requires s'.dir == s.dir && s'.data == s.data && s'.late == s.late && s'.published == s.published
    requires s'.holder == HandOver(s.holder, paths, s.groups)
    ensures Frame(s, s', ByWriter(w)) && NamesOk(s')
  {
    forall id | id in s.published
      ensures PairOk(s', id) && Keeps(s, s', Body(id)) && Keeps(s, s', Meta(id))
    {
      assert PairOk(s, id);
    }
  }

  lemma FinishFailedStep(s: State, w: nat)
    requires FilesOk(s) && CanFinishFailed(s, w)
    ensures FilesOk(AfterFinishFailed(s, w))
  {
    if s.writers[w].stage.kept == [] {
      NothingLeft(s, AfterFinishFailed(s, w), w);
    } else {
      var stage := s.writers[w].stage;
      HandOverStep(s, AfterFinishFailed(s, w), w, stage.kept, stage.bytes, stage.most);
    }
  }

  lemma NothingLeft(s: State, s': State, w: nat)
    requires FilesOk(s) && w < |s.writers| && s.writers[w].stage.Leaving? && s.writers[w].stage.kept == []
    requires SameFiles(s, s') && OnlyWriter(s, s', w) && s'.writers[w] == s.writers[w].(reserved := 0, stage := Gone)
    ensures FilesOk(s')
  {
    assert WriterOk(s, w);
    PlainStep(s, s', w);
  }

  /** A failed spill leaves its leftovers behind as a new orphan group. */
  /** What a failed writer left goes to a new group. */
  ghost predicate HandsOver(s: State, s': State, w: nat, kept: seq<Path>, bytes: nat, most: nat) {
    && w < |s.writers| && s.writers[w].stage == Leaving(kept, bytes, most) && s.ready && s'.ready
    && s'.dir == s.dir && s'.data == s.data && s'.late == s.late && s'.published == s.published
    && s'.retry == s.retry
    && s'.holder == HandOver(s.holder, kept, s.groups) && s'.groups == s.groups + 1
    && s'.orphans == s.orphans + [Orphan(s.groups, kept, bytes, most)]
    && s'.writers == s.writers[w := s.writers[w].(reserved := 0, stage := Gone)]
  }

  lemma HandOverStep(s: State, s': State, w: nat, kept: seq<Path>, bytes: nat, most: nat)
    requires FilesOk(s) && HandsOver(s, s', w, kept, bytes, most)
    ensures FilesOk(s')
  {
    assert WriterOk(s, w);
    HandOverFrame(s, s', w, kept);
    HandOverWriters(s, s', w, kept, bytes, most);
    HandOverGroup(s, s', w, kept, bytes, most);
    AppendGroup(s, s', ByWriter(w), Orphan(s.groups, kept, bytes, most));
  }

  lemma HandOverWriters(s: State, s': State, w: nat, kept: seq<Path>, bytes: nat, most: nat)
    requires FilesOk(s) && HandsOver(s, s', w, kept, bytes, most) && Frame(s, s', ByWriter(w))
    ensures forall j: nat :: j < |s'.writers| ==> WriterOk(s', j)
  {
    OtherWriters(s, s', ByWriter(w));
    assert WriterOk(s', w);
  }

  lemma HandOverGroup(s: State, s': State, w: nat, kept: seq<Path>, bytes: nat, most: nat)
    requires HandsOver(s, s', w, kept, bytes, most) && WriterOk(s, w)
    ensures GroupOk(s', s.groups, kept, most)
  {
  }

  lemma AppendGroup(s: State, s': State, actor: Holder, o: Orphan)
    requires PublishedOk(s) && GroupsOk(s) && Frame(s, s', actor) && actor.ByWriter?
    requires s'.orphans == s.orphans + [o] && s'.retry == s.retry && s'.groups == s.groups + 1
    requires o.group == s.groups && GroupOk(s', o.group, o.paths, o.most)
    ensures GroupsOk(s')
  {
    forall k | 0 <= k < |s.orphans|
      ensures GroupOk(s', s.orphans[k].group, s.orphans[k].paths, s.orphans[k].most)
    {
      FrameGroup(s, s', actor, s.orphans[k].group, s.orphans[k].paths, s.orphans[k].most);
    }
    if s.retry.Some? {
      FrameGroup(s, s', actor, s.retry.value.group, s.retry.value.todo + s.retry.value.kept, s.retry.value.most);
    }
  }

  // ---------------------------------------------------------------- retrying orphan groups

  lemma PostponeStep(s: State)
    requires FilesOk(s) && CanPostpone(s)
    ensures FilesOk(AfterPostpone(s))
  {
    var s' := AfterPostpone(s);
    SameFilesFrame(s, s', ByGroup(s.groups));
    OtherWriters(s, s', ByGroup(s.groups));
    forall k | 0 <= k < |s'.orphans|
      ensures GroupOk(s', s'.orphans[k].group, s'.orphans[k].paths, s'.orphans[k].most)
    {
      var l := if k + 1 < |s.orphans| then k + 1 else 0;
      assert s'.orphans[k] == s.orphans[l];
      assert GroupOk(s, s.orphans[l].group, s.orphans[l].paths, s.orphans[l].most);
    }
  }

  lemma BeginRetryStep(s: State)
    requires FilesOk(s) && CanBeginRetry(s)
    ensures FilesOk(AfterBeginRetry(s))
  {
    var s' := AfterBeginRetry(s);
    var o := s.orphans[0];
    SameFilesFrame(s, s', ByGroup(o.group));
    assert GroupOk(s, o.group, o.paths, o.most);
    assert o.paths + [] == o.paths;
    OtherWriters(s, s', ByGroup(o.group));
    forall k | 0 <= k < |s'.orphans|
      ensures GroupOk(s', s'.orphans[k].group, s'.orphans[k].paths, s'.orphans[k].most)
    {
      assert s'.orphans[k] == s.orphans[k + 1];
      assert GroupOk(s, s.orphans[k + 1].group, s.orphans[k + 1].paths, s.orphans[k + 1].most);
    }
  }

  /** It is enough to look at the group being retried once everything else is framed. */
  lemma ByRetryStep(s: State, s': State)
    requires FilesOk(s) && s.retry.Some? && s.ready && s'.ready && NamesOk(s')
    requires Frame(s, s', ByGroup(s.retry.value.group))
    requires s'.writers == s.writers && s'.orphans == s.orphans && s'.groups == s.groups
    requires s'.retry.Some? && s'.retry.value.group == s.retry.value.group
    requires GroupOk(s', s'.retry.value.group, s'.retry.value.todo + s'.retry.value.kept, s'.retry.value.most)
    ensures FilesOk(s')
  {
    var actor := ByGroup(s.retry.value.group);
    OtherWriters(s, s', actor);
    forall k | 0 <= k < |s.orphans|
      ensures GroupOk(s', s.orphans[k].group, s.orphans[k].paths, s.orphans[k].most)
    {
      FrameGroup(s, s', actor, s.orphans[k].group, s.orphans[k].paths, s.orphans[k].most);
    }
  }

  /** Unlinking one name of a group leaves no more retained than before. */
  lemma DropFromGroup(s: State, s': State, group: nat, paths: seq<Path>, most: nat)
    requires NamesOk(s) && GroupOk(s, group, paths, most) && paths != []
    requires s'.dir == s.dir - {paths[0]} && s'.holder == s.holder - {paths[0]} && s'.data == s.data
    requires s'.late == s.late
    requires s'.published == s.published && s'.groups == s.groups
    ensures GroupOk(s', group, paths[1..], most)
  {
    TailIsDistinct(paths);
    DropKeepsBytes(s, s', paths);
  }

  lemma DropKeepsBytes(s: State, s': State, paths: seq<Path>)
    requires NamesOk(s) && paths != [] && s'.dir == s.dir - {paths[0]} && !paths[0].Meta? && paths[0] in s.holder
    requires s'.data == s.data && s'.late == s.late
    ensures UnaliasedBytes(s'.dir, Ever(s'), paths[1..]) <= UnaliasedBytes(s.dir, Ever(s), paths)
  {
    forall i | i in Unaliased(s'.dir, paths[1..])
      ensures i in Unaliased(s.dir, paths)
    {
      var p :| p in paths[1..] && p in s'.dir && !AliasesCommittedPair(s'.dir, p) && s'.dir[p] == i;
      StillUnaliased(s, s', paths[0], p);
      assert p in paths;
    }
    assert Ever(s') == Ever(s);
    StoredMonotone(Ever(s), Unaliased(s'.dir, paths[1..]), Unaliased(s.dir, paths));
  }

  /** A held name is not part of a complete pair, so unlinking it unaliases nothing. */
  lemma StillUnaliased(s: State, s': State, gone: Path, p: Path)
    requires NamesOk(s) && s'.dir == s.dir - {gone} && gone in s.holder && p in s'.dir
    requires !AliasesCommittedPair(s'.dir, p)
    ensures !AliasesCommittedPair(s.dir, p)
  {
    assert Meta(p.id) in s.dir ==> PairOk(s, p.id);
  }

  lemma UnlinkOrphanStep(s: State)
    requires FilesOk(s) && CanUnlinkOrphan(s, true)
    ensures FilesOk(AfterUnlinkOrphan(s, true))
  {
    var s', r := AfterUnlinkOrphan(s, true), s.retry.value;
    assert (r.todo + r.kept)[1..] == r.todo[1..] + r.kept;
    DropOrphan(s, s', r.todo + r.kept);
  }

  lemma DropOrphan(s: State, s': State, paths: seq<Path>)
    requires FilesOk(s) && s.retry.Some? && paths == s.retry.value.todo + s.retry.value.kept && paths != []
    requires s' == Unlink(s.(retry := s'.retry), paths[0]) && s'.retry.Some?
    requires s'.retry.value.group == s.retry.value.group && s'.retry.value.most == s.retry.value.most
    requires s'.retry.value.todo + s'.retry.value.kept == paths[1..]
    ensures FilesOk(s')
  {
    DropFrame(s, s', ByGroup(s.retry.value.group), paths[0]);
    DropFromGroup(s, s', s.retry.value.group, paths, s.retry.value.most);
    ByRetryStep(s, s');
  }

  lemma OrphanBlockedStep(s: State)
    requires FilesOk(s) && CanUnlinkOrphan(s, false)
    ensures FilesOk(AfterUnlinkOrphan(s, false))
  {
    var s' := AfterUnlinkOrphan(s, false);
    var r := s.retry.value;
    var paths := r.todo + r.kept;
    SameFilesFrame(s, s', ByGroup(r.group));
    DistinctRotates(paths);
    assert r.todo[1..] + (r.kept + [r.todo[0]]) == paths[1..] + [paths[0]];
    assert Unaliased(s'.dir, paths[1..] + [paths[0]]) == Unaliased(s.dir, paths);
    ByRetryStep(s, s');
  }

  /** What a retried group may ever retain is no more than it could come to before. */
  lemma RetryNeverOutgrows(s: State)
    requires FilesOk(s) && s.retry.Some? && s.retry.value.todo == []
    ensures RetainedBytes(s.dir, Ever(s), s.retry.value.kept) <= s.retry.value.most
    ensures Unaliased(s.dir, s.retry.value.kept) == Retained(s.dir, s.retry.value.kept)
  {
    var r := s.retry.value;
    assert r.todo + r.kept == r.kept;
    MeasureByName(s, r.kept);
  }

  lemma EndRetryStep(s: State, measured: bool)
    requires FilesOk(s) && CanEndRetry(s, measured)
    ensures FilesOk(AfterEndRetry(s, measured))
  {
    var s' := AfterEndRetry(s, measured);
    var r := s.retry.value;
    assert r.todo + r.kept == r.kept;
    RetryNeverOutgrows(s);
    SameFilesFrame(s, s', ByGroup(r.group));
    OtherWriters(s, s', ByGroup(r.group));
    EndRetryGroups(s, s');
  }

  lemma EndRetryGroups(s: State, s': State)
    requires NamesOk(s) && GroupsOk(s) && s.retry.Some? && s.retry.value.todo == [] && SameFiles(s, s')
    requires s'.groups == s.groups && s'.retry.None?
    requires var r := s.retry.value;
             if r.kept == [] then s'.orphans == s.orphans
             else exists o: Orphan :: s'.orphans == s.orphans + [o] && o.group == r.group && o.paths == r.kept
                                      && UnaliasedBytes(s.dir, Ever(s), r.kept) <= o.most
    ensures GroupsOk(s')
  {
    var r := s.retry.value;
    assert r.todo + r.kept == r.kept;
    assert Ever(s') == Ever(s);
    forall k | 0 <= k < |s'.orphans|
      ensures GroupOk(s', s'.orphans[k].group, s'.orphans[k].paths, s'.orphans[k].most)
    {
      if k < |s.orphans| {
        assert GroupOk(s, s.orphans[k].group, s.orphans[k].paths, s.orphans[k].most);
      }
    }
  }

  // ---------------------------------------------------------------- crash and startup

  lemma CrashStep(s: State)
    requires FilesOk(s)
    ensures FilesOk(AfterCrash(s))
  {
    var s' := AfterCrash(s);
    forall id | id in s.published
      ensures PairOk(s', id)
    {
      assert PairOk(s, id);
    }
  }

  lemma RecoverInterruptedStep(s: State, removed: set<Path>)
    requires FilesOk(s) && CanRecoverInterrupted(s, removed)
    ensures FilesOk(AfterRecoverInterrupted(s, removed))
  {
    var s' := AfterRecoverInterrupted(s, removed);
    forall id | id in s.published
      ensures PairOk(s', id)
    {
      assert PairOk(s, id);
    }
  }

  lemma {:induction false} FallbackCoversAll(dir: Dir, data: Inodes, paths: seq<Path>)
    requires DirOk(dir, data) && forall p :: p in paths ==> p in dir
    ensures Stored(data, set p | p in paths :: dir[p]) <= FallbackBytes(dir, data, paths)
    decreases |paths|
  {
    if paths == [] {
      assert (set p | p in paths :: dir[p]) == {};
      StoredNothing(data);
    } else {
      var init, last := paths[..|paths| - 1], paths[|paths| - 1];
      FallbackCoversAll(dir, data, init);
      var some := set p | p in init :: dir[p];
      assert (set p | p in paths :: dir[p]) == some + {dir[last]} by {
        assert forall p :: p in paths <==> p in init || p == last;
      }
      if dir[last] in some {
        assert some + {dir[last]} == some;
      } else {
        StoredAdd(data, some, dir[last]);
      }
    }
  }

  lemma RecoverNames(s: State, s': State, kept: seq<Path>)
    requires NamesOk(s) && s'.data == s.data && s'.late == s.late && s'.published == s.published
    requires forall p :: p in s'.dir ==> p in s.dir && s'.dir[p] == s.dir[p]
    requires forall p :: p in s.dir && !IsIncomplete(s.dir, p) ==> p in s'.dir
    requires s'.holder == map[] || s'.holder == HandOver(map[], kept, 0)
    requires forall p :: p in kept ==> p in s'.dir && IsIncomplete(s.dir, p)
    ensures NamesOk(s')
  {
    forall id | id in s.published
      ensures PairOk(s', id)
    {
      assert PairOk(s, id);
    }
  }

  lemma RecoverStep(s: State, scan: seq<Path>, kept: seq<Path>, measured: bool)
    requires FilesOk(s) && CanRecover(s, scan, kept, measured)
    ensures FilesOk(AfterRecover(s, scan, kept, measured))
  {
    var s' := AfterRecover(s, scan, kept, measured);
    RecoverNames(s, s', kept);
    if kept != [] {
      RecoverCharge(s, s', scan, kept, measured);
      assert GroupOk(s', 0, kept, s'.orphans[0].most);
    }
  }

  /** At startup nothing is in flight, and the leftovers are charged all they hold or more. */
  lemma RecoverCharge(s: State, s': State, scan: seq<Path>, kept: seq<Path>, measured: bool)
    requires NamesOk(s) && NamesOk(s') && s.late == map[] && CanRecover(s, scan, kept, measured) && kept != []
    requires s' == AfterRecover(s, scan, kept, measured)
    ensures UnaliasedBytes(s'.dir, Ever(s'), kept) <= s'.orphans[0].most
  {
    MeasureByName(s', kept);
    FallbackCoversAll(s.dir, s.data, scan);
    StoredMonotone(s.data, Unaliased(s'.dir, kept), set p | p in scan :: s.dir[p]);
    assert Ever(s') == s.data;
  }

  lemma BodyStepsKeepFiles(s: State, step: Step)
    requires FilesOk(s) && LateOk(s) && CanBody(s, step)
    ensures FilesOk(AfterBody(s, step))
  {
    match step
    case Claim(id) => ClaimStep(s, id);
    case Look(_) => PlainBodySteps(s, step);
    case GiveUp(w, unlinked) => GiveUpStep(s, w, unlinked);
    case Write(_, _) => PlainBodySteps(s, step);
    case Land(w, n) => LandBodyStep(s, w, n);
    case Flush(_) => PlainBodySteps(s, step);
    case LinkBody(w) => LinkBodyStep(s, w);
  }

  lemma MetaStepsKeepFiles(s: State, step: Step)
    requires FilesOk(s) && LateOk(s) && CanMeta(s, step)
    ensures FilesOk(AfterMeta(s, step))
  {
    match step
    case ReserveMeta(w, metaBytes) => ReserveMetaStep(s, w, metaBytes);
    case OpenMeta(w) => OpenMetaStep(s, w);
    case LandMeta(w, n) => LandMetaStep(s, w, n);
    case FlushMeta(w) => FlushMetaStep(s, w);
    case LinkMeta(w) => LinkMetaStep(s, w);
    case UnlinkAlias(w, ok) => UnlinkAliasStep(s, w, ok);
    case FinishSpill(w) => FinishSpillStep(s, w);
  }

  lemma FailureStepsKeepFiles(s: State, step: Step)
    requires FilesOk(s) && LateOk(s) && CanFailure(s, step)
    ensures FilesOk(AfterFailure(s, step))
  {
    match step
    case Fail(w) => FailStep(s, w);
    case UnlinkFailed(w, ok) => if ok { UnlinkFailedStep(s, w); } else { UnlinkBlockedStep(s, w); }
    case Measure(w, measured) => MeasureStep(s, w, measured);
    case FinishFailed(w) => FinishFailedStep(s, w);
    case LandLate(i, n) => LandLateStep(s, i, n);
    case Settle(i) => SettleStep(s, i);
  }

  lemma ManageStepsKeepFiles(s: State, step: Step)
    requires FilesOk(s) && CanManage(s, step)
    ensures FilesOk(AfterManage(s, step))
  {
    match step
    case Postpone => PostponeStep(s);
    case BeginRetry => BeginRetryStep(s);
    case UnlinkOrphan(ok) => if ok { UnlinkOrphanStep(s); } else { OrphanBlockedStep(s); }
    case EndRetry(measured) => EndRetryStep(s, measured);
    case Crash => CrashStep(s);
    case RecoverInterrupted(removed) => RecoverInterruptedStep(s, removed);
    case Recover(scan, kept, measured) => RecoverStep(s, scan, kept, measured);
  }

  lemma StepKeepsFiles(s: State, step: Step)
    requires FilesOk(s) && LateOk(s) && Enabled(s, step)
    ensures FilesOk(Apply(s, step))
  {
    if IsBodyStep(step) {
      BodyStepsKeepFiles(s, step);
    } else if IsMetaStep(step) {
      MetaStepsKeepFiles(s, step);
    } else if IsFailureStep(step) {
      FailureStepsKeepFiles(s, step);
    } else {
      ManageStepsKeepFiles(s, step);
    }
  }
}
