/**
 The refs directory of the proxy spill store: protocol names, hard links between them, and
 the number of bytes that leftover names really retain.
 */
module SpillFiles {
  import opened Common

  /** A reference id. Ids are drawn freely, so two writers may draw the same one. */
  type RefId = nat

  /** The four names that one id may have in the refs directory. */
  datatype Path = BodyPart(id: RefId) | Body(id: RefId) | MetaPart(id: RefId) | Meta(id: RefId) {
    predicate IsBodyKind() {
      BodyPart? || Body?
    }
  }

  /** Only a part and the final name it was published under may share an inode. */
  predicate SameFile(p: Path, q: Path) {
    p.id == q.id && (p.IsBodyKind() <==> q.IsBodyKind())
  }

  /** Directory entries are inode numbers, and inodes are numbered in order of creation. */
  type Dir = map<Path, nat>
  type Inodes = seq<Bytes>

  ghost predicate DirOk(dir: Dir, data: Inodes) {
    && (forall p :: p in dir ==> dir[p] < |data|)
    && (forall p, q :: p in dir && q in dir && dir[p] == dir[q] ==> SameFile(p, q))
  }

  // ---------------------------------------------------------------- retained bytes

  /** Bytes stored in the chosen inodes, each counted once. */
  function Stored(data: Inodes, chosen: set<nat>): nat {
    if data == [] then 0
    else
      var last := |data| - 1;
      Stored(data[..last], chosen) + if last in chosen then |data[last]| else 0
  }

  lemma {:induction false} StoredMonotone(data: Inodes, some: set<nat>, more: set<nat>)
    requires forall i :: i in some && i < |data| ==> i in more
    ensures Stored(data, some) <= Stored(data, more)
  {
    if data != [] {
      StoredMonotone(data[..|data| - 1], some, more);
    }
  }

  /** Other inodes may change and new ones may appear without affecting the chosen ones. */
  lemma {:induction false} StoredFrame(data: Inodes, data': Inodes, chosen: set<nat>)
    requires |data| <= |data'|
    requires forall i :: i in chosen ==> i < |data| && data'[i] == data[i]
    ensures Stored(data', chosen) == Stored(data, chosen)
    decreases |data'|
  {
    if data' != [] {
      var last := |data'| - 1;
      if |data| == |data'| {
        StoredFrame(data[..last], data'[..last], chosen - {last});
        StoredBelow(data[..last], chosen, last);
        StoredBelow(data'[..last], chosen, last);
      } else {
        StoredFrame(data, data'[..last], chosen);
      }
    }
  }

  /** Inode numbers at or beyond the end do not count. */
  lemma {:induction false} StoredBelow(data: Inodes, chosen: set<nat>, n: nat)
    requires |data| <= n
    ensures Stored(data, chosen) == Stored(data, chosen - {n})
  {
    if data != [] {
      StoredBelow(data[..|data| - 1], chosen, n);
    }
  }

  lemma {:induction false} StoredAdd(data: Inodes, chosen: set<nat>, i: nat)
    requires i !in chosen && i < |data|
    ensures Stored(data, chosen + {i}) == Stored(data, chosen) + |data[i]|
  {
    var last := |data| - 1;
    if i == last {
      StoredBelow(data[..last], chosen + {i}, i);
      assert chosen + {i} - {i} == chosen;
    } else {
      StoredAdd(data[..last], chosen, i);
    }
  }

  lemma {:induction false} StoredNothing(data: Inodes)
    ensures Stored(data, {}) == 0
  {
    if data != [] {
      StoredNothing(data[..|data| - 1]);
    }
  }

  lemma StoredPair(data: Inodes, chosen: set<nat>, i: nat, j: nat)
    requires i < |data| && j < |data| && chosen <= {i, j}
    ensures Stored(data, chosen) <= |data[i]| + if i == j then 0 else |data[j]|
  {
    StoredMonotone(data, chosen, {i, j});
    StoredNothing(data);
    StoredAdd(data, {}, i);
    assert {} + {i} == {i};
    if i != j {
      StoredAdd(data, {i}, j);
      assert {i} + {j} == {i, j};
    } else {
      assert {i, j} == {i};
    }
  }

  // ---------------------------------------------------------------- hard-link-aware measurement

  /** A leftover part that is only another name of a complete pair retains nothing of its own. */
  predicate AliasesCommittedPair(dir: Dir, p: Path) {
    match p
    case BodyPart(id) => p in dir && Body(id) in dir && Meta(id) in dir && dir[p] == dir[Body(id)]
    case MetaPart(id) => p in dir && Body(id) in dir && Meta(id) in dir && dir[p] == dir[Meta(id)]
    case _ => false
  }

  /** The inodes that the given names keep alive beyond complete pairs. */
  ghost function Retained(dir: Dir, paths: seq<Path>): set<nat> {
    set p | p in paths && p in dir
          && !(exists q :: q in paths && q in dir && dir[q] == dir[p] && AliasesCommittedPair(dir, q)) :: dir[p]
  }

  ghost function RetainedBytes(dir: Dir, data: Inodes, paths: seq<Path>): nat {
    Stored(data, Retained(dir, paths))
  }

  datatype IdentityGroup = IdentityGroup(handle: nat, bytes: nat, owned: bool)

  ghost predicate GroupsOf(groups: seq<IdentityGroup>, dir: Dir, data: Inodes, paths: seq<Path>) {
    && (forall p :: p in paths ==> p in dir && dir[p] < |data|)
    && (forall i, j :: 0 <= i < j < |groups| ==> groups[i].handle != groups[j].handle)
    && (forall p :: p in paths ==> Covered(groups, dir[p]))
    && (forall i :: 0 <= i < |groups| ==> GroupFaithful(groups[i], dir, data, paths))
  }

  ghost predicate Covered(groups: seq<IdentityGroup>, handle: nat) {
    exists i :: 0 <= i < |groups| && groups[i].handle == handle
  }

  ghost predicate GroupFaithful(g: IdentityGroup, dir: Dir, data: Inodes, paths: seq<Path>) {
    && g.handle < |data| && g.bytes == |data[g.handle]|
    && (exists p :: p in paths && p in dir && dir[p] == g.handle)
    && (g.owned <==> exists q :: q in paths && q in dir && dir[q] == g.handle && AliasesCommittedPair(dir, q))
  }

  ghost function UnownedHandles(groups: seq<IdentityGroup>): set<nat> {
    set i | 0 <= i < |groups| && !groups[i].owned :: groups[i].handle
  }

  function UnownedBytes(groups: seq<IdentityGroup>): nat {
    if groups == [] then 0
    else
      var last := groups[|groups| - 1];
      UnownedBytes(groups[..|groups| - 1]) + if last.owned then 0 else last.bytes
  }

  lemma {:induction false} UnownedBytesAreStored(groups: seq<IdentityGroup>, data: Inodes)
    requires forall i, j :: 0 <= i < j < |groups| ==> groups[i].handle != groups[j].handle
    requires forall i :: 0 <= i < |groups| ==> groups[i].handle < |data| && groups[i].bytes == |data[groups[i].handle]|
    ensures UnownedBytes(groups) == Stored(data, UnownedHandles(groups))
    decreases |groups|
  {
    if groups == [] {
      assert UnownedHandles(groups) == {};
      StoredNothing(data);
    } else {
      var init, last := groups[..|groups| - 1], groups[|groups| - 1];
      UnownedBytesAreStored(init, data);
      if last.owned {
        assert UnownedHandles(groups) == UnownedHandles(init);
      } else {
        assert UnownedHandles(groups) == UnownedHandles(init) + {last.handle};
        StoredAdd(data, UnownedHandles(init), last.handle);
      }
    }
  }

  lemma UnownedAreRetained(groups: seq<IdentityGroup>, dir: Dir, data: Inodes, paths: seq<Path>)
    requires GroupsOf(groups, dir, data, paths)
    ensures UnownedHandles(groups) == Retained(dir, paths)
  {
    forall h | h in UnownedHandles(groups)
      ensures h in Retained(dir, paths)
    {
      var i :| 0 <= i < |groups| && !groups[i].owned && groups[i].handle == h;
      assert GroupFaithful(groups[i], dir, data, paths);
    }
    forall h | h in Retained(dir, paths)
      ensures h in UnownedHandles(groups)
    {
      var p :| p in paths && p in dir && dir[p] == h;
      assert Covered(groups, dir[p]);
      var i :| 0 <= i < |groups| && groups[i].handle == dir[p];
      assert GroupFaithful(groups[i], dir, data, paths);
    }
  }

  /** Group the leftover names by file identity and add up what no complete pair owns. A name
      that cannot be inspected makes the measurement fail. */
  method MeasureRemainingDebt(dir: Dir, data: Inodes, paths: seq<Path>) returns (r: Option<nat>)
    requires DirOk(dir, data)
    ensures r == if forall p :: p in paths ==> p in dir then Some(RetainedBytes(dir, data, paths)) else None
  {
    var groups: seq<IdentityGroup> := [];
    var n := 0;
    while n < |paths|
      invariant 0 <= n <= |paths|
      invariant GroupsOf(groups, dir, data, paths[..n])
    {
      var path := paths[n];
      if path !in dir {
        return None;
      }
      groups := AddToGroups(groups, dir, data, paths[..n], path);
      assert paths[..n] + [path] == paths[..n + 1];
      n := n + 1;
    }
    assert paths[..n] == paths;
    UnownedBytesAreStored(groups, data);
    UnownedAreRetained(groups, dir, data, paths);
    r := Some(UnownedBytes(groups));
  }

  method AddToGroups(groups: seq<IdentityGroup>, dir: Dir, data: Inodes, ghost before: seq<Path>, path: Path)
    returns (groups': seq<IdentityGroup>)
    requires DirOk(dir, data) && path in dir && GroupsOf(groups, dir, data, before)
    ensures GroupsOf(groups', dir, data, before + [path])
  {
    var handle, owned := dir[path], AliasesCommittedPair(dir, path);
    var k := 0;
    while k < |groups| && groups[k].handle != handle
      invariant 0 <= k <= |groups|
      invariant forall i :: 0 <= i < k ==> groups[i].handle != handle
    {
      k := k + 1;
    }
    if k < |groups| {
      GroupJoined(groups, k, dir, data, before, path);
      var bytes := Max(groups[k].bytes, |data[handle]|);
      groups' := groups[k := IdentityGroup(handle, bytes, groups[k].owned || owned)];
    } else {
      GroupStarted(groups, dir, data, before, path);
      groups' := groups + [IdentityGroup(handle, |data[handle]|, owned)];
    }
  }

  lemma FaithfulToMore(g: IdentityGroup, dir: Dir, data: Inodes, before: seq<Path>, path: Path)
    requires GroupFaithful(g, dir, data, before) && path in dir && dir[path] != g.handle
    ensures GroupFaithful(g, dir, data, before + [path])
  {
    var after := before + [path];
    var p :| p in before && p in dir && dir[p] == g.handle;
    assert p in after;
    if g.owned {
      var q :| q in before && q in dir && dir[q] == g.handle && AliasesCommittedPair(dir, q);
      assert q in after;
    }
  }

  lemma GroupJoined(groups: seq<IdentityGroup>, k: nat, dir: Dir, data: Inodes, before: seq<Path>, path: Path)
    requires DirOk(dir, data) && path in dir && GroupsOf(groups, dir, data, before)
    requires k < |groups| && groups[k].handle == dir[path]
    ensures groups[k].bytes == |data[dir[path]]|
    ensures var joined := IdentityGroup(dir[path], |data[dir[path]]|,
                                        groups[k].owned || AliasesCommittedPair(dir, path));
            GroupsOf(groups[k := joined], dir, data, before + [path])
  {
    assert GroupFaithful(groups[k], dir, data, before);
    var joined := IdentityGroup(dir[path], |data[dir[path]]|, groups[k].owned || AliasesCommittedPair(dir, path));
    var groups', after := groups[k := joined], before + [path];
    JoinedIsFaithful(groups[k], dir, data, before, path);
    forall i | 0 <= i < |groups'|
      ensures GroupFaithful(groups'[i], dir, data, after)
    {
      if i != k {
        FaithfulToMore(groups[i], dir, data, before, path);
      }
    }
    forall p | p in after
      ensures Covered(groups', dir[p])
    {
      assert groups'[k].handle == dir[path];
      if p in before {
        assert Covered(groups, dir[p]);
        var i :| 0 <= i < |groups| && groups[i].handle == dir[p];
        assert groups'[i].handle == dir[p];
      }
    }
  }

  lemma JoinedIsFaithful(g: IdentityGroup, dir: Dir, data: Inodes, before: seq<Path>, path: Path)
    requires GroupFaithful(g, dir, data, before) && path in dir && dir[path] == g.handle
    ensures GroupFaithful(g.(owned := g.owned || AliasesCommittedPair(dir, path)), dir, data, before + [path])
  {
    var after := before + [path];
    assert path in after;
    if g.owned {
      var q :| q in before && q in dir && dir[q] == g.handle && AliasesCommittedPair(dir, q);
      assert q in after;
    }
  }

  lemma GroupStarted(groups: seq<IdentityGroup>, dir: Dir, data: Inodes, before: seq<Path>, path: Path)
    requires DirOk(dir, data) && path in dir && GroupsOf(groups, dir, data, before)
    requires forall i :: 0 <= i < |groups| ==> groups[i].handle != dir[path]
    ensures var started := IdentityGroup(dir[path], |data[dir[path]]|, AliasesCommittedPair(dir, path));
            GroupsOf(groups + [started], dir, data, before + [path])
  {
    var started := IdentityGroup(dir[path], |data[dir[path]]|, AliasesCommittedPair(dir, path));
    var groups', after := groups + [started], before + [path];
    assert path in after;
    assert GroupFaithful(started, dir, data, after) by {
      forall q | q in before
        ensures dir[q] != dir[path]
      {
        assert Covered(groups, dir[q]);
      }
    }
    forall i | 0 <= i < |groups'|
      ensures GroupFaithful(groups'[i], dir, data, after)
    {
      if i < |groups| {
        FaithfulToMore(groups[i], dir, data, before, path);
      }
    }
    forall p | p in after
      ensures Covered(groups', dir[p])
    {
      assert groups'[|groups|].handle == dir[path];
      if p in before {
        assert Covered(groups, dir[p]);
        var i :| 0 <= i < |groups| && groups[i].handle == dir[p];
        assert groups'[i].handle == dir[p];
      }
    }
  }
}
