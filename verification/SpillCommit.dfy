/**
 A spill that meets no failure commits: from every reachable ready state in which its bytes and its
 metadata fit the budget and its id is unused, the protocol can publish exactly that pair.
 */
module SpillCommit {
  import opened Common
  import opened SpillFiles
  import opened SpillStore
  import opened SpillTheorems
  import opened SpillContinuation

  /** What is to be spilled, and under which id. */
  datatype Job = Job(id: RefId, body: Bytes, meta: Bytes)

  /** There is room for the job, nobody uses its id, and no retry is under way. */
  ghost predicate Fits(t: State, job: Job) {
    && t.ready && t.retry.None? && (forall p :: p in t.dir ==> p.id != job.id)
    && t.active + t.debt + |job.body| + |job.meta| <= t.cap
  }

  /** The rest of the store is as it was. */
  ghost predicate SameRest(t: State, u: State) {
    && u.ready == t.ready && u.retry == t.retry && u.cap == t.cap && u.debt == t.debt && u.orphans == t.orphans
  }

  /** The store as it was, with one more writer, its files and its names; nothing is published yet. */
  ghost predicate On(t: State, u: State, dir: Dir, files: seq<Bytes>, x: Writer) {
    && SameRest(t, u) && u.published == t.published && u.active == t.active + x.reserved
    && u.dir == dir && u.data == t.data + files && u.writers == t.writers + [x]
  }

  /** The spill's writer with its body streamed. */
  function Streamed(t: State, job: Job, meta: nat, metaBytes: Bytes, stage: Stage): Writer {
    Writer(job.id, |t.data|, job.body, meta, metaBytes, |job.body| + |metaBytes|, stage)
  }

  function Empty(t: State, job: Job, stage: Stage): Writer {
    Writer(job.id, |t.data|, [], 0, [], 0, stage)
  }

  function PartDir(t: State, job: Job): Dir {
    t.dir[BodyPart(job.id) := |t.data|]
  }

  function BodyDir(t: State, job: Job): Dir {
    PartDir(t, job)[Body(job.id) := |t.data|]
  }

  function MetaDir(t: State, job: Job): Dir {
    BodyDir(t, job)[MetaPart(job.id) := |t.data| + 1]
  }

  // ---------------------------------------------------------------- step by step

  lemma Claims(s: State, t: State, job: Job) returns (u: State)
    requires Reaches(s, t) && Fits(t, job)
    ensures Reaches(s, u) && On(t, u, PartDir(t, job), [[]], Empty(t, job, Checking(0)))
  {
    u := AfterClaim(t, job.id);
    Claiming(s, t, job.id);
  }

  lemma Looks(s: State, t: State, job: Job, absent: nat, v: State) returns (u: State)
    requires Fits(t, job) && absent < 3
    requires Reaches(s, v) && On(t, v, PartDir(t, job), [[]], Empty(t, job, Checking(absent)))
    ensures Reaches(s, u)
    ensures On(t, u, PartDir(t, job), [[]], Empty(t, job, if absent < 2 then Checking(absent + 1) else Streaming))
  {
    u := AfterLook(v, |t.writers|);
    LookingOn(s, v, |t.writers|);
  }

  lemma Writes(s: State, t: State, job: Job, v: State) returns (u: State)
    requires Fits(t, job) && Reaches(s, v) && On(t, v, PartDir(t, job), [[]], Empty(t, job, Streaming))
    ensures Reaches(s, u) && On(t, u, PartDir(t, job), [[]], Streamed(t, job, 0, [], Streaming))
  {
    u := AfterWrite(v, |t.writers|, job.body);
    assert [] + job.body == job.body;
    Writing(s, v, |t.writers|, job.body);
  }

  lemma Lands(s: State, t: State, job: Job, v: State) returns (u: State)
    requires Reaches(s, v) && On(t, v, PartDir(t, job), [[]], Streamed(t, job, 0, [], Streaming))
    ensures Reaches(s, u) && On(t, u, PartDir(t, job), [job.body], Streamed(t, job, 0, [], Streaming))
  {
    var w, n := |t.writers|, |job.body|;
    u := AfterLand(v, w, n);
    assert job.body[..n] == job.body;
    ReachesOn(s, v, Land(w, n), u);
  }

  lemma Flushes(s: State, t: State, job: Job, v: State) returns (u: State)
    requires Reaches(s, v) && On(t, v, PartDir(t, job), [job.body], Streamed(t, job, 0, [], Streaming))
    ensures Reaches(s, u) && On(t, u, PartDir(t, job), [job.body], Streamed(t, job, 0, [], Flushed))
  {
    u := AfterFlush(v, |t.writers|);
    ReachesOn(s, v, Flush(|t.writers|), u);
  }

  lemma LinksBody(s: State, t: State, job: Job, v: State) returns (u: State)
    requires Fits(t, job)
    requires Reaches(s, v) && On(t, v, PartDir(t, job), [job.body], Streamed(t, job, 0, [], Flushed))
    ensures Reaches(s, u) && On(t, u, BodyDir(t, job), [job.body], Streamed(t, job, 0, [], BodyLinked))
  {
    u := AfterLinkBody(v, |t.writers|);
    ReachesOn(s, v, LinkBody(|t.writers|), u);
  }

  lemma ReservesMeta(s: State, t: State, job: Job, v: State) returns (u: State)
    requires Fits(t, job)
    requires Reaches(s, v) && On(t, v, BodyDir(t, job), [job.body], Streamed(t, job, 0, [], BodyLinked))
    ensures Reaches(s, u) && On(t, u, BodyDir(t, job), [job.body], Streamed(t, job, 0, job.meta, MetaReserved))
  {
    u := AfterReserveMeta(v, |t.writers|, job.meta);
    ReachesOn(s, v, ReserveMeta(|t.writers|, job.meta), u);
  }

  lemma OpensMeta(s: State, t: State, job: Job, v: State) returns (u: State)
    requires Fits(t, job)
    requires Reaches(s, v) && On(t, v, BodyDir(t, job), [job.body], Streamed(t, job, 0, job.meta, MetaReserved))
    ensures Reaches(s, u)
    ensures On(t, u, MetaDir(t, job), [job.body, []], Streamed(t, job, |t.data| + 1, job.meta, MetaOpen))
  {
    u := AfterOpenMeta(v, |t.writers|);
    assert (t.data + [job.body]) + [[]] == t.data + [job.body, []];
    ReachesOn(s, v, OpenMeta(|t.writers|), u);
  }

  lemma LandsMeta(s: State, t: State, job: Job, v: State) returns (u: State)
    requires Reaches(s, v)
    requires On(t, v, MetaDir(t, job), [job.body, []], Streamed(t, job, |t.data| + 1, job.meta, MetaOpen))
    ensures Reaches(s, u)
    ensures On(t, u, MetaDir(t, job), [job.body, job.meta], Streamed(t, job, |t.data| + 1, job.meta, MetaOpen))
  {
    var w, n := |t.writers|, |job.meta|;
    u := AfterLandMeta(v, w, n);
    assert job.meta[..n] == job.meta;
    ReachesOn(s, v, LandMeta(w, n), u);
  }

  lemma FlushesMeta(s: State, t: State, job: Job, v: State) returns (u: State)
    requires Reaches(s, v)
    requires On(t, v, MetaDir(t, job), [job.body, job.meta], Streamed(t, job, |t.data| + 1, job.meta, MetaOpen))
    ensures Reaches(s, u)
    ensures On(t, u, MetaDir(t, job), [job.body, job.meta], Streamed(t, job, |t.data| + 1, job.meta, MetaFlushed))
  {
    u := AfterFlushMeta(v, |t.writers|);
    ReachesOn(s, v, FlushMeta(|t.writers|), u);
  }

  /** The pair is published, and these aliases are left. */
  ghost predicate Published(t: State, u: State, job: Job, dir: Dir, todo: seq<Path>) {
    && SameRest(t, u) && u.published == t.published[job.id := Pair(job.body, job.meta)]
    && u.dir == dir && u.data == t.data + [job.body, job.meta]
    && u.active == t.active + |job.body| + |job.meta|
    && u.writers == t.writers + [Streamed(t, job, |t.data| + 1, job.meta, Committed(todo))]
  }

  lemma LinksMeta(s: State, t: State, job: Job, v: State) returns (u: State)
    requires Fits(t, job) && Reaches(s, v)
    requires On(t, v, MetaDir(t, job), [job.body, job.meta], Streamed(t, job, |t.data| + 1, job.meta, MetaFlushed))
    ensures Reaches(s, u)
    ensures Published(t, u, job, MetaDir(t, job)[Meta(job.id) := |t.data| + 1], [BodyPart(job.id), MetaPart(job.id)])
  {
    u := AfterLinkMeta(v, |t.writers|);
    ReachesOn(s, v, LinkMeta(|t.writers|), u);
  }

  lemma UnlinksAlias(s: State, t: State, job: Job, dir: Dir, todo: seq<Path>, v: State) returns (u: State)
    requires todo != [] && Reaches(s, v) && Published(t, v, job, dir, todo)
    ensures Reaches(s, u) && Published(t, u, job, dir - {todo[0]}, todo[1..])
  {
    u := AfterUnlinkAlias(v, |t.writers|, true);
    ReachesOn(s, v, UnlinkAlias(|t.writers|, true), u);
  }

  lemma Finishes(s: State, t: State, job: Job, dir: Dir, v: State) returns (u: State)
    requires Fits(t, job) && Reaches(s, v) && Published(t, v, job, dir, [])
    ensures Reaches(s, u) && IsDone(t, u, job, dir)
  {
    u := AfterFinishSpill(v, |t.writers|);
    ReachesOn(s, v, FinishSpill(|t.writers|), u);
  }

  /** The store as it was, with the pair. */
  ghost predicate IsDone(t: State, u: State, job: Job, dir: Dir) {
    && SameRest(t, u) && u.published == t.published[job.id := Pair(job.body, job.meta)]
    && u.dir == dir && u.data == t.data + [job.body, job.meta] && u.active == t.active
  }

  // ---------------------------------------------------------------- all together

  lemma Streams(s: State, t: State, job: Job) returns (u: State)
    requires Reaches(s, t) && Fits(t, job)
    ensures Reaches(s, u) && On(t, u, PartDir(t, job), [job.body], Streamed(t, job, 0, [], Flushed))
  {
    u := Claims(s, t, job);
    u := Looks(s, t, job, 0, u);
    u := Looks(s, t, job, 1, u);
    u := Looks(s, t, job, 2, u);
    u := Writes(s, t, job, u);
    u := Lands(s, t, job, u);
    u := Flushes(s, t, job, u);
  }

  lemma Publishes(s: State, t: State, job: Job, v: State) returns (u: State)
    requires Fits(t, job)
    requires Reaches(s, v) && On(t, v, PartDir(t, job), [job.body], Streamed(t, job, 0, [], Flushed))
    ensures Reaches(s, u)
    ensures Published(t, u, job, MetaDir(t, job)[Meta(job.id) := |t.data| + 1], [BodyPart(job.id), MetaPart(job.id)])
  {
    u := LinksBody(s, t, job, v);
    u := ReservesMeta(s, t, job, u);
    u := OpensMeta(s, t, job, u);
    u := LandsMeta(s, t, job, u);
    u := FlushesMeta(s, t, job, u);
    u := LinksMeta(s, t, job, u);
  }

  lemma CleansUp(s: State, t: State, job: Job, dir: Dir, v: State) returns (u: State)
    requires Fits(t, job) && Reaches(s, v) && Published(t, v, job, dir, [BodyPart(job.id), MetaPart(job.id)])
    ensures Reaches(s, u) && IsDone(t, u, job, dir - {BodyPart(job.id)} - {MetaPart(job.id)})
  {
    var todo := [BodyPart(job.id), MetaPart(job.id)];
    u := UnlinksAlias(s, t, job, dir, todo, v);
    assert todo[1..] == [MetaPart(job.id)] && todo[1..][1..] == [];
    u := UnlinksAlias(s, t, job, dir - {BodyPart(job.id)}, todo[1..], u);
    u := Finishes(s, t, job, dir - {BodyPart(job.id)} - {MetaPart(job.id)}, u);
  }

  lemma PairIsLeft(t: State, job: Job)
    requires forall p :: p in t.dir ==> p.id != job.id
    ensures MetaDir(t, job)[Meta(job.id) := |t.data| + 1] - {BodyPart(job.id)} - {MetaPart(job.id)}
         == t.dir[Body(job.id) := |t.data|][Meta(job.id) := |t.data| + 1]
  {
  }

  /**
   From every reachable ready state with room for it, a spill under an unused id can publish exactly its
   bytes and its metadata, leaving its two final names and the rest of the store as it was.
   */
  lemma SpillCanCommit(states: seq<State>, steps: seq<Step>, i: nat, job: Job) returns (u: State)
    requires IsRun(states, steps) && i < |states| && Fits(states[i], job)
    ensures Reaches(states[i], u)
    ensures IsDone(states[i], u, job,
                   states[i].dir[Body(job.id) := |states[i].data|][Meta(job.id) := |states[i].data| + 1])
  {
    u := Completes(states[i], job);
  }

  lemma Completes(t: State, job: Job) returns (u: State)
    requires Fits(t, job)
    ensures Reaches(t, u)
    ensures IsDone(t, u, job, t.dir[Body(job.id) := |t.data|][Meta(job.id) := |t.data| + 1])
  {
    ReachesItself(t);
    u := Streams(t, t, job);
    u := Publishes(t, t, job, u);
    u := CleansUp(t, t, job, MetaDir(t, job)[Meta(job.id) := |t.data| + 1], u);
    PairIsLeft(t, job);
  }
}
