/**
 The budget object of the spill manager, in 64-bit arithmetic: reservation, settlement and the
 demand-driven retry of orphan groups. All its methods run under the manager's mutex.
 */
module SpillBudget {
  import opened Common
  import opened SpillFiles
  import SpillStore
  import SpillAccounts

  const U64_MAX: nat := 0xFFFF_FFFF_FFFF_FFFF
  type u64 = n: int | 0 <= n <= U64_MAX

  const ORPHAN_RETRIES_PER_SPILL: nat := 16
  const ORPHAN_RETRY_MAX_DELAY_SECS: nat := 300

  function CheckedAdd(a: u64, b: u64): Option<u64> {
    if a + b > U64_MAX then None else Some(a + b)
  }

  function SaturatingAdd(a: u64, b: u64): u64 {
    if a + b > U64_MAX then U64_MAX else a + b
  }

  function SaturatingSub(a: u64, b: u64): u64 {
    if a < b then 0 else a - b
  }

  function Power2(n: nat): nat {
    if n == 0 then 1 else 2 * Power2(n - 1)
  }

  /** Seconds to wait after a failed delete: doubling from one second, capped at five minutes. */
  function OrphanRetryDelay(failedAttempts: nat): (secs: nat)
    ensures 1 <= secs <= ORPHAN_RETRY_MAX_DELAY_SECS
  {
    var exponent := if failedAttempts == 0 then 0 else if failedAttempts - 1 < 9 then failedAttempts - 1 else 9;
    var delay := Power2(exponent);
    assert delay >= 1 by { Power2Positive(exponent); }
    if delay < ORPHAN_RETRY_MAX_DELAY_SECS then delay else ORPHAN_RETRY_MAX_DELAY_SECS
  }

  lemma {:induction false} Power2Positive(n: nat)
    ensures Power2(n) >= 1
  {
    if n > 0 {
      Power2Positive(n - 1);
    }
  }

  lemma {:induction false} Power2Grows(m: nat, n: nat)
    requires m <= n
    ensures Power2(m) <= Power2(n)
    decreases n
  {
    if m < n {
      Power2Grows(m, n - 1);
      Power2Positive(n - 1);
    }
  }

  /** The first delay is one second, and every further failed delete doubles it up to the cap. */
  lemma RetryDelayDoubles(failedAttempts: nat)
    requires failedAttempts >= 1
    ensures OrphanRetryDelay(0) == OrphanRetryDelay(1) == 1
    ensures OrphanRetryDelay(failedAttempts + 1) ==
            if 2 * OrphanRetryDelay(failedAttempts) < ORPHAN_RETRY_MAX_DELAY_SECS
            then 2 * OrphanRetryDelay(failedAttempts)
            else ORPHAN_RETRY_MAX_DELAY_SECS
  {
    assert Power2(3) == 8;
    assert Power2(6) == 64;
    assert Power2(9) == 512;
    if failedAttempts >= 9 {
      Power2Grows(8, if failedAttempts - 1 < 9 then failedAttempts - 1 else 9);
    }
  }

  /** The delays in seconds: 1, 2, 4, 8, 16, 32, 64, 128, 256, and 300 from the tenth failure on. */
  lemma RetryDelayValues(failedAttempts: nat)
    ensures 1 <= failedAttempts <= 9 ==> OrphanRetryDelay(failedAttempts) == Power2(failedAttempts - 1)
    ensures failedAttempts >= 10 ==> OrphanRetryDelay(failedAttempts) == 300
    ensures OrphanRetryDelay(9) == 256
  {
    assert Power2(3) == 8;
    assert Power2(6) == 64;
    assert Power2(9) == 512;
    if failedAttempts <= 9 && failedAttempts >= 1 {
      Power2Grows(failedAttempts - 1, 8);
    }
  }

  datatype OrphanGroup = OrphanGroup(paths: seq<Path>, bytes: u64, failedAttempts: nat, nextRetryAt: nat)

  /** What deleting the names of one group came to: the names that are left and their bytes. */
  datatype Deletion = Deletion(remaining: seq<Path>, bytes: u64)

  function Debt(groups: seq<OrphanGroup>): nat {
    if groups == [] then 0 else groups[0].bytes + Debt(groups[1..])
  }

  lemma {:induction false} DebtOfConcat(a: seq<OrphanGroup>, b: seq<OrphanGroup>)
    ensures Debt(a + b) == Debt(a) + Debt(b)
  {
    if a == [] {
      assert a + b == b;
    } else {
      assert (a + b)[1..] == a[1..] + b;
      DebtOfConcat(a[1..], b);
    }
  }

  /** One group after its turn: untouched when not due, gone when everything was deleted. */
  function Retried(g: OrphanGroup, now: nat, delete: OrphanGroup -> Deletion): seq<OrphanGroup> {
    if g.nextRetryAt > now then [g]
    else
      var d := delete(g);
      if d.remaining == [] then []
      else [OrphanGroup(d.remaining, d.bytes, g.failedAttempts + 1, now + OrphanRetryDelay(g.failedAttempts + 1))]
  }

  function RetriedAll(groups: seq<OrphanGroup>, now: nat, delete: OrphanGroup -> Deletion): seq<OrphanGroup> {
    if groups == [] then []
    else RetriedAll(groups[..|groups| - 1], now, delete) + Retried(groups[|groups| - 1], now, delete)
  }

  /** By how much the groups that had their turn now owe more, or less, than they were charged. */
  function Change(groups: seq<OrphanGroup>, now: nat, delete: OrphanGroup -> Deletion): int {
    if groups == [] then 0
    else
      var g := groups[|groups| - 1];
      Change(groups[..|groups| - 1], now, delete) +
      (if g.nextRetryAt > now then 0
       else (if delete(g).remaining == [] then 0 else delete(g).bytes as int) - g.bytes as int)
  }

  /** A round of retries changes the debt by exactly what the deletions found, in either direction. */
  lemma {:induction false} RetryingChangesDebt(groups: seq<OrphanGroup>, now: nat, delete: OrphanGroup -> Deletion)
    ensures Debt(RetriedAll(groups, now, delete)) == Debt(groups) + Change(groups, now, delete)
    ensures |RetriedAll(groups, now, delete)| <= |groups|
    decreases |groups|
  {
    if groups != [] {
      var init, last := groups[..|groups| - 1], groups[|groups| - 1];
      RetryingChangesDebt(init, now, delete);
      DebtOfConcat(RetriedAll(init, now, delete), Retried(last, now, delete));
      DebtOfConcat(init, [last]);
      assert init + [last] == groups;
    }
  }

  /** Groups of which none turned out larger than its charge add no debt. */
  lemma {:induction false} RetryingNeverAddsDebt(groups: seq<OrphanGroup>, now: nat, delete: OrphanGroup -> Deletion)
    requires forall k :: 0 <= k < |groups| && groups[k].nextRetryAt <= now ==>
            delete(groups[k]).bytes <= groups[k].bytes
    ensures Change(groups, now, delete) <= 0
  {
    if groups != [] {
      RetryingNeverAddsDebt(groups[..|groups| - 1], now, delete);
    }
  }

  /** What the 64-bit counter holds after a saturating addition. */
  function Clamp(n: nat): u64 {
    if n > U64_MAX then U64_MAX else n
  }

  class ProxySpillManager {
    const maxBytes: u64
    var activeBytes: u64
    var orphanDebtBytes: u64
    var orphans: seq<OrphanGroup>
    var inventoryComplete: bool

    /** The counter is exactly what the groups owe. */
    ghost predicate Valid()
      reads this
    {
      orphanDebtBytes == Debt(orphans)
    }

    constructor (maxBytes: u64)
      ensures Valid() && this.maxBytes == maxBytes && activeBytes == 0 && orphans == [] && !inventoryComplete
    {
      this.maxBytes := maxBytes;
      activeBytes, orphanDebtBytes, orphans, inventoryComplete := 0, 0, [], false;
    }

    /** The startup inventory is complete: what could not be removed becomes one group. */
    method CompleteInventory(orphan: Option<OrphanGroup>)
      modifies this`orphanDebtBytes, this`orphans, this`inventoryComplete
      ensures inventoryComplete
      ensures orphans == old(orphans) + if orphan.Some? && !old(inventoryComplete) then [orphan.value] else []
      ensures old(Valid()) ==> orphanDebtBytes == Clamp(Debt(orphans))
    {
      if inventoryComplete {
        return;
      }
      if orphan.Some? {
        DebtOfConcat(orphans, [orphan.value]);
        orphanDebtBytes := SaturatingAdd(orphanDebtBytes, orphan.value.bytes);
        orphans := orphans + [orphan.value];
      }
      inventoryComplete := true;
    }

    /** No spill begins before the inventory is complete; each one first gives the oldest groups a turn. */
    method PrepareSpill(now: nat, delete: OrphanGroup -> Deletion) returns (ok: bool)
      modifies this`orphanDebtBytes, this`orphans
      ensures ok == inventoryComplete
      ensures orphans == AfterTurns(old(orphans), if ok then Turns(old(orphans)) else 0, now, delete)
      ensures old(Valid()) && InRange(old(orphans), now, delete) ==> Valid()
    {
      if !inventoryComplete {
        assert orphans[..0] == [] && orphans[0..] == orphans && orphans + [] == orphans;
        return false;
      }
      RetryOrphans(now, delete);
      ok := true;
    }

    /** Either the whole request fits under the cap together with everything in use, or nothing changes. */
    method Reserve(additionalBytes: u64) returns (ok: bool)
      modifies this`activeBytes
      ensures ok <==> old(activeBytes) + orphanDebtBytes + additionalBytes <= maxBytes
      ensures activeBytes == old(activeBytes) + if ok then additionalBytes else 0
    {
      var used := CheckedAdd(activeBytes, orphanDebtBytes);
      if used.None? {
        return false;
      }
      var requested := CheckedAdd(used.value, additionalBytes);
      if requested.None? || requested.value > maxBytes {
        return false;
      }
      activeBytes := activeBytes + additionalBytes;
      ok := true;
    }

    /** Settle one spill: its reservation is released and its leftovers, if any, become debt. */
    method Finish(reservedBytes: u64, orphan: Option<OrphanGroup>)
      requires reservedBytes <= activeBytes
      modifies this`activeBytes, this`orphanDebtBytes, this`orphans
      ensures activeBytes == old(activeBytes) - reservedBytes
      ensures orphans == old(orphans) + if orphan.Some? then [orphan.value] else []
      ensures old(Valid()) ==> orphanDebtBytes == Clamp(Debt(orphans))
      ensures old(Valid()) && old(activeBytes + orphanDebtBytes) <= U64_MAX
              && (orphan.Some? ==> orphan.value.bytes <= reservedBytes) ==>
                Valid() && activeBytes + orphanDebtBytes <= old(activeBytes + orphanDebtBytes)
    {
      activeBytes := SaturatingSub(activeBytes, reservedBytes);
      if orphan.Some? {
        orphanDebtBytes := SaturatingAdd(orphanDebtBytes, orphan.value.bytes);
        DebtOfConcat(orphans, [orphan.value]);
        orphans := orphans + [orphan.value];
      }
    }

    /** The turn of the oldest group, whatever its deletion leaves. */
    method RetryFirst(now: nat, delete: OrphanGroup -> Deletion)
      requires orphans != []
      modifies this`orphanDebtBytes, this`orphans
      ensures orphans == old(orphans)[1..] + Retried(old(orphans)[0], now, delete)
      ensures old(Valid()) ==> orphanDebtBytes == Clamp(Debt(orphans))
    {
      var orphan := orphans[0];
      orphans := orphans[1..];
      DebtOfConcat(orphans, Retried(orphan, now, delete));
      if orphan.nextRetryAt > now {
        orphans := orphans + [orphan];
        return;
      }
      var d := delete(orphan);
      if d.remaining == [] {
        orphanDebtBytes := SaturatingSub(orphanDebtBytes, orphan.bytes);
        assert orphans + [] == orphans;
      } else {
        orphanDebtBytes := SaturatingAdd(SaturatingSub(orphanDebtBytes, orphan.bytes), d.bytes);
        var attempt := orphan.failedAttempts + 1;
        orphans := orphans + [OrphanGroup(d.remaining, d.bytes, attempt, now + OrphanRetryDelay(attempt))];
      }
    }

    /** Give the oldest groups, at most sixteen, one turn each. The ones that had no turn come first
        afterwards. The debt follows exactly what is left, unless it leaves the 64-bit range on the way. */
    method RetryOrphans(now: nat, delete: OrphanGroup -> Deletion)
      modifies this`orphanDebtBytes, this`orphans
      ensures orphans == AfterTurns(old(orphans), Turns(old(orphans)), now, delete)
      ensures old(Valid()) && InRange(old(orphans), now, delete) ==> Valid()
    {
      var attempts := Turns(orphans);
      ghost var before, exact := orphans, Valid() && InRange(orphans, now, delete);
      assert before[..0] == [] && before[0..] == before && before + [] == before;
      for n := 0 to attempts
        invariant orphans == AfterTurns(before, n, now, delete)
        invariant exact ==> Valid()
      {
        TurnOrder(before, n, now, delete);
        RetryFirst(now, delete);
        assert exact ==> Debt(AfterTurns(before, n + 1, now, delete)) <= U64_MAX;
      }
    }
  }

  /** How many groups get a turn. */
  function Turns(groups: seq<OrphanGroup>): (n: nat)
    ensures n <= |groups|
  {
    if |groups| < ORPHAN_RETRIES_PER_SPILL then |groups| else ORPHAN_RETRIES_PER_SPILL
  }

  /** The queue after its first `n` groups had a turn each. */
  function AfterTurns(groups: seq<OrphanGroup>, n: nat, now: nat, delete: OrphanGroup -> Deletion): seq<OrphanGroup>
    requires n <= |groups|
  {
    groups[n..] + RetriedAll(groups[..n], now, delete)
  }

  /** The debt stays within the 64-bit counter after every turn. */
  ghost predicate InRange(groups: seq<OrphanGroup>, now: nat, delete: OrphanGroup -> Deletion) {
    forall n :: 0 <= n <= Turns(groups) ==> Debt(AfterTurns(groups, n, now, delete)) <= U64_MAX
  }

  /** A group that was not due is left as it is. One that was goes away when all of it was deleted; else it
      comes back with what is left, and waits as long as its failures so far say: after the first for a second. */
  lemma FailedDeleteBacksOff(g: OrphanGroup, now: nat, delete: OrphanGroup -> Deletion)
    ensures g.nextRetryAt > now ==> Retried(g, now, delete) == [g]
    ensures g.nextRetryAt <= now && delete(g).remaining == [] ==> Retried(g, now, delete) == []
    ensures g.nextRetryAt <= now && delete(g).remaining != [] ==>
              && |Retried(g, now, delete)| == 1
              && var left := Retried(g, now, delete)[0];
                 && left.paths == delete(g).remaining && left.bytes == delete(g).bytes
                 && left.failedAttempts == g.failedAttempts + 1
                 && left.nextRetryAt == now + OrphanRetryDelay(left.failedAttempts)
                 && (g.failedAttempts == 0 ==> left.nextRetryAt == now + 1)
  {
    assert Power2(0) == 1;
  }

  /** The group after `n` more failed deletes, each made as soon as it is due. */
  function FailedSince(g: OrphanGroup, n: nat, delete: OrphanGroup -> Deletion): OrphanGroup
    requires forall h: OrphanGroup :: delete(h).remaining != []
  {
    if n == 0 then g
    else
      var before := FailedSince(g, n - 1, delete);
      Retried(before, before.nextRetryAt, delete)[0]
  }

  function Seconds(attempts: nat, n: nat): nat {
    if n == 0 then 0 else Seconds(attempts, n - 1) + OrphanRetryDelay(attempts + n)
  }

  /** A group that cannot be deleted is tried again and again, at the doubling intervals. */
  lemma {:induction false} RetriesGoOn(g: OrphanGroup, n: nat, delete: OrphanGroup -> Deletion)
    requires forall h: OrphanGroup :: delete(h).remaining != []
    ensures FailedSince(g, n, delete).failedAttempts == g.failedAttempts + n
    ensures FailedSince(g, n, delete).nextRetryAt == g.nextRetryAt + Seconds(g.failedAttempts, n)
  {
    if n > 0 {
      RetriesGoOn(g, n - 1, delete);
    }
  }

  /** Every group's turn comes: whoever had none moves up by as many places as had one. */
  lemma TurnsGoRound(groups: seq<OrphanGroup>, now: nat, delete: OrphanGroup -> Deletion, k: nat)
    requires Turns(groups) <= k < |groups|
    ensures k - Turns(groups) < |AfterTurns(groups, Turns(groups), now, delete)|
    ensures AfterTurns(groups, Turns(groups), now, delete)[k - Turns(groups)] == groups[k]
    ensures |groups| > 16 ==> Turns(groups) == 16
  {
  }

  lemma TurnOrder(before: seq<OrphanGroup>, n: nat, now: nat, delete: OrphanGroup -> Deletion)
    requires n < |before|
    ensures var queue := AfterTurns(before, n, now, delete);
            queue != [] && queue[0] == before[n]
            && queue[1..] + Retried(before[n], now, delete) == AfterTurns(before, n + 1, now, delete)
  {
    assert before[..n + 1][..n] == before[..n];
    var done := RetriedAll(before[..n], now, delete);
    assert (before[n..] + done)[1..] == before[n + 1..] + done;
    AppendAssociates(before[n + 1..], done, Retried(before[n], now, delete));
  }

  // ---------------------------------------------------------------- the counter and the protocol

  /** The manager's queue stands for the protocol's orphan groups: same names, same charges, same order. */
  ghost predicate StandsFor(groups: seq<OrphanGroup>, orphans: seq<SpillStore.Orphan>) {
    && |groups| == |orphans|
    && forall k :: 0 <= k < |groups| ==> groups[k].paths == orphans[k].paths && groups[k].bytes == orphans[k].bytes
  }

  /** Then the counter is the protocol's debt. */
  lemma {:induction false} DebtIsOwed(groups: seq<OrphanGroup>, orphans: seq<SpillStore.Orphan>)
    requires StandsFor(groups, orphans)
    ensures Debt(groups) == SpillAccounts.Owed(orphans)
    decreases |groups|
  {
    if groups != [] {
      SpillAccounts.SumsFirst(orphans);
      DebtIsOwed(groups[1..], orphans[1..]);
    }
  }

  /** A turn of a group that is not due is the protocol's postponement. */
  lemma PostponementsAgree(groups: seq<OrphanGroup>, s: SpillStore.State, now: nat, delete: OrphanGroup -> Deletion)
    requires SpillStore.CanPostpone(s) && StandsFor(groups, s.orphans) && groups[0].nextRetryAt > now
    ensures StandsFor(groups[1..] + Retried(groups[0], now, delete), SpillStore.AfterPostpone(s).orphans)
  {
  }

  /** A turn of a group that is due is the protocol's retry, with the deletion its own steps come to. */
  lemma RetriesAgree(groups: seq<OrphanGroup>, first: OrphanGroup, s: SpillStore.State, measured: bool,
                     now: nat, delete: OrphanGroup -> Deletion)
    requires SpillStore.CanEndRetry(s, measured) && StandsFor(groups, s.orphans) && first.nextRetryAt <= now
    requires var r := s.retry.value;
             && delete(first).remaining == r.kept
             && delete(first).bytes == if measured then RetainedBytes(s.dir, s.data, r.kept) else r.bytes
    ensures StandsFor(groups + Retried(first, now, delete), SpillStore.AfterEndRetry(s, measured).orphans)
  {
    var after := SpillStore.AfterEndRetry(s, measured).orphans;
    if s.retry.value.kept != [] {
      var o := after[|after| - 1];
      assert after == s.orphans + [o] && o.paths == delete(first).remaining && o.bytes == delete(first).bytes;
    } else {
      assert groups + [] == groups;
    }
  }

  /** A settled spill adds the same group on both sides. */
  lemma SettlementsAgree(groups: seq<OrphanGroup>, s: SpillStore.State, w: nat, orphan: Option<OrphanGroup>)
    requires SpillStore.CanFinishFailed(s, w) && StandsFor(groups, s.orphans)
    requires var stage := s.writers[w].stage;
             if stage.kept == [] then orphan.None?
             else orphan.Some? && orphan.value.paths == stage.kept && orphan.value.bytes == stage.bytes
    ensures StandsFor(groups + (if orphan.Some? then [orphan.value] else []),
                      SpillStore.AfterFinishFailed(s, w).orphans)
  {
  }
}
