/**
 Deleting a session row of a brand workspace: preview, admit, mark and finalize, each its own database
 transaction, with cancellations, other sessions and a moving clock in between.
 */
module SessionDeletion {
  import opened Common

  type Id = string
  type Token = nat

  const EXPIRY_SECONDS := 300
  const STALE_SECONDS := 60

  datatype Intent = Intent(session: Id, expiresAt: int, admittedAt: Option<int>, deletedAt: Option<int>)

  /** `used` holds every token ever drawn; tokens are never drawn twice. */
  datatype Db = Db(sessions: set<Id>, intents: map<Token, Intent>, used: set<Token>)

  datatype Call =
    | Commit(session: Id)
    | Preview(session: Id, token: Token, now: int)
    | Admit(session: Id, token: Token, now: int)
    | Cancel(session: Id, token: Token)
    | Mark(session: Id, token: Token, now: int)
    | Finalize(session: Id, token: Token)

  // ---------------------------------------------------------------- the transactions

  /** An unconfirmed preview that ran out, or an admission that went stale. */
  predicate Swept(i: Intent, now: int) {
    match i.admittedAt
    case None => i.expiresAt < now
    case Some(t) => t < now - STALE_SECONDS
  }

  function Sweep(intents: map<Token, Intent>, now: int): map<Token, Intent> {
    map t | t in intents && !Swept(intents[t], now) :: intents[t]
  }

  predicate InProgress(intents: map<Token, Intent>, session: Id) {
    exists t :: t in intents && intents[t].session == session && intents[t].admittedAt.Some?
  }

  function WithoutPreviews(intents: map<Token, Intent>, session: Id): map<Token, Intent> {
    map t | t in intents && !(intents[t].session == session && intents[t].admittedAt.None?) :: intents[t]
  }

  predicate PreviewSucceeds(d: Db, session: Id, now: int) {
    session in d.sessions && !InProgress(Sweep(d.intents, now), session)
  }

  function AfterPreview(d: Db, session: Id, token: Token, now: int): Db {
    if PreviewSucceeds(d, session, now) then
      d.(intents := WithoutPreviews(Sweep(d.intents, now), session)
            [token := Intent(session, now + EXPIRY_SECONDS, None, None)],
         used := d.used + {token})
    else d.(used := d.used + {token})
  }

  predicate Has(d: Db, session: Id, token: Token) {
    token in d.intents && d.intents[token].session == session
  }

  predicate AdmitSucceeds(d: Db, session: Id, token: Token, now: int) {
    Has(d, session, token) && d.intents[token].expiresAt >= now && d.intents[token].admittedAt.None?
  }

  function AfterAdmit(d: Db, session: Id, token: Token, now: int): Db {
    if AdmitSucceeds(d, session, token, now) then
      d.(intents := d.intents[token := d.intents[token].(admittedAt := Some(now), deletedAt := None)])
    else d
  }

  function AfterCancel(d: Db, session: Id, token: Token): Db {
    if Has(d, session, token) && d.intents[token].deletedAt.None? then d.(intents := d.intents - {token}) else d
  }

  predicate MarkSucceeds(d: Db, session: Id, token: Token) {
    Has(d, session, token) && d.intents[token].admittedAt.Some?
  }

  function AfterMark(d: Db, session: Id, token: Token, now: int): Db {
    if MarkSucceeds(d, session, token) then
      d.(intents := d.intents[token := d.intents[token].(deletedAt := Some(now))])
    else d
  }

  predicate FinalizeSucceeds(d: Db, session: Id, token: Token) {
    Has(d, session, token) && d.intents[token].deletedAt.Some? && session in d.sessions
  }

  /** Deleting the row deletes the intents that refer to it. */
  function AfterFinalize(d: Db, session: Id, token: Token): Db {
    if FinalizeSucceeds(d, session, token) then
      d.(sessions := d.sessions - {session},
         intents := map t | t in d.intents && d.intents[t].session != session :: d.intents[t])
    else d
  }

  function Apply(d: Db, call: Call): Db {
    match call
    case Commit(session) => d.(sessions := d.sessions + {session})
    case Preview(session, token, now) => AfterPreview(d, session, token, now)
    case Admit(session, token, now) => AfterAdmit(d, session, token, now)
    case Cancel(session, token) => AfterCancel(d, session, token)
    case Mark(session, token, now) => AfterMark(d, session, token, now)
    case Finalize(session, token) => AfterFinalize(d, session, token)
  }

  /** A preview draws a new token. */
  predicate Enabled(d: Db, call: Call) {
    call.Preview? ==> call.token !in d.used
  }

  // ---------------------------------------------------------------- the invariant

  ghost predicate Inv(d: Db) {
    && (forall t :: t in d.intents ==> t in d.used && d.intents[t].session in d.sessions)
    && (forall t, u :: t in d.intents && u in d.intents && d.intents[t].session == d.intents[u].session ==> t == u)
    && (forall t :: t in d.intents ==>
          var i := d.intents[t];
          && (i.admittedAt.Some? ==> i.admittedAt.value <= i.expiresAt)
          && (i.deletedAt.Some? ==> i.admittedAt.Some?))
  }

  lemma PreviewKeepsInv(d: Db, session: Id, token: Token, now: int)
    requires Inv(d) && token !in d.used
    ensures Inv(AfterPreview(d, session, token, now))
  {
    if PreviewSucceeds(d, session, now) {
      var left := Sweep(d.intents, now);
      assert forall t :: t in left && left[t].session == session ==> left[t].admittedAt.None?;
    }
  }

  lemma StepKeepsInv(d: Db, call: Call)
    requires Inv(d) && Enabled(d, call)
    ensures Inv(Apply(d, call))
  {
    if call.Preview? {
      PreviewKeepsInv(d, call.session, call.token, call.now);
    }
  }

  ghost predicate Follows(d: Db, call: Call, d': Db) {
    Enabled(d, call) && d' == Apply(d, call)
  }

  ghost predicate IsRun(states: seq<Db>, calls: seq<Call>) {
    && |states| == |calls| + 1
    && states[0] == Db({}, map[], {})
    && forall i :: 0 <= i < |calls| ==> Follows(states[i], calls[i], states[i + 1])
  }

  lemma {:induction false} RunKeepsInv(states: seq<Db>, calls: seq<Call>, n: nat)
    requires IsRun(states, calls) && n < |states|
    ensures Inv(states[n])
  {
    if n > 0 {
      RunKeepsInv(states, calls, n - 1);
      assert Follows(states[n - 1], calls[n - 1], states[n - 1 + 1]);
      StepKeepsInv(states[n - 1], calls[n - 1]);
    }
  }

  /** Each session has at most one deletion intent, and only while its row exists. */
  lemma AtMostOneIntent(states: seq<Db>, calls: seq<Call>, n: nat, t: Token, u: Token)
    requires IsRun(states, calls) && n < |states| && t in states[n].intents && u in states[n].intents
    ensures states[n].intents[t].session in states[n].sessions
    ensures states[n].intents[t].session == states[n].intents[u].session ==> t == u
  {
    RunKeepsInv(states, calls, n);
  }

  // ---------------------------------------------------------------- how an intent came about

  /** The preview that wrote an intent. */
  lemma {:induction false} WhenPreviewed(states: seq<Db>, calls: seq<Call>, n: nat, token: Token) returns (p: nat)
    requires IsRun(states, calls) && n < |states| && token in states[n].intents
    ensures p < n && calls[p].Preview? && calls[p].token == token
    ensures calls[p].session == states[n].intents[token].session
    ensures PreviewSucceeds(states[p], calls[p].session, calls[p].now)
    ensures states[n].intents[token].expiresAt == calls[p].now + EXPIRY_SECONDS
    ensures forall k :: p < k <= n ==> token in states[k].intents
    ensures token !in states[p].used
  {
    assert Follows(states[n - 1], calls[n - 1], states[n - 1 + 1]);
    RunKeepsInv(states, calls, n - 1);
    if token in states[n - 1].intents {
      p := WhenPreviewed(states, calls, n - 1, token);
    } else {
      p := n - 1;
    }
  }

  /** The admission of an admitted intent. */
  lemma {:induction false} WhenAdmitted(states: seq<Db>, calls: seq<Call>, n: nat, token: Token, p: nat)
    returns (a: nat)
    requires IsRun(states, calls) && n < |states| && p < n && token !in states[p].used
    requires token in states[n].intents && states[n].intents[token].admittedAt.Some?
    ensures p < a < n
    ensures AdmitSucceeds(states[a], states[n].intents[token].session, token, states[n].intents[token].admittedAt.value)
    ensures calls[a] == Admit(states[n].intents[token].session, token, states[n].intents[token].admittedAt.value)
  {
    assert Follows(states[n - 1], calls[n - 1], states[n - 1 + 1]);
    RunKeepsInv(states, calls, n - 1);
    RunKeepsInv(states, calls, p);
    if token in states[n - 1].intents && states[n - 1].intents[token].admittedAt.Some? {
      a := WhenAdmitted(states, calls, n - 1, token, p);
    } else {
      a := n - 1;
    }
  }

  /** The marking of a marked intent. */
  lemma {:induction false} WhenMarked(states: seq<Db>, calls: seq<Call>, n: nat, token: Token) returns (m: nat)
    requires IsRun(states, calls) && n < |states|
    requires token in states[n].intents && states[n].intents[token].deletedAt.Some?
    ensures m < n && calls[m].Mark? && calls[m].token == token && calls[m].session == states[n].intents[token].session
    ensures token in states[m].intents && states[m].intents[token].admittedAt.Some?
    ensures states[m].intents[token].admittedAt == states[n].intents[token].admittedAt
  {
    assert Follows(states[n - 1], calls[n - 1], states[n - 1 + 1]);
    RunKeepsInv(states, calls, n - 1);
    var i := states[n].intents[token];
    if token in states[n - 1].intents && states[n - 1].intents[token].deletedAt.Some?
       && calls[n - 1] != Mark(i.session, token, i.deletedAt.value) {
      m := WhenMarked(states, calls, n - 1, token);
    } else {
      m := n - 1;
    }
  }

  /**
   A session row disappears only by a finalize call whose token was previewed, then admitted before it
   expired, then marked, in that order and all for this session.
   */
  lemma RowsGoOnlyWhenConfirmed(states: seq<Db>, calls: seq<Call>, n: nat, session: Id)
      returns (token: Token, p: nat, a: nat, m: nat)
    requires IsRun(states, calls) && n < |calls| && session in states[n].sessions && session !in states[n + 1].sessions
    ensures calls[n] == Finalize(session, token) && p < a < m < n
    ensures calls[p].Preview? && calls[p].session == session && calls[p].token == token
    ensures calls[a].Admit? && calls[a].session == session && calls[a].token == token
    ensures AdmitSucceeds(states[a], session, token, calls[a].now) && calls[a].now <= calls[p].now + EXPIRY_SECONDS
    ensures calls[m].Mark? && calls[m].session == session && calls[m].token == token
    ensures MarkSucceeds(states[m], session, token)
  {
    assert Follows(states[n], calls[n], states[n + 1]);
    RunKeepsInv(states, calls, n);
    token := calls[n].token;
    p := WhenPreviewed(states, calls, n, token);
    m := WhenMarked(states, calls, n, token);
    var q := WhenPreviewed(states, calls, m, token);
    OnePreviewPerToken(states, calls, q, p, token);
    a := WhenAdmitted(states, calls, m, token, q);
    RunKeepsInv(states, calls, m);
  }

  lemma {:induction false} UsedGrows(states: seq<Db>, calls: seq<Call>, i: nat, j: nat)
    requires IsRun(states, calls) && i <= j < |states|
    ensures states[i].used <= states[j].used
  {
    if i < j {
      UsedGrows(states, calls, i, j - 1);
      assert Follows(states[j - 1], calls[j - 1], states[j - 1 + 1]);
    }
  }

  lemma OnePreviewPerToken(states: seq<Db>, calls: seq<Call>, p: nat, q: nat, token: Token)
    requires IsRun(states, calls) && p < |calls| && q < |calls|
    requires calls[p].Preview? && calls[q].Preview? && calls[p].token == calls[q].token
    ensures p == q
  {
    assert Follows(states[p], calls[p], states[p + 1]);
    assert Follows(states[q], calls[q], states[q + 1]);
    if p < q {
      UsedGrows(states, calls, p + 1, q);
    } else if q < p {
      UsedGrows(states, calls, q + 1, p);
    }
  }

  // ---------------------------------------------------------------- one admission per token

  ghost predicate Spent(d: Db, token: Token) {
    token in d.used && (token in d.intents ==> d.intents[token].admittedAt.Some?)
  }

  lemma SpentStaysSpent(d: Db, call: Call, token: Token)
    requires Spent(d, token) && Enabled(d, call)
    ensures Spent(Apply(d, call), token)
  {
  }

  lemma {:induction false} SpentForever(states: seq<Db>, calls: seq<Call>, i: nat, j: nat, token: Token)
    requires IsRun(states, calls) && i <= j < |states| && Spent(states[i], token)
    ensures Spent(states[j], token)
  {
    if i < j {
      SpentForever(states, calls, i, j - 1, token);
      assert Follows(states[j - 1], calls[j - 1], states[j - 1 + 1]);
      SpentStaysSpent(states[j - 1], calls[j - 1], token);
    }
  }

  /** A token is admitted at most once, and only while it has not expired. */
  lemma AdmittedOnce(states: seq<Db>, calls: seq<Call>, i: nat, j: nat, token: Token)
    requires IsRun(states, calls) && i < j < |calls|
    requires calls[i].Admit? && calls[i].token == token
    requires AdmitSucceeds(states[i], calls[i].session, token, calls[i].now)
    requires calls[j].Admit? && calls[j].token == token
    ensures !AdmitSucceeds(states[j], calls[j].session, token, calls[j].now)
    ensures states[j + 1] == states[j]
  {
    assert Follows(states[i], calls[i], states[i + 1]);
    assert Follows(states[j], calls[j], states[j + 1]);
    RunKeepsInv(states, calls, i);
    SpentForever(states, calls, i + 1, j, token);
  }

  // ---------------------------------------------------------------- what ends an admission

  /** The intent is marked, or gone for good. */
  ghost predicate MarkedOrGone(d: Db, token: Token) {
    && token in d.used
    && (token in d.intents ==> d.intents[token].admittedAt.Some? && d.intents[token].deletedAt.Some?)
  }

  lemma MarkedStaysMarked(d: Db, call: Call, token: Token)
    requires MarkedOrGone(d, token) && Enabled(d, call)
    ensures MarkedOrGone(Apply(d, call), token)
  {
  }

  /** A cancel with a token that was marked before changes nothing, however much later it comes. */
  lemma CancelAfterMarkIsIdle(states: seq<Db>, calls: seq<Call>, m: nat, n: nat, token: Token)
    requires IsRun(states, calls) && m < n < |calls|
    requires calls[m].Mark? && calls[m].token == token && MarkSucceeds(states[m], calls[m].session, token)
    requires calls[n].Cancel? && calls[n].token == token
    ensures states[n + 1] == states[n]
  {
    RunKeepsInv(states, calls, m);
    assert Follows(states[m], calls[m], states[m + 1]);
    for k := m + 1 to n
      invariant MarkedOrGone(states[k], token)
    {
      assert Follows(states[k], calls[k], states[k + 1]);
      MarkedStaysMarked(states[k], calls[k], token);
    }
    assert Follows(states[n], calls[n], states[n + 1]);
  }

  /** The call takes the admitted intent away. */
  predicate EndsAdmission(d: Db, call: Call, token: Token) {
    && token in d.intents && d.intents[token].admittedAt.Some?
    && var i := d.intents[token];
       match call
       case Preview(session, _, now) => PreviewSucceeds(d, session, now) && i.admittedAt.value < now - STALE_SECONDS
       case Cancel(session, t) => t == token && session == i.session && i.deletedAt.None?
       case Finalize(session, t) => session == i.session && FinalizeSucceeds(d, session, t)
       case _ => false
  }

  lemma AdmissionAfterCall(d: Db, call: Call, token: Token)
    requires Inv(d) && Enabled(d, call) && token in d.intents && d.intents[token].admittedAt.Some?
    ensures token !in Apply(d, call).intents <==> EndsAdmission(d, call, token)
    ensures token in Apply(d, call).intents ==>
              && Apply(d, call).intents[token].admittedAt == d.intents[token].admittedAt
              && Apply(d, call).intents[token].session == d.intents[token].session
              && (d.intents[token].deletedAt.Some? ==> Apply(d, call).intents[token].deletedAt.Some?)
  {
  }

  /** The token was drawn, and its intent is gone. */
  ghost predicate Gone(d: Db, token: Token) {
    token in d.used && token !in d.intents
  }

  /** An admitted intent is still there later in the run if and only if no call in between ended it. */
  lemma {:induction false} AdmissionLastsIff(states: seq<Db>, calls: seq<Call>, i: nat, j: nat, token: Token)
    requires IsRun(states, calls) && i <= j < |states| && token in states[i].intents
    requires states[i].intents[token].admittedAt.Some?
    ensures token in states[j].intents <==> forall k :: i <= k < j ==> !EndsAdmission(states[k], calls[k], token)
    ensures token in states[j].intents ==> states[j].intents[token].admittedAt == states[i].intents[token].admittedAt
    ensures token !in states[j].intents ==> Gone(states[j], token)
  {
    RunKeepsInv(states, calls, i);
    if i < j {
      AdmissionLastsIff(states, calls, i, j - 1, token);
      RunKeepsInv(states, calls, j - 1);
      assert Follows(states[j - 1], calls[j - 1], states[j - 1 + 1]);
      if token in states[j - 1].intents {
        AdmissionAfterCall(states[j - 1], calls[j - 1], token);
        OneMoreCall(states, calls, i, j, token);
      } else {
        GoneStaysGone(states[j - 1], calls[j - 1], token);
      }
    }
  }

  lemma GoneStaysGone(d: Db, call: Call, token: Token)
    requires Gone(d, token) && Enabled(d, call)
    ensures Gone(Apply(d, call), token)
  {
  }

  lemma OneMoreCall(states: seq<Db>, calls: seq<Call>, i: nat, j: nat, token: Token)
    requires i < j <= |calls| < |states|
    requires forall k :: i <= k < j - 1 ==> !EndsAdmission(states[k], calls[k], token)
    ensures (forall k :: i <= k < j ==> !EndsAdmission(states[k], calls[k], token)) <==>
            !EndsAdmission(states[j - 1], calls[j - 1], token)
  {
  }

  /**
   An admitted deletion can be completed as long as nobody cancels it before the mark and no preview in
   the workspace comes more than a minute after the admission.
   */
  lemma {:induction false} AdmissionSurvives(states: seq<Db>, calls: seq<Call>, i: nat, j: nat, token: Token)
    requires IsRun(states, calls) && i <= j < |states| && token in states[i].intents
    requires states[i].intents[token].admittedAt.Some?
    requires forall k :: i <= k < j ==>
               && (calls[k].Preview? ==> calls[k].now <= states[i].intents[token].admittedAt.value + STALE_SECONDS)
               && !(calls[k].Cancel? && calls[k].token == token)
               && !(calls[k].Finalize? && calls[k].session == states[i].intents[token].session)
    ensures token in states[j].intents && states[j].intents[token].admittedAt == states[i].intents[token].admittedAt
    ensures states[j].intents[token].session == states[i].intents[token].session
    ensures states[i].intents[token].deletedAt.Some? ==> states[j].intents[token].deletedAt.Some?
    ensures MarkSucceeds(states[j], states[i].intents[token].session, token)
    ensures states[i].intents[token].deletedAt.Some? ==>
            FinalizeSucceeds(states[j], states[i].intents[token].session, token)
  {
    RunKeepsInv(states, calls, j);
    if i < j {
      AdmissionSurvives(states, calls, i, j - 1, token);
      RunKeepsInv(states, calls, j - 1);
      assert Follows(states[j - 1], calls[j - 1], states[j - 1 + 1]);
      AdmissionAfterCall(states[j - 1], calls[j - 1], token);
    }
  }

  ghost predicate Reachable(d: Db) {
    exists states, calls :: IsRun(states, calls) && states[|states| - 1] == d
  }

  lemma ReachableOn(d: Db, call: Call, d': Db)
    requires Reachable(d) && Follows(d, call, d')
    ensures Reachable(d')
  {
    var states, calls :| IsRun(states, calls) && states[|states| - 1] == d;
    var states', calls' := states + [d'], calls + [call];
    forall i | 0 <= i < |calls'|
      ensures Follows(states'[i], calls'[i], states'[i + 1])
    {
      if i < |calls| {
        assert Follows(states[i], calls[i], states[i + 1]);
      }
    }
    assert IsRun(states', calls');
  }

  /** A deletion of the first of two sessions, admitted at time 0 and marked at time 1. */
  const MARKED := Db({"s", "t"}, map[0 := Intent("s", EXPIRY_SECONDS, Some(0), Some(1))], {0})

  lemma MarkedIsReachable()
    ensures Reachable(MARKED)
  {
    var d0 := Db({}, map[], {});
    assert IsRun([d0], []);
    var d1 := Db({"s"}, map[], {});
    ReachableOn(d0, Commit("s"), d1);
    var d2 := Db({"s", "t"}, map[], {});
    ReachableOn(d1, Commit("t"), d2);
    var d3 := d2.(intents := map[0 := Intent("s", EXPIRY_SECONDS, None, None)], used := {0});
    assert Sweep(d2.intents, 0) == map[];
    ReachableOn(d2, Preview("s", 0, 0), d3);
    var d4 := d2.(intents := map[0 := Intent("s", EXPIRY_SECONDS, Some(0), None)], used := {0});
    ReachableOn(d3, Admit("s", 0, 0), d4);
    ReachableOn(d4, Mark("s", 0, 1), MARKED);
  }

  /** A marked deletion can be lost: in this run a preview of another session, 61 seconds after the
      admission, sweeps it, and the finalize call then leaves the row in place. */
  lemma MarkedDeletionCanBeSwept()
    ensures Reachable(MARKED) && FinalizeSucceeds(MARKED, "s", 0)
    ensures var swept := Apply(MARKED, Preview("t", 1, 61));
            && Reachable(swept) && !FinalizeSucceeds(swept, "s", 0)
            && Apply(swept, Finalize("s", 0)) == swept && "s" in swept.sessions
  {
    MarkedIsReachable();
    var swept := Apply(MARKED, Preview("t", 1, 61));
    assert 0 !in Sweep(MARKED.intents, 61);
    ReachableOn(MARKED, Preview("t", 1, 61), swept);
  }

  /** While an admission is fresh no other preview of its session succeeds. */
  lemma FreshAdmissionExcludesPreviews(d: Db, token: Token, now: int)
    requires token in d.intents && d.intents[token].admittedAt.Some?
    requires now <= d.intents[token].admittedAt.value + STALE_SECONDS
    ensures !PreviewSucceeds(d, d.intents[token].session, now)
  {
    assert token in Sweep(d.intents, now);
  }

  /** The four calls in order delete the row and leave no intent for it. */
  lemma ConfirmedDeletionCompletes(d: Db, session: Id, token: Token, t0: int, t1: int, t2: int)
    requires Inv(d) && token !in d.used && PreviewSucceeds(d, session, t0) && t1 <= t0 + EXPIRY_SECONDS
    ensures var d1 := AfterPreview(d, session, token, t0);
            var d2 := AfterAdmit(d1, session, token, t1);
            var d3 := AfterMark(d2, session, token, t2);
            var d4 := AfterFinalize(d3, session, token);
            d4.sessions == d.sessions - {session} && forall t :: t in d4.intents ==> d4.intents[t].session != session
  {
  }

  // ---------------------------------------------------------------- the store object

  datatype Outcome = Done | NoSuchSession | DeletionInProgress | ConfirmationExpired | NotAdmitted
                   | TranscriptNotDeleted

  class BrandWorkspaceStore {
    var sessions: set<Id>
    var intents: map<Token, Intent>
    ghost var used: set<Token>

    ghost function Now(): Db reads this {
      Db(sessions, intents, used)
    }

    constructor ()
      ensures Now() == Db({}, map[], {})
    {
      sessions, intents, used := {}, map[], {};
    }

    method CommitSession(session: Id)
      modifies this`sessions
      ensures Now() == Apply(old(Now()), Commit(session))
    {
      sessions := sessions + {session};
    }

    /** The sweep and the replacement become visible together, or not at all. */
    method PreviewSessionDeletion(session: Id, token: Token, now: int) returns (r: Outcome)
      modifies this
      ensures Now() == Apply(old(Now()), Preview(session, token, now))
      ensures r == (if session !in sessions then NoSuchSession
                    else if PreviewSucceeds(old(Now()), session, now) then Done else DeletionInProgress)
    {
      used := used + {token};
      if session !in sessions {
        return NoSuchSession;
      }
      var transaction := Sweep(intents, now);
      if InProgress(transaction, session) {
        return DeletionInProgress;
      }
      transaction := WithoutPreviews(transaction, session);
      transaction := transaction[token := Intent(session, now + EXPIRY_SECONDS, None, None)];
      intents := transaction;
      r := Done;
    }

    method AdmitSessionDeletion(session: Id, token: Token, now: int) returns (r: Outcome)
      modifies this`intents
      ensures Now() == Apply(old(Now()), Admit(session, token, now))
      ensures r == if AdmitSucceeds(old(Now()), session, token, now) then Done else ConfirmationExpired
    {
      if token !in intents {
        return ConfirmationExpired;
      }
      var i := intents[token];
      if i.session != session || i.expiresAt < now || i.admittedAt.Some? {
        return ConfirmationExpired;
      }
      intents := intents[token := Intent(i.session, i.expiresAt, Some(now), None)];
      r := Done;
    }

    method CancelSessionDeletionAdmission(session: Id, token: Token)
      modifies this`intents
      ensures Now() == Apply(old(Now()), Cancel(session, token))
    {
      if token in intents && intents[token].session == session && intents[token].deletedAt.None? {
        intents := intents - {token};
      }
    }

    method MarkSessionTranscriptDeleted(session: Id, token: Token, now: int) returns (r: Outcome)
      modifies this`intents
      ensures Now() == Apply(old(Now()), Mark(session, token, now))
      ensures r == if MarkSucceeds(old(Now()), session, token) then Done else NotAdmitted
    {
      if token !in intents || intents[token].session != session || intents[token].admittedAt.None? {
        return NotAdmitted;
      }
      intents := intents[token := intents[token].(deletedAt := Some(now))];
      r := Done;
    }

    method FinalizeSessionDeletion(session: Id, token: Token) returns (r: Outcome)
      modifies this
      ensures Now() == Apply(old(Now()), Finalize(session, token))
      ensures r == Done <==> FinalizeSucceeds(old(Now()), session, token)
      ensures r in {Done, TranscriptNotDeleted, NoSuchSession}
      ensures r == NoSuchSession ==> session !in sessions
    {
      if token !in intents || intents[token].session != session || intents[token].deletedAt.None? {
        return TranscriptNotDeleted;
      }
      if session !in sessions {
        return NoSuchSession;
      }
      sessions := sessions - {session};
      intents := map t | t in intents && intents[t].session != session :: intents[t];
      r := Done;
    }
  }
}
