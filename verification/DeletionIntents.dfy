/** How long a deletion intent lasts, confirmed or not, and until when it can be confirmed. */
module DeletionIntents {
  import opened Common
  import opened SessionDeletion

  /** A session can be previewed if and only if its row exists and none of its intents was admitted within the
      last minute. */
  lemma PreviewSucceedsIff(d: Db, session: Id, now: int)
    ensures PreviewSucceeds(d, session, now) <==>
            && session in d.sessions
            && forall t :: t in d.intents && d.intents[t].session == session && d.intents[t].admittedAt.Some? ==>
                 now - d.intents[t].admittedAt.value > 60
  {
    var left := Sweep(d.intents, now);
    assert forall t :: t in left <==> t in d.intents && !Swept(d.intents[t], now);
  }

  /** A preview that succeeds leaves one fresh intent for the session, good for five minutes. */
  lemma PreviewLeavesOneIntent(d: Db, session: Id, token: Token, now: int)
    requires Inv(d) && token !in d.used && PreviewSucceeds(d, session, now)
    ensures var d' := Apply(d, Preview(session, token, now));
            && token in d'.intents && d'.intents[token] == Intent(session, now + 300, None, None)
            && d'.sessions == d.sessions
            && forall t :: t in d'.intents && d'.intents[t].session == session ==> t == token
  {
    StepKeepsInv(d, Preview(session, token, now));
  }

  /** One that fails leaves every intent as it was. */
  lemma FailedPreviewChangesNoIntent(d: Db, session: Id, token: Token, now: int)
    requires !PreviewSucceeds(d, session, now)
    ensures Apply(d, Preview(session, token, now)) == d.(used := d.used + {token})
  {
  }

  /**
   The call takes the intent away: a preview anywhere does once it has expired unconfirmed, or was confirmed
   more than a minute ago; a preview of the same session does while it is unconfirmed; its own cancel does
   until it is marked; and so does the deletion of the row.
   */
  predicate Ends(d: Db, call: Call, token: Token) {
    && token in d.intents
    && var i := d.intents[token];
       match call
       case Preview(session, _, now) =>
         PreviewSucceeds(d, session, now)
         && (if i.admittedAt.Some? then now - i.admittedAt.value > 60 else i.expiresAt < now || i.session == session)
       case Cancel(session, t) => t == token && session == i.session && i.deletedAt.None?
       case Finalize(session, t) => session == i.session && FinalizeSucceeds(d, session, t)
       case _ => false
  }

  lemma IntentAfterCall(d: Db, call: Call, token: Token)
    requires Inv(d) && Enabled(d, call) && token in d.intents
    ensures token in Apply(d, call).intents <==> !Ends(d, call, token)
    ensures token in Apply(d, call).intents ==>
              && Apply(d, call).intents[token].session == d.intents[token].session
              && Apply(d, call).intents[token].expiresAt == d.intents[token].expiresAt
  {
  }

  /** In every run an intent, confirmed or not, is still there at a later moment if and only if no call in
      between took it away. */
  lemma {:induction false} IntentLastsIff(states: seq<Db>, calls: seq<Call>, i: nat, j: nat, token: Token)
    requires IsRun(states, calls) && i <= j < |states| && token in states[i].intents
    ensures token in states[j].intents <==> forall k :: i <= k < j ==> !Ends(states[k], calls[k], token)
    ensures token in states[j].intents ==>
              && states[j].intents[token].session == states[i].intents[token].session
              && states[j].intents[token].expiresAt == states[i].intents[token].expiresAt
    ensures token !in states[j].intents ==> Gone(states[j], token)
    decreases j
  {
    RunKeepsInv(states, calls, i);
    if i < j {
      IntentLastsIff(states, calls, i, j - 1, token);
      RunKeepsInv(states, calls, j - 1);
      assert Follows(states[j - 1], calls[j - 1], states[j - 1 + 1]);
      if token in states[j - 1].intents {
        IntentAfterCall(states[j - 1], calls[j - 1], token);
        StepKeepsInv(states[j - 1], calls[j - 1]);
        UsedGrows(states, calls, j - 1, j);
      } else {
        GoneStaysGone(states[j - 1], calls[j - 1], token);
      }
      OneCallMore(states, calls, i, j, token);
    }
  }

  lemma OneCallMore(states: seq<Db>, calls: seq<Call>, i: nat, j: nat, token: Token)
    requires i < j <= |calls| < |states|
    ensures (forall k :: i <= k < j ==> !Ends(states[k], calls[k], token)) <==>
            (forall k :: i <= k < j - 1 ==> !Ends(states[k], calls[k], token))
            && !Ends(states[j - 1], calls[j - 1], token)
  {
  }

  /** The call may confirm this intent. */
  predicate Confirms(call: Call, token: Token) {
    call.Admit? && call.token == token
  }

  lemma UnconfirmedAfterCall(d: Db, call: Call, token: Token)
    requires Enabled(d, call) && token in d.intents && d.intents[token].admittedAt.None? && !Confirms(call, token)
    requires token in d.used && token in Apply(d, call).intents
    ensures Apply(d, call).intents[token].admittedAt.None?
  {
  }

  lemma {:induction false} StaysUnconfirmed(states: seq<Db>, calls: seq<Call>, i: nat, j: nat, token: Token)
    requires IsRun(states, calls) && i <= j < |states| && token in states[i].intents
    requires states[i].intents[token].admittedAt.None?
    requires forall k :: i <= k < j ==> !Ends(states[k], calls[k], token) && !Confirms(calls[k], token)
    ensures token in states[j].intents && states[j].intents[token].admittedAt.None?
    decreases j
  {
    if i < j {
      StaysUnconfirmed(states, calls, i, j - 1, token);
      IntentLastsIff(states, calls, i, j, token);
      RunKeepsInv(states, calls, j - 1);
      assert Follows(states[j - 1], calls[j - 1], states[j - 1 + 1]);
      UnconfirmedAfterCall(states[j - 1], calls[j - 1], token);
    }
  }

  /**
   As long as nothing took a previewed deletion away and nobody confirmed it before, it can be confirmed if
   and only if no more than five minutes have passed since the preview.
   */
  lemma ConfirmedInTimeIff(states: seq<Db>, calls: seq<Call>, p: nat, j: nat, now: int)
    requires IsRun(states, calls) && p < j < |states| && calls[p].Preview?
    requires PreviewSucceeds(states[p], calls[p].session, calls[p].now)
    requires forall k :: p < k < j ==>
               !Ends(states[k], calls[k], calls[p].token) && !Confirms(calls[k], calls[p].token)
    ensures AdmitSucceeds(states[j], calls[p].session, calls[p].token, now) <==> now - calls[p].now <= 300
  {
    var token := calls[p].token;
    RunKeepsInv(states, calls, p);
    assert Follows(states[p], calls[p], states[p + 1]);
    PreviewLeavesOneIntent(states[p], calls[p].session, token, calls[p].now);
    IntentLastsIff(states, calls, p + 1, j, token);
    StaysUnconfirmed(states, calls, p + 1, j, token);
  }
}
