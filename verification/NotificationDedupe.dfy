/**
 Bounded deduplication of deliveries and clicks, and the one click kept for a renderer that is not
 listening yet.
 */
module NotificationDedupe {
  import opened Common

  const LIMIT := 2048

  // ---------------------------------------------------------------- the last accepted ids

  /** The last `LIMIT` accepted ids. */
  function Recent(accepted: seq<string>): (r: seq<string>)
    ensures |r| <= LIMIT
  {
    if |accepted| <= LIMIT then accepted else accepted[|accepted| - LIMIT..]
  }

  function Members(order: seq<string>): set<string> {
    set id | id in order
  }

  /** The ids accepted from a stream: each one that is not among the last accepted ones. */
  function Accepted(stream: seq<string>): seq<string> {
    if stream == [] then []
    else
      var before, id := Accepted(stream[..|stream| - 1]), stream[|stream| - 1];
      if id in Recent(before) then before else before + [id]
  }

  /** Between two acceptances of one id lie at least `LIMIT` others. */
  lemma {:induction false} AcceptedAreFarApart(stream: seq<string>, i: nat, j: nat)
    requires i < j < |Accepted(stream)| && Accepted(stream)[i] == Accepted(stream)[j]
    ensures j - i > LIMIT
  {
    var init := stream[..|stream| - 1];
    var before := Accepted(init);
    if j < |before| {
      AcceptedAreFarApart(init, i, j);
    } else if j - i <= LIMIT {
      RecentHolds(before, i);
    }
  }

  /** Every id of the stream is accepted at some time, and nothing else is. */
  lemma {:induction false} EveryIdIsAccepted(stream: seq<string>, id: string)
    ensures id in Accepted(stream) <==> id in stream
  {
    if stream != [] {
      var init, last := stream[..|stream| - 1], stream[|stream| - 1];
      EveryIdIsAccepted(init, id);
      assert stream == init + [last];
      if last in Recent(Accepted(init)) {
        RecentIsAccepted(Accepted(init), last);
      }
    }
  }

  lemma RecentIsAccepted(accepted: seq<string>, id: string)
    ensures id in Recent(accepted) ==> id in accepted
  {
  }

  ghost predicate IsLast(ids: seq<string>, k: nat, id: string) {
    k < |ids| && ids[k] == id && forall j :: k < j < |ids| ==> ids[j] != id
  }

  /** An id seen for the first time is accepted, and one that was accepted before is accepted again if and only
      if 2048 others have been accepted since. */
  lemma AcceptedAgainIff(stream: seq<string>, id: string)
    ensures id !in stream ==> Accepted(stream + [id]) == Accepted(stream) + [id]
    ensures forall k: nat :: IsLast(Accepted(stream), k, id) ==>
              Accepted(stream + [id]) == Accepted(stream) + if |Accepted(stream)| - k > 2048 then [id] else []
  {
    var accepted := Accepted(stream);
    assert (stream + [id])[..|stream|] == stream;
    EveryIdIsAccepted(stream, id);
    RecentIsAccepted(accepted, id);
    forall k: nat | IsLast(accepted, k, id)
      ensures id in Recent(accepted) <==> |accepted| - k <= LIMIT
    {
      if |accepted| - k <= LIMIT {
        RecentHolds(accepted, k);
      }
    }
  }

  lemma RecentHolds(accepted: seq<string>, i: nat)
    requires i < |accepted| && |accepted| - i <= LIMIT
    ensures accepted[i] in Recent(accepted)
  {
    if |accepted| > LIMIT {
      assert Recent(accepted)[i - (|accepted| - LIMIT)] == accepted[i];
    }
  }

  lemma RecentAfter(accepted: seq<string>, id: string)
    ensures var order := Recent(accepted) + [id];
            Recent(accepted + [id]) == if |order| > LIMIT then order[1..] else order
  {
  }

  lemma DropFirst(order: seq<string>)
    requires order != [] && Distinct(order)
    ensures Distinct(order[1..]) && Members(order[1..]) == Members(order) - {order[0]}
  {
    assert order == [order[0]] + order[1..];
  }

  /** A set for lookups and a queue for eviction. */
  class GeoDeliveryDedupe {
    var ids: set<string>
    var order: seq<string>
    ghost var stream: seq<string>
    ghost var accepted: seq<string>

    /** Set and queue hold the same elements: the last ids accepted from all that came. */
    ghost predicate Valid() reads this {
      accepted == Accepted(stream) && order == Recent(accepted) && Distinct(order) && ids == Members(order)
    }

    constructor ()
      ensures Valid() && accepted == [] && stream == []
    {
      ids, order, accepted, stream := {}, [], [], [];
    }

    /** An id is accepted exactly when it is not among the last accepted ones. */
    method Admit(id: string) returns (ok: bool)
      requires Valid()
      modifies this
      ensures Valid() && |order| <= LIMIT && stream == old(stream) + [id]
      ensures ok == (id !in Recent(old(accepted)))
      ensures accepted == old(accepted) + (if ok then [id] else [])
    {
      stream := stream + [id];
      assert stream[..|stream| - 1] == old(stream);
      if id in ids {
        return false;
      }
      ids := ids + {id};
      order := order + [id];
      RecentAfter(accepted, id);
      accepted := accepted + [id];
      while |order| > LIMIT
        invariant accepted == old(accepted) + [id] && stream == old(stream) + [id] && accepted == Accepted(stream)
        invariant Distinct(order) && ids == Members(order)
        invariant Recent(accepted) == if |order| > LIMIT then order[1..] else order
        invariant |order| <= LIMIT + 1
        decreases |order|
      {
        var expired := order[0];
        DropFirst(order);
        order := order[1..];
        ids := ids - {expired};
      }
      ok := true;
    }
  }

  // ---------------------------------------------------------------- clicks before the renderer listens

  datatype Click = Click(notificationId: Option<string>, target: string)

  datatype Ingress = Ingress(ready: bool, pending: Option<Click>, ambiguous: bool, handled: seq<string>)

  const COLD := Ingress(false, None, false, [])

  predicate IsNew(s: Ingress, click: Click) {
    click.notificationId.Some? ==> click.notificationId.value !in Recent(s.handled)
  }

  function Handled(s: Ingress, click: Click): seq<string> {
    if click.notificationId.Some? then s.handled + [click.notificationId.value] else s.handled
  }

  /** The new state, and whether the click is passed on at once. */
  function AfterClick(s: Ingress, click: Click): (Ingress, bool) {
    if !IsNew(s, click) then (s, false)
    else
      var s1 := s.(handled := Handled(s, click));
      if s.ready then (s1, true)
      else if s.pending.Some? then (s1.(pending := None, ambiguous := true), false)
      else if !s.ambiguous then (s1.(pending := Some(click)), false)
      else (s1, false)
  }

  function AfterReady(s: Ingress): (Ingress, Option<Click>) {
    if s.ambiguous then (s.(ready := true, ambiguous := false, pending := None), None)
    else (s.(ready := true, pending := None), s.pending)
  }

  function AfterClicks(clicks: seq<Click>): Ingress {
    if clicks == [] then COLD else AfterClick(AfterClicks(clicks[..|clicks| - 1]), clicks[|clicks| - 1]).0
  }

  /** The clicks that are not repeats of a recently handled notification. */
  function NewClicks(clicks: seq<Click>): seq<Click> {
    if clicks == [] then []
    else
      var init, last := clicks[..|clicks| - 1], clicks[|clicks| - 1];
      NewClicks(init) + (if IsNew(AfterClicks(init), last) then [last] else [])
  }

  /** The notifications the clicks are for. */
  function Ids(clicks: seq<Click>): seq<string> {
    if clicks == [] then []
    else
      var id := clicks[|clicks| - 1].notificationId;
      Ids(clicks[..|clicks| - 1]) + (if id.Some? then [id.value] else [])
  }

  lemma {:induction false} HandledAreAccepted(clicks: seq<Click>)
    ensures AfterClicks(clicks).handled == Accepted(Ids(clicks))
  {
    if clicks != [] {
      var init, last := clicks[..|clicks| - 1], clicks[|clicks| - 1];
      HandledAreAccepted(init);
      HandledNext(AfterClicks(init), last, Ids(init));
    }
  }

  lemma HandledNext(s: Ingress, click: Click, ids: seq<string>)
    requires s.handled == Accepted(ids)
    ensures AfterClick(s, click).0.handled
         == Accepted(ids + if click.notificationId.Some? then [click.notificationId.value] else [])
  {
    if click.notificationId.Some? {
      AcceptedNext(ids, click.notificationId.value);
    } else {
      assert ids + [] == ids;
    }
  }

  lemma AcceptedNext(stream: seq<string>, id: string)
    ensures Accepted(stream + [id]) == Accepted(stream) + if id in Recent(Accepted(stream)) then [] else [id]
  {
    assert (stream + [id])[..|stream|] == stream;
  }

  /** A click for no notification is always new, and one for a notification is new exactly when the
      notification is accepted among those the clicks are for. */
  lemma NewClickIff(clicks: seq<Click>, click: Click)
    ensures click.notificationId.None? ==> NewClicks(clicks + [click]) == NewClicks(clicks) + [click]
    ensures click.notificationId.Some? ==>
              var ids := Ids(clicks);
              NewClicks(clicks + [click]) == NewClicks(clicks) +
              if Accepted(ids + [click.notificationId.value]) == Accepted(ids) then [] else [click]
  {
    assert (clicks + [click])[..|clicks|] == clicks;
    HandledAreAccepted(clicks);
    if click.notificationId.Some? {
      AcceptedNext(Ids(clicks), click.notificationId.value);
    }
  }

  /** Before the renderer listens no click is passed on. */
  lemma {:induction false} ColdClicksAreKeptBack(clicks: seq<Click>, click: Click)
    ensures !AfterClicks(clicks).ready && !AfterClick(AfterClicks(clicks), click).1
  {
    ColdState(clicks);
  }

  lemma {:induction false} ColdState(clicks: seq<Click>)
    ensures var s, n := AfterClicks(clicks), NewClicks(clicks);
            && !s.ready && s.ambiguous == (|n| >= 2)
            && s.pending == if |n| == 1 then Some(n[0]) else None
  {
    if clicks != [] {
      ColdState(clicks[..|clicks| - 1]);
    }
  }

  /** The first ready call returns a click exactly when one click was accepted before it, and that one. */
  lemma ColdStartClick(clicks: seq<Click>)
    ensures var n := NewClicks(clicks);
            AfterReady(AfterClicks(clicks)).1 == if |n| == 1 then Some(n[0]) else None
  {
    ColdState(clicks);
  }

  datatype Event = Clicked(click: Click) | Ready

  function After(s: Ingress, e: Event): Ingress {
    match e
    case Clicked(click) => AfterClick(s, click).0
    case Ready => AfterReady(s).0
  }

  function AfterEvents(s: Ingress, events: seq<Event>): Ingress {
    if events == [] then s else After(AfterEvents(s, events[..|events| - 1]), events[|events| - 1])
  }

  /** Once the renderer listens, nothing is kept back: every accepted click is passed on at once, and
      further ready calls return nothing. */
  lemma {:induction false} AfterReadyNothingWaits(s: Ingress, events: seq<Event>, click: Click)
    ensures var s' := AfterEvents(AfterReady(s).0, events);
            && s'.ready && s'.pending.None? && !s'.ambiguous
            && AfterClick(s', click).1 == IsNew(s', click)
            && AfterReady(s').1 == None
  {
    if events != [] {
      AfterReadyNothingWaits(s, events[..|events| - 1], click);
    }
  }

  class RendererClickIngress {
    var ready: bool
    var pending: Option<Click>
    var ambiguous: bool
    const dedupe: GeoDeliveryDedupe

    ghost function Now(): Ingress reads this, dedupe {
      Ingress(ready, pending, ambiguous, dedupe.accepted)
    }

    ghost predicate Valid() reads this, dedupe {
      dedupe.Valid()
    }

    constructor ()
      ensures Valid() && Now() == COLD && fresh(dedupe)
    {
      ready, pending, ambiguous := false, None, false;
      dedupe := new GeoDeliveryDedupe();
    }

    method AdmitRendererClick(click: Click) returns (emit: bool)
      requires Valid()
      modifies this, dedupe
      ensures Valid() && Now() == AfterClick(old(Now()), click).0 && emit == AfterClick(old(Now()), click).1
    {
      if click.notificationId.Some? {
        var accepted := dedupe.Admit(click.notificationId.value);
        if !accepted {
          return false;
        }
      }
      if ready {
        return true;
      }
      if pending.Some? {
        pending := None;
        ambiguous := true;
      } else if !ambiguous {
        pending := Some(click);
      }
      emit := false;
    }

    method ListenerReady() returns (click: Option<Click>)
      requires Valid()
      modifies this
      ensures Valid() && Now() == AfterReady(old(Now())).0 && click == AfterReady(old(Now())).1
    {
      ready := true;
      if ambiguous {
        ambiguous := false;
        pending := None;
        return None;
      }
      click := pending;
      pending := None;
    }
  }
}
