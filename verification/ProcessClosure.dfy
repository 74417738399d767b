/** Which processes a cleanup ends: the matched roots and everything below them, itself excepted. */
module ProcessClosure {
  import opened Common

  type Pid = nat

  /** The parents of the running processes; a parent need not be running, and pids may form cycles. */
  type Parents = map<Pid, Option<Pid>>

  predicate IsChild(parents: Parents, child: Pid, parent: Pid) {
    child in parents && parents[child] == Some(parent)
  }

  /** Closed under children other than the current process. */
  ghost predicate Closed(parents: Parents, current: Pid, targets: set<Pid>) {
    forall child, parent :: parent in targets && IsChild(parents, child, parent) && child != current ==>
      child in targets
  }

  /** Closed but for the children of the processes still to be looked at. */
  ghost predicate ClosedExcept(parents: Parents, current: Pid, targets: set<Pid>, queue: seq<Pid>) {
    forall child, parent ::
      parent in targets && parent !in queue && IsChild(parents, child, parent) && child != current ==> child in targets
  }

  ghost predicate IsLeast(parents: Parents, current: Pid, roots: set<Pid>, targets: set<Pid>) {
    && roots <= targets && Closed(parents, current, targets)
    && forall other :: roots <= other && Closed(parents, current, other) ==> targets <= other
  }

  /** The matching processes other than the current one. */
  function Roots(parents: Parents, current: Pid, matches: Pid -> bool): set<Pid> {
    set pid | pid in parents && pid != current && matches(pid)
  }

  /** `down` leads from a root to the process, each the child of the one before, never through the current one. */
  ghost predicate IsPath(parents: Parents, current: Pid, roots: set<Pid>, down: seq<Pid>) {
    && down != [] && down[0] in roots
    && forall i :: 0 < i < |down| ==> IsChild(parents, down[i], down[i - 1]) && down[i] != current
  }

  ghost function Reachable(parents: Parents, current: Pid, roots: set<Pid>): set<Pid> {
    set pid | pid in roots + parents.Keys
          && exists down :: IsPath(parents, current, roots, down) && down[|down| - 1] == pid
  }

  lemma {:induction false} PathStaysInside(parents: Parents, current: Pid, roots: set<Pid>, targets: set<Pid>,
                                           down: seq<Pid>)
    requires roots <= targets && Closed(parents, current, targets) && IsPath(parents, current, roots, down)
    ensures down[|down| - 1] in targets
    decreases |down|
  {
    if |down| > 1 {
      var init := down[..|down| - 1];
      assert IsPath(parents, current, roots, init);
      assert IsChild(parents, down[|down| - 1], init[|init| - 1]);
      PathStaysInside(parents, current, roots, targets, init);
    }
  }

  lemma ReachableIsClosed(parents: Parents, current: Pid, roots: set<Pid>)
    ensures Closed(parents, current, Reachable(parents, current, roots))
  {
    forall child, parent | parent in Reachable(parents, current, roots)
                          && IsChild(parents, child, parent) && child != current
      ensures child in Reachable(parents, current, roots)
    {
      var down :| IsPath(parents, current, roots, down) && down[|down| - 1] == parent;
      assert IsPath(parents, current, roots, down + [child]);
      assert (down + [child])[|down + [child]| - 1] == child;
    }
  }

  /** The least closed set holds exactly the processes some path of children leads to. */
  lemma LeastIsReachable(parents: Parents, current: Pid, roots: set<Pid>, targets: set<Pid>)
    requires IsLeast(parents, current, roots, targets)
    ensures targets == Reachable(parents, current, roots)
  {
    var reachable := Reachable(parents, current, roots);
    ReachableIsClosed(parents, current, roots);
    forall pid | pid in roots ensures pid in reachable {
      assert IsPath(parents, current, roots, [pid]);
      assert [pid][|[pid]| - 1] == pid;
    }
    forall pid | pid in reachable ensures pid in targets {
      var down :| IsPath(parents, current, roots, down) && down[|down| - 1] == pid;
      PathStaysInside(parents, current, roots, targets, down);
    }
  }

  /** Children by parent, in any order. */
  method ChildrenOf(parents: Parents) returns (children: map<Pid, seq<Pid>>)
    ensures forall parent, child :: (parent in children && child in children[parent]) <==>
            IsChild(parents, child, parent)
  {
    children := map[];
    var left := parents.Keys;
    while left != {}
      invariant left <= parents.Keys
      invariant forall parent, child ::
        (parent in children && child in children[parent]) <==> (IsChild(parents, child, parent) && child !in left)
    {
      var pid :| pid in left;
      if parents[pid].Some? {
        var parent := parents[pid].value;
        var siblings := if parent in children then children[parent] else [];
        children := children[parent := siblings + [pid]];
      }
      left := left - {pid};
    }
  }

  /** The children of one process that are not yet targets, in order. */
  method AddChildren(current: Pid, descendants: seq<Pid>, targets: set<Pid>, queue: seq<Pid>)
      returns (targets': set<Pid>, queue': seq<Pid>)
    ensures targets' == targets + (set c | c in descendants && c != current)
    ensures queue <= queue' && |queue'| == |queue| + |targets'| - |targets|
    ensures forall pid :: pid in queue' <==> pid in queue || (pid in targets' && pid !in targets)
  {
    targets', queue' := targets, queue;
    for i := 0 to |descendants|
      invariant targets' == targets + (set c | c in descendants[..i] && c != current)
      invariant queue <= queue' && |queue'| == |queue| + |targets'| - |targets|
      invariant forall pid :: pid in queue' <==> pid in queue || (pid in targets' && pid !in targets)
    {
      var child := descendants[i];
      TakeSnoc(descendants, i + 1);
      if child != current && child !in targets' {
        targets' := targets' + {child};
        queue' := queue' + [child];
      }
    }
    assert descendants[..|descendants|] == descendants;
  }

  lemma OneLess(all: set<Pid>, targets: set<Pid>, more: set<Pid>)
    requires targets <= more <= all
    ensures |all - more| + |more| == |all - targets| + |targets|
  {
    assert all == (all - more) + more && all == (all - targets) + targets;
  }

  lemma ChildrenAdded(parents: Parents, current: Pid, parent: Pid, before: set<Pid>, waiting: seq<Pid>,
                      after: set<Pid>, queue: seq<Pid>)
    requires ClosedExcept(parents, current, before, waiting) && before <= after
    requires forall c :: IsChild(parents, c, parent) && c != current ==> c in after
    requires forall pid :: pid in waiting && pid != parent ==> pid in queue
    requires forall pid :: pid in after && pid !in before ==> pid in queue
    ensures ClosedExcept(parents, current, after, queue)
  {
  }

  lemma StillLeast(parents: Parents, current: Pid, roots: set<Pid>, parent: Pid, before: set<Pid>, after: set<Pid>)
    requires forall other :: roots <= other && Closed(parents, current, other) ==> before <= other
    requires parent in before && forall c :: c in after && c !in before ==> IsChild(parents, c, parent) && c != current
    ensures forall other :: roots <= other && Closed(parents, current, other) ==> after <= other
  {
  }

  /** Between two rounds: nothing but what must be a target is one, and only the stack is still open. */
  ghost predicate Partial(parents: Parents, current: Pid, roots: set<Pid>, targets: set<Pid>, queue: seq<Pid>) {
    && roots <= targets <= parents.Keys && current !in targets
    && (forall pid :: pid in queue ==> pid in targets)
    && ClosedExcept(parents, current, targets, queue)
    && forall other :: roots <= other && Closed(parents, current, other) ==> targets <= other
  }

  /** One round: take the last process off the stack and add its children. */
  method Visit(parents: Parents, current: Pid, roots: set<Pid>, targets: set<Pid>, queue: seq<Pid>, below: seq<Pid>)
      returns (targets': set<Pid>, queue': seq<Pid>)
    requires queue != [] && Partial(parents, current, roots, targets, queue)
    requires forall child :: child in below <==> IsChild(parents, child, queue[|queue| - 1])
    ensures Partial(parents, current, roots, targets', queue')
    ensures |parents.Keys - targets'| + |queue'| < |parents.Keys - targets| + |queue|
  {
    var parent, rest := queue[|queue| - 1], queue[..|queue| - 1];
    assert queue == rest + [parent];
    targets', queue' := AddChildren(current, below, targets, rest);
    OneLess(parents.Keys, targets, targets');
    ChildrenAdded(parents, current, parent, targets, queue, targets', queue');
    StillLeast(parents, current, roots, parent, targets, targets');
  }

  /**
   The worklist ends with the least set that holds the matched roots and is closed under children other
   than the current process. Every process enters the stack at most once, so it ends on cycles too.
   */
  method Targets(parents: Parents, current: Pid, matches: Pid -> bool) returns (targets: set<Pid>, descendants: nat)
    ensures IsLeast(parents, current, Roots(parents, current, matches), targets)
    ensures current !in targets && targets <= parents.Keys
    ensures forall pid :: pid in parents && pid != current && matches(pid) ==> pid in targets
    ensures forall pid :: pid in targets ==> BelowAMatch(parents, current, matches, pid)
    ensures HasChildren(parents, current, targets)
    ensures descendants == |targets - Roots(parents, current, matches)|
  {
    var roots := Roots(parents, current, matches);
    var children := ChildrenOf(parents);
    targets := roots;
    var queue := Listed(roots);
    while queue != []
      invariant Partial(parents, current, roots, targets, queue)
      decreases |parents.Keys - targets| + |queue|
    {
      var parent := queue[|queue| - 1];
      var below := if parent in children then children[parent] else [];
      targets, queue := Visit(parents, current, roots, targets, queue, below);
    }
    assert targets == roots + (targets - roots);
    TargetsAreBelowMatches(parents, current, matches, targets);
    ClosedHasChildren(parents, current, targets);
    descendants := |targets| - |roots|;
  }

  /** Some line of children leads from a matching process to this one, never through the current one. */
  ghost predicate BelowAMatch(parents: Parents, current: Pid, matches: Pid -> bool, pid: Pid) {
    exists down: seq<Pid> :: IsLine(parents, current, down) && matches(down[0]) && down[|down| - 1] == pid
  }

  ghost predicate IsLine(parents: Parents, current: Pid, down: seq<Pid>) {
    && down != [] && down[0] in parents && current !in down
    && forall i :: 0 < i < |down| ==> down[i] in parents && parents[down[i]] == Some(down[i - 1])
  }

  lemma PathIsLine(parents: Parents, current: Pid, roots: set<Pid>, down: seq<Pid>)
    requires IsPath(parents, current, roots, down) && roots <= parents.Keys && current !in roots
    ensures IsLine(parents, current, down)
  {
    forall i | 0 < i < |down|
      ensures down[i] in parents && parents[down[i]] == Some(down[i - 1])
    {
      assert IsChild(parents, down[i], down[i - 1]);
    }
  }

  /** Every child of a target is one, the current process excepted. */
  ghost predicate HasChildren(parents: Parents, current: Pid, targets: set<Pid>) {
    forall pid :: pid in parents && pid != current && parents[pid].Some? && parents[pid].value in targets ==>
      pid in targets
  }

  lemma ClosedHasChildren(parents: Parents, current: Pid, targets: set<Pid>)
    requires Closed(parents, current, targets)
    ensures HasChildren(parents, current, targets)
  {
    forall pid | pid in parents && pid != current && parents[pid].Some? && parents[pid].value in targets
      ensures pid in targets
    {
      assert IsChild(parents, pid, parents[pid].value);
    }
  }

  lemma TargetsAreBelowMatches(parents: Parents, current: Pid, matches: Pid -> bool, targets: set<Pid>)
    requires IsLeast(parents, current, Roots(parents, current, matches), targets)
    ensures forall pid :: pid in targets ==> BelowAMatch(parents, current, matches, pid)
  {
    var roots := Roots(parents, current, matches);
    LeastIsReachable(parents, current, roots, targets);
    forall pid | pid in targets
      ensures BelowAMatch(parents, current, matches, pid)
    {
      var down :| IsPath(parents, current, roots, down) && down[|down| - 1] == pid;
      PathIsLine(parents, current, roots, down);
      assert matches(down[0]);
    }
  }

  method Listed(pids: set<Pid>) returns (list: seq<Pid>)
    ensures forall pid :: pid in list <==> pid in pids
    ensures |list| == |pids|
  {
    list := [];
    var left := pids;
    while left != {}
      invariant left <= pids && |list| + |left| == |pids|
      invariant forall pid :: pid in list <==> pid in pids && pid !in left
    {
      var pid :| pid in left;
      list := list + [pid];
      left := left - {pid};
    }
  }
}
