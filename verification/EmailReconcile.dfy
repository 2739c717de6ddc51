/**
  The coalescing email reconcile (src/operators/kube-oidc-user-operator.js).

  A request either starts a loop of passes or asks the running loop for one more.
  Its promise settles in the loop's `finally` callback, or, when that callback
  starts another loop, together with that loop's promise. A loop that ended and
  its callback are separate steps: requests land between them.
 */
module EmailReconcile {
  import opened Wrappers

  type LoopId = nat
  type Pass = nat

  // Where a loop is, and with it its promise.
  datatype Loop = Awaiting(pass: Pass) | Returned | Adopting(next: LoopId) | Settled

  // `before` counts the passes begun when the request was made: pass k began
  // after it exactly when k >= before.
  datatype Request = Request(loop: LoopId, before: nat)

  datatype State = State(
    reconcileEmailPromise: Option<LoopId>,
    reconcileEmailPending: bool,
    loops: seq<Loop>,
    begun: nat,
    complete: set<Pass>,
    requests: seq<Request>)

  datatype Action = Ask | PassEnds(loop: LoopId) | Finally(loop: LoopId) | Settle(loop: LoopId)

  const INITIAL := State(None, false, [], 0, {}, [])

  // #scheduleEmailReconcile: the promise it returns, and the state it leaves.
  function Scheduled(s: State): (State, LoopId) {
    match s.reconcileEmailPromise
    case Some(loop) => (s.(reconcileEmailPending := true), loop)
    case None =>
      (s.(reconcileEmailPromise := Some(|s.loops|), reconcileEmailPending := false,
          loops := s.loops + [Awaiting(s.begun)], begun := s.begun + 1),
       |s.loops|)
  }

  predicate Enabled(s: State, a: Action) {
    match a
    case Ask => true
    case PassEnds(loop) => loop < |s.loops| && s.loops[loop].Awaiting?
    case Finally(loop) => loop < |s.loops| && s.loops[loop].Returned?
    case Settle(loop) => loop < |s.loops| && s.loops[loop].Adopting? && s.loops[loop].next < |s.loops|
                         && s.loops[s.loops[loop].next].Settled?
  }

  function Step(s: State, a: Action): State {
    if !Enabled(s, a) then s
    else
      match a
      case Ask =>
        var (s', loop) := Scheduled(s);
        s'.(requests := s.requests + [Request(loop, s.begun)])
      case PassEnds(loop) =>
        var s' := s.(complete := s.complete + {s.loops[loop].pass});
        if s.reconcileEmailPending then
          s'.(reconcileEmailPending := false, loops := s.loops[loop := Awaiting(s.begun)], begun := s.begun + 1)
        else
          s'.(loops := s.loops[loop := Returned])
      case Finally(loop) =>
        var s' := s.(reconcileEmailPromise := None);
        if s.reconcileEmailPending then
          var (s'', next) := Scheduled(s');
          s''.(loops := s''.loops[loop := Adopting(next)])
        else
          s'.(loops := s.loops[loop := Settled])
      case Settle(loop) => s.(loops := s.loops[loop := Settled])
  }

  function Run(s: State, actions: seq<Action>): State
    decreases |actions|
  {
    if actions == [] then s else Run(Step(s, actions[0]), actions[1..])
  }

  // ---- what every step keeps -------------------------------------------------------

  // Only the newest loop, behind the promise field, still runs or has its
  // callback ahead; every other has settled or waits for a newer one.
  ghost predicate OneLoop(s: State) {
    && (s.reconcileEmailPromise.Some? ==> |s.loops| > 0 && s.reconcileEmailPromise.value == |s.loops| - 1)
    && (s.reconcileEmailPromise.None? ==> !s.reconcileEmailPending)
    && forall i :: 0 <= i < |s.loops| ==>
         && ((s.loops[i].Awaiting? || s.loops[i].Returned?) <==> s.reconcileEmailPromise == Some(i))
         && (s.loops[i].Adopting? ==> i < s.loops[i].next < |s.loops|)
  }

  // Every pass that began is complete but for the one in flight, the newest.
  ghost predicate PassesInOrder(s: State) {
    && (forall i :: 0 <= i < |s.loops| && s.loops[i].Awaiting? ==> s.loops[i].pass + 1 == s.begun)
    && forall k: nat :: k in s.complete <==>
         k < s.begun && !exists i :: 0 <= i < |s.loops| && s.loops[i] == Awaiting(k)
  }

  ghost predicate Provided(s: State, r: Request) {
    && r.before <= s.begun
    && r.loop < |s.loops|
    && match s.loops[r.loop]
       case Awaiting(k) => r.before <= k || s.reconcileEmailPending
       case Returned => r.before in s.complete || s.reconcileEmailPending
       case Adopting(next) => r.before in s.complete || (next < |s.loops| && s.loops[next] == Awaiting(r.before))
       case Settled => r.before in s.complete
  }

  ghost predicate Inv(s: State) {
    OneLoop(s) && PassesInOrder(s) && forall i :: 0 <= i < |s.requests| ==> Provided(s, s.requests[i])
  }

  lemma StepKeepsOneLoop(s: State, a: Action)
    requires OneLoop(s)
    ensures OneLoop(Step(s, a))
  {
  }

  lemma StepKeepsPasses(s: State, a: Action)
    requires OneLoop(s) && PassesInOrder(s)
    ensures PassesInOrder(Step(s, a))
  {
    var s' := Step(s, a);
    if a.PassEnds? && Enabled(s, a) {
      var k := s.loops[a.loop].pass;
      assert s.loops[a.loop] == Awaiting(k);
      if s.reconcileEmailPending {
        assert s'.loops[a.loop] == Awaiting(s.begun);
      }
    } else if s'.begun > s.begun {
      assert s'.loops[|s.loops|] == Awaiting(s.begun);
    } else {
      forall i, k | 0 <= i < |s.loops| ensures s.loops[i] == Awaiting(k) <==> s'.loops[i] == Awaiting(k) {
      }
    }
  }

  lemma StepKeepsProvided(s: State, a: Action, r: Request)
    requires OneLoop(s) && PassesInOrder(s) && Provided(s, r)
    ensures Provided(Step(s, a), r)
  {
  }

  lemma StepKeepsInv(s: State, a: Action)
    requires Inv(s)
    ensures Inv(Step(s, a))
  {
    StepKeepsOneLoop(s, a);
    StepKeepsPasses(s, a);
    var s' := Step(s, a);
    forall i | 0 <= i < |s'.requests| ensures Provided(s', s'.requests[i]) {
      if i < |s.requests| {
        StepKeepsProvided(s, a, s.requests[i]);
      }
    }
  }

  lemma {:induction false} RunKeepsInv(s: State, actions: seq<Action>)
    requires Inv(s)
    ensures Inv(Run(s, actions))
    decreases |actions|
  {
    if actions != [] {
      StepKeepsInv(s, actions[0]);
      RunKeepsInv(Step(s, actions[0]), actions[1..]);
    }
  }

  /** At most one pass is ever in flight, and the passes that began are exactly
      those complete and the one in flight. */
  lemma OnePassAtATime(actions: seq<Action>)
    ensures var s := Run(INITIAL, actions);
            && (forall i, j :: 0 <= i < |s.loops| && 0 <= j < |s.loops| && s.loops[i].Awaiting? && s.loops[j].Awaiting? ==> i == j)
            && forall k: nat :: k < s.begun ==>
                 (k !in s.complete <==> exists i :: 0 <= i < |s.loops| && s.loops[i] == Awaiting(k))
  {
    RunKeepsInv(INITIAL, actions);
  }

  ghost predicate HasSettled(s: State, r: Request) {
    r.loop < |s.loops| && s.loops[r.loop].Settled?
  }

  ghost predicate Served(s: State, r: Request) {
    exists k :: k in s.complete && k >= r.before
  }

  /** No wake-up is lost: in every run a settled request has seen a whole pass
      that began after it was made. */
  lemma NoLostWakeUp(actions: seq<Action>, i: nat)
    requires i < |Run(INITIAL, actions).requests|
    ensures var s := Run(INITIAL, actions); HasSettled(s, s.requests[i]) ==> Served(s, s.requests[i])
  {
    RunKeepsInv(INITIAL, actions);
    var s := Run(INITIAL, actions);
    assert Provided(s, s.requests[i]);
  }

  // ---- every request is served ------------------------------------------------------

  function Adoptions(loops: seq<Loop>): nat {
    if loops == [] then 0 else (if loops[|loops| - 1].Adopting? then 1 else 0) + Adoptions(loops[..|loops| - 1])
  }

  // Steps left until everything is settled, if nobody asks again.
  function StepsLeft(s: State): nat {
    Adoptions(s.loops)
    + match s.reconcileEmailPromise
      case None => 0
      case Some(loop) =>
        if loop < |s.loops| && s.loops[loop].Awaiting? then (if s.reconcileEmailPending then 3 else 2)
        else (if s.reconcileEmailPending then 4 else 1)
  }

  lemma {:induction false} AdoptionsAfter(loops: seq<Loop>, i: nat, loop: Loop)
    requires i < |loops|
    ensures Adoptions(loops[i := loop]) + (if loops[i].Adopting? then 1 else 0) == Adoptions(loops) + if loop.Adopting? then 1 else 0
    decreases |loops|
  {
    var n := |loops| - 1;
    var after := loops[i := loop];
    if i == n {
      assert after[..n] == loops[..n];
    } else {
      assert after[..n] == loops[..n][i := loop];
      AdoptionsAfter(loops[..n], i, loop);
    }
  }

  lemma AdoptionsAppend(loops: seq<Loop>, loop: Loop)
    ensures Adoptions(loops + [loop]) == Adoptions(loops) + if loop.Adopting? then 1 else 0
  {
    assert (loops + [loop])[..|loops|] == loops;
  }

  /** Every step but a new request brings the end nearer. */
  lemma StepIsProgress(s: State, a: Action)
    requires Inv(s) && !a.Ask? && Enabled(s, a)
    ensures StepsLeft(Step(s, a)) < StepsLeft(s)
  {
    match a
    case PassEnds(loop) => AdoptionsAfter(s.loops, loop, if s.reconcileEmailPending then Awaiting(s.begun) else Returned);
    case Settle(loop) => AdoptionsAfter(s.loops, loop, Settled);
    case Finally(loop) =>
      if s.reconcileEmailPending {
        AdoptionsAppend(s.loops, Awaiting(s.begun));
        AdoptionsAfter(s.loops + [Awaiting(s.begun)], loop, Adopting(|s.loops|));
      } else {
        AdoptionsAfter(s.loops, loop, Settled);
      }
  }

  /** When nothing but a new request can happen, every promise has settled. */
  lemma {:induction false} StuckMeansSettled(s: State, i: nat)
    requires Inv(s) && i < |s.loops|
    requires forall a :: Enabled(s, a) ==> a.Ask?
    ensures s.loops[i].Settled?
    decreases |s.loops| - i
  {
    assert !Enabled(s, PassEnds(i)) && !Enabled(s, Finally(i)) && !Enabled(s, Settle(i));
    if s.loops[i].Adopting? {
      StuckMeansSettled(s, s.loops[i].next);
    }
  }

  ghost predicate AllEnabled(s: State, actions: seq<Action>)
    decreases |actions|
  {
    actions == [] || (!actions[0].Ask? && Enabled(s, actions[0]) && AllEnabled(Step(s, actions[0]), actions[1..]))
  }

  /** From every reachable state the work left is bounded, and once it is used
      up every request so far has settled after a whole pass of its own. */
  lemma EveryRequestIsServed(before: seq<Action>, rest: seq<Action>)
    requires AllEnabled(Run(INITIAL, before), rest)
    ensures |rest| <= StepsLeft(Run(INITIAL, before))
    ensures var s := Run(Run(INITIAL, before), rest);
            (forall a :: Enabled(s, a) ==> a.Ask?) ==>
              forall r :: r in s.requests ==> HasSettled(s, r) && Served(s, r)
  {
    RunKeepsInv(INITIAL, before);
    WorkIsBounded(Run(INITIAL, before), rest);
    var s := Run(Run(INITIAL, before), rest);
    RunKeepsInv(Run(INITIAL, before), rest);
    if forall a :: Enabled(s, a) ==> a.Ask? {
      forall r | r in s.requests ensures HasSettled(s, r) && Served(s, r) {
        assert Provided(s, r);
        StuckMeansSettled(s, r.loop);
      }
    }
  }

  lemma {:induction false} WorkIsBounded(s: State, actions: seq<Action>)
    requires Inv(s) && AllEnabled(s, actions)
    ensures |actions| <= StepsLeft(s)
    decreases |actions|
  {
    if actions != [] {
      StepIsProgress(s, actions[0]);
      StepKeepsInv(s, actions[0]);
      WorkIsBounded(Step(s, actions[0]), actions[1..]);
    }
  }

  // ---- the operator's own fields --------------------------------------------------------

  class KubeOIDCUserOperator {
    var reconcileEmailPromise: Option<LoopId>
    var reconcileEmailPending: bool
    var loops: seq<Loop>
    var begun: nat
    var complete: set<Pass>
    ghost var requests: seq<Request>

    ghost function Now(): State
      reads this
    {
      State(reconcileEmailPromise, reconcileEmailPending, loops, begun, complete, requests)
    }

    constructor ()
      ensures Now() == INITIAL
    {
      reconcileEmailPromise, reconcileEmailPending := None, false;
      loops, begun, complete, requests := [], 0, {}, [];
    }

    method ScheduleEmailReconcile() returns (promise: LoopId)
      modifies this
      ensures (Now(), promise) == Scheduled(old(Now()))
      ensures complete == old(complete)
      ensures old(reconcileEmailPromise).Some? ==>
                && promise == old(reconcileEmailPromise).value && reconcileEmailPromise == old(reconcileEmailPromise)
                && reconcileEmailPending && loops == old(loops) && begun == old(begun)
      ensures old(reconcileEmailPromise).None? ==>
                && promise == |old(loops)| && reconcileEmailPromise == Some(promise) && !reconcileEmailPending
                && loops == old(loops) + [Awaiting(old(begun))] && begun == old(begun) + 1
    {
      if reconcileEmailPromise.Some? {
        reconcileEmailPending := true;
        return reconcileEmailPromise.value;
      }
      promise := |loops|;
      reconcileEmailPending := false;
      loops := loops + [Awaiting(begun)];
      begun := begun + 1;
      reconcileEmailPromise := Some(promise);
    }

    // What #claimOIDCUser, #updateOIDCUser and the deleted callback end with.
    method RequestReconcile() returns (promise: LoopId)
      modifies this
      ensures Now() == Step(old(Now()), Ask) && promise == Scheduled(old(Now())).1
      ensures requests == old(requests) + [Request(promise, old(begun))]
    {
      ghost var before := begun;
      promise := ScheduleEmailReconcile();
      requests := requests + [Request(promise, before)];
    }

    // The end of a pass and the test of the loop are one step.
    method AfterPass(loop: LoopId)
      requires loop < |loops| && loops[loop].Awaiting?
      modifies this
      ensures Now() == Step(old(Now()), PassEnds(loop))
      ensures complete == old(complete) + {old(loops)[loop].pass} && !reconcileEmailPending
      ensures reconcileEmailPromise == old(reconcileEmailPromise) && requests == old(requests)
      ensures loops == old(loops)[loop := if old(reconcileEmailPending) then Awaiting(old(begun)) else Returned]
      ensures begun == old(begun) + if old(reconcileEmailPending) then 1 else 0
    {
      complete := complete + {loops[loop].pass};
      if reconcileEmailPending {
        reconcileEmailPending := false;
        loops := loops[loop := Awaiting(begun)];
        begun := begun + 1;
      } else {
        loops := loops[loop := Returned];
      }
    }

    method FinallyCallback(loop: LoopId)
      requires loop < |loops| && loops[loop].Returned?
      modifies this
      ensures Now() == Step(old(Now()), Finally(loop))
      ensures complete == old(complete) && requests == old(requests) && !reconcileEmailPending
      ensures !old(reconcileEmailPending) ==>
                reconcileEmailPromise == None && loops == old(loops)[loop := Settled] && begun == old(begun)
      ensures old(reconcileEmailPending) ==>
                && reconcileEmailPromise == Some(|old(loops)|) && begun == old(begun) + 1
                && loops == (old(loops) + [Awaiting(old(begun))])[loop := Adopting(|old(loops)|)]
    {
      reconcileEmailPromise := None;
      if reconcileEmailPending {
        var next := ScheduleEmailReconcile();
        loops := loops[loop := Adopting(next)];
      } else {
        loops := loops[loop := Settled];
      }
    }
  }
}
