/**
  Restarting the operators when Redis loses its data (src/services/redis-wipe-detector.js,
  src/app.js).

  A generation is one start() and the stop function it returned. start() brings up
  one operator after another, so it may throw with some already watching; what it
  brought up then has no stop function. The periodic check, the restart it
  triggers and the outer stop interleave at their awaits.
 */
module WipeRecovery {
  type Generation = nat

  // `brought` is whether the start() in progress has an operator watching yet.
  datatype Phase = Idle | Starting(brought: bool)

  datatype State = State(
    up: set<Generation>,        // with an operator watching
    current: Generation,        // the one the captured `stop` ends
    next: Generation,           // the one a start() brings up
    stopped: bool,
    marked: bool,               // the marker is in Redis
    phase: Phase,
    failed: bool,               // the last start() threw
    arranged: bool)             // the first start() returned: there is a stop and a check

  // A write of the marker that fails may have landed; a failed read of it is
  // like one that did not.
  datatype Fault = NoFault | Break(applied: bool)

  datatype Action = Wipe | Check(mark: Fault) | Bring | StartReturns | StartThrows | Stop

  // The first start(), begun. The marker is written once it returned; one that
  // does not land is like a wipe right after.
  const INITIAL := State({}, 0, 1, false, true, Starting(false), false, false)

  function Step(s: State, a: Action): State {
    match a
    case Wipe => s.(marked := false)
    case Check(mark) =>
      // the timer is cleared once stopped, and a check in progress excludes another
      if !s.arranged || s.stopped || s.phase.Starting? || s.marked then s
      else if mark.Break? then s.(marked := mark.applied)
      else s.(marked := true, up := s.up - {s.current}, phase := Starting(false))
    case Bring =>
      if s.phase == Starting(false) then s.(up := s.up + {s.next}, phase := Starting(true)) else s
    case StartReturns =>
      if s.phase != Starting(true) then s
      else if s.stopped then s.(phase := Idle, up := s.up - {s.next}, next := s.next + 1, failed := false)
      else s.(phase := Idle, failed := false, current := s.next, next := s.next + 1, arranged := true)
    case StartThrows =>
      if s.phase.Idle? then s else s.(phase := Idle, next := s.next + 1, failed := true)
    case Stop => if s.arranged then s.(stopped := true, up := s.up - {s.current}) else s
  }

  function Run(s: State, actions: seq<Action>): State
    decreases |actions|
  {
    if actions == [] then s else Run(Step(s, actions[0]), actions[1..])
  }

  lemma RunCons(s: State, a: Action, rest: seq<Action>)
    ensures Run(s, [a] + rest) == Run(Step(s, a), rest)
  {
    assert ([a] + rest)[1..] == rest;
  }

  // ---- what is up, in every run ----------------------------------------------

  // start() throws with an operator up.
  predicate ThrowsLate(s: State, a: Action) {
    a.StartThrows? && s.phase == Starting(true)
  }

  // What a step leaves up with no stop function.
  function Latest(s: State, a: Action): set<Generation> {
    if ThrowsLate(s, a) then {s.next} else {}
  }

  // The generations that threw with an operator up.
  function Stranded(s: State, actions: seq<Action>): set<Generation>
    decreases |actions|
  {
    if actions == [] then {}
    else Latest(s, actions[0]) + Stranded(Step(s, actions[0]), actions[1..])
  }

  function LateThrows(s: State, actions: seq<Action>): nat
    decreases |actions|
  {
    if actions == [] then 0
    else (if ThrowsLate(s, actions[0]) then 1 else 0) + LateThrows(Step(s, actions[0]), actions[1..])
  }

  // The generation that is up and has its stop function, if any.
  function Held(s: State): set<Generation> {
    if s.phase.Idle? && !s.stopped && !s.failed then {s.current} else {}
  }

  ghost predicate Inv(s: State, stranded: set<Generation>) {
    && s.current < s.next && s.current !in stranded
    && (!s.arranged ==> !s.stopped && (s.phase.Idle? ==> s.failed))
    && (forall g :: g in stranded ==> g < s.next)
    && s.up == stranded + Held(s) + if s.phase == Starting(true) then {s.next} else {}
  }

  lemma StepKeepsInv(s: State, a: Action, stranded: set<Generation>)
    requires Inv(s, stranded)
    ensures Inv(Step(s, a), stranded + Latest(s, a))
    ensures ThrowsLate(s, a) ==> s.next !in stranded
  {
  }

  lemma {:induction false} RunKeepsInv(s: State, actions: seq<Action>, stranded: set<Generation>)
    requires Inv(s, stranded)
    ensures Inv(Run(s, actions), stranded + Stranded(s, actions))
    decreases |actions|
  {
    if actions == [] {
      assert stranded + {} == stranded;
    } else {
      var s', more := Step(s, actions[0]), Latest(s, actions[0]);
      StepKeepsInv(s, actions[0], stranded);
      RunKeepsInv(s', actions[1..], stranded + more);
      assert (stranded + more) + Stranded(s', actions[1..]) == stranded + (more + Stranded(s', actions[1..]));
    }
  }

  lemma {:induction false} StrandedAreNew(s: State, actions: seq<Action>, g: Generation)
    requires g in Stranded(s, actions)
    ensures g >= s.next
    decreases |actions|
  {
    if g !in Latest(s, actions[0]) {
      StrandedAreNew(Step(s, actions[0]), actions[1..], g);
    }
  }

  lemma {:induction false} EachLateThrowStrandsOne(s: State, actions: seq<Action>)
    ensures |Stranded(s, actions)| == LateThrows(s, actions)
    decreases |actions|
  {
    if actions != [] {
      var s' := Step(s, actions[0]);
      var rest := Stranded(s', actions[1..]);
      EachLateThrowStrandsOne(s', actions[1..]);
      if ThrowsLate(s, actions[0]) {
        assert s.next !in rest by {
          if s.next in rest {
            StrandedAreNew(s', actions[1..], s.next);
          }
        }
      } else {
        assert {} + rest == rest;
      }
    }
  }

  lemma FromTheStart(actions: seq<Action>)
    ensures Inv(Run(INITIAL, actions), Stranded(INITIAL, actions))
    ensures |Stranded(INITIAL, actions)| == LateThrows(INITIAL, actions)
  {
    RunKeepsInv(INITIAL, actions, {});
    EachLateThrowStrandsOne(INITIAL, actions);
    assert {} + Stranded(INITIAL, actions) == Stranded(INITIAL, actions);
  }

  /** In every run and between restarts, what is up is exactly every generation
      that threw with an operator up, and the current one unless the outer stop
      ended it or the last restart threw: so many that each late throw adds one. */
  lemma WhatIsUp(actions: seq<Action>)
    ensures var s := Run(INITIAL, actions);
            s.phase.Idle? ==>
              && s.up == Stranded(INITIAL, actions) + Held(s)
              && |s.up| == LateThrows(INITIAL, actions) + (if s.stopped || s.failed then 0 else 1)
  {
    FromTheStart(actions);
    var s := Run(INITIAL, actions);
    if s.phase.Idle? {
      HeldIsOneMore(s, Stranded(INITIAL, actions));
    }
  }

  lemma HeldIsOneMore(s: State, stranded: set<Generation>)
    requires Inv(s, stranded) && s.phase.Idle?
    ensures s.up == stranded + Held(s) && |s.up| == |stranded| + if s.stopped || s.failed then 0 else 1
  {
    assert s.up == stranded + Held(s);
    if s.stopped || s.failed {
      assert s.up == stranded;
    }
  }

  ghost predicate NeverThrowsLate(s: State, actions: seq<Action>)
    decreases |actions|
  {
    actions == [] || (!ThrowsLate(s, actions[0]) && NeverThrowsLate(Step(s, actions[0]), actions[1..]))
  }

  lemma {:induction false} NothingStranded(s: State, actions: seq<Action>)
    requires NeverThrowsLate(s, actions)
    ensures LateThrows(s, actions) == 0 && Stranded(s, actions) == {}
    decreases |actions|
  {
    if actions != [] {
      NothingStranded(Step(s, actions[0]), actions[1..]);
    }
  }

  // One generation at most, and none after the outer stop.
  ghost predicate Tidy(s: State) {
    s.phase.Idle? ==> |s.up| <= 1 && (s.stopped ==> s.up == {})
  }

  // A restart that throws late, and then the outer stop.
  function LateThrow(): seq<Action> {
    [Bring] + ([StartReturns] + ([Wipe] + ([Check(NoFault)] + ([Bring] + ([StartThrows] + ([Stop] + []))))))
  }

  lemma LateThrowOutlivesStop()
    ensures Run(INITIAL, LateThrow()) == State({2}, 1, 3, true, true, Idle, true, true)
  {
    var s1 := State({1}, 0, 1, false, true, Starting(true), false, false);
    var s2 := State({1}, 1, 2, false, true, Idle, false, true);
    var s3 := State({1}, 1, 2, false, false, Idle, false, true);
    var s4 := State({}, 1, 2, false, true, Starting(false), false, true);
    var s5 := State({2}, 1, 2, false, true, Starting(true), false, true);
    var s6 := State({2}, 1, 3, false, true, Idle, true, true);
    assert Step(s3, Check(NoFault)).up == {};
    RunCons(s6, Stop, []);
    RunCons(s5, StartThrows, [Stop] + []);
    RunCons(s4, Bring, [StartThrows] + ([Stop] + []));
    RunCons(s3, Check(NoFault), [Bring] + ([StartThrows] + ([Stop] + [])));
    RunCons(s2, Wipe, [Check(NoFault)] + ([Bring] + ([StartThrows] + ([Stop] + []))));
    RunCons(s1, StartReturns, [Wipe] + ([Check(NoFault)] + ([Bring] + ([StartThrows] + ([Stop] + [])))));
    RunCons(INITIAL, Bring, [StartReturns] + ([Wipe] + ([Check(NoFault)] + ([Bring] + ([StartThrows] + ([Stop] + []))))));
  }

  /** Whenever no start() is in progress, at most one generation is up, and none
      after the outer stop even if it landed during a restart, exactly if no
      start() may throw (`late`) once it has brought up an operator. */
  lemma OneGenerationRuns(late: bool)
    ensures (forall actions: seq<Action> :: late || NeverThrowsLate(INITIAL, actions) ==> Tidy(Run(INITIAL, actions))) <==> !late
  {
    if late {
      LateThrowOutlivesStop();
      assert !Tidy(Run(INITIAL, LateThrow()));
    } else {
      forall actions: seq<Action> | NeverThrowsLate(INITIAL, actions) ensures Tidy(Run(INITIAL, actions)) {
        NothingStranded(INITIAL, actions);
        WhatIsUp(actions);
      }
    }
  }

  /** What a start() that threw left up stays up for ever: no check, no later
      restart and no stop reaches it. */
  lemma StrandedForEver(before: seq<Action>, after: seq<Action>, g: Generation)
    requires g in Stranded(INITIAL, before)
    ensures g in Run(Run(INITIAL, before), after).up
  {
    FromTheStart(before);
    RunKeepsInv(Run(INITIAL, before), after, Stranded(INITIAL, before));
  }

  // ---- from a wipe to a restart -----------------------------------------------

  function Checks(marks: seq<Fault>): seq<Action> {
    if marks == [] then [] else [Check(marks[0])] + Checks(marks[1..])
  }

  // The first marker write that takes effect is reported as a success.
  predicate Noticed(marks: seq<Fault>) {
    marks != [] && (marks[0].NoFault? || (marks[0] == Break(false) && Noticed(marks[1..])))
  }

  lemma {:induction false} ChecksAfterWipe(s: State, marks: seq<Fault>)
    requires s.phase.Idle? && s.arranged && !s.stopped
    ensures !s.marked && Noticed(marks) ==>
              Run(s, Checks(marks)) == s.(marked := true, up := s.up - {s.current}, phase := Starting(false))
    ensures s.marked || !Noticed(marks) ==> Run(s, Checks(marks)) == s.(marked := Run(s, Checks(marks)).marked)
    decreases |marks|
  {
    if marks != [] {
      var rest := Checks(marks[1..]);
      assert Checks(marks)[1..] == rest;
      var s' := Step(s, Check(marks[0]));
      assert Run(s, Checks(marks)) == Run(s', rest);
      if s'.phase.Idle? {
        ChecksAfterWipe(s', marks[1..]);
      } else {
        ChecksWhileStarting(s', marks[1..]);
      }
    }
  }

  lemma {:induction false} ChecksWhileStarting(s: State, marks: seq<Fault>)
    requires s.phase.Starting?
    ensures Run(s, Checks(marks)) == s
    decreases |marks|
  {
    if marks != [] {
      assert Checks(marks)[1..] == Checks(marks[1..]);
      ChecksWhileStarting(s, marks[1..]);
    }
  }

  /** After a wipe the checks that follow restart the operators exactly when the
      first marker write that takes effect is reported as a success: then the
      current generation is stopped, and once start() returns one started after
      the wipe is up instead. Otherwise they leave up what was before the wipe. */
  lemma WipeIsRepaired(before: seq<Action>, marks: seq<Fault>)
    requires var s := Run(INITIAL, before); s.phase.Idle? && s.arranged && !s.stopped
    ensures var s := Run(INITIAL, before);
            var checked := Run(Step(s, Wipe), Checks(marks));
            var repaired := Step(Step(checked, Bring), StartReturns);
            && (checked.phase.Starting? <==> Noticed(marks))
            && (!Noticed(marks) ==> checked.up == s.up && repaired.up == s.up)
            && (Noticed(marks) ==>
                  && checked.up == Stranded(INITIAL, before) && checked.marked
                  && repaired.up == Stranded(INITIAL, before) + {repaired.current} && repaired.current !in s.up
                  && !repaired.failed && repaired.marked)
  {
    var s := Run(INITIAL, before);
    FromTheStart(before);
    ChecksAfterWipe(Step(s, Wipe), marks);
    assert s.up - {s.current} == Stranded(INITIAL, before);
  }

  /** Once the marker is back without a restart, no check restarts anything
      until Redis is wiped again. */
  lemma UnnoticedWipe(before: seq<Action>, marks: seq<Fault>)
    requires var s := Run(INITIAL, before); s.phase.Idle? && s.arranged && !s.stopped && !s.marked
    ensures Run(Step(Run(INITIAL, before), Check(Break(true))), Checks(marks)) == Run(INITIAL, before).(marked := true)
  {
    StillMarked(Step(Run(INITIAL, before), Check(Break(true))), marks);
  }

  lemma {:induction false} StillMarked(s: State, marks: seq<Fault>)
    requires s.marked
    ensures Run(s, Checks(marks)) == s
    decreases |marks|
  {
    if marks != [] {
      assert Checks(marks)[1..] == Checks(marks[1..]);
      StillMarked(s, marks[1..]);
    }
  }

  /** A start() that threw is not tried again while the marker, which is written
      before a restart, stays: no check changes anything. What is up then is
      only what start()s that threw left up, this one's included exactly if it
      had an operator up, and the outer stop reaches none of it. */
  lemma FailedRestartIsFinal(before: seq<Action>, marks: seq<Fault>)
    requires var s := Run(INITIAL, before); s.phase.Starting? && s.marked
    ensures var s := Run(INITIAL, before);
            var threw := Step(s, StartThrows);
            && Run(threw, Checks(marks)) == threw
            && threw.up == Stranded(INITIAL, before) + (if s.phase.brought then {s.next} else {})
            && s.next !in Stranded(INITIAL, before)
            && Step(threw, Stop).up == threw.up
  {
    FromTheStart(before);
    StillMarked(Step(Run(INITIAL, before), StartThrows), marks);
  }

  // ---- the arrangement in the source's own form ------------------------------

  /** The captured `stop` and `stopped`, and whether a start() is in progress. */
  class Restarter {
    var alive: set<Generation>
    var stop: Generation
    var started: nat
    var stopped: bool
    var marker: bool
    var running: bool
    var brought: bool
    var failed: bool
    var arranged: bool

    ghost function View(): State reads this {
      State(alive, stop, started, stopped, marker, if running then Starting(brought) else Idle, failed, arranged)
    }

    constructor ()
      ensures View() == INITIAL
    {
      alive, stop, started := {}, 0, 1;
      stopped, marker, running, brought, failed, arranged := false, true, true, false, false, false;
    }

    // A check up to its onWipe callback's start().
    method BeginCheck(mark: Fault)
      modifies this
      ensures View() == Step(old(View()), Check(mark))
      ensures var goes := old(arranged) && !old(stopped) && !old(running) && !old(marker);
              && alive == (if goes && mark.NoFault? then old(alive) - {stop} else old(alive))
              && running == (old(running) || (goes && mark.NoFault?))
              && marker == (old(marker) || (goes && mark != Break(false)))
              && stop == old(stop) && started == old(started) && stopped == old(stopped) && arranged == old(arranged) && failed == old(failed)
    {
      if !arranged || stopped || running || marker {
        return;
      }
      if mark.Break? {
        marker := mark.applied;
        return;
      }
      running, brought := true, false;
      marker := true;
      alive := alive - {stop};
    }

    // start() has its first operator watching.
    method BringUp()
      modifies this
      ensures View() == Step(old(View()), Bring)
      ensures alive == old(alive) + if old(running) && !old(brought) then {started} else {}
      ensures stop == old(stop) && started == old(started) && stopped == old(stopped) && running == old(running)
    {
      if running && !brought {
        alive, brought := alive + {started}, true;
      }
    }

    // What follows a start() that returned: at first, and in the callback.
    method EndCheck()
      modifies this
      ensures View() == Step(old(View()), StartReturns)
      ensures old(running) && old(brought) ==>
                && !running && !failed && started == old(started) + 1 && stopped == old(stopped)
                && (stopped ==> alive == old(alive) - {old(started)} && stop == old(stop))
                && (!stopped ==> alive == old(alive) && stop == old(started) && arranged)
    {
      if !running || !brought {
        return;
      }
      var restarted := started;
      running, failed := false, false;
      started := started + 1;
      if stopped {
        alive := alive - {restarted};
      } else {
        stop, arranged := restarted, true;
      }
    }

    // start() threw: `stop` is not reassigned.
    method AbandonCheck()
      modifies this
      ensures View() == Step(old(View()), StartThrows)
      ensures alive == old(alive) && stop == old(stop) && stopped == old(stopped) && arranged == old(arranged)
      ensures old(running) ==> !running && failed && started == old(started) + 1
    {
      if running {
        running, failed := false, true;
        started := started + 1;
      }
    }

    method StopAll()
      modifies this
      ensures View() == Step(old(View()), Stop)
      ensures stopped == (old(stopped) || arranged) && alive == (if arranged then old(alive) - {stop} else old(alive))
      ensures stop == old(stop) && running == old(running) && started == old(started) && arranged == old(arranged)
    {
      if arranged {
        stopped := true;
        alive := alive - {stop};
      }
    }
  }
}
