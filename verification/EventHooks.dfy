/**
  Dispatching user event hooks (src/operators/kube-oidc-user-event-hook-operator.js).

  For every user the store remembers the generation it dispatched last. A handler
  reads it, and later writes it and dispatches; handlers of different users may
  overlap freely in between.
 */
module EventHooks {
  import opened Wrappers

  type Uid = string

  // A watch event; a missing metadata.generation counts as 1.
  datatype Event =
    | Added(uid: Uid, generation: int)
    | Modified(uid: Uid, generation: int)
    | Deleted(uid: Uid)

  datatype Dispatch =
    | RanAdded(uid: Uid, generation: int)
    | RanModified(uid: Uid, generation: int)
    | RanDeleted(uid: Uid)

  // ---- one user -----------------------------------------------------------------

  // What the store holds for the user once the event is handled.
  function Seen(e: Event): Option<int> {
    if e.Deleted? then None else Some(e.generation)
  }

  // What one handler dispatches, given what it read.
  function Dispatches(remembered: Option<int>, e: Event): seq<Dispatch> {
    match e
    case Added(uid, g) =>
      if remembered == Some(g) then [] else if remembered.None? then [RanAdded(uid, g)] else [RanModified(uid, g)]
    case Modified(uid, g) => if remembered == Some(g) then [] else [RanModified(uid, g)]
    case Deleted(uid) => [RanDeleted(uid)]
  }

  // One user's events handled one after the other.
  function Dispatched(remembered: Option<int>, events: seq<Event>): seq<Dispatch>
    decreases |events|
  {
    if events == [] then [] else Dispatches(remembered, events[0]) + Dispatched(Seen(events[0]), events[1..])
  }

  function Remembered(remembered: Option<int>, events: seq<Event>): Option<int> {
    if events == [] then remembered else Seen(events[|events| - 1])
  }

  lemma {:induction false} DispatchedAppend(remembered: Option<int>, events: seq<Event>, more: seq<Event>)
    ensures Dispatched(remembered, events + more) ==
            Dispatched(remembered, events) + Dispatched(Remembered(remembered, events), more)
    decreases |events|
  {
    if events == [] {
      assert events + more == more;
    } else {
      assert (events + more)[1..] == events[1..] + more;
      DispatchedAppend(Seen(events[0]), events[1..], more);
    }
  }

  // The generations dispatched, None for a deletion.
  function Generations(dispatched: seq<Dispatch>): seq<Option<int>> {
    if dispatched == [] then []
    else [if dispatched[0].RanDeleted? then None else Some(dispatched[0].generation)] + Generations(dispatched[1..])
  }

  // What the stream reports, without what merely repeats the report before it.
  function Changes(before: Option<int>, reports: seq<Option<int>>): seq<Option<int>>
    decreases |reports|
  {
    if reports == [] then []
    else (if reports[0].Some? && reports[0] == before then [] else [reports[0]]) + Changes(reports[0], reports[1..])
  }

  function Reports(events: seq<Event>): seq<Option<int>> {
    if events == [] then [] else [Seen(events[0])] + Reports(events[1..])
  }

  /** What is dispatched for a user are the changes of its generation. */
  lemma {:induction false} DispatchedAreTheChanges(remembered: Option<int>, events: seq<Event>)
    ensures Generations(Dispatched(remembered, events)) == Changes(remembered, Reports(events))
    decreases |events|
  {
    if events != [] {
      DispatchedAreTheChanges(Seen(events[0]), events[1..]);
      var first, rest := Dispatches(remembered, events[0]), Dispatched(Seen(events[0]), events[1..]);
      if first != [] {
        assert first == [first[0]] && (first + rest)[1..] == rest;
      } else {
        assert first + rest == rest;
      }
    }
  }

  /** Added starts a life: it comes first, for a user not remembered, or right
      after a Deleted. */
  lemma {:induction false} AddedStartsALife(remembered: Option<int>, events: seq<Event>, i: nat)
    requires i < |Dispatched(remembered, events)| && Dispatched(remembered, events)[i].RanAdded?
    ensures if i == 0 then remembered.None? else Dispatched(remembered, events)[i - 1].RanDeleted?
    decreases |events|
  {
    var first, rest := Dispatches(remembered, events[0]), Dispatched(Seen(events[0]), events[1..]);
    if i >= |first| {
      AddedStartsALife(Seen(events[0]), events[1..], i - |first|);
    }
  }

  // Added? Modified* Deleted?
  ghost predicate OneLife(dispatched: seq<Dispatch>) {
    forall i :: 0 <= i < |dispatched| ==>
      && (dispatched[i].RanAdded? ==> i == 0)
      && (dispatched[i].RanDeleted? ==> i == |dispatched| - 1)
  }

  // Nothing is reported of a user after its deletion.
  ghost predicate EndsWithDeletion(events: seq<Event>) {
    forall i :: 0 <= i < |events| && events[i].Deleted? ==> i == |events| - 1
  }

  /** The dispatched events of a user have the shape Added? Modified* Deleted?,
      in every stream that reports nothing after the deletion. */
  lemma {:induction false} DispatchedIsOneLife(remembered: Option<int>, events: seq<Event>)
    requires EndsWithDeletion(events)
    ensures OneLife(Dispatched(remembered, events))
    ensures remembered.Some? ==> forall d :: d in Dispatched(remembered, events) ==> !d.RanAdded?
    decreases |events|
  {
    if events != [] {
      if |events| > 1 {
        assert !events[0].Deleted?;
      }
      forall i | 0 <= i < |events[1..]| && events[1..][i].Deleted? ensures i == |events[1..]| - 1 {
        assert events[i + 1].Deleted?;
      }
      DispatchedIsOneLife(Seen(events[0]), events[1..]);
    }
  }

  // `stuffed` is `events` with an ADDED of the remembered generation put in
  // anywhere, any number of times.
  ghost predicate WithReplays(remembered: Option<int>, events: seq<Event>, stuffed: seq<Event>)
    decreases |stuffed|
  {
    if stuffed == [] then events == []
    else
      || (stuffed[0].Added? && Some(stuffed[0].generation) == remembered && WithReplays(remembered, events, stuffed[1..]))
      || (events != [] && stuffed[0] == events[0] && WithReplays(Seen(events[0]), events[1..], stuffed[1..]))
  }

  /** Replays of the remembered generation, by restarts and handovers, change
      neither what is dispatched nor what is remembered. */
  lemma {:induction false} ReplaysChangeNothing(remembered: Option<int>, events: seq<Event>, stuffed: seq<Event>)
    requires WithReplays(remembered, events, stuffed)
    ensures Dispatched(remembered, stuffed) == Dispatched(remembered, events)
    ensures Remembered(remembered, stuffed) == Remembered(remembered, events)
    decreases |stuffed|
  {
    if stuffed != [] {
      if stuffed[0].Added? && Some(stuffed[0].generation) == remembered && WithReplays(remembered, events, stuffed[1..]) {
        ReplaysChangeNothing(remembered, events, stuffed[1..]);
        if |stuffed| == 1 {
          assert events == [];
        }
      } else {
        ReplaysChangeNothing(Seen(events[0]), events[1..], stuffed[1..]);
        if |stuffed| == 1 {
          assert events[1..] == [];
        }
        RememberedAfter(remembered, events);
        RememberedAfter(remembered, stuffed);
      }
    }
  }

  lemma RememberedAfter(remembered: Option<int>, events: seq<Event>)
    requires events != []
    ensures Remembered(remembered, events) == Remembered(Seen(events[0]), events[1..])
  {
  }

  /** After the store was wiped, the reports of a user are dispatched as they
      would have been exactly if the first one is a deletion, or a MODIFIED of a
      generation not yet dispatched: a replay is dispatched as Added, and a
      report of the old generation as a change. */
  lemma WipeIsInvisible(g: int, events: seq<Event>)
    ensures Dispatched(None, events) == Dispatched(Some(g), events) <==>
            events == [] || events[0].Deleted? || (events[0].Modified? && events[0].generation != g)
  {
    if events != [] {
      var rest := Dispatched(Seen(events[0]), events[1..]);
      var wiped, kept := Dispatches(None, events[0]), Dispatches(Some(g), events[0]);
      assert |wiped| == 1 && |kept| <= 1;
      if kept == [] {
        assert |wiped + rest| != |kept + rest|;
      } else {
        assert (wiped + rest)[0] == wiped[0] && (kept + rest)[0] == kept[0];
      }
    }
  }

  /** Seeding the store anew at a user's generation, and then the replay, dispatch
      what the replay alone would have exactly if that generation had been
      dispatched: otherwise the change, or the new user, is passed over. */
  lemma ReseedingIsInvisible(remembered: Option<int>, uid: Uid, g: int, events: seq<Event>)
    ensures Dispatched(Some(g), [Added(uid, g)] + events) == Dispatched(remembered, [Added(uid, g)] + events)
            <==> remembered == Some(g)
  {
    var rest := Dispatched(Some(g), events);
    assert ([Added(uid, g)] + events)[1..] == events;
    var replayed := Dispatches(remembered, Added(uid, g));
    assert Dispatched(remembered, [Added(uid, g)] + events) == replayed + rest;
    assert Dispatched(Some(g), [Added(uid, g)] + events) == [] + rest;
    assert |[] + rest| == |rest| && |replayed + rest| == |replayed| + |rest|;
  }

  // ---- all users, handlers overlapping ----------------------------------------------

  // A handler that has read the store.
  datatype Handler = Handler(event: Event, read: Option<int>)

  datatype State = State(
    generations: map<Uid, int>,
    running: seq<Handler>,
    dispatched: seq<Dispatch>,
    events: seq<Event>)          // all events received, in order

  datatype Action = Receive(event: Event) | Finish(handler: nat)

  function Lookup(generations: map<Uid, int>, uid: Uid): Option<int> {
    if uid in generations then Some(generations[uid]) else None
  }

  function Remember(generations: map<Uid, int>, e: Event): map<Uid, int> {
    if e.Deleted? then generations - {e.uid} else generations[e.uid := e.generation]
  }

  function Step(s: State, a: Action): State {
    match a
    case Receive(e) =>
      s.(running := s.running + [Handler(e, Lookup(s.generations, e.uid))], events := s.events + [e])
    case Finish(i) =>
      if i >= |s.running| then s
      else
        var h := s.running[i];
        var sent := Dispatches(h.read, h.event);
        // a handler with nothing to dispatch leaves the store alone as well
        State(if sent == [] then s.generations else Remember(s.generations, h.event),
              s.running[..i] + s.running[i + 1..], s.dispatched + sent, s.events)
  }

  /** A handler that began when its event came in and finishes now goes by what it
      read then, whatever the store holds by now: a report of the generation it
      read does nothing, any other is stored and dispatched. */
  lemma FinishExactly(s: State, i: nat)
    requires i < |s.running|
    ensures var s' := Step(s, Finish(i));
            var h := s.running[i];
            && s'.events == s.events && s'.running == s.running[..i] + s.running[i + 1..]
            && match h.event
               case Added(uid, g) =>
                 if h.read == Some(g) then s'.generations == s.generations && s'.dispatched == s.dispatched
                 else && s'.generations == s.generations[uid := g]
                      && s'.dispatched == s.dispatched + [if h.read.None? then RanAdded(uid, g) else RanModified(uid, g)]
               case Modified(uid, g) =>
                 if h.read == Some(g) then s'.generations == s.generations && s'.dispatched == s.dispatched
                 else s'.generations == s.generations[uid := g] && s'.dispatched == s.dispatched + [RanModified(uid, g)]
               case Deleted(uid) => s'.generations == s.generations - {uid} && s'.dispatched == s.dispatched + [RanDeleted(uid)]
  {
  }

  /** An event that comes in has its handler read the store at once. */
  lemma ReceiveExactly(s: State, e: Event)
    ensures var s' := Step(s, Receive(e));
            && s'.generations == s.generations && s'.dispatched == s.dispatched && s'.events == s.events + [e]
            && s'.running == s.running + [Handler(e, if e.uid in s.generations then Some(s.generations[e.uid]) else None)]
  {
  }

  function Run(s: State, actions: seq<Action>): State
    decreases |actions|
  {
    if actions == [] then s else Run(Step(s, actions[0]), actions[1..])
  }

  function Start(generations: map<Uid, int>): State {
    State(generations, [], [], [])
  }

  function Of(uid: Uid, events: seq<Event>): seq<Event>
    decreases |events|
  {
    if events == [] then []
    else Of(uid, events[..|events| - 1]) + if events[|events| - 1].uid == uid then [events[|events| - 1]] else []
  }

  function DispatchedFor(uid: Uid, dispatched: seq<Dispatch>): seq<Dispatch>
    decreases |dispatched|
  {
    if dispatched == [] then []
    else
      var last := dispatched[|dispatched| - 1];
      DispatchedFor(uid, dispatched[..|dispatched| - 1]) + if last.uid == uid then [last] else []
  }

  // The user's handlers at work.
  function Mine(uid: Uid, running: seq<Handler>): seq<Handler>
    decreases |running|
  {
    if running == [] then []
    else (if running[0].event.uid == uid then [running[0]] else []) + Mine(uid, running[1..])
  }

  ghost predicate Busy(s: State, uid: Uid) {
    Mine(uid, s.running) != []
  }

  // No event of the user arrives while one of its handlers is at work.
  ghost predicate InTurn(s: State, actions: seq<Action>, uid: Uid)
    decreases |actions|
  {
    actions == []
    || ((actions[0].Receive? && actions[0].event.uid == uid ==> !Busy(s, uid)) && InTurn(Step(s, actions[0]), actions[1..], uid))
  }

  // The handler took the user's last event after all before it were handled.
  ghost predicate AtWork(own: seq<Event>, dispatched: seq<Dispatch>, h: Handler, at: Option<int>) {
    && own != [] && own[|own| - 1] == h.event
    && h.read == Remembered(at, own[..|own| - 1])
    && dispatched == Dispatched(at, own[..|own| - 1])
  }

  ghost predicate AtRest(own: seq<Event>, dispatched: seq<Dispatch>, remembered: Option<int>, at: Option<int>) {
    remembered == Remembered(at, own) && dispatched == Dispatched(at, own)
  }

  // The user's handlers did what handling its events one by one would do, but
  // for the one still at work.
  ghost predicate Handling(own: seq<Event>, dispatched: seq<Dispatch>, mine: seq<Handler>, remembered: Option<int>, at: Option<int>) {
    || (mine == [] && AtRest(own, dispatched, remembered, at))
    || (|mine| == 1 && AtWork(own, dispatched, mine[0], at) && mine[0].read == remembered)
  }

  ghost predicate Inv(s: State, at: Option<int>, uid: Uid) {
    Handling(Of(uid, s.events), DispatchedFor(uid, s.dispatched), Mine(uid, s.running), Lookup(s.generations, uid), at)
  }

  lemma {:induction false} MineConcat(uid: Uid, a: seq<Handler>, b: seq<Handler>)
    ensures Mine(uid, a + b) == Mine(uid, a) + Mine(uid, b)
    decreases |a|
  {
    if a == [] {
      assert a + b == b;
    } else {
      MineConcat(uid, a[1..], b);
      var first := if a[0].event.uid == uid then [a[0]] else [];
      assert Mine(uid, a + b) == first + Mine(uid, a[1..] + b) by {
        assert (a + b)[1..] == a[1..] + b;
      }
      assert first + (Mine(uid, a[1..]) + Mine(uid, b)) == (first + Mine(uid, a[1..])) + Mine(uid, b);
    }
  }

  lemma MineOfOne(uid: Uid, h: Handler)
    ensures Mine(uid, [h]) == if h.event.uid == uid then [h] else []
  {
    assert [h][1..] == [];
  }

  lemma MineWithout(uid: Uid, running: seq<Handler>, i: nat)
    requires i < |running|
    ensures var h, rest := running[i], Mine(uid, running[..i] + running[i + 1..]);
            && (h.event.uid != uid ==> rest == Mine(uid, running))
            && (h.event.uid == uid ==> h in Mine(uid, running) && |rest| == |Mine(uid, running)| - 1)
  {
    var before, h, after := running[..i], running[i], running[i + 1..];
    assert running == (before + [h]) + after;
    MineConcat(uid, before + [h], after);
    MineConcat(uid, before, [h]);
    MineConcat(uid, before, after);
    MineOfOne(uid, h);
  }

  lemma DispatchedForAppend(uid: Uid, dispatched: seq<Dispatch>, e: Event, read: Option<int>)
    ensures DispatchedFor(uid, dispatched + Dispatches(read, e)) ==
            DispatchedFor(uid, dispatched) + if e.uid == uid then Dispatches(read, e) else []
  {
    var more := Dispatches(read, e);
    if more == [] {
      assert dispatched + more == dispatched;
    } else {
      assert more == [more[0]] && (dispatched + more)[..|dispatched|] == dispatched;
    }
  }

  lemma ReceiveKeepsInv(s: State, e: Event, at: Option<int>, uid: Uid)
    requires Inv(s, at, uid) && (e.uid == uid ==> !Busy(s, uid))
    ensures Inv(Step(s, Receive(e)), at, uid)
  {
    OneMoreEvent(s.events, e, uid);
    OneMoreHandler(s.running, Handler(e, Lookup(s.generations, e.uid)), uid);
    if e.uid == uid {
      WorkIsBegun(Of(uid, s.events), DispatchedFor(uid, s.dispatched), e, Lookup(s.generations, uid), at);
    }
  }

  lemma OneMoreEvent(events: seq<Event>, e: Event, uid: Uid)
    ensures Of(uid, events + [e]) == if e.uid == uid then Of(uid, events) + [e] else Of(uid, events)
  {
    assert (events + [e])[..|events|] == events;
  }

  lemma OneMoreHandler(running: seq<Handler>, h: Handler, uid: Uid)
    ensures Mine(uid, running + [h]) == if h.event.uid == uid then Mine(uid, running) + [h] else Mine(uid, running)
  {
    MineConcat(uid, running, [h]);
    MineOfOne(uid, h);
  }

  lemma WorkIsBegun(own: seq<Event>, dispatched: seq<Dispatch>, e: Event, remembered: Option<int>, at: Option<int>)
    requires AtRest(own, dispatched, remembered, at)
    ensures AtWork(own + [e], dispatched, Handler(e, remembered), at)
  {
    assert (own + [e])[..|own|] == own;
  }

  lemma FinishKeepsInv(s: State, i: nat, at: Option<int>, uid: Uid)
    requires Inv(s, at, uid) && i < |s.running|
    ensures Inv(Step(s, Finish(i)), at, uid)
  {
    var h := s.running[i];
    MineWithout(uid, s.running, i);
    DispatchedForAppend(uid, s.dispatched, h.event, h.read);
    RememberedAfterwards(s.generations, h.event, uid);
    var own, dispatched, mine := Of(uid, s.events), DispatchedFor(uid, s.dispatched), Mine(uid, s.running);
    if h.event.uid == uid {
      assert mine[0] == h;
      WorkIsDone(own, dispatched, h, at);
    } else {
      assert dispatched + [] == dispatched;
    }
  }

  lemma WorkIsDone(own: seq<Event>, dispatched: seq<Dispatch>, h: Handler, at: Option<int>)
    requires AtWork(own, dispatched, h, at)
    ensures AtRest(own, dispatched + Dispatches(h.read, h.event), Seen(h.event), at)
  {
    var earlier := own[..|own| - 1];
    DispatchedAppend(at, earlier, [h.event]);
    assert own == earlier + [h.event];
    assert Dispatched(h.read, [h.event]) == Dispatches(h.read, h.event);
  }

  lemma RememberedAfterwards(generations: map<Uid, int>, e: Event, uid: Uid)
    ensures Lookup(Remember(generations, e), uid) == if e.uid == uid then Seen(e) else Lookup(generations, uid)
  {
  }

  lemma {:induction false} RunKeepsInv(s: State, actions: seq<Action>, at: Option<int>, uid: Uid)
    requires Inv(s, at, uid) && InTurn(s, actions, uid)
    ensures Inv(Run(s, actions), at, uid)
    decreases |actions|
  {
    if actions != [] {
      match actions[0] {
        case Receive(e) => ReceiveKeepsInv(s, e, at, uid);
        case Finish(i) =>
          if i < |s.running| {
            FinishKeepsInv(s, i, at, uid);
          }
      }
      RunKeepsInv(Step(s, actions[0]), actions[1..], at, uid);
    }
  }

  /** However the handlers of different users overlap, each user's events are
      handled as if alone, as long as its own do not overlap. */
  lemma OverlapIsHarmless(generations: map<Uid, int>, actions: seq<Action>, uid: Uid)
    requires InTurn(Start(generations), actions, uid) && !Busy(Run(Start(generations), actions), uid)
    ensures var s := Run(Start(generations), actions);
            var at := Lookup(generations, uid);
            && DispatchedFor(uid, s.dispatched) == Dispatched(at, Of(uid, s.events))
            && Lookup(s.generations, uid) == Remembered(at, Of(uid, s.events))
  {
    RunKeepsInv(Start(generations), actions, Lookup(generations, uid), uid);
  }

  /** Two runs that differ for a user only by replays of what was remembered,
      as after restarts and handovers, dispatch the same events for it. */
  lemma HandoversChangeNothing(generations: map<Uid, int>, actions: seq<Action>, replayed: seq<Action>, uid: Uid)
    requires InTurn(Start(generations), actions, uid) && !Busy(Run(Start(generations), actions), uid)
    requires InTurn(Start(generations), replayed, uid) && !Busy(Run(Start(generations), replayed), uid)
    requires WithReplays(Lookup(generations, uid), Of(uid, Run(Start(generations), actions).events),
                         Of(uid, Run(Start(generations), replayed).events))
    ensures DispatchedFor(uid, Run(Start(generations), replayed).dispatched) ==
            DispatchedFor(uid, Run(Start(generations), actions).dispatched)
  {
    OverlapIsHarmless(generations, actions, uid);
    OverlapIsHarmless(generations, replayed, uid);
    ReplaysChangeNothing(Lookup(generations, uid), Of(uid, Run(Start(generations), actions).events),
                         Of(uid, Run(Start(generations), replayed).events));
  }

  // ---- how many handlers of one user may run at once -----------------------------------

  // An event is only received while its user has fewer than `limit` handlers.
  function LimitedRun(s: State, actions: seq<Action>, limit: nat): State
    decreases |actions|
  {
    if actions == [] then s
    else if actions[0].Receive? && |Mine(actions[0].event.uid, s.running)| >= limit then LimitedRun(s, actions[1..], limit)
    else LimitedRun(Step(s, actions[0]), actions[1..], limit)
  }

  // Whenever no handler of the user is at work, what was dispatched for it is
  // what handling its events one after the other dispatches.
  ghost predicate AsIfAlone(s: State, at: Option<int>, uid: Uid) {
    !Busy(s, uid) ==> DispatchedFor(uid, s.dispatched) == Dispatched(at, Of(uid, s.events))
  }

  lemma {:induction false} LimitedRunKeepsInv(s: State, actions: seq<Action>, limit: nat, at: Option<int>, uid: Uid)
    requires Inv(s, at, uid) && limit <= 1
    ensures Inv(LimitedRun(s, actions, limit), at, uid)
    decreases |actions|
  {
    if actions == [] {
    } else if actions[0].Receive? && |Mine(actions[0].event.uid, s.running)| >= limit {
      LimitedRunKeepsInv(s, actions[1..], limit, at, uid);
    } else {
      if actions[0].Receive? {
        ReceiveKeepsInv(s, actions[0].event, at, uid);
      } else if actions[0].handler < |s.running| {
        FinishKeepsInv(s, actions[0].handler, at, uid);
      }
      LimitedRunKeepsInv(Step(s, actions[0]), actions[1..], limit, at, uid);
    }
  }

  // A change and its replay, both read before either is written.
  function Overlap(uid: Uid, g: int): seq<Action> {
    [Receive(Modified(uid, g))] + ([Receive(Added(uid, g))] + ([Finish(0)] + ([Finish(0)] + [])))
  }

  lemma OverlapRun(generations: map<Uid, int>, uid: Uid, g: int, limit: nat)
    requires limit >= 2 && Lookup(generations, uid) != Some(g)
    ensures var at := Lookup(generations, uid);
            var s := LimitedRun(Start(generations), Overlap(uid, g), limit);
            && s.running == [] && s.events == [Modified(uid, g), Added(uid, g)]
            && s.dispatched == Dispatches(at, Modified(uid, g)) + Dispatches(at, Added(uid, g))
  {
    var at := Lookup(generations, uid);
    var e1, e2 := Modified(uid, g), Added(uid, g);
    var s0 := Start(generations);
    var s1 := State(generations, [Handler(e1, at)], [], [e1]);
    var s2 := State(generations, [Handler(e1, at), Handler(e2, at)], [], [e1, e2]);
    var s3 := State(generations[uid := g], [Handler(e2, at)], Dispatches(at, e1), [e1, e2]);
    var s4 := Step(s3, Finish(0));
    assert Step(s0, Receive(e1)) == s1 && Step(s1, Receive(e2)) == s2 && Step(s2, Finish(0)) == s3;
    assert s1.running[1..] == [];
    LimitedRunCons(s3, Finish(0), [], limit);
    LimitedRunCons(s2, Finish(0), [Finish(0)] + [], limit);
    LimitedRunCons(s1, Receive(e2), [Finish(0)] + ([Finish(0)] + []), limit);
    LimitedRunCons(s0, Receive(e1), [Receive(e2)] + ([Finish(0)] + ([Finish(0)] + [])), limit);
  }

  lemma OverlapOutcome(uid: Uid, g: int, at: Option<int>)
    requires at != Some(g)
    ensures var events := [Modified(uid, g), Added(uid, g)];
            && Of(uid, events) == events
            && Dispatched(at, events) == [RanModified(uid, g)]
            && |DispatchedFor(uid, Dispatches(at, events[0]) + Dispatches(at, events[1]))| == 2
  {
    var e1, e2 := Modified(uid, g), Added(uid, g);
    var d1, d2 := Dispatches(at, e1), Dispatches(at, e2);
    assert Of(uid, [e1, e2]) == [e1, e2] by {
      assert [e1, e2][..1] == [e1] && [e1][..0] == [];
      assert Of(uid, [e1]) == [e1];
    }
    assert Dispatched(at, [e1, e2]) == d1 + Dispatched(Some(g), [e2]) by {
      assert [e1, e2][1..] == [e2];
    }
    assert Dispatched(Some(g), [e2]) == [] by {
      assert [e2][1..] == [];
    }
    assert |DispatchedFor(uid, d1 + d2)| == 2 by {
      assert [] + d1 == d1;
      DispatchedForAppend(uid, [], e1, at);
      DispatchedForAppend(uid, d1, e2, at);
    }
  }

  /** Handlers of one user that do overlap dispatch a change twice: for any user,
      any store and any new generation. */
  lemma OverlappingHandlersOfOneUser(generations: map<Uid, int>, uid: Uid, g: int, limit: nat)
    requires limit >= 2 && Lookup(generations, uid) != Some(g)
    ensures var s := LimitedRun(Start(generations), Overlap(uid, g), limit);
            && !Busy(s, uid)
            && |DispatchedFor(uid, s.dispatched)| == 2
            && Dispatched(Lookup(generations, uid), Of(uid, s.events)) == [RanModified(uid, g)]
  {
    OverlapRun(generations, uid, g, limit);
    OverlapOutcome(uid, g, Lookup(generations, uid));
  }

  lemma LimitedRunCons(s: State, a: Action, rest: seq<Action>, limit: nat)
    requires a.Receive? ==> |Mine(a.event.uid, s.running)| < limit
    ensures LimitedRun(s, [a] + rest, limit) == LimitedRun(Step(s, a), rest, limit)
  {
    assert ([a] + rest)[1..] == rest;
  }

  /** Every run dispatches a user's events as if each were handled alone exactly
      when at most one of its handlers may run at a time. */
  lemma OneHandlerAtATime(generations: map<Uid, int>, uid: Uid, limit: nat)
    ensures (forall actions: seq<Action> :: AsIfAlone(LimitedRun(Start(generations), actions, limit), Lookup(generations, uid), uid))
            <==> limit <= 1
  {
    var at := Lookup(generations, uid);
    if limit <= 1 {
      forall actions: seq<Action> ensures AsIfAlone(LimitedRun(Start(generations), actions, limit), at, uid) {
        LimitedRunKeepsInv(Start(generations), actions, limit, at, uid);
      }
    } else {
      var g := at.GetOr(0) + 1;
      OverlappingHandlersOfOneUser(generations, uid, g, limit);
      assert !AsIfAlone(LimitedRun(Start(generations), Overlap(uid, g), limit), at, uid);
    }
  }

  // ---- the store, and the first run -----------------------------------------------------

  datatype User = User(uid: Uid, generation: Option<int>)

  function GenerationOf(u: User): int {
    u.generation.GetOr(1)
  }

  function Seeded(generations: map<Uid, int>, users: seq<User>): map<Uid, int>
    decreases |users|
  {
    if users == [] then generations
    else Seeded(generations, users[..|users| - 1])[users[|users| - 1].uid := GenerationOf(users[|users| - 1])]
  }

  ghost predicate DistinctUids(users: seq<User>) {
    forall i, j :: 0 <= i < j < |users| ==> users[i].uid != users[j].uid
  }

  // What a fresh watch reports of a listing.
  function Replay(users: seq<User>): seq<Event>
    decreases |users|
  {
    if users == [] then []
    else Replay(users[..|users| - 1]) + [Added(users[|users| - 1].uid, GenerationOf(users[|users| - 1]))]
  }

  class KubeOidcUserEventHookOperator {
    var initialized: bool
    var generations: map<Uid, int>
    var dispatched: seq<Dispatch>

    constructor (initialized: bool, generations: map<Uid, int>)
      ensures this.initialized == initialized && this.generations == generations && dispatched == []
    {
      this.initialized, this.generations, this.dispatched := initialized, generations, [];
    }

    // A failed listing is None: it leaves the store unmarked. A write may fail and
    // throw (!ok): `good` of them succeed before, and that one may have landed.
    method SeedOnFirstRun(listing: Option<seq<User>>, good: nat, landed: bool) returns (ok: bool)
      modifies this
      ensures dispatched == old(dispatched)
      ensures ok <==> old(initialized) || listing.None? || good > |listing.value|
      ensures initialized == (old(initialized) || (listing.Some? && (ok || (good == |listing.value| && landed))))
      ensures generations ==
              if old(initialized) || listing.None? then old(generations)
              else Seeded(old(generations), listing.value[..SeededUsers(|listing.value|, good, landed)])
    {
      if initialized || listing.None? {
        return true;
      }
      var users := listing.value;
      for i := 0 to |users|
        invariant i <= good && generations == Seeded(old(generations), users[..i])
        invariant !initialized && dispatched == old(dispatched)
      {
        assert users[..i + 1][..i] == users[..i];
        if i < good || landed {
          generations := generations[users[i].uid := GenerationOf(users[i])];
        }
        if i == good {
          return false;
        }
      }
      ok := good > |users|;
      initialized := ok || landed;
    }

    // Redis lost its data, this store included.
    method Wipe()
      modifies this
      ensures !initialized && generations == map[] && dispatched == old(dispatched)
    {
      initialized, generations := false, map[];
    }

    method Add(user: User)
      modifies this
      ensures Handled(Added(user.uid, GenerationOf(user)), old(generations), old(dispatched)) && initialized == old(initialized)
      ensures var g := if user.generation.Some? then user.generation.value else 1;
              && generations == old(generations)[user.uid := g]
              && dispatched == old(dispatched)
                   + (if user.uid !in old(generations) then [RanAdded(user.uid, g)]
                      else if old(generations)[user.uid] != g then [RanModified(user.uid, g)]
                      else [])
    {
      var generation := GenerationOf(user);
      var previous := Lookup(generations, user.uid);
      if previous == Some(generation) {
        return;
      }
      generations := generations[user.uid := generation];
      dispatched := dispatched + [if previous.None? then RanAdded(user.uid, generation) else RanModified(user.uid, generation)];
    }

    method Modify(user: User)
      modifies this
      ensures Handled(Modified(user.uid, GenerationOf(user)), old(generations), old(dispatched)) && initialized == old(initialized)
      ensures var g := if user.generation.Some? then user.generation.value else 1;
              && generations == old(generations)[user.uid := g]
              && dispatched == old(dispatched)
                   + (if user.uid !in old(generations) || old(generations)[user.uid] != g then [RanModified(user.uid, g)] else [])
    {
      var generation := GenerationOf(user);
      if Lookup(generations, user.uid) == Some(generation) {
        return;
      }
      generations := generations[user.uid := generation];
      dispatched := dispatched + [RanModified(user.uid, generation)];
    }

    method Delete(user: User)
      modifies this
      ensures Handled(Deleted(user.uid), old(generations), old(dispatched)) && initialized == old(initialized)
      ensures generations == old(generations) - {user.uid} && dispatched == old(dispatched) + [RanDeleted(user.uid)]
    {
      generations := generations - {user.uid};
      dispatched := dispatched + [RanDeleted(user.uid)];
    }

    // The operator went from `before` and `sent` to where it is by handling e.
    ghost predicate Handled(e: Event, before: map<Uid, int>, sent: seq<Dispatch>)
      reads this
    {
      generations == Remember(before, e) && dispatched == sent + Dispatches(Lookup(before, e.uid), e)
    }

    // A watch begins with every existing user as ADDED, handled in turn here.
    method ReplayListing(users: seq<User>)
      requires DistinctUids(users)
      modifies this
      ensures generations == Seeded(old(generations), users)
      ensures dispatched == old(dispatched) + Gap(old(generations), users)
      ensures initialized == old(initialized)
    {
      for i := 0 to |users|
        invariant generations == Seeded(old(generations), users[..i]) && initialized == old(initialized)
        invariant dispatched == old(dispatched) + Gap(old(generations), users[..i])
      {
        assert users[..i + 1][..i] == users[..i];
        NotSeededYet(old(generations), users, i);
        Add(users[i]);
      }
      assert users[..|users|] == users;
    }

    // Seeding and the watch's first replay of the same listing on a store that is
    // not marked, because it is new or was wiped, or because seeding it failed
    // before: nothing is dispatched, whatever was remembered.
    method FirstRun(users: seq<User>)
      requires DistinctUids(users) && !initialized
      modifies this
      ensures initialized && dispatched == old(dispatched) && generations == Seeded(old(generations), users)
    {
      var _ := SeedOnFirstRun(Some(users), |users| + 1, false);
      assert users[..|users|] == users;
      ReplayListing(users);
      SeedingClosesTheGap(old(generations), users, |users|);
      SeedingTwice(old(generations), users);
    }

    // A seeding that failed midway is made good by the next one.
    method FirstRunAgain(users: seq<User>, good: nat, landed: bool)
      requires DistinctUids(users) && !initialized && good < |users|
      modifies this
      ensures initialized && dispatched == old(dispatched) && generations == Seeded(old(generations), users)
    {
      var _ := SeedOnFirstRun(Some(users), good, landed);
      SeedingResumes(old(generations), users, SeededUsers(|users|, good, landed));
      FirstRun(users);
    }

    // The listing fails but the watch then works: every user not remembered,
    // on a new store everybody, is dispatched as Added.
    method FirstRunWithoutListing(users: seq<User>)
      requires DistinctUids(users) && !initialized && generations == map[]
      modifies this
      ensures !initialized && |dispatched| == |old(dispatched)| + |users|
      ensures forall i :: 0 <= i < |users| ==>
                dispatched[|old(dispatched)| + i] == RanAdded(users[i].uid, GenerationOf(users[i]))
    {
      var _ := SeedOnFirstRun(None, 0, false);
      ReplayListing(users);
      EverybodyIsNew(users);
    }
  }

  // How many users a seeding gets into the store.
  function SeededUsers(users: nat, good: nat, landed: bool): (n: nat)
    ensures n <= users
  {
    if good >= users then users else if landed then good + 1 else good
  }

  // What a replayed listing dispatches: Added for whom the store does not know,
  // Modified for whose generation moved on, nothing for the rest.
  function Gap(generations: map<Uid, int>, users: seq<User>): seq<Dispatch>
    decreases |users|
  {
    if users == [] then []
    else
      var last := users[|users| - 1];
      Gap(generations, users[..|users| - 1])
      + Dispatches(Lookup(generations, last.uid), Added(last.uid, GenerationOf(last)))
  }

  lemma {:induction false} SeededElsewhere(generations: map<Uid, int>, users: seq<User>, uid: Uid)
    requires forall i :: 0 <= i < |users| ==> users[i].uid != uid
    ensures Lookup(Seeded(generations, users), uid) == Lookup(generations, uid)
    decreases |users|
  {
    if users != [] {
      SeededElsewhere(generations, users[..|users| - 1], uid);
    }
  }

  lemma NotSeededYet(generations: map<Uid, int>, users: seq<User>, i: nat)
    requires DistinctUids(users) && i < |users|
    ensures Lookup(Seeded(generations, users[..i]), users[i].uid) == Lookup(generations, users[i].uid)
  {
    SeededElsewhere(generations, users[..i], users[i].uid);
  }

  lemma {:induction false} SeededWhere(generations: map<Uid, int>, users: seq<User>, i: nat)
    requires DistinctUids(users) && i < |users|
    ensures Lookup(Seeded(generations, users), users[i].uid) == Some(GenerationOf(users[i]))
    decreases |users|
  {
    if i < |users| - 1 {
      SeededWhere(generations, users[..|users| - 1], i);
      assert users[i].uid != users[|users| - 1].uid;
    }
  }

  /** A replayed listing dispatches nothing exactly when every listed user is
      remembered at the generation listed. */
  lemma {:induction false} QuietReplay(generations: map<Uid, int>, users: seq<User>)
    ensures Gap(generations, users) == [] <==>
            forall i :: 0 <= i < |users| ==> Lookup(generations, users[i].uid) == Some(GenerationOf(users[i]))
    decreases |users|
  {
    if users != [] {
      var prefix, last := users[..|users| - 1], users[|users| - 1];
      QuietReplay(generations, prefix);
      if Gap(generations, prefix) != [] {
        var i :| 0 <= i < |prefix| && Lookup(generations, prefix[i].uid) != Some(GenerationOf(prefix[i]));
        assert users[i] == prefix[i];
      }
    }
  }

  lemma SeedingClosesTheGap(generations: map<Uid, int>, users: seq<User>, n: nat)
    requires DistinctUids(users) && n <= |users|
    ensures Gap(Seeded(generations, users), users[..n]) == []
  {
    forall i | 0 <= i < n ensures Lookup(Seeded(generations, users), users[..n][i].uid) == Some(GenerationOf(users[..n][i])) {
      SeededWhere(generations, users, i);
    }
    QuietReplay(Seeded(generations, users), users[..n]);
  }

  lemma SeedingTwice(generations: map<Uid, int>, users: seq<User>)
    requires DistinctUids(users)
    ensures Seeded(Seeded(generations, users), users) == Seeded(generations, users)
  {
    var once := Seeded(generations, users);
    forall i | 0 <= i < |users| ensures Lookup(once, users[i].uid) == Some(GenerationOf(users[i])) {
      SeededWhere(generations, users, i);
    }
    SeedingTheSame(once, users);
  }

  lemma {:induction false} SeededLookup(generations: map<Uid, int>, other: map<Uid, int>, users: seq<User>, uid: Uid)
    requires Lookup(generations, uid) == Lookup(other, uid) || exists i :: 0 <= i < |users| && users[i].uid == uid
    ensures Lookup(Seeded(generations, users), uid) == Lookup(Seeded(other, users), uid)
    decreases |users|
  {
    if users != [] && users[|users| - 1].uid != uid {
      var prefix := users[..|users| - 1];
      if i :| 0 <= i < |users| && users[i].uid == uid {
        assert prefix[i].uid == uid;
      }
      SeededLookup(generations, other, prefix, uid);
    }
  }

  /** Seeding part of a listing and then all of it is seeding all of it. */
  lemma SeedingResumes(generations: map<Uid, int>, users: seq<User>, n: nat)
    requires n <= |users|
    ensures Seeded(Seeded(generations, users[..n]), users) == Seeded(generations, users)
  {
    var part := Seeded(generations, users[..n]);
    var twice, once := Seeded(part, users), Seeded(generations, users);
    forall uid ensures Lookup(twice, uid) == Lookup(once, uid) {
      if forall i :: 0 <= i < n ==> users[..n][i].uid != uid {
        SeededElsewhere(generations, users[..n], uid);
      } else {
        var i :| 0 <= i < n && users[..n][i].uid == uid;
        assert users[i].uid == uid;
      }
      SeededLookup(part, generations, users, uid);
    }
    SameLookups(twice, once);
  }

  lemma SameLookups(a: map<Uid, int>, b: map<Uid, int>)
    requires forall uid :: Lookup(a, uid) == Lookup(b, uid)
    ensures a == b
  {
    forall uid ensures (uid in a <==> uid in b) && (uid in a ==> a[uid] == b[uid]) {
      assert Lookup(a, uid) == Lookup(b, uid);
    }
  }

  lemma {:induction false} SeedingTheSame(generations: map<Uid, int>, users: seq<User>)
    requires forall i :: 0 <= i < |users| ==> Lookup(generations, users[i].uid) == Some(GenerationOf(users[i]))
    ensures Seeded(generations, users) == generations
    decreases |users|
  {
    if users != [] {
      SeedingTheSame(generations, users[..|users| - 1]);
      var last := users[|users| - 1];
      assert Lookup(generations, last.uid) == Some(GenerationOf(last));
    }
  }

  lemma {:induction false} EverybodyIsNew(users: seq<User>)
    ensures |Gap(map[], users)| == |users|
    ensures forall i :: 0 <= i < |users| ==> Gap(map[], users)[i] == RanAdded(users[i].uid, GenerationOf(users[i]))
    decreases |users|
  {
    if users != [] {
      EverybodyIsNew(users[..|users| - 1]);
    }
  }
}
