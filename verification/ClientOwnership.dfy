/**
  Which instance owns a client (src/operators/kube-oidc-middleware-client-operator.js,
  src/operators/kube-oidc-client-operator.js).

  Several Passmower instances see the same client resource through events that
  may be stale, claim it with a conditional status write, work on it, write its
  Redis record and report on its status. Every write is a step of its own.
 */
module ClientOwnership {
  import opened Wrappers

  type Instance = string
  type TaskId = nat

  // The two operators differ in when they validate spec.claimMappings: the
  // client operator's ADDED path does it before looking at the owner.
  datatype Operator = ClientOperator | MiddlewareOperator

  datatype Event = Added | Modified | Deleted

  datatype Progress = Begun | Claiming | Working | WritingRedis | Reporting | Finished

  // `version`, `owner` and `valid`, whether its spec.claimMappings are valid, are
  // those of the resource object in hand.
  datatype Task = Task(instance: Instance, event: Event, version: nat, owner: Option<Instance>, valid: bool, progress: Progress)

  // `owners[v]` is status.instance at resourceVersion v; the last one is current.
  datatype World = World(
    operator: Operator,
    owners: seq<Option<Instance>>, claims: seq<Instance>, redisWriters: seq<Instance>,
    tasks: map<TaskId, Task>)

  datatype Fault = NoFault | Break(applied: bool)

  datatype Action =
    | Deliver(id: TaskId, instance: Instance, event: Event, version: nat, valid: bool)
    | Decide(id: TaskId)
    | WriteStatus(id: TaskId, fault: Fault)
    | Work(id: TaskId, ok: bool, writesRedis: bool)
    | WriteRedis(id: TaskId, fault: Fault)
    | Touch

  predicate Rejects(w: World, valid: bool) {
    w.operator == ClientOperator && !valid
  }

  function Current(w: World): Option<Instance>
    requires w.owners != []
  {
    w.owners[|w.owners| - 1]
  }

  // Where a task goes from an event, before its first await.
  function FirstStep(w: World, t: Task): Progress {
    match t.event
    case Deleted => if t.owner == Some(t.instance) then WritingRedis else Finished
    case Added =>
      if Rejects(w, t.valid) then Reporting
      else if t.owner == Some(t.instance) then Working
      else if t.owner.None? then Claiming
      else Finished
    case Modified =>
      if t.owner == Some(t.instance) then if Rejects(w, t.valid) then Reporting else Working
      else if t.owner.None? then Claiming
      else Finished
  }

  predicate Lands(w: World, t: Task, fault: Fault) {
    t.version == |w.owners| - 1 && (fault.NoFault? || fault.applied)
  }

  function AfterStatus(w: World, t: Task, fault: Fault): Task {
    if t.progress.Claiming? && Lands(w, t, fault) && fault.NoFault?
    then t.(version := |w.owners|, owner := Some(t.instance),
            progress := if t.event.Modified? && Rejects(w, t.valid) then Reporting else Working)
    else t.(progress := Finished)
  }

  function SetTask(w: World, id: TaskId, t: Task): World {
    w.(tasks := w.tasks[id := t])
  }

  function Step(w: World, a: Action): World
    requires w.owners != []
    ensures Step(w, a).owners != []
  {
    match a
    case Touch => w.(owners := w.owners + [Current(w)])
    case Deliver(id, instance, event, version, valid) =>
      if id in w.tasks || version >= |w.owners| then w
      else SetTask(w, id, Task(instance, event, version, w.owners[version], valid, Begun))
    case Decide(id) =>
      if id !in w.tasks || !w.tasks[id].progress.Begun? then w
      else SetTask(w, id, w.tasks[id].(progress := FirstStep(w, w.tasks[id])))
    case WriteStatus(id, fault) =>
      if id !in w.tasks || !(w.tasks[id].progress.Claiming? || w.tasks[id].progress.Reporting?) then w
      else
        var t := w.tasks[id];
        var w' := SetTask(w, id, AfterStatus(w, t, fault));
        if !Lands(w, t, fault) then w'
        else w'.(owners := w.owners + [Some(t.instance)],
                 claims := if Current(w).None? then w.claims + [t.instance] else w.claims)
    case Work(id, ok, writesRedis) =>
      if id !in w.tasks || !w.tasks[id].progress.Working? then w
      else SetTask(w, id, w.tasks[id].(progress := if ok && writesRedis then WritingRedis else Reporting))
    case WriteRedis(id, fault) =>
      if id !in w.tasks || !w.tasks[id].progress.WritingRedis? then w
      else
        var t := w.tasks[id];
        var w' := SetTask(w, id, t.(progress := if t.event.Deleted? then Finished else Reporting));
        if fault.NoFault? || fault.applied then w'.(redisWriters := w.redisWriters + [t.instance]) else w'
  }

  function Run(w: World, actions: seq<Action>): World
    requires w.owners != []
    decreases |actions|
  {
    if actions == [] then w else Run(Step(w, actions[0]), actions[1..])
  }

  function Init(operator: Operator, owner: Option<Instance>): World {
    World(operator, [owner], [], [], map[])
  }

  // At most one claim ever succeeds, ownership never moves afterwards, and only
  // the owner writes the client's Redis record.
  ghost predicate SingleOwner(w: World) {
    && w.owners != []
    && (forall i, j :: 0 <= i <= j < |w.owners| && w.owners[i].Some? ==> w.owners[j] == w.owners[i])
    && |w.claims| <= 1
    && (w.claims != [] ==> w.owners[0].None?)
    && (w.owners[0].None? ==>
          Current(w) == if w.claims == [] then None else Some(w.claims[0]))
    && (forall x :: x in w.redisWriters ==> Current(w) == Some(x))
  }

  ghost predicate SoundTask(w: World, t: Task) {
    && t.version < |w.owners| && w.owners[t.version] == t.owner
    && (t.progress.Claiming? ==> t.owner.None?)
    && (t.progress.Working? || t.progress.WritingRedis? || t.progress.Reporting? ==> t.owner == Some(t.instance))
    && OwnerFirst(w.operator, t.event, t.valid)
  }

  ghost predicate Inv(w: World) {
    && SingleOwner(w)
    && forall id :: id in w.tasks ==> SoundTask(w, w.tasks[id])
  }

  // An event is not reported on before the owner was looked at.
  ghost predicate OwnerFirst(operator: Operator, event: Event, valid: bool) {
    operator == MiddlewareOperator || !event.Added? || valid
  }

  ghost predicate AllOwnerFirst(operator: Operator, actions: seq<Action>) {
    forall i :: 0 <= i < |actions| && actions[i].Deliver? ==> OwnerFirst(operator, actions[i].event, actions[i].valid)
  }

  // The one write that matters: it keeps the owner or makes the first claim.
  lemma StatusKeepsInv(w: World, id: TaskId, fault: Fault)
    requires Inv(w)
    ensures Inv(Step(w, WriteStatus(id, fault)))
  {
    var w' := Step(w, WriteStatus(id, fault));
    if id in w.tasks {
      assert SoundTask(w, w.tasks[id]);
      forall other | other in w'.tasks ensures SoundTask(w', w'.tasks[other]) {
        assert other in w.tasks && SoundTask(w, w.tasks[other]);
      }
      OwnershipStays(w, id, fault);
    }
  }

  // A status write that lands was begun by the owner, or finds no owner yet.
  lemma OwnershipStays(w: World, id: TaskId, fault: Fault)
    requires Inv(w) && id in w.tasks
    ensures SingleOwner(Step(w, WriteStatus(id, fault)))
  {
    var w' := Step(w, WriteStatus(id, fault));
    assert SoundTask(w, w.tasks[id]);
    if w'.owners != w.owners {
      forall i, j | 0 <= i <= j < |w'.owners| && w'.owners[i].Some? ensures w'.owners[j] == w'.owners[i] {
        if j == |w.owners| && i < j {
          assert w.owners[|w.owners| - 1] == w.owners[i];
        }
      }
    }
  }

  lemma TouchKeepsInv(w: World)
    requires Inv(w)
    ensures Inv(Step(w, Touch))
  {
    var w' := Step(w, Touch);
    forall id | id in w'.tasks ensures SoundTask(w', w'.tasks[id]) {
      assert SoundTask(w, w.tasks[id]);
    }
    forall i, j | 0 <= i <= j < |w'.owners| && w'.owners[i].Some? ensures w'.owners[j] == w'.owners[i] {
      var k := if i < |w.owners| then i else |w.owners| - 1;
      assert w.owners[|w.owners| - 1] == w.owners[k];
    }
  }

  // A step that leaves the resource's history alone and touches one task.
  lemma TaskStepKeepsInv(w: World, w': World, id: TaskId, t: Task)
    requires Inv(w) && SoundTask(w, t)
    requires w'.operator == w.operator && w'.owners == w.owners && w'.claims == w.claims && w'.tasks == w.tasks[id := t]
    requires w'.redisWriters == w.redisWriters || (w'.redisWriters == w.redisWriters + [t.instance] && Current(w) == Some(t.instance))
    ensures Inv(w')
  {
    forall other | other in w'.tasks ensures SoundTask(w', w'.tasks[other]) {
      assert other != id ==> SoundTask(w, w.tasks[other]);
    }
  }

  lemma LocalStepKeepsInv(w: World, a: Action)
    requires Inv(w) && !a.Touch? && !a.WriteStatus?
    requires a.Deliver? ==> OwnerFirst(w.operator, a.event, a.valid)
    ensures Inv(Step(w, a))
  {
    var w' := Step(w, a);
    if w' != w {
      if !a.Deliver? {
        assert SoundTask(w, w.tasks[a.id]);
        assert w.tasks[a.id].progress.WritingRedis? ==> w.owners[|w.owners| - 1] == w.owners[w.tasks[a.id].version];
      }
      TaskStepKeepsInv(w, w', a.id, w'.tasks[a.id]);
    }
  }

  lemma StepKeepsInv(w: World, a: Action)
    requires Inv(w) && (a.Deliver? ==> OwnerFirst(w.operator, a.event, a.valid))
    ensures Inv(Step(w, a))
    ensures Step(w, a).operator == w.operator
    ensures Step(w, a).owners[0] == w.owners[0]
  {
    match a
    case Touch => TouchKeepsInv(w);
    case WriteStatus(id, fault) => StatusKeepsInv(w, id, fault);
    case _ => LocalStepKeepsInv(w, a);
  }

  lemma {:induction false} RunKeepsInv(w: World, actions: seq<Action>)
    requires Inv(w) && AllOwnerFirst(w.operator, actions)
    ensures Inv(Run(w, actions)) && Run(w, actions).owners[0] == w.owners[0]
    decreases |actions|
  {
    if actions != [] {
      StepKeepsInv(w, actions[0]);
      forall i | 0 <= i < |actions[1..]| && actions[1..][i].Deliver?
        ensures OwnerFirst(w.operator, actions[1..][i].event, actions[1..][i].valid)
      {
        assert actions[1..][i] == actions[i + 1];
      }
      RunKeepsInv(Step(w, actions[0]), actions[1..]);
    }
  }

  lemma RunCons(w: World, a: Action, rest: seq<Action>)
    requires w.owners != []
    ensures Run(w, [a] + rest) == Run(Step(w, a), rest)
  {
    assert ([a] + rest)[1..] == rest;
  }

  // One ADDED event whose mappings check fails.
  function Rejection(id: TaskId, instance: Instance, version: nat, rest: seq<Action>): seq<Action> {
    [Deliver(id, instance, Added, version, false)] + ([Decide(id)] + ([WriteStatus(id, NoFault)] + rest))
  }

  // It reports the failure on the status, and that write carries its own name.
  lemma RejectionOverwrites(w: World, id: TaskId, instance: Instance, rest: seq<Action>) returns (w': World)
    requires w.owners != [] && w.operator == ClientOperator && id !in w.tasks
    ensures w'.owners == w.owners + [Some(instance)] && w'.operator == w.operator && w'.tasks.Keys == w.tasks.Keys + {id}
    ensures Run(w, Rejection(id, instance, |w.owners| - 1, rest)) == Run(w', rest)
  {
    var version := |w.owners| - 1;
    var delivered := Deliver(id, instance, Added, version, false);
    var w1 := Step(w, delivered);
    var w2 := Step(w1, Decide(id));
    w' := Step(w2, WriteStatus(id, NoFault));
    RunCons(w, delivered, [Decide(id)] + ([WriteStatus(id, NoFault)] + rest));
    RunCons(w1, Decide(id), [WriteStatus(id, NoFault)] + rest);
    RunCons(w2, WriteStatus(id, NoFault), rest);
  }

  /** Whoever owns a client, any two instances whose checks reject it overwrite
      the owner, and each other. */
  lemma RejectionSteals(owner: Option<Instance>, x: Instance, y: Instance)
    requires x != y
    ensures var w := Run(Init(ClientOperator, owner), Rejection(1, x, 0, Rejection(2, y, 1, [])));
            w.owners == [owner, Some(x), Some(y)] && !SingleOwner(w)
  {
    var w0 := Init(ClientOperator, owner);
    var w1 := RejectionOverwrites(w0, 1, x, Rejection(2, y, 1, []));
    var w2 := RejectionOverwrites(w1, 2, y, []);
    assert w2.owners[1] != w2.owners[2];
  }

  /** In every interleaving of creates, updates, deletes and status writes by any
      number of instances, through edits of the spec, one owner at most is ever
      made, it stays, and only it writes the Redis record. `rejected` is whether
      an ADDED event may carry invalid mappings; ownership is stable exactly
      when none does, or the operator is the middleware one, which has no such
      check. Invalid mappings on a MODIFIED event do no harm. */
  lemma OwnershipIsStable(operator: Operator, owner: Option<Instance>, rejected: bool)
    ensures (forall actions: seq<Action> :: (forall i :: 0 <= i < |actions| && actions[i].Deliver? && actions[i].event.Added? ==>
                                               rejected || actions[i].valid)
                                            ==> SingleOwner(Run(Init(operator, owner), actions)))
            <==> operator == MiddlewareOperator || !rejected
  {
    if operator == MiddlewareOperator || !rejected {
      forall actions: seq<Action> | AllOwnerFirst(operator, actions) ensures SingleOwner(Run(Init(operator, owner), actions)) {
        RunKeepsInv(Init(operator, owner), actions);
      }
      forall actions: seq<Action> | forall i :: 0 <= i < |actions| && actions[i].Deliver? && actions[i].event.Added? ==>
                                      rejected || actions[i].valid
        ensures AllOwnerFirst(operator, actions)
      {
      }
    } else {
      RejectionSteals(owner, "a", "b");
      assert !SingleOwner(Run(Init(operator, owner), Rejection(1, "a", 0, Rejection(2, "b", 1, []))));
    }
  }

  /** Of any instances racing for an unclaimed client, one that finished a claim
      is the owner, and no other has got past claiming. */
  lemma OneClaimWins(operator: Operator, actions: seq<Action>, id: TaskId)
    requires AllOwnerFirst(operator, actions)
    requires var w := Run(Init(operator, None), actions);
             id in w.tasks && (w.tasks[id].progress.Working? || w.tasks[id].progress.WritingRedis? || w.tasks[id].progress.Reporting?)
    ensures var w := Run(Init(operator, None), actions);
            w.claims == [w.tasks[id].instance] && w.owners != [] && Current(w) == Some(w.tasks[id].instance)
  {
    RunKeepsInv(Init(operator, None), actions);
    var w := Run(Init(operator, None), actions);
    assert SoundTask(w, w.tasks[id]);
    assert w.owners[|w.owners| - 1] == w.owners[w.tasks[id].version];
  }

  // ---- what one event does by itself ----------------------------------------

  // Whether the operator's work succeeds and calls for a Redis write, and what
  // becomes of the first status write, the Redis write and the last status write.
  datatype Course = Course(ok: bool, writesRedis: bool, first: Fault, redis: Fault, last: Fault)

  function Handling(id: TaskId, instance: Instance, event: Event, version: nat, valid: bool, c: Course): seq<Action> {
    [Deliver(id, instance, event, version, valid)] + ([Decide(id)] + ([WriteStatus(id, c.first)]
      + ([Work(id, c.ok, c.writesRedis)] + ([WriteRedis(id, c.redis)] + ([WriteStatus(id, c.last)] + [])))))
  }

  predicate Stored(fault: Fault) {
    fault.NoFault? || fault == Break(true)
  }

  // The steps after the first status write.
  function Tail(w: World, id: TaskId, c: Course): World
    requires w.owners != []
  {
    Step(Step(Step(w, Work(id, c.ok, c.writesRedis)), WriteRedis(id, c.redis)), WriteStatus(id, c.last))
  }

  lemma HandlingIsSixSteps(w: World, id: TaskId, instance: Instance, event: Event, version: nat, valid: bool, c: Course) returns (w1: World)
    requires w.owners != [] && id !in w.tasks && version < |w.owners|
    ensures w1 == w.(tasks := w.tasks[id := Task(instance, event, version, w.owners[version], valid, Begun)])
    ensures Run(w, Handling(id, instance, event, version, valid, c)) == Tail(Step(Step(w1, Decide(id)), WriteStatus(id, c.first)), id, c)
  {
    var first, work, redis, last := WriteStatus(id, c.first), Work(id, c.ok, c.writesRedis), WriteRedis(id, c.redis), WriteStatus(id, c.last);
    w1 := Step(w, Deliver(id, instance, event, version, valid));
    var w2 := Step(w1, Decide(id));
    var w3 := Step(w2, first);
    var w4 := Step(w3, work);
    var w5 := Step(w4, redis);
    RunCons(w5, last, []);
    RunCons(w4, redis, [last] + []);
    RunCons(w3, work, [redis] + ([last] + []));
    RunCons(w2, first, [work] + ([redis] + ([last] + [])));
    RunCons(w1, Decide(id), [first] + ([work] + ([redis] + ([last] + []))));
    RunCons(w, Deliver(id, instance, event, version, valid), [Decide(id)] + ([first] + ([work] + ([redis] + ([last] + [])))));
  }

  // How the tail goes on from where the first status write left the task.
  lemma TailByProgress(w: World, id: TaskId, c: Course)
    requires w.owners != [] && id in w.tasks
    requires var t := w.tasks[id]; t.progress in {Working, Reporting, Finished} || (t.progress == WritingRedis && t.event == Deleted)
    requires w.tasks[id].event == Deleted ==> w.tasks[id].progress in {WritingRedis, Finished}
    ensures var t, w' := w.tasks[id], Tail(w, id, c);
            var writes := t.progress == WritingRedis || (t.progress == Working && c.ok && c.writesRedis);
            var reports := t.progress == Working || t.progress == Reporting;
            && w'.redisWriters == w.redisWriters + (if writes && Stored(c.redis) then [t.instance] else [])
            && w'.owners == w.owners + (if reports && t.version == |w.owners| - 1 && Stored(c.last) then [Some(t.instance)] else [])
  {
    var t := w.tasks[id];
    var w1 := Step(w, Work(id, c.ok, c.writesRedis));
    var w2 := Step(w1, WriteRedis(id, c.redis));
    match t.progress
    case Working => assert w1.tasks[id] == t.(progress := if c.ok && c.writesRedis then WritingRedis else Reporting);
    case WritingRedis => assert w2.tasks[id] == t.(progress := Finished);
    case Reporting =>
    case Finished =>
  }

  // What the first decision and the first status write make of a task.
  lemma Head(w: World, w1: World, id: TaskId, me: Instance, event: Event, version: nat, valid: bool, first: Fault)
    requires w.owners != [] && version < |w.owners|
    requires w1 == w.(tasks := w.tasks[id := Task(me, event, version, w.owners[version], valid, Begun)])
    ensures var w3 := Step(Step(w1, Decide(id)), WriteStatus(id, first));
            var seen, current := w.owners[version], version == |w.owners| - 1;
            var rejects := w.operator == ClientOperator && !valid;
            var reports := event != Deleted && rejects && (event == Added || seen == Some(me));
            var claims := event != Deleted && !reports && seen.None?;
            var stored := (reports || claims) && current && Stored(first);
            var claimed := claims && current && first.NoFault?;
            && w3.operator == w.operator && w3.redisWriters == w.redisWriters
            && w3.owners == w.owners + (if stored then [Some(me)] else [])
            && id in w3.tasks && w3.tasks[id].instance == me && w3.tasks[id].event == event
            && w3.tasks[id].version == (if claimed then |w.owners| else version)
            && w3.tasks[id].progress ==
                 if event == Deleted then (if seen == Some(me) then WritingRedis else Finished)
                 else if claimed then (if rejects then Reporting else Working)
                 else if seen == Some(me) && !rejects then Working
                 else Finished
  {
    assert event == Added || event == Modified || event == Deleted;
  }

  /** An ADDED event that nothing else interleaves with. Mappings the client
      operator rejects are reported at once, under the instance's own name.
      Otherwise the owner works and reports; an unclaimed client is claimed first,
      and worked on only if the claim was answered; anyone else's is left alone.
      Status writes count only on the version in hand. */
  lemma AddedByItself(w: World, id: TaskId, me: Instance, version: nat, valid: bool, c: Course)
    requires w.owners != [] && id !in w.tasks && version < |w.owners|
    ensures var w' := Run(w, Handling(id, me, Added, version, valid, c));
            var seen, current := w.owners[version], version == |w.owners| - 1;
            var rejects := w.operator == ClientOperator && !valid;
            var begins := current && Stored(c.first) && (rejects || seen.None?);
            var works := !rejects && (seen == Some(me) || (seen.None? && current && c.first.NoFault?));
            && w'.redisWriters == w.redisWriters + (if works && c.ok && c.writesRedis && Stored(c.redis) then [me] else [])
            && w'.owners == w.owners + (if begins then [Some(me)] else []) + (if works && current && Stored(c.last) then [Some(me)] else [])
  {
    var w1 := HandlingIsSixSteps(w, id, me, Added, version, valid, c);
    Head(w, w1, id, me, Added, version, valid, c.first);
    TailByProgress(Step(Step(w1, Decide(id)), WriteStatus(id, c.first)), id, c);
  }

  /** A MODIFIED event by itself. The owner is looked at first: someone else's
      client is left alone whatever its mappings, an unclaimed one is claimed, and
      rejected mappings are then reported by the owner. */
  lemma ModifiedByItself(w: World, id: TaskId, me: Instance, version: nat, valid: bool, c: Course)
    requires w.owners != [] && id !in w.tasks && version < |w.owners|
    ensures var w' := Run(w, Handling(id, me, Modified, version, valid, c));
            var seen, current := w.owners[version], version == |w.owners| - 1;
            var rejects := w.operator == ClientOperator && !valid;
            var begins := current && Stored(c.first) && (seen.None? || (seen == Some(me) && rejects));
            var claimed := seen.None? && current && c.first.NoFault?;
            var goesOn := claimed || (seen == Some(me) && !rejects);
            && w'.redisWriters == w.redisWriters + (if goesOn && !rejects && c.ok && c.writesRedis && Stored(c.redis) then [me] else [])
            && w'.owners == w.owners + (if begins then [Some(me)] else []) + (if goesOn && current && Stored(c.last) then [Some(me)] else [])
  {
    var w1 := HandlingIsSixSteps(w, id, me, Modified, version, valid, c);
    Head(w, w1, id, me, Modified, version, valid, c.first);
    TailByProgress(Step(Step(w1, Decide(id)), WriteStatus(id, c.first)), id, c);
  }

  /** Any other write moves the resource to a version with the same owner. */
  lemma TouchExactly(w: World)
    requires w.owners != []
    ensures Step(w, Touch) == w.(owners := w.owners + [w.owners[|w.owners| - 1]])
  {
  }

  /** A DELETED event by itself: the owner, and nobody else, takes the Redis record
      away, and no status is written. */
  lemma DeletedByItself(w: World, id: TaskId, me: Instance, version: nat, valid: bool, c: Course)
    requires w.owners != [] && id !in w.tasks && version < |w.owners|
    ensures var w' := Run(w, Handling(id, me, Deleted, version, valid, c));
            && w'.redisWriters == w.redisWriters + (if w.owners[version] == Some(me) && Stored(c.redis) then [me] else [])
            && w'.owners == w.owners
  {
    var w1 := HandlingIsSixSteps(w, id, me, Deleted, version, valid, c);
    Head(w, w1, id, me, Deleted, version, valid, c.first);
    TailByProgress(Step(Step(w1, Decide(id)), WriteStatus(id, c.first)), id, c);
  }

  // ---- one ADDED event in the source's own form ---------------------------

  class Resource {
    var owners: seq<Option<Instance>>
    var redisWriters: seq<Instance>

    constructor (owner: Option<Instance>)
      ensures owners == [owner] && redisWriters == []
    {
      owners, redisWriters := [owner], [];
    }

    // replaceNamespacedCustomObjectStatus: undefined when the version is stale and
    // after any other failure, which may have struck once the status was stored.
    method ReplaceStatus(version: nat, instance: Instance, fault: Fault) returns (answered: bool)
      modifies this`owners
      ensures owners == old(owners) || (version == |old(owners)| - 1 && owners == old(owners) + [Some(instance)])
      ensures owners != old(owners) <==> version == |old(owners)| - 1 && (fault.NoFault? || fault.applied)
      ensures answered <==> owners != old(owners) && fault.NoFault?
    {
      var stored := version == |owners| - 1 && (fault.NoFault? || fault.applied);
      if stored {
        owners := owners + [Some(instance)];
      }
      answered := stored && fault.NoFault?;
    }

    // Other writers, who keep to the protocol: they rewrite the status under the
    // owner there is, if any, or touch the resource otherwise.
    method Interfere(writes: nat)
      modifies this`owners
      requires owners != []
      ensures owners == old(owners) + Repeated(old(owners)[|old(owners)| - 1], writes)
    {
      ghost var current := owners[|owners| - 1];
      for i := 0 to writes
        invariant owners == old(owners) + Repeated(current, i)
        invariant owners[|owners| - 1] == current
      {
        owners := owners + [owners[|owners| - 1]];
      }
    }
  }

  function Repeated(owner: Option<Instance>, n: nat): (r: seq<Option<Instance>>)
    ensures |r| == n
    ensures n > 0 ==> r[n - 1] == owner
  {
    if n == 0 then [] else Repeated(owner, n - 1) + [owner]
  }

  // The middleware operator's ADDED path from a possibly stale event object:
  // a claim, one Redis write, one report. Someone else's client is left alone, a
  // claim that was not answered goes no further, and a report made after other
  // writers were there is refused.
  method CreateMiddlewareClient(resource: Resource, instance: Instance, version: nat, middlewareOk: bool,
                                claim: Fault, meanwhile: nat, report: Fault)
    requires version < |resource.owners|
    modifies resource
    ensures var seen, current := old(resource.owners[version]), version == |old(resource.owners)| - 1;
            var claims := seen.None? && current && (claim.NoFault? || claim.applied);
            var mine := seen == Some(instance) || (claims && claim.NoFault?);
            var claimed := old(resource.owners) + (if claims then [Some(instance)] else []);
            && resource.redisWriters == old(resource.redisWriters) + (if mine && middlewareOk then [instance] else [])
            && resource.owners ==
                 if !mine then claimed
                 else claimed + Repeated(claimed[|claimed| - 1], meanwhile)
                      + (if current && meanwhile == 0 && (report.NoFault? || report.applied) then [Some(instance)] else [])
  {
    var inHand := version;
    var seen := resource.owners[version];
    if seen.None? {
      var claimed := resource.ReplaceStatus(version, instance, claim);
      if !claimed {
        return;
      }
      inHand := |resource.owners| - 1;
    } else if seen != Some(instance) {
      return;
    }
    if middlewareOk {
      resource.redisWriters := resource.redisWriters + [instance];
    }
    resource.Interfere(meanwhile);
    var _ := resource.ReplaceStatus(inHand, instance, report);
  }
}
