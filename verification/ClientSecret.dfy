/**
  Converging on one client_secret (src/operators/kube-oidc-client-operator.js).

  Overlapping reconciles of one confidential client: each reads the Secret,
  creates it or adopts it, patches it and writes Redis, with every await a step.
 */
module ClientSecret {
  import opened Wrappers

  // A client_secret; an empty one is none.
  type Value = s: string | s != "" witness "x"
  type TaskId = nat

  // A Secret may exist without a client_secret, left by a public client.
  datatype Secret = Absent | Present(value: Option<Value>)

  // `own` is the secret the client object of this reconcile carries.
  datatype Task =
    | FindingRecord           // a replayed ADDED asks Redis first
    | ReadingSecret
    | CreatingSecret(own: Value)
    | RereadingSecret(own: Value)
    | PatchingSecret(own: Value)
    | WritingRedis(own: Value)
    | Finished

  // `held` lists the values the Secret has had, `written` those Redis was given.
  datatype World = World(secret: Secret, held: seq<Value>, record: Option<Value>, written: seq<Value>, tasks: map<TaskId, Task>)

  datatype Fault = NoFault | Break(applied: bool)

  // `uuid` is the value the step would generate if it needs one.
  datatype Action =
    | Start(id: TaskId, replayed: bool)
    | Find(id: TaskId)
    | Read(id: TaskId, ok: bool, uuid: Value)
    | Create(id: TaskId, fault: Fault)
    | Patch(id: TaskId, fault: Fault)
    | Upsert(id: TaskId, fault: Fault)
    | Abort(id: TaskId)       // any other await of the reconcile throws
    | LoseRecord              // a wipe or a DELETED event

  // setSecret or generateSecret, depending on what the Secret that was read holds.
  function Adopted(found: Secret, uuid: Value): Value {
    if found.Present? then found.value.GetOr(uuid) else uuid
  }

  function Install(w: World, value: Value): World {
    w.(secret := Present(Some(value)), held := w.held + [value])
  }

  function Write(w: World, value: Value): World {
    w.(record := Some(value), written := w.written + [value])
  }

  predicate Applies(fault: Fault) { fault.NoFault? || fault.applied }

  function SetTask(w: World, id: TaskId, task: Task): World {
    w.(tasks := w.tasks[id := task])
  }

  function Step(w: World, a: Action): World {
    if a.LoseRecord? then w.(record := None)
    else if a.Start? then
      if a.id in w.tasks then w else SetTask(w, a.id, if a.replayed then FindingRecord else ReadingSecret)
    else if a.id !in w.tasks then w
    else
      var task := w.tasks[a.id];
      match a
      case Find(id) =>
        if !task.FindingRecord? then w else SetTask(w, id, if w.record.Some? then Finished else ReadingSecret)
      case Read(id, ok, uuid) =>
        if task.ReadingSecret? then
          // a failed read looks like a missing Secret; the create decides
          SetTask(w, id, if ok && w.secret.Present? then PatchingSecret(Adopted(w.secret, uuid)) else CreatingSecret(uuid))
        else if task.RereadingSecret? then
          SetTask(w, id, if ok && w.secret.Present? then PatchingSecret(Adopted(w.secret, uuid)) else Finished)
        else w
      case Create(id, fault) =>
        if !task.CreatingSecret? then w
        else
          var installed := if w.secret.Absent? && Applies(fault) then Install(w, task.own) else w;
          SetTask(installed, id,
            if fault.Break? then Finished else if w.secret.Absent? then WritingRedis(task.own) else RereadingSecret(task.own))
      case Patch(id, fault) =>
        if !task.PatchingSecret? then w
        else
          var patched := if w.secret.Present? && Applies(fault) then Install(w, task.own) else w;
          SetTask(patched, id, if fault.Break? || w.secret.Absent? then Finished else WritingRedis(task.own))
      case Upsert(id, fault) =>
        if !task.WritingRedis? then w
        else SetTask(if Applies(fault) then Write(w, task.own) else w, id, Finished)
      case _ => SetTask(w, a.id, Finished)
  }

  function Run(w: World, actions: seq<Action>): World
    decreases |actions|
  {
    if actions == [] then w else Run(Step(w, actions[0]), actions[1..])
  }

  function Init(secret: Secret, record: Option<Value>): World {
    World(secret, if secret.Present? && secret.value.Some? then [secret.value.value] else [], record, [], map[])
  }

  // One value for ever: no rotation, and Redis never told another one.
  ghost predicate Converged(w: World) {
    && (forall i, j :: 0 <= i < |w.held| && 0 <= j < |w.held| ==> w.held[i] == w.held[j])
    && (w.held != [] ==> w.secret == Present(Some(w.held[0])))
    && (forall v :: v in w.written ==> w.held != [] && v == w.held[0])
  }

  ghost predicate Inv(w: World) {
    && Converged(w)
    && (w.held == [] ==> w.secret.Absent?)
    && (forall id :: id in w.tasks && (w.tasks[id].PatchingSecret? || w.tasks[id].WritingRedis?) ==>
          w.held != [] && w.tasks[id].own == w.held[0])
  }

  lemma StepKeepsInv(w: World, a: Action)
    requires Inv(w)
    ensures Inv(Step(w, a))
    ensures w.held != [] ==> Step(w, a).held != [] && Step(w, a).held[0] == w.held[0]
  {
  }

  lemma {:induction false} RunKeepsInv(w: World, actions: seq<Action>)
    requires Inv(w)
    ensures Inv(Run(w, actions))
    ensures w.held != [] ==> Run(w, actions).held != [] && Run(w, actions).held[0] == w.held[0]
    decreases |actions|
  {
    if actions != [] {
      StepKeepsInv(w, actions[0]);
      RunKeepsInv(Step(w, actions[0]), actions[1..]);
    }
  }

  lemma RunCons(w: World, a: Action, rest: seq<Action>)
    ensures Run(w, [a] + rest) == Run(Step(w, a), rest)
  {
    assert ([a] + rest)[1..] == rest;
  }

  // Two adopters of a Secret that lacks a client_secret each install their own.
  lemma RacingAdoptersDiverge(record: Option<Value>) returns (race: seq<Action>)
    ensures race == [Start(1, false)] + ([Start(2, false)] + ([Read(1, true, "a")] + ([Read(2, true, "b")]
                    + ([Patch(1, NoFault)] + ([Patch(2, NoFault)] + [])))))
    ensures !Converged(Run(Init(Present(None), record), race))
  {
    race := [Start(1, false)] + ([Start(2, false)] + ([Read(1, true, "a")] + ([Read(2, true, "b")]
            + ([Patch(1, NoFault)] + ([Patch(2, NoFault)] + [])))));
    var w0 := Init(Present(None), record);
    var w1 := Step(w0, Start(1, false));
    var w2 := Step(w1, Start(2, false));
    var w3 := Step(w2, Read(1, true, "a"));
    var w4 := Step(w3, Read(2, true, "b"));
    var w5 := Step(w4, Patch(1, NoFault));
    var w6 := Step(w5, Patch(2, NoFault));
    RunCons(w5, Patch(2, NoFault), []);
    RunCons(w4, Patch(1, NoFault), [Patch(2, NoFault)] + []);
    RunCons(w3, Read(2, true, "b"), [Patch(1, NoFault)] + ([Patch(2, NoFault)] + []));
    RunCons(w2, Read(1, true, "a"), [Read(2, true, "b")] + ([Patch(1, NoFault)] + ([Patch(2, NoFault)] + [])));
    RunCons(w1, Start(2, false), [Read(1, true, "a")] + ([Read(2, true, "b")] + ([Patch(1, NoFault)] + ([Patch(2, NoFault)] + []))));
    RunCons(w0, Start(1, false), [Start(2, false)] + ([Read(1, true, "a")] + ([Read(2, true, "b")]
                                 + ([Patch(1, NoFault)] + ([Patch(2, NoFault)] + [])))));
    assert w6.held == ["a", "b"] && w6.held[0] != w6.held[1];
  }

  /** However many reconciles overlap, however they interleave and fail, the
      client_secret never changes once installed and Redis is only ever given
      that value, losers of the create race included. This holds exactly when the
      Secret is at first absent or already holds a client_secret. */
  lemma OneSecretForEver(secret: Secret, record: Option<Value>)
    ensures (forall actions: seq<Action> :: Converged(Run(Init(secret, record), actions))) <==> secret != Present(None)
  {
    if secret == Present(None) {
      var race := RacingAdoptersDiverge(record);
      assert !Converged(Run(Init(secret, record), race));
    } else {
      forall actions: seq<Action> ensures Converged(Run(Init(secret, record), actions)) {
        RunKeepsInv(Init(secret, record), actions);
      }
    }
  }

  /** Once a value is installed, no continuation replaces it or writes another. */
  lemma NeverRotated(secret: Secret, record: Option<Value>, before: seq<Action>, after: seq<Action>)
    requires secret != Present(None) && Run(Init(secret, record), before).held != []
    ensures var w := Run(Init(secret, record), before);
            var w' := Run(w, after);
            && w.secret.Present? && w'.secret == w.secret
            && (forall v :: v in w'.written ==> w.secret == Present(Some(v)))
  {
    RunKeepsInv(Init(secret, record), before);
    RunKeepsInv(Run(Init(secret, record), before), after);
  }

  // What may go wrong in one reconcile that no other interleaves with.
  datatype Faults = Faults(readOk: bool, create: Fault, rereadOk: bool, patch: Fault, upsert: Fault)

  function Reconcile(id: TaskId, uuid: Value, another: Value, f: Faults): seq<Action> {
    [Start(id, false)] + ([Read(id, f.readOk, uuid)] + ([Create(id, f.create)]
      + ([Read(id, f.rereadOk, another)] + ([Patch(id, f.patch)] + ([Upsert(id, f.upsert)] + [])))))
  }

  /** One reconcile by itself, whatever fails. It gets as far as Redis exactly if
      the calls it needs are answered, and then Redis is given what the Secret
      holds: the value installed before, or the one it generated itself. Otherwise
      Redis is left alone, and a Secret that was not there is there only if its
      create was stored. */
  lemma UndisturbedReconcile(w: World, id: TaskId, uuid: Value, another: Value, f: Faults)
    requires Inv(w) && id !in w.tasks
    ensures var w' := Run(w, Reconcile(id, uuid, another, f));
            var there := w.held != [];
            var value := if there then w.held[0] else uuid;
            var adopts := f.readOk && there;
            var goesOn := if adopts then f.patch.NoFault? else f.create.NoFault? && (there ==> f.rereadOk && f.patch.NoFault?);
            var upserted := goesOn && (f.upsert.NoFault? || f.upsert == Break(true));
            && id in w'.tasks && w'.tasks[id].Finished?
            && (there ==> w'.secret == w.secret)
            && (!there ==> w'.secret == if f.create.NoFault? || f.create == Break(true) then Present(Some(uuid)) else Absent)
            && (goesOn ==> w'.secret == Present(Some(value)))
            && w'.record == (if upserted then Some(value) else w.record)
            && w'.written == w.written + (if upserted then [value] else [])
  {
    var w1 := Step(w, Start(id, false));
    var w2 := Step(w1, Read(id, f.readOk, uuid));
    var w3 := Step(w2, Create(id, f.create));
    var w4 := Step(w3, Read(id, f.rereadOk, another));
    var w5 := Step(w4, Patch(id, f.patch));
    StepKeepsInv(w, Start(id, false));
    StepKeepsInv(w1, Read(id, f.readOk, uuid));
    StepKeepsInv(w2, Create(id, f.create));
    StepKeepsInv(w3, Read(id, f.rereadOk, another));
    StepKeepsInv(w4, Patch(id, f.patch));
    ReconcileIsSixSteps(w, id, uuid, another, f);
  }

  lemma ReconcileIsSixSteps(w: World, id: TaskId, uuid: Value, another: Value, f: Faults)
    ensures Run(w, Reconcile(id, uuid, another, f)) ==
            Step(Step(Step(Step(Step(Step(w, Start(id, false)), Read(id, f.readOk, uuid)), Create(id, f.create)),
                           Read(id, f.rereadOk, another)), Patch(id, f.patch)), Upsert(id, f.upsert))
  {
    var w1 := Step(w, Start(id, false));
    var w2 := Step(w1, Read(id, f.readOk, uuid));
    var w3 := Step(w2, Create(id, f.create));
    var w4 := Step(w3, Read(id, f.rereadOk, another));
    var w5 := Step(w4, Patch(id, f.patch));
    RunCons(w5, Upsert(id, f.upsert), []);
    RunCons(w4, Patch(id, f.patch), [Upsert(id, f.upsert)] + []);
    RunCons(w3, Read(id, f.rereadOk, another), [Patch(id, f.patch)] + ([Upsert(id, f.upsert)] + []));
    RunCons(w2, Create(id, f.create), [Read(id, f.rereadOk, another)] + ([Patch(id, f.patch)] + ([Upsert(id, f.upsert)] + [])));
    RunCons(w1, Read(id, f.readOk, uuid), [Create(id, f.create)] + ([Read(id, f.rereadOk, another)] + ([Patch(id, f.patch)]
                                          + ([Upsert(id, f.upsert)] + []))));
    RunCons(w, Start(id, false), [Read(id, f.readOk, uuid)] + ([Create(id, f.create)] + ([Read(id, f.rereadOk, another)]
                                 + ([Patch(id, f.patch)] + ([Upsert(id, f.upsert)] + [])))));
  }

  /** A wipe or a DELETED event takes the record, and nothing else; a reconcile that
      throws elsewhere ends where it is. */
  lemma LossesExactly(w: World, id: TaskId)
    ensures Step(w, LoseRecord) == w.(record := None)
    ensures Step(w, Abort(id)) == if id in w.tasks then w.(tasks := w.tasks[id := Finished]) else w
  {
  }

  /** A replayed ADDED leaves everything as it is if Redis has the record, and
      reconciles like any other if not. */
  lemma ReplayLooksFirst(w: World, id: TaskId)
    requires id !in w.tasks
    ensures var w' := Step(Step(w, Start(id, true)), Find(id));
            && w'.secret == w.secret && w'.record == w.record && w'.written == w.written && w'.held == w.held
            && w'.tasks == w.tasks[id := if w.record.Some? then Finished else ReadingSecret]
  {
  }

  // ---- one reconcile in the source's own form ----------------------------

  datatype Creation = Created | AlreadyExists | Failed

  class SecretStore {
    var secret: Secret

    constructor (initial: Secret)
      ensures secret == initial
    {
      secret := initial;
    }

    // null for a missing Secret, undefined for a failed read: None for either.
    method GetSecret(ok: bool) returns (found: Option<Secret>)
      ensures found == if ok && secret.Present? then Some(secret) else None
    {
      found := if ok && secret.Present? then Some(secret) else None;
    }

    // createSecret with ignoreAlreadyExists.
    method CreateSecret(value: Value, fault: Fault) returns (creation: Creation)
      modifies this
      ensures creation == Failed <==> fault.Break?
      ensures creation == Created ==> old(secret).Absent?
      ensures creation == AlreadyExists ==> old(secret).Present?
      ensures secret == old(secret) || (old(secret).Absent? && secret == Present(Some(value)))
      ensures old(secret).Absent? ==> (secret.Present? <==> fault.NoFault? || fault.applied)
    {
      if secret.Absent? && (fault.NoFault? || fault.applied) {
        secret := Present(Some(value));
        creation := Created;
      } else {
        creation := AlreadyExists;
      }
      if fault.Break? {
        creation := Failed;
      }
    }

    method PatchSecret(value: Value, fault: Fault) returns (ok: bool)
      modifies this
      ensures ok <==> fault.NoFault? && old(secret).Present?
      ensures secret == old(secret) || (old(secret).Present? && secret == Present(Some(value)))
      ensures ok ==> secret == Present(Some(value))
    {
      if secret.Present? && (fault.NoFault? || fault.applied) {
        secret := Present(Some(value));
      }
      ok := fault.NoFault? && secret.Present?;
    }
  }

  // What may go wrong, and a rival that creates the Secret between our read and
  // our create.
  datatype Conditions = Conditions(readOk: bool, rival: Option<Value>, create: Fault, rereadOk: bool, patch: Fault)

  class OidcClient {
    var clientSecret: Option<Value>

    constructor ()
      ensures clientSecret == None
    {
      clientSecret := None;
    }

    // Whatever goes wrong, a value that was there stays. The reconcile goes on to
    // Redis (`ok`) exactly when the calls it needed were answered, and then it
    // carries what the Secret holds: the value there before its create, or `uuid`.
    method ReconcileClientSecret(store: SecretStore, uuid: Value, c: Conditions) returns (ok: bool)
      modifies this, store
      ensures old(store.secret).Present? && old(store.secret).value.Some? ==> store.secret == old(store.secret)
      ensures ok ==> clientSecret.Some? && store.secret == Present(clientSecret)
      ensures var adopts := c.readOk && old(store.secret).Present?;
              var there := if old(store.secret).Present? then old(store.secret).value else c.rival;
              && (ok <==> if adopts then c.patch.NoFault?
                          else c.create.NoFault? && (old(store.secret).Present? || c.rival.Some? ==> c.rereadOk && c.patch.NoFault?))
              && (ok ==> clientSecret == Some(if adopts then old(store.secret).value.GetOr(uuid) else there.GetOr(uuid)))
    {
      var existing := store.GetSecret(c.readOk);
      if existing.Some? {
        ok := AdoptKubeSecret(store, existing.value, uuid, c.patch);
        return;
      }
      if c.rival.Some? {
        var _ := store.CreateSecret(c.rival.value, NoFault);
      }
      clientSecret := Some(uuid);
      var creation := store.CreateSecret(uuid, c.create);
      match creation {
        case Failed => ok := false;
        case Created => ok := true;
        case AlreadyExists =>
          var secret := store.GetSecret(c.rereadOk);
          if secret.None? {
            return false;
          }
          ok := AdoptKubeSecret(store, secret.value, uuid, c.patch);
      }
    }

    // `existing` was just read; adopting it never changes a value it holds.
    method AdoptKubeSecret(store: SecretStore, existing: Secret, uuid: Value, fault: Fault) returns (ok: bool)
      requires existing.Present?
      modifies this, store
      ensures clientSecret == Some(existing.value.GetOr(uuid))
      ensures ok <==> fault.NoFault? && old(store.secret).Present?
      ensures ok ==> store.secret == Present(clientSecret)
      ensures store.secret == old(store.secret) || (old(store.secret).Present? && store.secret == Present(clientSecret))
    {
      if existing.value.Some? {
        clientSecret := existing.value;
      } else {
        clientSecret := Some(uuid);
      }
      ok := store.PatchSecret(clientSecret.value, fault);
    }
  }
}
