/**
  Redis agreeing with the cluster (src/services/client-redis-reconciler.js and the
  ADDED paths of the two client operators).

  Watch replays put records back and a delete-only sweep takes orphans out. The
  sweep is given twice: as the source's loop over a quiet cluster, and as steps
  interleaved with resources and records that come and go.
 */
module ClientSweep {
  import opened Wrappers

  type Id = string
  type Namespace = string

  datatype Kind = Client | MiddlewareClient | OtherKind(name: string)

  datatype Ref = Ref(kind: Kind, namespace: Namespace, name: string)

  datatype Spec = Spec(instance: Option<string>, disabled: bool)

  type Cluster = map<Ref, Spec>

  // The `Client:` records and the `Clients:1` set.
  datatype Redis = Redis(records: map<Id, Ref>, clients: set<Id>)

  // `listNamespace` is what the LISTs are confined to, `namespaces` what the
  // selector lets through; a cluster-wide LIST has no confinement.
  datatype Scope = Scope(listNamespace: Option<Namespace>, selects: Namespace -> bool)

  predicate Swept(kind: Kind) { kind.Client? || kind.MiddlewareClient? }

  function ClientId(r: Ref): Id {
    (if r.kind.MiddlewareClient? then "middleware-" else "") + r.namespace + "." + r.name
  }

  function Upsert(redis: Redis, r: Ref): Redis {
    Redis(redis.records[ClientId(r) := r], redis.clients + {ClientId(r)})
  }

  function Destroy(redis: Redis, id: Id): Redis {
    Redis(map i | i in redis.records && i != id :: redis.records[i], redis.clients - {id})
  }

  // ---- ids -----------------------------------------------------------------

  lemma {:induction false} SplitsAtFirstDot(a: string, b: string, x: string, y: string)
    requires '.' !in a && '.' !in b && a + "." + x == b + "." + y
    ensures a == b && x == y
  {
    var s := a + "." + x;
    assert s[|a|] == '.' && s[|b|] == '.';
    assert forall k :: 0 <= k < |a| ==> s[k] == a[k] && a[k] in a;
    assert forall k :: 0 <= k < |b| ==> s[k] == b[k] && b[k] in b;
    assert |a| == |b|;
    assert a == s[..|a|] && b == s[..|b|];
    assert x == s[|a| + 1..] && y == s[|b| + 1..];
  }

  /** Ids identify clients within a kind. Across the two swept kinds they collide
      exactly when an OIDCClient's namespace spells the middleware prefix. */
  lemma ClientIdCollision(a: Ref, b: Ref)
    requires Swept(a.kind) && Swept(b.kind) && '.' !in a.namespace && '.' !in b.namespace
    ensures ClientId(a) == ClientId(b) <==>
            || a == b
            || (a.kind.Client? && b.kind.MiddlewareClient? && a.namespace == "middleware-" + b.namespace && a.name == b.name)
            || (b.kind.Client? && a.kind.MiddlewareClient? && b.namespace == "middleware-" + a.namespace && a.name == b.name)
  {
    var na := (if a.kind.MiddlewareClient? then "middleware-" else "") + a.namespace;
    var nb := (if b.kind.MiddlewareClient? then "middleware-" else "") + b.namespace;
    assert ClientId(a) == na + "." + a.name && ClientId(b) == nb + "." + b.name;
    if ClientId(a) == ClientId(b) {
      SplitsAtFirstDot(na, nb, a.name, b.name);
      if a.kind == b.kind {
        assert a.namespace == na[|na| - |a.namespace|..] && b.namespace == nb[|nb| - |b.namespace|..];
      }
    }
  }

  // ---- replay --------------------------------------------------------------

  // One ADDED of a valid confidential client at its owner. `current` is whether
  // this process has already reconciled the resource as it is, in which case the
  // OIDCClient path leaves an existing record alone.
  function Replay(redis: Redis, r: Ref, spec: Spec, current: bool): Redis {
    if spec.disabled then Destroy(redis, ClientId(r))
    else if r.kind.Client? && current && ClientId(r) in redis.records then redis
    else Upsert(redis, r)
  }

  ghost predicate Owned(cluster: Cluster, scope: Scope, me: string, r: Ref) {
    r in cluster && cluster[r].instance == Some(me) && scope.selects(r.namespace)
  }

  function ReplayAll(redis: Redis, cluster: Cluster, events: seq<(Ref, bool)>): Redis {
    if events == [] then redis
    else
      var before := ReplayAll(redis, cluster, events[..|events| - 1]);
      var (r, current) := events[|events| - 1];
      if r in cluster then Replay(before, r, cluster[r], current) else before
  }

  // Records sit under their own id. One may be missing from the set, which is
  // written after it.
  ghost predicate WellKeyed(redis: Redis) {
    forall id :: id in redis.records ==> id == ClientId(redis.records[id])
  }

  // Some replay of the client writes its record anew, rather than find it there.
  ghost predicate Rewritten(events: seq<(Ref, bool)>, r: Ref) {
    exists i :: 0 <= i < |events| && events[i].0 == r && (r.kind.MiddlewareClient? || !events[i].1)
  }

  ghost predicate NoCollisions(cluster: Cluster, redis: Redis) {
    && (forall a, b :: a in cluster && b in cluster && ClientId(a) == ClientId(b) ==> a == b)
    && (forall a, id :: a in cluster && id in redis.records && ClientId(a) == id ==> redis.records[id] == a)
  }

  ghost predicate Replays(events: seq<(Ref, bool)>, r: Ref) {
    exists i :: 0 <= i < |events| && events[i].0 == r
  }

  lemma {:induction false} ReplayKeepsShape(redis: Redis, cluster: Cluster, events: seq<(Ref, bool)>)
    requires WellKeyed(redis) && NoCollisions(cluster, redis)
    ensures WellKeyed(ReplayAll(redis, cluster, events)) && NoCollisions(cluster, ReplayAll(redis, cluster, events))
  {
    if events != [] {
      ReplayKeepsShape(redis, cluster, events[..|events| - 1]);
    }
  }

  // An id nobody replays is left as it was.
  lemma {:induction false} ReplayUntouched(redis: Redis, cluster: Cluster, events: seq<(Ref, bool)>, id: Id)
    requires forall r :: r in cluster && Replays(events, r) ==> ClientId(r) != id
    ensures var after := ReplayAll(redis, cluster, events);
            && (id in after.records <==> id in redis.records) && (id in after.clients <==> id in redis.clients)
            && (id in redis.records ==> after.records[id] == redis.records[id])
  {
    if events != [] {
      var prefix := events[..|events| - 1];
      forall r | r in cluster && Replays(prefix, r) ensures ClientId(r) != id {
        var i :| 0 <= i < |prefix| && prefix[i].0 == r;
        assert events[i].0 == r;
      }
      ReplayUntouched(redis, cluster, prefix, id);
      assert Replays(events, events[|events| - 1].0);
    }
  }

  // A replayed client ends up with a record exactly when it is enabled, and in
  // the set too unless it had a record outside it that no replay wrote anew.
  lemma {:induction false} ReplayTouched(redis: Redis, cluster: Cluster, events: seq<(Ref, bool)>, r: Ref)
    requires WellKeyed(redis) && NoCollisions(cluster, redis) && r in cluster && Swept(r.kind) && Replays(events, r)
    ensures var after := ReplayAll(redis, cluster, events);
            var id := ClientId(r);
            && (id in after.records <==> !cluster[r].disabled)
            && (id in after.clients <==>
                !cluster[r].disabled && (id in redis.clients || id !in redis.records || Rewritten(events, r)))
  {
    var prefix, last := events[..|events| - 1], events[|events| - 1].0;
    ReplayKeepsShape(redis, cluster, prefix);
    RewrittenByLast(events, r);
    if last != r {
      var i :| 0 <= i < |events| && events[i].0 == r;
      assert prefix[i].0 == r;
      ReplayTouched(redis, cluster, prefix, r);
      assert last in cluster ==> ClientId(last) != ClientId(r);
    } else if Replays(prefix, r) {
      ReplayTouched(redis, cluster, prefix, r);
    } else {
      assert !Rewritten(prefix, r);
      forall other | other in cluster && Replays(prefix, other) ensures ClientId(other) != ClientId(r) {
      }
      ReplayUntouched(redis, cluster, prefix, ClientId(r));
    }
  }

  lemma RewrittenByLast(events: seq<(Ref, bool)>, r: Ref)
    requires events != []
    ensures Rewritten(events, r) <==>
            || Rewritten(events[..|events| - 1], r)
            || (events[|events| - 1].0 == r && (r.kind.MiddlewareClient? || !events[|events| - 1].1))
  {
    var prefix := events[..|events| - 1];
    if i :| 0 <= i < |prefix| && prefix[i].0 == r && (r.kind.MiddlewareClient? || !prefix[i].1) {
      assert events[i].0 == r && (r.kind.MiddlewareClient? || !events[i].1);
    }
    if i :| 0 <= i < |events| && events[i].0 == r && (r.kind.MiddlewareClient? || !events[i].1) {
      assert i < |prefix| ==> prefix[i] == events[i];
    }
  }

  // ---- the sweep over a quiet cluster ---------------------------------------

  predicate Listed(scope: Scope, r: Ref) {
    && Swept(r.kind) && scope.selects(r.namespace)
    && (scope.listNamespace.None? || r.namespace == scope.listNamespace.value)
  }

  ghost predicate LiveId(cluster: Cluster, scope: Scope, id: Id) {
    exists r :: r in cluster && Listed(scope, r) && ClientId(r) == id
  }

  // Which set members the sweep takes out. `answered` are the single-resource
  // reads that did not fail.
  ghost predicate Orphan(cluster: Cluster, scope: Scope, redis: Redis, answered: set<Ref>, id: Id) {
    && id in redis.clients && !LiveId(cluster, scope, id)
    && (id in redis.records ==>
          var r := redis.records[id];
          Swept(r.kind) && scope.selects(r.namespace) && r in answered && r !in cluster)
  }

  ghost function Without(redis: Redis, removed: set<Id>): Redis {
    Redis(map id | id in redis.records && id !in removed :: redis.records[id], redis.clients - removed)
  }

  class RedisStore {
    var records: map<Id, Ref>
    var clients: set<Id>

    ghost function View(): Redis reads this {
      Redis(records, clients)
    }

    constructor (records: map<Id, Ref>, clients: set<Id>)
      ensures View() == Redis(records, clients)
    {
      this.records, this.clients := records, clients;
    }

    method DestroyRecord(id: Id)
      modifies this
      ensures View() == Destroy(old(View()), id)
    {
      records, clients := records - {id}, clients - {id};
      assert records == map i | i in old(records) && i != id :: old(records)[i];
    }
  }

  class ClientRedisReconciler {
    const scope: Scope
    var running: bool

    constructor (scope: Scope)
      ensures this.scope == scope && !running
    {
      this.scope := scope;
      running := false;
    }

    // The ids of every listed resource, or None when one of the lists failed.
    method ListLiveClientIds(lists: seq<Option<seq<Ref>>>) returns (live: Option<set<Id>>)
      ensures live.None? <==> exists i :: 0 <= i < |lists| && lists[i].None?
      ensures live.Some? ==>
                forall id :: id in live.value <==>
                  exists i, j :: 0 <= i < |lists| && 0 <= j < |lists[i].value|
                                 && scope.selects(lists[i].value[j].namespace) && ClientId(lists[i].value[j]) == id
    {
      var ids: set<Id> := {};
      for i := 0 to |lists|
        invariant forall k :: 0 <= k < i ==> lists[k].Some?
        invariant forall id :: id in ids <==>
                    exists k, j :: 0 <= k < i && 0 <= j < |lists[k].value|
                                   && scope.selects(lists[k].value[j].namespace) && ClientId(lists[k].value[j]) == id
      {
        if lists[i].None? {
          return None;
        }
        var refs := lists[i].value;
        var here: set<Id> := {};
        for j := 0 to |refs|
          invariant forall id :: id in here <==>
                      exists m :: 0 <= m < j && scope.selects(refs[m].namespace) && ClientId(refs[m]) == id
        {
          if scope.selects(refs[j].namespace) {
            here := here + {ClientId(refs[j])};
          }
        }
        forall id ensures id in ids + here <==>
                    exists k, j :: 0 <= k < i + 1 && 0 <= j < |lists[k].value|
                                   && scope.selects(lists[k].value[j].namespace) && ClientId(lists[k].value[j]) == id
        {
          if id in here {
            var m :| 0 <= m < |refs| && scope.selects(refs[m].namespace) && ClientId(refs[m]) == id;
            assert lists[i].value[m] == refs[m];
          }
        }
        ids := ids + here;
      }
      live := Some(ids);
    }

    method RemoveOrphans(store: RedisStore, live: set<Id>, cluster: Cluster, answered: set<Ref>) returns (removed: set<Id>)
      requires forall id :: id in live <==> LiveId(cluster, scope, id)
      modifies store
      ensures removed == set id | id in old(store.clients) && Orphan(cluster, scope, old(store.View()), answered, id)
      ensures store.View() == Without(old(store.View()), removed)
    {
      var todo := store.clients;
      removed := {};
      while todo != {}
        invariant todo <= old(store.clients)
        invariant removed == set id | id in old(store.clients) - todo && Orphan(cluster, scope, old(store.View()), answered, id)
        invariant store.View() == Without(old(store.View()), removed)
        decreases todo
      {
        var id :| id in todo;
        todo := todo - {id};
        if id in live {
          continue;
        }
        if id in store.records {
          var r := store.records[id];
          if !Swept(r.kind) || !scope.selects(r.namespace) || r !in answered || r in cluster {
            continue;
          }
        }
        store.DestroyRecord(id);
        removed := removed + {id};
      }
    }

    // Nothing happens while another sweep runs or when a list failed.
    method Sweep(store: RedisStore, lists: seq<Option<seq<Ref>>>, cluster: Cluster, answered: set<Ref>) returns (removed: set<Id>)
      requires (forall i :: 0 <= i < |lists| ==> lists[i].Some?) ==>
                 forall r :: r in cluster && Listed(scope, r) <==>
                   exists i, j :: 0 <= i < |lists| && 0 <= j < |lists[i].value| && lists[i].value[j] == r && scope.selects(r.namespace)
      modifies this, store
      ensures running == old(running)
      ensures old(running) || (exists i :: 0 <= i < |lists| && lists[i].None?) ==> removed == {} && store.View() == old(store.View())
      ensures !old(running) && (forall i :: 0 <= i < |lists| ==> lists[i].Some?) ==>
                && removed == (set id | id in old(store.clients) && Orphan(cluster, scope, old(store.View()), answered, id))
                && store.View() == Without(old(store.View()), removed)
    {
      if running {
        return {};
      }
      running := true;
      var live := ListLiveClientIds(lists);
      if live.None? {
        removed := {};
      } else {
        forall id ensures id in live.value <==> LiveId(cluster, scope, id) {
          if LiveId(cluster, scope, id) {
            var r :| r in cluster && Listed(scope, r) && ClientId(r) == id;
            var i, j :| 0 <= i < |lists| && 0 <= j < |lists[i].value| && lists[i].value[j] == r && scope.selects(r.namespace);
            assert ClientId(lists[i].value[j]) == id;
          }
          if id in live.value {
            var i, j :| 0 <= i < |lists| && 0 <= j < |lists[i].value|
                        && scope.selects(lists[i].value[j].namespace) && ClientId(lists[i].value[j]) == id;
            var r := lists[i].value[j];
            assert r in cluster && Listed(scope, r);
          }
        }
        removed := RemoveOrphans(store, live.value, cluster, answered);
      }
      running := false;
    }
  }

  ghost function AfterSweep(cluster: Cluster, scope: Scope, redis: Redis, answered: set<Ref>): Redis {
    Without(redis, set id | id in redis.clients && Orphan(cluster, scope, redis, answered, id))
  }

  /** From whatever lost DELETED events, a wipe or writes cut short left behind,
      replaying every client this instance owns and sweeping once leaves exactly
      its enabled clients among the records of those, keeps every record whose
      resource exists or is none of the sweep's business, and drops every other
      one that the set names and whose absence was confirmed. The set ends up
      naming the same clients, unless a record was outside it before and no
      replay wrote it anew. */
  lemma ReplayThenSweepConverges(cluster: Cluster, scope: Scope, me: string, redis: Redis,
                                 events: seq<(Ref, bool)>, answered: set<Ref>, id: Id)
    requires WellKeyed(redis) && NoCollisions(cluster, redis)
    requires forall r :: r in cluster ==> Swept(r.kind)
    requires forall r :: Owned(cluster, scope, me, r) <==> Replays(events, r)
    ensures var after := AfterSweep(cluster, scope, ReplayAll(redis, cluster, events), answered);
            && (forall r :: Owned(cluster, scope, me, r) && ClientId(r) == id ==>
                  && (id in after.records <==> !cluster[r].disabled)
                  && (id in after.clients <==>
                      !cluster[r].disabled && (id in redis.clients || id !in redis.records || Rewritten(events, r))))
            && (forall r :: r in cluster && !Owned(cluster, scope, me, r) && ClientId(r) == id ==>
                  (id in after.records <==> id in redis.records))
            && ((forall r :: r in cluster ==> ClientId(r) != id) ==>
                  && (id in after.records <==> id in redis.records && !(id in redis.clients && Sweepable(scope, answered, redis.records[id])))
                  && (id in after.clients <==> id in redis.clients && id in after.records))
            && (id in after.records && id in redis.records ==> after.records[id] == redis.records[id])
  {
    var replayed := ReplayAll(redis, cluster, events);
    ReplayKeepsShape(redis, cluster, events);
    if r :| r in cluster && ClientId(r) == id {
      if Owned(cluster, scope, me, r) {
        ReplayTouched(redis, cluster, events, r);
      } else {
        ReplayUntouched(redis, cluster, events, id);
      }
      assert id in replayed.records ==> replayed.records[id] == r;
    } else {
      ReplayUntouched(redis, cluster, events, id);
      assert !LiveId(cluster, scope, id);
    }
  }

  // A record the sweep takes out if its resource is gone: of a swept kind, in
  // scope, and with its single-resource read answered.
  predicate Sweepable(scope: Scope, answered: set<Ref>, r: Ref) {
    Swept(r.kind) && scope.selects(r.namespace) && r in answered
  }

  // A record without a resource that the sweep may take out.
  ghost predicate Stale(cluster: Cluster, scope: Scope, answered: set<Ref>, redis: Redis, id: Id) {
    id in redis.records && Sweepable(scope, answered, redis.records[id]) && redis.records[id] !in cluster
  }

  lemma StaleAfterwards(cluster: Cluster, scope: Scope, me: string, redis: Redis,
                        events: seq<(Ref, bool)>, answered: set<Ref>, id: Id)
    requires WellKeyed(redis) && NoCollisions(cluster, redis)
    requires forall r :: r in cluster ==> Swept(r.kind)
    requires forall r :: Owned(cluster, scope, me, r) <==> Replays(events, r)
    ensures var after := AfterSweep(cluster, scope, ReplayAll(redis, cluster, events), answered);
            Stale(cluster, scope, answered, after, id) <==> Stale(cluster, scope, answered, redis, id) && id !in redis.clients
  {
    var replayed := ReplayAll(redis, cluster, events);
    var after := AfterSweep(cluster, scope, replayed, answered);
    ReplayKeepsShape(redis, cluster, events);
    ReplayThenSweepConverges(cluster, scope, me, redis, events, answered, id);
    if Stale(cluster, scope, answered, after, id) {
      Unclaimed(cluster, replayed, id);
    }
    if Stale(cluster, scope, answered, redis, id) {
      Unclaimed(cluster, redis, id);
    }
  }

  /** So no record without a resource is left, of those the sweep may take out,
      exactly if none was outside the set. */
  lemma OrphansOutsideTheSetStay(cluster: Cluster, scope: Scope, me: string, redis: Redis,
                                 events: seq<(Ref, bool)>, answered: set<Ref>)
    requires WellKeyed(redis) && NoCollisions(cluster, redis)
    requires forall r :: r in cluster ==> Swept(r.kind)
    requires forall r :: Owned(cluster, scope, me, r) <==> Replays(events, r)
    ensures var after := AfterSweep(cluster, scope, ReplayAll(redis, cluster, events), answered);
            (forall id: Id :: !Stale(cluster, scope, answered, after, id))
            <==> forall id: Id :: Stale(cluster, scope, answered, redis, id) ==> id in redis.clients
  {
    var after := AfterSweep(cluster, scope, ReplayAll(redis, cluster, events), answered);
    if forall id: Id :: Stale(cluster, scope, answered, redis, id) ==> id in redis.clients {
      forall id: Id ensures !Stale(cluster, scope, answered, after, id) {
        StaleAfterwards(cluster, scope, me, redis, events, answered, id);
      }
    } else {
      var id: Id :| Stale(cluster, scope, answered, redis, id) && id !in redis.clients;
      StaleAfterwards(cluster, scope, me, redis, events, answered, id);
      assert Stale(cluster, scope, answered, after, id);
    }
  }

  // The id of a record without a resource is no resource's.
  lemma Unclaimed(cluster: Cluster, redis: Redis, id: Id)
    requires NoCollisions(cluster, redis) && id in redis.records && redis.records[id] !in cluster
    ensures forall r :: r in cluster ==> ClientId(r) != id
  {
  }

  // ---- the sweep among other writers ------------------------------------------

  datatype Phase =
    | Idle
    | Listing(kinds: seq<Kind>, live: set<Id>)
    | Removing(todo: set<Id>, live: set<Id>)
    | Confirming(id: Id, record: Ref, todo: set<Id>, live: set<Id>)
    | Deleting(id: Id, todo: set<Id>, live: set<Id>)
    | Unlisting(id: Id, todo: set<Id>, live: set<Id>)

  datatype World = World(cluster: Cluster, redis: Redis, phase: Phase)

  datatype Action =
    | Begin
    | List(ok: bool)
    | Members
    | Look(id: Id)
    | Confirm(ok: bool)
    | Delete
    | Unlist
    | CreateResource(r: Ref, spec: Spec)
    | RemoveResource(r: Ref)
    | WriteRecord(r: Ref)    // an upsert's MULTI, and later its SADD
    | AddToSet(id: Id)
    | EraseRecord(id: Id)    // by a DELETED event, for a disabled client, in a wipe
    | DropFromSet(id: Id)

  function LiveOfKind(cluster: Cluster, scope: Scope, kind: Kind): set<Id> {
    set r | r in cluster && r.kind == kind && Listed(scope, r) :: ClientId(r)
  }

  function Step(w: World, scope: Scope, a: Action): World {
    match a
    case Begin => if w.phase.Idle? then w.(phase := Listing([Client, MiddlewareClient], {})) else w
    case List(ok) =>
      if !w.phase.Listing? || w.phase.kinds == [] then w
      else if !ok then w.(phase := Idle)
      else w.(phase := Listing(w.phase.kinds[1..], w.phase.live + LiveOfKind(w.cluster, scope, w.phase.kinds[0])))
    case Members =>
      if w.phase.Listing? && w.phase.kinds == [] then w.(phase := Removing(w.redis.clients, w.phase.live)) else w
    case Look(id) =>
      if !w.phase.Removing? then w
      else if w.phase.todo == {} then w.(phase := Idle)
      else if id !in w.phase.todo then w
      else
        var rest := w.phase.todo - {id};
        if id in w.phase.live then w.(phase := Removing(rest, w.phase.live))
        else if id !in w.redis.records then w.(phase := Deleting(id, rest, w.phase.live))
        else
          var r := w.redis.records[id];
          if Swept(r.kind) && scope.selects(r.namespace) then w.(phase := Confirming(id, r, rest, w.phase.live))
          else w.(phase := Removing(rest, w.phase.live))
    case Confirm(ok) =>
      if !w.phase.Confirming? then w
      else if ok && w.phase.record !in w.cluster then w.(phase := Deleting(w.phase.id, w.phase.todo, w.phase.live))
      else w.(phase := Removing(w.phase.todo, w.phase.live))
    case Delete =>
      if !w.phase.Deleting? then w
      else World(w.cluster, Redis(w.redis.records - {w.phase.id}, w.redis.clients), Unlisting(w.phase.id, w.phase.todo, w.phase.live))
    case Unlist =>
      if !w.phase.Unlisting? then w
      else World(w.cluster, Redis(w.redis.records, w.redis.clients - {w.phase.id}), Removing(w.phase.todo, w.phase.live))
    case CreateResource(r, spec) => w.(cluster := w.cluster[r := spec])
    case RemoveResource(r) => w.(cluster := map s | s in w.cluster && s != r :: w.cluster[s])
    case WriteRecord(r) => w.(redis := Redis(w.redis.records[ClientId(r) := r], w.redis.clients))
    case AddToSet(id) => w.(redis := Redis(w.redis.records, w.redis.clients + {id}))
    case EraseRecord(id) => w.(redis := Redis(w.redis.records - {id}, w.redis.clients))
    case DropFromSet(id) => w.(redis := Redis(w.redis.records, w.redis.clients - {id}))
  }

  function Run(w: World, scope: Scope, actions: seq<Action>): World
    decreases |actions|
  {
    if actions == [] then w else Run(Step(w, scope, actions[0]), scope, actions[1..])
  }

  lemma RunCons(w: World, scope: Scope, a: Action, rest: seq<Action>)
    ensures Run(w, scope, [a] + rest) == Run(Step(w, scope, a), scope, rest)
  {
    assert ([a] + rest)[1..] == rest;
  }

  // ---- a sweep nothing interleaves with -----------------------------------------

  // The steps over the set members, in whatever order SMEMBERS returned them.
  function Visits(order: seq<Id>, records: map<Id, Ref>, answered: set<Ref>): seq<Action> {
    if order == [] then []
    else
      [Look(order[0])] + ([Confirm(order[0] in records && records[order[0]] in answered)]
        + ([Delete] + ([Unlist] + Visits(order[1..], records, answered))))
  }

  predicate GoesOut(cluster: Cluster, scope: Scope, records: map<Id, Ref>, live: set<Id>, answered: set<Ref>, id: Id) {
    id !in live && (id in records ==> Sweepable(scope, answered, records[id]) && records[id] !in cluster)
  }

  lemma VisitOne(w: World, scope: Scope, records: map<Id, Ref>, answered: set<Ref>, id: Id)
    requires w.phase.Removing? && id in w.phase.todo
    requires (id in w.redis.records <==> id in records) && (id in records ==> w.redis.records[id] == records[id])
    ensures var w' := Step(Step(Step(Step(w, scope, Look(id)), scope, Confirm(id in records && records[id] in answered)), scope, Delete),
                           scope, Unlist);
            var out := GoesOut(w.cluster, scope, records, w.phase.live, answered, id);
            && w'.cluster == w.cluster && w'.phase == Removing(w.phase.todo - {id}, w.phase.live)
            && w'.redis == if out then Redis(w.redis.records - {id}, w.redis.clients - {id}) else w.redis
  {
  }

  lemma {:induction false} VisitAll(w: World, scope: Scope, order: seq<Id>, records: map<Id, Ref>, answered: set<Ref>)
    requires w.phase.Removing? && (forall id :: id in order <==> id in w.phase.todo)
    requires forall i, j :: 0 <= i < j < |order| ==> order[i] != order[j]
    requires forall id :: id in w.phase.todo ==>
               (id in w.redis.records <==> id in records) && (id in records ==> w.redis.records[id] == records[id])
    ensures var w' := Run(w, scope, Visits(order, records, answered));
            && w'.cluster == w.cluster
            && w'.redis == Without(w.redis, set id | id in w.phase.todo && GoesOut(w.cluster, scope, records, w.phase.live, answered, id))
    decreases |order|
  {
    if order == [] {
      assert w.phase.todo == {};
      assert Without(w.redis, {}) == w.redis;
    } else {
      var id := order[0];
      assert id in order;
      var look, confirm := Look(id), Confirm(id in records && records[id] in answered);
      var rest := Visits(order[1..], records, answered);
      var w1 := Step(w, scope, look);
      var w2 := Step(w1, scope, confirm);
      var w3 := Step(w2, scope, Delete);
      var w4 := Step(w3, scope, Unlist);
      RunCons(w, scope, look, [confirm] + ([Delete] + ([Unlist] + rest)));
      RunCons(w1, scope, confirm, [Delete] + ([Unlist] + rest));
      RunCons(w2, scope, Delete, [Unlist] + rest);
      RunCons(w3, scope, Unlist, rest);
      VisitOne(w, scope, records, answered, id);
      forall other ensures other in order[1..] <==> other in w4.phase.todo {
        assert other in order <==> other == id || other in order[1..];
      }
      VisitAll(w4, scope, order[1..], records, answered);
      WithoutOneMore(w, w4, scope, records, answered, id);
    }
  }

  lemma WithoutOneMore(w: World, w': World, scope: Scope, records: map<Id, Ref>, answered: set<Ref>, id: Id)
    requires w.phase.Removing? && id in w.phase.todo && w'.phase == Removing(w.phase.todo - {id}, w.phase.live)
    requires w'.redis == if GoesOut(w.cluster, scope, records, w.phase.live, answered, id)
                         then Redis(w.redis.records - {id}, w.redis.clients - {id}) else w.redis
    ensures Without(w'.redis, set i | i in w'.phase.todo && GoesOut(w.cluster, scope, records, w.phase.live, answered, i))
            == Without(w.redis, set i | i in w.phase.todo && GoesOut(w.cluster, scope, records, w.phase.live, answered, i))
  {
    var rest := set i | i in w'.phase.todo && GoesOut(w.cluster, scope, records, w.phase.live, answered, i);
    var all := set i | i in w.phase.todo && GoesOut(w.cluster, scope, records, w.phase.live, answered, i);
    assert all == rest + if GoesOut(w.cluster, scope, records, w.phase.live, answered, id) then {id} else {};
    assert Without(w'.redis, rest).records == Without(w.redis, all).records;
    assert Without(w'.redis, rest).clients == Without(w.redis, all).clients;
  }

  /** Who goes out: a member of the set for whose id no resource of the two kinds is
      listed - selected, and where the LIST is confined, in that namespace - and
      which has no record, or one of the two kinds, selected, confirmed absent. */
  lemma OrphanExactly(cluster: Cluster, scope: Scope, redis: Redis, answered: set<Ref>, id: Id)
    ensures Orphan(cluster, scope, redis, answered, id) <==>
            && id in redis.clients
            && !(exists r :: && r in cluster && (r.kind == Client || r.kind == MiddlewareClient) && scope.selects(r.namespace)
                             && (scope.listNamespace == None || scope.listNamespace == Some(r.namespace)) && ClientId(r) == id)
            && (id in redis.records ==>
                  var r := redis.records[id];
                  && (r.kind == Client || r.kind == MiddlewareClient) && scope.selects(r.namespace)
                  && r in answered && r !in cluster)
  {
  }

  /** What everybody else does between a sweep's steps. */
  lemma OthersExactly(w: World, scope: Scope, r: Ref, spec: Spec, id: Id)
    ensures Step(w, scope, CreateResource(r, spec)) == w.(cluster := w.cluster[r := spec])
    ensures Step(w, scope, RemoveResource(r)) == w.(cluster := w.cluster - {r})
    ensures Step(w, scope, WriteRecord(r)) == w.(redis := Redis(w.redis.records[ClientId(r) := r], w.redis.clients))
    ensures Step(w, scope, AddToSet(id)) == w.(redis := Redis(w.redis.records, w.redis.clients + {id}))
    ensures Step(w, scope, EraseRecord(id)) == w.(redis := Redis(w.redis.records - {id}, w.redis.clients))
    ensures Step(w, scope, DropFromSet(id)) == w.(redis := Redis(w.redis.records, w.redis.clients - {id}))
  {
    assert w.cluster - {r} == map s | s in w.cluster && s != r :: w.cluster[s];
  }

  /** The steps, with nothing in between, take out exactly the orphans, whatever
      order the members come in; a LIST that fails ends the sweep with nothing done. */
  lemma UninterruptedSweep(w: World, scope: Scope, order: seq<Id>, answered: set<Ref>)
    requires w.phase.Idle? && (forall id :: id in order <==> id in w.redis.clients)
    requires forall i, j :: 0 <= i < j < |order| ==> order[i] != order[j]
    ensures var w' := Run(w, scope, [Begin] + ([List(true)] + ([List(true)] + ([Members] + Visits(order, w.redis.records, answered)))));
            && w'.cluster == w.cluster
            && w'.redis == Without(w.redis, set id | id in w.redis.clients && Orphan(w.cluster, scope, w.redis, answered, id))
    ensures Step(Step(w, scope, Begin), scope, List(false)) == w
  {
    var visits := Visits(order, w.redis.records, answered);
    var w1 := Step(w, scope, Begin);
    var w2 := Step(w1, scope, List(true));
    var w3 := Step(w2, scope, List(true));
    var w4 := Step(w3, scope, Members);
    RunCons(w, scope, Begin, [List(true)] + ([List(true)] + ([Members] + visits)));
    RunCons(w1, scope, List(true), [List(true)] + ([Members] + visits));
    RunCons(w2, scope, List(true), [Members] + visits);
    RunCons(w3, scope, Members, visits);
    assert w2.phase.kinds == [MiddlewareClient] && w3.phase.kinds == [];
    var live := w4.phase.live;
    assert live == LiveOfKind(w.cluster, scope, Client) + LiveOfKind(w.cluster, scope, MiddlewareClient);
    forall id ensures id in live <==> LiveId(w.cluster, scope, id) {
    }
    VisitAll(w4, scope, order, w.redis.records, answered);
    assert (set id | id in w.redis.clients && GoesOut(w.cluster, scope, w.redis.records, live, answered, id))
        == set id | id in w.redis.clients && Orphan(w.cluster, scope, w.redis, answered, id);
  }

  // The client stays, nobody else takes its record away or writes another
  // client's record under its id.
  ghost predicate LeavesAlone(a: Action, r: Ref) {
    a != RemoveResource(r) && a != EraseRecord(ClientId(r)) && (a.WriteRecord? && ClientId(a.r) == ClientId(r) ==> a.r == r)
  }

  ghost predicate Protected(w: World, scope: Scope, r: Ref) {
    var id := ClientId(r);
    && r in w.cluster && id in w.redis.records && w.redis.records[id] == r
    && (w.phase.Deleting? ==> w.phase.id != id)
    && (w.phase.Confirming? && w.phase.id == id ==> w.phase.record == r)
  }

  /** However a sweep interleaves with other writers, a client that exists
      throughout and has a record keeps it. */
  lemma {:induction false} LiveClientSurvives(w: World, scope: Scope, actions: seq<Action>, r: Ref)
    requires Protected(w, scope, r)
    requires forall i :: 0 <= i < |actions| ==> LeavesAlone(actions[i], r)
    ensures Protected(Run(w, scope, actions), scope, r)
    decreases |actions|
  {
    if actions != [] {
      assert LeavesAlone(actions[0], r);
      assert Protected(Step(w, scope, actions[0]), scope, r);
      forall i | 0 <= i < |actions[1..]| ensures LeavesAlone(actions[1..][i], r) {
        assert actions[1..][i] == actions[i + 1];
      }
      LiveClientSurvives(Step(w, scope, actions[0]), scope, actions[1..], r);
    }
  }

  ghost predicate AllLeaveAlone(actions: seq<Action>, r: Ref) {
    forall i :: 0 <= i < |actions| ==> LeavesAlone(actions[i], r)
  }

  ghost predicate Recorded(w: World, r: Ref) {
    r in w.cluster && ClientId(r) in w.redis.records && w.redis.records[ClientId(r)] == r
  }

  // What the rest of a sweep does to a client it is about to delete, or whose id
  // it took another client's record for.
  function Loss(w: World): seq<Action> {
    match w.phase
    case Deleting(_, _, _) => [Delete] + []
    case Confirming(_, record, _, _) => [RemoveResource(record)] + ([Confirm(true)] + ([Delete] + []))
    case _ => []
  }

  lemma UnprotectedIsLost(w: World, scope: Scope, r: Ref)
    requires Recorded(w, r) && !Protected(w, scope, r)
    ensures AllLeaveAlone(Loss(w), r) && !Recorded(Run(w, scope, Loss(w)), r)
  {
    if w.phase.Deleting? {
      RunCons(w, scope, Delete, []);
    } else {
      var gone := RemoveResource(w.phase.record);
      var w1 := Step(w, scope, gone);
      var w2 := Step(w1, scope, Confirm(true));
      RunCons(w2, scope, Delete, []);
      RunCons(w1, scope, Confirm(true), [Delete] + []);
      RunCons(w, scope, gone, [Confirm(true)] + ([Delete] + []));
    }
  }

  /** A client that exists and has its record keeps it in every run that leaves
      both alone, exactly if the sweep is not past confirming an absence of that
      id, nor confirming the absence of another client under it. */
  lemma SurvivesExactly(w: World, scope: Scope, r: Ref)
    requires Recorded(w, r)
    ensures (forall actions: seq<Action> :: AllLeaveAlone(actions, r) ==> Recorded(Run(w, scope, actions), r))
            <==> Protected(w, scope, r)
  {
    if Protected(w, scope, r) {
      forall actions: seq<Action> | AllLeaveAlone(actions, r) ensures Recorded(Run(w, scope, actions), r) {
        LiveClientSurvives(w, scope, actions, r);
      }
    } else {
      UnprotectedIsLost(w, scope, r);
    }
  }

  // The confirmation narrows the window but does not close it: a client created
  // and recorded between its confirmation and the deletion loses its record.
  lemma LateClientIsSwept(w: World, scope: Scope, r: Ref, spec: Spec)
    requires w.phase.Deleting? && w.phase.id == ClientId(r)
    ensures var w' := Step(Step(Step(w, scope, CreateResource(r, spec)), scope, WriteRecord(r)), scope, Delete);
            r in w'.cluster && ClientId(r) !in w'.redis.records
  {
  }
}
