/**
  Projecting sign-ins onto users and clients (src/services/activity-tracker.js).

  Timestamps are integers. A status write is one atomic merge here: module
  StatusMutation shows that concurrent ones apply one after the other.
 */
module ActivityTracker {
  import opened Wrappers

  type ClientId = string
  type AccountId = string

  datatype App = App(clientId: ClientId, at: int)

  // ---- maximum merge ---------------------------------------------------------

  function Newer(a: int, b: int): int { if a >= b then a else b }

  function MaxMerge<K>(a: map<K, int>, b: map<K, int>): map<K, int> {
    map k | k in a.Keys + b.Keys ::
      if k !in a then b[k] else if k !in b then a[k] else Newer(a[k], b[k])
  }

  lemma MaxMergePut(a: map<ClientId, int>, b: map<ClientId, int>, c: ClientId, at: int)
    requires c !in b
    ensures MaxMerge(a, b[c := at]) == MaxMerge(a, b)[c := if c in MaxMerge(a, b) then Newer(MaxMerge(a, b)[c], at) else at]
  {
  }

  function Restrict<K>(m: map<K, int>, keys: set<K>): map<K, int> {
    map k | k in m && k in keys :: m[k]
  }

  // ---- the recent-application list ---------------------------------------------

  // The entries of a list by client.
  function AsMap(s: seq<App>): map<ClientId, int> {
    if s == [] then map[] else AsMap(s[1..])[s[0].clientId := s[0].at]
  }

  ghost predicate Distinct(s: seq<App>) {
    s == [] || (s[0].clientId !in AsMap(s[1..]) && Distinct(s[1..]))
  }

  ghost predicate Sorted(s: seq<App>) {
    |s| <= 1 || (s[0].at >= s[1].at && Sorted(s[1..]))
  }

  // Map.set on an insertion-ordered Map, keeping the newer timestamp.
  function Put(s: seq<App>, app: App): seq<App> {
    if s == [] then [app]
    else if s[0].clientId == app.clientId then [App(app.clientId, Newer(s[0].at, app.at))] + s[1..]
    else [s[0]] + Put(s[1..], app)
  }

  function Merged(s: seq<App>, batch: seq<App>): seq<App>
    decreases |batch|
  {
    if batch == [] then s else Merged(Put(s, batch[0]), batch[1..])
  }

  function Insert(app: App, s: seq<App>): seq<App> {
    if s == [] || app.at >= s[0].at then [app] + s else [s[0]] + Insert(app, s[1..])
  }

  // Array.prototype.sort, newest first, equal timestamps in their old order.
  function SortNewestFirst(s: seq<App>): seq<App> {
    if s == [] then [] else Insert(s[0], SortNewestFirst(s[1..]))
  }

  function Cut(s: seq<App>, limit: nat): seq<App> {
    if |s| <= limit then s else s[..limit]
  }

  function Recent(s: seq<App>, batch: seq<App>, limit: nat): seq<App> {
    Cut(SortNewestFirst(Merged(s, batch)), limit)
  }

  // The `limit` newest clients of a whole history: every listed entry carries
  // its client's newest timestamp, and whoever is not listed is no newer than
  // anyone listed on a full list.
  ghost predicate Newest(s: seq<App>, history: map<ClientId, int>, limit: nat) {
    && Distinct(s) && Sorted(s) && |s| <= limit
    && (forall id :: id in AsMap(s) ==> id in history && history[id] == AsMap(s)[id])
    && (forall id :: id in history && id !in AsMap(s) ==> |s| == limit && forall i :: 0 <= i < |s| ==> history[id] <= s[i].at)
  }

  lemma {:induction false} PutKeeps(s: seq<App>, app: App)
    requires Distinct(s)
    ensures Distinct(Put(s, app)) && AsMap(Put(s, app)) == MaxMerge(AsMap(s), map[app.clientId := app.at])
  {
    if s == [] {
      assert AsMap([app]) == map[app.clientId := app.at];
    } else if s[0].clientId != app.clientId {
      PutKeeps(s[1..], app);
      PutRest(s, app);
    } else {
      PutFirst(s, app);
    }
  }

  /** Putting a sign-in on a list adds or updates its own client, never to
      anything older, and leaves every other entry. */
  lemma PutExactly(s: seq<App>, client: ClientId, at: int)
    requires Distinct(s)
    ensures var s' := Put(s, App(client, at));
            && Distinct(s')
            && AsMap(s') == AsMap(s)[client := if client in AsMap(s) && AsMap(s)[client] >= at then AsMap(s)[client] else at]
  {
    PutKeeps(s, App(client, at));
  }

  lemma PutFirst(s: seq<App>, app: App)
    requires s != [] && s[0].clientId == app.clientId && Distinct(s)
    ensures Distinct(Put(s, app)) && AsMap(Put(s, app)) == MaxMerge(AsMap(s), map[app.clientId := app.at])
  {
    assert Put(s, app)[1..] == s[1..];
  }

  lemma PutRest(s: seq<App>, app: App)
    requires s != [] && s[0].clientId != app.clientId && Distinct(s)
    requires Distinct(Put(s[1..], app)) && AsMap(Put(s[1..], app)) == MaxMerge(AsMap(s[1..]), map[app.clientId := app.at])
    ensures Distinct(Put(s, app)) && AsMap(Put(s, app)) == MaxMerge(AsMap(s), map[app.clientId := app.at])
  {
    FirstOfList(s[0], s[1..]);
    FirstOfList(s[0], Put(s[1..], app));
    assert s == [s[0]] + s[1..];
    MergeUnder(AsMap(s[1..]), s[0], app);
  }

  lemma FirstOfList(first: App, rest: seq<App>)
    ensures AsMap([first] + rest) == AsMap(rest)[first.clientId := first.at]
    ensures Distinct([first] + rest) <==> first.clientId !in AsMap(rest) && Distinct(rest)
  {
    assert ([first] + rest)[1..] == rest;
  }

  lemma MergeUnder(m: map<ClientId, int>, first: App, app: App)
    requires first.clientId != app.clientId
    ensures MaxMerge(m[first.clientId := first.at], map[app.clientId := app.at])
            == MaxMerge(m, map[app.clientId := app.at])[first.clientId := first.at]
  {
  }

  lemma MaxMergeOneByOne(a: map<ClientId, int>, b: map<ClientId, int>, app: App)
    requires app.clientId !in b
    ensures MaxMerge(MaxMerge(a, map[app.clientId := app.at]), b) == MaxMerge(a, b[app.clientId := app.at])
  {
  }

  lemma {:induction false} MergedKeeps(s: seq<App>, batch: seq<App>)
    requires Distinct(s) && Distinct(batch)
    ensures Distinct(Merged(s, batch)) && AsMap(Merged(s, batch)) == MaxMerge(AsMap(s), AsMap(batch))
    decreases |batch|
  {
    if batch == [] {
      assert MaxMerge(AsMap(s), map[]) == AsMap(s);
    } else {
      PutKeeps(s, batch[0]);
      MergedKeeps(Put(s, batch[0]), batch[1..]);
      MaxMergeOneByOne(AsMap(s), AsMap(batch[1..]), batch[0]);
    }
  }

  lemma {:induction false} InsertKeeps(app: App, s: seq<App>)
    requires Distinct(s) && Sorted(s) && app.clientId !in AsMap(s)
    ensures var s' := Insert(app, s);
            Distinct(s') && Sorted(s') && AsMap(s') == AsMap(s)[app.clientId := app.at]
  {
    var s' := Insert(app, s);
    if s == [] || app.at >= s[0].at {
      assert s'[1..] == s;
    } else {
      InsertKeeps(app, s[1..]);
      assert s'[1..] == Insert(app, s[1..]);
    }
  }

  lemma {:induction false} SortKeeps(s: seq<App>)
    requires Distinct(s)
    ensures var s' := SortNewestFirst(s); Distinct(s') && Sorted(s') && AsMap(s') == AsMap(s)
  {
    if s != [] {
      SortKeeps(s[1..]);
      InsertKeeps(s[0], SortNewestFirst(s[1..]));
    }
  }

  // The entries of one timestamp, in their order.
  function OfTime(s: seq<App>, t: int): seq<App> {
    if s == [] then [] else (if s[0].at == t then [s[0]] else []) + OfTime(s[1..], t)
  }

  lemma {:induction false} InsertIsStable(app: App, s: seq<App>, t: int)
    ensures OfTime(Insert(app, s), t) == (if app.at == t then [app] else []) + OfTime(s, t)
  {
    var s' := Insert(app, s);
    if s == [] || app.at >= s[0].at {
      assert s'[1..] == s;
    } else {
      InsertIsStable(app, s[1..], t);
      assert s'[1..] == Insert(app, s[1..]);
      if app.at == t {
        NoneNewer(s, app, t);
      }
    }
  }

  // Nothing to show: s[0] is newer than app, so it is not of app's time.
  lemma NoneNewer(s: seq<App>, app: App, t: int)
    requires s != [] && app.at < s[0].at && app.at == t
    ensures OfTime(s, t) == OfTime(s[1..], t)
  {
    assert [] + OfTime(s[1..], t) == OfTime(s[1..], t);
  }

  /** Applications used at the same time stay in the order in which they came. */
  lemma {:induction false} SortIsStable(s: seq<App>, t: int)
    ensures OfTime(SortNewestFirst(s), t) == OfTime(s, t)
  {
    if s != [] {
      SortIsStable(s[1..], t);
      InsertIsStable(s[0], SortNewestFirst(s[1..]), t);
    }
  }

  function Clients(s: seq<App>): seq<ClientId> {
    if s == [] then [] else [s[0].clientId] + Clients(s[1..])
  }

  /** A client put on a list keeps its place, and a new one comes last. */
  lemma {:induction false} PutKeepsPlaces(s: seq<App>, app: App)
    ensures Clients(Put(s, app)) == Clients(s) + if app.clientId in Clients(s) then [] else [app.clientId]
  {
    if s == [] {
      assert [app][1..] == [];
    } else if s[0].clientId == app.clientId {
      assert Put(s, app)[1..] == s[1..];
    } else {
      PutKeepsPlaces(s[1..], app);
      assert Put(s, app)[1..] == Put(s[1..], app);
    }
  }

  lemma {:induction false} FirstIsNewest(s: seq<App>, id: ClientId)
    requires Sorted(s) && Distinct(s) && id in AsMap(s)
    ensures AsMap(s)[id] <= s[0].at
  {
    if s[0].clientId != id {
      FirstIsNewest(s[1..], id);
    }
  }

  // What a cut keeps of a sorted list, and what it drops.
  lemma {:induction false} CutKeeps(s: seq<App>, limit: nat)
    requires Distinct(s) && Sorted(s)
    ensures var c := Cut(s, limit);
            && Distinct(c) && Sorted(c)
            && (forall id :: id in AsMap(c) ==> id in AsMap(s) && AsMap(s)[id] == AsMap(c)[id])
            && (forall id :: id in AsMap(s) && id !in AsMap(c) ==>
                  |c| == limit && forall i :: 0 <= i < |c| ==> AsMap(s)[id] <= c[i].at)
  {
    var c := Cut(s, limit);
    if |s| > limit > 0 {
      CutKeeps(s[1..], limit - 1);
      assert c[1..] == Cut(s[1..], limit - 1);
      forall id, i | id in AsMap(s) && id !in AsMap(c) && 0 <= i < |c| ensures AsMap(s)[id] <= c[i].at {
        if i == 0 {
          FirstIsNewest(s, id);
        } else {
          assert c[i] == c[1..][i - 1];
        }
      }
    }
  }

  // If `limit` clients are at least as new as t, so are the first `limit` of a sorted list.
  lemma {:induction false} EnoughNewOnes(s: seq<App>, ids: set<ClientId>, t: int, limit: nat)
    requires Distinct(s) && Sorted(s) && |ids| >= limit
    requires forall id :: id in ids ==> id in AsMap(s) && AsMap(s)[id] >= t
    ensures |s| >= limit && forall j :: 0 <= j < limit ==> s[j].at >= t
  {
    if limit > 0 {
      var some :| some in ids;
      FirstIsNewest(s, some);
      EnoughNewOnes(s[1..], ids - {s[0].clientId}, t, limit - 1);
      assert forall j :: 0 < j < limit ==> s[j] == s[1..][j - 1];
    }
  }

  lemma {:induction false} ListSize(s: seq<App>)
    requires Distinct(s)
    ensures |AsMap(s).Keys| == |s|
  {
    if s != [] {
      ListSize(s[1..]);
      assert AsMap(s).Keys == AsMap(s[1..]).Keys + {s[0].clientId};
    }
  }

  lemma {:induction false} EntryAt(s: seq<App>, i: nat)
    requires Distinct(s) && i < |s|
    ensures s[i].clientId in AsMap(s) && AsMap(s)[s[i].clientId] == s[i].at
  {
    if i > 0 {
      EntryAt(s[1..], i - 1);
    }
  }

  lemma {:induction false} EntryOf(s: seq<App>, id: ClientId) returns (i: nat)
    requires Distinct(s) && id in AsMap(s)
    ensures i < |s| && s[i].clientId == id && s[i].at == AsMap(s)[id]
  {
    if s[0].clientId == id {
      i := 0;
    } else {
      i := EntryOf(s[1..], id);
      i := i + 1;
    }
  }

  // A client that was cut off earlier is older than `limit` entries still listed.
  lemma ForgottenAreOlder(s: seq<App>, batch: seq<App>, t: int, limit: nat)
    requires Distinct(s) && Distinct(batch) && |s| == limit && (forall i :: 0 <= i < |s| ==> t <= s[i].at)
    ensures var sorted := SortNewestFirst(Merged(s, batch));
            |sorted| >= limit && forall j :: 0 <= j < limit ==> sorted[j].at >= t
  {
    MergedKeeps(s, batch);
    SortKeeps(Merged(s, batch));
    ListSize(s);
    forall id | id in AsMap(s).Keys ensures AsMap(s)[id] >= t {
      var i := EntryOf(s, id);
    }
    EnoughNewOnes(SortNewestFirst(Merged(s, batch)), AsMap(s).Keys, t, limit);
  }

  // A list `r` cut from the merge p of the old list m and a batch b, whose old
  // list had forgotten only clients older than r's entries, is the newest again.
  lemma CutOfMergeIsNewest(r: seq<App>, m: map<ClientId, int>, b: map<ClientId, int>, history: map<ClientId, int>, limit: nat)
    requires Distinct(r) && Sorted(r) && |r| <= limit
    requires forall id :: id in AsMap(r) ==> id in m.Keys + b.Keys && MaxMerge(m, b)[id] == AsMap(r)[id]
    requires forall id :: id in MaxMerge(m, b) && id !in AsMap(r) ==>
               |r| == limit && forall i :: 0 <= i < |r| ==> MaxMerge(m, b)[id] <= r[i].at
    requires forall id :: id in m ==> id in history && history[id] == m[id]
    requires forall id :: id in history && id !in m ==> |r| == limit && forall i :: 0 <= i < |r| ==> r[i].at >= history[id]
    ensures Newest(r, MaxMerge(history, b), limit)
  {
    var history' := MaxMerge(history, b);
    forall id | id in AsMap(r) ensures id in history' && history'[id] == AsMap(r)[id] {
      var i := EntryOf(r, id);
      assert id in history && id !in m ==> r[i].at >= history[id];
    }
    forall id | id in history' && id !in AsMap(r)
      ensures |r| == limit && forall i :: 0 <= i < |r| ==> history'[id] <= r[i].at
    {
      assert id in MaxMerge(m, b) || (id in history && id !in m);
    }
  }

  /** One flush, however late it lands: cutting the merged list to the limit
      gives the newest of the whole merged history, although the list it started
      from had already forgotten some clients. */
  lemma FlushKeepsNewest(s: seq<App>, history: map<ClientId, int>, batch: seq<App>, limit: nat)
    requires Newest(s, history, limit) && Distinct(batch)
    ensures Newest(Recent(s, batch, limit), MaxMerge(history, AsMap(batch)), limit)
  {
    var sorted, recent := SortNewestFirst(Merged(s, batch)), Recent(s, batch, limit);
    MergedKeeps(s, batch);
    SortKeeps(Merged(s, batch));
    CutKeeps(sorted, limit);
    forall id | id in history && id !in AsMap(s)
      ensures |recent| == limit && forall j :: 0 <= j < |recent| ==> recent[j].at >= history[id]
    {
      ForgottenAreOlder(s, batch, history[id], limit);
    }
    CutOfMergeIsNewest(recent, AsMap(s), AsMap(batch), history, limit);
  }

  // ---- every flush of every pod ------------------------------------------------

  function RecentAfter(batches: seq<seq<App>>, limit: nat): seq<App> {
    if batches == [] then [] else Recent(RecentAfter(batches[..|batches| - 1], limit), batches[|batches| - 1], limit)
  }

  function History(batches: seq<seq<App>>): map<ClientId, int> {
    if batches == [] then map[] else MaxMerge(History(batches[..|batches| - 1]), AsMap(batches[|batches| - 1]))
  }

  /** Folding the successful flushes of all pods, in whatever order they
      committed, gives the newest applications of everything flushed. */
  lemma {:induction false} RecentIsNewest(batches: seq<seq<App>>, limit: nat)
    requires forall i :: 0 <= i < |batches| ==> Distinct(batches[i])
    ensures Newest(RecentAfter(batches, limit), History(batches), limit)
  {
    if batches != [] {
      var prefix, last := batches[..|batches| - 1], batches[|batches| - 1];
      RecentIsNewest(prefix, limit);
      FlushKeepsNewest(RecentAfter(prefix, limit), History(prefix), last, limit);
    }
  }

  /** The history holds each client's true maximum: an upper bound of every
      entry flushed for it, and itself one of them. */
  lemma {:induction false} HistoryIsMaximum(batches: seq<seq<App>>, id: ClientId)
    requires forall k :: 0 <= k < |batches| ==> Distinct(batches[k])
    ensures forall i, j :: 0 <= i < |batches| && 0 <= j < |batches[i]| && batches[i][j].clientId == id ==>
              id in History(batches) && History(batches)[id] >= batches[i][j].at
    ensures id in History(batches) ==>
              exists i, j :: 0 <= i < |batches| && 0 <= j < |batches[i]| && batches[i][j] == App(id, History(batches)[id])
  {
    if batches != [] {
      var prefix, last := batches[..|batches| - 1], batches[|batches| - 1];
      HistoryIsMaximum(prefix, id);
      forall i, j | 0 <= i < |batches| && 0 <= j < |batches[i]| && batches[i][j].clientId == id
        ensures id in History(batches) && History(batches)[id] >= batches[i][j].at
      {
        if i == |prefix| {
          EntryAt(last, j);
        } else {
          assert prefix[i][j] == batches[i][j];
        }
      }
      if id in History(batches) {
        if id in AsMap(last) && AsMap(last)[id] == History(batches)[id] {
          var j := EntryOf(last, id);
          assert batches[|prefix|][j] == App(id, History(batches)[id]);
        } else {
          var i, j :| 0 <= i < |prefix| && 0 <= j < |prefix[i]| && prefix[i][j] == App(id, History(prefix)[id]);
          assert batches[i][j] == App(id, History(batches)[id]);
        }
      }
    }
  }

  // ---- nothing is dropped on the way -------------------------------------------

  // A client's own lastUsedAt, and the same client among one user's applications.
  datatype Key = ClientUse(client: ClientId) | UserUse(account: AccountId, client: ClientId)

  // What one status write covers.
  datatype Target = OfClient(client: ClientId) | OfUser(account: AccountId)

  type PodName = string
  type FlightId = nat

  datatype Flight = Flight(pod: PodName, batch: map<Key, int>)

  // `lastUsed` and `recent` are what the statuses hold. `flushed` is what the
  // writes that took effect carried all in all, `recorded` the newest ever recorded.
  datatype World = World(
    limit: nat,
    pending: map<PodName, map<Key, int>>,
    flights: map<FlightId, Flight>,
    lastUsed: map<ClientId, int>,
    recent: map<AccountId, seq<App>>,
    flushed: map<Key, int>,
    gone: set<Target>,
    recorded: map<Key, int>)

  datatype Outcome = Written | Rejected(applied: bool)

  // `apps` lists a user's applications in the order the flush's Map has them.
  datatype Action =
    | Record(pod: PodName, client: ClientId, account: Option<AccountId>, at: int)
    | BeginFlush(pod: PodName, id: FlightId)
    | Settle(id: FlightId, target: Target, apps: seq<App>, outcome: Outcome)
    | Vanish(target: Target)

  function TargetOf(k: Key): Target {
    if k.ClientUse? then OfClient(k.client) else OfUser(k.account)
  }

  function PartOf(m: map<Key, int>, target: Target): map<Key, int> {
    map k | k in m && TargetOf(k) == target :: m[k]
  }

  function Without(m: map<Key, int>, target: Target): map<Key, int> {
    map k | k in m && TargetOf(k) != target :: m[k]
  }

  // One user's applications.
  function AppsOf(m: map<Key, int>, account: AccountId): map<ClientId, int> {
    map k | k in m && k.UserUse? && k.account == account :: k.client := m[k]
  }

  function Batch(client: ClientId, account: Option<AccountId>, at: int): map<Key, int> {
    if account.Some? then map[ClientUse(client) := at, UserUse(account.value, client) := at] else map[ClientUse(client) := at]
  }

  function RecentOf(w: World, account: AccountId): seq<App> {
    if account in w.recent then w.recent[account] else []
  }

  ghost predicate Settles(w: World, a: Action) {
    && a.Settle? && a.id in w.flights && w.flights[a.id].pod in w.pending
    && (a.target.OfUser? ==> Distinct(a.apps) && AsMap(a.apps) == AppsOf(w.flights[a.id].batch, a.target.account))
  }

  // The merge of one flight's part into the statuses.
  function Merge(w: World, target: Target, part: map<Key, int>, apps: seq<App>): World
    requires target.OfClient? ==> ClientUse(target.client) in part
  {
    var w' := w.(flushed := MaxMerge(w.flushed, part));
    match target
    case OfClient(c) => w'.(lastUsed := MaxMerge(w.lastUsed, map[c := part[ClientUse(c)]]))
    case OfUser(u) => w'.(recent := w.recent[u := Recent(RecentOf(w, u), apps, w.limit)])
  }

  lemma ClientPart(m: map<Key, int>, c: ClientId)
    ensures PartOf(m, OfClient(c)) != map[] ==> ClientUse(c) in PartOf(m, OfClient(c))
  {
    if PartOf(m, OfClient(c)) != map[] {
      var k :| k in PartOf(m, OfClient(c));
      assert k == ClientUse(c);
    }
  }

  // If the resource is there, and the flight has something for it.
  function Flushed(w: World, a: Action): World
    requires a.Settle? && a.id in w.flights
  {
    var part := PartOf(w.flights[a.id].batch, a.target);
    if a.target in w.gone || part == map[] then w
    else
      assert a.target.OfClient? ==> ClientUse(a.target.client) in part by {
        if a.target.OfClient? {
          ClientPart(w.flights[a.id].batch, a.target.client);
        }
      }
      Merge(w, a.target, part, a.apps)
  }

  ghost function Step(w: World, a: Action): World {
    match a
    case Record(pod, client, account, at) =>
      if pod !in w.pending then w
      else
        var batch := Batch(client, account, at);
        w.(pending := w.pending[pod := MaxMerge(w.pending[pod], batch)], recorded := MaxMerge(w.recorded, batch))
    case BeginFlush(pod, id) =>
      if pod !in w.pending || id in w.flights then w
      else w.(pending := w.pending[pod := map[]], flights := w.flights[id := Flight(pod, w.pending[pod])])
    case Settle(id, target, _, outcome) =>
      if !Settles(w, a) then w
      else
        var flight := w.flights[id];
        var w' := if outcome.Written? || outcome.applied then Flushed(w, a) else w;
        w'.(flights := w.flights[id := flight.(batch := Without(flight.batch, target))],
            pending := if outcome.Written? then w.pending
                       else w.pending[flight.pod := MaxMerge(w.pending[flight.pod], PartOf(flight.batch, target))])
    case Vanish(target) =>
      var w' := w.(gone := w.gone + {target}, flushed := Without(w.flushed, target));
      match target
      case OfClient(c) => w'.(lastUsed := w.lastUsed - {c})
      case OfUser(u) => w'.(recent := w.recent - {u})
  }

  ghost function Run(w: World, actions: seq<Action>): World
    decreases |actions|
  {
    if actions == [] then w else Run(Step(w, actions[0]), actions[1..])
  }

  // ---- what one action does ------------------------------------------------------

  // The larger of a timestamp and what is there.
  function AtLeast(m: map<Key, int>, k: Key, at: int): int {
    if k in m && m[k] >= at then m[k] else at
  }

  // A sign-in concerns the client, and the same application of the account if it
  // names one.
  predicate Concerns(client: ClientId, account: Option<AccountId>, k: Key) {
    match k
    case ClientUse(c) => c == client
    case UserUse(u, c) => c == client && account == Some(u)
  }

  /** Recording a sign-in at a pod puts its timestamp, or a newer one already
      there, under the client and under the account's application, in what the pod
      has pending; nothing else changes anywhere. */
  lemma RecordExactly(w: World, pod: PodName, client: ClientId, account: Option<AccountId>, at: int, k: Key)
    requires pod in w.pending
    ensures var w' := Step(w, Record(pod, client, account, at));
            && w' == w.(pending := w.pending[pod := w'.pending[pod]], recorded := w'.recorded)
            && (Concerns(client, account, k) ==>
                  && k in w'.pending[pod] && w'.pending[pod][k] == AtLeast(w.pending[pod], k, at)
                  && k in w'.recorded && w'.recorded[k] == AtLeast(w.recorded, k, at))
            && (!Concerns(client, account, k) ==>
                  && (k in w'.pending[pod] <==> k in w.pending[pod]) && (k in w.pending[pod] ==> w'.pending[pod][k] == w.pending[pod][k])
                  && (k in w'.recorded <==> k in w.recorded) && (k in w.recorded ==> w'.recorded[k] == w.recorded[k]))
  {
  }

  // A sign-in of the run that concerns k, at a pod that is there.
  ghost predicate Recorded(w: World, a: Action, k: Key, at: int) {
    a.Record? && a.pod in w.pending && Concerns(a.client, a.account, k) && a.at == at
  }

  lemma PodsStay(w: World, a: Action)
    ensures Step(w, a).pending.Keys == w.pending.Keys
  {
  }

  lemma OnlyRecordsRecord(w: World, a: Action)
    requires !(a.Record? && a.pod in w.pending)
    ensures Step(w, a).recorded == w.recorded
  {
    if a.Settle? && Settles(w, a) {
      SettleFrame(w, a);
    }
  }

  /** Over any run, what counts as the newest ever recorded is at least as new as
      every sign-in of the run that concerns it, and is one of them, unless it was
      there before. */
  lemma {:induction false} RecordedIsTheNewestSignIn(w: World, actions: seq<Action>, k: Key)
    ensures var w' := Run(w, actions);
            && (forall i, t :: 0 <= i < |actions| && Recorded(w, actions[i], k, t) ==> k in w'.recorded && w'.recorded[k] >= t)
            && (k in w.recorded ==> k in w'.recorded && w'.recorded[k] >= w.recorded[k])
            && (k in w'.recorded ==>
                  At(w.recorded, k, w'.recorded[k])
                  || exists i :: 0 <= i < |actions| && Recorded(w, actions[i], k, w'.recorded[k]))
    decreases |actions|
  {
    if actions != [] {
      var a := actions[0];
      var next := Step(w, a);
      var w' := Run(next, actions[1..]);
      PodsStay(w, a);
      RecordedIsTheNewestSignIn(next, actions[1..], k);
      forall i | 0 < i < |actions| ensures actions[i] == actions[1..][i - 1] && (forall t :: Recorded(w, actions[i], k, t) <==> Recorded(next, actions[i], k, t)) {
      }
      if a.Record? && a.pod in w.pending {
        RecordExactly(w, a.pod, a.client, a.account, a.at, k);
      } else {
        OnlyRecordsRecord(w, a);
      }
      if k in w'.recorded && !At(next.recorded, k, w'.recorded[k]) {
        var i :| 0 <= i < |actions[1..]| && Recorded(next, actions[1..][i], k, w'.recorded[k]);
        assert Recorded(w, actions[i + 1], k, w'.recorded[k]);
      } else if k in w'.recorded && !At(w.recorded, k, w'.recorded[k]) {
        assert Recorded(w, actions[0], k, w'.recorded[k]);
      }
    }
  }

  /** Beginning a flush takes everything the pod has pending on its way. */
  lemma BeginFlushExactly(w: World, pod: PodName, id: FlightId)
    requires pod in w.pending && id !in w.flights
    ensures var w' := Step(w, BeginFlush(pod, id));
            w' == w.(pending := w.pending[pod := map[]], flights := w.flights[id := Flight(pod, w.pending[pod])])
  {
  }

  /** Once a write was answered, nothing of its target is on its way in that
      flight any more, and nothing was put back; one that failed puts everything
      back, no older than what is pending by then. */
  lemma SettleExactly(w: World, a: Action, k: Key)
    requires Settles(w, a) && TargetOf(k) == a.target
    ensures var w' := Step(w, a);
            var batch, pod := w.flights[a.id].batch, w.flights[a.id].pod;
            && a.id in w'.flights && pod in w'.pending
            && k !in w'.flights[a.id].batch
            && (a.outcome.Written? ==> w'.pending == w.pending)
            && (a.outcome.Rejected? && k in batch ==>
                  k in w'.pending[pod] && w'.pending[pod][k] == AtLeast(w.pending[pod], k, batch[k]))
            && (a.outcome.Rejected? && k !in batch ==>
                  (k in w'.pending[pod] <==> k in w.pending[pod])
                  && (k in w.pending[pod] ==> w'.pending[pod][k] == w.pending[pod][k]))
  {
    var batch, pod := w.flights[a.id].batch, w.flights[a.id].pod;
    SettleFrame(w, a);
    PartLookup(batch, a.target, k);
    MergedLookup(w.pending[pod], PartOf(batch, a.target), k);
  }

  /** A write that failed before it was stored, or whose resource is gone, leaves
      every status as it was. */
  lemma UnstoredWrite(w: World, a: Action)
    requires Settles(w, a) && (a.outcome == Rejected(false) || a.target in w.gone)
    ensures Step(w, a).lastUsed == w.lastUsed && Step(w, a).recent == w.recent
  {
  }

  function Initial(limit: nat, pods: set<PodName>): World {
    World(limit, map p | p in pods :: map[], map[], map[], map[], map[], {}, map[])
  }

  ghost predicate At(m: map<Key, int>, k: Key, t: int) {
    k in m && m[k] == t
  }

  // The timestamp is pending in a pod or on its way.
  ghost predicate Waiting(w: World, k: Key, t: int) {
    || (exists p :: p in w.pending && At(w.pending[p], k, t))
    || (exists f :: f in w.flights && At(w.flights[f].batch, k, t))
  }

  ghost predicate Bounded(m: map<Key, int>, w: World, k: Key) {
    k in m ==> k in w.recorded && m[k] <= w.recorded[k]
  }

  ghost predicate Conserved(w: World, k: Key) {
    && (forall p :: p in w.pending ==> Bounded(w.pending[p], w, k))
    && (forall f :: f in w.flights ==> Bounded(w.flights[f].batch, w, k))
    && Bounded(w.flushed, w, k)
    && (k in w.recorded && TargetOf(k) !in w.gone ==> Waiting(w, k, w.recorded[k]) || At(w.flushed, k, w.recorded[k]))
    && (TargetOf(k) in w.gone ==> k !in w.flushed)
  }

  lemma RecordConserves(w: World, a: Action, k: Key)
    requires Conserved(w, k) && a.Record? && a.pod in w.pending
    ensures Conserved(Step(w, a), k)
  {
    var w' := Step(w, a);
    var batch := Batch(a.client, a.account, a.at);
    assert w'.pending == w.pending[a.pod := MaxMerge(w.pending[a.pod], batch)];
    if k in w'.recorded && TargetOf(k) !in w'.gone {
      var t := w'.recorded[k];
      if k in w.recorded && w.recorded[k] == t {
        if p :| p in w.pending && At(w.pending[p], k, t) {
          assert At(w'.pending[p], k, t);
        }
      } else {
        assert k in batch && batch[k] == t;
        assert At(w'.pending[a.pod], k, t);
      }
    }
  }

  lemma BeginFlushConserves(w: World, a: Action, k: Key)
    requires Conserved(w, k) && a.BeginFlush? && a.pod in w.pending && a.id !in w.flights
    ensures Conserved(Step(w, a), k)
  {
    var w' := Step(w, a);
    if k in w'.recorded && TargetOf(k) !in w'.gone {
      var t := w'.recorded[k];
      if p :| p in w.pending && At(w.pending[p], k, t) {
        assert if p == a.pod then At(w'.flights[a.id].batch, k, t) else At(w'.pending[p], k, t);
      } else if f :| f in w.flights && At(w.flights[f].batch, k, t) {
        assert At(w'.flights[f].batch, k, t);
      }
    }
  }

  lemma PartLookup(m: map<Key, int>, target: Target, k: Key)
    ensures if TargetOf(k) == target
            then k !in Without(m, target) && (k in PartOf(m, target) <==> k in m) && (k in m ==> PartOf(m, target)[k] == m[k])
            else k !in PartOf(m, target) && (k in Without(m, target) <==> k in m) && (k in m ==> Without(m, target)[k] == m[k])
  {
  }

  lemma MergedLookup(m: map<Key, int>, part: map<Key, int>, k: Key)
    ensures MergedAt(m, MaxMerge(m, part), k, if k in part then Some(part[k]) else None)
  {
  }

  ghost predicate Takes(w: World, a: Action, k: Key)
    requires Settles(w, a)
  {
    k in w.flights[a.id].batch && TargetOf(k) == a.target
  }

  lemma MergeFrame(w: World, target: Target, part: map<Key, int>, apps: seq<App>)
    requires target.OfClient? ==> ClientUse(target.client) in part
    ensures var w' := Merge(w, target, part, apps);
            && w'.recorded == w.recorded && w'.gone == w.gone && w'.limit == w.limit
            && w'.flights == w.flights && w'.pending == w.pending && w'.flushed == MaxMerge(w.flushed, part)
            && (target.OfClient? ==> w'.recent == w.recent) && (target.OfUser? ==> w'.lastUsed == w.lastUsed)
  {
  }

  // What a write does to the statuses it covers, and to nothing else.
  lemma FlushedFrame(w: World, a: Action)
    requires Settles(w, a)
    ensures var w' := Flushed(w, a);
            var part := PartOf(w.flights[a.id].batch, a.target);
            var lands := a.target !in w.gone && part != map[];
            && w'.recorded == w.recorded && w'.gone == w.gone && w'.limit == w.limit
            && w'.flights == w.flights && w'.pending == w.pending
            && w'.flushed == (if lands then MaxMerge(w.flushed, part) else w.flushed)
            && (!(lands && a.target.OfUser?) ==> w'.recent == w.recent)
            && (!(lands && a.target.OfClient?) ==> w'.lastUsed == w.lastUsed)
  {
    var part := PartOf(w.flights[a.id].batch, a.target);
    if a.target !in w.gone && part != map[] {
      if a.target.OfClient? {
        ClientPart(w.flights[a.id].batch, a.target.client);
      }
      MergeFrame(w, a.target, part, a.apps);
    }
  }

  lemma SettleFrame(w: World, a: Action)
    requires Settles(w, a)
    ensures var w' := Step(w, a);
            var batch, pod := w.flights[a.id].batch, w.flights[a.id].pod;
            && w'.recorded == w.recorded && w'.gone == w.gone && w'.limit == w.limit
            && w'.flights == w.flights[a.id := Flight(pod, Without(batch, a.target))]
            && w'.pending == (if a.outcome.Written? then w.pending else w.pending[pod := MaxMerge(w.pending[pod], PartOf(batch, a.target))])
            && w'.flushed == (if (a.outcome.Written? || a.outcome.applied) && a.target !in w.gone && PartOf(batch, a.target) != map[]
                              then MaxMerge(w.flushed, PartOf(batch, a.target)) else w.flushed)
  {
    FlushedFrame(w, a);
  }

  // What a settled part does to the three places, seen from one key.
  lemma SettleAtKey(w: World, a: Action, k: Key)
    requires Settles(w, a)
    ensures var w' := Step(w, a);
            var batch, pod := w.flights[a.id].batch, w.flights[a.id].pod;
            && w'.recorded == w.recorded && w'.gone == w.gone
            && w'.pending.Keys == w.pending.Keys && w'.flights.Keys == w.flights.Keys
            && (forall p :: p in w.pending && p != pod ==> w'.pending[p] == w.pending[p])
            && (forall f :: f in w.flights && f != a.id ==> w'.flights[f] == w.flights[f])
            && (if Takes(w, a, k) then k !in w'.flights[a.id].batch
                else (k in w'.flights[a.id].batch <==> k in batch) && (k in batch ==> w'.flights[a.id].batch[k] == batch[k]))
            && MergedAt(w.pending[pod], w'.pending[pod], k, if Takes(w, a, k) && a.outcome.Rejected? then Some(batch[k]) else None)
            && MergedAt(w.flushed, w'.flushed, k,
                        if Takes(w, a, k) && (a.outcome.Written? || a.outcome.applied) && a.target !in w.gone then Some(batch[k]) else None)
  {
    var batch, pod := w.flights[a.id].batch, w.flights[a.id].pod;
    SettleFrame(w, a);
    PartLookup(batch, a.target, k);
    MergedLookup(w.pending[pod], PartOf(batch, a.target), k);
    MergedLookup(w.flushed, PartOf(batch, a.target), k);
  }

  // The entry of k is merged with a timestamp, if one is given.
  ghost predicate MergedAt(before: map<Key, int>, after: map<Key, int>, k: Key, at: Option<int>) {
    && (k in after <==> k in before || at.Some?)
    && (k in after ==>
          after[k] == if at.None? then before[k] else if k in before then Newer(before[k], at.value) else at.value)
  }

  lemma SettleConserves(w: World, a: Action, k: Key)
    requires Conserved(w, k) && Settles(w, a)
    ensures Conserved(Step(w, a), k)
  {
    var w' := Step(w, a);
    var batch, pod := w.flights[a.id].batch, w.flights[a.id].pod;
    SettleAtKey(w, a, k);
    assert Bounded(batch, w, k) && Bounded(w.pending[pod], w, k);
    forall p | p in w'.pending ensures Bounded(w'.pending[p], w', k) {
      assert Bounded(w.pending[p], w, k);
    }
    forall f | f in w'.flights ensures Bounded(w'.flights[f].batch, w', k) {
      assert Bounded(w.flights[f].batch, w, k);
    }
    if k in w'.recorded && TargetOf(k) !in w'.gone {
      SettleKeepsSomewhere(w, a, k);
    }
  }

  lemma SettleKeepsSomewhere(w: World, a: Action, k: Key)
    requires Conserved(w, k) && Settles(w, a) && k in w.recorded && TargetOf(k) !in w.gone
    ensures var w' := Step(w, a); Waiting(w', k, w.recorded[k]) || At(w'.flushed, k, w.recorded[k])
  {
    var w' := Step(w, a);
    var batch, pod, t := w.flights[a.id].batch, w.flights[a.id].pod, w.recorded[k];
    SettleAtKey(w, a, k);
    assert Bounded(batch, w, k) && Bounded(w.pending[pod], w, k);
    if p :| p in w.pending && At(w.pending[p], k, t) {
      assert At(w'.pending[p], k, t);
    } else if f :| f in w.flights && At(w.flights[f].batch, k, t) {
      if f != a.id || TargetOf(k) != a.target {
        assert At(w'.flights[f].batch, k, t);
      } else if a.outcome.Written? {
        assert At(w'.flushed, k, t);
      } else {
        assert At(w'.pending[pod], k, t);
      }
    }
  }

  lemma VanishConserves(w: World, target: Target, k: Key)
    requires Conserved(w, k)
    ensures Conserved(Step(w, Vanish(target)), k)
  {
    var w' := Step(w, Vanish(target));
    PartLookup(w.flushed, target, k);
    if k in w'.recorded && TargetOf(k) !in w'.gone {
      if p :| p in w.pending && At(w.pending[p], k, w.recorded[k]) {
        assert At(w'.pending[p], k, w.recorded[k]);
      }
    }
  }

  lemma StepConserves(w: World, a: Action, k: Key)
    requires Conserved(w, k)
    ensures Conserved(Step(w, a), k)
  {
    match a
    case Record(pod, _, _, _) =>
      if pod in w.pending {
        RecordConserves(w, a, k);
      }
    case BeginFlush(pod, id) =>
      if pod in w.pending && id !in w.flights {
        BeginFlushConserves(w, a, k);
      }
    case Settle(_, _, _, _) =>
      if Settles(w, a) {
        SettleConserves(w, a, k);
      }
    case Vanish(target) => VanishConserves(w, target, k);
  }

  lemma StepKeepsFlushed(w: World, a: Action, k: Key)
    requires k in w.flushed && a != Vanish(TargetOf(k))
    ensures k in Step(w, a).flushed && Step(w, a).flushed[k] >= w.flushed[k]
  {
    if a.Settle? && Settles(w, a) {
      SettleAtKey(w, a, k);
    } else if a.Vanish? {
      PartLookup(w.flushed, a.target, k);
    }
  }

  // ---- the statuses project what was flushed --------------------------------------

  lemma AppsOfLookup(m: map<Key, int>, u: AccountId, c: ClientId)
    ensures c in AppsOf(m, u) <==> UserUse(u, c) in m
    ensures c in AppsOf(m, u) ==> AppsOf(m, u)[c] == m[UserUse(u, c)]
  {
  }

  lemma SameApps(m: map<Key, int>, n: map<Key, int>, u: AccountId)
    requires forall c :: UserUse(u, c) in m <==> UserUse(u, c) in n
    requires forall c :: UserUse(u, c) in m ==> m[UserUse(u, c)] == n[UserUse(u, c)]
    ensures AppsOf(m, u) == AppsOf(n, u)
  {
    forall c
      ensures c in AppsOf(m, u) <==> c in AppsOf(n, u)
      ensures c in AppsOf(m, u) ==> AppsOf(m, u)[c] == AppsOf(n, u)[c]
    {
      AppsOfLookup(m, u, c);
      AppsOfLookup(n, u, c);
    }
  }

  // A part flushed for one user, seen by any user.
  lemma AppsOfMerge(m: map<Key, int>, batch: map<Key, int>, target: Target, u: AccountId)
    ensures AppsOf(MaxMerge(m, PartOf(batch, target)), u) ==
            if target == OfUser(u) then MaxMerge(AppsOf(m, u), AppsOf(batch, u)) else AppsOf(m, u)
  {
    var part := PartOf(batch, target);
    var merged := MaxMerge(m, part);
    var expected := if target == OfUser(u) then MaxMerge(AppsOf(m, u), AppsOf(batch, u)) else AppsOf(m, u);
    forall c
      ensures c in AppsOf(merged, u) <==> c in expected
      ensures c in expected ==> AppsOf(merged, u)[c] == expected[c]
    {
      AppsOfLookup(merged, u, c);
      AppsOfLookup(m, u, c);
      AppsOfLookup(batch, u, c);
    }
  }

  // A user's list shows the newest of what was flushed for it, and a client's
  // lastUsedAt is what was flushed for that.
  ghost predicate UserProjected(w: World, u: AccountId) {
    && Newest(RecentOf(w, u), AppsOf(w.flushed, u), w.limit)
    && (OfUser(u) in w.gone ==> u !in w.recent)
  }

  ghost predicate ClientProjected(w: World, c: ClientId) {
    && (c in w.lastUsed <==> ClientUse(c) in w.flushed)
    && (c in w.lastUsed ==> w.lastUsed[c] == w.flushed[ClientUse(c)])
  }

  lemma SettledList(w: World, a: Action, u: AccountId)
    requires Settles(w, a)
    ensures var w' := Step(w, a);
            var batch := w.flights[a.id].batch;
            var writes := (a.outcome.Written? || a.outcome.applied) && a.target !in w.gone && PartOf(batch, a.target) != map[];
            && RecentOf(w', u) == (if writes && a.target == OfUser(u) then Recent(RecentOf(w, u), a.apps, w.limit) else RecentOf(w, u))
            && (u in w'.recent ==> u in w.recent || (writes && a.target == OfUser(u)))
  {
  }

  lemma SettleProjectsUser(w: World, a: Action, u: AccountId)
    requires UserProjected(w, u) && Settles(w, a)
    ensures UserProjected(Step(w, a), u)
  {
    var batch := w.flights[a.id].batch;
    SettleFrame(w, a);
    SettledList(w, a, u);
    AppsOfMerge(w.flushed, batch, a.target, u);
    if a.target == OfUser(u) {
      FlushKeepsNewest(RecentOf(w, u), AppsOf(w.flushed, u), a.apps, w.limit);
    }
  }

  lemma NothingIsNewest(limit: nat)
    ensures Newest([], map[], limit)
  {
  }

  lemma VanishProjectsUser(w: World, target: Target, u: AccountId)
    requires UserProjected(w, u)
    ensures UserProjected(Step(w, Vanish(target)), u)
  {
    VanishFrame(w, target, u);
    AppsWithout(w.flushed, target, u);
    NothingIsNewest(w.limit);
  }

  lemma VanishFrame(w: World, target: Target, u: AccountId)
    ensures var w' := Step(w, Vanish(target));
            && w'.limit == w.limit && w'.flushed == Without(w.flushed, target) && w'.gone == w.gone + {target}
            && RecentOf(w', u) == (if target == OfUser(u) then [] else RecentOf(w, u))
            && (u in w'.recent <==> u in w.recent && target != OfUser(u))
  {
  }

  lemma AppsWithout(m: map<Key, int>, target: Target, u: AccountId)
    ensures AppsOf(Without(m, target), u) == if target == OfUser(u) then map[] else AppsOf(m, u)
  {
    forall c ensures if target == OfUser(u) then UserUse(u, c) !in Without(m, target)
                     else (UserUse(u, c) in Without(m, target) <==> UserUse(u, c) in m)
                          && (UserUse(u, c) in m ==> Without(m, target)[UserUse(u, c)] == m[UserUse(u, c)])
    {
      PartLookup(m, target, UserUse(u, c));
    }
    if target == OfUser(u) {
      SameApps(Without(m, target), map[], u);
    } else {
      SameApps(Without(m, target), m, u);
    }
  }

  lemma StepProjectsUser(w: World, a: Action, u: AccountId)
    requires UserProjected(w, u)
    ensures UserProjected(Step(w, a), u)
  {
    if a.Settle? && Settles(w, a) {
      SettleProjectsUser(w, a, u);
    } else if a.Vanish? {
      VanishProjectsUser(w, a.target, u);
    }
  }

  lemma FlushedProjectsClient(w: World, a: Action, c: ClientId)
    requires ClientProjected(w, c) && Settles(w, a)
    ensures ClientProjected(Flushed(w, a), c)
  {
    var part := PartOf(w.flights[a.id].batch, a.target);
    FlushedFrame(w, a);
    PartLookup(w.flights[a.id].batch, a.target, ClientUse(c));
    MergedLookup(w.flushed, part, ClientUse(c));
    if a.target.OfClient? && part != map[] {
      var k :| k in part;
      assert k == ClientUse(a.target.client);
    }
  }

  lemma StepProjectsClient(w: World, a: Action, c: ClientId)
    requires ClientProjected(w, c)
    ensures ClientProjected(Step(w, a), c)
  {
    if a.Settle? && Settles(w, a) {
      FlushedProjectsClient(w, a, c);
    } else if a.Vanish? {
      PartLookup(w.flushed, a.target, ClientUse(c));
    }
  }

  // Listed at that time, or passed over by a full list of others no older.
  ghost predicate Accounted(recent: seq<App>, c: ClientId, t: int, limit: nat) {
    || (c in AsMap(recent) && AsMap(recent)[c] == t)
    || (c !in AsMap(recent) && |recent| == limit && forall i :: 0 <= i < |recent| ==> recent[i].at >= t)
  }

  ghost predicate Inv(w: World, k: Key) {
    && Conserved(w, k)
    && match k case ClientUse(c) => ClientProjected(w, c) case UserUse(u, _) => UserProjected(w, u)
  }

  lemma StepKeepsInv(w: World, a: Action, k: Key)
    requires Inv(w, k)
    ensures Inv(Step(w, a), k)
  {
    StepConserves(w, a, k);
    if k.ClientUse? {
      StepProjectsClient(w, a, k.client);
    } else {
      StepProjectsUser(w, a, k.account);
    }
  }

  lemma StepKeepsLimit(w: World, a: Action)
    ensures Step(w, a).limit == w.limit
  {
  }

  lemma {:induction false} RunKeepsInv(w: World, actions: seq<Action>, k: Key)
    requires Inv(w, k)
    ensures Inv(Run(w, actions), k) && Run(w, actions).limit == w.limit
    decreases |actions|
  {
    if actions != [] {
      StepKeepsInv(w, actions[0], k);
      StepKeepsLimit(w, actions[0]);
      RunKeepsInv(Step(w, actions[0]), actions[1..], k);
    }
  }

  /** Over every run of sign-ins, overlapping flushes and failed writes, the
      newest timestamp ever recorded for a client is pending, on its way or its
      lastUsedAt, until the client is gone; and the newest for one of a user's
      applications is pending, on its way, listed with that very timestamp, or
      passed over by a full list of others no older. */
  lemma ActivityIsConserved(limit: nat, pods: set<PodName>, actions: seq<Action>, k: Key)
    ensures var w := Run(Initial(limit, pods), actions);
            k in w.recorded && TargetOf(k) !in w.gone ==>
              Waiting(w, k, w.recorded[k])
              || match k
                 case ClientUse(c) => c in w.lastUsed && w.lastUsed[c] == w.recorded[k]
                 case UserUse(u, c) => Accounted(RecentOf(w, u), c, w.recorded[k], limit)
  {
    RunKeepsInv(Initial(limit, pods), actions, k);
    if k.UserUse? {
      AppsOfLookup(Run(Initial(limit, pods), actions).flushed, k.account, k.client);
    }
  }

  /** Nothing stored is newer than what was recorded. */
  lemma NothingIsInvented(limit: nat, pods: set<PodName>, actions: seq<Action>, k: Key)
    ensures var w := Run(Initial(limit, pods), actions);
            match k
            case ClientUse(c) => c in w.lastUsed ==> k in w.recorded && w.lastUsed[c] <= w.recorded[k]
            case UserUse(u, c) => c in AsMap(RecentOf(w, u)) ==> k in w.recorded && AsMap(RecentOf(w, u))[c] <= w.recorded[k]
  {
    RunKeepsInv(Initial(limit, pods), actions, k);
    if k.UserUse? {
      AppsOfLookup(Run(Initial(limit, pods), actions).flushed, k.account, k.client);
    }
  }

  lemma {:induction false} FlushedNeverDecreases(w: World, actions: seq<Action>, k: Key)
    requires k in w.flushed
    requires forall i :: 0 <= i < |actions| ==> actions[i] != Vanish(TargetOf(k))
    ensures k in Run(w, actions).flushed && Run(w, actions).flushed[k] >= w.flushed[k]
    decreases |actions|
  {
    if actions != [] {
      StepKeepsFlushed(w, actions[0], k);
      forall i | 0 <= i < |actions[1..]| ensures actions[1..][i] != Vanish(TargetOf(k)) {
        assert actions[1..][i] == actions[i + 1];
      }
      FlushedNeverDecreases(Step(w, actions[0]), actions[1..], k);
    }
  }

  /** While the resource stays, a client's lastUsedAt never goes back, and what a
      user's list showed is later listed no older, or passed over by a full list
      of others no older. */
  lemma StoredNeverDecreases(limit: nat, pods: set<PodName>, before: seq<Action>, after: seq<Action>, k: Key)
    requires forall i :: 0 <= i < |after| ==> after[i] != Vanish(TargetOf(k))
    ensures var w := Run(Initial(limit, pods), before);
            var w' := Run(w, after);
            match k
            case ClientUse(c) => c in w.lastUsed ==> c in w'.lastUsed && w'.lastUsed[c] >= w.lastUsed[c]
            case UserUse(u, c) => c in AsMap(RecentOf(w, u)) ==>
              exists t :: t >= AsMap(RecentOf(w, u))[c] && Accounted(RecentOf(w', u), c, t, limit)
  {
    var w := Run(Initial(limit, pods), before);
    var w' := Run(w, after);
    RunKeepsInv(Initial(limit, pods), before, k);
    RunKeepsInv(w, after, k);
    if k in w.flushed {
      FlushedNeverDecreases(w, after, k);
    }
    if k.UserUse? {
      AppsOfLookup(w.flushed, k.account, k.client);
      AppsOfLookup(w'.flushed, k.account, k.client);
      if k.client in AsMap(RecentOf(w, k.account)) {
        assert Accounted(RecentOf(w', k.account), k.client, w'.flushed[k], limit);
      }
    }
  }

  // Nothing of the target is pending or on its way.
  ghost predicate Quiet(w: World, target: Target) {
    && (forall p, k :: p in w.pending && k in w.pending[p] ==> TargetOf(k) != target)
    && (forall f, k :: f in w.flights && k in w.flights[f].batch ==> TargetOf(k) != target)
  }

  lemma QuietIsFlushed(limit: nat, pods: set<PodName>, actions: seq<Action>, k: Key)
    requires var w := Run(Initial(limit, pods), actions); TargetOf(k) !in w.gone && Quiet(w, TargetOf(k))
    ensures var w := Run(Initial(limit, pods), actions);
            (k in w.flushed <==> k in w.recorded) && (k in w.flushed ==> w.flushed[k] == w.recorded[k])
  {
    RunKeepsInv(Initial(limit, pods), actions, k);
    var w := Run(Initial(limit, pods), actions);
    if k in w.recorded {
      assert !Waiting(w, k, w.recorded[k]);
    }
  }

  /** Once nothing of a client waits, its lastUsedAt is the newest ever recorded. */
  lemma QuietMeansStored(limit: nat, pods: set<PodName>, actions: seq<Action>, c: ClientId)
    requires var w := Run(Initial(limit, pods), actions); OfClient(c) !in w.gone && Quiet(w, OfClient(c))
    ensures var w := Run(Initial(limit, pods), actions);
            (c in w.lastUsed <==> ClientUse(c) in w.recorded) && (c in w.lastUsed ==> w.lastUsed[c] == w.recorded[ClientUse(c)])
  {
    RunKeepsInv(Initial(limit, pods), actions, ClientUse(c));
    QuietIsFlushed(limit, pods, actions, ClientUse(c));
  }

  /** Once nothing of a user waits, its list is the newest of everything ever
      recorded for the account, however the flushes of all pods interleaved. */
  lemma QuietMeansNewest(limit: nat, pods: set<PodName>, actions: seq<Action>, u: AccountId)
    requires var w := Run(Initial(limit, pods), actions); OfUser(u) !in w.gone && Quiet(w, OfUser(u))
    ensures var w := Run(Initial(limit, pods), actions);
            Newest(RecentOf(w, u), AppsOf(w.recorded, u), limit)
  {
    var w := Run(Initial(limit, pods), actions);
    RunKeepsInv(Initial(limit, pods), actions, UserUse(u, ""));
    forall c ensures (UserUse(u, c) in w.flushed <==> UserUse(u, c) in w.recorded)
                     && (UserUse(u, c) in w.flushed ==> w.flushed[UserUse(u, c)] == w.recorded[UserUse(u, c)])
    {
      QuietIsFlushed(limit, pods, actions, UserUse(u, c));
    }
    SameApps(w.flushed, w.recorded, u);
  }

  // Every part can be settled: its entries have some order.
  lemma {:induction false} InSomeOrder(m: map<ClientId, int>) returns (apps: seq<App>)
    ensures Distinct(apps) && AsMap(apps) == m
    decreases m.Keys
  {
    if m == map[] {
      apps := [];
    } else {
      var c :| c in m;
      var rest := InSomeOrder(m - {c});
      apps := [App(c, m[c])] + rest;
      assert apps[1..] == rest;
    }
  }

  // ---- the tracker in the source's own form ------------------------------------

  // The lists after the accounts in `flushed` have been written.
  function FlushedLists(recent: map<AccountId, seq<App>>, users: map<AccountId, seq<App>>, flushed: set<AccountId>, limit: nat)
    : map<AccountId, seq<App>>
    requires flushed <= users.Keys
  {
    map u | u in recent.Keys + flushed ::
      if u in flushed then Recent(if u in recent then recent[u] else [], users[u], limit) else recent[u]
  }

  lemma OneMoreFlushed(recent: map<AccountId, seq<App>>, users: map<AccountId, seq<App>>, flushed: set<AccountId>, u: AccountId, limit: nat)
    requires flushed <= users.Keys && u in users && u !in flushed
    ensures var before := FlushedLists(recent, users, flushed, limit);
            FlushedLists(recent, users, flushed + {u}, limit)
            == before[u := Recent(if u in before then before[u] else [], users[u], limit)]
  {
  }

  // The pending lists after those in `failed` are put back among newer sign-ins.
  function Requeued(pending: map<AccountId, seq<App>>, users: map<AccountId, seq<App>>, failed: set<AccountId>): map<AccountId, seq<App>>
    requires failed <= users.Keys
  {
    map u | u in pending.Keys + failed ::
      if u in failed then Merged(if u in pending then pending[u] else [], users[u]) else pending[u]
  }

  lemma OneMoreRequeued(pending: map<AccountId, seq<App>>, users: map<AccountId, seq<App>>, failed: set<AccountId>, u: AccountId)
    requires failed <= users.Keys && u in users && u !in failed
    ensures var before := Requeued(pending, users, failed);
            && (u in before <==> u in pending) && (u in pending ==> before[u] == pending[u])
            && Requeued(pending, users, failed + {u}) == before[u := Merged(if u in before then before[u] else [], users[u])]
  {
  }

  // One sign-in, as record() is told of it.
  datatype Use = Use(account: Option<AccountId>, client: ClientId, at: int)

  function ClientsUsed(pending: map<ClientId, int>, uses: seq<Use>): map<ClientId, int>
    decreases |uses|
  {
    if uses == [] then pending
    else
      var last := uses[|uses| - 1];
      MaxMerge(ClientsUsed(pending, uses[..|uses| - 1]), map[last.client := last.at])
  }

  function UsersUsed(pending: map<AccountId, seq<App>>, uses: seq<Use>): map<AccountId, seq<App>>
    decreases |uses|
  {
    if uses == [] then pending
    else
      var before, last := UsersUsed(pending, uses[..|uses| - 1]), uses[|uses| - 1];
      if last.account.None? then before
      else
        var u := last.account.value;
        before[u := Put(if u in before then before[u] else [], App(last.client, last.at))]
  }

  class StatusStore {
    var recent: map<AccountId, seq<App>>
    var lastUsed: map<ClientId, int>

    constructor ()
      ensures recent == map[] && lastUsed == map[]
    {
      recent, lastUsed := map[], map[];
    }
  }

  class Tracker {
    var pendingUsers: map<AccountId, seq<App>>
    var pendingClients: map<ClientId, int>

    constructor ()
      ensures pendingUsers == map[] && pendingClients == map[]
    {
      pendingUsers, pendingClients := map[], map[];
    }

    method RecordUse(account: Option<AccountId>, client: ClientId, at: int)
      modifies this
      ensures pendingClients == MaxMerge(old(pendingClients), map[client := at])
      ensures account.None? ==> pendingUsers == old(pendingUsers)
      ensures account.Some? ==>
                var before := if account.value in old(pendingUsers) then old(pendingUsers)[account.value] else [];
                pendingUsers == old(pendingUsers)[account.value := Put(before, App(client, at))]
      ensures client in pendingClients
              && pendingClients == old(pendingClients)[client := pendingClients[client]]
              && pendingClients[client] ==
                   if client in old(pendingClients) && old(pendingClients)[client] >= at then old(pendingClients)[client] else at
    {
      var newest := if client in pendingClients then Newer(pendingClients[client], at) else at;
      pendingClients := pendingClients[client := newest];
      assert pendingClients == MaxMerge(old(pendingClients), map[client := at]);
      if account.Some? {
        var applications := if account.value in pendingUsers then pendingUsers[account.value] else [];
        applications := Put(applications, App(client, at));
        pendingUsers := pendingUsers[account.value := applications];
      }
    }

    method RecordAll(uses: seq<Use>)
      modifies this
      ensures pendingClients == ClientsUsed(old(pendingClients), uses)
      ensures pendingUsers == UsersUsed(old(pendingUsers), uses)
    {
      for i := 0 to |uses|
        invariant pendingClients == ClientsUsed(old(pendingClients), uses[..i])
        invariant pendingUsers == UsersUsed(old(pendingUsers), uses[..i])
      {
        assert uses[..i + 1][..i] == uses[..i];
        RecordUse(uses[i].account, uses[i].client, uses[i].at);
      }
      assert uses[..|uses|] == uses;
    }

    // What a whole flush stores, and what it puts back because its write failed,
    // among the sign-ins that arrive while it runs: `early` ones before a failure
    // is put back, `late` ones after.
    method Flush(store: StatusStore, failedUsers: set<AccountId>, failedClients: set<ClientId>, limit: nat,
                 early: seq<Use>, late: seq<Use>)
      modifies this, store
      ensures pendingUsers ==
              UsersUsed(Requeued(UsersUsed(map[], early), old(pendingUsers), failedUsers * old(pendingUsers).Keys), late)
      ensures pendingClients ==
              ClientsUsed(MaxMerge(ClientsUsed(map[], early), Restrict(old(pendingClients), failedClients)), late)
      ensures store.recent == FlushedLists(old(store.recent), old(pendingUsers), old(pendingUsers).Keys - failedUsers, limit)
      ensures store.lastUsed == MaxMerge(old(store.lastUsed), Restrict(old(pendingClients), old(pendingClients).Keys - failedClients))
    {
      var users, clients := pendingUsers, pendingClients;
      pendingUsers, pendingClients := map[], map[];
      RecordAll(early);
      FlushUsers(store, users, failedUsers, limit);
      FlushClients(store, clients, failedClients);
      RecordAll(late);
    }

    method FlushUsers(store: StatusStore, users: map<AccountId, seq<App>>, failed: set<AccountId>, limit: nat)
      modifies this`pendingUsers, store`recent
      ensures pendingUsers == Requeued(old(pendingUsers), users, failed * users.Keys)
      ensures store.recent == FlushedLists(old(store.recent), users, users.Keys - failed, limit)
    {
      var todo := users.Keys;
      ghost var done: set<AccountId> := {};
      while todo != {}
        invariant todo <= users.Keys && done == users.Keys - todo
        invariant pendingUsers == Requeued(old(pendingUsers), users, done * failed)
        invariant store.recent == FlushedLists(old(store.recent), users, done - failed, limit)
        decreases todo
      {
        var u :| u in todo;
        todo := todo - {u};
        if u in failed {
          assert (done + {u}) * failed == done * failed + {u} && (done + {u}) - failed == done - failed;
          OneMoreRequeued(old(pendingUsers), users, done * failed, u);
          var pending := if u in pendingUsers then pendingUsers[u] else [];
          var merged := MergePending(pending, users[u]);
          pendingUsers := pendingUsers[u := merged];
        } else {
          assert (done + {u}) * failed == done * failed && (done + {u}) - failed == (done - failed) + {u};
          OneMoreFlushed(old(store.recent), users, done - failed, u, limit);
          var previous := if u in store.recent then store.recent[u] else [];
          store.recent := store.recent[u := Recent(previous, users[u], limit)];
        }
        done := done + {u};
      }
      assert done == users.Keys && done * failed == failed * users.Keys;
    }

    // The newest of each application, those already pending first.
    method MergePending(pending: seq<App>, apps: seq<App>) returns (merged: seq<App>)
      ensures merged == Merged(pending, apps)
    {
      merged := pending;
      for i := 0 to |apps|
        invariant Merged(pending, apps) == Merged(merged, apps[i..])
      {
        assert apps[i..][1..] == apps[i + 1..];
        merged := Put(merged, apps[i]);
      }
    }

    method FlushClients(store: StatusStore, clients: map<ClientId, int>, failed: set<ClientId>)
      modifies this`pendingClients, store`lastUsed
      ensures pendingClients == MaxMerge(old(pendingClients), Restrict(clients, failed))
      ensures store.lastUsed == MaxMerge(old(store.lastUsed), Restrict(clients, clients.Keys - failed))
    {
      var todo := clients.Keys;
      ghost var done: set<ClientId> := {};
      while todo != {}
        invariant todo <= clients.Keys && done == clients.Keys - todo
        invariant pendingClients == MaxMerge(old(pendingClients), Restrict(clients, done * failed))
        invariant store.lastUsed == MaxMerge(old(store.lastUsed), Restrict(clients, done - failed))
        decreases todo
      {
        var c :| c in todo;
        todo := todo - {c};
        if c in failed {
          OneMoreClient(old(pendingClients), clients, done * failed, c);
          assert (done + {c}) * failed == done * failed + {c} && (done + {c}) - failed == done - failed;
          pendingClients := pendingClients[c := if c in pendingClients then Newer(pendingClients[c], clients[c]) else clients[c]];
        } else {
          OneMoreClient(old(store.lastUsed), clients, done - failed, c);
          assert (done + {c}) * failed == done * failed && (done + {c}) - failed == (done - failed) + {c};
          store.lastUsed := store.lastUsed[c := if c in store.lastUsed then Newer(store.lastUsed[c], clients[c]) else clients[c]];
        }
        done := done + {c};
      }
      assert done == clients.Keys && Restrict(clients, done * failed) == Restrict(clients, failed);
    }
  }

  lemma OneMoreClient(m: map<ClientId, int>, clients: map<ClientId, int>, some: set<ClientId>, c: ClientId)
    requires c in clients && c !in some
    ensures var before := MaxMerge(m, Restrict(clients, some));
            MaxMerge(m, Restrict(clients, some + {c})) == before[c := if c in before then Newer(before[c], clients[c]) else clients[c]]
  {
    assert Restrict(clients, some + {c}) == Restrict(clients, some)[c := clients[c]];
    MaxMergePut(m, Restrict(clients, some), c, clients[c]);
  }
}
