/**
  Tokens and the grant lists that revoke them (src/adapters/redis.js).

  Keys expire on a clock of whole seconds; a token upsert writes the key, appends
  it to its grant's list and stretches that list's life to cover it.
 */
module RedisGrants {
  import opened Wrappers

  type GrantId = string

  datatype Key = Key(model: string, id: string)

  datatype Entry = Entry(grant: Option<GrantId>, expiresAt: Option<int>)

  datatype GrantList = GrantList(keys: seq<Key>, expiresAt: Option<int>)

  // Expired entries stay in the maps; `Live` is what Redis would still return.
  datatype Store = Store(now: int, entries: map<Key, Entry>, lists: map<GrantId, GrantList>)

  datatype Action =
    | Upsert(key: Key, grant: Option<GrantId>, expiresIn: Option<nat>)
    | Destroy(key: Key)
    | Revoke(g: GrantId)
    | Tick(seconds: nat)

  predicate Grantable(model: string) {
    model in {"AccessToken", "AuthorizationCode", "RefreshToken", "DeviceCode", "BackchannelAuthenticationRequest"}
  }

  predicate Consumable(model: string) {
    model in {"AuthorizationCode", "RefreshToken", "DeviceCode", "BackchannelAuthenticationRequest"}
  }

  predicate Unexpired(expiresAt: Option<int>, now: int) {
    expiresAt.None? || now < expiresAt.value
  }

  predicate Live(s: Store, k: Key) {
    k in s.entries && Unexpired(s.entries[k].expiresAt, s.now)
  }

  predicate LiveList(s: Store, g: GrantId) {
    g in s.lists && Unexpired(s.lists[g].expiresAt, s.now)
  }

  // Redis TTL: -2 for no key, -1 for no expiry.
  function Ttl(s: Store, g: GrantId): int {
    if !LiveList(s, g) then -2
    else if s.lists[g].expiresAt.None? then -1
    else s.lists[g].expiresAt.value - s.now
  }

  function Listed(s: Store, g: GrantId): seq<Key> {
    if LiveList(s, g) then s.lists[g].keys else []
  }

  // SET drops a previous expiry, HMSET keeps it; a positive expiresIn sets one.
  function UpsertedEntry(s: Store, key: Key, grant: Option<GrantId>, expiresIn: Option<nat>): Entry {
    Entry(grant,
      if expiresIn.Some? && expiresIn.value > 0 then Some(s.now + expiresIn.value)
      else if Consumable(key.model) && Live(s, key) then s.entries[key].expiresAt
      else None)
  }

  function Pushed(s: Store, key: Key, g: GrantId, expiresIn: Option<nat>): GrantList {
    GrantList(Listed(s, g) + [key],
      if expiresIn.Some? && expiresIn.value > Ttl(s, g) then Some(s.now + expiresIn.value)
      else if LiveList(s, g) then s.lists[g].expiresAt
      else None)
  }

  // The MULTI of revokeByGrantId, given the tokens its LRANGE returned.
  function Revoked(s: Store, g: GrantId, tokens: seq<Key>): Store {
    s.(entries := map k | k in s.entries && k !in tokens :: s.entries[k],
       lists := map h | h in s.lists && h != g :: s.lists[h])
  }

  function Step(s: Store, a: Action): Store {
    match a
    case Tick(seconds) => s.(now := s.now + seconds)
    case Destroy(key) => s.(entries := map k | k in s.entries && k != key :: s.entries[k])
    case Revoke(g) => Revoked(s, g, Listed(s, g))
    case Upsert(key, grant, expiresIn) =>
      var s' := s.(entries := s.entries[key := UpsertedEntry(s, key, grant, expiresIn)]);
      if Grantable(key.model) && grant.Some?
      then s'.(lists := s.lists[grant.value := Pushed(s, key, grant.value, expiresIn)])
      else s'
  }

  function Run(s: Store, actions: seq<Action>): Store
    decreases |actions|
  {
    if actions == [] then s else Run(Step(s, actions[0]), actions[1..])
  }

  ghost predicate IsToken(s: Store, k: Key, g: GrantId) {
    Grantable(k.model) && Live(s, k) && s.entries[k].grant == Some(g)
  }

  // None is never.
  predicate Outlives(longer: Option<int>, shorter: Option<int>) {
    longer.None? || (shorter.Some? && shorter.value <= longer.value)
  }

  ghost predicate Covered(s: Store, k: Key, g: GrantId) {
    LiveList(s, g) && k in s.lists[g].keys && k in s.entries && Outlives(s.lists[g].expiresAt, s.entries[k].expiresAt)
  }

  // The index revocation relies on: every live token is in its grant's list,
  // which lasts at least as long, and whatever is listed and live is such a token.
  ghost predicate Indexed(s: Store) {
    && (forall k, g :: IsToken(s, k, g) ==> k in s.entries && Covered(s, k, g))
    && (forall g, k :: k in Listed(s, g) && Live(s, k) ==> IsToken(s, k, g))
  }

  function After(s: Store, seconds: nat): Store {
    Step(s, Tick(seconds))
  }

  // Now and at any later time, revoking a grant deletes its live tokens and no other live key.
  ghost predicate Revocable(s: Store) {
    forall seconds: nat, g: GrantId, k: Key :: Live(After(s, seconds), k) ==>
      (Live(Step(After(s, seconds), Revoke(g)), k) <==> !IsToken(After(s, seconds), k, g))
  }

  lemma TimeKeepsIndexed(s: Store, seconds: nat)
    requires Indexed(s)
    ensures Indexed(After(s, seconds))
  {
    var s' := After(s, seconds);
    forall k, g | IsToken(s', k, g) ensures Covered(s', k, g) {
      assert IsToken(s, k, g) && Covered(s, k, g);
    }
    forall g, k | k in Listed(s', g) && Live(s', k) ensures IsToken(s', k, g) {
      assert k in Listed(s, g) && Live(s, k);
    }
  }

  lemma IndexedIsRevocable(s: Store)
    requires Indexed(s)
    ensures Revocable(s)
  {
    forall seconds: nat, g: GrantId, k: Key | Live(After(s, seconds), k)
      ensures Live(Step(After(s, seconds), Revoke(g)), k) <==> !IsToken(After(s, seconds), k, g)
    {
      TimeKeepsIndexed(s, seconds);
      var s' := After(s, seconds);
      assert IsToken(s', k, g) ==> Covered(s', k, g);
    }
  }

  lemma UncoveredEscapes(s: Store, k: Key, g: GrantId) returns (seconds: nat)
    requires IsToken(s, k, g) && !Covered(s, k, g)
    ensures IsToken(After(s, seconds), k, g) && Live(Step(After(s, seconds), Revoke(g)), k)
  {
    if !LiveList(s, g) || k !in s.lists[g].keys {
      seconds := 0;
    } else {
      // the list runs out while the token is still good
      seconds := s.lists[g].expiresAt.value - s.now;
    }
    assert k !in Listed(After(s, seconds), g);
  }

  lemma UnindexedIsNotRevocable(s: Store)
    requires !Indexed(s)
    ensures !Revocable(s)
  {
    if k, g :| IsToken(s, k, g) && !Covered(s, k, g) {
      var seconds := UncoveredEscapes(s, k, g);
      assert Live(After(s, seconds), k);
    } else {
      var g, k :| k in Listed(s, g) && Live(s, k) && !IsToken(s, k, g);
      assert After(s, 0) == s;
      assert Live(After(s, 0), k) && !Live(Step(After(s, 0), Revoke(g)), k);
    }
  }

  /** The index is what revocation needs, no more and no less: it holds exactly
      when revoking any grant at any time from now on deletes that grant's live
      tokens and nothing else that is live. */
  lemma IndexedMeansRevocable(s: Store)
    ensures Indexed(s) <==> Revocable(s)
  {
    if Indexed(s) {
      IndexedIsRevocable(s);
    } else {
      UnindexedIsNotRevocable(s);
    }
  }

  // ---- what one command does --------------------------------------------------

  // The later of two ends; None is never.
  function Later(a: Option<int>, b: int): Option<int> {
    if a.None? then None else if a.value >= b then a else Some(b)
  }

  /** What an upsert stores. The key lives its lifetime from now; without one, a
      consumable key that is live keeps the end it has, and any other has none. A
      token's key goes to the end of its grant's list, or starts a new one if the
      old one ran out. A positive lifetime ends that list no earlier than the
      token, or ends an endless one with it; without a lifetime the list's end
      stays; a lifetime of zero ends a list that is new or endless at once.
      Nothing else changes. */
  lemma UpsertStores(s: Store, key: Key, grant: Option<GrantId>, expiresIn: Option<nat>)
    ensures var s' := Step(s, Upsert(key, grant, expiresIn));
            var live := key in s.entries && (s.entries[key].expiresAt.None? || s.now < s.entries[key].expiresAt.value);
            var token := grant.Some? && key.model in {"AccessToken", "AuthorizationCode", "RefreshToken", "DeviceCode", "BackchannelAuthenticationRequest"};
            && s'.now == s.now
            && s'.entries == s.entries[key := Entry(grant,
                 if expiresIn.Some? && expiresIn.value > 0 then Some(s.now + expiresIn.value)
                 else if live && key.model in {"AuthorizationCode", "RefreshToken", "DeviceCode", "BackchannelAuthenticationRequest"} then s.entries[key].expiresAt
                 else None)]
            && (!token ==> s'.lists == s.lists)
            && (token ==>
                  var g := grant.value;
                  var there := g in s.lists && (s.lists[g].expiresAt.None? || s.now < s.lists[g].expiresAt.value);
                  && s'.lists.Keys == s.lists.Keys + {g}
                  && (forall h :: h in s.lists && h != g ==> s'.lists[h] == s.lists[h])
                  && s'.lists[g].keys == (if there then s.lists[g].keys else []) + [key]
                  && s'.lists[g].expiresAt ==
                       if expiresIn.None? then (if there then s.lists[g].expiresAt else None)
                       else if there && s.lists[g].expiresAt.Some? then Later(s.lists[g].expiresAt, s.now + expiresIn.value)
                       else Some(s.now + expiresIn.value))
  {
  }

  /** What a revocation deletes: the keys its list names, if it has not run out,
      and the list. */
  lemma RevokeDeletes(s: Store, g: GrantId, k: Key, h: GrantId)
    ensures var s' := Step(s, Revoke(g));
            var named := g in s.lists && (s.lists[g].expiresAt.None? || s.now < s.lists[g].expiresAt.value) && k in s.lists[g].keys;
            && s'.now == s.now
            && (k in s'.entries <==> k in s.entries && !named) && (k in s'.entries ==> s'.entries[k] == s.entries[k])
            && (h in s'.lists <==> h in s.lists && h != g) && (h in s'.lists ==> s'.lists[h] == s.lists[h])
  {
  }

  // ---- which upserts keep the index ----------------------------------------------

  // A key keeps what is left of its life when HMSET rewrites it.
  function Remaining(s: Store, k: Key): Option<int> {
    if Consumable(k.model) && Live(s, k) then s.entries[k].expiresAt else None
  }

  // The life of grant g's list covers the token's, and goes on covering its others'.
  ghost predicate CoversLife(s: Store, k: Key, g: GrantId, expiresIn: Option<nat>) {
    if expiresIn.GetOr(0) > 0 then
      Ttl(s, g) == -1 ==> forall other :: other != k && IsToken(s, other, g) ==>
                            Outlives(Some(s.now + expiresIn.value), s.entries[other].expiresAt)
    else if Ttl(s, g) < 0 then expiresIn.None?
    else Outlives(s.lists[g].expiresAt, Remaining(s, k))
  }

  // What a caller owes an upsert: the id is in no other grant's list, and a
  // lifetime the grant's list can cover.
  ghost predicate Guard(s: Store, a: Action) {
    a.Upsert? ==>
      && (forall h :: a.key in Listed(s, h) ==> Grantable(a.key.model) && a.grant == Some(h))
      && (Grantable(a.key.model) && a.grant.Some? ==> CoversLife(s, a.key, a.grant.value, a.expiresIn))
  }

  lemma UpsertedIsLive(s: Store, a: Action)
    requires a.Upsert?
    ensures var s' := Step(s, a);
            && Live(s', a.key)
            && (forall k :: k != a.key ==> (k in s'.entries <==> k in s.entries) && (k in s.entries ==> s'.entries[k] == s.entries[k]))
            && (forall h :: !(Grantable(a.key.model) && a.grant == Some(h)) ==>
                  Listed(s', h) == Listed(s, h) && LiveList(s', h) == LiveList(s, h)
                  && (h in s'.lists <==> h in s.lists) && (h in s.lists ==> s'.lists[h] == s.lists[h]))
  {
  }

  // The token just written is covered exactly when its lifetime was admissible.
  lemma UpsertCoversItself(s: Store, k: Key, g: GrantId, expiresIn: Option<nat>)
    requires Grantable(k.model)
    ensures var s' := Step(s, Upsert(k, Some(g), expiresIn));
            Covered(s', k, g) <==>
              if expiresIn.GetOr(0) > 0 then true
              else if Ttl(s, g) < 0 then expiresIn.None?
              else Outlives(s.lists[g].expiresAt, Remaining(s, k))
  {
    var s' := Step(s, Upsert(k, Some(g), expiresIn));
    assert s'.lists[g].keys[|Listed(s, g)|] == k;
  }

  // Another token of the grant stays covered unless an endless list was given an earlier end.
  lemma UpsertCoversOthers(s: Store, k: Key, g: GrantId, expiresIn: Option<nat>, other: Key)
    requires Indexed(s) && Grantable(k.model) && other != k && IsToken(s, other, g)
    requires Ttl(s, g) < 0 ==> expiresIn != Some(0)
    ensures var s' := Step(s, Upsert(k, Some(g), expiresIn));
            IsToken(s', other, g)
            && (Covered(s', other, g) <==>
                (expiresIn.GetOr(0) > 0 && Ttl(s, g) == -1 ==>
                   Outlives(Some(s.now + expiresIn.value), s.entries[other].expiresAt)))
  {
    assert Covered(s, other, g);
    assert other in Listed(s, g);
  }

  lemma GuardedUpsertKeepsIndexed(s: Store, a: Action)
    requires Indexed(s) && a.Upsert? && Guard(s, a)
    ensures Indexed(Step(s, a))
  {
    var s' := Step(s, a);
    UpsertedIsLive(s, a);
    forall k, g | IsToken(s', k, g) ensures Covered(s', k, g) {
      if k == a.key {
        UpsertCoversItself(s, k, g, a.expiresIn);
      } else {
        assert IsToken(s, k, g) && Covered(s, k, g);
        if Grantable(a.key.model) && a.grant == Some(g) {
          UpsertCoversOthers(s, a.key, g, a.expiresIn, k);
        }
      }
    }
    forall g, k | k in Listed(s', g) && Live(s', k) ensures IsToken(s', k, g) {
      if k != a.key {
        assert k in Listed(s, g) && Live(s, k);
      }
    }
  }

  lemma UnguardedUpsertBreaksIndex(s: Store, a: Action)
    requires Indexed(s) && a.Upsert? && !Guard(s, a)
    ensures !Indexed(Step(s, a))
  {
    var s' := Step(s, a);
    UpsertedIsLive(s, a);
    if h :| a.key in Listed(s, h) && !(Grantable(a.key.model) && a.grant == Some(h)) {
      assert a.key in Listed(s', h) && !IsToken(s', a.key, h);
    } else {
      var g := a.grant.value;
      assert IsToken(s', a.key, g);
      UpsertCoversItself(s, a.key, g, a.expiresIn);
      if Covered(s', a.key, g) {
        var other :| other != a.key && IsToken(s, other, g) && !Outlives(Some(s.now + a.expiresIn.value), s.entries[other].expiresAt);
        UpsertCoversOthers(s, a.key, g, a.expiresIn, other);
      }
    }
  }

  lemma OtherStepsKeepIndexed(s: Store, a: Action)
    requires Indexed(s) && !a.Upsert?
    ensures Indexed(Step(s, a))
  {
    var s' := Step(s, a);
    if a.Tick? {
      TimeKeepsIndexed(s, a.seconds);
      return;
    }
    forall k, g | IsToken(s', k, g) ensures Covered(s', k, g) {
      assert IsToken(s, k, g) && Covered(s, k, g);
      assert k in Listed(s, g);
    }
    forall g, k | k in Listed(s', g) && Live(s', k) ensures IsToken(s', k, g) {
      assert k in Listed(s, g) && Live(s, k);
    }
  }

  /** From an indexed store one step keeps the index exactly when it is not an
      upsert, or is one that meets its guard. */
  lemma StepKeepsIndexExactly(s: Store, a: Action)
    requires Indexed(s)
    ensures Indexed(Step(s, a)) <==> Guard(s, a)
  {
    if !a.Upsert? {
      OtherStepsKeepIndexed(s, a);
    } else if Guard(s, a) {
      GuardedUpsertKeepsIndexed(s, a);
    } else {
      UnguardedUpsertBreaksIndex(s, a);
    }
  }

  ghost predicate AlwaysRevocable(s: Store, actions: seq<Action>)
    decreases |actions|
  {
    Revocable(s) && (actions == [] || AlwaysRevocable(Step(s, actions[0]), actions[1..]))
  }

  ghost predicate AllGuarded(s: Store, actions: seq<Action>)
    decreases |actions|
  {
    actions == [] || (Guard(s, actions[0]) && AllGuarded(Step(s, actions[0]), actions[1..]))
  }

  /** Over every run of upserts, deletions, revocations and passing time,
      revocation works at all times exactly when every upsert met its guard. */
  lemma {:induction false} EveryTokenIsIndexed(s: Store, actions: seq<Action>)
    requires Indexed(s)
    ensures AlwaysRevocable(s, actions) <==> AllGuarded(s, actions)
    ensures AllGuarded(s, actions) ==> Indexed(Run(s, actions))
    decreases |actions|
  {
    IndexedMeansRevocable(s);
    if actions != [] {
      var s' := Step(s, actions[0]);
      StepKeepsIndexExactly(s, actions[0]);
      IndexedMeansRevocable(s');
      if Indexed(s') {
        EveryTokenIsIndexed(s', actions[1..]);
      } else {
        assert !AlwaysRevocable(s', actions[1..]);
      }
    }
  }

  // Every token has a lifetime, and its id stays with its grant.
  ghost predicate Proper(s: Store, a: Action) {
    a.Upsert? ==>
      && (Grantable(a.key.model) && a.grant.Some? ==> a.expiresIn.GetOr(0) > 0)
      && (forall h :: a.key in Listed(s, h) ==> Grantable(a.key.model) && a.grant == Some(h))
  }

  ghost predicate AllProper(s: Store, actions: seq<Action>)
    decreases |actions|
  {
    actions == [] || (Proper(s, actions[0]) && AllProper(Step(s, actions[0]), actions[1..]))
  }

  ghost predicate ListedToTheEnd(s: Store) {
    forall k, g :: IsToken(s, k, g) ==>
      && k in s.entries && k in Listed(s, g)
      && s.entries[k].expiresAt.Some? && s.lists[g].expiresAt.Some?
      && s.lists[g].expiresAt.value >= s.entries[k].expiresAt.value
  }

  /** Lifetimes suffice: where no list is endless, giving every token a lifetime
      and leaving ids with their grant meets every guard, and so every live token
      has an end and is in a list that ends no earlier. */
  lemma {:induction false} LifetimesSuffice(s: Store, actions: seq<Action>)
    requires Indexed(s) && AllProper(s, actions) && forall g :: g in s.lists ==> s.lists[g].expiresAt.Some?
    ensures AllGuarded(s, actions)
    ensures ListedToTheEnd(Run(s, actions))
    decreases |actions|
  {
    if actions == [] {
      forall k, g | IsToken(s, k, g) ensures Covered(s, k, g) {
      }
    } else {
      assert Guard(s, actions[0]);
      StepKeepsIndexExactly(s, actions[0]);
      LifetimesSuffice(Step(s, actions[0]), actions[1..]);
    }
  }

  ghost predicate Issued(actions: seq<Action>, k: Key, g: GrantId) {
    exists i :: 0 <= i < |actions| && actions[i].Upsert? && actions[i].key == k && actions[i].grant == Some(g)
  }

  // A live token either was live before, or was issued meanwhile.
  lemma {:induction false} TokensComeFromUpserts(s: Store, actions: seq<Action>, k: Key, g: GrantId)
    requires IsToken(Run(s, actions), k, g)
    ensures IsToken(s, k, g) || Issued(actions, k, g)
    decreases |actions|
  {
    if actions != [] {
      TokensComeFromUpserts(Step(s, actions[0]), actions[1..], k, g);
      if Issued(actions[1..], k, g) {
        var i :| 0 <= i < |actions[1..]| && actions[1..][i].Upsert? && actions[1..][i].key == k && actions[1..][i].grant == Some(g);
        assert actions[i + 1] == actions[1..][i];
      } else if !IsToken(s, k, g) {
        assert actions[0].Upsert? && actions[0].key == k;
      }
    }
  }

  /** Revocation reads the list and deletes in two commands. Whatever happens in
      between, a token of the grant survives only if it was issued in between,
      and so none survives when nothing was. */
  lemma RevocationIsComplete(s: Store, between: seq<Action>, k: Key, g: GrantId)
    requires Indexed(s)
    requires IsToken(Revoked(Run(s, between), g, Listed(s, g)), k, g)
    ensures Issued(between, k, g) && k !in Listed(s, g)
  {
    var s' := Run(s, between);
    assert IsToken(s', k, g);
    TokensComeFromUpserts(s, between, k, g);
    assert IsToken(s, k, g) ==> Covered(s, k, g);
  }

  /** ...and it deletes no other grant's token, as long as ids keep their grant. */
  lemma RevocationIsConfined(s: Store, between: seq<Action>, k: Key, g: GrantId, h: GrantId)
    requires Indexed(s) && h != g && IsToken(Run(s, between), k, h)
    requires forall i :: 0 <= i < |between| ==>
               !(between[i].Upsert? && between[i].key in Listed(s, g) && between[i].grant != Some(g))
    ensures IsToken(Revoked(Run(s, between), g, Listed(s, g)), k, h)
  {
    assert k in Listed(s, g) && Live(s, k) ==> IsToken(s, k, g);
    TokensComeFromUpserts(s, between, k, h);
  }

  // A later token with a lifetime ends an endless list: its upsert misses the
  // guard, and the earlier token outlives the list.
  lemma TokenWithoutLifetimeEscapes(now: int, g: GrantId, forever: Key, brief: Key, lifetime: nat)
    requires Grantable(forever.model) && Grantable(brief.model) && forever != brief && lifetime > 0
    ensures var s0 := Store(now, map[], map[]);
            var s1 := Step(s0, Upsert(forever, Some(g), None));
            var s2 := Step(s1, Upsert(brief, Some(g), Some(lifetime)));
            && Indexed(s0) && Indexed(s1) && !Guard(s1, Upsert(brief, Some(g), Some(lifetime)))
            && IsToken(Step(After(s2, lifetime), Revoke(g)), forever, g)
  {
    var s0 := Store(now, map[], map[]);
    StepKeepsIndexExactly(s0, Upsert(forever, Some(g), None));
    var s1 := Step(s0, Upsert(forever, Some(g), None));
    assert IsToken(s1, forever, g);
  }

  // An id moved to another grant misses the guard and is deleted when the first
  // grant is revoked.
  lemma ReusedIdIsRevokedWithItsOldGrant(s: Store, token: Key, g: GrantId, h: GrantId, lifetime: Option<nat>)
    requires Indexed(s) && IsToken(s, token, g) && g != h
    ensures var s' := Step(s, Upsert(token, Some(h), lifetime));
            && !Guard(s, Upsert(token, Some(h), lifetime))
            && IsToken(s', token, h) && !Live(Step(s', Revoke(g)), token)
  {
    assert Covered(s, token, g);
    assert token in Listed(s, g);
    UpsertedIsLive(s, Upsert(token, Some(h), lifetime));
  }

  function Elapsed(actions: seq<Action>): nat {
    if actions == [] then 0 else (if actions[0].Tick? then actions[0].seconds else 0) + Elapsed(actions[1..])
  }

  // Neither rewrites nor deletes the key.
  ghost predicate Spares(s: Store, a: Action, k: Key) {
    match a
    case Upsert(key, _, _) => key != k
    case Destroy(key) => key != k
    case Revoke(g) => k !in Listed(s, g)
    case Tick(_) => true
  }

  ghost predicate AllSpare(s: Store, actions: seq<Action>, k: Key)
    decreases |actions|
  {
    actions == [] || (Spares(s, actions[0], k) && AllSpare(Step(s, actions[0]), actions[1..], k))
  }

  /** A key lives exactly as long as its lifetime, whatever happens to others,
      and one without a lifetime lives on. */
  lemma {:induction false} KeyLivesItsLifetime(s: Store, actions: seq<Action>, k: Key)
    requires k in s.entries && AllSpare(s, actions, k)
    ensures var entry := s.entries[k];
            Live(Run(s, actions), k) <==> (entry.expiresAt.Some? ==> s.now + Elapsed(actions) < entry.expiresAt.value)
    ensures k in Run(s, actions).entries
    decreases |actions|
  {
    if actions != [] {
      KeyLivesItsLifetime(Step(s, actions[0]), actions[1..], k);
    }
  }

  // ---- the adapter in the source's own form --------------------------------

  class RedisAdapter {
    var now: int
    var entries: map<Key, Entry>
    var lists: map<GrantId, GrantList>

    ghost function View(): Store reads this {
      Store(now, entries, lists)
    }

    constructor (start: int)
      ensures View() == Store(start, map[], map[])
    {
      now, entries, lists := start, map[], map[];
    }

    method UpsertKey(key: Key, grant: Option<GrantId>, expiresIn: Option<nat>)
      modifies this
      ensures View() == Step(old(View()), Upsert(key, grant, expiresIn))
    {
      var before := Store(now, entries, lists);
      var expiresAt := if Consumable(key.model) && Live(before, key) then entries[key].expiresAt else None;
      if expiresIn.Some? && expiresIn.value > 0 {
        expiresAt := Some(now + expiresIn.value);
      }
      if Grantable(key.model) && grant.Some? {
        var list := if LiveList(before, grant.value) then lists[grant.value] else GrantList([], None);
        list := list.(keys := list.keys + [key]);
        if expiresIn.Some? && expiresIn.value > Ttl(before, grant.value) {
          list := list.(expiresAt := Some(now + expiresIn.value));
        }
        lists := lists[grant.value := list];
      }
      entries := entries[key := Entry(grant, expiresAt)];
    }

    method DestroyKey(key: Key)
      modifies this
      ensures View() == Step(old(View()), Destroy(key))
    {
      entries := entries - {key};
      assert entries == map k | k in old(entries) && k != key :: old(entries)[k];
    }

    method RevokeByGrantId(g: GrantId)
      modifies this
      ensures View() == Step(old(View()), Revoke(g))
    {
      var tokens := Listed(Store(now, entries, lists), g);
      var kept := entries;
      for i := 0 to |tokens|
        invariant kept == map k | k in entries && k !in tokens[..i] :: entries[k]
      {
        kept := kept - {tokens[i]};
        assert tokens[..i + 1] == tokens[..i] + [tokens[i]];
      }
      assert tokens[..|tokens|] == tokens;
      entries := kept;
      lists := lists - {g};
      assert lists == map h | h in old(lists) && h != g :: old(lists)[h];
    }
  }
}
