/**
  Optimistic status writes (src/adapters/kubernetes.js).

  Any number of read-compute-write calls share one custom resource with writers
  that replace its status outright and with writers that only move its version.
  A GET and its conditional PUT are separate steps.
 */
module StatusMutation {
  import opened Wrappers

  type CallId = nat

  const MAX_ATTEMPTS: nat := 3

  datatype Resource<S> = Resource(version: nat, status: S)

  // `Break` is a failure other than 404 and 409; its write may have landed.
  datatype Fault = NoFault | Break(applied: bool)

  datatype Result<S> = Mutated(status: S) | AlreadyEqual(status: S) | Gone | GaveUp(conflicted: bool)

  datatype Progress<S> = Getting | Computed(seen: Resource<S>, next: S) | Returned(result: Result<S>)

  // `since` is the version the call's first GET returned.
  datatype Call<!S> = Call(mutation: S -> S, attempt: nat, since: Option<nat>, progress: Progress<S>)

  datatype Commit<!S> = Commit(author: Option<CallId>, mutation: S -> S, before: Resource<S>, after: Resource<S>)

  datatype World<!S> = World(resource: Option<Resource<S>>, calls: map<CallId, Call<S>>, log: seq<Commit<S>>)

  datatype Action<!S> =
    | Start(id: CallId, mutation: S -> S)
    | Get(id: CallId, fault: Fault)
    | Put(id: CallId, fault: Fault)
    | Replace(expected: nat, status: S)  // replaceNamespacedCustomObjectStatus
    | Touch                              // a spec or metadata edit
    | Delete

  function Started<S>(mutation: S -> S): Call<S> {
    Call(mutation, 1, None, Getting)
  }

  predicate Accepts<S>(resource: Option<Resource<S>>, version: nat) {
    resource.Some? && resource.value.version == version
  }

  function AfterGet<S(==)>(call: Call<S>, resource: Option<Resource<S>>, fault: Fault): Call<S> {
    if fault.Break? then call.(progress := Returned(GaveUp(false)))
    else match resource
      case None => call.(progress := Returned(Gone))
      case Some(current) =>
        var next := call.mutation(current.status);
        call.(since := Some(call.since.GetOr(current.version)),
              progress := if next == current.status then Returned(AlreadyEqual(next)) else Computed(current, next))
  }

  function AfterPut<S>(call: Call<S>, resource: Option<Resource<S>>, fault: Fault): Call<S>
    requires call.progress.Computed?
  {
    if fault.Break? then call.(progress := Returned(GaveUp(false)))
    else if resource.None? then call.(progress := Returned(Gone))
    else if Accepts(resource, call.progress.seen.version) then call.(progress := Returned(Mutated(call.progress.next)))
    else if call.attempt < MAX_ATTEMPTS then call.(attempt := call.attempt + 1, progress := Getting)
    else call.(progress := Returned(GaveUp(true)))
  }

  function Committed<S>(w: World<S>, author: Option<CallId>, mutation: S -> S, status: S): World<S>
    requires w.resource.Some?
  {
    var before := w.resource.value;
    var after := Resource(before.version + 1, status);
    w.(resource := Some(after), log := w.log + [Commit(author, mutation, before, after)])
  }

  predicate PutLands<S>(w: World<S>, call: Call<S>, fault: Fault)
    requires call.progress.Computed?
  {
    Accepts(w.resource, call.progress.seen.version) && (fault.NoFault? || fault.applied)
  }

  function Step<S(==)>(w: World<S>, a: Action<S>): World<S> {
    match a
    case Start(id, mutation) =>
      if id in w.calls then w else w.(calls := w.calls[id := Started(mutation)])
    case Get(id, fault) =>
      if id !in w.calls || !w.calls[id].progress.Getting? then w
      else w.(calls := w.calls[id := AfterGet(w.calls[id], w.resource, fault)])
    case Put(id, fault) =>
      if id !in w.calls || !w.calls[id].progress.Computed? then w
      else
        var call := w.calls[id];
        var w' := w.(calls := w.calls[id := AfterPut(call, w.resource, fault)]);
        if PutLands(w, call, fault) then Committed(w', Some(id), call.mutation, call.progress.next) else w'
    case Replace(expected, status) =>
      if Accepts(w.resource, expected) then Committed(w, None, _ => status, status) else w
    case Touch =>
      if w.resource.None? then w
      else w.(resource := Some(w.resource.value.(version := w.resource.value.version + 1)))
    case Delete => w.(resource := None)
  }

  function Run<S(==)>(w: World<S>, actions: seq<Action<S>>): World<S>
    decreases |actions|
  {
    if actions == [] then w else Run(Step(w, actions[0]), actions[1..])
  }

  // The committed mutations applied one after the other.
  function Fold<S>(status: S, log: seq<Commit<S>>): S {
    if log == [] then status else log[|log| - 1].mutation(Fold(status, log[..|log| - 1]))
  }

  function CommitsBy<S>(log: seq<Commit<S>>, id: CallId): nat {
    if log == [] then 0
    else CommitsBy(log[..|log| - 1], id) + if log[|log| - 1].author == Some(id) then 1 else 0
  }

  // Each commit was computed from the very version it replaced.
  ghost predicate Exact<S>(c: Commit<S>) {
    c.after == Resource(c.before.version + 1, c.mutation(c.before.status))
  }

  // Nothing else changed the status between commit i - 1 and commit i.
  ghost predicate Follows<S>(log: seq<Commit<S>>, i: nat)
    requires 0 < i < |log|
  {
    && log[i].before.status == log[i - 1].after.status
    && log[i].before.version >= log[i - 1].after.version
  }

  ghost predicate SoundLog<S>(w: World<S>, initial: S) {
    && (forall i :: 0 <= i < |w.log| ==> Exact(w.log[i]))
    && (forall i :: 0 < i < |w.log| ==> Follows(w.log, i))
    && (w.log != [] ==> w.log[0].before.status == initial)
    && (w.log != [] && w.resource.Some? ==> w.resource.value.version >= w.log[|w.log| - 1].after.version)
    && (w.resource.Some? ==>
          w.resource.value.status == if w.log == [] then initial else w.log[|w.log| - 1].after.status)
    && Fold(initial, w.log) == (if w.log == [] then initial else w.log[|w.log| - 1].after.status)
  }

  // A call that has `commits` commits in the log, while the resource is as given.
  ghost predicate SoundProgress<S(!new)>(commits: nat, resource: Option<Resource<S>>, call: Call<S>) {
    && 1 <= call.attempt <= MAX_ATTEMPTS
    && (if call.progress.Returned? && call.progress.result.Mutated? then commits == 1
        else if call.progress.Returned? && call.progress.result == GaveUp(false) then commits <= 1
        else commits == 0)
    && (call.progress.Computed? ==>
          && call.since.Some?
          && call.progress.next == call.mutation(call.progress.seen.status)
          && call.progress.seen.version >= call.since.value + call.attempt - 1)
    && (call.since.None? ==> call.attempt == 1)
    && (resource.Some? ==>
          && (call.since.Some? && call.progress.Getting? ==> resource.value.version >= call.since.value + call.attempt - 1)
          && (call.progress.Computed? ==>
                && call.progress.seen.version <= resource.value.version
                && (call.progress.seen.version == resource.value.version ==> call.progress.seen.status == resource.value.status))
          && (call.progress == Returned(GaveUp(true)) ==>
                call.since.Some? && resource.value.version >= call.since.value + MAX_ATTEMPTS))
  }

  ghost predicate SoundCall<S(!new)>(w: World<S>, id: CallId, call: Call<S>) {
    SoundProgress(CommitsBy(w.log, id), w.resource, call)
  }

  ghost predicate Inv<S(!new)>(w: World<S>, initial: S) {
    && SoundLog(w, initial)
    && (forall id :: id in w.calls ==> SoundCall(w, id, w.calls[id]))
    && (forall id :: id !in w.calls ==> CommitsBy(w.log, id) == 0)
  }

  lemma AppendCommit<S>(initial: S, log: seq<Commit<S>>, c: Commit<S>, id: CallId)
    ensures Fold(initial, log + [c]) == c.mutation(Fold(initial, log))
    ensures CommitsBy(log + [c], id) == CommitsBy(log, id) + if c.author == Some(id) then 1 else 0
  {
    assert (log + [c])[..|log + [c]| - 1] == log;
  }

  lemma CommittedKeepsLog<S(!new)>(w: World<S>, initial: S, author: Option<CallId>, mutation: S -> S, status: S)
    requires SoundLog(w, initial) && w.resource.Some? && status == mutation(w.resource.value.status)
    ensures SoundLog(Committed(w, author, mutation, status), initial)
  {
    var w' := Committed(w, author, mutation, status);
    AppendCommit(initial, w.log, w'.log[|w.log|], 0);
    forall i | 0 < i < |w'.log| ensures Follows(w'.log, i) {
      assert i < |w.log| ==> Follows(w.log, i);
    }
  }

  lemma FrameLog<S(!new)>(w: World<S>, w': World<S>, initial: S)
    requires SoundLog(w, initial) && w'.log == w.log
    requires w'.resource.Some? ==>
               && w.resource.Some? && w'.resource.value.status == w.resource.value.status
               && w'.resource.value.version >= w.resource.value.version
    ensures SoundLog(w', initial)
  {
  }

  // Another writer's commit is only a newer version to everyone else.
  lemma FrameCall<S(!new)>(w: World<S>, w': World<S>, id: CallId, call: Call<S>)
    requires SoundCall(w, id, call)
    requires CommitsBy(w'.log, id) == CommitsBy(w.log, id)
    requires w'.resource.Some? ==> w.resource.Some? && (w'.resource == w.resource || w'.resource.value.version > w.resource.value.version)
    ensures SoundCall(w', id, call)
  {
  }

  lemma CommitKeepsInv<S(!new)>(w: World<S>, initial: S, author: Option<CallId>, mutation: S -> S, status: S)
    requires Inv(w, initial) && w.resource.Some? && status == mutation(w.resource.value.status)
    requires author.Some? ==> author.value in w.calls
    ensures var w' := Committed(w, author, mutation, status);
            && SoundLog(w', initial)
            && (forall id :: id in w.calls && author != Some(id) ==> SoundCall(w', id, w.calls[id]))
            && (forall id :: id !in w.calls ==> CommitsBy(w'.log, id) == 0)
            && (forall id :: author == Some(id) ==> CommitsBy(w'.log, id) == CommitsBy(w.log, id) + 1)
  {
    var w' := Committed(w, author, mutation, status);
    CommittedKeepsLog(w, initial, author, mutation, status);
    forall id: CallId
      ensures CommitsBy(w'.log, id) == CommitsBy(w.log, id) + if author == Some(id) then 1 else 0
    {
      AppendCommit(initial, w.log, w'.log[|w.log|], id);
    }
    forall id | id in w.calls && author != Some(id) ensures SoundCall(w', id, w.calls[id]) {
      FrameCall(w, w', id, w.calls[id]);
    }
  }

  // What a PUT that lands makes of the resource.
  function Stored<S>(resource: Option<Resource<S>>, call: Call<S>): Option<Resource<S>>
    requires resource.Some? && call.progress.Computed?
  {
    Some(Resource(resource.value.version + 1, call.progress.next))
  }

  lemma LandedPutIsSound<S(!new)>(resource: Option<Resource<S>>, call: Call<S>, fault: Fault)
    requires SoundProgress(0, resource, call) && call.progress.Computed?
    requires Accepts(resource, call.progress.seen.version) && (fault.NoFault? || fault.applied)
    ensures SoundProgress(1, Stored(resource, call), AfterPut(call, resource, fault))
  {
  }

  lemma MissedPutIsSound<S(!new)>(resource: Option<Resource<S>>, call: Call<S>, fault: Fault)
    requires SoundProgress(0, resource, call) && call.progress.Computed?
    requires !(Accepts(resource, call.progress.seen.version) && (fault.NoFault? || fault.applied))
    ensures SoundProgress(0, resource, AfterPut(call, resource, fault))
  {
  }

  // A PUT that lands commits, and moves on its own call only.
  lemma LandedPutKeepsInv<S(!new)>(w: World<S>, w': World<S>, initial: S, id: CallId, fault: Fault)
    requires Inv(w, initial) && id in w.calls && w.calls[id].progress.Computed? && PutLands(w, w.calls[id], fault)
    requires var call := w.calls[id];
             && w'.resource == Stored(w.resource, call)
             && w'.log == w.log + [Commit(Some(id), call.mutation, w.resource.value, w'.resource.value)]
             && w'.calls == w.calls[id := AfterPut(call, w.resource, fault)]
    ensures Inv(w', initial)
  {
    var call := w.calls[id];
    assert SoundCall(w, id, call);
    CommitKeepsInv(w, initial, Some(id), call.mutation, call.progress.next);
    LandedPutIsSound(w.resource, call, fault);
    var committed := Committed(w, Some(id), call.mutation, call.progress.next);
    assert committed.log == w'.log && committed.resource == w'.resource;
    FrameLog(committed, w', initial);
    forall other | other in w'.calls ensures SoundCall(w', other, w'.calls[other]) {
      if other != id {
        assert SoundCall(committed, other, w.calls[other]);
      }
    }
  }

  // Whatever commits nothing, and moves on one call soundly.
  lemma QuietKeepsInv<S(!new)>(w: World<S>, w': World<S>, initial: S, id: CallId, call: Call<S>)
    requires Inv(w, initial) && SoundCall(w, id, call)
    requires w'.resource == w.resource && w'.log == w.log && w'.calls == w.calls[id := call]
    ensures Inv(w', initial)
  {
    FrameLog(w, w', initial);
    forall other | other in w'.calls ensures SoundCall(w', other, w'.calls[other]) {
      assert SoundCall(w, other, w'.calls[other]);
    }
  }

  lemma CallStepKeepsInv<S(!new)>(w: World<S>, initial: S, a: Action<S>)
    requires Inv(w, initial) && (a.Start? || a.Get?)
    ensures Inv(Step(w, a), initial)
  {
    if a.Start? && a.id !in w.calls {
      QuietKeepsInv(w, Step(w, a), initial, a.id, Started(a.mutation));
    } else if a.Get? && a.id in w.calls && w.calls[a.id].progress.Getting? {
      assert SoundCall(w, a.id, w.calls[a.id]);
      GetKeepsCall(w, a.id, w.calls[a.id], a.fault);
      QuietKeepsInv(w, Step(w, a), initial, a.id, AfterGet(w.calls[a.id], w.resource, a.fault));
    }
  }

  lemma PutStepKeepsInv<S(!new)>(w: World<S>, initial: S, id: CallId, fault: Fault)
    requires Inv(w, initial)
    ensures Inv(Step(w, Put(id, fault)), initial)
  {
    if id in w.calls && w.calls[id].progress.Computed? {
      assert SoundCall(w, id, w.calls[id]);
      if PutLands(w, w.calls[id], fault) {
        LandedPutKeepsInv(w, Step(w, Put(id, fault)), initial, id, fault);
      } else {
        MissedPutIsSound(w.resource, w.calls[id], fault);
        QuietKeepsInv(w, Step(w, Put(id, fault)), initial, id, AfterPut(w.calls[id], w.resource, fault));
      }
    }
  }

  lemma OutsideStepKeepsInv<S(!new)>(w: World<S>, initial: S, a: Action<S>)
    requires Inv(w, initial) && (a.Replace? || a.Touch? || a.Delete?)
    ensures Inv(Step(w, a), initial)
  {
    var w' := Step(w, a);
    if a.Replace? {
      if Accepts(w.resource, a.expected) {
        var status := a.status;
        CommitKeepsInv(w, initial, None, _ => status, status);
      }
    } else {
      FrameLog(w, w', initial);
      forall id | id in w'.calls ensures SoundCall(w', id, w'.calls[id]) {
        FrameCall(w, w', id, w.calls[id]);
      }
    }
  }

  lemma GetKeepsCall<S(!new)>(w: World<S>, id: CallId, call: Call<S>, fault: Fault)
    requires SoundCall(w, id, call) && call.progress.Getting?
    ensures SoundCall(w, id, AfterGet(call, w.resource, fault))
  {
  }

  lemma StepKeepsInv<S(!new)>(w: World<S>, initial: S, a: Action<S>)
    requires Inv(w, initial)
    ensures Inv(Step(w, a), initial)
  {
    match a
    case Put(id, fault) => PutStepKeepsInv(w, initial, id, fault);
    case Start(_, _) => CallStepKeepsInv(w, initial, a);
    case Get(_, _) => CallStepKeepsInv(w, initial, a);
    case _ => OutsideStepKeepsInv(w, initial, a);
  }

  lemma {:induction false} RunKeepsInv<S(!new)>(w: World<S>, initial: S, actions: seq<Action<S>>)
    requires Inv(w, initial)
    ensures Inv(Run(w, actions), initial)
    decreases |actions|
  {
    if actions != [] {
      StepKeepsInv(w, initial, actions[0]);
      RunKeepsInv(Step(w, actions[0]), initial, actions[1..]);
    }
  }

  /** Concurrent mutations lose nothing: while the resource exists its status is
      the fold of the committed mutations in commit order, and each of them was
      computed from exactly the version it replaced. */
  lemma NothingIsLost<S(!new)>(resource: Resource<S>, actions: seq<Action<S>>, i: nat)
    ensures var w := Run(World(Some(resource), map[], []), actions);
            && (w.resource.Some? ==> w.resource.value.status == Fold(resource.status, w.log))
            && (i < |w.log| ==> Exact(w.log[i]))
            && (0 < i < |w.log| ==> Follows(w.log, i))
  {
    RunKeepsInv(World(Some(resource), map[], []), resource.status, actions);
  }

  /** A call commits at most once, in at most three attempts; one that reports
      success committed, and one that gave up on conflicts never did and was
      overtaken by at least three other writes. */
  lemma CommitsAtMostOnce<S(!new)>(resource: Resource<S>, actions: seq<Action<S>>, id: CallId)
    requires id in Run(World(Some(resource), map[], []), actions).calls
    ensures var w := Run(World(Some(resource), map[], []), actions);
            var call := w.calls[id];
            && CommitsBy(w.log, id) <= 1 && call.attempt <= MAX_ATTEMPTS
            && (call.progress.Returned? && call.progress.result.Mutated? ==> CommitsBy(w.log, id) == 1)
            && (call.progress.Returned? && call.progress.result.AlreadyEqual? ==> CommitsBy(w.log, id) == 0)
            && (call.progress == Returned(GaveUp(true)) ==>
                  && CommitsBy(w.log, id) == 0
                  && (w.resource.Some? ==> call.since.Some? && w.resource.value.version >= call.since.value + MAX_ATTEMPTS))
  {
    var w := Run(World(Some(resource), map[], []), actions);
    RunKeepsInv(World(Some(resource), map[], []), resource.status, actions);
    assert SoundCall(w, id, w.calls[id]);
  }

  // ---- what a call does with the answers it gets -----------------------------

  /** A GET, in any world: a failure gives up, a missing resource ends the call,
      a mutation that changes nothing ends it without a write, and otherwise what
      is written next is the mutation of exactly what was read. */
  lemma GetDecides<S(!new)>(w: World<S>, id: CallId, fault: Fault)
    requires id in w.calls && w.calls[id].progress.Getting?
    ensures var w' := Step(w, Get(id, fault));
            var call, call' := w.calls[id], w'.calls[id];
            && w'.resource == w.resource && w'.log == w.log && w'.calls == w.calls[id := call']
            && call'.mutation == call.mutation && call'.attempt == call.attempt
            && (fault.Break? ==> call'.progress == Returned(GaveUp(false)))
            && (fault.NoFault? && w.resource.None? ==> call'.progress == Returned(Gone))
            && (fault.NoFault? && w.resource.Some? ==>
                  var status := w.resource.value.status;
                  call'.progress == if call.mutation(status) == status then Returned(AlreadyEqual(status))
                                    else Computed(w.resource.value, call.mutation(status)))
  {
  }

  /** A conditional PUT, in any world: it is stored exactly if the resource is
      still at the version read and no failure came first; a conflict makes the
      call read again, up to three times in all. */
  lemma PutDecides<S(!new)>(w: World<S>, id: CallId, fault: Fault)
    requires id in w.calls && w.calls[id].progress.Computed?
    ensures var w' := Step(w, Put(id, fault));
            var call, call' := w.calls[id], w'.calls[id];
            var seen, next := call.progress.seen, call.progress.next;
            var current := w.resource.Some? && w.resource.value.version == seen.version;
            && w'.calls == w.calls[id := call'] && call'.mutation == call.mutation && call'.since == call.since
            && w'.resource == (if current && (fault.NoFault? || fault == Break(true)) then Some(Resource(seen.version + 1, next)) else w.resource)
            && |w'.log| == |w.log| + (if w'.resource != w.resource then 1 else 0)
            && call'.attempt == (if fault.NoFault? && w.resource.Some? && !current && call.attempt < 3 then call.attempt + 1 else call.attempt)
            && call'.progress ==
                 if fault.Break? then Returned(GaveUp(false))
                 else if w.resource.None? then Returned(Gone)
                 else if current then Returned(Mutated(next))
                 else if call.attempt < 3 then Getting
                 else Returned(GaveUp(true))
  {
  }

  /** What everybody else does: a replace is stored exactly on the version it
      expects, an edit elsewhere moves the version only, a deletion ends it. */
  lemma OthersExactly<S(!new)>(w: World<S>, expected: nat, status: S, id: CallId, mutation: S -> S)
    ensures var current := w.resource.Some? && w.resource.value.version == expected;
            var replaced, touched, deleted, started := Step(w, Replace(expected, status)), Step(w, Touch), Step(w, Delete), Step(w, Start(id, mutation));
            && replaced.calls == w.calls && touched == w.(resource := touched.resource) && deleted == w.(resource := None)
            && replaced.resource == (if current then Some(Resource(expected + 1, status)) else w.resource)
            && touched.resource == (if w.resource.Some? then Some(Resource(w.resource.value.version + 1, w.resource.value.status)) else None)
            && started == w.(calls := if id in w.calls then w.calls else w.calls[id := Call(mutation, 1, None, Getting)])
  {
  }

  /** A call nothing disturbs stores the mutation of the status and returns it,
      or finds nothing to change. */
  lemma UndisturbedCall<S(!new)>(w: World<S>, id: CallId, mutation: S -> S)
    requires id !in w.calls && w.resource.Some?
    ensures var w' := Run(w, [Start(id, mutation)] + ([Get(id, NoFault)] + ([Put(id, NoFault)] + [])));
            var before := w.resource.value;
            var next := mutation(before.status);
            && id in w'.calls
            && (next != before.status ==>
                  w'.resource == Some(Resource(before.version + 1, next)) && w'.calls[id].progress == Returned(Mutated(next)))
            && (next == before.status ==> w'.resource == w.resource && w'.calls[id].progress == Returned(AlreadyEqual(next)))
  {
    var w1 := Step(w, Start(id, mutation));
    var w2 := Step(w1, Get(id, NoFault));
    GetDecides(w1, id, NoFault);
    RunCons(w, Start(id, mutation), [Get(id, NoFault)] + ([Put(id, NoFault)] + []));
    RunCons(w1, Get(id, NoFault), [Put(id, NoFault)] + []);
    RunCons(w2, Put(id, NoFault), []);
    if w2.calls[id].progress.Computed? {
      PutDecides(w2, id, NoFault);
    }
  }

  lemma RunCons<S(!new)>(w: World<S>, a: Action<S>, rest: seq<Action<S>>)
    ensures Run(w, [a] + rest) == Run(Step(w, a), rest)
  {
    assert ([a] + rest)[1..] == rest;
  }

  // ---- the retry loop itself ---------------------------------------------

  // What the other writers store between one attempt's GET and its PUT.
  function Overwritten<S>(r: Resource<S>, rivals: seq<S>): Resource<S> {
    if rivals == [] then r else Resource(r.version + |rivals|, rivals[|rivals| - 1])
  }

  // What happens to one attempt: whether its GET and its PUT fail, and what
  // others store, or whether they delete the resource, in between.
  datatype Attempt<S> = Attempt(get: Fault, rivals: seq<S>, deleted: bool, put: Fault)

  predicate Overtaken<S>(a: Attempt<S>) {
    a.get.NoFault? && a.rivals != [] && !a.deleted && a.put.NoFault?
  }

  function LastOf<S>(s: seq<S>): S
    requires s != []
  {
    s[|s| - 1]
  }

  /** One resource as the API server keeps it, and the loop that mutates it. */
  class Api<S(==)> {
    var resource: Option<Resource<S>>

    constructor (initial: Option<Resource<S>>)
      ensures resource == initial
    {
      resource := initial;
    }

    method Interfere(rivals: seq<S>, deleted: bool)
      requires resource.Some?
      modifies this
      ensures resource == if deleted then None else Some(Overwritten(old(resource).value, rivals))
    {
      for i := 0 to |rivals|
        invariant resource == Some(Overwritten(old(resource).value, rivals[..i]))
      {
        resource := Some(Resource(resource.value.version + 1, rivals[i]));
      }
      assert rivals[..|rivals|] == rivals;
      if deleted {
        resource := None;
      }
    }

    // Everything that happens to one attempt decides only if the attempts before
    // it were all overtaken; then it stores the mutation of what it read, or
    // leaves what the others did.
    method MutateStatus(mutation: S -> S, attempts: seq<Attempt<S>>)
      returns (result: Result<S>, ghost reached: nat, ghost seen: Option<Resource<S>>)
      requires |attempts| == MAX_ATTEMPTS
      modifies this
      ensures reached < MAX_ATTEMPTS && (forall i :: 0 <= i < reached ==> Overtaken(attempts[i]))
      ensures reached == 0 ==> seen == old(resource)
      ensures reached > 0 ==> Overtaken(attempts[reached - 1]) && seen.Some? && seen.value.status == LastOf(attempts[reached - 1].rivals)
      ensures var a := attempts[reached];
              result ==
                if a.get.Break? then GaveUp(false)
                else if seen.None? then Gone
                else if mutation(seen.value.status) == seen.value.status then AlreadyEqual(seen.value.status)
                else if a.put.Break? then GaveUp(false)
                else if a.deleted then Gone
                else if a.rivals == [] then Mutated(mutation(seen.value.status))
                else GaveUp(true)
      ensures result == GaveUp(true) ==> reached == MAX_ATTEMPTS - 1
      ensures var a := attempts[reached];
              resource ==
                if a.get.Break? || seen.None? || mutation(seen.value.status) == seen.value.status then seen
                else if a.deleted then None
                else if a.rivals == [] && (a.put.NoFault? || a.put.applied)
                then Some(Resource(seen.value.version + 1, mutation(seen.value.status)))
                else Some(Overwritten(seen.value, a.rivals))
    {
      reached, seen, result := 0, resource, GaveUp(true);
      for attempt := 0 to MAX_ATTEMPTS
        invariant forall i :: 0 <= i < attempt ==> Overtaken(attempts[i])
        invariant attempt == 0 ==> resource == old(resource)
        invariant attempt > 0 ==>
                    && reached == attempt - 1
                    && seen.Some? && resource == Some(Overwritten(seen.value, attempts[reached].rivals))
                    && mutation(seen.value.status) != seen.value.status
                    && (reached == 0 ==> seen == old(resource))
                    && (reached > 0 ==> Overtaken(attempts[reached - 1]) && seen.value.status == LastOf(attempts[reached - 1].rivals))
      {
        var a := attempts[attempt];
        reached, seen := attempt, resource;
        if a.get.Break? {
          return GaveUp(false), reached, seen;
        }
        if resource.None? {
          return Gone, reached, seen;
        }
        var current := resource.value;
        var status := mutation(current.status);
        if status == current.status {
          return AlreadyEqual(status), reached, seen;
        }
        Interfere(a.rivals, a.deleted);
        var accepted := resource.Some? && resource.value.version == current.version;
        if accepted && (a.put.NoFault? || a.put.applied) {
          resource := Some(Resource(current.version + 1, status));
        }
        if a.put.Break? {
          return GaveUp(false), reached, seen;
        }
        if resource.None? {
          return Gone, reached, seen;
        }
        if accepted {
          return Mutated(status), reached, seen;
        }
      }
      result := GaveUp(true);
    }
  }
}
