/**
  SCIM requests that overlap on one user (src/services/scim-service.js).

  A user PATCH and a member replacement both read a user's identity, edit a copy
  and later write the whole copy back, without a version check. Here one user's
  record is read and written by any number of them, each read and each write a
  step of its own.
 */
module ScimWrites {
  import opened Wrappers
  import opened ScimDirectory

  // What one request does to one user.
  datatype Edit = Patch(ops: seq<UserOp>) | Place(group: Id, wanted: bool)

  // A request that has read the identity.
  datatype Writer = Writer(edit: Edit, read: User)

  // `done` lists the edits in the order in which they were finished.
  datatype State = State(user: User, writers: seq<Writer>, done: seq<Edit>)

  datatype Action = Read(edit: Edit) | Finish(writer: nat)

  // Whether the request writes at all, and what.
  predicate Writes(u: User, e: Edit) {
    match e
    case Patch(ops) => ApplyOps(u, ops).Ok?
    case Place(g, wanted) => wanted != (g in u.sourceGroups)
  }

  function Edited(c: Connection, u: User, e: Edit): User {
    if !Writes(u, e) then u
    else match e
      case Patch(ops) => Project(c, ApplyOps(u, ops).user)
      case Place(g, wanted) => Placed(c, u, g, wanted)
  }

  function Step(c: Connection, s: State, a: Action): State {
    match a
    case Read(edit) => s.(writers := s.writers + [Writer(edit, s.user)])
    case Finish(i) =>
      if i >= |s.writers| then s
      else
        var w := s.writers[i];
        State(if Writes(w.read, w.edit) then Edited(c, w.read, w.edit) else s.user,
              s.writers[..i] + s.writers[i + 1..], s.done + [w.edit])
  }

  // A request reads the user only while fewer than `limit` others are between
  // their read and their write.
  function LimitedRun(c: Connection, s: State, actions: seq<Action>, limit: nat): State
    decreases |actions|
  {
    if actions == [] then s
    else if actions[0].Read? && |s.writers| >= limit then LimitedRun(c, s, actions[1..], limit)
    else LimitedRun(c, Step(c, s, actions[0]), actions[1..], limit)
  }

  // The edits one after the other.
  function Fold(c: Connection, u: User, edits: seq<Edit>): User
    decreases |edits|
  {
    if edits == [] then u else Edited(c, Fold(c, u, edits[..|edits| - 1]), edits[|edits| - 1])
  }

  lemma FoldAppend(c: Connection, u: User, edits: seq<Edit>, e: Edit)
    ensures Fold(c, u, edits + [e]) == Edited(c, Fold(c, u, edits), e)
  {
    assert (edits + [e])[..|edits|] == edits;
  }

  /** An edit nothing comes between is what the whole request does to the user: a
      PATCH of the user, and an answered member replacement in a group. */
  lemma EditsAreRequests(d: Directory, c: Connection, id: Id, ops: seq<UserOp>, g: Id, desired: set<Id>)
    requires id in d.users && desired <= d.users.Keys
    ensures Handle(d, c, PatchUserRequest(id, ops)).dir.users[id] == Edited(c, d.users[id], Patch(ops))
    ensures id in ReplaceMembers(d, c, g, desired, true).dir.users
            && ReplaceMembers(d, c, g, desired, true).dir.users[id] == Edited(c, d.users[id], Place(g, id in desired))
  {
  }

  /** A request that finishes writes its edit of what it read, or nothing if that
      changes nothing; reading changes nothing. */
  lemma StepsExactly(c: Connection, s: State, e: Edit, i: nat)
    ensures var s' := Step(c, s, Read(e)); s' == State(s.user, s.writers + [Writer(e, s.user)], s.done)
    ensures i < |s.writers| ==>
              var s' := Step(c, s, Finish(i));
              var w := s.writers[i];
              && s'.writers == s.writers[..i] + s.writers[i + 1..] && s'.done == s.done + [w.edit]
              && s'.user == match w.edit
                            case Patch(ops) => if ApplyOps(w.read, ops).Ok? then Edited(c, w.read, w.edit) else s.user
                            case Place(g, wanted) => if (g in w.read.sourceGroups) == wanted then s.user else Edited(c, w.read, w.edit)
  {
  }

  // ---- what a write does to the memberships ----------------------------------------

  /** A user PATCH writes back the memberships it read. So it leaves every one as
      it is exactly when they are still what it read, in whatever order. */
  lemma PatchRestoresMemberships(c: Connection, s: State, i: nat)
    requires i < |s.writers| && s.writers[i].edit.Patch? && Writes(s.writers[i].read, s.writers[i].edit)
    ensures var s' := Step(c, s, Finish(i));
            && s'.user.sourceGroups == s.writers[i].read.sourceGroups
            && ((forall g :: g in s'.user.sourceGroups <==> g in s.user.sourceGroups) <==>
                forall g :: g in s.writers[i].read.sourceGroups <==> g in s.user.sourceGroups)
  {
    PatchKeepsMemberships(s.writers[i].read, s.writers[i].edit.ops);
  }

  /** A member replacement writes back the profile it read, and every membership
      it read but the one it was about. */
  lemma PlacementRestoresProfile(c: Connection, s: State, i: nat, h: Id)
    requires i < |s.writers| && s.writers[i].edit.Place? && Writes(s.writers[i].read, s.writers[i].edit)
    ensures var s' := Step(c, s, Finish(i));
            var w := s.writers[i];
            && Profile(s'.user) == Profile(w.read)
            && (h in s'.user.sourceGroups <==> if h == w.edit.group then w.edit.wanted else h in w.read.sourceGroups)
  {
    PlacedMemberships(c, s.writers[i].read, s.writers[i].edit.group, s.writers[i].edit.wanted, h);
  }

  // ---- nothing is lost ---------------------------------------------------------------

  ghost predicate Inv(c: Connection, s: State, u: User) {
    && s.user == Fold(c, u, s.done)
    && |s.writers| <= 1
    && (s.writers != [] ==> s.writers[0].read == s.user)
  }

  lemma {:induction false} LimitedRunKeepsInv(c: Connection, s: State, actions: seq<Action>, limit: nat, u: User)
    requires Inv(c, s, u) && limit <= 1
    ensures Inv(c, LimitedRun(c, s, actions, limit), u)
    decreases |actions|
  {
    if actions == [] {
    } else if actions[0].Read? && |s.writers| >= limit {
      LimitedRunKeepsInv(c, s, actions[1..], limit, u);
    } else {
      if actions[0].Finish? && actions[0].writer < |s.writers| {
        FoldAppend(c, u, s.done, s.writers[0].edit);
      }
      LimitedRunKeepsInv(c, Step(c, s, actions[0]), actions[1..], limit, u);
    }
  }

  // A PATCH reads the user, a member replacement puts the user into a group, and
  // then the PATCH writes.
  function Overtaken(ops: seq<UserOp>, g: Id): seq<Action> {
    [Read(Patch(ops))] + ([Read(Place(g, true))] + ([Finish(1)] + ([Finish(0)] + [])))
  }

  lemma LimitedRunCons(c: Connection, s: State, a: Action, rest: seq<Action>, limit: nat)
    requires a.Read? ==> |s.writers| < limit
    ensures LimitedRun(c, s, [a] + rest, limit) == LimitedRun(c, Step(c, s, a), rest, limit)
  {
    assert ([a] + rest)[1..] == rest;
  }

  lemma BothRead(c: Connection, u: User, ops: seq<UserOp>, g: Id)
    ensures Step(c, Step(c, State(u, [], []), Read(Patch(ops))), Read(Place(g, true)))
            == State(u, [Writer(Patch(ops), u), Writer(Place(g, true), u)], [])
  {
    assert [] + [Writer(Patch(ops), u)] == [Writer(Patch(ops), u)];
  }

  lemma BothWrite(c: Connection, u: User, ops: seq<UserOp>, g: Id)
    requires g !in u.sourceGroups && ApplyOps(u, ops).Ok?
    ensures var s := State(u, [Writer(Patch(ops), u), Writer(Place(g, true), u)], []);
            Step(c, Step(c, s, Finish(1)), Finish(0)) == State(Edited(c, u, Patch(ops)), [], [Place(g, true), Patch(ops)])
  {
    var patch, place := Writer(Patch(ops), u), Writer(Place(g, true), u);
    var s := State(u, [patch, place], []);
    assert [patch, place][..1] + [patch, place][2..] == [patch];
    assert Step(c, s, Finish(1)) == State(Edited(c, u, Place(g, true)), [patch], [Place(g, true)]);
    assert [patch][..0] + [patch][1..] == [];
  }

  lemma OvertakenRun(c: Connection, u: User, ops: seq<UserOp>, g: Id, limit: nat)
    requires limit >= 2 && g !in u.sourceGroups && ApplyOps(u, ops).Ok?
    ensures LimitedRun(c, State(u, [], []), Overtaken(ops, g), limit)
            == State(Edited(c, u, Patch(ops)), [], [Place(g, true), Patch(ops)])
  {
    var s0 := State(u, [], []);
    var s1 := Step(c, s0, Read(Patch(ops)));
    var s2 := Step(c, s1, Read(Place(g, true)));
    var s3 := Step(c, s2, Finish(1));
    BothRead(c, u, ops, g);
    BothWrite(c, u, ops, g);
    LimitedRunCons(c, s3, Finish(0), [], limit);
    LimitedRunCons(c, s2, Finish(1), [Finish(0)] + [], limit);
    LimitedRunCons(c, s1, Read(Place(g, true)), [Finish(1)] + ([Finish(0)] + []), limit);
    LimitedRunCons(c, s0, Read(Patch(ops)), [Read(Place(g, true))] + ([Finish(1)] + ([Finish(0)] + [])), limit);
  }

  /** Any PATCH a user would accept, if a member replacement overtakes it, takes
      the user out of the group again, though both were answered. */
  lemma MembershipIsLost(c: Connection, u: User, ops: seq<UserOp>, g: Id, limit: nat)
    requires limit >= 2 && g !in u.sourceGroups && ApplyOps(u, ops).Ok?
    ensures var s := LimitedRun(c, State(u, [], []), Overtaken(ops, g), limit);
            && s.writers == [] && s.done == [Place(g, true), Patch(ops)]
            && g !in s.user.sourceGroups && g in Edited(c, u, Place(g, true)).sourceGroups
            && (ApplyOps(Edited(c, u, Place(g, true)), ops).Ok? ==> g in Fold(c, u, s.done).sourceGroups)
  {
    OvertakenRun(c, u, ops, g, limit);
    PatchKeepsMemberships(u, ops);
    PlacedMemberships(c, u, g, true, g);
    var placed := Edited(c, u, Place(g, true));
    PatchKeepsMemberships(placed, ops);
    FoldAppend(c, u, [Place(g, true)], Patch(ops));
    FoldAppend(c, u, [], Place(g, true));
    assert [Place(g, true)] + [Patch(ops)] == [Place(g, true), Patch(ops)];
    assert [] + [Place(g, true)] == [Place(g, true)];
  }

  // A group the user is not in.
  function Unjoined(s: seq<Id>): Id {
    if s == [] then "x" else s[0] + Unjoined(s[1..])
  }

  lemma {:induction false} UnjoinedIsLonger(s: seq<Id>, g: Id)
    requires g in s
    ensures |g| < |Unjoined(s)|
  {
    UnjoinedIsNotEmpty(s[1..]);
    if g != s[0] {
      assert g in s[1..];
      UnjoinedIsLonger(s[1..], g);
    }
  }

  lemma {:induction false} UnjoinedIsNotEmpty(s: seq<Id>)
    ensures |Unjoined(s)| > 0
  {
    if s != [] {
      UnjoinedIsNotEmpty(s[1..]);
    }
  }

  /** Requests on one user lose nothing - the record is always the fold of the
      finished edits in the order they were finished - exactly when at most one
      of them may be between its read and its write. */
  lemma OneWriterAtATime(c: Connection, u: User, limit: nat)
    ensures (forall actions: seq<Action> ::
               var s := LimitedRun(c, State(u, [], []), actions, limit); s.user == Fold(c, u, s.done))
            <==> limit <= 1
  {
    if limit <= 1 {
      forall actions: seq<Action>
        ensures var s := LimitedRun(c, State(u, [], []), actions, limit); s.user == Fold(c, u, s.done)
      {
        LimitedRunKeepsInv(c, State(u, [], []), actions, limit, u);
      }
    } else {
      var g := Unjoined(u.sourceGroups);
      if g in u.sourceGroups {
        UnjoinedIsLonger(u.sourceGroups, g);
      }
      MembershipIsLost(c, u, [], g, limit);
      var s := LimitedRun(c, State(u, [], []), Overtaken([], g), limit);
      assert s.user != Fold(c, u, s.done);
    }
  }
}
