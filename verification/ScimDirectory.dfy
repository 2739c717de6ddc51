/**
  The SCIM directory (src/services/scim-service.js).

  One connection's users and groups. Memberships live on the users as
  `sourceGroups`; `groups` is the grant derived from them. Requests run one after
  the other; a failed one may have written part of what it set out to.
 */
module ScimDirectory {
  import opened Wrappers

  type Id = string
  type Grant = string

  datatype Email = Email(address: string, primary: bool)

  datatype User = User(
    externalId: Option<string>, userName: string, displayName: Option<string>,
    active: bool, emails: seq<Email>, sourceGroups: seq<Id>, groups: seq<Grant>)

  // A deleted group stays as an inactive record.
  datatype Group = Group(externalId: Option<string>, displayName: string, active: bool)

  datatype Connection = Connection(allUsers: bool, group: Grant, digest: string -> string)

  datatype Directory = Directory(users: map<Id, User>, groups: map<Id, Group>)

  datatype Error = NotFound | InvalidValue | InvalidSyntax | InvalidPath | Mutability | Uniqueness

  datatype Reply = Reply(dir: Directory, error: Option<Error>)

  // `userName` and `displayName` are None when absent, not a string or blank;
  // `members` is None when it is not an array.
  datatype UserResource = UserResource(
    userName: Option<string>, externalId: Option<string>, displayName: Option<string>, active: bool, emails: seq<Email>)

  datatype GroupResource = GroupResource(displayName: Option<string>, externalId: Option<string>, members: Option<seq<Id>>)

  // Whom a LIST of the users returns: a failed one reads as an empty one.
  function Listed(d: Directory, listed: bool): set<Id> {
    if listed then d.users.Keys else {}
  }

  // ---- users -------------------------------------------------------------------

  function Project(c: Connection, u: User): User {
    u.(groups := if u.active && (c.allUsers || u.sourceGroups != []) then [c.group] else [])
  }

  // `a || b` on strings.
  function OrElse(s: Option<string>, fallback: string): string {
    if s.Some? && s.value != "" then s.value else fallback
  }

  function NonEmpty(s: Option<string>): Option<string> {
    if s == Some("") then None else s
  }

  function UserId(c: Connection, externalId: string): Id { "scim-u-" + c.digest(externalId) }

  function GroupId(c: Connection, externalId: string): Id { "scim-g-" + c.digest(externalId) }

  function CreateUser(d: Directory, c: Connection, r: UserResource, listed: bool): Reply {
    if r.userName.None? then Reply(d, Some(InvalidValue))
    else
      var externalId := OrElse(r.externalId, r.userName.value);
      var id := UserId(c, externalId);
      if (exists u :: u in Listed(d, listed) && (d.users[u].externalId == Some(externalId) || d.users[u].userName == r.userName.value))
         || id in d.users
      then Reply(d, Some(Uniqueness))
      else
        var user := User(Some(externalId), r.userName.value, NonEmpty(r.displayName), r.active, r.emails, [], []);
        Reply(d.(users := d.users[id := Project(c, user)]), None)
  }

  function ReplaceUser(d: Directory, c: Connection, id: Id, r: UserResource): Reply {
    if id !in d.users then Reply(d, Some(NotFound))
    else if r.userName.None? then Reply(d, Some(InvalidValue))
    else
      var previous := d.users[id];
      var externalId := if r.externalId.Some? then r.externalId else previous.externalId;
      var user := User(externalId, r.userName.value, NonEmpty(r.displayName), r.active, r.emails, previous.sourceGroups, []);
      Reply(d.(users := d.users[id := Project(c, user)]), None)
  }

  // ---- PATCH on a user ------------------------------------------------------------

  // A JSON value of an operation. In an object every field may be missing.
  datatype Value =
    | Undefined
    | Boolean(flag: bool)
    | Text(text: string)
    | EmailList(list: seq<Email>)
    | Fields(userName: Option<string>, displayName: Option<string>, externalId: Option<string>,
             active: Option<bool>, emails: Option<seq<Email>>)

  datatype UserPath = NoPath | ActivePath | UserNamePath | DisplayNamePath | ExternalIdPath
                    | EmailsPath | OneEmailPath | OtherEmailsPath | OtherPath

  datatype Verb = Add | Replace | Remove | OtherVerb

  datatype UserOp = UserOp(verb: Verb, path: UserPath, value: Value)

  datatype Patched = Ok(user: User) | Bad(error: Error)

  // JavaScript's String(value).
  function Show(v: Value): string {
    match v
    case Undefined => "undefined"
    case Boolean(flag) => if flag then "true" else "false"
    case Text(text) => text
    case EmailList(list) => ShowList(|list|)
    case Fields(_, _, _, _, _) => "[object Object]"
  }

  function ShowList(n: nat): string {
    if n == 0 then "" else if n == 1 then "[object Object]" else ShowList(n - 1) + ",[object Object]"
  }

  function ApplyOp(u: User, op: UserOp): Patched {
    if op.verb.OtherVerb? then Bad(InvalidSyntax)
    else match op.path
      case NoPath =>
        (match op.value
         case Fields(userName, displayName, externalId, active, emails) =>
           Ok(u.(userName := userName.GetOr(u.userName),
                 displayName := if displayName.Some? then displayName else u.displayName,
                 externalId := if externalId.Some? then externalId else u.externalId,
                 active := active.GetOr(u.active),
                 emails := emails.GetOr(u.emails)))
         case EmailList(_) => Ok(u)  // an array is an object without any of the fields
         case _ => Bad(InvalidPath))
      case ActivePath => Ok(u.(active := !op.verb.Remove? && op.value != Boolean(false)))
      case UserNamePath => if op.verb.Remove? then Bad(Mutability) else Ok(u.(userName := Show(op.value)))
      case DisplayNamePath => Ok(u.(displayName := if op.verb.Remove? then None else Some(Show(op.value))))
      case ExternalIdPath => Ok(u.(externalId := if op.verb.Remove? then None else Some(Show(op.value))))
      case EmailsPath => Ok(u.(emails := if op.verb.Remove? || !op.value.EmailList? then [] else op.value.list))
      case OneEmailPath =>
        if op.verb.Remove? then Ok(u.(emails := []))
        else if op.value.Text? then Ok(u.(emails := [Email(op.value.text, true)]))
        else Bad(InvalidPath)
      case OtherEmailsPath => if op.verb.Remove? then Ok(u.(emails := [])) else Bad(InvalidPath)
      case OtherPath => Bad(InvalidPath)
  }

  // Left to right, stopping at the first operation that is refused.
  function ApplyOps(u: User, ops: seq<UserOp>): Patched
    decreases |ops|
  {
    if ops == [] then Ok(u)
    else match ApplyOp(u, ops[0])
      case Ok(next) => ApplyOps(next, ops[1..])
      case Bad(error) => Bad(error)
  }

  function PatchUser(d: Directory, c: Connection, id: Id, ops: seq<UserOp>): Reply {
    if id !in d.users then Reply(d, Some(NotFound))
    else match ApplyOps(d.users[id], ops)
      case Bad(error) => Reply(d, Some(error))
      case Ok(user) => Reply(d.(users := d.users[id := Project(c, user)]), None)
  }

  // ---- membership -------------------------------------------------------------------

  predicate LiveGroup(d: Directory, g: Id) {
    g in d.groups && d.groups[g].active
  }

  function Members(d: Directory, g: Id): set<Id> {
    set u | u in d.users && g in d.users[u].sourceGroups
  }

  function Dropped(s: seq<Id>, g: Id): seq<Id> {
    if s == [] then [] else if s[0] == g then Dropped(s[1..], g) else [s[0]] + Dropped(s[1..], g)
  }

  function Placed(c: Connection, u: User, g: Id, wanted: bool): User {
    if wanted && g !in u.sourceGroups then Project(c, u.(sourceGroups := u.sourceGroups + [g]))
    else if !wanted && g in u.sourceGroups then Project(c, u.(sourceGroups := Dropped(u.sourceGroups, g)))
    else u
  }

  // The users a replacement has to write.
  function Changed(d: Directory, g: Id, desired: set<Id>): set<Id> {
    set u | u in d.users && ((u in desired) != (g in d.users[u].sourceGroups))
  }

  // The replacement after the writes to `reached`, whichever users those are.
  function PlacedAmong(d: Directory, c: Connection, g: Id, desired: set<Id>, reached: set<Id>): Directory {
    d.(users := map u | u in d.users :: if u in reached then Placed(c, d.users[u], g, u in desired) else d.users[u])
  }

  function ToSet(s: seq<Id>): set<Id> { set x | x in s }

  // `listed` is whether the LIST of users is answered.
  function ReplaceMembers(d: Directory, c: Connection, g: Id, desired: set<Id>, listed: bool): Reply {
    if !(desired <= Listed(d, listed)) then Reply(d, Some(InvalidValue))
    else Reply(PlacedAmong(d, c, g, desired, Listed(d, listed)), None)
  }

  function AddMembers(d: Directory, c: Connection, g: Id, added: set<Id>, listed: bool): Reply {
    ReplaceMembers(d, c, g, Members(d, g) * Listed(d, listed) + added, listed)
  }

  function RemoveMembers(d: Directory, c: Connection, g: Id, removed: set<Id>, listed: bool): Reply {
    ReplaceMembers(d, c, g, Members(d, g) * Listed(d, listed) - removed, listed)
  }

  // ---- groups -------------------------------------------------------------------------

  // Which of the LISTs of a creation are answered: of users, to check the members;
  // of groups, to find duplicates; of users again, to replace the members.
  datatype Lists = Lists(known: bool, groups: bool, members: bool)

  function CreateGroup(d: Directory, c: Connection, r: GroupResource, lists: Lists): Reply {
    if r.displayName.None? then Reply(d, Some(InvalidValue))
    else
      var externalId := OrElse(r.externalId, r.displayName.value);
      var desired := ToSet(r.members.GetOr([]));
      if !(desired <= Listed(d, lists.known)) then Reply(d, Some(InvalidValue))
      else if lists.groups && exists g :: g in d.groups && d.groups[g].active && (d.groups[g].externalId == Some(externalId) || d.groups[g].displayName == r.displayName.value)
      then Reply(d, Some(Uniqueness))
      else
        // a retained record under this id is taken over, a missing one created
        var id := GroupId(c, externalId);
        var d' := d.(groups := d.groups[id := Group(Some(externalId), r.displayName.value, true)]);
        if id in d.groups || desired != {} then ReplaceMembers(d', c, id, desired, lists.members) else Reply(d', None)
  }

  function ReplaceGroup(d: Directory, c: Connection, g: Id, r: GroupResource, listed: bool): Reply {
    if !LiveGroup(d, g) then Reply(d, Some(NotFound))
    else if r.displayName.None? then Reply(d, Some(InvalidValue))
    else
      var externalId := if r.externalId.Some? then r.externalId else d.groups[g].externalId;
      var d' := d.(groups := d.groups[g := Group(externalId, r.displayName.value, true)]);
      ReplaceMembers(d', c, g, ToSet(r.members.GetOr([])), listed)
  }

  datatype GroupPath = GroupNoPath | GroupDisplayName | GroupMembers | OneMember(id: Id) | OtherGroupPath

  datatype GroupValue =
    | NoValue
    | GroupText(text: string)
    | MemberList(ids: seq<Id>)
    | GroupFields(displayName: Option<string>, members: Option<seq<Id>>)

  // `listed` is whether the LIST of users the operation makes, if any, is answered.
  datatype GroupOp = GroupOp(verb: Verb, path: GroupPath, value: GroupValue, listed: bool)

  function Renamed(d: Directory, g: Id, name: string): Directory
    requires g in d.groups
  {
    d.(groups := d.groups[g := d.groups[g].(displayName := name)])
  }

  function ShowGroup(v: GroupValue): string {
    match v
    case NoValue => "undefined"
    case GroupText(text) => text
    case MemberList(ids) => ShowList(|ids|)
    case GroupFields(_, _) => "[object Object]"
  }

  function ApplyGroupOp(d: Directory, c: Connection, g: Id, op: GroupOp): Reply
    requires g in d.groups
  {
    var ids := if op.value.MemberList? then ToSet(op.value.ids) else {};
    if op.verb.OtherVerb? then Reply(d, Some(InvalidSyntax))
    else match op.path
      case GroupNoPath =>
        if op.value.GroupFields? && (op.value.displayName.Some? || op.value.members.Some?) then
          var named := if op.value.displayName.Some? then Renamed(d, g, op.value.displayName.value) else d;
          if op.value.members.Some? then ReplaceMembers(named, c, g, ToSet(op.value.members.value), op.listed) else Reply(named, None)
        else if op.value.GroupFields? || op.value.MemberList? then Reply(d, Some(InvalidValue))
        else Reply(d, Some(InvalidPath))
      case GroupDisplayName =>
        if op.verb.Remove? then Reply(d, Some(Mutability)) else Reply(Renamed(d, g, ShowGroup(op.value)), None)
      case GroupMembers =>
        (match op.verb
         case Add => AddMembers(d, c, g, ids, op.listed)
         case Replace => ReplaceMembers(d, c, g, ids, op.listed)
         case _ => ReplaceMembers(d, c, g, {}, op.listed))
      case OneMember(id) => if op.verb.Remove? then RemoveMembers(d, c, g, {id}, op.listed) else Reply(d, Some(InvalidPath))
      case OtherGroupPath => Reply(d, Some(InvalidPath))
  }

  // Each operation is written before the next one is looked at.
  function ApplyGroupOps(d: Directory, c: Connection, g: Id, ops: seq<GroupOp>): Reply
    requires g in d.groups
    decreases |ops|
  {
    if ops == [] then Reply(d, None)
    else
      var first := ApplyGroupOp(d, c, g, ops[0]);
      if first.error.Some? then first else ApplyGroupOps(first.dir, c, g, ops[1..])
  }

  function PatchGroup(d: Directory, c: Connection, g: Id, ops: seq<GroupOp>): Reply {
    if !LiveGroup(d, g) then Reply(d, Some(NotFound)) else ApplyGroupOps(d, c, g, ops)
  }

  function DeleteGroup(d: Directory, c: Connection, g: Id, listed: bool): Reply {
    if !LiveGroup(d, g) then Reply(d, Some(NotFound))
    else
      var emptied := ReplaceMembers(d, c, g, {}, listed).dir;
      Reply(emptied.(groups := emptied.groups[g := emptied.groups[g].(active := false)]), None)
  }

  // ---- every reachable directory ---------------------------------------------------------

  datatype Request =
    | PostUser(user: UserResource, listed: bool)
    | PutUser(id: Id, user: UserResource)
    | PatchUserRequest(id: Id, ops: seq<UserOp>)
    | PostGroup(group: GroupResource, lists: Lists)
    | PutGroup(id: Id, group: GroupResource, listed: bool)
    | PatchGroupRequest(id: Id, groupOps: seq<GroupOp>)
    | DeleteGroupRequest(id: Id, listed: bool)
    // a member replacement on a live group that the API server cut short
    | Interrupted(id: Id, desired: set<Id>, reached: set<Id>)

  function Handle(d: Directory, c: Connection, r: Request): Reply {
    match r
    case PostUser(user, listed) => CreateUser(d, c, user, listed)
    case PutUser(id, user) => ReplaceUser(d, c, id, user)
    case PatchUserRequest(id, ops) => PatchUser(d, c, id, ops)
    case PostGroup(group, lists) => CreateGroup(d, c, group, lists)
    case PutGroup(id, group, listed) => ReplaceGroup(d, c, id, group, listed)
    case PatchGroupRequest(id, ops) => PatchGroup(d, c, id, ops)
    case DeleteGroupRequest(id, listed) => DeleteGroup(d, c, id, listed)
    case Interrupted(id, desired, reached) =>
      if LiveGroup(d, id) then Reply(PlacedAmong(d, c, id, desired, reached), Some(NotFound)) else Reply(d, Some(NotFound))
  }

  function Serve(d: Directory, c: Connection, requests: seq<Request>): Directory
    decreases |requests|
  {
    if requests == [] then d else Serve(Handle(d, c, requests[0]).dir, c, requests[1..])
  }

  // The grant is what the state of the user calls for, and every membership
  // names a group that exists.
  ghost predicate SoundUser(d: Directory, c: Connection, u: User) {
    && (u.groups == [c.group] <==> u.active && (c.allUsers || u.sourceGroups != []))
    && (u.groups == [c.group] || u.groups == [])
    && forall g :: g in u.sourceGroups ==> LiveGroup(d, g)
  }

  ghost predicate Sound(d: Directory, c: Connection) {
    forall u :: u in d.users ==> SoundUser(d, c, d.users[u])
  }

  lemma {:induction false} DroppedMembers(s: seq<Id>, g: Id, h: Id)
    ensures h in Dropped(s, g) <==> h in s && h != g
  {
    if s != [] {
      DroppedMembers(s[1..], g, h);
      assert h in s <==> h == s[0] || h in s[1..];
    }
  }

  lemma PlacedMemberships(c: Connection, u: User, g: Id, wanted: bool, h: Id)
    ensures h in Placed(c, u, g, wanted).sourceGroups <==> if h == g then wanted else h in u.sourceGroups
  {
    DroppedMembers(u.sourceGroups, g, h);
  }

  /** A user put into a group has it last; one taken out keeps the others. */
  lemma PlacedExactly(c: Connection, u: User, g: Id, wanted: bool)
    ensures var u' := Placed(c, u, g, wanted);
            && Profile(u') == Profile(u)
            && (wanted == (g in u.sourceGroups) ==> u' == u)
            && (wanted != (g in u.sourceGroups) ==> u'.groups == Due(c, u.active, u'.sourceGroups))
            && (wanted && g !in u.sourceGroups ==> u'.sourceGroups == u.sourceGroups + [g])
            && (!wanted ==> multiset(u'.sourceGroups) == multiset(u.sourceGroups)[g := 0])
  {
    DroppedCounts(u.sourceGroups, g);
    if g !in u.sourceGroups {
      assert multiset(u.sourceGroups)[g] == 0;
    }
  }

  lemma {:induction false} DroppedCounts(s: seq<Id>, g: Id)
    ensures multiset(Dropped(s, g)) == multiset(s)[g := 0]
  {
    if s != [] {
      DroppedCounts(s[1..], g);
      assert s == [s[0]] + s[1..];
    }
  }

  lemma PlacedIsSound(d: Directory, c: Connection, u: User, g: Id, wanted: bool)
    requires SoundUser(d, c, u) && (wanted ==> LiveGroup(d, g))
    ensures SoundUser(d, c, Placed(c, u, g, wanted))
  {
    forall h | h in Placed(c, u, g, wanted).sourceGroups ensures LiveGroup(d, h) {
      PlacedMemberships(c, u, g, wanted, h);
    }
  }

  lemma PlacedAmongIsSound(d: Directory, c: Connection, g: Id, desired: set<Id>, reached: set<Id>)
    requires Sound(d, c) && LiveGroup(d, g)
    ensures Sound(PlacedAmong(d, c, g, desired, reached), c)
  {
    var d' := PlacedAmong(d, c, g, desired, reached);
    forall u | u in d'.users ensures SoundUser(d', c, d'.users[u]) {
      PlacedIsSound(d, c, d.users[u], g, u in desired);
      assert forall h :: LiveGroup(d, h) <==> LiveGroup(d', h);
    }
  }

  lemma {:induction false} PatchKeepsMemberships(u: User, ops: seq<UserOp>)
    ensures ApplyOps(u, ops).Ok? ==> ApplyOps(u, ops).user.sourceGroups == u.sourceGroups
    decreases |ops|
  {
    if ops != [] && ApplyOp(u, ops[0]).Ok? {
      PatchKeepsMemberships(ApplyOp(u, ops[0]).user, ops[1..]);
    }
  }

  lemma UserRequestIsSound(d: Directory, c: Connection, r: Request)
    requires Sound(d, c) && (r.PostUser? || r.PutUser? || r.PatchUserRequest?)
    ensures Sound(Handle(d, c, r).dir, c)
  {
    if r.PatchUserRequest? && r.id in d.users {
      PatchKeepsMemberships(d.users[r.id], r.ops);
    }
    var d' := Handle(d, c, r).dir;
    assert d'.groups == d.groups;
    forall u | u in d'.users ensures SoundUser(d', c, d'.users[u]) {
      if u in d.users {
        assert SoundUser(d, c, d.users[u]);
      }
      assert forall h :: LiveGroup(d, h) <==> LiveGroup(d', h);
    }
  }

  lemma RegroupedIsSound(d: Directory, c: Connection, g: Id, group: Group)
    requires Sound(d, c) && group.active
    ensures Sound(d.(groups := d.groups[g := group]), c)
  {
    var d' := d.(groups := d.groups[g := group]);
    assert forall h :: LiveGroup(d, h) ==> LiveGroup(d', h);
    forall u | u in d'.users ensures SoundUser(d', c, d'.users[u]) {
      assert SoundUser(d, c, d.users[u]);
    }
  }

  lemma ReplaceMembersIsSound(d: Directory, c: Connection, g: Id, desired: set<Id>, listed: bool)
    requires Sound(d, c) && LiveGroup(d, g)
    ensures var d' := ReplaceMembers(d, c, g, desired, listed).dir; Sound(d', c) && d'.groups == d.groups
  {
    PlacedAmongIsSound(d, c, g, desired, Listed(d, listed));
  }

  lemma NamedIsSound(d: Directory, c: Connection, g: Id, op: GroupOp)
    requires Sound(d, c) && LiveGroup(d, g) && op.path.GroupNoPath?
    ensures var d' := ApplyGroupOp(d, c, g, op).dir; Sound(d', c) && LiveGroup(d', g)
  {
    if op.value.GroupFields? {
      var named := if op.value.displayName.Some? then Renamed(d, g, op.value.displayName.value) else d;
      if op.value.displayName.Some? {
        RegroupedIsSound(d, c, g, d.groups[g].(displayName := op.value.displayName.value));
      }
      if op.value.members.Some? {
        ReplaceMembersIsSound(named, c, g, ToSet(op.value.members.value), op.listed);
      }
    }
  }

  lemma GroupOpIsSound(d: Directory, c: Connection, g: Id, op: GroupOp)
    requires Sound(d, c) && LiveGroup(d, g)
    ensures var d' := ApplyGroupOp(d, c, g, op).dir; Sound(d', c) && LiveGroup(d', g)
  {
    var ids := if op.value.MemberList? then ToSet(op.value.ids) else {};
    var members := Members(d, g) * Listed(d, op.listed);
    match op.path
    case GroupNoPath => NamedIsSound(d, c, g, op);
    case GroupDisplayName => RegroupedIsSound(d, c, g, d.groups[g].(displayName := ShowGroup(op.value)));
    case GroupMembers =>
      var desired := if op.verb.Add? then members + ids else if op.verb.Replace? then ids else {};
      ReplaceMembersIsSound(d, c, g, desired, op.listed);
    case OneMember(id) => ReplaceMembersIsSound(d, c, g, members - {id}, op.listed);
    case OtherGroupPath =>
  }

  lemma {:induction false} GroupOpsAreSound(d: Directory, c: Connection, g: Id, ops: seq<GroupOp>)
    requires Sound(d, c) && LiveGroup(d, g)
    ensures Sound(ApplyGroupOps(d, c, g, ops).dir, c)
    decreases |ops|
  {
    if ops != [] {
      GroupOpIsSound(d, c, g, ops[0]);
      GroupOpsAreSound(ApplyGroupOp(d, c, g, ops[0]).dir, c, g, ops[1..]);
    }
  }

  /** Deleting a group keeps the directory sound exactly when the LIST of users
      is answered or the group has no members. Otherwise nobody is written, the
      group is retired all the same, and its members keep it and their grant. */
  lemma DeleteGroupIsSoundExactly(d: Directory, c: Connection, g: Id, listed: bool)
    requires Sound(d, c) && LiveGroup(d, g)
    ensures Sound(DeleteGroup(d, c, g, listed).dir, c) <==> listed || Members(d, g) == {}
    ensures DeleteGroup(d, c, g, listed).error.None? && !LiveGroup(DeleteGroup(d, c, g, listed).dir, g)
    ensures !listed ==> DeleteGroup(d, c, g, listed).dir.users == d.users
  {
    var d' := DeleteGroup(d, c, g, listed).dir;
    ReplaceMembersIsSound(d, c, g, {}, listed);
    if listed || Members(d, g) == {} {
      var emptied := ReplaceMembers(d, c, g, {}, listed).dir;
      forall u | u in d'.users ensures SoundUser(d', c, d'.users[u]) {
        assert SoundUser(emptied, c, emptied.users[u]);
        forall h | h in d'.users[u].sourceGroups ensures LiveGroup(d', h) {
          PlacedMemberships(c, d.users[u], g, false, h);
          assert u !in Members(d, g) || listed;
          assert LiveGroup(emptied, h) && h != g;
        }
      }
    } else {
      var u :| u in Members(d, g);
      assert g in d'.users[u].sourceGroups;
    }
  }

  // The one request that can leave the directory unsound.
  ghost predicate Answered(d: Directory, r: Request) {
    r.DeleteGroupRequest? && LiveGroup(d, r.id) ==> r.listed || Members(d, r.id) == {}
  }

  lemma CreateGroupIsSound(d: Directory, c: Connection, group: GroupResource, lists: Lists)
    requires Sound(d, c)
    ensures Sound(CreateGroup(d, c, group, lists).dir, c)
  {
    if group.displayName.Some? {
      var externalId := OrElse(group.externalId, group.displayName.value);
      var id := GroupId(c, externalId);
      var record := Group(Some(externalId), group.displayName.value, true);
      RegroupedIsSound(d, c, id, record);
      ReplaceMembersIsSound(d.(groups := d.groups[id := record]), c, id, ToSet(group.members.GetOr([])), lists.members);
    }
  }

  lemma ReplaceGroupIsSound(d: Directory, c: Connection, id: Id, group: GroupResource, listed: bool)
    requires Sound(d, c)
    ensures Sound(ReplaceGroup(d, c, id, group, listed).dir, c)
  {
    if LiveGroup(d, id) && group.displayName.Some? {
      var externalId := if group.externalId.Some? then group.externalId else d.groups[id].externalId;
      var record := Group(externalId, group.displayName.value, true);
      RegroupedIsSound(d, c, id, record);
      ReplaceMembersIsSound(d.(groups := d.groups[id := record]), c, id, ToSet(group.members.GetOr([])), listed);
    }
  }

  /** From a sound directory one request, refused, cut short or short of a LIST,
      leaves a sound one exactly unless it deletes a group with members without
      having listed them. */
  lemma HandleIsSound(d: Directory, c: Connection, r: Request)
    requires Sound(d, c)
    ensures Sound(Handle(d, c, r).dir, c) <==> Answered(d, r)
  {
    match r
    case PostUser(_, _) => UserRequestIsSound(d, c, r);
    case PutUser(_, _) => UserRequestIsSound(d, c, r);
    case PatchUserRequest(_, _) => UserRequestIsSound(d, c, r);
    case PostGroup(group, lists) => CreateGroupIsSound(d, c, group, lists);
    case PutGroup(id, group, listed) => ReplaceGroupIsSound(d, c, id, group, listed);
    case PatchGroupRequest(id, ops) =>
      if LiveGroup(d, id) {
        GroupOpsAreSound(d, c, id, ops);
      }
    case DeleteGroupRequest(id, listed) =>
      if LiveGroup(d, id) {
        DeleteGroupIsSoundExactly(d, c, id, listed);
      }
    case Interrupted(id, desired, reached) =>
      if LiveGroup(d, id) {
        PlacedAmongIsSound(d, c, id, desired, reached);
      }
  }

  ghost predicate AlwaysSound(d: Directory, c: Connection, requests: seq<Request>)
    decreases |requests|
  {
    Sound(d, c) && (requests == [] || AlwaysSound(Handle(d, c, requests[0]).dir, c, requests[1..]))
  }

  ghost predicate AllAnswered(d: Directory, c: Connection, requests: seq<Request>)
    decreases |requests|
  {
    requests == [] || (Answered(d, requests[0]) && AllAnswered(Handle(d, c, requests[0]).dir, c, requests[1..]))
  }

  /** Through any requests, including deletion, re-creation, reactivation, member
      replacements cut short and LISTs that fail, every directory is sound - a
      user carries the connection's group exactly when active and entitled, and
      belongs only to groups that exist - exactly when no group was deleted with
      members that were not listed. */
  lemma {:induction false} EveryDirectoryIsSound(d: Directory, c: Connection, requests: seq<Request>)
    requires Sound(d, c)
    ensures AlwaysSound(d, c, requests) <==> AllAnswered(d, c, requests)
    ensures AllAnswered(d, c, requests) ==> Sound(Serve(d, c, requests), c)
    decreases |requests|
  {
    if requests != [] {
      HandleIsSound(d, c, requests[0]);
      var d' := Handle(d, c, requests[0]).dir;
      if Sound(d', c) {
        EveryDirectoryIsSound(d', c, requests[1..]);
      } else {
        assert !AlwaysSound(d', c, requests[1..]);
      }
    }
  }

  // ---- the algebra of members ----------------------------------------------------------

  lemma PlacedAllMembers(d: Directory, c: Connection, g: Id, desired: set<Id>, h: Id)
    requires desired <= d.users.Keys
    ensures var d' := PlacedAmong(d, c, g, desired, d.users.Keys);
            && Members(d', g) == desired
            && (h != g ==> Members(d', h) == Members(d, h))
            && Changed(d', g, desired) == {}
            && PlacedAmong(d', c, g, desired, d.users.Keys) == d'
  {
    var d' := PlacedAmong(d, c, g, desired, d.users.Keys);
    forall u | u in d.users
      ensures g in d'.users[u].sourceGroups <==> u in desired
      ensures h != g ==> (h in d'.users[u].sourceGroups <==> h in d.users[u].sourceGroups)
      ensures Placed(c, d'.users[u], g, u in desired) == d'.users[u]
    {
      PlacedMemberships(c, d.users[u], g, u in desired, g);
      PlacedMemberships(c, d.users[u], g, u in desired, h);
    }
    assert PlacedAmong(d', c, g, desired, d.users.Keys).users == d'.users;
  }

  /** A replacement that is answered makes the members exactly the desired ones,
      touches no other group, and has nothing left to write a second time. One
      whose LIST fails writes nothing; it reports success, rightly or not,
      exactly when nobody was wanted. */
  lemma ReplaceMembersIsExact(d: Directory, c: Connection, g: Id, desired: set<Id>, listed: bool, h: Id)
    ensures var reply := ReplaceMembers(d, c, g, desired, listed);
            && (reply.error.None? <==> if listed then desired <= d.users.Keys else desired == {})
            && (reply.error.Some? || !listed ==> reply.dir == d)
            && (h != g ==> Members(reply.dir, h) == Members(d, h))
            && reply.dir.users.Keys == d.users.Keys && reply.dir.groups == d.groups
            && (reply.error.None? ==> (Members(reply.dir, g) == desired <==> listed || Members(d, g) == {}))
            && (reply.error.None? && listed ==>
                  && Changed(reply.dir, g, desired) == {}
                  && ReplaceMembers(reply.dir, c, g, desired, true).dir == reply.dir)
  {
    if listed && desired <= d.users.Keys {
      PlacedAllMembers(d, c, g, desired, h);
    } else if !listed {
      assert PlacedAmong(d, c, g, desired, {}).users == d.users;
    }
  }

  /** Adding is union, refused exactly for unknown users; removing is difference
      and never refused. Without its LIST, adding is refused and removing
      removes nobody. */
  lemma AddAndRemoveMembers(d: Directory, c: Connection, g: Id, ids: set<Id>, listed: bool, h: Id)
    ensures var added := AddMembers(d, c, g, ids, listed);
            && (added.error.None? <==> ids <= Listed(d, listed))
            && Members(added.dir, g) == Members(d, g) + (if added.error.None? then ids else {})
            && (h != g ==> Members(added.dir, h) == Members(d, h))
    ensures var removed := RemoveMembers(d, c, g, ids, listed);
            && removed.error.None?
            && Members(removed.dir, g) == Members(d, g) - (if listed then ids else {})
            && (h != g ==> Members(removed.dir, h) == Members(d, h))
  {
    var members := Members(d, g) * Listed(d, listed);
    assert listed ==> members == Members(d, g);
    ReplaceMembersIsExact(d, c, g, members + ids, listed, h);
    ReplaceMembersIsExact(d, c, g, members - ids, listed, h);
  }

  /** No request on a user changes who is in which group. */
  lemma UserRequestsKeepMembers(d: Directory, c: Connection, r: Request, g: Id)
    requires r.PostUser? || r.PutUser? || r.PatchUserRequest?
    ensures Members(Handle(d, c, r).dir, g) == Members(d, g)
  {
    if r.PatchUserRequest? && r.id in d.users {
      PatchKeepsMemberships(d.users[r.id], r.ops);
    }
  }

  /** Deleting a group and creating it again under the same external id brings
      the retained record back with exactly the members asked for, even those a
      deletion that listed nobody had left behind. */
  lemma RecreatedGroup(d: Directory, c: Connection, r: GroupResource, g: Id, listed: bool, lists: Lists)
    requires LiveGroup(d, g) && r.displayName.Some? && g == GroupId(c, OrElse(r.externalId, r.displayName.value))
    requires forall h :: LiveGroup(d, h) && h != g ==>
               d.groups[h].externalId != Some(OrElse(r.externalId, r.displayName.value)) && d.groups[h].displayName != r.displayName.value
    requires ToSet(r.members.GetOr([])) <= d.users.Keys && lists.known && lists.members
    ensures var deleted := DeleteGroup(d, c, g, listed).dir;
            var reply := CreateGroup(deleted, c, r, lists);
            && !LiveGroup(deleted, g) && Members(deleted, g) == (if listed then {} else Members(d, g))
            && reply.error.None? && LiveGroup(reply.dir, g)
            && Members(reply.dir, g) == ToSet(r.members.GetOr([]))
  {
    var deleted := DeleteGroup(d, c, g, listed).dir;
    ReplaceMembersIsExact(d, c, g, {}, listed, g);
    var emptied := ReplaceMembers(d, c, g, {}, listed).dir;
    assert Members(deleted, g) == Members(emptied, g);
    forall h | LiveGroup(deleted, h) ensures LiveGroup(d, h) && h != g && deleted.groups[h] == d.groups[h] {
    }
    var externalId := OrElse(r.externalId, r.displayName.value);
    var record := Group(Some(externalId), r.displayName.value, true);
    ReplaceMembersIsExact(deleted.(groups := deleted.groups[g := record]), c, g, ToSet(r.members.GetOr([])), true, g);
  }

  /** A group that was live before a successful creation is left as it was,
      exactly unless its record sits under the id the new external id hashes to:
      then it is taken for a deleted one and overwritten, if only with what it
      was, which takes a failed LIST of the groups. */
  lemma CreationSparesLiveGroups(d: Directory, c: Connection, r: GroupResource, g: Id, lists: Lists)
    requires CreateGroup(d, c, r, lists).error.None? && LiveGroup(d, g)
    ensures var d' := CreateGroup(d, c, r, lists).dir;
            var externalId := OrElse(r.externalId, r.displayName.value);
            && (d'.groups[g] == d.groups[g] <==>
                g != GroupId(c, externalId) || d.groups[g] == Group(Some(externalId), r.displayName.value, true))
            && (lists.groups ==> d.groups[g] != Group(Some(externalId), r.displayName.value, true))
            && (g != GroupId(c, externalId) ==> Members(d', g) == Members(d, g))
  {
    var id := GroupId(c, OrElse(r.externalId, r.displayName.value));
    var record := Group(Some(OrElse(r.externalId, r.displayName.value)), r.displayName.value, true);
    ReplaceMembersIsExact(d.(groups := d.groups[id := record]), c, id, ToSet(r.members.GetOr([])), lists.members, g);
    assert lists.groups ==> LiveGroup(d, g) && d.groups[g].displayName != r.displayName.value;
  }

  // A live group whose external id was replaced can be overwritten that way.
  lemma RenamedGroupIsOverwritten(c: Connection)
    ensures var id := GroupId(c, "a");
            var d := Directory(map[], map[id := Group(Some("b"), "first", true)]);
            var reply := CreateGroup(d, c, GroupResource(Some("second"), Some("a"), None), Lists(true, true, true));
            LiveGroup(d, id) && reply.error.None? && reply.dir.groups[id].displayName == "second"
  {
  }

  // ---- what a request leaves alone ---------------------------------------------------------

  // Everything about a user but memberships and the grant.
  function Profile(u: User): User {
    u.(sourceGroups := [], groups := [])
  }

  // The user a request on users writes.
  function Target(c: Connection, r: Request): Id
    requires r.PostUser? || r.PutUser? || r.PatchUserRequest?
  {
    if r.PostUser? then UserId(c, OrElse(r.user.externalId, r.user.userName.GetOr(""))) else r.id
  }

  /** A request on a user writes no group and no other user; refused, it writes
      nothing at all. */
  lemma UserRequestsTouchOneUser(d: Directory, c: Connection, r: Request, u: Id)
    requires r.PostUser? || r.PutUser? || r.PatchUserRequest?
    ensures var reply := Handle(d, c, r);
            && reply.dir.groups == d.groups
            && (u != Target(c, r) ==> (u in reply.dir.users <==> u in d.users) && (u in d.users ==> reply.dir.users[u] == d.users[u]))
            && (reply.error.Some? ==> reply.dir == d)
            && (reply.error.None? ==> Target(c, r) in reply.dir.users)
            && (r.PostUser? && reply.error.None? ==> Target(c, r) !in d.users)
  {
  }

  ghost predicate SameProfiles(d: Directory, d': Directory) {
    d'.users.Keys == d.users.Keys && forall u :: u in d.users ==> Profile(d'.users[u]) == Profile(d.users[u])
  }

  lemma ReplaceMembersKeepsProfiles(d: Directory, c: Connection, g: Id, desired: set<Id>, listed: bool)
    ensures SameProfiles(d, ReplaceMembers(d, c, g, desired, listed).dir)
  {
  }

  lemma GroupOpKeepsProfiles(d: Directory, c: Connection, g: Id, op: GroupOp)
    requires g in d.groups
    ensures SameProfiles(d, ApplyGroupOp(d, c, g, op).dir)
  {
    var ids := if op.value.MemberList? then ToSet(op.value.ids) else {};
    var members := Members(d, g) * Listed(d, op.listed);
    if op.path.GroupNoPath? && op.value.GroupFields? {
      var named := if op.value.displayName.Some? then Renamed(d, g, op.value.displayName.value) else d;
      assert SameProfiles(d, named);
      if op.value.members.Some? {
        ReplaceMembersKeepsProfiles(named, c, g, ToSet(op.value.members.value), op.listed);
      }
    } else if op.path.GroupMembers? {
      var desired := if op.verb.Add? then members + ids else if op.verb.Replace? then ids else {};
      ReplaceMembersKeepsProfiles(d, c, g, desired, op.listed);
    } else if op.path.OneMember? {
      ReplaceMembersKeepsProfiles(d, c, g, members - {op.path.id}, op.listed);
    }
  }

  lemma {:induction false} GroupOpsKeepProfiles(d: Directory, c: Connection, g: Id, ops: seq<GroupOp>)
    requires g in d.groups
    ensures SameProfiles(d, ApplyGroupOps(d, c, g, ops).dir)
    decreases |ops|
  {
    if ops != [] {
      GroupOpKeepsProfiles(d, c, g, ops[0]);
      if ApplyGroupOp(d, c, g, ops[0]).error.None? {
        GroupOpsKeepProfiles(ApplyGroupOp(d, c, g, ops[0]).dir, c, g, ops[1..]);
      }
    }
  }

  /** A request on a group creates and removes no user and changes nothing about
      one but memberships and the grant. */
  lemma GroupRequestsKeepProfiles(d: Directory, c: Connection, r: Request)
    requires !r.PostUser? && !r.PutUser? && !r.PatchUserRequest?
    ensures SameProfiles(d, Handle(d, c, r).dir)
  {
    if r.PatchGroupRequest? && LiveGroup(d, r.id) {
      GroupOpsKeepProfiles(d, c, r.id, r.groupOps);
    }
  }

  function SetActive(active: bool): seq<UserOp> {
    [UserOp(Replace, ActivePath, Boolean(active))]
  }

  /** Deactivating a user takes the grant and keeps the memberships, so that
      reactivating gives back the very same record. */
  lemma ReactivationRestores(d: Directory, c: Connection, id: Id)
    requires Sound(d, c) && id in d.users && d.users[id].active
    ensures var off := PatchUser(d, c, id, SetActive(false));
            var on := PatchUser(off.dir, c, id, SetActive(true));
            && off.error.None? && off.dir.users[id] == d.users[id].(active := false, groups := [])
            && on.error.None? && on.dir == d
  {
    assert SoundUser(d, c, d.users[id]);
    var off := PatchUser(d, c, id, SetActive(false)).dir;
    assert PatchUser(off, c, id, SetActive(true)).dir.users[id] == d.users[id];
    assert PatchUser(off, c, id, SetActive(true)).dir.users == d.users;
  }

  // ---- what each request does ------------------------------------------------------------

  // The grant a user is due.
  function Due(c: Connection, active: bool, sourceGroups: seq<Id>): seq<Grant> {
    if active && (c.allUsers || |sourceGroups| > 0) then [c.group] else []
  }

  /** POST of a user: refused without a userName, for one whose userName or
      external id a listed user has, or whose record is there; else the record is
      stored as given, in no group, under the id of its external id, which is its
      userName if none was given. */
  lemma CreatedUser(d: Directory, c: Connection, r: UserResource, listed: bool)
    ensures var reply := Handle(d, c, PostUser(r, listed));
            if r.userName.None? then reply == Reply(d, Some(InvalidValue))
            else
              var name := r.userName.value;
              var externalId := if r.externalId.Some? && r.externalId.value != "" then r.externalId.value else name;
              var id := "scim-u-" + c.digest(externalId);
              var taken := listed && exists u :: u in d.users && (d.users[u].externalId == Some(externalId) || d.users[u].userName == name);
              if taken || id in d.users then reply == Reply(d, Some(Uniqueness))
              else reply == Reply(Directory(
                d.users[id := User(Some(externalId), name, if r.displayName == Some("") then None else r.displayName,
                                   r.active, r.emails, [], Due(c, r.active, []))], d.groups), None)
  {
  }

  /** PUT of a user: the record is replaced as given but for its memberships, and
      its external id if none was given. */
  lemma ReplacedUser(d: Directory, c: Connection, id: Id, r: UserResource)
    ensures var reply := Handle(d, c, PutUser(id, r));
            if id !in d.users then reply == Reply(d, Some(NotFound))
            else if r.userName.None? then reply == Reply(d, Some(InvalidValue))
            else
              var groups := d.users[id].sourceGroups;
              reply == Reply(Directory(
                d.users[id := User(if r.externalId.Some? then r.externalId else d.users[id].externalId, r.userName.value,
                                   if r.displayName == Some("") then None else r.displayName,
                                   r.active, r.emails, groups, Due(c, r.active, groups))], d.groups), None)
  {
  }

  // What a value reads as where a string is wanted.
  ghost predicate Reads(value: Value, text: string) {
    match value
    case Undefined => text == "undefined"
    case Boolean(flag) => text == if flag then "true" else "false"
    case Text(given) => text == given
    case EmailList(list) => (|list| == 0 ==> text == "") && (|list| == 1 ==> text == "[object Object]")
    case Fields(_, _, _, _, _) => text == "[object Object]"
  }

  // The user a PATCH operation makes of another, but for the grant.
  ghost predicate PatchedBy(u: User, u': User, op: UserOp) {
    match op.path
    case NoPath =>
      (match op.value
       case Fields(userName, displayName, externalId, active, emails) =>
         && u'.userName == (if userName.Some? then userName.value else u.userName)
         && u'.displayName == (if displayName.Some? then displayName else u.displayName)
         && u'.externalId == (if externalId.Some? then externalId else u.externalId)
         && u'.active == (if active.Some? then active.value else u.active)
         && u'.emails == (if emails.Some? then emails.value else u.emails)
       case _ => Profile(u') == Profile(u))
    case ActivePath => Profile(u') == Profile(u).(active := op.verb != Remove && op.value != Boolean(false))
    case UserNamePath => Profile(u') == Profile(u).(userName := u'.userName) && Reads(op.value, u'.userName)
    case DisplayNamePath =>
      && Profile(u') == Profile(u).(displayName := u'.displayName)
      && (op.verb == Remove <==> u'.displayName.None?)
      && (op.verb != Remove ==> Reads(op.value, u'.displayName.value))
    case ExternalIdPath =>
      && Profile(u') == Profile(u).(externalId := u'.externalId)
      && (op.verb == Remove <==> u'.externalId.None?)
      && (op.verb != Remove ==> Reads(op.value, u'.externalId.value))
    case EmailsPath => Profile(u') == Profile(u).(emails := if op.verb != Remove && op.value.EmailList? then op.value.list else [])
    case OneEmailPath => Profile(u') == Profile(u).(emails := if op.verb != Remove && op.value.Text? then [Email(op.value.text, true)] else [])
    case OtherEmailsPath => Profile(u') == Profile(u).(emails := [])
    case OtherPath => false
  }

  // Which operations are refused, and how.
  function Refusal(op: UserOp): Option<Error> {
    if op.verb == OtherVerb then Some(InvalidSyntax)
    else if op.path == UserNamePath && op.verb == Remove then Some(Mutability)
    else if op.path == OtherPath || (op.path == OtherEmailsPath && op.verb != Remove)
         || (op.path == OneEmailPath && op.verb != Remove && !op.value.Text?)
         || (op.path == NoPath && !op.value.Fields? && !op.value.EmailList?)
    then Some(InvalidPath)
    else None
  }

  lemma OneUserOp(u: User, op: UserOp)
    ensures ApplyOps(u, [op]) == ApplyOp(u, op)
  {
    assert [op][1..] == [];
  }

  lemma RefusedUserOp(u: User, op: UserOp)
    ensures ApplyOp(u, op) == match Refusal(op) case Some(error) => Bad(error) case None => Ok(ApplyOp(u, op).user)
    ensures Refusal(op).None? ==> PatchedBy(u, ApplyOp(u, op).user, op)
  {
  }

  /** PATCH of a user by one operation: it changes the one attribute its path
      names, as its verb and value say, keeps the memberships, and brings the
      grant up to date. With PatchComposes this settles every list of them. */
  lemma PatchedUser(d: Directory, c: Connection, id: Id, op: UserOp)
    requires id in d.users
    ensures var reply := Handle(d, c, PatchUserRequest(id, [op]));
            && reply.error == Refusal(op)
            && (reply.error.Some? ==> reply.dir == d)
            && (reply.error.None? ==>
                  && id in reply.dir.users
                  && reply.dir == Directory(d.users[id := reply.dir.users[id]], d.groups)
                  && PatchedBy(d.users[id], reply.dir.users[id], op)
                  && reply.dir.users[id].sourceGroups == d.users[id].sourceGroups
                  && reply.dir.users[id].groups == Due(c, reply.dir.users[id].active, d.users[id].sourceGroups))
  {
    OneUserOp(d.users[id], op);
    RefusedUserOp(d.users[id], op);
    PatchKeepsMemberships(d.users[id], [op]);
  }

  /** POST of a group. Everything that can refuse it before it is written writes
      nothing: a missing name, unknown members, a live group with that name or
      external id. Then its record is stored live, and its members are made the
      desired ones, unless nobody is wanted in a group that was never there. */
  lemma CreatedGroup(d: Directory, c: Connection, r: GroupResource, lists: Lists, h: Id)
    ensures var reply := Handle(d, c, PostGroup(r, lists));
            if r.displayName.None? then reply == Reply(d, Some(InvalidValue))
            else
              var name := r.displayName.value;
              var externalId := if r.externalId.Some? && r.externalId.value != "" then r.externalId.value else name;
              var desired := ToSet(r.members.GetOr([]));
              var id := "scim-g-" + c.digest(externalId);
              var taken := lists.groups && exists g :: g in d.groups && d.groups[g].active
                                                       && (d.groups[g].externalId == Some(externalId) || d.groups[g].displayName == name);
              if !(desired <= Listed(d, lists.known)) then reply == Reply(d, Some(InvalidValue))
              else if taken then reply == Reply(d, Some(Uniqueness))
              else
                var places := id in d.groups || desired != {};
                && reply.dir.groups == d.groups[id := Group(Some(externalId), name, true)]
                && (reply.error.None? <==> !places || desired <= Listed(d, lists.members))
                && Members(reply.dir, id) == (if places && reply.error.None? && lists.members then desired else Members(d, id))
                && (h != id ==> Members(reply.dir, h) == Members(d, h))
  {
    if r.displayName.Some? {
      var externalId := OrElse(r.externalId, r.displayName.value);
      var id := GroupId(c, externalId);
      var d' := d.(groups := d.groups[id := Group(Some(externalId), r.displayName.value, true)]);
      ReplacedMembers(d', c, id, ToSet(r.members.GetOr([])), lists.members, id);
      ReplacedMembers(d', c, id, ToSet(r.members.GetOr([])), lists.members, h);
      assert Members(d', id) == Members(d, id) && Members(d', h) == Members(d, h);
    }
  }

  // Who is in group h after a replacement in g.
  lemma ReplacedMembers(d: Directory, c: Connection, g: Id, desired: set<Id>, listed: bool, h: Id)
    ensures var reply := ReplaceMembers(d, c, g, desired, listed);
            && (reply.error.None? <==> desired <= Listed(d, listed))
            && (reply.error.Some? ==> reply.error == Some(InvalidValue))
            && reply.dir.groups == d.groups
            && Members(reply.dir, h) == if h == g && reply.error.None? && listed then desired else Members(d, h)
  {
    ReplaceMembersIsExact(d, c, g, desired, listed, h);
  }

  /** PUT of a group: its name, and its external id if one is given, are replaced
      at once, and its members then made the desired ones. */
  lemma ReplacedGroup(d: Directory, c: Connection, g: Id, r: GroupResource, listed: bool, h: Id)
    ensures var reply := Handle(d, c, PutGroup(g, r, listed));
            if !(g in d.groups && d.groups[g].active) then reply == Reply(d, Some(NotFound))
            else if r.displayName.None? then reply == Reply(d, Some(InvalidValue))
            else
              var desired := ToSet(r.members.GetOr([]));
              && reply.dir.groups ==
                   d.groups[g := Group(if r.externalId.Some? then r.externalId else d.groups[g].externalId, r.displayName.value, true)]
              && (reply.error.None? <==> desired <= Listed(d, listed))
              && Members(reply.dir, h) == if h == g && reply.error.None? && listed then desired else Members(d, h)
  {
    if g in d.groups && d.groups[g].active && r.displayName.Some? {
      var externalId := if r.externalId.Some? then r.externalId else d.groups[g].externalId;
      var d' := d.(groups := d.groups[g := Group(externalId, r.displayName.value, true)]);
      ReplacedMembers(d', c, g, ToSet(r.members.GetOr([])), listed, h);
      assert Members(d', h) == Members(d, h);
    }
  }

  /** DELETE of a group: whoever is listed leaves it, and its record stays, inactive. */
  lemma DeletedGroup(d: Directory, c: Connection, g: Id, listed: bool, h: Id)
    ensures var reply := Handle(d, c, DeleteGroupRequest(g, listed));
            if !(g in d.groups && d.groups[g].active) then reply == Reply(d, Some(NotFound))
            else
              && reply.error.None?
              && reply.dir.groups == d.groups[g := Group(d.groups[g].externalId, d.groups[g].displayName, false)]
              && Members(reply.dir, h) == if h == g && listed then {} else Members(d, h)
  {
    if g in d.groups && d.groups[g].active {
      ReplacedMembers(d, c, g, {}, listed, h);
      assert Members(DeleteGroup(d, c, g, listed).dir, h) == Members(ReplaceMembers(d, c, g, {}, listed).dir, h);
    }
  }

  // Whom an operation on the members leaves in the group, if it is not refused
  // and its LIST is answered.
  function Wanted(members: set<Id>, op: GroupOp): set<Id> {
    var ids := if op.value.MemberList? then ToSet(op.value.ids) else {};
    match op.path
    case GroupMembers => if op.verb == Add then members + ids else if op.verb == Replace then ids else {}
    case OneMember(id) => members - {id}
    case GroupNoPath => if op.value.GroupFields? && op.value.members.Some? then ToSet(op.value.members.value) else members
    case _ => members
  }

  // Whom its request names, who must all be listed.
  function Named(op: GroupOp): set<Id> {
    match op.path
    case GroupMembers => if op.verb != Remove && op.value.MemberList? then ToSet(op.value.ids) else {}
    case GroupNoPath => if op.value.GroupFields? && op.value.members.Some? then ToSet(op.value.members.value) else {}
    case _ => {}
  }

  // The name an operation gives the group.
  function NewName(op: GroupOp): Option<string> {
    match op.path
    case GroupDisplayName =>
      (match op.value
       case NoValue => Some("undefined")
       case GroupText(text) => Some(text)
       case MemberList(ids) => Some(ShowList(|ids|))
       case GroupFields(_, _) => Some("[object Object]"))
    case GroupNoPath => if op.value.GroupFields? then op.value.displayName else None
    case _ => None
  }

  function GroupRefusal(op: GroupOp): Option<Error> {
    if op.verb == OtherVerb then Some(InvalidSyntax)
    else match op.path
      case GroupNoPath =>
        if op.value.MemberList? || (op.value.GroupFields? && op.value.displayName.None? && op.value.members.None?) then Some(InvalidValue)
        else if op.value.GroupFields? then None
        else Some(InvalidPath)
      case GroupDisplayName => if op.verb == Remove then Some(Mutability) else None
      case GroupMembers => None
      case OneMember(_) => if op.verb == Remove then None else Some(InvalidPath)
      case OtherGroupPath => Some(InvalidPath)
  }

  /** PATCH of a live group by one operation: `add` is union, `replace` exactly the
      given members, `remove` nobody at all or all but the one it filters; a new
      name changes the name only. Members are changed only if everybody named is
      listed, after the name; no other group is touched. */
  lemma PatchedGroup(d: Directory, c: Connection, g: Id, op: GroupOp, h: Id)
    requires g in d.groups && d.groups[g].active
    ensures var reply := Handle(d, c, PatchGroupRequest(g, [op]));
            var known := Named(op) <= Listed(d, op.listed);
            && reply.error == (if GroupRefusal(op).Some? then GroupRefusal(op) else if known then None else Some(InvalidValue))
            && reply.dir.groups ==
                 (if GroupRefusal(op).None? && NewName(op).Some?
                  then d.groups[g := Group(d.groups[g].externalId, NewName(op).value, true)] else d.groups)
            && Members(reply.dir, h) ==
                 (if h == g && reply.error.None? && op.listed then Wanted(Members(d, g), op) else Members(d, h))
  {
    OneGroupOp(d, c, g, op);
    var members := Members(d, g) * Listed(d, op.listed);
    match op.path
    case GroupNoPath => PatchedGroupFields(d, c, g, op, h);
    case GroupMembers =>
      var desired := if op.verb == Add then members + Named(op) else Named(op);
      ReplacedMembers(d, c, g, desired, op.listed, h);
    case OneMember(id) => ReplacedMembers(d, c, g, members - {id}, op.listed, h);
    case _ => assert Members(ApplyGroupOp(d, c, g, op).dir, h) == Members(d, h);
  }

  lemma OneGroupOp(d: Directory, c: Connection, g: Id, op: GroupOp)
    requires g in d.groups
    ensures ApplyGroupOps(d, c, g, [op]) == ApplyGroupOp(d, c, g, op)
  {
    assert [op][1..] == [];
    assert ApplyGroupOps(ApplyGroupOp(d, c, g, op).dir, c, g, []) == Reply(ApplyGroupOp(d, c, g, op).dir, None);
  }

  lemma PatchedGroupFields(d: Directory, c: Connection, g: Id, op: GroupOp, h: Id)
    requires g in d.groups && d.groups[g].active && op.path == GroupNoPath
    ensures var reply := ApplyGroupOp(d, c, g, op);
            var known := Named(op) <= Listed(d, op.listed);
            && reply.error == (if GroupRefusal(op).Some? then GroupRefusal(op) else if known then None else Some(InvalidValue))
            && reply.dir.groups ==
                 (if GroupRefusal(op).None? && NewName(op).Some?
                  then d.groups[g := Group(d.groups[g].externalId, NewName(op).value, true)] else d.groups)
            && Members(reply.dir, h) ==
                 (if h == g && reply.error.None? && op.listed then Wanted(Members(d, g), op) else Members(d, h))
  {
    if op.value.GroupFields? {
      var named := if op.value.displayName.Some? then Renamed(d, g, op.value.displayName.value) else d;
      assert Members(named, h) == Members(d, h) && Listed(named, op.listed) == Listed(d, op.listed);
      if op.value.members.Some? {
        ReplacedMembers(named, c, g, ToSet(op.value.members.value), op.listed, h);
      }
    }
  }

  /** PATCH of a group by several operations is each in order, until one is
      refused; what the others wrote before it stays. */
  lemma GroupOpsInOrder(d: Directory, c: Connection, g: Id, op: GroupOp, ops: seq<GroupOp>)
    requires g in d.groups && d.groups[g].active
    ensures var first := Handle(d, c, PatchGroupRequest(g, [op]));
            && Handle(d, c, PatchGroupRequest(g, [op] + ops)) ==
                 (if first.error.Some? then first else Handle(first.dir, c, PatchGroupRequest(g, ops)))
            && Handle(d, c, PatchGroupRequest(g, [])) == Reply(d, None)
  {
    OneGroupOp(d, c, g, op);
    PatchedGroup(d, c, g, op, g);
    var first := ApplyGroupOp(d, c, g, op);
    assert LiveGroup(first.dir, g);
    assert ApplyGroupOps(d, c, g, [op] + ops) == if first.error.Some? then first else ApplyGroupOps(first.dir, c, g, ops) by {
      assert ([op] + ops)[1..] == ops;
    }
  }

  /** A PATCH or DELETE of a group that is not live finds nothing. */
  lemma MissingGroup(d: Directory, c: Connection, g: Id, ops: seq<GroupOp>)
    requires !(g in d.groups && d.groups[g].active)
    ensures Handle(d, c, PatchGroupRequest(g, ops)) == Reply(d, Some(NotFound))
  {
  }

  // ---- PATCH is all or nothing -----------------------------------------------------------

  lemma GrantIsNotConsulted(u: User, groups: seq<Grant>, op: UserOp)
    ensures var plain, other := ApplyOp(u, op), ApplyOp(u.(groups := groups), op);
            && (plain.Bad? <==> other.Bad?)
            && (plain.Bad? ==> other == plain)
            && (plain.Ok? ==> other.user == plain.user.(groups := groups))
  {
  }

  lemma {:induction false} GrantIsNotConsultedByOps(u: User, groups: seq<Grant>, ops: seq<UserOp>)
    ensures var plain, other := ApplyOps(u, ops), ApplyOps(u.(groups := groups), ops);
            && (plain.Bad? <==> other.Bad?)
            && (plain.Bad? ==> other == plain)
            && (plain.Ok? ==> other.user == plain.user.(groups := groups))
    decreases |ops|
  {
    if ops != [] {
      GrantIsNotConsulted(u, groups, ops[0]);
      if ApplyOp(u, ops[0]).Ok? {
        GrantIsNotConsultedByOps(ApplyOp(u, ops[0]).user, groups, ops[1..]);
      }
    }
  }

  lemma {:induction false} OpsCompose(u: User, first: seq<UserOp>, second: seq<UserOp>)
    ensures ApplyOps(u, first + second) ==
            if ApplyOps(u, first).Ok? then ApplyOps(ApplyOps(u, first).user, second) else ApplyOps(u, first)
    decreases |first|
  {
    if first == [] {
      assert first + second == second;
    } else {
      assert (first + second)[1..] == first[1..] + second;
      if ApplyOp(u, first[0]).Ok? {
        OpsCompose(ApplyOp(u, first[0]).user, first[1..], second);
      }
    }
  }

  /** One PATCH with the operations of two is the two PATCHes in order when both
      are accepted, and when either is refused it changes nothing at all. */
  lemma PatchComposes(d: Directory, c: Connection, id: Id, first: seq<UserOp>, second: seq<UserOp>)
    ensures var one := PatchUser(d, c, id, first);
            var two := PatchUser(one.dir, c, id, second);
            var both := PatchUser(d, c, id, first + second);
            && (both.error.None? <==> one.error.None? && two.error.None?)
            && both.dir == if one.error.None? && two.error.None? then two.dir else d
  {
    if id in d.users {
      var u := d.users[id];
      OpsCompose(u, first, second);
      if ApplyOps(u, first).Ok? {
        var mid := ApplyOps(u, first).user;
        GrantIsNotConsultedByOps(mid, Project(c, mid).groups, second);
      }
    }
  }

  // ---- the service in the source's own form ------------------------------------------------

  class ScimService {
    const connection: Connection
    var users: map<Id, User>
    var groups: map<Id, Group>
    var written: set<Id>   // whom updateUserSpecs was called for

    ghost function View(): Directory reads this {
      Directory(users, groups)
    }

    constructor (connection: Connection)
      ensures this.connection == connection && View() == Directory(map[], map[]) && written == {}
    {
      this.connection := connection;
      users, groups, written := map[], map[], {};
    }

    method UpdateUser(id: Id, user: User)
      requires id in users
      modifies this`users, this`written
      ensures users == old(users)[id := user] && written == old(written) + {id}
    {
      users := users[id := user];
      written := written + {id};
    }

    // The identity is cloned, patched operation by operation, and written once.
    method PatchUserRecord(id: Id, ops: seq<UserOp>) returns (error: Option<Error>)
      modifies this
      ensures Reply(View(), error) == PatchUser(old(View()), connection, id, ops)
      ensures error.Some? ==> View() == old(View()) && written == old(written)
      ensures error.None? ==> written == old(written) + {id}
    {
      if id !in users {
        return Some(NotFound);
      }
      var identity := users[id];
      for i := 0 to |ops|
        invariant View() == old(View()) && written == old(written)
        invariant ApplyOps(users[id], ops) == ApplyOps(identity, ops[i..])
      {
        var next := ApplyOp(identity, ops[i]);
        assert ops[i..][1..] == ops[i + 1..];
        if next.Bad? {
          return Some(next.error);
        }
        identity := next.user;
      }
      UpdateUser(id, Project(connection, identity));
      error := None;
    }

    // One user of a member replacement: written only if it has to change.
    method PlaceUser(id: Id, g: Id, wants: bool)
      requires id in users
      modifies this`users, this`written
      ensures users == old(users)[id := Placed(connection, old(users)[id], g, wants)]
      ensures written == old(written) + if wants != (g in old(users)[id].sourceGroups) then {id} else {}
    {
      var user := users[id];
      var has := g in user.sourceGroups;
      if wants != has {
        UpdateUser(id, Placed(connection, user, g, wants));
      } else {
        assert users == users[id := user];
      }
    }

    method PlaceUsers(g: Id, desired: set<Id>)
      modifies this`users, this`written
      ensures users == PlacedAmong(old(View()), connection, g, desired, old(users.Keys)).users
      ensures written == old(written) + Changed(old(View()), g, desired)
    {
      ghost var d := View();
      var todo := users.Keys;
      ghost var reached: set<Id> := {};
      while todo != {}
        invariant todo <= d.users.Keys && reached == d.users.Keys - todo
        invariant users == PlacedAmong(d, connection, g, desired, reached).users
        invariant written == old(written) + Changed(d, g, desired) * reached
        decreases todo
      {
        var id :| id in todo;
        PlacedOneMore(d, connection, g, desired, reached, id);
        PlaceUser(id, g, id in desired);
        todo, reached := todo - {id}, reached + {id};
        assert d.users.Keys - todo == reached;
      }
      assert reached == d.users.Keys && Changed(d, g, desired) * reached == Changed(d, g, desired);
    }

    method ReplaceGroupMembers(g: Id, desired: set<Id>, listed: bool) returns (error: Option<Error>)
      modifies this
      ensures Reply(View(), error) == ReplaceMembers(old(View()), connection, g, desired, listed)
      ensures written == old(written) + if error.None? && listed then Changed(old(View()), g, desired) else {}
    {
      var listing := if listed then users.Keys else {};
      if !(desired <= listing) {
        return Some(InvalidValue);
      }
      if listed {
        PlaceUsers(g, desired);
      } else {
        assert users == PlacedAmong(View(), connection, g, desired, {}).users;
      }
      error := None;
    }

    method DeleteGroupRecord(g: Id, listed: bool) returns (error: Option<Error>)
      modifies this
      ensures Reply(View(), error) == DeleteGroup(old(View()), connection, g, listed)
    {
      if g !in groups || !groups[g].active {
        return Some(NotFound);
      }
      error := ReplaceGroupMembers(g, {}, listed);
      groups := groups[g := groups[g].(active := false)];
    }
  }

  lemma PlacedOneMore(d: Directory, c: Connection, g: Id, desired: set<Id>, reached: set<Id>, id: Id)
    requires id in d.users && id !in reached
    ensures PlacedAmong(d, c, g, desired, reached + {id}).users
            == PlacedAmong(d, c, g, desired, reached).users[id := Placed(c, d.users[id], g, id in desired)]
    ensures PlacedAmong(d, c, g, desired, reached).users.Keys == d.users.Keys
    ensures PlacedAmong(d, c, g, desired, reached).users[id] == d.users[id]
    ensures Changed(d, g, desired) * (reached + {id})
            == Changed(d, g, desired) * reached + if (id in desired) != (g in d.users[id].sourceGroups) then {id} else {}
  {
  }
}
