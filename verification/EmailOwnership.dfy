/**
  Who owns an email address (src/utils/user/identity-integrity.js and
  src/services/kube-oidc-user-service.js).

  Addresses are canonical already. The oldest account claiming an address owns
  it; an account with a claim on somebody else's address is not eligible.
 */
module EmailOwnership {
  import opened Wrappers

  type AccountId = string
  type Email = string

  datatype Status = Verified | Unverified | Unknown

  datatype Means = MagicLink | GithubApi | OperatorTrust | OidcClaim

  datatype Evidence = Evidence(email: Email, status: Status, means: Means, provider: string)

  // `email` is None when the address does not canonicalize.
  datatype GithubEmail = GithubEmail(email: Option<Email>, verified: Option<bool>)

  datatype IdentityEmail = IdentityEmail(email: Option<Email>, verified: Option<bool>, trusted: bool)

  datatype Identity = Identity(provider: string, sub: Option<string>, active: bool, emails: seq<IdentityEmail>)

  // Milliseconds, in the range of a Date.
  type Time = t: int | -8640000000000000 <= t <= 8640000000000000

  datatype Account = Account(
    id: AccountId, created: Option<Time>,
    specEmail: Option<Email>, companyEmail: Option<Email>, passmowerEmail: Option<Email>,
    github: seq<GithubEmail>, githubId: Option<string>,
    identities: seq<Identity>, recorded: seq<Evidence>)

  // ---- claims -------------------------------------------------------------------

  // A Set filled in order.
  function Collected<T(==)>(s: seq<T>, more: seq<T>): seq<T>
    decreases |more|
  {
    if more == [] then s
    else
      var t := Collected(s, more[..|more| - 1]);
      if more[|more| - 1] in t then t else t + [more[|more| - 1]]
  }

  function Present(s: seq<Option<Email>>): seq<Email> {
    if s == [] then [] else (if s[0].Some? then [s[0].value] else []) + Present(s[1..])
  }

  function GithubAddresses(s: seq<GithubEmail>): seq<Option<Email>> {
    if s == [] then [] else [s[0].email] + GithubAddresses(s[1..])
  }

  function IdentityAddresses(s: seq<IdentityEmail>): seq<Option<Email>> {
    if s == [] then [] else [s[0].email] + IdentityAddresses(s[1..])
  }

  function UpstreamAddresses(s: seq<Identity>): seq<Option<Email>> {
    if s == [] then [] else IdentityAddresses(s[0].emails) + UpstreamAddresses(s[1..])
  }

  function ClaimedEmails(a: Account): seq<Email> {
    Collected([], Present([a.specEmail, a.companyEmail, a.passmowerEmail] + GithubAddresses(a.github) + UpstreamAddresses(a.identities)))
  }

  predicate Claims(a: Account, e: Email) {
    e in ClaimedEmails(a)
  }

  lemma {:induction false} PresentMembers(s: seq<Option<Email>>, e: Email)
    ensures e in Present(s) <==> Some(e) in s
  {
    if s != [] {
      PresentMembers(s[1..], e);
      assert Some(e) in s <==> Some(e) == s[0] || Some(e) in s[1..];
    }
  }

  lemma {:induction false} GithubAddressMembers(s: seq<GithubEmail>, x: Option<Email>)
    ensures x in GithubAddresses(s) <==> exists i :: 0 <= i < |s| && s[i].email == x
  {
    if s != [] {
      GithubAddressMembers(s[1..], x);
      if i :| 0 <= i < |s| && s[i].email == x {
        if i > 0 {
          assert s[1..][i - 1].email == x;
        } else {
          assert x in GithubAddresses(s);
        }
      }
      if i :| 0 <= i < |s[1..]| && s[1..][i].email == x {
        assert s[i + 1].email == x;
      }
    }
  }

  lemma {:induction false} IdentityAddressMembers(s: seq<IdentityEmail>, x: Option<Email>)
    ensures x in IdentityAddresses(s) <==> exists i :: 0 <= i < |s| && s[i].email == x
  {
    if s != [] {
      IdentityAddressMembers(s[1..], x);
      if i :| 0 <= i < |s| && s[i].email == x {
        if i > 0 {
          assert s[1..][i - 1].email == x;
        } else {
          assert x in IdentityAddresses(s);
        }
      }
      if i :| 0 <= i < |s[1..]| && s[1..][i].email == x {
        assert s[i + 1].email == x;
      }
    }
  }

  // Some item of the identity has the address, whatever it says of it.
  ghost predicate Lists(i: Identity, e: Email) {
    exists k :: 0 <= k < |i.emails| && i.emails[k].email == Some(e)
  }

  lemma {:induction false} UpstreamAddressMembers(s: seq<Identity>, e: Email)
    ensures Some(e) in UpstreamAddresses(s) <==> exists j :: 0 <= j < |s| && Lists(s[j], e)
  {
    if s != [] {
      UpstreamAddressMembers(s[1..], e);
      IdentityAddressMembers(s[0].emails, Some(e));
      if j :| 0 <= j < |s| && Lists(s[j], e) {
        if j > 0 {
          assert Lists(s[1..][j - 1], e);
        }
      }
      if j :| 0 <= j < |s[1..]| && Lists(s[1..][j], e) {
        assert Lists(s[j + 1], e);
      }
    }
  }

  /** An account claims exactly its spec, company and self-chosen addresses, those
      GitHub gave, verified or not, and those of its upstream identities, active
      or not. */
  lemma ClaimsExactly(a: Account, e: Email)
    ensures Claims(a, e) <==>
            || a.specEmail == Some(e) || a.companyEmail == Some(e) || a.passmowerEmail == Some(e)
            || (exists i :: 0 <= i < |a.github| && a.github[i].email == Some(e))
            || (exists j :: 0 <= j < |a.identities| && Lists(a.identities[j], e))
  {
    var own, github, upstream := [a.specEmail, a.companyEmail, a.passmowerEmail], GithubAddresses(a.github), UpstreamAddresses(a.identities);
    CollectedMembers([], Present(own + github + upstream), e);
    PresentMembers(own + github + upstream, e);
    assert Some(e) in own + github + upstream <==> Some(e) in own || Some(e) in github || Some(e) in upstream;
    GithubAddressMembers(a.github, Some(e));
    UpstreamAddressMembers(a.identities, e);
  }

  // ---- the order of accounts --------------------------------------------------------

  const MAX_SAFE_INTEGER := 9007199254740991

  predicate Less(a: string, b: string) {
    b != "" && (a == "" || a[0] < b[0] || (a[0] == b[0] && Less(a[1..], b[1..])))
  }

  function CreatedAt(a: Account): int {
    match a.created case Some(t) => t case None => MAX_SAFE_INTEGER
  }

  predicate Before(a: Account, b: Account) {
    CreatedAt(a) < CreatedAt(b) || (CreatedAt(a) == CreatedAt(b) && Less(a.id, b.id))
  }

  lemma {:induction false} LessIsTotal(a: string, b: string)
    ensures a == b || Less(a, b) || Less(b, a)
    ensures !(Less(a, b) && Less(b, a)) && !Less(a, a)
  {
    if a != "" && b != "" && a[0] == b[0] {
      LessIsTotal(a[1..], b[1..]);
      assert a == [a[0]] + a[1..] && b == [b[0]] + b[1..];
    }
    if a != "" {
      LessIsTotal(a[1..], a[1..]);
    }
  }

  lemma {:induction false} LessIsTransitive(a: string, b: string, c: string)
    requires Less(a, b) && Less(b, c)
    ensures Less(a, c)
  {
    if a != "" && a[0] == b[0] == c[0] {
      LessIsTransitive(a[1..], b[1..], c[1..]);
    }
  }

  lemma BeforeIsTotal(a: Account, b: Account)
    requires a.id != b.id
    ensures Before(a, b) != Before(b, a)
  {
    LessIsTotal(a.id, b.id);
  }

  lemma BeforeIsTransitive(a: Account, b: Account, c: Account)
    requires Before(a, b) && Before(b, c)
    ensures Before(a, c)
  {
    if CreatedAt(a) == CreatedAt(c) {
      LessIsTransitive(a.id, b.id, c.id);
    }
  }

  // In the order of characters.
  ghost predicate SmallerText(a: string, b: string) {
    exists k :: 0 <= k <= |a| && k < |b| && a[..k] == b[..k] && (k == |a| || a[k] < b[k])
  }

  // Created earlier, a missing creation time counting as latest; among accounts
  // created at the same time the smaller id comes first.
  ghost predicate Older(a: Account, b: Account) {
    match (a.created, b.created)
    case (Some(s), Some(t)) => s < t || (s == t && SmallerText(a.id, b.id))
    case (Some(_), None) => true
    case (None, Some(_)) => false
    case (None, None) => SmallerText(a.id, b.id)
  }

  lemma {:induction false} LessMeansSmaller(a: string, b: string)
    ensures Less(a, b) <==> SmallerText(a, b)
  {
    if a == "" || b == "" || a[0] != b[0] {
      if b != "" && (a == "" || a[0] < b[0]) {
        assert a[..0] == b[..0];
      }
    } else {
      LessMeansSmaller(a[1..], b[1..]);
      assert a == [a[0]] + a[1..] && b == [b[0]] + b[1..];
      if k :| 0 <= k <= |a[1..]| && k < |b[1..]| && a[1..][..k] == b[1..][..k] && (k == |a[1..]| || a[1..][k] < b[1..][k]) {
        assert a[..k + 1] == [a[0]] + a[1..][..k] && b[..k + 1] == [b[0]] + b[1..][..k];
      }
      if k :| 0 <= k <= |a| && k < |b| && a[..k] == b[..k] && (k == |a| || a[k] < b[k]) {
        assert k > 0;
        assert a[1..][..k - 1] == a[..k][1..] && b[1..][..k - 1] == b[..k][1..];
      }
    }
  }

  lemma BeforeMeansOlder(a: Account, b: Account)
    ensures Before(a, b) <==> Older(a, b)
  {
    LessMeansSmaller(a.id, b.id);
  }

  ghost predicate DistinctIds(s: seq<Account>) {
    forall i, j :: 0 <= i < j < |s| ==> s[i].id != s[j].id
  }

  ghost predicate Ordered(s: seq<Account>) {
    forall i, j :: 0 <= i < j < |s| ==> Before(s[i], s[j])
  }

  function Insert(a: Account, s: seq<Account>): seq<Account> {
    if s == [] || Before(a, s[0]) then [a] + s else [s[0]] + Insert(a, s[1..])
  }

  function SortAccounts(s: seq<Account>): seq<Account> {
    if s == [] then [] else Insert(s[0], SortAccounts(s[1..]))
  }

  lemma {:induction false} InsertKeepsOrder(a: Account, s: seq<Account>)
    requires Ordered(s) && forall b :: b in s ==> b.id != a.id
    ensures Ordered(Insert(a, s)) && forall b :: b in Insert(a, s) <==> b == a || b in s
  {
    var t := Insert(a, s);
    if s == [] {
    } else if Before(a, s[0]) {
      forall i, j | 0 <= i < j < |t| ensures Before(t[i], t[j]) {
        if i == 0 && j > 1 {
          BeforeIsTransitive(a, s[0], s[j - 1]);
        }
      }
    } else {
      InsertKeepsOrder(a, s[1..]);
      BeforeIsTotal(a, s[0]);
      forall b | b in Insert(a, s[1..]) ensures Before(s[0], b) {
        if b != a {
          var k :| 0 <= k < |s[1..]| && s[1..][k] == b;
          assert s[k + 1] == b;
        }
      }
    }
  }

  lemma {:induction false} SortIsOrdered(s: seq<Account>)
    requires DistinctIds(s)
    ensures Ordered(SortAccounts(s)) && forall a :: a in SortAccounts(s) <==> a in s
  {
    if s != [] {
      SortIsOrdered(s[1..]);
      forall b | b in SortAccounts(s[1..]) ensures b.id != s[0].id {
        var k :| 0 <= k < |s[1..]| && s[1..][k] == b;
        assert s[k + 1] == b;
      }
      InsertKeepsOrder(s[0], SortAccounts(s[1..]));
      assert s == [s[0]] + s[1..];
    }
  }

  lemma OrderedIsStrict(s: seq<Account>, i: nat, j: nat)
    requires Ordered(s) && i < |s| && j < |s| && s[i] == s[j]
    ensures i == j
  {
    LessIsTotal(s[i].id, s[j].id);
  }

  // A strictly ordered listing is determined by what it lists.
  lemma {:induction false} OrderedIsUnique(s: seq<Account>, t: seq<Account>)
    requires Ordered(s) && Ordered(t) && forall a :: a in s <==> a in t
    ensures s == t
  {
    if s != [] {
      assert s[0] in s;
    }
    if t != [] {
      assert t[0] in t;
    }
    if s != [] && t != [] {
      var j :| 0 <= j < |t| && t[j] == s[0];
      var i :| 0 <= i < |s| && s[i] == t[0];
      if i > 0 && j > 0 {
        BeforeIsTransitive(s[0], s[i], t[j]);
        LessIsTotal(s[0].id, s[0].id);
      }
      assert s[0] == t[0];
      forall a ensures a in s[1..] <==> a in t[1..] {
        if a in s[1..] {
          var k :| 0 < k < |s| && s[k] == a;
          if a == s[0] {
            OrderedIsStrict(s, 0, k);
          }
          assert a in t;
        }
        if a in t[1..] {
          var k :| 0 < k < |t| && t[k] == a;
          if a == t[0] {
            OrderedIsStrict(t, 0, k);
          }
          assert a in s;
        }
      }
      OrderedIsUnique(s[1..], t[1..]);
    }
  }

  // ---- owners and conflicts ------------------------------------------------------------

  datatype Conflict = Conflict(email: Email, ownerId: AccountId)

  datatype Assessment = Assessment(owners: map<Email, Account>, conflicts: map<AccountId, seq<Conflict>>)

  function Claimants(s: seq<Account>, e: Email): seq<Account>
    decreases |s|
  {
    if s == [] then []
    else Claimants(s[..|s| - 1], e) + if Claims(s[|s| - 1], e) then [s[|s| - 1]] else []
  }

  // The addresses in the order in which the accounts first claim them.
  function EmailOrder(s: seq<Account>): seq<Email> {
    if s == [] then [] else Collected(EmailOrder(s[..|s| - 1]), ClaimedEmails(s[|s| - 1]))
  }

  function Ids(s: seq<Account>): set<AccountId> {
    set a | a in s :: a.id
  }

  // What account `id` claims although somebody before it does.
  function ConflictsOf(s: seq<Account>, emails: seq<Email>, id: AccountId): seq<Conflict> {
    if emails == [] then []
    else
      var claimants := Claimants(s, emails[|emails| - 1]);
      ConflictsOf(s, emails[..|emails| - 1], id)
      + if claimants != [] && id in Ids(claimants[1..]) then [Conflict(emails[|emails| - 1], claimants[0].id)] else []
  }

  // The outcome over accounts already in order.
  function AssessOrdered(s: seq<Account>): Assessment {
    Assessment(
      map e | e in EmailOrder(s) && Claimants(s, e) != [] :: Claimants(s, e)[0],
      map id | id in Ids(s) && ConflictsOf(s, EmailOrder(s), id) != [] :: ConflictsOf(s, EmailOrder(s), id))
  }

  function Assess(accounts: seq<Account>): Assessment {
    AssessOrdered(SortAccounts(accounts))
  }

  predicate Eligible(accounts: seq<Account>, a: Account) {
    a.id !in Assess(accounts).conflicts
  }

  function Owner(accounts: seq<Account>, e: Email): Option<Account> {
    if e in Assess(accounts).owners then Some(Assess(accounts).owners[e]) else None
  }

  lemma {:induction false} CollectedMembers<T>(s: seq<T>, more: seq<T>, x: T)
    ensures x in Collected(s, more) <==> x in s || x in more
    decreases |more|
  {
    if more != [] {
      CollectedMembers(s, more[..|more| - 1], x);
      assert x in more <==> x in more[..|more| - 1] || x == more[|more| - 1];
    }
  }

  lemma {:induction false} EmailOrderMembers(s: seq<Account>, e: Email)
    ensures e in EmailOrder(s) <==> exists a :: a in s && Claims(a, e)
  {
    if s != [] {
      var prefix, last := s[..|s| - 1], s[|s| - 1];
      EmailOrderMembers(prefix, e);
      CollectedMembers(EmailOrder(prefix), ClaimedEmails(last), e);
      assert s == prefix + [last];
      if a :| a in s && Claims(a, e) {
        assert a in prefix || a == last;
      }
      if a :| a in prefix && Claims(a, e) {
        assert a in s && Claims(a, e);
      } else if Claims(last, e) {
        assert last in s && Claims(last, e);
      }
    }
  }

  lemma {:induction false} ClaimantsAreOrdered(s: seq<Account>, e: Email)
    requires Ordered(s)
    ensures Ordered(Claimants(s, e)) && forall a :: a in Claimants(s, e) <==> a in s && Claims(a, e)
    decreases |s|
  {
    if s != [] {
      var prefix, last := s[..|s| - 1], s[|s| - 1];
      ClaimantsAreOrdered(prefix, e);
      var c := Claimants(prefix, e);
      forall i | 0 <= i < |c| ensures Before(c[i], last) {
        assert c[i] in c;
        var k :| 0 <= k < |prefix| && prefix[k] == c[i];
        assert Before(s[k], s[|s| - 1]);
      }
      assert forall a :: a in s <==> a in prefix || a == last;
    }
  }

  lemma {:induction false} ConflictMembers(s: seq<Account>, emails: seq<Email>, id: AccountId, e: Email)
    requires e in emails && Claimants(s, e) != [] && id in Ids(Claimants(s, e)[1..])
    ensures ConflictsOf(s, emails, id) != []
  {
    if e != emails[|emails| - 1] {
      assert e in emails[..|emails| - 1];
      ConflictMembers(s, emails[..|emails| - 1], id, e);
    }
  }

  lemma {:induction false} ConflictReason(s: seq<Account>, emails: seq<Email>, id: AccountId) returns (e: Email)
    requires ConflictsOf(s, emails, id) != []
    ensures e in emails && Claimants(s, e) != [] && id in Ids(Claimants(s, e)[1..])
  {
    e := emails[|emails| - 1];
    if !(Claimants(s, e) != [] && id in Ids(Claimants(s, e)[1..])) {
      e := ConflictReason(s, emails[..|emails| - 1], id);
    }
  }

  /** The owner of an address is the one account that claims it before all others. */
  lemma OwnerIsTheFirstClaimant(accounts: seq<Account>, e: Email, a: Account)
    requires DistinctIds(accounts)
    ensures Owner(accounts, e) == Some(a) <==>
            a in accounts && Claims(a, e) && forall b :: b in accounts && b != a && Claims(b, e) ==> Before(a, b)
    ensures Owner(accounts, e).None? <==> forall b :: b in accounts ==> !Claims(b, e)
  {
    var s := SortAccounts(accounts);
    SortIsOrdered(accounts);
    ClaimantsAreOrdered(s, e);
    EmailOrderMembers(s, e);
    var c := Claimants(s, e);
    if c != [] {
      assert c[0] in c;
      forall b | b in accounts && b != c[0] && Claims(b, e) ensures Before(c[0], b) && !Before(b, c[0]) {
        var k :| 0 <= k < |c| && c[k] == b;
        var i :| 0 <= i < |s| && s[i] == c[0];
        var j :| 0 <= j < |s| && s[j] == b;
        LessIsTotal(c[0].id, b.id);
      }
    }
  }

  /** So the owner of an address is the oldest account that claims it. */
  lemma OwnerIsTheOldest(accounts: seq<Account>, e: Email, a: Account)
    requires DistinctIds(accounts)
    ensures Owner(accounts, e) == Some(a) <==>
            a in accounts && Claims(a, e) && forall b :: b in accounts && b != a && Claims(b, e) ==> Older(a, b)
  {
    OwnerIsTheFirstClaimant(accounts, e, a);
    forall b ensures Before(a, b) <==> Older(a, b) {
      BeforeMeansOlder(a, b);
    }
  }

  lemma {:induction false} ConflictEntries(s: seq<Account>, emails: seq<Email>, id: AccountId, e: Email, owner: AccountId)
    ensures Conflict(e, owner) in ConflictsOf(s, emails, id) <==>
            && e in emails && Claimants(s, e) != [] && id in Ids(Claimants(s, e)[1..]) && owner == Claimants(s, e)[0].id
  {
    if emails != [] {
      var prefix, last := emails[..|emails| - 1], emails[|emails| - 1];
      ConflictEntries(s, prefix, id, e, owner);
      assert e in emails <==> e in prefix || e == last;
    }
  }

  lemma LaterClaimant(s: seq<Account>, e: Email, a: Account)
    requires Ordered(s) && DistinctIds(s) && a in s
    ensures var c := Claimants(s, e);
            c != [] ==> (a.id in Ids(c[1..]) <==> Claims(a, e) && c[0] != a)
  {
    ClaimantsAreOrdered(s, e);
    var c := Claimants(s, e);
    if c != [] && a.id in Ids(c[1..]) {
      var b :| b in c[1..] && b.id == a.id;
      assert b in c;
      SameIdSameAccount(s, a, b);
      var k :| 0 < k < |c| && c[k] == a;
      if c[0] == a {
        OrderedIsStrict(c, 0, k);
      }
    }
    if c != [] && Claims(a, e) && c[0] != a {
      assert a in c && a in c[1..];
    }
  }

  /** What is held against an account are exactly the addresses it claims that
      somebody else owns, each with its owner. */
  lemma ConflictsAreExact(accounts: seq<Account>, a: Account, e: Email, owner: AccountId)
    requires DistinctIds(accounts) && a in accounts
    ensures var conflicts := Assess(accounts).conflicts;
            (a.id in conflicts && Conflict(e, owner) in conflicts[a.id]) <==>
            && Claims(a, e) && Owner(accounts, e).Some? && Owner(accounts, e).value != a && Owner(accounts, e).value.id == owner
  {
    var s := SortAccounts(accounts);
    SortIsOrdered(accounts);
    SortKeepsDistinctIds(accounts);
    ConflictEntries(s, EmailOrder(s), a.id, e, owner);
    EmailOrderMembers(s, e);
    LaterClaimant(s, e, a);
    assert a.id in Ids(s);
    ClaimantsAreOrdered(s, e);
    assert Claims(a, e) ==> a in Claimants(s, e);
  }

  /** An account is eligible exactly when it owns every address it claims. */
  lemma EligibleMeansOwner(accounts: seq<Account>, a: Account)
    requires DistinctIds(accounts) && a in accounts
    ensures Eligible(accounts, a) <==> forall e :: Claims(a, e) ==> Owner(accounts, e) == Some(a)
  {
    var s := SortAccounts(accounts);
    SortIsOrdered(accounts);
    if !Eligible(accounts, a) {
      var e := ConflictReason(s, EmailOrder(s), a.id);
      ClaimantsAreOrdered(s, e);
      var c := Claimants(s, e);
      var b :| b in c[1..] && b.id == a.id;
      SameIdSameAccount(accounts, a, b);
      var k :| 0 < k < |c| && c[k] == a;
      if c[0] == a {
        OrderedIsStrict(c, 0, k);
      }
      assert Claims(a, e) && Owner(accounts, e) != Some(a);
    } else {
      forall e | Claims(a, e) ensures Owner(accounts, e) == Some(a) {
        ClaimantsAreOrdered(s, e);
        EmailOrderMembers(s, e);
        var c := Claimants(s, e);
        assert a in c;
        if c[0] != a {
          assert a in c[1..];
          assert a.id in Ids(c[1..]);
          ConflictMembers(s, EmailOrder(s), a.id, e);
        }
      }
    }
  }

  lemma SameIdSameAccount(accounts: seq<Account>, a: Account, b: Account)
    requires DistinctIds(accounts) && a in accounts && b in accounts && a.id == b.id
    ensures a == b
  {
    var i :| 0 <= i < |accounts| && accounts[i] == a;
    var j :| 0 <= j < |accounts| && accounts[j] == b;
  }

  /** Ownership is a function of the set of accounts: no listing order matters,
      not even for the order of the recorded conflicts. */
  lemma AnyListingAgrees(accounts: seq<Account>, other: seq<Account>)
    requires DistinctIds(accounts) && DistinctIds(other) && forall a :: a in accounts <==> a in other
    ensures Assess(accounts) == Assess(other)
  {
    SortIsOrdered(accounts);
    SortIsOrdered(other);
    OrderedIsUnique(SortAccounts(accounts), SortAccounts(other));
  }

  /** Two eligible accounts share no address. */
  lemma EligibleAccountsAreDisjoint(accounts: seq<Account>, a: Account, b: Account, e: Email)
    requires DistinctIds(accounts) && a in accounts && b in accounts && a != b
    requires Eligible(accounts, a) && Eligible(accounts, b)
    ensures !(Claims(a, e) && Claims(b, e))
  {
    EligibleMeansOwner(accounts, a);
    EligibleMeansOwner(accounts, b);
  }

  /** A later account takes no address away and costs nobody their eligibility. */
  lemma LaterAccountsChangeNothing(accounts: seq<Account>, late: Account, a: Account, e: Email)
    requires DistinctIds(accounts + [late]) && a in accounts
    requires forall b :: b in accounts ==> Older(b, late)
    ensures Owner(accounts, e).Some? ==> Owner(accounts + [late], e) == Owner(accounts, e)
    ensures Eligible(accounts + [late], a) <==> Eligible(accounts, a)
  {
    var all := accounts + [late];
    DistinctPrefix(accounts, late);
    forall b | b in accounts ensures Before(b, late) {
      BeforeMeansOlder(b, late);
    }
    forall f | Owner(accounts, f).Some? ensures Owner(all, f) == Owner(accounts, f) {
      OwnerIsTheFirstClaimant(accounts, f, Owner(accounts, f).value);
      OwnerIsTheFirstClaimant(all, f, Owner(accounts, f).value);
    }
    EligibleMeansOwner(accounts, a);
    EligibleMeansOwner(all, a);
    forall f | Claims(a, f) ensures Owner(accounts, f).Some? {
      OwnerIsTheFirstClaimant(accounts, f, a);
    }
  }

  lemma DistinctPrefix(accounts: seq<Account>, late: Account)
    requires DistinctIds(accounts + [late])
    ensures DistinctIds(accounts) && late !in accounts
  {
    forall i, j | 0 <= i < j < |accounts| ensures accounts[i].id != accounts[j].id {
      assert (accounts + [late])[i] == accounts[i] && (accounts + [late])[j] == accounts[j];
    }
    forall i | 0 <= i < |accounts| ensures accounts[i] != late {
      assert (accounts + [late])[i].id != (accounts + [late])[|accounts|].id;
    }
  }

  /** Removing accounts makes no eligible account ineligible. */
  lemma RemovalKeepsEligibility(accounts: seq<Account>, fewer: seq<Account>, a: Account)
    requires DistinctIds(accounts) && DistinctIds(fewer) && (forall b :: b in fewer ==> b in accounts) && a in fewer
    requires Eligible(accounts, a)
    ensures Eligible(fewer, a)
  {
    EligibleMeansOwner(accounts, a);
    EligibleMeansOwner(fewer, a);
    forall e | Claims(a, e) ensures Owner(fewer, e) == Some(a) {
      OwnerIsTheFirstClaimant(accounts, e, a);
      OwnerIsTheFirstClaimant(fewer, e, a);
    }
  }

  // ---- the assessment in the source's own form ---------------------------------------------

  // The Map of claimants after the accounts of s, and some addresses of one more.
  ghost predicate ClaimsSoFar(claims: map<Email, seq<Account>>, emails: seq<Email>, s: seq<Account>, next: Option<Account>, some: seq<Email>) {
    && (forall e :: e in claims <==> e in emails)
    && forall e :: e in claims ==>
         claims[e] == Claimants(s, e) + if next.Some? && e in some then [next.value] else []
  }

  method GatherClaims(ordered: seq<Account>) returns (emails: seq<Email>, claims: map<Email, seq<Account>>)
    ensures emails == EmailOrder(ordered)
    ensures ClaimsSoFar(claims, emails, ordered, None, [])
  {
    emails, claims := [], map[];
    for i := 0 to |ordered|
      invariant emails == EmailOrder(ordered[..i])
      invariant ClaimsSoFar(claims, emails, ordered[..i], None, [])
    {
      emails, claims := GatherClaimsOf(ordered[..i], ordered[i], claims);
      assert ordered[..i + 1] == ordered[..i] + [ordered[i]];
      OneMoreAccount(ordered[..i], ordered[i], emails, claims);
    }
    assert ordered[..|ordered|] == ordered;
  }

  method GatherClaimsOf(s: seq<Account>, account: Account, before: map<Email, seq<Account>>)
    returns (emails: seq<Email>, claims: map<Email, seq<Account>>)
    requires ClaimsSoFar(before, EmailOrder(s), s, None, [])
    ensures emails == Collected(EmailOrder(s), ClaimedEmails(account))
    ensures ClaimsSoFar(claims, emails, s, Some(account), ClaimedEmails(account))
  {
    var claimed := ClaimedEmails(account);
    emails, claims := EmailOrder(s), before;
    for j := 0 to |claimed|
      invariant emails == Collected(EmailOrder(s), claimed[..j])
      invariant ClaimsSoFar(claims, emails, s, Some(account), claimed[..j])
    {
      var e := claimed[j];
      OneMoreEmail(s, account, emails, claims, j);
      if e !in claims {
        emails := emails + [e];
        claims := claims[e := [account]];
      } else {
        claims := claims[e := claims[e] + [account]];
      }
    }
    assert claimed[..|claimed|] == claimed;
  }

  lemma OneMoreEmail(s: seq<Account>, account: Account, emails: seq<Email>, claims: map<Email, seq<Account>>, j: nat)
    requires j < |ClaimedEmails(account)| && emails == Collected(EmailOrder(s), ClaimedEmails(account)[..j])
    requires ClaimsSoFar(claims, emails, s, Some(account), ClaimedEmails(account)[..j])
    ensures var claimed := ClaimedEmails(account);
            var e := claimed[j];
            var emails' := if e in claims then emails else emails + [e];
            && Collected(EmailOrder(s), claimed[..j + 1]) == emails'
            && ClaimsSoFar(claims[e := (if e in claims then claims[e] else []) + [account]], emails', s, Some(account), claimed[..j + 1])
  {
    var claimed := ClaimedEmails(account);
    var e := claimed[j];
    assert claimed[..j + 1] == claimed[..j] + [e];
    assert Collected(EmailOrder(s), claimed[..j + 1]) == if e in emails then emails else emails + [e] by {
      assert claimed[..j + 1][..j] == claimed[..j];
    }
    NothingClaimedTwice(account, j);
    if e !in claims {
      NoClaimants(s, e, claimed[..j]);
    }
    OneMoreClaim(s, account, emails, claims, claimed[..j], e);
  }

  lemma OneMoreClaim(s: seq<Account>, account: Account, emails: seq<Email>, claims: map<Email, seq<Account>>, some: seq<Email>, e: Email)
    requires ClaimsSoFar(claims, emails, s, Some(account), some) && e !in some
    requires e !in claims ==> Claimants(s, e) == []
    ensures ClaimsSoFar(claims[e := (if e in claims then claims[e] else []) + [account]],
                        if e in claims then emails else emails + [e], s, Some(account), some + [e])
  {
    var after := claims[e := (if e in claims then claims[e] else []) + [account]];
    forall f | f in after ensures after[f] == Claimants(s, f) + if f in some + [e] then [account] else [] {
      assert f in some + [e] <==> f in some || f == e;
      if f != e {
        assert after[f] == claims[f];
      } else {
        FirstOrNext(claims, s, account, some, e);
      }
    }
    assert forall f :: f in emails + [e] <==> f in emails || f == e;
  }

  lemma FirstOrNext(claims: map<Email, seq<Account>>, s: seq<Account>, account: Account, some: seq<Email>, e: Email)
    requires e in claims ==> claims[e] == Claimants(s, e) + (if e in some then [account] else [])
    requires e !in some && (e !in claims ==> Claimants(s, e) == [])
    ensures (if e in claims then claims[e] else []) + [account] == Claimants(s, e) + [account]
  {
    assert Claimants(s, e) + [] == Claimants(s, e);
  }

  lemma OneMoreAccount(s: seq<Account>, account: Account, emails: seq<Email>, claims: map<Email, seq<Account>>)
    requires ClaimsSoFar(claims, emails, s, Some(account), ClaimedEmails(account))
    ensures EmailOrder(s + [account]) == Collected(EmailOrder(s), ClaimedEmails(account))
    ensures ClaimsSoFar(claims, emails, s + [account], None, [])
  {
    assert (s + [account])[..|s|] == s;
  }

  lemma {:induction false} CollectedIsDistinct(more: seq<Email>, i: nat, j: nat)
    requires i < j < |Collected([], more)|
    ensures Collected([], more)[i] != Collected([], more)[j]
    decreases |more|
  {
    var t := Collected([], more[..|more| - 1]);
    if j < |t| {
      CollectedIsDistinct(more[..|more| - 1], i, j);
    }
  }

  lemma NothingClaimedTwice(a: Account, j: nat)
    requires j < |ClaimedEmails(a)|
    ensures ClaimedEmails(a)[j] !in ClaimedEmails(a)[..j]
  {
    if ClaimedEmails(a)[j] in ClaimedEmails(a)[..j] {
      var i :| 0 <= i < j && ClaimedEmails(a)[i] == ClaimedEmails(a)[j];
      CollectedIsDistinct(
        Present([a.specEmail, a.companyEmail, a.passmowerEmail] + GithubAddresses(a.github) + UpstreamAddresses(a.identities)), i, j);
    }
  }

  lemma NoClaimants(s: seq<Account>, e: Email, some: seq<Email>)
    requires e !in Collected(EmailOrder(s), some)
    ensures Claimants(s, e) == [] && e !in some
  {
    CollectedMembers(EmailOrder(s), some, e);
    EmailOrderMembers(s, e);
    NobodyClaims(s, e);
  }

  lemma {:induction false} NobodyClaims(s: seq<Account>, e: Email)
    requires forall a :: a in s ==> !Claims(a, e)
    ensures Claimants(s, e) == []
    decreases |s|
  {
    if s != [] {
      assert s[|s| - 1] in s;
      forall a | a in s[..|s| - 1] ensures !Claims(a, e) {
        assert a in s;
      }
      NobodyClaims(s[..|s| - 1], e);
    }
  }

  // Conflicts after some addresses, and some duplicates of one more.
  ghost predicate ConflictsSoFar(conflicts: map<AccountId, seq<Conflict>>, s: seq<Account>, emails: seq<Email>,
                                 next: Conflict, some: set<AccountId>) {
    forall id ::
      var expected := if id in some then ConflictsOf(s, emails, id) + [next] else ConflictsOf(s, emails, id);
      && (id in conflicts <==> expected != [])
      && (id in conflicts ==> conflicts[id] == expected)
  }

  method AssessEmailOwnership(accounts: seq<Account>) returns (assessment: Assessment)
    requires DistinctIds(accounts)
    ensures assessment == Assess(accounts)
  {
    var ordered := SortAccounts(accounts);
    SortIsOrdered(accounts);
    SortKeepsDistinctIds(accounts);
    assessment := AssessInOrder(ordered);
  }

  method AssessInOrder(ordered: seq<Account>) returns (assessment: Assessment)
    requires Ordered(ordered) && DistinctIds(ordered)
    ensures assessment == AssessOrdered(ordered)
  {
    var emails, claims := GatherClaims(ordered);
    var owners, conflicts := map[], map[];
    for i := 0 to |emails|
      invariant OwnersSoFar(owners, ordered, emails[..i])
      invariant ConflictsSoFar(conflicts, ordered, emails[..i], Conflict("", ""), {})
    {
      var e := emails[i];
      ClaimedInOrder(ordered, claims, e);
      NextOwner(ordered, emails, i, owners);
      owners := owners[e := claims[e][0]];
      conflicts := AddConflicts(ordered, emails[..i], e, claims[e], conflicts);
    }
    assert emails[..|emails|] == emails;
    ConflictsAreComplete(ordered, conflicts);
    OwnersAreComplete(ordered, owners);
    assessment := Assessment(owners, conflicts);
  }

  ghost predicate OwnersSoFar(owners: map<Email, Account>, s: seq<Account>, emails: seq<Email>) {
    && (forall e :: e in owners <==> e in emails)
    && forall e :: e in owners ==> Claimants(s, e) != [] && owners[e] == Claimants(s, e)[0]
  }

  lemma ClaimedInOrder(s: seq<Account>, claims: map<Email, seq<Account>>, e: Email)
    requires Ordered(s) && e in EmailOrder(s) && ClaimsSoFar(claims, EmailOrder(s), s, None, [])
    ensures e in claims && claims[e] == Claimants(s, e) != []
  {
    ClaimedBySomebody(s, e);
  }

  lemma NextOwner(s: seq<Account>, emails: seq<Email>, i: nat, owners: map<Email, Account>)
    requires i < |emails| && OwnersSoFar(owners, s, emails[..i]) && Claimants(s, emails[i]) != []
    ensures emails[..i + 1] == emails[..i] + [emails[i]]
    ensures OwnersSoFar(owners[emails[i] := Claimants(s, emails[i])[0]], s, emails[..i + 1])
  {
  }

  lemma OwnersAreComplete(s: seq<Account>, owners: map<Email, Account>)
    requires OwnersSoFar(owners, s, EmailOrder(s))
    ensures owners == AssessOrdered(s).owners
  {
  }

  // The inner loop: everyone but the owner gets one entry for this address.
  method AddConflicts(ghost ordered: seq<Account>, ghost emails: seq<Email>, e: Email,
                      claimants: seq<Account>, before: map<AccountId, seq<Conflict>>)
    returns (conflicts: map<AccountId, seq<Conflict>>)
    requires Ordered(ordered) && DistinctIds(ordered)
    requires claimants == Claimants(ordered, e) != []
    requires ConflictsSoFar(before, ordered, emails, Conflict("", ""), {})
    ensures ConflictsSoFar(conflicts, ordered, emails + [e], Conflict("", ""), {})
  {
    conflicts := before;
    var entry := Conflict(e, claimants[0].id);
    for k := 1 to |claimants|
      invariant ConflictsSoFar(conflicts, ordered, emails, entry, Ids(claimants[1..k]))
    {
      var duplicate := claimants[k].id;
      ClaimantsHaveDistinctIds(ordered, e, k);
      IdsOfOneMore(claimants, k);
      OneMoreConflict(conflicts, ordered, emails, entry, Ids(claimants[1..k]), duplicate);
      var entries := if duplicate in conflicts then conflicts[duplicate] else [];
      conflicts := conflicts[duplicate := entries + [entry]];
    }
    assert claimants[1..|claimants|] == claimants[1..];
    NextAddress(ordered, emails, e, conflicts);
  }

  lemma OneMoreConflict(conflicts: map<AccountId, seq<Conflict>>, s: seq<Account>, emails: seq<Email>,
                        next: Conflict, some: set<AccountId>, id: AccountId)
    requires ConflictsSoFar(conflicts, s, emails, next, some) && id !in some
    ensures ConflictsSoFar(conflicts[id := (if id in conflicts then conflicts[id] else []) + [next]], s, emails, next, some + {id})
  {
  }

  lemma NextAddress(s: seq<Account>, emails: seq<Email>, e: Email, conflicts: map<AccountId, seq<Conflict>>)
    requires Claimants(s, e) != []
    requires ConflictsSoFar(conflicts, s, emails, Conflict(e, Claimants(s, e)[0].id), Ids(Claimants(s, e)[1..]))
    ensures ConflictsSoFar(conflicts, s, emails + [e], Conflict("", ""), {})
  {
    assert (emails + [e])[..|emails|] == emails;
  }

  lemma ConflictsAreComplete(ordered: seq<Account>, conflicts: map<AccountId, seq<Conflict>>)
    requires Ordered(ordered) && ConflictsSoFar(conflicts, ordered, EmailOrder(ordered), Conflict("", ""), {})
    ensures conflicts == AssessOrdered(ordered).conflicts
  {
    forall id | id in conflicts ensures id in Ids(ordered) {
      var e := ConflictReason(ordered, EmailOrder(ordered), id);
      ClaimantsAreOrdered(ordered, e);
      var a :| a in Claimants(ordered, e)[1..] && a.id == id;
      assert a in Claimants(ordered, e);
    }
  }

  lemma ClaimedBySomebody(s: seq<Account>, e: Email)
    requires Ordered(s) && e in EmailOrder(s)
    ensures Claimants(s, e) != []
  {
    EmailOrderMembers(s, e);
    ClaimantsAreOrdered(s, e);
    var a :| a in s && Claims(a, e);
    assert a in Claimants(s, e);
  }

  lemma ClaimantsHaveDistinctIds(s: seq<Account>, e: Email, k: nat)
    requires Ordered(s) && DistinctIds(s) && 0 < k < |Claimants(s, e)|
    ensures var c := Claimants(s, e); c[k].id !in Ids(c[1..k])
  {
    ClaimantsAreOrdered(s, e);
    var c := Claimants(s, e);
    if a :| a in c[1..k] && a.id == c[k].id {
      assert a in c && c[k] in c;
      SameIdSameAccount(s, a, c[k]);
      var i :| 1 <= i < k && c[i] == a;
      OrderedIsStrict(c, i, k);
    }
  }

  lemma IdsOfOneMore(c: seq<Account>, k: nat)
    requires 0 < k < |c|
    ensures Ids(c[1..k + 1]) == Ids(c[1..k]) + {c[k].id}
  {
    assert c[1..k + 1] == c[1..k] + [c[k]];
  }

  lemma SortKeepsDistinctIds(accounts: seq<Account>)
    requires DistinctIds(accounts)
    ensures DistinctIds(SortAccounts(accounts))
  {
    SortIsOrdered(accounts);
    var s := SortAccounts(accounts);
    forall i, j | 0 <= i < j < |s| ensures s[i].id != s[j].id {
      assert s[i] in s && s[j] in s;
      if s[i].id == s[j].id {
        SameIdSameAccount(accounts, s[i], s[j]);
        OrderedIsStrict(s, i, j);
      }
    }
  }

  // ---- recording eligibility ------------------------------------------------------------------

  // The EmailUnique condition; its message spells out the conflicts.
  datatype Condition = Condition(unique: bool, conflicts: seq<Conflict>)

  function VerdictOn(conflicts: map<AccountId, seq<Conflict>>, id: AccountId): Condition {
    if id in conflicts then Condition(false, conflicts[id]) else Condition(true, [])
  }

  // Something else, or nothing, is recorded for the account.
  predicate Due(conflicts: map<AccountId, seq<Conflict>>, conditions: map<AccountId, Condition>, id: AccountId) {
    id in conditions ==> conditions[id] != VerdictOn(conflicts, id)
  }

  // The conditions after a pass over the accounts whose ids are in `seen`.
  function PassedOver(conflicts: map<AccountId, seq<Conflict>>, before: map<AccountId, Condition>,
                      seen: set<AccountId>, failing: set<AccountId>): map<AccountId, Condition> {
    map id | id in before.Keys + (seen - failing) ::
      if id in seen && id !in failing then VerdictOn(conflicts, id) else before[id]
  }

  ghost function Touched(conflicts: map<AccountId, seq<Conflict>>, before: map<AccountId, Condition>, ids: set<AccountId>): set<AccountId> {
    set id | id in ids && Due(conflicts, before, id)
  }

  lemma OneMoreVerdict(conflicts: map<AccountId, seq<Conflict>>, before: map<AccountId, Condition>,
                       seen: set<AccountId>, failing: set<AccountId>, id: AccountId)
    requires id !in seen
    ensures var now := PassedOver(conflicts, before, seen, failing);
            && (id in now <==> id in before) && (id in now ==> now[id] == before[id])
            && PassedOver(conflicts, before, seen + {id}, failing) ==
               (if id in failing then now else now[id := VerdictOn(conflicts, id)])
            && (!Due(conflicts, before, id) ==> PassedOver(conflicts, before, seen + {id}, failing) == now)
    ensures Touched(conflicts, before, (seen + {id}) - failing) ==
            Touched(conflicts, before, seen - failing) + if Due(conflicts, before, id) && id !in failing then {id} else {}
    ensures Touched(conflicts, before, (seen + {id}) * failing) ==
            Touched(conflicts, before, seen * failing) + if Due(conflicts, before, id) && id in failing then {id} else {}
  {
  }

  /** What a pass leaves recorded, in plain terms. An account it could write to has
      its verdict: unique exactly if eligible, with everything held against it.
      Everybody else's condition is as it was. It is written, or the write
      failed, exactly where something else was recorded. */
  lemma PassRecordsExactly(accounts: seq<Account>, before: map<AccountId, Condition>, failing: set<AccountId>, a: Account, id: AccountId)
    requires DistinctIds(accounts) && a in accounts
    ensures var conflicts := Assess(accounts).conflicts;
            var after := PassedOver(conflicts, before, Ids(accounts), failing);
            && (a.id !in failing ==>
                  && a.id in after && (after[a.id].unique <==> Eligible(accounts, a))
                  && forall e, owner :: Conflict(e, owner) in after[a.id].conflicts <==>
                       Claims(a, e) && Owner(accounts, e).Some? && Owner(accounts, e).value != a && Owner(accounts, e).value.id == owner)
            && (id in failing || (forall b :: b in accounts ==> b.id != id) ==>
                  (id in after <==> id in before) && (id in before ==> after[id] == before[id]))
            && (a.id in Touched(conflicts, before, Ids(accounts) - failing) <==>
                  a.id !in failing && (a.id !in before || before[a.id] != after[a.id]))
  {
    forall e, owner
      ensures (a.id in Assess(accounts).conflicts && Conflict(e, owner) in Assess(accounts).conflicts[a.id]) <==>
              Claims(a, e) && Owner(accounts, e).Some? && Owner(accounts, e).value != a && Owner(accounts, e).value.id == owner
    {
      ConflictsAreExact(accounts, a, e, owner);
    }
    assert a.id in Ids(accounts);
  }

  /** The stored conditions, and whom a pass wrote to or failed on. */
  class ConditionStore {
    var conditions: map<AccountId, Condition>
    var written: set<AccountId>
    var failed: set<AccountId>

    constructor ()
      ensures conditions == map[] && written == {} && failed == {}
    {
      conditions, written, failed := map[], {}, {};
    }

    // A pass leaves every account it could write with its verdict, and writes
    // only where something else was recorded.
    method ReconcileEmailUniqueness(accounts: seq<Account>, failing: set<AccountId>)
      requires DistinctIds(accounts)
      modifies this
      ensures conditions == PassedOver(Assess(accounts).conflicts, old(conditions), Ids(accounts), failing)
      ensures written == set id | id in Ids(accounts) - failing && Due(Assess(accounts).conflicts, old(conditions), id)
      ensures failed == set id | id in Ids(accounts) * failing && Due(Assess(accounts).conflicts, old(conditions), id)
    {
      var assessment := AssessEmailOwnership(accounts);
      RecordVerdicts(accounts, assessment.conflicts, failing);
    }

    method RecordVerdicts(accounts: seq<Account>, conflicts: map<AccountId, seq<Conflict>>, failing: set<AccountId>)
      requires DistinctIds(accounts)
      modifies this
      ensures conditions == PassedOver(conflicts, old(conditions), Ids(accounts), failing)
      ensures written == set id | id in Ids(accounts) - failing && Due(conflicts, old(conditions), id)
      ensures failed == set id | id in Ids(accounts) * failing && Due(conflicts, old(conditions), id)
    {
      written, failed := {}, {};
      for i := 0 to |accounts|
        invariant conditions == PassedOver(conflicts, old(conditions), Ids(accounts[..i]), failing)
        invariant written == Touched(conflicts, old(conditions), Ids(accounts[..i]) - failing)
        invariant failed == Touched(conflicts, old(conditions), Ids(accounts[..i]) * failing)
      {
        var id := accounts[i].id;
        NextId(accounts, i);
        OneMoreVerdict(conflicts, old(conditions), Ids(accounts[..i]), failing, id);
        var verdict := VerdictOn(conflicts, id);
        if id in conditions && conditions[id] == verdict {
          continue;
        }
        if id in failing {
          failed := failed + {id};
        } else {
          conditions := conditions[id := verdict];
          written := written + {id};
        }
      }
      assert accounts[..|accounts|] == accounts;
    }

    // A second pass over the same accounts has nothing to write, and what is
    // recorded is exactly eligibility.
    method ReconcileTwice(accounts: seq<Account>)
      requires DistinctIds(accounts)
      modifies this
      ensures written == {} && failed == {}
      ensures forall a :: a in accounts ==> a.id in conditions && (conditions[a.id].unique <==> Eligible(accounts, a))
    {
      ReconcileEmailUniqueness(accounts, {});
      ReconcileEmailUniqueness(accounts, {});
      forall a | a in accounts ensures a.id in Ids(accounts) {
      }
    }
  }

  lemma NextId(accounts: seq<Account>, i: nat)
    requires DistinctIds(accounts) && i < |accounts|
    ensures accounts[i].id !in Ids(accounts[..i])
    ensures Ids(accounts[..i + 1]) == Ids(accounts[..i]) + {accounts[i].id}
  {
    assert accounts[..i + 1] == accounts[..i] + [accounts[i]];
  }
}
