/**
  Resolving a sign-in to an account (src/models/account.js and the lookups of
  src/services/kube-oidc-user-service.js).

  `trusted` is the set of upstream providers whose addresses the operator trusts.
 */
module LoginResolution {
  import opened Wrappers
  import opened EmailOwnership

  // ---- evidence that somebody controls an address -------------------------------------

  function StatusOf(verified: Option<bool>): Status {
    match verified
    case Some(true) => Verified
    case Some(false) => Unverified
    case None => Unknown
  }

  function Recorded(s: seq<Evidence>): seq<Evidence>
    decreases |s|
  {
    if s == [] then []
    else Recorded(s[..|s| - 1]) + if s[|s| - 1].means == MagicLink then [s[|s| - 1]] else []
  }

  function GithubEvidence(s: seq<GithubEmail>): seq<Evidence>
    decreases |s|
  {
    if s == [] then []
    else
      var last := s[|s| - 1];
      GithubEvidence(s[..|s| - 1])
      + if last.email.Some? then [Evidence(last.email.value, StatusOf(last.verified), GithubApi, "github")] else []
  }

  // An item that was trusted counts for nothing once its provider no longer is.
  function IdentityEvidenceOf(provider: string, item: IdentityEmail, trusted: set<string>): seq<Evidence> {
    if item.email.None? then []
    else if item.trusted then
      [Evidence(item.email.value, StatusOf(if provider in trusted then item.verified else None), OperatorTrust, provider)]
    else
      [Evidence(item.email.value, StatusOf(item.verified), OidcClaim, provider)]
  }

  function IdentityEvidence(provider: string, s: seq<IdentityEmail>, trusted: set<string>): seq<Evidence>
    decreases |s|
  {
    if s == [] then []
    else IdentityEvidence(provider, s[..|s| - 1], trusted) + IdentityEvidenceOf(provider, s[|s| - 1], trusted)
  }

  function UpstreamEvidence(s: seq<Identity>, trusted: set<string>): seq<Evidence>
    decreases |s|
  {
    if s == [] then []
    else
      var last := s[|s| - 1];
      UpstreamEvidence(s[..|s| - 1], trusted)
      + if last.active then IdentityEvidence(last.provider, last.emails, trusted) else []
  }

  function RawEvidence(a: Account, trusted: set<string>): seq<Evidence> {
    Recorded(a.recorded) + GithubEvidence(a.github) + UpstreamEvidence(a.identities, trusted)
  }

  predicate SameKey(x: Evidence, y: Evidence) {
    x.email == y.email && x.means == y.means && x.provider == y.provider
  }

  // Map.set: an item already there under the same key is replaced in its place.
  function Put(s: seq<Evidence>, item: Evidence): seq<Evidence> {
    if s == [] then [item]
    else if SameKey(s[0], item) then [item] + s[1..]
    else [s[0]] + Put(s[1..], item)
  }

  function Kept(s: seq<Evidence>): seq<Evidence>
    decreases |s|
  {
    if s == [] then [] else Put(Kept(s[..|s| - 1]), s[|s| - 1])
  }

  function Verifications(a: Account, trusted: set<string>): seq<Evidence> {
    Kept(RawEvidence(a, trusted))
  }

  /** getEmailVerifications as the source computes it: one pass over each kind
      of evidence, then a Map that keeps the last item of every key. */
  method GetEmailVerifications(a: Account, trusted: set<string>) returns (verifications: seq<Evidence>)
    ensures verifications == Verifications(a, trusted)
  {
    var evidence := [];
    for i := 0 to |a.recorded|
      invariant evidence == Recorded(a.recorded[..i])
    {
      assert a.recorded[..i + 1][..i] == a.recorded[..i];
      if a.recorded[i].means == MagicLink {
        evidence := evidence + [a.recorded[i]];
      }
    }
    assert a.recorded[..|a.recorded|] == a.recorded;
    ghost var recorded := evidence;
    for i := 0 to |a.github|
      invariant evidence == recorded + GithubEvidence(a.github[..i])
    {
      assert a.github[..i + 1][..i] == a.github[..i];
      var item := a.github[i];
      if item.email.Some? {
        evidence := evidence + [Evidence(item.email.value, StatusOf(item.verified), GithubApi, "github")];
      }
    }
    assert a.github[..|a.github|] == a.github;
    evidence := AddUpstreamEvidence(evidence, a.identities, trusted);
    verifications := [];
    for i := 0 to |evidence|
      invariant verifications == Kept(evidence[..i])
    {
      assert evidence[..i + 1][..i] == evidence[..i];
      verifications := Put(verifications, evidence[i]);
    }
    assert evidence[..|evidence|] == evidence;
  }

  method AddUpstreamEvidence(before: seq<Evidence>, identities: seq<Identity>, trusted: set<string>) returns (evidence: seq<Evidence>)
    ensures evidence == before + UpstreamEvidence(identities, trusted)
  {
    evidence := before;
    for i := 0 to |identities|
      invariant evidence == before + UpstreamEvidence(identities[..i], trusted)
    {
      assert identities[..i + 1][..i] == identities[..i];
      var identity := identities[i];
      if !identity.active {
        continue;
      }
      evidence := AddIdentityEvidence(evidence, identity, trusted);
    }
    assert identities[..|identities|] == identities;
  }

  method AddIdentityEvidence(before: seq<Evidence>, identity: Identity, trusted: set<string>) returns (evidence: seq<Evidence>)
    ensures evidence == before + IdentityEvidence(identity.provider, identity.emails, trusted)
  {
    evidence := before;
    for j := 0 to |identity.emails|
      invariant evidence == before + IdentityEvidence(identity.provider, identity.emails[..j], trusted)
    {
      assert identity.emails[..j + 1][..j] == identity.emails[..j];
      evidence := evidence + IdentityEvidenceOf(identity.provider, identity.emails[j], trusted);
    }
    assert identity.emails[..|identity.emails|] == identity.emails;
  }

  ghost predicate DistinctKeys(s: seq<Evidence>) {
    forall i, j :: 0 <= i < j < |s| ==> !SameKey(s[i], s[j])
  }

  // The newest item of its key.
  ghost predicate LastOfKey(s: seq<Evidence>, i: int) {
    0 <= i < |s| && forall j :: i < j < |s| ==> !SameKey(s[j], s[i])
  }

  ghost predicate IsNewest(s: seq<Evidence>, x: Evidence) {
    exists i :: LastOfKey(s, i) && s[i] == x
  }

  lemma {:induction false} PutMembers(s: seq<Evidence>, item: Evidence, x: Evidence)
    requires DistinctKeys(s)
    ensures x in Put(s, item) <==> x == item || (x in s && !SameKey(x, item))
    ensures DistinctKeys(Put(s, item))
  {
    if s != [] && !SameKey(s[0], item) {
      var rest := Put(s[1..], item);
      PutMembers(s[1..], item, x);
      assert x in s <==> x == s[0] || x in s[1..];
      forall j | 0 <= j < |rest| ensures !SameKey(s[0], rest[j]) {
        PutMembers(s[1..], item, rest[j]);
        assert rest[j] in rest;
      }
    } else if s != [] {
      assert x in s <==> x == s[0] || x in s[1..];
      assert forall y :: y in s[1..] ==> !SameKey(s[0], y);
    }
  }

  lemma {:induction false} KeptKeysAreDistinct(s: seq<Evidence>)
    ensures DistinctKeys(Kept(s))
    decreases |s|
  {
    if s != [] {
      KeptKeysAreDistinct(s[..|s| - 1]);
      PutMembers(Kept(s[..|s| - 1]), s[|s| - 1], s[|s| - 1]);
    }
  }

  /** What is kept is, for every key, exactly its newest item. */
  lemma {:induction false} KeptMembers(s: seq<Evidence>, x: Evidence)
    ensures x in Kept(s) <==> IsNewest(s, x)
    decreases |s|
  {
    if s != [] {
      var prefix, last := s[..|s| - 1], s[|s| - 1];
      KeptMembers(prefix, x);
      KeptKeysAreDistinct(prefix);
      PutMembers(Kept(prefix), last, x);
      NewestSoFar(prefix, last, x);
      assert s == prefix + [last];
    }
  }

  lemma NewestSoFar(s: seq<Evidence>, last: Evidence, x: Evidence)
    ensures IsNewest(s + [last], x) <==> x == last || (!SameKey(x, last) && IsNewest(s, x))
  {
    var t := s + [last];
    assert LastOfKey(t, |s|);
    if i :| LastOfKey(t, i) && t[i] == x && x != last {
      assert !SameKey(t[|s|], t[i]);
      assert forall j :: i < j < |s| ==> s[j] == t[j];
      assert LastOfKey(s, i);
    }
    if i :| LastOfKey(s, i) && s[i] == x && !SameKey(x, last) {
      assert LastOfKey(t, i);
    }
  }

  // ---- linkable addresses ---------------------------------------------------------------

  predicate Asserts(i: Identity, e: Email) {
    exists k :: 0 <= k < |i.emails| && i.emails[k].email == Some(e)
  }

  predicate ProvedFor(a: Account, e: Email, trusted: set<string>) {
    exists k :: 0 <= k < |Verifications(a, trusted)| && Verifications(a, trusted)[k].email == e
                && Verifications(a, trusted)[k].status == Verified
  }

  predicate IsEmailLinkable(a: Account, e: Email, trusted: set<string>) {
    Claims(a, e)
    && (ProvedFor(a, e, trusted)
        || a.specEmail == Some(e) || a.companyEmail == Some(e)
        || !exists k :: 0 <= k < |a.identities| && Asserts(a.identities[k], e))
  }

  // ---- the evidence by the account's own fields ---------------------------------------------

  // What `verified` being true, false or absent is taken for.
  ghost predicate Says(verified: Option<bool>, status: Status) {
    match status
    case Verified => verified == Some(true)
    case Unverified => verified == Some(false)
    case Unknown => verified.None?
  }

  predicate IsMagicLink(x: Evidence, e: Email, provider: string) {
    x.means == MagicLink && x.email == e && x.provider == provider
  }

  ghost predicate LastMagicLinkAt(s: seq<Evidence>, e: Email, provider: string, i: int) {
    0 <= i < |s| && IsMagicLink(s[i], e, provider) && forall j :: i < j < |s| ==> !IsMagicLink(s[j], e, provider)
  }

  // The last magic-link item of that provider for the address says so.
  ghost predicate LastMagicLink(s: seq<Evidence>, e: Email, provider: string, status: Status) {
    exists i :: LastMagicLinkAt(s, e, provider, i) && s[i].status == status
  }

  // GitHub's last item for the address.
  ghost predicate LastGithub(s: seq<GithubEmail>, e: Email, status: Status) {
    exists i :: 0 <= i < |s| && s[i].email == Some(e) && Says(s[i].verified, status)
                && forall j :: i < j < |s| ==> s[j].email != Some(e)
  }

  // An identity's item for the address, by operator trust or by the upstream's claim.
  predicate IsItem(item: IdentityEmail, e: Email, byTrust: bool) {
    item.email == Some(e) && item.trusted == byTrust
  }

  ghost predicate NoItem(s: seq<IdentityEmail>, e: Email, byTrust: bool) {
    forall k :: 0 <= k < |s| ==> !IsItem(s[k], e, byTrust)
  }

  ghost predicate LastItemAt(s: seq<IdentityEmail>, e: Email, byTrust: bool, k: int) {
    0 <= k < |s| && IsItem(s[k], e, byTrust) && forall j :: k < j < |s| ==> !IsItem(s[j], e, byTrust)
  }

  // What operator trust says counts only if the provider is trusted today.
  ghost predicate ItemSays(item: IdentityEmail, byTrust: bool, trustedToday: bool, status: Status) {
    if byTrust && !trustedToday then status == Unknown else Says(item.verified, status)
  }

  // Its last such item says so.
  ghost predicate LastItem(s: seq<IdentityEmail>, e: Email, byTrust: bool, trustedToday: bool, status: Status) {
    exists k :: LastItemAt(s, e, byTrust, k) && ItemSays(s[k], byTrust, trustedToday, status)
  }

  ghost predicate Speaks(i: Identity, e: Email, provider: string, byTrust: bool) {
    i.active && i.provider == provider && !NoItem(i.emails, e, byTrust)
  }

  ghost predicate LastSpeaker(s: seq<Identity>, e: Email, provider: string, byTrust: bool, j: int) {
    0 <= j < |s| && Speaks(s[j], e, provider, byTrust) && forall i :: j < i < |s| ==> !Speaks(s[i], e, provider, byTrust)
  }

  // The last active identity of that provider with such an item says so.
  ghost predicate LastUpstream(s: seq<Identity>, e: Email, provider: string, byTrust: bool, trusted: set<string>, status: Status) {
    exists j :: LastSpeaker(s, e, provider, byTrust, j) && LastItem(s[j].emails, e, byTrust, provider in trusted, status)
  }

  function LastIn(s: seq<Evidence>, e: Email, means: Means, provider: string): Option<Status>
    decreases |s|
  {
    if s == [] then None
    else
      var last := s[|s| - 1];
      if last.email == e && last.means == means && last.provider == provider then Some(last.status)
      else LastIn(s[..|s| - 1], e, means, provider)
  }

  lemma {:induction false} KeptByKey(s: seq<Evidence>, x: Evidence)
    ensures x in Kept(s) <==> LastIn(s, x.email, x.means, x.provider) == Some(x.status)
    decreases |s|
  {
    if s != [] {
      KeptByKey(s[..|s| - 1], x);
      KeptKeysAreDistinct(s[..|s| - 1]);
      PutMembers(Kept(s[..|s| - 1]), s[|s| - 1], x);
    }
  }

  lemma {:induction false} LastInConcat(a: seq<Evidence>, b: seq<Evidence>, e: Email, means: Means, provider: string)
    ensures LastIn(a + b, e, means, provider) ==
            if LastIn(b, e, means, provider).Some? then LastIn(b, e, means, provider) else LastIn(a, e, means, provider)
    decreases |b|
  {
    if b == [] {
      assert a + b == a;
    } else {
      assert (a + b)[..|a + b| - 1] == a + b[..|b| - 1];
      LastInConcat(a, b[..|b| - 1], e, means, provider);
    }
  }

  lemma LastInOne(x: Evidence, e: Email, means: Means, provider: string)
    ensures LastIn([x], e, means, provider) ==
            if x.email == e && x.means == means && x.provider == provider then Some(x.status) else None
  {
    assert [x][..0] == [];
  }

  lemma {:induction false} RecordedLast(s: seq<Evidence>, e: Email, means: Means, provider: string, status: Status)
    ensures LastIn(Recorded(s), e, means, provider) == Some(status) <==> means == MagicLink && LastMagicLink(s, e, provider, status)
    decreases |s|
  {
    if s != [] {
      var prefix, last := s[..|s| - 1], s[|s| - 1];
      RecordedLast(prefix, e, means, provider, status);
      LastInConcat(Recorded(prefix), if last.means == MagicLink then [last] else [], e, means, provider);
      LastInOne(last, e, means, provider);
      MagicLinkAppend(prefix, last, e, provider, status);
      assert s == prefix + [last];
    }
  }

  lemma MagicLinkAppend(s: seq<Evidence>, last: Evidence, e: Email, provider: string, status: Status)
    ensures LastMagicLink(s + [last], e, provider, status) <==>
            if IsMagicLink(last, e, provider) then last.status == status else LastMagicLink(s, e, provider, status)
  {
    var t := s + [last];
    assert t[|s|] == last && forall k :: 0 <= k < |s| ==> s[k] == t[k];
    forall i ensures LastMagicLinkAt(t, e, provider, i) <==>
                     if IsMagicLink(last, e, provider) then i == |s| else LastMagicLinkAt(s, e, provider, i)
    {
    }
  }

  lemma SaysStatus(verified: Option<bool>, status: Status)
    ensures StatusOf(verified) == status <==> Says(verified, status)
  {
  }

  lemma {:induction false} GithubLast(s: seq<GithubEmail>, e: Email, means: Means, provider: string, status: Status)
    ensures LastIn(GithubEvidence(s), e, means, provider) == Some(status) <==>
            means == GithubApi && provider == "github" && LastGithub(s, e, status)
    decreases |s|
  {
    if s != [] {
      var prefix, last := s[..|s| - 1], s[|s| - 1];
      GithubLast(prefix, e, means, provider, status);
      if last.email.Some? {
        var x := Evidence(last.email.value, StatusOf(last.verified), GithubApi, "github");
        LastInConcat(GithubEvidence(prefix), [x], e, means, provider);
        LastInOne(x, e, means, provider);
      } else {
        assert GithubEvidence(s) == GithubEvidence(prefix);
      }
      GithubAppend(prefix, last, e, status);
      SaysStatus(last.verified, status);
      assert s == prefix + [last];
    }
  }

  lemma GithubAppend(s: seq<GithubEmail>, last: GithubEmail, e: Email, status: Status)
    ensures LastGithub(s + [last], e, status) <==> if last.email == Some(e) then Says(last.verified, status) else LastGithub(s, e, status)
  {
    var t := s + [last];
    assert t[|s|] == last;
    if i :| 0 <= i < |s| && s[i].email == Some(e) && Says(s[i].verified, status) && forall j :: i < j < |s| ==> s[j].email != Some(e) {
      assert t[i] == s[i];
    }
    if i :| 0 <= i < |t| && t[i].email == Some(e) && Says(t[i].verified, status) && forall j :: i < j < |t| ==> t[j].email != Some(e) {
      if i < |s| {
        assert s[i] == t[i];
        assert forall j :: i < j < |s| ==> s[j] == t[j];
      }
    }
  }

  // Means an identity's items are evidence by.
  function ItemMeans(byTrust: bool): Means {
    if byTrust then OperatorTrust else OidcClaim
  }

  lemma {:induction false} IdentityLast(p: string, s: seq<IdentityEmail>, trusted: set<string>, e: Email, byTrust: bool, provider: string, status: Status)
    ensures LastIn(IdentityEvidence(p, s, trusted), e, ItemMeans(byTrust), provider) == Some(status) <==>
            p == provider && LastItem(s, e, byTrust, provider in trusted, status)
    ensures LastIn(IdentityEvidence(p, s, trusted), e, ItemMeans(byTrust), provider).None? <==> p != provider || NoItem(s, e, byTrust)
    decreases |s|
  {
    if s != [] {
      var prefix, last := s[..|s| - 1], s[|s| - 1];
      IdentityLast(p, prefix, trusted, e, byTrust, provider, status);
      var x := IdentityEvidenceOf(p, last, trusted);
      LastInConcat(IdentityEvidence(p, prefix, trusted), x, e, ItemMeans(byTrust), provider);
      if x != [] {
        assert x == [x[0]];
        LastInOne(x[0], e, ItemMeans(byTrust), provider);
      }
      SaysStatus(if last.trusted && p !in trusted then None else last.verified, status);
      ItemAppend(prefix, last, e, byTrust, provider in trusted, status);
      assert s == prefix + [last];
    }
  }

  lemma LastItemAtAppend(s: seq<IdentityEmail>, last: IdentityEmail, e: Email, byTrust: bool, k: int)
    ensures LastItemAt(s + [last], e, byTrust, k) <==> if IsItem(last, e, byTrust) then k == |s| else LastItemAt(s, e, byTrust, k)
  {
    var t := s + [last];
    assert t[|s|] == last && forall j :: 0 <= j < |s| ==> s[j] == t[j];
  }

  lemma ItemAppend(s: seq<IdentityEmail>, last: IdentityEmail, e: Email, byTrust: bool, trustedToday: bool, status: Status)
    ensures LastItem(s + [last], e, byTrust, trustedToday, status) <==>
            if IsItem(last, e, byTrust) then ItemSays(last, byTrust, trustedToday, status)
            else LastItem(s, e, byTrust, trustedToday, status)
    ensures NoItem(s + [last], e, byTrust) <==> NoItem(s, e, byTrust) && !IsItem(last, e, byTrust)
  {
    var t := s + [last];
    assert t[|s|] == last && forall k :: 0 <= k < |s| ==> s[k] == t[k];
    forall k ensures LastItemAt(t, e, byTrust, k) <==> if IsItem(last, e, byTrust) then k == |s| else LastItemAt(s, e, byTrust, k) {
      LastItemAtAppend(s, last, e, byTrust, k);
    }
  }

  lemma {:induction false} UpstreamLast(s: seq<Identity>, trusted: set<string>, e: Email, byTrust: bool, provider: string, status: Status)
    ensures LastIn(UpstreamEvidence(s, trusted), e, ItemMeans(byTrust), provider) == Some(status) <==>
            LastUpstream(s, e, provider, byTrust, trusted, status)
    decreases |s|
  {
    if s != [] {
      var prefix, last := s[..|s| - 1], s[|s| - 1];
      UpstreamLast(prefix, trusted, e, byTrust, provider, status);
      if last.active {
        LastInConcat(UpstreamEvidence(prefix, trusted), IdentityEvidence(last.provider, last.emails, trusted), e, ItemMeans(byTrust), provider);
        IdentityLast(last.provider, last.emails, trusted, e, byTrust, provider, status);
      } else {
        assert UpstreamEvidence(s, trusted) == UpstreamEvidence(prefix, trusted);
      }
      UpstreamAppend(prefix, last, e, provider, byTrust, trusted, status);
      assert s == prefix + [last];
    }
  }

  lemma LastSpeakerAppend(s: seq<Identity>, last: Identity, e: Email, provider: string, byTrust: bool, j: int)
    ensures LastSpeaker(s + [last], e, provider, byTrust, j) <==>
            if Speaks(last, e, provider, byTrust) then j == |s| else LastSpeaker(s, e, provider, byTrust, j)
  {
    var t := s + [last];
    assert t[|s|] == last && forall k :: 0 <= k < |s| ==> s[k] == t[k];
  }

  lemma UpstreamAppend(s: seq<Identity>, last: Identity, e: Email, provider: string, byTrust: bool, trusted: set<string>, status: Status)
    ensures LastUpstream(s + [last], e, provider, byTrust, trusted, status) <==>
            if Speaks(last, e, provider, byTrust) then LastItem(last.emails, e, byTrust, provider in trusted, status)
            else LastUpstream(s, e, provider, byTrust, trusted, status)
  {
    var t := s + [last];
    assert t[|s|] == last && forall k :: 0 <= k < |s| ==> s[k] == t[k];
    forall j ensures LastSpeaker(t, e, provider, byTrust, j) <==>
                     if Speaks(last, e, provider, byTrust) then j == |s| else LastSpeaker(s, e, provider, byTrust, j)
    {
      LastSpeakerAppend(s, last, e, provider, byTrust, j);
    }
  }

  lemma {:induction false} OnlyItemMeans(s: seq<Identity>, trusted: set<string>, e: Email, means: Means, provider: string)
    requires means == MagicLink || means == GithubApi
    ensures LastIn(UpstreamEvidence(s, trusted), e, means, provider).None?
  {
    NotAmong(UpstreamEvidence(s, trusted), e, means, provider);
    forall x | x in UpstreamEvidence(s, trusted) ensures x.means != means {
      UpstreamIsGrounded(s, trusted, x);
    }
  }

  lemma {:induction false} NotAmong(s: seq<Evidence>, e: Email, means: Means, provider: string)
    ensures (forall x :: x in s ==> x.means != means) ==> LastIn(s, e, means, provider).None?
    decreases |s|
  {
    if s != [] {
      NotAmong(s[..|s| - 1], e, means, provider);
      assert s[|s| - 1] in s;
    }
  }

  /** What the evidence of an account is, by its own fields: of each kind the last
      item for the address and the provider, with what it says, nothing else. */
  lemma EvidenceExactly(a: Account, trusted: set<string>, x: Evidence)
    ensures x in Verifications(a, trusted) <==>
            match x.means
            case MagicLink => LastMagicLink(a.recorded, x.email, x.provider, x.status)
            case GithubApi => x.provider == "github" && LastGithub(a.github, x.email, x.status)
            case OperatorTrust => LastUpstream(a.identities, x.email, x.provider, true, trusted, x.status)
            case OidcClaim => LastUpstream(a.identities, x.email, x.provider, false, trusted, x.status)
  {
    var recorded, github, upstream := Recorded(a.recorded), GithubEvidence(a.github), UpstreamEvidence(a.identities, trusted);
    KeptByKey(recorded + github + upstream, x);
    LastInConcat(recorded + github, upstream, x.email, x.means, x.provider);
    LastInConcat(recorded, github, x.email, x.means, x.provider);
    forall status ensures LastIn(recorded, x.email, x.means, x.provider) == Some(status) <==>
                          x.means == MagicLink && LastMagicLink(a.recorded, x.email, x.provider, status)
    {
      RecordedLast(a.recorded, x.email, x.means, x.provider, status);
    }
    forall status ensures LastIn(github, x.email, x.means, x.provider) == Some(status) <==>
                          x.means == GithubApi && x.provider == "github" && LastGithub(a.github, x.email, status)
    {
      GithubLast(a.github, x.email, x.means, x.provider, status);
    }
    if x.means == MagicLink || x.means == GithubApi {
      OnlyItemMeans(a.identities, trusted, x.email, x.means, x.provider);
    } else {
      UpstreamLast(a.identities, trusted, x.email, x.means == OperatorTrust, x.provider, x.status);
    }
  }

  // An upstream asserts the address as verified, and may still be believed.
  ghost predicate Believed(i: Identity, x: Evidence, trusted: set<string>) {
    i.active && i.provider == x.provider && (x.means == OperatorTrust ==> x.provider in trusted)
    && exists k :: 0 <= k < |i.emails| && i.emails[k].email == Some(x.email) && i.emails[k].verified == Some(true)
                   && i.emails[k].trusted == x.means.OperatorTrust?
  }

  /** Whatever counts as verified was proved by magic link, is verified on
      GitHub, or stands verified with an active upstream identity, which for
      operator trust must belong to a provider trusted today. */
  lemma VerifiedIsGrounded(a: Account, trusted: set<string>, x: Evidence)
    requires x in Verifications(a, trusted) && x.status == Verified
    ensures match x.means
            case MagicLink => x in a.recorded
            case GithubApi => GithubEmail(Some(x.email), Some(true)) in a.github
            case _ => exists i :: 0 <= i < |a.identities| && Believed(a.identities[i], x, trusted)
  {
    KeptMembers(RawEvidence(a, trusted), x);
    assert x in RawEvidence(a, trusted);
    RecordedIsGrounded(a.recorded, x);
    GithubIsGrounded(a.github, x);
    UpstreamIsGrounded(a.identities, trusted, x);
  }

  lemma {:induction false} RecordedIsGrounded(s: seq<Evidence>, x: Evidence)
    ensures x in Recorded(s) ==> x.means == MagicLink && x in s
    decreases |s|
  {
    if s != [] {
      RecordedIsGrounded(s[..|s| - 1], x);
    }
  }

  lemma {:induction false} GithubIsGrounded(s: seq<GithubEmail>, x: Evidence)
    ensures x in GithubEvidence(s) ==> x.means == GithubApi
    ensures x in GithubEvidence(s) && x.status == Verified ==> GithubEmail(Some(x.email), Some(true)) in s
    decreases |s|
  {
    if s != [] {
      GithubIsGrounded(s[..|s| - 1], x);
      assert s[|s| - 1] in s;
    }
  }

  lemma {:induction false} IdentityIsGrounded(i: Identity, n: nat, trusted: set<string>, x: Evidence)
    requires i.active && n <= |i.emails|
    ensures x in IdentityEvidence(i.provider, i.emails[..n], trusted) ==>
              !x.means.MagicLink? && !x.means.GithubApi? && (x.status == Verified ==> Believed(i, x, trusted))
    decreases n
  {
    if n > 0 {
      IdentityIsGrounded(i, n - 1, trusted, x);
      assert i.emails[..n][..n - 1] == i.emails[..n - 1];
    }
  }

  lemma {:induction false} UpstreamIsGrounded(s: seq<Identity>, trusted: set<string>, x: Evidence)
    ensures x in UpstreamEvidence(s, trusted) ==> !x.means.MagicLink? && !x.means.GithubApi?
    ensures x in UpstreamEvidence(s, trusted) && x.status == Verified ==>
              exists i :: 0 <= i < |s| && Believed(s[i], x, trusted)
    decreases |s|
  {
    if s != [] {
      var prefix, last := s[..|s| - 1], s[|s| - 1];
      UpstreamIsGrounded(prefix, trusted, x);
      if last.active {
        IdentityIsGrounded(last, |last.emails|, trusted, x);
        assert last.emails[..|last.emails|] == last.emails;
      }
      if i :| 0 <= i < |prefix| && Believed(prefix[i], x, trusted) {
        assert s[i] == prefix[i];
      }
    }
  }

  // Somebody showed that the account controls the address.
  ghost predicate Proved(a: Account, e: Email, trusted: set<string>) {
    || (exists provider :: LastMagicLink(a.recorded, e, provider, Verified))
    || LastGithub(a.github, e, Verified)
    || (exists provider, byTrust :: LastUpstream(a.identities, e, provider, byTrust, trusted, Verified))
  }

  // The account holds the address on better grounds than an upstream's word.
  ghost predicate Grounds(a: Account, e: Email, trusted: set<string>) {
    && Claims(a, e)
    && (|| a.specEmail == Some(e) || a.companyEmail == Some(e)
        || (forall k :: 0 <= k < |a.identities| ==> !Lists(a.identities[k], e))
        || Proved(a, e, trusted))
  }

  lemma ProvedExactly(a: Account, e: Email, trusted: set<string>)
    ensures ProvedFor(a, e, trusted) <==> Proved(a, e, trusted)
  {
    var v := Verifications(a, trusted);
    if k :| 0 <= k < |v| && v[k].email == e && v[k].status == Verified {
      assert v[k] in v;
      EvidenceExactly(a, trusted, v[k]);
    }
    if provider :| LastMagicLink(a.recorded, e, provider, Verified) {
      EvidenceExactly(a, trusted, Evidence(e, Verified, MagicLink, provider));
    }
    if LastGithub(a.github, e, Verified) {
      EvidenceExactly(a, trusted, Evidence(e, Verified, GithubApi, "github"));
    }
    if provider, byTrust :| LastUpstream(a.identities, e, provider, byTrust, trusted, Verified) {
      EvidenceExactly(a, trusted, Evidence(e, Verified, ItemMeans(byTrust), provider));
    }
  }

  /** A claimed address is linkable exactly if it is the spec or company address,
      or no identity of the account lists it, or it is proved: by the last
      magic-link item of some provider, by GitHub's last item for it, or by an
      active identity's last item, trusted today if it was by operator trust. */
  lemma LinkableExactly(a: Account, e: Email, trusted: set<string>)
    ensures IsEmailLinkable(a, e, trusted) <==> Grounds(a, e, trusted)
  {
    ProvedExactly(a, e, trusted);
  }

  /** Withdrawing trust from a provider never makes an address linkable. */
  lemma LessTrustLinksLess(a: Account, e: Email, fewer: set<string>, trusted: set<string>)
    requires fewer <= trusted && Grounds(a, e, fewer)
    ensures Grounds(a, e, trusted) && IsEmailLinkable(a, e, trusted)
  {
    LinkableExactly(a, e, fewer);
    LinkableExactly(a, e, trusted);
    if ProvedFor(a, e, fewer) {
      var k :| 0 <= k < |Verifications(a, fewer)| && Verifications(a, fewer)[k].email == e
               && Verifications(a, fewer)[k].status == Verified;
      var x := Verifications(a, fewer)[k];
      var s, t := RawEvidence(a, fewer), RawEvidence(a, trusted);
      KeptMembers(s, x);
      var i :| LastOfKey(s, i) && s[i] == x;
      UpstreamEvidenceGrows(a.identities, fewer, trusted);
      assert Grows(s, t);
      assert LastOfKey(t, i);
      KeptMembers(t, t[i]);
      assert t[i] in Verifications(a, trusted);
    }
  }

  // The same items, perhaps with a better status.
  ghost predicate Grows(s: seq<Evidence>, t: seq<Evidence>) {
    |s| == |t| && forall i :: 0 <= i < |s| ==> SameKey(s[i], t[i]) && (s[i].status == Verified ==> t[i].status == Verified)
  }

  lemma {:induction false} IdentityEvidenceGrows(provider: string, s: seq<IdentityEmail>, fewer: set<string>, trusted: set<string>)
    requires fewer <= trusted
    ensures Grows(IdentityEvidence(provider, s, fewer), IdentityEvidence(provider, s, trusted))
    decreases |s|
  {
    if s != [] {
      IdentityEvidenceGrows(provider, s[..|s| - 1], fewer, trusted);
    }
  }

  lemma {:induction false} UpstreamEvidenceGrows(s: seq<Identity>, fewer: set<string>, trusted: set<string>)
    requires fewer <= trusted
    ensures Grows(UpstreamEvidence(s, fewer), UpstreamEvidence(s, trusted))
    decreases |s|
  {
    if s != [] {
      UpstreamEvidenceGrows(s[..|s| - 1], fewer, trusted);
      IdentityEvidenceGrows(s[|s| - 1].provider, s[|s| - 1].emails, fewer, trusted);
    }
  }

  // ---- the sign-in -------------------------------------------------------------------------

  /** A sign-in as the upstream handler passes it on; `providerKey` and `subject`
      are empty when absent. */
  datatype Login = Login(email: Option<Email>, githubEmails: seq<GithubEmail>,
                         providerKey: string, subject: string, githubId: Option<string>)

  function PutGithub(s: seq<GithubEmail>, item: GithubEmail): seq<GithubEmail> {
    if s == [] then [item]
    else if s[0].email == item.email then [item] + s[1..]
    else [s[0]] + PutGithub(s[1..], item)
  }

  // One item per address, the last one given.
  function LastPerAddress(s: seq<GithubEmail>): seq<GithubEmail>
    decreases |s|
  {
    if s == [] then [] else PutGithub(LastPerAddress(s[..|s| - 1]), s[|s| - 1])
  }

  function VerifiedOnly(s: seq<GithubEmail>): seq<GithubEmail> {
    if s == [] then [] else (if s[0].verified == Some(true) then [s[0]] else []) + VerifiedOnly(s[1..])
  }

  function IncomingEmails(login: Login): seq<Email> {
    Present([login.email] + GithubAddresses(LastPerAddress(login.githubEmails)))
  }

  function LinkableEmails(login: Login): seq<Email> {
    Present((if login.providerKey != "" then [] else [login.email])
            + GithubAddresses(VerifiedOnly(LastPerAddress(login.githubEmails))))
  }

  predicate Incoming(login: Login, e: Email) {
    login.email == Some(e) || exists i :: 0 <= i < |login.githubEmails| && login.githubEmails[i].email == Some(e)
  }

  // The upstream's last word on the address is that it is verified.
  ghost predicate LastWordVerified(s: seq<GithubEmail>, e: Email) {
    exists i :: 0 <= i < |s| && s[i].email == Some(e) && s[i].verified == Some(true)
                && forall j :: i < j < |s| ==> s[j].email != Some(e)
  }

  // Control of the address is proven by this sign-in.
  ghost predicate Proven(login: Login, e: Email) {
    (login.providerKey == "" && login.email == Some(e)) || LastWordVerified(login.githubEmails, e)
  }

  lemma {:induction false} VerifiedMembers(s: seq<GithubEmail>, x: GithubEmail)
    ensures x in VerifiedOnly(s) <==> x in s && x.verified == Some(true)
  {
    if s != [] {
      VerifiedMembers(s[1..], x);
      assert x in s <==> x == s[0] || x in s[1..];
    }
  }

  ghost predicate DistinctAddresses(s: seq<GithubEmail>) {
    forall i, j :: 0 <= i < j < |s| ==> s[i].email != s[j].email
  }

  lemma {:induction false} PutGithubMembers(s: seq<GithubEmail>, item: GithubEmail, x: GithubEmail)
    requires DistinctAddresses(s)
    ensures x in PutGithub(s, item) <==> x == item || (x in s && x.email != item.email)
    ensures DistinctAddresses(PutGithub(s, item))
  {
    if s != [] && s[0].email != item.email {
      var rest := PutGithub(s[1..], item);
      PutGithubMembers(s[1..], item, x);
      assert x in s <==> x == s[0] || x in s[1..];
      forall j | 0 <= j < |rest| ensures s[0].email != rest[j].email {
        PutGithubMembers(s[1..], item, rest[j]);
        assert rest[j] in rest;
      }
    } else if s != [] {
      assert x in s <==> x == s[0] || x in s[1..];
      assert forall y :: y in s[1..] ==> s[0].email != y.email;
    }
  }

  ghost predicate LastFor(s: seq<GithubEmail>, i: int) {
    0 <= i < |s| && forall j :: i < j < |s| ==> s[j].email != s[i].email
  }

  ghost predicate IsLastWord(s: seq<GithubEmail>, x: GithubEmail) {
    exists i :: LastFor(s, i) && s[i] == x
  }

  lemma {:induction false} AddressesAreDistinct(s: seq<GithubEmail>)
    ensures DistinctAddresses(LastPerAddress(s))
    decreases |s|
  {
    if s != [] {
      AddressesAreDistinct(s[..|s| - 1]);
      PutGithubMembers(LastPerAddress(s[..|s| - 1]), s[|s| - 1], s[|s| - 1]);
    }
  }

  lemma {:induction false} LastPerAddressMembers(s: seq<GithubEmail>, x: GithubEmail)
    ensures x in LastPerAddress(s) <==> IsLastWord(s, x)
    decreases |s|
  {
    if s != [] {
      var prefix, last := s[..|s| - 1], s[|s| - 1];
      LastPerAddressMembers(prefix, x);
      AddressesAreDistinct(prefix);
      PutGithubMembers(LastPerAddress(prefix), last, x);
      LastSoFar(prefix, last, x);
      assert s == prefix + [last];
    }
  }

  lemma LastSoFar(s: seq<GithubEmail>, last: GithubEmail, x: GithubEmail)
    ensures IsLastWord(s + [last], x) <==> x == last || (x.email != last.email && IsLastWord(s, x))
  {
    var t := s + [last];
    assert LastFor(t, |s|);
    if i :| LastFor(t, i) && t[i] == x && x != last {
      assert t[|s|].email != t[i].email;
      assert forall j :: i < j < |s| ==> s[j] == t[j];
      assert LastFor(s, i);
    }
    if i :| LastFor(s, i) && s[i] == x && x.email != last.email {
      assert LastFor(t, i);
    }
  }

  lemma {:induction false} LastWordExists(s: seq<GithubEmail>, i: nat) returns (k: nat)
    requires i < |s|
    ensures LastFor(s, k) && s[k].email == s[i].email
    decreases |s| - i
  {
    k := i;
    if j :| i < j < |s| && s[j].email == s[i].email {
      k := LastWordExists(s, j);
    }
  }

  lemma IncomingMeansIncoming(login: Login, e: Email)
    ensures e in IncomingEmails(login) <==> Incoming(login, e)
  {
    var s := login.githubEmails;
    var t := LastPerAddress(s);
    var all := [login.email] + GithubAddresses(t);
    PresentMembers(all, e);
    assert Some(e) in all <==> Some(e) == login.email || Some(e) in GithubAddresses(t);
    GithubAddressMembers(t, Some(e));
    if i :| 0 <= i < |s| && s[i].email == Some(e) {
      var k := LastWordExists(s, i);
      LastPerAddressMembers(s, s[k]);
      assert s[k] in t;
    }
    if i :| 0 <= i < |t| && t[i].email == Some(e) {
      LastPerAddressMembers(s, t[i]);
    }
  }

  lemma LinkableMeansProven(login: Login, e: Email)
    ensures e in LinkableEmails(login) <==> Proven(login, e)
  {
    var s := login.githubEmails;
    var t := LastPerAddress(s);
    var v := VerifiedOnly(t);
    var bare := if login.providerKey != "" then [] else [login.email];
    PresentMembers(bare + GithubAddresses(v), e);
    assert Some(e) in bare + GithubAddresses(v) <==> Some(e) in bare || Some(e) in GithubAddresses(v);
    GithubAddressMembers(v, Some(e));
    if i :| 0 <= i < |v| && v[i].email == Some(e) {
      VerifiedMembers(t, v[i]);
      LastPerAddressMembers(s, v[i]);
      assert LastWordVerified(s, e);
    }
    if LastWordVerified(s, e) {
      var i :| 0 <= i < |s| && s[i].email == Some(e) && s[i].verified == Some(true)
               && forall j :: i < j < |s| ==> s[j].email != Some(e);
      assert LastFor(s, i);
      LastPerAddressMembers(s, s[i]);
      VerifiedMembers(t, s[i]);
    }
  }

  // ---- resolution ----------------------------------------------------------------------------

  datatype Found = Nobody | One(account: Account) | Conflicted

  datatype Resolution = Existing(account: Account) | NoMatch | Blocked | Refused

  function GetIdentity(s: seq<Identity>, provider: string): Option<Identity> {
    if s == [] then None else if s[0].provider == provider then Some(s[0]) else GetIdentity(s[1..], provider)
  }

  predicate HasStableIdentity(login: Login) {
    (login.providerKey != "" && login.subject != "") || login.githubId.Some?
  }

  // The account carries the sign-in's upstream identity. An account without a
  // GitHub id compares as the text "undefined".
  predicate Carries(login: Login, a: Account) {
    if login.providerKey != "" && login.subject != "" then
      GetIdentity(a.identities, login.providerKey).Some?
      && GetIdentity(a.identities, login.providerKey).value.sub == Some(login.subject)
    else
      login.githubId.Some? && a.githubId.GetOr("undefined") == login.githubId.value
  }

  /** Which accounts carry a sign-in: those whose identity of its provider, the
      first if there were several, has its subject; or, without one, those whose
      GitHub id reads the same, a missing one reading "undefined". */
  lemma {:induction false} IdentityFound(s: seq<Identity>, provider: string, subject: string)
    ensures (GetIdentity(s, provider).Some? && GetIdentity(s, provider).value.sub == Some(subject)) <==>
            exists k :: 0 <= k < |s| && s[k].provider == provider && s[k].sub == Some(subject)
                        && forall j :: 0 <= j < k ==> s[j].provider != provider
  {
    if s != [] && s[0].provider != provider {
      IdentityFound(s[1..], provider, subject);
      if k :| 0 <= k < |s[1..]| && s[1..][k].provider == provider && s[1..][k].sub == Some(subject)
              && forall j :: 0 <= j < k ==> s[1..][j].provider != provider {
        forall j | 0 <= j < k + 1 ensures s[j].provider != provider {
          assert j > 0 ==> s[1..][j - 1] == s[j];
        }
        assert s[k + 1].provider == provider;
      }
      if k :| 0 <= k < |s| && s[k].provider == provider && s[k].sub == Some(subject)
              && forall j :: 0 <= j < k ==> s[j].provider != provider {
        assert s[1..][k - 1] == s[k];
        forall j | 0 <= j < k - 1 ensures s[1..][j].provider != provider {
          assert s[1..][j] == s[j + 1];
        }
      }
    }
  }

  lemma CarriesExactly(login: Login, a: Account)
    ensures Carries(login, a) <==>
            if login.providerKey != "" && login.subject != "" then
              exists k :: 0 <= k < |a.identities| && a.identities[k].provider == login.providerKey && a.identities[k].sub == Some(login.subject)
                          && forall j :: 0 <= j < k ==> a.identities[j].provider != login.providerKey
            else
              login.githubId.Some? && (if a.githubId.Some? then a.githubId.value == login.githubId.value else login.githubId.value == "undefined")
  {
    IdentityFound(a.identities, login.providerKey, login.subject);
  }

  function Carriers(accounts: seq<Account>, login: Login): seq<Account> {
    if accounts == [] then []
    else (if Carries(login, accounts[0]) then [accounts[0]] else []) + Carriers(accounts[1..], login)
  }

  function FindUniqueStableIdentity(accounts: seq<Account>, login: Login): Found {
    var matches := Carriers(accounts, login);
    if |matches| > 1 then Conflicted
    else if matches == [] then Nobody
    else if !Eligible(accounts, matches[0]) then Conflicted
    else One(matches[0])
  }

  function Owners(accounts: seq<Account>, emails: seq<Email>): seq<Account>
    decreases |emails|
  {
    if emails == [] then []
    else
      var owners := Owners(accounts, emails[..|emails| - 1]);
      match Owner(accounts, emails[|emails| - 1])
      case None => owners
      case Some(a) => if a in owners then owners else owners + [a]
  }

  function FindUserByEmails(accounts: seq<Account>, emails: seq<Email>): Found {
    var candidates := Owners(accounts, emails);
    if |candidates| > 1 then Conflicted
    else if candidates == [] then Nobody
    else if !Eligible(accounts, candidates[0]) then Conflicted
    else One(candidates[0])
  }

  predicate SomeLinkable(a: Account, emails: seq<Email>, trusted: set<string>) {
    exists i :: 0 <= i < |emails| && IsEmailLinkable(a, emails[i], trusted)
  }

  function Resolve(accounts: seq<Account>, login: Login, trusted: set<string>): Resolution {
    var user := if HasStableIdentity(login) then FindUniqueStableIdentity(accounts, login) else Nobody;
    if user.Conflicted? then Blocked
    else
      var emailUser := FindUserByEmails(accounts, IncomingEmails(login));
      if emailUser.Conflicted? then Blocked
      else if user.One? && emailUser.One? && user.account.id != emailUser.account.id then Blocked
      else if user.Nobody? && emailUser.One? && !SomeLinkable(emailUser.account, LinkableEmails(login), trusted) then Refused
      else if user.One? then Existing(user.account)
      else if emailUser.One? then Existing(emailUser.account)
      else NoMatch
  }

  // ---- what a resolution means -------------------------------------------------------------------

  ghost predicate SoleCarrier(accounts: seq<Account>, login: Login, a: Account) {
    a in accounts && Carries(login, a) && forall b :: b in accounts && Carries(login, b) ==> b == a
  }

  ghost predicate NoCarrier(accounts: seq<Account>, login: Login) {
    forall b :: b in accounts ==> !Carries(login, b)
  }

  ghost predicate OwnsAllIncoming(accounts: seq<Account>, login: Login, a: Account) {
    forall e :: Incoming(login, e) ==> Owner(accounts, e).None? || Owner(accounts, e) == Some(a)
  }

  ghost predicate OwnsSomeIncoming(accounts: seq<Account>, login: Login, a: Account) {
    exists e :: Incoming(login, e) && Owner(accounts, e) == Some(a)
  }

  ghost predicate HoldsProvenAddress(login: Login, a: Account, trusted: set<string>) {
    exists e :: Proven(login, e) && Grounds(a, e, trusted)
  }

  lemma {:induction false} CarrierMembers(accounts: seq<Account>, login: Login, a: Account)
    ensures a in Carriers(accounts, login) <==> a in accounts && Carries(login, a)
  {
    if accounts != [] {
      CarrierMembers(accounts[1..], login, a);
      assert a in accounts <==> a == accounts[0] || a in accounts[1..];
    }
  }

  lemma {:induction false} CarriersAreDistinct(accounts: seq<Account>, login: Login)
    requires DistinctIds(accounts)
    ensures DistinctIds(Carriers(accounts, login))
  {
    if accounts != [] {
      var rest := Carriers(accounts[1..], login);
      CarriersAreDistinct(accounts[1..], login);
      forall j | 0 <= j < |rest| ensures rest[j].id != accounts[0].id {
        CarrierMembers(accounts[1..], login, rest[j]);
        var k :| 0 <= k < |accounts[1..]| && accounts[1..][k] == rest[j];
        assert accounts[k + 1] == rest[j];
      }
    }
  }

  lemma IdentityLookup(accounts: seq<Account>, login: Login, a: Account)
    requires DistinctIds(accounts)
    ensures FindUniqueStableIdentity(accounts, login) == One(a) <==> SoleCarrier(accounts, login, a) && Eligible(accounts, a)
    ensures FindUniqueStableIdentity(accounts, login) == Nobody <==> NoCarrier(accounts, login)
  {
    var c := Carriers(accounts, login);
    CarriersAreDistinct(accounts, login);
    CarrierMembers(accounts, login, a);
    forall b | b in accounts ensures b in c <==> Carries(login, b) {
      CarrierMembers(accounts, login, b);
    }
    forall k | 0 <= k < |c| ensures c[k] in accounts && Carries(login, c[k]) {
      CarrierMembers(accounts, login, c[k]);
    }
    if |c| > 1 {
      assert c[0].id != c[1].id && c[0] in accounts && c[1] in accounts;
    }
  }

  lemma {:induction false} OwnerMembers(accounts: seq<Account>, emails: seq<Email>, a: Account)
    ensures a in Owners(accounts, emails) <==> OwnsOneOf(accounts, emails, a)
    decreases |emails|
  {
    if emails != [] {
      var prefix := emails[..|emails| - 1];
      OwnerMembers(accounts, prefix, a);
      OwnedByLast(accounts, prefix, emails[|emails| - 1], a);
      assert emails == prefix + [emails[|emails| - 1]];
    }
  }

  ghost predicate OwnsOneOf(accounts: seq<Account>, emails: seq<Email>, a: Account) {
    exists i :: 0 <= i < |emails| && Owner(accounts, emails[i]) == Some(a)
  }

  lemma OwnedByLast(accounts: seq<Account>, emails: seq<Email>, last: Email, a: Account)
    ensures OwnsOneOf(accounts, emails + [last], a) <==> OwnsOneOf(accounts, emails, a) || Owner(accounts, last) == Some(a)
  {
    var all := emails + [last];
    assert all[|emails|] == last;
    if i :| 0 <= i < |emails| && Owner(accounts, emails[i]) == Some(a) {
      assert all[i] == emails[i];
    }
    if i :| 0 <= i < |all| && Owner(accounts, all[i]) == Some(a) {
      assert i < |emails| ==> emails[i] == all[i];
    }
  }

  lemma {:induction false} OwnersAreDistinct(accounts: seq<Account>, emails: seq<Email>, i: nat, j: nat)
    requires i < j < |Owners(accounts, emails)|
    ensures Owners(accounts, emails)[i] != Owners(accounts, emails)[j]
    decreases |emails|
  {
    var owners := Owners(accounts, emails[..|emails| - 1]);
    if j < |owners| {
      OwnersAreDistinct(accounts, emails[..|emails| - 1], i, j);
    }
  }

  lemma EmailLookup(accounts: seq<Account>, login: Login, a: Account)
    ensures FindUserByEmails(accounts, IncomingEmails(login)) == One(a) <==>
            OwnsSomeIncoming(accounts, login, a) && OwnsAllIncoming(accounts, login, a) && Eligible(accounts, a)
    ensures FindUserByEmails(accounts, IncomingEmails(login)) == Nobody <==>
            forall e :: Incoming(login, e) ==> Owner(accounts, e).None?
  {
    var emails := IncomingEmails(login);
    var c := Owners(accounts, emails);
    forall b ensures b in c <==> OwnsSomeIncoming(accounts, login, b) {
      OwnedIncoming(accounts, login, b);
    }
    if c != [] {
      assert c[0] in c;
    }
    if |c| > 1 {
      OwnersAreDistinct(accounts, emails, 0, 1);
      assert c[1] in c;
      TwoOwners(accounts, login, c[0], c[1], a);
    } else {
      forall e | Incoming(login, e) && Owner(accounts, e).Some? ensures c != [] && Owner(accounts, e) == Some(c[0]) {
        assert OwnsSomeIncoming(accounts, login, Owner(accounts, e).value);
      }
    }
  }

  lemma OwnedIncoming(accounts: seq<Account>, login: Login, b: Account)
    ensures b in Owners(accounts, IncomingEmails(login)) <==> OwnsSomeIncoming(accounts, login, b)
  {
    var emails := IncomingEmails(login);
    OwnerMembers(accounts, emails, b);
    if i :| 0 <= i < |emails| && Owner(accounts, emails[i]) == Some(b) {
      IncomingMeansIncoming(login, emails[i]);
    }
    if e :| Incoming(login, e) && Owner(accounts, e) == Some(b) {
      IncomingMeansIncoming(login, e);
    }
  }

  lemma TwoOwners(accounts: seq<Account>, login: Login, b: Account, c: Account, a: Account)
    requires OwnsSomeIncoming(accounts, login, b) && OwnsSomeIncoming(accounts, login, c) && b != c
    ensures !OwnsAllIncoming(accounts, login, a)
    ensures !forall e :: Incoming(login, e) ==> Owner(accounts, e).None?
  {
  }

  lemma LinkableLookup(login: Login, a: Account, trusted: set<string>)
    ensures SomeLinkable(a, LinkableEmails(login), trusted) <==> HoldsProvenAddress(login, a, trusted)
  {
    var emails := LinkableEmails(login);
    if i :| 0 <= i < |emails| && IsEmailLinkable(a, emails[i], trusted) {
      LinkableMeansProven(login, emails[i]);
      LinkableExactly(a, emails[i], trusted);
    }
    if e :| Proven(login, e) && Grounds(a, e, trusted) {
      LinkableMeansProven(login, e);
      LinkableExactly(a, e, trusted);
    }
  }

  /** A sign-in resolves to an existing account exactly when that account is
      eligible, owns every incoming address anybody owns, and either alone
      carries the sign-in's stable identity or, nobody carrying it, owns an
      incoming address and holds a proven one on linkable grounds. */
  lemma ResolvesExactly(accounts: seq<Account>, login: Login, trusted: set<string>, a: Account)
    requires DistinctIds(accounts)
    ensures Resolve(accounts, login, trusted) == Existing(a) <==>
            && a in accounts
            && Eligible(accounts, a)
            && OwnsAllIncoming(accounts, login, a)
            && (SoleCarrier(accounts, login, a)
                || (NoCarrier(accounts, login) && OwnsSomeIncoming(accounts, login, a) && HoldsProvenAddress(login, a, trusted)))
  {
    IdentityLookup(accounts, login, a);
    EmailLookup(accounts, login, a);
    LinkableLookup(login, a, trusted);
    var emailUser := FindUserByEmails(accounts, IncomingEmails(login));
    if emailUser.One? {
      EmailLookup(accounts, login, emailUser.account);
      OwnersAreAccounts(accounts, login, emailUser.account);
      if a in accounts && a.id == emailUser.account.id {
        SameIdSameAccount(accounts, a, emailUser.account);
      }
    }
  }

  lemma OwnersAreAccounts(accounts: seq<Account>, login: Login, a: Account)
    requires DistinctIds(accounts) && OwnsSomeIncoming(accounts, login, a)
    ensures a in accounts
  {
    var e :| Incoming(login, e) && Owner(accounts, e) == Some(a);
    OwnerIsTheFirstClaimant(accounts, e, a);
  }

  // Enrolment goes on after a sign-in that matched nobody: for an invited username
  // always, otherwise unless enrolment is switched off.
  predicate Enrols(accounts: seq<Account>, login: Login, trusted: set<string>, invited: bool, open: bool) {
    Resolve(accounts, login, trusted).NoMatch? && (invited || open)
  }

  /** Nobody is matched exactly when nobody carries the identity and nobody
      claims any incoming address; and then somebody new may be enrolled, if
      invited or unless enrolment is switched off. */
  lemma EnrolsExactly(accounts: seq<Account>, login: Login, trusted: set<string>, invited: bool, open: bool)
    requires DistinctIds(accounts)
    ensures Resolve(accounts, login, trusted) == NoMatch <==>
            NoCarrier(accounts, login) && forall e, b :: Incoming(login, e) && b in accounts ==> !Claims(b, e)
    ensures Enrols(accounts, login, trusted, invited, open) <==>
            && (invited || open)
            && NoCarrier(accounts, login) && forall e, b :: Incoming(login, e) && b in accounts ==> !Claims(b, e)
  {
    var emailUser := FindUserByEmails(accounts, IncomingEmails(login));
    var user := FindUniqueStableIdentity(accounts, login);
    IdentityLookup(accounts, login, if user.One? then user.account else Nameless());
    EmailLookup(accounts, login, Nameless());
    forall e ensures Owner(accounts, e).None? <==> forall b :: b in accounts ==> !Claims(b, e) {
      OwnerIsTheFirstClaimant(accounts, e, Nameless());
    }
  }

  /** A sign-in is refused exactly when nobody carries its identity and one
      eligible account owns what anybody owns of its addresses, but holds none
      the sign-in proves on linkable grounds. */
  lemma RefusesExactly(accounts: seq<Account>, login: Login, trusted: set<string>)
    requires DistinctIds(accounts)
    ensures Resolve(accounts, login, trusted) == Refused <==>
            NoCarrier(accounts, login)
            && exists a :: && OwnsSomeIncoming(accounts, login, a) && OwnsAllIncoming(accounts, login, a) && Eligible(accounts, a)
                           && !HoldsProvenAddress(login, a, trusted)
  {
    IdentityLookup(accounts, login, Nameless());
    var emailUser := FindUserByEmails(accounts, IncomingEmails(login));
    forall a ensures emailUser == One(a) <==>
                     OwnsSomeIncoming(accounts, login, a) && OwnsAllIncoming(accounts, login, a) && Eligible(accounts, a) {
      EmailLookup(accounts, login, a);
    }
    if emailUser.One? {
      LinkableLookup(login, emailUser.account, trusted);
    }
  }

  /** An unverified upstream sign-in whose identity nobody carries links nothing. */
  lemma UnprovenLinksNothing(accounts: seq<Account>, login: Login, trusted: set<string>)
    requires DistinctIds(accounts) && NoCarrier(accounts, login) && login.providerKey != ""
    requires forall i :: 0 <= i < |login.githubEmails| ==> login.githubEmails[i].verified != Some(true)
    ensures !Resolve(accounts, login, trusted).Existing?
  {
    var r := Resolve(accounts, login, trusted);
    if r.Existing? {
      ResolvesExactly(accounts, login, trusted, r.account);
    }
  }

  // ---- enrolment ---------------------------------------------------------------------------------------

  function Nameless(): Account {
    Account("", None, None, None, None, [], None, [], [])
  }

  /** The account createUser stores for a sign-in. */
  function Enrolled(login: Login, id: AccountId, created: Option<Time>): Account {
    Account(id, created, None, None, login.email, LastPerAddress(login.githubEmails), login.githubId,
            if login.providerKey != "" && login.subject != "" then [Identity(login.providerKey, Some(login.subject), true, [])] else [],
            [])
  }

  lemma EnrolledClaims(login: Login, id: AccountId, created: Option<Time>, e: Email)
    ensures Claims(Enrolled(login, id, created), e) <==> Incoming(login, e)
  {
    var a := Enrolled(login, id, created);
    var g := GithubAddresses(LastPerAddress(login.githubEmails));
    assert UpstreamAddresses(a.identities) == [];
    var all := [a.specEmail, a.companyEmail, a.passmowerEmail] + GithubAddresses(a.github) + UpstreamAddresses(a.identities);
    assert all == [None, None, login.email] + g;
    CollectedMembers([], Present(all), e);
    PresentMembers(all, e);
    assert Some(e) in all <==> Some(e) == login.email || Some(e) in g;
    IncomingMeansIncoming(login, e);
    PresentMembers([login.email] + g, e);
    assert Some(e) in [login.email] + g <==> Some(e) == login.email || Some(e) in g;
  }

  /** Enrolling after a sign-in that matched nobody conflicts with nobody, even
      if the new account's clock runs behind: the newcomer is eligible, every
      other account is exactly as eligible as before, and no address changes hands. */
  lemma EnrolmentConflictsWithNobody(accounts: seq<Account>, login: Login, trusted: set<string>, id: AccountId, created: Option<Time>)
    requires DistinctIds(accounts + [Enrolled(login, id, created)])
    requires Resolve(accounts, login, trusted) == NoMatch
    ensures var a := Enrolled(login, id, created);
            var all := accounts + [a];
            && Eligible(all, a)
            && (forall b :: b in accounts ==> (Eligible(all, b) <==> Eligible(accounts, b)))
            && forall e :: Owner(all, e) == if Incoming(login, e) then Some(a) else Owner(accounts, e)
  {
    var a := Enrolled(login, id, created);
    var all := accounts + [a];
    DistinctPrefix(accounts, a);
    EnrolsExactly(accounts, login, trusted, true, true);
    forall e ensures Owner(all, e) == if Incoming(login, e) then Some(a) else Owner(accounts, e) {
      EnrolledOwners(accounts, login, a, id, created, e);
    }
    EligibleMeansOwner(all, a);
    forall e | Claims(a, e) ensures Owner(all, e) == Some(a) {
      EnrolledClaims(login, id, created, e);
    }
    forall b | b in accounts ensures Eligible(all, b) <==> Eligible(accounts, b) {
      EligibleMeansOwner(all, b);
      EligibleMeansOwner(accounts, b);
    }
  }

  lemma EnrolledOwners(accounts: seq<Account>, login: Login, a: Account, id: AccountId, created: Option<Time>, e: Email)
    requires a == Enrolled(login, id, created)
    requires DistinctIds(accounts + [a]) && DistinctIds(accounts) && a !in accounts
    requires forall e, b :: Incoming(login, e) && b in accounts ==> !Claims(b, e)
    ensures Owner(accounts + [a], e) == if Incoming(login, e) then Some(a) else Owner(accounts, e)
  {
    var all := accounts + [a];
    EnrolledClaims(login, id, created, e);
    OwnerIsTheFirstClaimant(all, e, a);
    if !Incoming(login, e) {
      OwnerIsTheFirstClaimant(accounts, e, a);
      if Owner(accounts, e).Some? {
        OwnerIsTheFirstClaimant(accounts, e, Owner(accounts, e).value);
        OwnerIsTheFirstClaimant(all, e, Owner(accounts, e).value);
      }
    }
  }

  /** The same sign-in made again resolves to the account the first one enrolled,
      exactly when it brought a stable identity or proved some address. */
  lemma SigningInAgainFindsTheAccount(accounts: seq<Account>, login: Login, trusted: set<string>, id: AccountId, created: Option<Time>)
    requires DistinctIds(accounts + [Enrolled(login, id, created)])
    requires Resolve(accounts, login, trusted) == NoMatch
    ensures Resolve(accounts + [Enrolled(login, id, created)], login, trusted) == Existing(Enrolled(login, id, created))
            <==> HasStableIdentity(login) || exists e :: Proven(login, e)
  {
    var a := Enrolled(login, id, created);
    var all := accounts + [a];
    EnrolmentConflictsWithNobody(accounts, login, trusted, id, created);
    DistinctPrefix(accounts, a);
    EnrolsExactly(accounts, login, trusted, true, true);
    ResolvesExactly(all, login, trusted, a);
    assert HasStableIdentity(login) <==> Carries(login, a);
    if e :| Proven(login, e) {
      EnrolledClaims(login, id, created, e);
      assert Incoming(login, e);
      assert forall k :: 0 <= k < |a.identities| ==> !Lists(a.identities[k], e);
      assert Grounds(a, e, trusted);
      assert OwnsSomeIncoming(all, login, a);
    }
  }
}
