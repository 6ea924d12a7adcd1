/** What the acceptance of a workload assertion means, in terms of the assertion, the policy and the time. */
module AssertionRules {
  import opened Common
  import opened ReplayGuard

  // ---------------------------------------------------------------- issuers up to trailing slashes

  predicate EndsInSlash(s: string) { s != "" && s[|s| - 1] == '/' }

  function Slashes(n: nat): string { seq(n, _ => '/') }

  /** One stem with any number of slashes after it. */
  ghost predicate SameButSlashes(a: string, b: string) {
    exists stem, m: nat, n: nat :: !EndsInSlash(stem) && a == stem + Slashes(m) && b == stem + Slashes(n)
  }

  lemma {:induction false} TrimIsStem(s: string) returns (n: nat)
    ensures !EndsInSlash(TrimSlashes(s)) && s == TrimSlashes(s) + Slashes(n)
  {
    if EndsInSlash(s) {
      var m := TrimIsStem(s[..|s| - 1]);
      n := m + 1;
      assert s == s[..|s| - 1] + "/";
      assert Slashes(n) == Slashes(m) + "/";
    } else {
      n := 0;
    }
  }

  lemma {:induction false} StemIsTrimmed(stem: string, n: nat)
    requires !EndsInSlash(stem)
    ensures TrimSlashes(stem + Slashes(n)) == stem
  {
    var s := stem + Slashes(n);
    if n > 0 {
      assert s[|s| - 1] == '/' && s[..|s| - 1] == stem + Slashes(n - 1);
      StemIsTrimmed(stem, n - 1);
    } else {
      assert s == stem;
    }
  }

  lemma TrimmedAlike(a: string, b: string)
    ensures TrimSlashes(a) == TrimSlashes(b) <==> SameButSlashes(a, b)
  {
    if TrimSlashes(a) == TrimSlashes(b) {
      var m := TrimIsStem(a);
      var n := TrimIsStem(b);
    }
    if stem, m: nat, n: nat :| !EndsInSlash(stem) && a == stem + Slashes(m) && b == stem + Slashes(n) {
      StemIsTrimmed(stem, m);
      StemIsTrimmed(stem, n);
    }
  }

  // ---------------------------------------------------------------- what the policy asks

  predicate StartsWithOne(prefixes: seq<string>, subject: string) {
    exists prefix | prefix in prefixes :: |prefix| <= |subject| && subject[..|prefix|] == prefix
  }

  /** Issued for this tenant and audience, by this issuer, to a subject and a client that are let in. */
  ghost predicate IsForUs(p: IdentityPolicy, a: Assertion, tenant: string) {
    && a.tenantId == tenant && a.audience == p.audience && SameButSlashes(a.issuer, p.issuer)
    && StartsWithOne(p.subjectPrefixes, a.subject)
    && (p.allowedClientIds == [] || exists client | client in p.allowedClientIds :: a.clientId == Some(client))
  }

  /** Short-lived enough, and valid now, give or take the skew. */
  predicate IsTimely(p: IdentityPolicy, a: Assertion, now: Time) {
    && a.expiresAt <= a.issuedAt + p.maxLifetime
    && a.issuedAt - p.skew <= now < a.expiresAt + p.skew
    && (a.notBefore.Some? ==> a.notBefore.value - p.skew <= now)
  }

  predicate IsComplete(p: IdentityPolicy, a: Assertion) {
    (p.requireNotBefore ==> a.notBefore.Some?) && (p.requireNonce ==> a.nonce.Some?)
  }

  lemma PassesExactlyWhen(p: IdentityPolicy, a: Assertion, tenant: string, now: Time)
    ensures PolicyRefusal(p, a, tenant, now).None?
       <==> IsForUs(p, a, tenant) && IsTimely(p, a, now) && IsComplete(p, a)
  {
    hide SameButSlashes, TrimSlashes;
    TrimmedAlike(a.issuer, p.issuer);
    assert StartsWithOne(p.subjectPrefixes, a.subject) <==>
           exists i | 0 <= i < |p.subjectPrefixes| :: p.subjectPrefixes[i] <= a.subject by {
      if i :| 0 <= i < |p.subjectPrefixes| && p.subjectPrefixes[i] <= a.subject {
        assert p.subjectPrefixes[i] in p.subjectPrefixes;
      }
    }
  }

  ghost predicate ClaimedUntilLater(history: seq<Claim>, key: string, now: Time) {
    exists claim :: claim in history && claim.key == key && now < claim.expiresAt
  }

  /** A credential is accepted exactly when it authenticates as an assertion that is for us, timely and complete, and
      whose nonce, if it has one, is not claimed, with room for its claim. */
  lemma AcceptedExactlyWhen(p: IdentityPolicy, digest: string -> string, history: seq<Claim>, maxEntries: nat,
                            credential: string, authenticated: Option<Assertion>, tenant: string, now: Time,
                            a: Assertion)
    ensures ExpectedVerdict(p, digest, history, maxEntries, credential, authenticated, tenant, now) == Accepted(a) <==>
              && (exists c | c in credential :: !IsSpace(c)) && authenticated == Some(a)
              && IsForUs(p, a, tenant) && IsTimely(p, a, now) && IsComplete(p, a)
              && (a.nonce.Some? ==>
                    && !ClaimedUntilLater(history, digest(ReplayText(a)), now)
                    && |LiveKeys(history, now)| < maxEntries)
  {
    hide IsForUs, IsTimely, IsComplete, PolicyRefusal, ReplayText;
    PassesExactlyWhen(p, a, tenant, now);
    if a.nonce.Some? { LiveMeans(history, digest(ReplayText(a)), now); }
  }

  lemma LiveMeans(history: seq<Claim>, key: string, now: Time)
    ensures key in LiveKeys(history, now) <==> ClaimedUntilLater(history, key, now)
  {
  }

  /** Why a credential is refused: the reason given is true of it. */
  lemma RefusalsAreTrue(p: IdentityPolicy, a: Assertion, tenant: string, now: Time)
    ensures match PolicyRefusal(p, a, tenant, now)
            case None => true
            case Some(reason) =>
              match reason
              case TenantMismatch => a.tenantId != tenant
              case IssuerMismatch => !SameButSlashes(a.issuer, p.issuer)
              case AudienceMismatch => a.audience != p.audience
              case SubjectNotAllowed => !StartsWithOne(p.subjectPrefixes, a.subject)
              case ClientNotAllowed => p.allowedClientIds != [] &&
                                       forall client | client in p.allowedClientIds :: a.clientId != Some(client)
              case LifetimeTooLong => a.issuedAt + p.maxLifetime < a.expiresAt
              case OutsideValidity => !(a.issuedAt - p.skew <= now < a.expiresAt + p.skew)
              case NotBeforeMissing => p.requireNotBefore && a.notBefore.None?
              case NotActiveYet => a.notBefore.Some? && now < a.notBefore.value - p.skew
              case NonceMissing => p.requireNonce && a.nonce.None?
              case _ => false
  {
    hide SameButSlashes, TrimSlashes;
    TrimmedAlike(a.issuer, p.issuer);
    if StartsWithOne(p.subjectPrefixes, a.subject) {
      var prefix :| prefix in p.subjectPrefixes && |prefix| <= |a.subject| && a.subject[..|prefix|] == prefix;
      var i :| 0 <= i < |p.subjectPrefixes| && p.subjectPrefixes[i] == prefix;
      assert p.subjectPrefixes[i] <= a.subject;
    }
  }

  // ---------------------------------------------------------------- replay keys

  predicate HasNoNul(s: string) { '\0' !in s }

  lemma FirstNul(a: string, x: string)
    requires HasNoNul(a)
    ensures var s := a + "\0" + x; |s| > |a| && s[|a|] == '\0' && forall i | 0 <= i < |a| :: s[i] != '\0'
  {
    var s := a + "\0" + x;
    forall i | 0 <= i < |a| ensures s[i] != '\0' { assert s[i] == a[i] && a[i] in a; }
  }

  /** What comes before the first separator is told apart from what comes after. */
  lemma SplitAtNul(a: string, b: string, x: string, y: string)
    requires HasNoNul(a) && HasNoNul(b) && a + "\0" + x == b + "\0" + y
    ensures a == b && x == y
  {
    var s, t := a + "\0" + x, b + "\0" + y;
    FirstNul(a, x);
    FirstNul(b, y);
    assert a == s[..|a|] && b == t[..|b|];
    assert x == s[|a| + 1..] && y == t[|b| + 1..];
  }

  /** Two assertions share the text of their replay keys exactly when issuer, subject, tenant and nonce are the same,
      if no NUL occurs in issuer, subject and tenant. */
  lemma ReplayTextsDiffer(a: Assertion, b: Assertion)
    requires a.nonce.Some? && b.nonce.Some?
    requires HasNoNul(a.issuer) && HasNoNul(a.subject) && HasNoNul(a.tenantId)
    requires HasNoNul(b.issuer) && HasNoNul(b.subject) && HasNoNul(b.tenantId)
    ensures ReplayText(a) == ReplayText(b) <==>
              a.issuer == b.issuer && a.subject == b.subject && a.tenantId == b.tenantId && a.nonce == b.nonce
  {
    var x2, y2 := a.tenantId + "\0" + a.nonce.value, b.tenantId + "\0" + b.nonce.value;
    var x1, y1 := a.subject + "\0" + x2, b.subject + "\0" + y2;
    assert ReplayText(a) == a.issuer + "\0" + x1 && ReplayText(b) == b.issuer + "\0" + y1;
    if ReplayText(a) == ReplayText(b) {
      SplitAtNul(a.issuer, b.issuer, x1, y1);
      SplitAtNul(a.subject, b.subject, x2, y2);
      SplitAtNul(a.tenantId, b.tenantId, a.nonce.value, b.nonce.value);
    }
  }

  /** With a NUL, two different assertions can share a key. */
  lemma NulExample(a: Assertion, b: Assertion)
    requires a.nonce == Some("n") && b.nonce == Some("n") && a.tenantId == b.tenantId
    requires a.issuer == "i" && a.subject == "s\0t" && b.issuer == "i\0s" && b.subject == "t"
    ensures ReplayText(a) == ReplayText(b) && a != b
  {
    assert "i" + "\0" + "s\0t" == "i\0s" + "\0" + "t";
  }
}
