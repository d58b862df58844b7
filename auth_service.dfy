/**
 * The account service: registering a user together with a new organization
 * (whose slug is derived from its name), signing in, confirming the e-mail
 * address and the password-reset round.
 *
 * Random tokens, the clock and fresh ids are parameters; `HashToken` and
 * `PasswordDigest` are the store's injective stand-ins for SHA-256 and bcrypt.
 * Signed access and refresh tokens are not part of this model.
 */
module Auth {
  import opened Wrappers
  import opened JsValue
  import opened WorkflowTypes
  import opened WorkflowModel
  import opened Store
  import opened Errors
  import WorkflowService

  // ---------------------------------------------------------------------------
  // Slug
  // ---------------------------------------------------------------------------

  /** A character the slug keeps: `[a-z0-9]`. */
  predicate SlugChar(c: char) { 'a' <= c <= 'z' || '0' <= c <= '9' }

  /** What a slug may contain. */
  predicate SlugText(s: string) { forall i :: 0 <= i < |s| ==> SlugChar(s[i]) || s[i] == '-' }

  /** No two dashes in a row. */
  predicate NoDoubleDash(s: string) { forall i :: 0 <= i < |s| - 1 ==> !(s[i] == '-' && s[i + 1] == '-') }

  /** `.replace(/[^a-z0-9]/g, '-')`. */
  function DashOthers(s: string): (r: string)
    ensures |r| == |s| && SlugText(r)
    ensures forall i :: 0 <= i < |s| && SlugChar(s[i]) ==> r[i] == s[i]
    ensures forall i :: 0 <= i < |s| && !SlugChar(s[i]) ==> r[i] == '-'
  {
    seq(|s|, i requires 0 <= i < |s| => if SlugChar(s[i]) then s[i] else '-')
  }

  /** `.replace(/-+/g, '-')`: every run of dashes becomes one dash. */
  function CollapseDashes(s: string): (r: string)
    ensures |r| <= |s|
    ensures s != [] ==> r != [] && r[0] == s[0]
    ensures forall c :: c in r ==> c in s
  {
    if |s| <= 1 then s
    else if s[0] == '-' && s[1] == '-' then CollapseDashes(s[1..])
    else [s[0]] + CollapseDashes(s[1..])
  }

  /** `.substring(0, n)`. */
  function Truncate(s: string, n: nat): (r: string)
    ensures |r| <= n && |r| <= |s| && r == s[..|r|]
    ensures |s| <= n ==> r == s
    ensures |s| > n ==> |r| == n
  {
    if |s| <= n then s else s[..n]
  }

  /** The slug derived from an organization name. */
  function Slug(name: string): string {
    Truncate(CollapseDashes(DashOthers(Lower(name))), 50)
  }

  /** The stored slug: the derived slug, a dash and the registration time. */
  function StoredSlug(name: string, now: nat): (r: string)
    ensures SlugText(r)
    ensures |r| > |Slug(name)| && r[..|Slug(name)|] == Slug(name) && r[|Slug(name)|] == '-'
    ensures ToNum(Str(r[|Slug(name)| + 1..])) == Some(now as real)
  {
    SlugShape(name);
    StampedParts(Slug(name), now);
    Slug(name) + "-" + NatToStr(now)
  }

  /** A slug-shaped prefix, a dash and a rendered time: the parts can be read back. */
  lemma StampedParts(prefix: string, now: nat)
    requires SlugText(prefix)
    ensures var r := prefix + "-" + NatToStr(now);
            && SlugText(r) && |r| > |prefix| && r[..|prefix|] == prefix && r[|prefix|] == '-'
            && ToNum(Str(r[|prefix| + 1..])) == Some(now as real)
  {
    var stamp := NatToStr(now);
    var r := prefix + "-" + stamp;
    assert forall i :: 0 <= i < |stamp| ==> SlugChar(stamp[i]);
    assert forall i :: 0 <= i < |r| ==> r[i] == (if i < |prefix| then prefix[i] else if i == |prefix| then '-' else stamp[i - |prefix| - 1]);
    NumberOfRenderedNat(now);
    assert r[|prefix| + 1..] == stamp;
  }

  /** Position `i` of `s` survives collapsing: it is not a dash right after a dash. */
  predicate Survives(s: string, i: nat)
    requires i < |s|
  {
    !(s[i] == '-' && i > 0 && s[i - 1] == '-')
  }

  /** The characters of `s` from position `from` on that survive, in order. */
  function Surviving(s: string, from: nat): string
    decreases |s| - from
  {
    if from >= |s| then [] else (if Survives(s, from) then [s[from]] else []) + Surviving(s, from + 1)
  }

  /** Collapsing keeps exactly the characters that are not a dash right after a
      dash: every run of dashes shrinks to its first dash and nothing else moves. */
  lemma CollapseIsFilter(s: string)
    ensures CollapseDashes(s) == Surviving(s, 0)
  {
    if s != [] {
      CollapseFrom(s, 0);
    }
  }

  lemma {:induction false} CollapseFrom(s: string, k: nat)
    requires k < |s|
    ensures CollapseDashes(s[k..]) == [s[k]] + Surviving(s, k + 1)
    decreases |s| - k
  {
    if k + 1 < |s| {
      CollapseFrom(s, k + 1);
      assert s[k..][1..] == s[k + 1..];
      assert s[k..][0] == s[k] && s[k..][1] == s[k + 1];
    } else {
      assert s[k..] == [s[k]];
    }
  }

  /** Collapsing leaves no two dashes in a row. */
  lemma {:induction false} CollapseNoDoubleDash(s: string)
    ensures NoDoubleDash(CollapseDashes(s))
  {
    if |s| > 1 {
      CollapseNoDoubleDash(s[1..]);
      if !(s[0] == '-' && s[1] == '-') {
        var t := CollapseDashes(s[1..]);
        assert t[0] == s[1];
        assert CollapseDashes(s) == [s[0]] + t;
      }
    }
  }

  /** A text without two dashes in a row is left as it is. */
  lemma {:induction false} CollapseKeeps(s: string)
    requires NoDoubleDash(s)
    ensures CollapseDashes(s) == s
  {
    if |s| > 1 {
      assert NoDoubleDash(s[1..]) by {
        forall i | 0 <= i < |s[1..]| - 1
          ensures !(s[1..][i] == '-' && s[1..][i + 1] == '-')
        {
          assert s[1..][i] == s[i + 1] && s[1..][i + 1] == s[i + 2];
        }
      }
      CollapseKeeps(s[1..]);
      assert s == [s[0]] + s[1..];
    }
  }

  /** The characters other than dashes, in order. */
  function Undashed(s: string): (r: string)
    ensures '-' !in r
  {
    if s == [] then [] else (if s[0] == '-' then [] else [s[0]]) + Undashed(s[1..])
  }

  /** Collapsing removes dashes only: every other character survives, in order. */
  lemma {:induction false} CollapseKeepsOthers(s: string)
    ensures Undashed(CollapseDashes(s)) == Undashed(s)
  {
    if |s| > 1 {
      CollapseKeepsOthers(s[1..]);
      if !(s[0] == '-' && s[1] == '-') {
        var t := CollapseDashes(s[1..]);
        assert ([s[0]] + t)[1..] == t;
      }
    }
  }

  /** A slug holds only `[a-z0-9-]`, never two dashes in a row, and at most 50 characters. */
  lemma SlugShape(name: string)
    ensures SlugText(Slug(name)) && NoDoubleDash(Slug(name)) && |Slug(name)| <= 50
  {
    var d := DashOthers(Lower(name));
    var c := CollapseDashes(d);
    CollapseNoDoubleDash(d);
    forall i | 0 <= i < |c|
      ensures SlugChar(c[i]) || c[i] == '-'
    {
      assert c[i] in c;
      var j :| 0 <= j < |d| && d[j] == c[i];
    }
  }

  /** Letters and digits of the name survive in order up to the cut at 50:
      the slug's non-dash characters are a prefix of the name's, once lowered. */
  lemma SlugKeepsLettersAndDigits(name: string)
    ensures var full := CollapseDashes(DashOthers(Lower(name)));
            Undashed(full) == Undashed(DashOthers(Lower(name)))
            && Slug(name) == full[..|Slug(name)|]
  {
    CollapseKeepsOthers(DashOthers(Lower(name)));
  }

  /** Deriving the slug of a slug changes nothing. */
  lemma SlugIdempotent(name: string)
    ensures Slug(Slug(name)) == Slug(name)
  {
    var t := Slug(name);
    SlugShape(name);
    assert Lower(t) == t;
    assert DashOthers(t) == t;
    CollapseKeeps(t);
  }

  // ---------------------------------------------------------------------------
  // Records created and changed by the service
  // ---------------------------------------------------------------------------

  /** The organization `register` creates. */
  function NewOrganization(id: string, name: string, now: nat, webhookSecret: string): Organization {
    Organization(id, Trim(name), StoredSlug(name, now), Free,
                 Settings(0.7, true, webhookSecret), Usage(0, 0, 0))
  }

  /** A new organization asks for approval of every AI-generated workflow,
      and would still ask below a confidence of 0.7 if approval were switched off. */
  lemma NewOrganizationApproval(id: string, name: string, now: nat, webhookSecret: string, confidence: real)
    ensures var settings := NewOrganization(id, name, now, webhookSecret).settings;
            && WorkflowService.RequiresApproval(Num(confidence), settings)
            && (WorkflowService.RequiresApproval(Num(confidence), settings.(requireApproval := false)) <==> confidence < 0.7)
  {
    var settings := NewOrganization(id, name, now, webhookSecret).settings;
    WorkflowService.ApprovalDecision(Num(confidence), settings.(requireApproval := false));
  }

  /** An e-mail address as the schema's `trim` and `lowercase` setters store it;
      the store applies the same setters to query values. */
  function EmailKey(email: string): (r: string)
    ensures Trimmed(r) && forall i :: 0 <= i < |r| ==> !('A' <= r[i] <= 'Z')
    ensures |r| == |Trim(email)| && forall i :: 0 <= i < |r| ==> r[i] == LowerChar(Trim(email)[i])
  {
    var t := Trim(email);
    LowerTrimmed(t);
    Lower(t)
  }

  /** A stored address is its own key, so looking it up again finds it. */
  lemma EmailKeyIdempotent(email: string)
    ensures EmailKey(EmailKey(email)) == EmailKey(email)
  {
    var k := EmailKey(email);
    TrimUnchanged(k);
    assert Lower(k) == k;
  }

  lemma LowerTrimmed(s: string)
    requires Trimmed(s)
    ensures Trimmed(Lower(s))
  {
    if s != [] {
      assert !IsWhitespace(LowerChar(s[0])) && !IsWhitespace(LowerChar(s[|s| - 1]));
    }
  }

  /** The schema's check on a password before it is hashed: required, at least 8 characters. */
  function PasswordCheck(password: string): (r: Option<SchemaError>)
    ensures r.None? <==> |password| >= 8
    ensures r.Some? ==> r.value.path == "password"
  {
    if password == "" then Some(Required("password"))
    else if |password| < 8 then Some(TooShort("password"))
    else None
  }

  /** The schema checks on a new user, in schema order: required strings after
      trimming and the password check. */
  function UserCheck(email: string, password: string, firstName: string, lastName: string): (r: Option<SchemaError>)
    ensures r.None? <==> EmailKey(email) != "" && |password| >= 8 && Trim(firstName) != "" && Trim(lastName) != ""
  {
    if EmailKey(email) == "" then Some(Required("email"))
    else if PasswordCheck(password).Some? then PasswordCheck(password)
    else if Trim(firstName) == "" then Some(Required("firstName"))
    else if Trim(lastName) == "" then Some(Required("lastName"))
    else None
  }

  /** The owner account `register` creates; it stores the hash of the verification token. */
  function NewOwner(id: string, email: string, password: string, firstName: string, lastName: string,
                    organizationId: string, verificationToken: string): User {
    User(id, EmailKey(email), PasswordDigest(password), Trim(firstName), Trim(lastName), false,
         Some(HashToken(verificationToken)), None, None, organizationId, Owner, None)
  }

  /** The account can be confirmed with `token`. */
  predicate AwaitsVerification(u: User, token: string) {
    u.verificationToken == Some(HashToken(token))
  }

  /** The account's password is `password`. */
  predicate PasswordMatches(u: User, password: string) {
    u.password == PasswordDigest(password)
  }

  /** `token` resets the account's password at time `now`. */
  predicate ResetCandidate(u: User, token: string, now: int) {
    u.resetPasswordToken == Some(HashToken(token))
    && u.resetPasswordExpires.Some? && u.resetPasswordExpires.value > now
  }

  /** `verifyEmail` on the account found. */
  function Confirmed(u: User): User {
    u.(emailVerified := true, verificationToken := None)
  }

  /** `requestPasswordReset` on the account found: the token's hash, valid for an hour. */
  function ResetIssued(u: User, token: string, now: int): User {
    u.(resetPasswordToken := Some(HashToken(token)), resetPasswordExpires := Some(now + 3600000))
  }

  /** `resetPassword` on the account found. */
  function PasswordReplaced(u: User, newPassword: string): User {
    u.(password := PasswordDigest(newPassword), resetPasswordToken := None, resetPasswordExpires := None)
  }

  /** The new owner is the owner of the new organization, is not yet confirmed,
      and the token handed back (and only that token) confirms the account; the
      password given is the one that signs in. */
  lemma NewOwnerRules(id: string, email: string, password: string, firstName: string, lastName: string,
                      organizationId: string, verificationToken: string, token: string, candidate: string)
    ensures var u := NewOwner(id, email, password, firstName, lastName, organizationId, verificationToken);
            && u.role == Owner && u.organizationId == organizationId && !u.emailVerified
            && (AwaitsVerification(u, token) <==> token == verificationToken)
            && (PasswordMatches(u, candidate) <==> candidate == password)
  {
    HashTokenInjective(token, verificationToken);
    PasswordDigestInjective(candidate, password);
  }

  /** A confirmed account is verified and its token is spent. */
  lemma ConfirmSingleUse(u: User, token: string)
    ensures Confirmed(u).emailVerified && !AwaitsVerification(Confirmed(u), token)
    ensures Confirmed(u).password == u.password && Confirmed(u).email == u.email && Confirmed(u).role == u.role
  {
  }

  /** A reset link opens the reset for exactly one hour after it was issued,
      and no other token opens it. */
  lemma ResetWindow(u: User, token: string, issuedAt: int, other: string, at: int)
    ensures ResetCandidate(ResetIssued(u, token, issuedAt), token, at) <==> at < issuedAt + 3600000
    ensures ResetCandidate(ResetIssued(u, token, issuedAt), other, at) ==> other == token
  {
    HashTokenInjective(other, token);
  }

  /** After a reset the new password (and only it) signs in, and the link is spent. */
  lemma ResetSingleUse(u: User, newPassword: string, candidate: string, token: string, at: int)
    ensures PasswordMatches(PasswordReplaced(u, newPassword), candidate) <==> candidate == newPassword
    ensures !ResetCandidate(PasswordReplaced(u, newPassword), token, at)
  {
    PasswordDigestInjective(candidate, newPassword);
  }

  // ---------------------------------------------------------------------------
  // Store invariant: one account per e-mail address
  // ---------------------------------------------------------------------------

  predicate UniqueEmails(users: seq<User>) {
    forall i, j :: 0 <= i < j < |users| ==> users[i].email != users[j].email
  }

  /** Registering an address nobody has keeps the addresses unique. */
  lemma UniqueAfterRegister(users: seq<User>, u: User)
    requires UniqueEmails(users) && forall k :: 0 <= k < |users| ==> users[k].email != u.email
    ensures UniqueEmails(users + [u])
  {
  }

  /** Changing an account without touching its address keeps the addresses unique. */
  lemma UniqueAfterChange(users: seq<User>, k: nat, u: User)
    requires UniqueEmails(users) && k < |users| && u.email == users[k].email
    ensures UniqueEmails(users[k := u])
  {
  }

  /** The outcome of `register`: the user, the organization and the unhashed
      verification token for the e-mail. */
  datatype Registered = Registered(user: User, organization: Organization, verificationToken: string)

  /** The outcome of `requestPasswordReset`. */
  datatype ResetRequest =
    | Generic(message: string)
    | ResetLink(resetToken: string, user: User)

  class AuthService {
    const db: Db

    constructor (db: Db)
      ensures this.db == db
    {
      this.db := db;
    }

    /** `register`. The organization is created before the user, so a user the
        schema refuses leaves the new organization behind. */
    method Register(email: string, password: string, firstName: string, lastName: string, organizationName: string,
                    now: nat, organizationId: string, userId: string, webhookSecret: string, verificationToken: string)
      returns (r: Result<Registered, Err>)
      requires organizationId !in db.organizations
      modifies db
      ensures db.workflows == old(db.workflows) && db.invitations == old(db.invitations)
      ensures UniqueEmails(old(db.users)) ==> UniqueEmails(db.users)
      ensures old(db.FindUserByEmail(EmailKey(email))).Some? ==>
                r == Failure(AppError(400, "Email already registered"))
                && db.users == old(db.users) && db.organizations == old(db.organizations)
      ensures old(db.FindUserByEmail(EmailKey(email))).None? && Trim(organizationName) == "" ==>
                r == Failure(Invalid(Required("name")))
                && db.users == old(db.users) && db.organizations == old(db.organizations)
      ensures old(db.FindUserByEmail(EmailKey(email))).None? && Trim(organizationName) != "" ==>
                var org := NewOrganization(organizationId, organizationName, now, webhookSecret);
                var check := UserCheck(email, password, firstName, lastName);
                var u := NewOwner(userId, email, password, firstName, lastName, organizationId, verificationToken);
                && db.organizations == old(db.organizations)[organizationId := org]
                && (check.Some? ==> r == Failure(Invalid(check.value)) && db.users == old(db.users))
                && (check.None? ==> r == Success(Registered(u, org, verificationToken)) && db.users == old(db.users) + [u])
    {
      if db.FindUserByEmail(EmailKey(email)).Some? {
        return Failure(AppError(400, "Email already registered"));
      }
      if Trim(organizationName) == "" {
        return Failure(Invalid(Required("name")));
      }
      var org := NewOrganization(organizationId, organizationName, now, webhookSecret);
      AddOrganization(org);
      var check := UserCheck(email, password, firstName, lastName);
      if check.Some? {
        return Failure(Invalid(check.value));
      }
      var u := NewOwner(userId, email, password, firstName, lastName, organizationId, verificationToken);
      AddUser(u);
      r := Success(Registered(u, org, verificationToken));
    }

    /** `Organization.create`. */
    method AddOrganization(org: Organization)
      modifies db
      ensures db.organizations == old(db.organizations)[org.id := org]
      ensures db.users == old(db.users) && db.workflows == old(db.workflows) && db.invitations == old(db.invitations)
    {
      db.organizations := db.organizations[org.id := org];
    }

    /** `User.create` with an address no account has. */
    method AddUser(u: User)
      requires forall k :: 0 <= k < |db.users| ==> db.users[k].email != u.email
      modifies db
      ensures db.users == old(db.users) + [u]
      ensures db.organizations == old(db.organizations) && db.workflows == old(db.workflows) && db.invitations == old(db.invitations)
      ensures UniqueEmails(old(db.users)) ==> UniqueEmails(db.users)
    {
      if UniqueEmails(db.users) {
        UniqueAfterRegister(db.users, u);
      }
      db.users := db.users + [u];
    }

    /** `user.save()` on the account at `k`, whose address it leaves alone. */
    method ReplaceUser(k: nat, u: User)
      requires k < |db.users| && u.email == db.users[k].email
      modifies db
      ensures db.users == old(db.users)[k := u]
      ensures db.organizations == old(db.organizations) && db.workflows == old(db.workflows) && db.invitations == old(db.invitations)
      ensures UniqueEmails(old(db.users)) ==> UniqueEmails(db.users)
    {
      if UniqueEmails(db.users) {
        UniqueAfterChange(db.users, k, u);
      }
      db.users := db.users[k := u];
    }

    /** `login`: an unknown address and a wrong password get the same answer;
        otherwise the sign-in time is recorded. */
    method Login(email: string, password: string, now: int) returns (r: Result<User, Err>)
      modifies db
      ensures db.workflows == old(db.workflows) && db.invitations == old(db.invitations)
      ensures db.organizations == old(db.organizations)
      ensures UniqueEmails(old(db.users)) ==> UniqueEmails(db.users)
      ensures r.Failure? ==> r.error == AppError(401, "Invalid credentials") && db.users == old(db.users)
      ensures var k := old(db.FindUserByEmail(EmailKey(email)));
              r.Success? <==> k.Some? && PasswordMatches(old(db.users)[k.value], password)
      ensures r.Success? ==>
                var k := old(db.FindUserByEmail(EmailKey(email))).value;
                var u := old(db.users)[k].(lastLoginAt := Some(now));
                r.value == u && db.users == old(db.users)[k := u]
    {
      var key := EmailKey(email);
      var k := db.FindUserByEmail(key);
      if k.None? {
        return Failure(AppError(401, "Invalid credentials"));
      }
      if !PasswordMatches(db.users[k.value], password) {
        return Failure(AppError(401, "Invalid credentials"));
      }
      var u := db.users[k.value].(lastLoginAt := Some(now));
      ReplaceUser(k.value, u);
      r := Success(u);
    }

    /** The first account awaiting confirmation with `token`. */
    function FindVerification(token: string): (r: Option<nat>)
      reads db
      ensures r.Some? ==> r.value < |db.users| && AwaitsVerification(db.users[r.value], token)
      ensures r.None? ==> forall k :: 0 <= k < |db.users| ==> !AwaitsVerification(db.users[k], token)
    {
      FirstIndex(db.users, (u: User) => AwaitsVerification(u, token), 0)
    }

    /** `verifyEmail`. */
    method VerifyEmail(token: string) returns (r: Result<User, Err>)
      modifies db
      ensures db.workflows == old(db.workflows) && db.invitations == old(db.invitations)
      ensures db.organizations == old(db.organizations)
      ensures UniqueEmails(old(db.users)) ==> UniqueEmails(db.users)
      ensures old(FindVerification(token)).None? ==>
                r == Failure(AppError(400, "Invalid or expired verification token")) && db.users == old(db.users)
      ensures old(FindVerification(token)).Some? ==>
                var k := old(FindVerification(token)).value;
                r == Success(Confirmed(old(db.users)[k])) && db.users == old(db.users)[k := Confirmed(old(db.users)[k])]
    {
      var k := FindVerification(token);
      if k.None? {
        return Failure(AppError(400, "Invalid or expired verification token"));
      }
      var u := Confirmed(db.users[k.value]);
      ReplaceUser(k.value, u);
      r := Success(u);
    }

    /** `requestPasswordReset`: an unknown address gets the generic answer and
        nothing changes. */
    method RequestPasswordReset(email: string, resetToken: string, now: int) returns (r: ResetRequest)
      modifies db
      ensures db.workflows == old(db.workflows) && db.invitations == old(db.invitations)
      ensures db.organizations == old(db.organizations)
      ensures UniqueEmails(old(db.users)) ==> UniqueEmails(db.users)
      ensures old(db.FindUserByEmail(EmailKey(email))).None? ==>
                r == Generic("If email exists, reset link sent") && db.users == old(db.users)
      ensures old(db.FindUserByEmail(EmailKey(email))).Some? ==>
                var k := old(db.FindUserByEmail(EmailKey(email))).value;
                var u := ResetIssued(old(db.users)[k], resetToken, now);
                r == ResetLink(resetToken, u) && db.users == old(db.users)[k := u]
    {
      var key := EmailKey(email);
      var k := db.FindUserByEmail(key);
      if k.None? {
        return Generic("If email exists, reset link sent");
      }
      var u := ResetIssued(db.users[k.value], resetToken, now);
      ReplaceUser(k.value, u);
      r := ResetLink(resetToken, u);
    }

    /** The first account whose reset `token` is still open at `now`. */
    function FindReset(token: string, now: int): (r: Option<nat>)
      reads db
      ensures r.Some? ==> r.value < |db.users| && ResetCandidate(db.users[r.value], token, now)
      ensures r.None? ==> forall k :: 0 <= k < |db.users| ==> !ResetCandidate(db.users[k], token, now)
    {
      FirstIndex(db.users, (u: User) => ResetCandidate(u, token, now), 0)
    }

    /** `resetPassword`: saving runs the password check before hashing, so a
        too-short password changes nothing. */
    method ResetPassword(token: string, newPassword: string, now: int) returns (r: Result<User, Err>)
      modifies db
      ensures db.workflows == old(db.workflows) && db.invitations == old(db.invitations)
      ensures db.organizations == old(db.organizations)
      ensures UniqueEmails(old(db.users)) ==> UniqueEmails(db.users)
      ensures old(FindReset(token, now)).None? ==>
                r == Failure(AppError(400, "Invalid or expired reset token")) && db.users == old(db.users)
      ensures old(FindReset(token, now)).Some? && PasswordCheck(newPassword).Some? ==>
                r == Failure(Invalid(PasswordCheck(newPassword).value)) && db.users == old(db.users)
      ensures old(FindReset(token, now)).Some? && PasswordCheck(newPassword).None? ==>
                var k := old(FindReset(token, now)).value;
                var u := PasswordReplaced(old(db.users)[k], newPassword);
                r == Success(u) && db.users == old(db.users)[k := u]
    {
      var k := FindReset(token, now);
      if k.None? {
        return Failure(AppError(400, "Invalid or expired reset token"));
      }
      var check := PasswordCheck(newPassword);
      if check.Some? {
        return Failure(Invalid(check.value));
      }
      var u := PasswordReplaced(db.users[k.value], newPassword);
      ReplaceUser(k.value, u);
      r := Success(u);
    }
  }
}
