/**
 * The user app (user/models.py, user/serializers.py, user/permissions.py, user/views.py): the
 * defaults `User.save` fills in, sign-up validation, anonymous sign-in, the two permission
 * classes, and the activity statistics of the stats view. Random uuids are parameters.
 */
module Users {
  import opened Wrappers
  import opened Entities
  import Text
  import Ordering
  import Fields

  /** Anonymous accounts expire 30 days after their first save. */
  const ANONYMOUS_LIFETIME: int := 30 * SECONDS_PER_DAY

  const PROVIDER_GOOGLE: string := "google"
  const PROVIDER_ANONYMOUS: string := "anonymous"

  /** A Python string field is truthy when it is neither None nor empty. */
  predicate Present(v: Option<string>)
  {
    v.Some? && v.value != ""
  }

  /** `email.split('@')[0]`: everything before the first '@'. */
  function LocalPart(email: string): (r: string)
    ensures '@' !in r
    ensures |r| <= |email| && r == email[..|r|]
    ensures |r| < |email| ==> email[|r|] == '@'
  {
    if email == [] || email[0] == '@' then [] else [email[0]] + LocalPart(email[1..])
  }

  /** `f"Anonymous_{str(uuid)[:8]}"`. */
  function AnonymousName(uuid: string): (r: string)
    ensures |r| > 0
  {
    "Anonymous_" + Text.PrefixOf(uuid, 8)
  }

  // ---------------------------------------------------------------- User.save

  /** The row `User.save` writes: an anonymous user gets an expiry, an empty name a default. */
  function SavedUser(u: User, now: int): User
  {
    var expiry := if u.isAnonymous && u.anonymousExpiresAt.None? then Some(now + ANONYMOUS_LIFETIME) else u.anonymousExpiresAt;
    var name := if u.displayName != "" then u.displayName
                else if Present(u.email) then LocalPart(u.email.value)
                else AnonymousName(u.id);
    u.(anonymousExpiresAt := expiry, displayName := name)
  }

  /**
   * What saving guarantees: an anonymous user always has an expiry afterwards, new ones 30
   * days ahead; an existing expiry and a non-anonymous user's expiry are kept; a non-empty
   * name is kept; an empty one becomes the e-mail's local part or "Anonymous_" and the first 8
   * characters of the id; no other field changes.
   */
  lemma SavedUserRules(u: User, now: int)
    ensures var v := SavedUser(u, now);
            (u.isAnonymous ==> v.anonymousExpiresAt.Some?)
            && (u.isAnonymous && u.anonymousExpiresAt.None? ==> v.anonymousExpiresAt == Some(now + ANONYMOUS_LIFETIME))
            && (u.anonymousExpiresAt.Some? || !u.isAnonymous ==> v.anonymousExpiresAt == u.anonymousExpiresAt)
            && (u.displayName != "" ==> v.displayName == u.displayName)
            && (u.displayName == "" && Present(u.email) ==>
                  '@' !in v.displayName && u.email.value[..|v.displayName|] == v.displayName)
            && (u.displayName == "" && !Present(u.email) ==> v.displayName == "Anonymous_" + Text.PrefixOf(u.id, 8))
            && v.(anonymousExpiresAt := u.anonymousExpiresAt, displayName := u.displayName) == u
  {
  }

  /** Saving again, at any later time, changes nothing. */
  lemma SavedUserIdempotent(u: User, now: int, later: int)
    ensures SavedUser(SavedUser(u, now), later) == SavedUser(u, now)
  {
  }

  /** A `users` row; `Save` is `User.save` with the clock as a parameter. */
  class UserRow {
    var id: Id
    var email: Option<string>
    var displayName: string
    var authProvider: string
    var firebaseUid: Option<string>
    var isAnonymous: bool
    var anonymousExpiresAt: Option<int>
    var isActive: bool

    /** The row's current field values. */
    function Value(): User
      reads this
    {
      User(id, email, displayName, authProvider, firebaseUid, isAnonymous, anonymousExpiresAt, isActive)
    }

    constructor (u: User)
      ensures Value() == u
    {
      id, email, displayName, authProvider := u.id, u.email, u.displayName, u.authProvider;
      firebaseUid, isAnonymous, anonymousExpiresAt, isActive := u.firebaseUid, u.isAnonymous, u.anonymousExpiresAt, u.isActive;
    }

    method Save(now: int)
      modifies this
      ensures Value() == SavedUser(old(Value()), now)
    {
      if isAnonymous && anonymousExpiresAt.None? {
        anonymousExpiresAt := Some(now + ANONYMOUS_LIFETIME);
      }
      if displayName == "" {
        if email.Some? && email.value != "" {
          displayName := LocalPart(email.value);
        } else {
          displayName := AnonymousName(id);
        }
      }
    }
  }

  // ---------------------------------------------------------------- serializers

  /** The fields of a sign-up request; None stands for a missing key or a null value. */
  datatype SignUp = SignUp(
    email: Option<string>,
    displayName: Option<string>,
    authProvider: Option<string>,
    firebaseUid: Option<string>,
    isAnonymous: Option<bool>)

  /** `UserCreateSerializer.validate`; `uuid` stands for the fresh random uuid of the default name. */
  function Validate(attrs: SignUp, uuid: string): (r: Result<SignUp>)
    ensures attrs.authProvider == Some(PROVIDER_GOOGLE) ==>
      (r.Err? <==> !Present(attrs.email) || !Present(attrs.firebaseUid))
      && (r.Err? ==> r.error == "Email and Firebase UID are required for Google auth")
      && (r.Ok? ==> r.value == attrs)
    ensures attrs.authProvider == Some(PROVIDER_ANONYMOUS) ==>
      r.Ok? && r.value.isAnonymous == Some(true) && r.value.email == None && r.value.firebaseUid == None
      && r.value.authProvider == attrs.authProvider && Present(r.value.displayName)
      && (Present(attrs.displayName) ==> r.value.displayName == attrs.displayName)
      && (!Present(attrs.displayName) ==> r.value.displayName == Some(AnonymousName(uuid)))
    ensures attrs.authProvider != Some(PROVIDER_GOOGLE) && attrs.authProvider != Some(PROVIDER_ANONYMOUS) ==> r == Ok(attrs)
  {
    if attrs.authProvider == Some(PROVIDER_GOOGLE) then
      if !Present(attrs.email) || !Present(attrs.firebaseUid) then Err("Email and Firebase UID are required for Google auth")
      else Ok(attrs)
    else if attrs.authProvider == Some(PROVIDER_ANONYMOUS) then
      var forced := attrs.(isAnonymous := Some(true), email := None, firebaseUid := None);
      if Present(attrs.displayName) then Ok(forced) else Ok(forced.(displayName := Some(AnonymousName(uuid))))
    else Ok(attrs)
  }

  // ---------------------------------------------------------------- e-mail format

  predicate IsAlnum(c: char) { Text.IsLetter(c) || '0' <= c <= '9' }

  /** The characters Django's e-mail validator allows in an unquoted local part, besides dots. */
  predicate IsAtomChar(c: char)
  {
    IsAlnum(c) || c in "!#$%&'*+/=?^_`{}|~-"
  }

  /** A dot-atom: atoms separated by single dots, with no dot at either end. */
  predicate IsDotAtom(s: string)
  {
    s != [] && s[0] != '.' && s[|s| - 1] != '.'
    && forall i :: 0 <= i < |s| ==> IsAtomChar(s[i]) || (s[i] == '.' && 0 < i && s[i - 1] != '.')
  }

  /** A domain label: 1 to 63 letters, digits and hyphens, starting and ending with a letter or digit. */
  predicate IsLabel(l: string)
  {
    1 <= |l| <= 63 && IsAlnum(l[0]) && IsAlnum(l[|l| - 1]) && forall c :: c in l ==> IsAlnum(c) || c == '-'
  }

  /** The last label of a domain: 2 to 63 letters, digits and hyphens, not ending with a hyphen. */
  predicate IsTopLabel(t: string)
  {
    2 <= |t| <= 63 && t[|t| - 1] != '-' && forall c :: c in t ==> IsAlnum(c) || c == '-'
  }

  /** One or more labels, each followed by a dot, then the last label. */
  predicate IsDomain(s: string)
    decreases |s|
  {
    exists i :: 0 < i < |s| && s[i] == '.' && IsLabel(s[..i]) && (IsTopLabel(s[i + 1..]) || IsDomain(s[i + 1..]))
  }

  /**
   * Django's `EmailValidator`: a dot-atom local part, then '@', then `localhost` or a dotted
   * domain name.
   */
  predicate IsEmail(s: string)
  {
    exists k :: 0 <= k < |s| && s[k] == '@' && IsDotAtom(s[..k]) && (s[k + 1..] == "localhost" || IsDomain(s[k + 1..]))
  }

  const INVALID_EMAIL: string := "Enter a valid email address."
  const EMAIL_TAKEN: string := "user with this email already exists."
  const UID_TAKEN: string := "user with this firebase uid already exists."

  /**
   * The checks of the `User` model's unique e-mail after trimming: a null or blank value skips
   * them; any other value must be an e-mail address that no stored user has.
   */
  predicate EmailAcceptable(email: Option<string>, emails: set<string>)
  {
    email.None? || email.value == [] || (IsEmail(email.value) && email.value !in emails)
  }

  /** The unique Firebase uid after trimming: a null or blank value is not checked, any other must be unused. */
  predicate UidAcceptable(uid: Option<string>, uids: set<string>)
  {
    uid.None? || uid.value == [] || uid.value !in uids
  }

  /**
   * The field checks of `UserCreateSerializer`, taken from the `User` model: an optional
   * e-mail of at most 254 characters that is a valid address not held by a stored user
   * (`emails`), a required non-blank display name of at most 255, a required provider that is
   * google or anonymous, an optional Firebase uid of at most 255 not held by a stored user
   * (`uids`); every text trimmed.
   */
  function SignUpFields(attrs: SignUp, emails: set<string>, uids: set<string>): (r: Result<SignUp>)
    ensures r.Ok? <==> (attrs.email.None? || |Text.Strip(attrs.email.value)| <= 254)
                       && EmailAcceptable(Fields.Trimmed(attrs.email), emails)
                       && attrs.displayName.Some? && Text.Strip(attrs.displayName.value) != []
                       && |Text.Strip(attrs.displayName.value)| <= 255
                       && attrs.authProvider.Some? && attrs.authProvider.value in {PROVIDER_GOOGLE, PROVIDER_ANONYMOUS}
                       && (attrs.firebaseUid.None? || |Text.Strip(attrs.firebaseUid.value)| <= 255)
                       && UidAcceptable(Fields.Trimmed(attrs.firebaseUid), uids)
    ensures r.Ok? ==> r.value == SignUp(Fields.Trimmed(attrs.email), Fields.Trimmed(attrs.displayName), attrs.authProvider,
                                        Fields.Trimmed(attrs.firebaseUid), attrs.isAnonymous)
  {
    var email := Fields.CharField(attrs.email, false, true, Some(254));
    var name := Fields.CharField(attrs.displayName, true, false, Some(255));
    var provider := Fields.ChoiceField(attrs.authProvider, true, {PROVIDER_GOOGLE, PROVIDER_ANONYMOUS});
    var uid := Fields.CharField(attrs.firebaseUid, false, true, Some(255));
    if email.Err? then Err("email: " + email.error)
    else if email.value.Some? && email.value.value != [] && !IsEmail(email.value.value) then Err("email: " + INVALID_EMAIL)
    else if email.value.Some? && email.value.value in emails && email.value.value != [] then Err("email: " + EMAIL_TAKEN)
    else if name.Err? then Err("display_name: " + name.error)
    else if provider.Err? then Err("auth_provider: " + provider.error)
    else if uid.Err? then Err("firebase_uid: " + uid.error)
    else if uid.value.Some? && uid.value.value in uids && uid.value.value != [] then Err("firebase_uid: " + UID_TAKEN)
    else Ok(SignUp(email.value, name.value, provider.value, uid.value, attrs.isAnonymous))
  }

  /**
   * `UserCreateSerializer`: the field checks, then `validate` on the trimmed attributes;
   * `emails` and `uids` are those of the stored users.
   */
  function ValidateSignUp(attrs: SignUp, emails: set<string>, uids: set<string>, uuid: string): (r: Result<SignUp>)
    ensures r.Ok? <==> SignUpFields(attrs, emails, uids).Ok?
                       && (attrs.authProvider == Some(PROVIDER_GOOGLE) ==>
                             Present(Fields.Trimmed(attrs.email)) && Present(Fields.Trimmed(attrs.firebaseUid)))
    ensures SignUpFields(attrs, emails, uids).Ok? ==> r == Validate(SignUpFields(attrs, emails, uids).value, uuid)
    ensures r.Ok? ==> r.value.authProvider == attrs.authProvider
                      && r.value.authProvider.value in {PROVIDER_GOOGLE, PROVIDER_ANONYMOUS}
    // A display name always reaches `validate`, so the generated anonymous name is never used.
    ensures r.Ok? ==> r.value.displayName == Fields.Trimmed(attrs.displayName) && Present(r.value.displayName)
    // A Google account gets a well-formed e-mail and a uid that no stored user has.
    ensures r.Ok? && attrs.authProvider == Some(PROVIDER_GOOGLE) ==>
      IsEmail(r.value.email.value) && r.value.email.value !in emails && r.value.firebaseUid.value !in uids
  {
    match SignUpFields(attrs, emails, uids)
    case Err(e) => Err(e)
    case Ok(fields) => Validate(fields, uuid)
  }

  /** Validating already validated attributes accepts them unchanged, whatever uuid is drawn. */
  lemma ValidateSignUpStable(attrs: SignUp, emails: set<string>, uids: set<string>, uuid: string, uuid2: string)
    requires ValidateSignUp(attrs, emails, uids, uuid).Ok?
    ensures ValidateSignUp(ValidateSignUp(attrs, emails, uids, uuid).value, emails, uids, uuid2) == ValidateSignUp(attrs, emails, uids, uuid)
  {
    var fields := SignUpFields(attrs, emails, uids).value;
    var v := Validate(fields, uuid).value;
    Fields.CharFieldStable(attrs.email, false, true, Some(254));
    Fields.CharFieldStable(attrs.displayName, true, false, Some(255));
    Fields.CharFieldStable(attrs.firebaseUid, false, true, Some(255));
    if v.email.Some? { Text.StripIdempotent(v.email.value); }
    if v.displayName.Some? { Text.StripIdempotent(v.displayName.value); }
    if v.firebaseUid.Some? { Text.StripIdempotent(v.firebaseUid.value); }
  }

  /** The address check refuses a text without '@', such as "abc". */
  lemma NoAtIsNoEmail(s: string)
    requires '@' !in s
    ensures !IsEmail(s)
  {
  }

  /** A plain address such as "ann@example.com" passes the address check. */
  lemma PlainAddressIsEmail()
    ensures IsEmail("ann@example.com")
  {
    var s := "ann@example.com";
    var u := s[..3];
    assert u[0] == 'a' && u[1] == 'n' && u[2] == 'n' && |u| == 3;
    assert IsAtomChar('a') && IsAtomChar('n');
    assert IsDotAtom(u);
    var d := s[4..];
    assert d == "example.com";
    assert d[..7] == "example" && d[8..] == "com";
    assert forall c :: c in "example" ==> IsAlnum(c);
    assert forall c :: c in "com" ==> IsAlnum(c);
    assert IsLabel(d[..7]) && IsTopLabel(d[8..]);
    assert IsDomain(d);
  }

  const THEMES: seq<string> := ["light", "dark", "system"]

  /** `UserPreferencesSerializer.validate_theme`. */
  function ValidateTheme(value: string): (r: Result<string>)
    ensures r.Ok? <==> value == "light" || value == "dark" || value == "system"
    ensures r.Ok? ==> r.value == value
    ensures r.Err? ==> r.error == "Theme must be one of ['light', 'dark', 'system']"
  {
    if value in THEMES then Ok(value) else Err("Theme must be one of ['light', 'dark', 'system']")
  }

  /**
   * `AnonymousAuthSerializer.create`: a new anonymous account, named as asked or
   * "Anonymous_" and 8 characters of a fresh uuid, saved with a 30-day expiry.
   */
  method CreateAnonymous(displayName: Option<string>, id: Id, uuid: string, now: int) returns (u: User)
    ensures u.id == id && u.authProvider == PROVIDER_ANONYMOUS && u.isAnonymous && u.isActive
    ensures u.email == None && u.firebaseUid == None
    ensures u.anonymousExpiresAt == Some(now + ANONYMOUS_LIFETIME)
    ensures Present(displayName) ==> u.displayName == displayName.value
    ensures !Present(displayName) ==> u.displayName == AnonymousName(uuid)
    ensures u.displayName != ""
  {
    var name := if Present(displayName) then displayName.value else AnonymousName(uuid);
    var row := new UserRow(User(id, None, name, PROVIDER_ANONYMOUS, None, true, None, true));
    row.Save(now);
    u := row.Value();
  }

  // ---------------------------------------------------------------- permissions

  /**
   * Who made a request: nobody (Django's `AnonymousUser`, which is truthy, not authenticated
   * and anonymous), or an account resolved from a JWT or an anonymous token.
   */
  datatype Principal = Nobody | Member(id: Id, isAnonymous: bool)

  predicate IsAuthenticated(p: Principal) { p.Member? }

  predicate HasAnonymousFlag(p: Principal) { p.Nobody? || p.isAnonymous }

  /** `IsOwnerOrReadOnly.has_object_permission` for the user object `obj`. */
  function IsOwnerOrReadOnly(verb: string, obj: Id, requester: Principal): (allowed: bool)
  {
    verb in SAFE_METHODS || (requester.Member? && requester.id == obj)
  }

  /** Reads are open to everyone, writes to the user themself only, and a user may always write to their own object. */
  lemma OwnerOrReadOnlyRules(verb: string, obj: Id, requester: Principal)
    ensures verb in SAFE_METHODS ==> IsOwnerOrReadOnly(verb, obj, requester)
    ensures verb !in SAFE_METHODS ==> (IsOwnerOrReadOnly(verb, obj, requester) <==> requester.Member? && requester.id == obj)
    ensures requester.Member? ==> IsOwnerOrReadOnly(verb, requester.id, requester)
  {
  }

  /** `IsAuthenticatedOrAnonymousWithToken.has_permission` as written. */
  predicate AuthenticatedOrAnonymousAsWritten(p: Principal)
  {
    IsAuthenticated(p) || HasAnonymousFlag(p)
  }

  /** As written the check admits every request, including one that carries no credentials. */
  lemma AsWrittenAdmitsEveryone(p: Principal)
    ensures AuthenticatedOrAnonymousAsWritten(p)
    ensures AuthenticatedOrAnonymousAsWritten(Nobody)
  {
  }

  /** The check the class's name describes: an authenticated account or an anonymous account resolved from its token. */
  predicate AuthenticatedOrAnonymousWithToken(p: Principal)
  {
    IsAuthenticated(p) || (p.Member? && p.isAnonymous)
  }

  /** The corrected check admits exactly the requests that resolved to an account. */
  lemma WithTokenRefusesNobody(p: Principal)
    ensures AuthenticatedOrAnonymousWithToken(p) <==> p.Member?
    ensures !AuthenticatedOrAnonymousWithToken(Nobody)
    ensures p.Member? && p.isAnonymous ==> AuthenticatedOrAnonymousWithToken(p)
  {
  }

  // ---------------------------------------------------------------- stats view

  /**
   * `_calculate_activity_streak` over the user's distinct active days, most recent first (the
   * query's `TruncDate`, `distinct` and `order_by('-day')`): the number of consecutive calendar
   * days ending at the most recent one, stopping at the first gap.
   */
  method ActivityStreak(days: seq<int>) returns (streak: nat)
    ensures streak == 0 <==> days == []
    ensures streak <= |days|
    ensures forall i :: 0 < i < streak ==> days[i] == days[i - 1] - 1
    ensures 0 < streak < |days| ==> days[streak] != days[streak - 1] - 1
    ensures streak > 0 ==> days[streak - 1] == days[0] - (streak - 1)
  {
    if days == [] {
      return 0;
    }
    streak := 1;
    var current := days[0];
    var i := 1;
    while i < |days|
      invariant 1 <= i <= |days| && streak == i
      invariant current == days[i - 1] == days[0] - (i - 1)
      invariant forall j :: 0 < j < i ==> days[j] == days[j - 1] - 1
    {
      if days[i] == current - 1 {
        streak := streak + 1;
        current := days[i];
      } else {
        break;
      }
      i := i + 1;
    }
  }

  /** The streak's contract leaves exactly one value: the run ends at the first gap. */
  lemma StreakDetermined(days: seq<int>, s: nat, t: nat)
    requires s <= |days| && t <= |days| && (s == 0 <==> days == []) && (t == 0 <==> days == [])
    requires forall i :: 0 < i < s ==> days[i] == days[i - 1] - 1
    requires 0 < s < |days| ==> days[s] != days[s - 1] - 1
    requires forall i :: 0 < i < t ==> days[i] == days[i - 1] - 1
    requires 0 < t < |days| ==> days[t] != days[t - 1] - 1
    ensures s == t
  {
  }

  /** The modes of the user's sessions, in table order. */
  function UserModes(sessions: seq<ChatSession>, user: Id): (modes: seq<string>)
    ensures |modes| <= |sessions|
    ensures forall m :: m in modes <==> exists i :: 0 <= i < |sessions| && sessions[i].user == user && sessions[i].mode == m
  {
    if sessions == [] then []
    else
      var rest := UserModes(sessions[1..], user);
      assert forall i :: 0 < i < |sessions| ==> sessions[i] == sessions[1..][i - 1];
      if sessions[0].user == user then [sessions[0].mode] + rest else rest
  }

  /** `_get_session_breakdown`: each mode the user has sessions in, with their number. */
  method SessionBreakdown(sessions: seq<ChatSession>, user: Id) returns (breakdown: map<string, nat>)
    ensures forall m :: m in breakdown <==> exists i :: 0 <= i < |sessions| && sessions[i].user == user && sessions[i].mode == m
    ensures forall m :: m in breakdown ==> breakdown[m] == Ordering.Occurrences(UserModes(sessions, user), m) > 0
  {
    var order;
    breakdown, order := Ordering.CountKeys(UserModes(sessions, user));
  }
}
