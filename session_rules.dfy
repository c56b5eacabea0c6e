/**
 * The rules of a chat session record (chat_session app): which creation requests are
 * accepted, the defaults `ChatSession.save` fills in, sharing, ownership transfer, the two
 * session permissions and the keys of the session cache. Each rule is a function from the
 * old record to the new one; `SessionRow` applies them in place.
 */
module SessionRules {
  import opened Wrappers
  import opened Entities
  import Text
  import Fields

  // ---------------------------------------------------------------- creation request

  /** The fields `ChatSessionCreateSerializer` reads; a missing title is empty and a missing or null model id is `None`. */
  datatype CreateRequest = CreateRequest(
    mode: string,
    title: string,
    modelAId: Option<Id>,
    modelBId: Option<Id>,
    metadata: map<string, string>)

  /** What validation leaves of a request: the mode, the trimmed title and the two model references. */
  datatype CreateChoice = CreateChoice(mode: string, title: string, modelA: Option<Id>, modelB: Option<Id>)

  const TITLE_MAX_LENGTH: nat := 255

  /** `AIModel.objects.get(id=id, is_active=True)` succeeds. */
  predicate ActiveIn(catalog: map<Id, AIModel>, id: Id)
  {
    id in catalog && catalog[id].isActive
  }

  /** A model reference is absent or names an active model. */
  predicate ActiveOrAbsent(catalog: map<Id, AIModel>, m: Option<Id>)
  {
    m.None? || ActiveIn(catalog, m.value)
  }

  /** The requests the serializer accepts, mode by mode. */
  predicate Acceptable(req: CreateRequest, catalog: map<Id, AIModel>)
  {
    |Text.Strip(req.title)| <= TITLE_MAX_LENGTH &&
    if req.mode == MODE_DIRECT then
      req.modelAId.Some? && ActiveIn(catalog, req.modelAId.value)
    else if req.mode == MODE_COMPARE then
      req.modelAId.Some? && req.modelBId.Some? && req.modelAId != req.modelBId
      && ActiveIn(catalog, req.modelAId.value) && ActiveIn(catalog, req.modelBId.value)
    else
      req.mode == MODE_RANDOM
  }

  /**
   * The mode checks of `ChatSessionCreateSerializer.validate`, after the choice check of the
   * `mode` field: direct mode needs model A and drops model B, compare mode needs two
   * different models, random mode drops both.
   */
  function ModeModels(req: CreateRequest): (r: Result<CreateChoice>)
    ensures r.Ok? ==> r.value.mode == req.mode && r.value.title == req.title && IsSessionMode(req.mode)
    ensures r.Ok? && req.mode == MODE_DIRECT ==> r.value.modelA == req.modelAId && r.value.modelA.Some? && r.value.modelB == None
    ensures r.Ok? && req.mode == MODE_COMPARE ==>
      r.value.modelA == req.modelAId && r.value.modelB == req.modelBId
      && r.value.modelA.Some? && r.value.modelB.Some? && r.value.modelA != r.value.modelB
    ensures r.Ok? && req.mode == MODE_RANDOM ==> r.value.modelA == None && r.value.modelB == None
    ensures r.Err? <==> !IsSessionMode(req.mode)
                        || (req.mode == MODE_DIRECT && req.modelAId.None?)
                        || (req.mode == MODE_COMPARE && (req.modelAId.None? || req.modelBId.None? || req.modelAId == req.modelBId))
  {
    if !IsSessionMode(req.mode) then
      Err("\"" + req.mode + "\" is not a valid choice.")
    else if req.mode == MODE_DIRECT then
      if req.modelAId.None? then Err("model_a_id is required for direct mode")
      else Ok(CreateChoice(req.mode, req.title, req.modelAId, None))
    else if req.mode == MODE_COMPARE then
      if req.modelAId.None? || req.modelBId.None? then Err("Both model_a_id and model_b_id are required for compare mode")
      else if req.modelAId == req.modelBId then Err("Cannot compare the same model")
      else Ok(CreateChoice(req.mode, req.title, req.modelAId, req.modelBId))
    else
      Ok(CreateChoice(req.mode, req.title, None, None))
  }

  /** The `title` field: optional and possibly blank, trimmed, and at most 255 characters long. */
  function TitleField(req: CreateRequest): (r: Result<CreateRequest>)
    ensures r.Ok? <==> |Text.Strip(req.title)| <= TITLE_MAX_LENGTH
    ensures r.Ok? ==> r.value == req.(title := Text.Strip(req.title))
  {
    match Fields.CharField(Some(req.title), false, true, Some(TITLE_MAX_LENGTH))
    case Err(e) => Err("title: " + e)
    case Ok(t) => Ok(req.(title := t.value))
  }

  /** `ChatSessionCreateSerializer.validate`: the mode checks, then each model still referenced must exist and be active. */
  function CheckModels(req: CreateRequest, catalog: map<Id, AIModel>): (r: Result<CreateChoice>)
    ensures r.Ok? ==> ModeModels(req) == r
    ensures r.Ok? ==> ActiveOrAbsent(catalog, r.value.modelA) && ActiveOrAbsent(catalog, r.value.modelB)
    ensures ModeModels(req).Err? ==> r == ModeModels(req)
    ensures (ModeModels(req).Ok? && ActiveOrAbsent(catalog, ModeModels(req).value.modelA)
             && ActiveOrAbsent(catalog, ModeModels(req).value.modelB)) ==> r.Ok?
  {
    match ModeModels(req)
    case Err(e) => Err(e)
    case Ok(c) =>
      if !ActiveOrAbsent(catalog, c.modelA) then Err("Model A not found or inactive")
      else if !ActiveOrAbsent(catalog, c.modelB) then Err("Model B not found or inactive")
      else Ok(c)
  }

  /**
   * `ChatSessionCreateSerializer`: the field checks (the mode is one of the choices, the
   * title passes its field), then `validate` on the trimmed request.
   */
  function ValidateCreate(req: CreateRequest, catalog: map<Id, AIModel>): (r: Result<CreateChoice>)
    ensures r.Ok? ==> r.value.title == Text.Strip(req.title) && |r.value.title| <= TITLE_MAX_LENGTH
    ensures r.Ok? ==> ActiveOrAbsent(catalog, r.value.modelA) && ActiveOrAbsent(catalog, r.value.modelB)
    ensures !IsSessionMode(req.mode) ==> r == ModeModels(req)
    ensures |Text.Strip(req.title)| > TITLE_MAX_LENGTH ==> r.Err?
    ensures IsSessionMode(req.mode) && |Text.Strip(req.title)| <= TITLE_MAX_LENGTH ==>
              r == CheckModels(req.(title := Text.Strip(req.title)), catalog)
  {
    if !IsSessionMode(req.mode) then ModeModels(req)
    else
      match TitleField(req)
      case Err(e) => Err(e)
      case Ok(trimmed) => CheckModels(trimmed, catalog)
  }

  /** Validation accepts exactly the acceptable requests. */
  lemma ValidateCreateAccepts(req: CreateRequest, catalog: map<Id, AIModel>)
    ensures ValidateCreate(req, catalog).Ok? <==> Acceptable(req, catalog)
  {
    if IsSessionMode(req.mode) && |Text.Strip(req.title)| <= TITLE_MAX_LENGTH {
      var trimmed := req.(title := Text.Strip(req.title));
      assert ValidateCreate(req, catalog) == CheckModels(trimmed, catalog);
      if req.mode == MODE_COMPARE && Acceptable(req, catalog) {
        assert ActiveOrAbsent(catalog, trimmed.modelBId);
      }
    }
  }

  // ---------------------------------------------------------------- save defaults

  /** The content of the first user message of a session's messages, taken in position order. */
  function FirstUserContent(ms: seq<Message>): (r: Option<string>)
    ensures r.None? <==> forall i :: 0 <= i < |ms| ==> ms[i].role != ROLE_USER
    ensures r.Some? ==> exists i :: 0 <= i < |ms| && ms[i].role == ROLE_USER && ms[i].content == r.value
                          && forall j :: 0 <= j < i ==> ms[j].role != ROLE_USER
  {
    if ms == [] then None
    else if ms[0].role == ROLE_USER then Some(ms[0].content)
    else
      var r := FirstUserContent(ms[1..]);
      assert forall i :: 1 <= i < |ms| ==> ms[i] == ms[1..][i - 1];
      r
  }

  /**
   * `ChatSession.save`: an empty title becomes the abbreviated first user message, when there
   * is one, and a session of an anonymous owner without an expiry takes the owner's. The
   * primary key is a uuid4 default, so it is always set. `owner` is the session's user.
   */
  function Saved(s: ChatSession, firstUser: Option<string>, owner: User): (r: ChatSession)
    ensures s.title != "" ==> r.title == s.title
    ensures s.title == "" && firstUser.Some? ==> r.title == Text.Abbreviate(firstUser.value)
    ensures s.title == "" && firstUser.None? ==> r.title == ""
    ensures s.expiresAt.Some? ==> r.expiresAt == s.expiresAt
    ensures s.expiresAt.None? ==> r.expiresAt == (if owner.isAnonymous then owner.anonymousExpiresAt else None)
    ensures r.(title := s.title, expiresAt := s.expiresAt) == s
  {
    var title := if s.title == "" && firstUser.Some? then Text.Abbreviate(firstUser.value) else s.title;
    var expires := if owner.isAnonymous && s.expiresAt.None? then owner.anonymousExpiresAt else s.expiresAt;
    s.(title := title, expiresAt := expires)
  }

  /** Saving twice is saving once. */
  lemma SavedIdempotent(s: ChatSession, firstUser: Option<string>, owner: User)
    ensures Saved(Saved(s, firstUser, owner), firstUser, owner) == Saved(s, firstUser, owner)
  {
    var once := Saved(s, firstUser, owner);
    if s.title == "" && firstUser.Some? && once.title == "" {
      assert |firstUser.value| <= 50;
    }
  }

  /** `ChatSessionCreateSerializer.create`: the requester owns the session, whose expiry an anonymous requester sets. */
  function CreatedSession(id: Id, req: CreateRequest, choice: CreateChoice, requester: User, now: int): (s: ChatSession)
    ensures s.user == requester.id && s.mode == choice.mode && s.title == choice.title
    ensures s.modelA == choice.modelA && s.modelB == choice.modelB
    ensures !s.isPublic && s.shareToken == None
    ensures s.expiresAt == (if requester.isAnonymous then requester.anonymousExpiresAt else None)
  {
    var raw := ChatSession(id, requester.id, choice.mode, choice.title, choice.modelA, choice.modelB, false, None, now,
                           if requester.isAnonymous then requester.anonymousExpiresAt else None, req.metadata);
    // A session being created has no messages yet.
    Saved(raw, None, requester)
  }

  // ---------------------------------------------------------------- sharing

  /** A share token that Python treats as true: present and non-empty. */
  predicate HasToken(s: ChatSession)
  {
    s.shareToken.Some? && s.shareToken.value != ""
  }

  /**
   * `ChatSessionShareSerializer.update` before its save: a session made public keeps its
   * token or receives `token` (a fresh `token_urlsafe(16)`); a session made private loses it.
   */
  function Shared(s: ChatSession, makePublic: bool, token: string): (r: ChatSession)
    ensures r.isPublic == makePublic
    ensures makePublic && HasToken(s) ==> r.shareToken == s.shareToken
    ensures makePublic && !HasToken(s) ==> r.shareToken == Some(token)
    ensures !makePublic ==> r.shareToken == None
    ensures r.(isPublic := s.isPublic, shareToken := s.shareToken) == s
  {
    if makePublic && !HasToken(s) then s.(isPublic := true, shareToken := Some(token))
    else if makePublic then s.(isPublic := true)
    else s.(isPublic := false, shareToken := None)
  }

  /** The `unshare` action before its save. */
  function Unshared(s: ChatSession): (r: ChatSession)
    ensures !r.isPublic && r.shareToken == None
    ensures r.(isPublic := s.isPublic, shareToken := s.shareToken) == s
  {
    s.(isPublic := false, shareToken := None)
  }

  /** `generate_share_token` before its save; the session's visibility is left as it was. */
  function WithToken(s: ChatSession, token: string): (r: ChatSession)
    ensures r.shareToken == Some(token) && r.isPublic == s.isPublic
    ensures r.(shareToken := s.shareToken) == s
  {
    s.(shareToken := Some(token))
  }

  /**
   * After a share update with a non-empty fresh token, a session carries a usable token
   * exactly when it is public, and sharing it again keeps the token it already has.
   */
  lemma ShareKeepsTokenAndVisibility(s: ChatSession, makePublic: bool, token: string, later: string)
    requires token != ""
    ensures HasToken(Shared(s, makePublic, token)) <==> Shared(s, makePublic, token).isPublic
    ensures makePublic ==> Shared(Shared(s, true, token), true, later).shareToken == Shared(s, true, token).shareToken
    ensures !HasToken(Unshared(s)) && !Unshared(s).isPublic
  {
  }

  /**
   * `get_share_url`: a link exists only for a session with a token rendered for a request,
   * and ends with the token after the shared-session path.
   */
  function ShareUrl(s: ChatSession, request: Option<(string, string)>): (url: Option<string>)
    ensures url.Some? <==> HasToken(s) && request.Some?
    ensures url.Some? ==> Text.StartsWith(url.value, request.value.0 + "://" + request.value.1)
    ensures url.Some? ==> |url.value| >= |s.shareToken.value| && url.value[|url.value| - |s.shareToken.value|..] == s.shareToken.value
  {
    if HasToken(s) && request.Some? then
      var (scheme, host) := request.value;
      var base := scheme + "://" + host;
      var u := base + "/chat/shared/" + s.shareToken.value;
      assert u[..|base|] == base;
      Some(u)
    else None
  }

  /** Two sessions rendered for the same request have the same link only if they have the same token. */
  lemma ShareUrlsDistinguishTokens(s: ChatSession, t: ChatSession, request: Option<(string, string)>)
    requires ShareUrl(s, request).Some? && ShareUrl(s, request) == ShareUrl(t, request)
    ensures s.shareToken == t.shareToken
  {
    var base := request.value.0 + "://" + request.value.1 + "/chat/shared/";
    var u := ShareUrl(s, request).value;
    assert u == base + s.shareToken.value;
    assert u == base + t.shareToken.value;
    assert s.shareToken.value == u[|base|..];
    assert t.shareToken.value == u[|base|..];
  }

  // ---------------------------------------------------------------- ownership transfer

  const TRANSFERRED_FROM: string := "transferred_from"
  const TRANSFERRED_AT: string := "transferred_at"

  /**
   * `transfer_ownership` before its save: only a session of an anonymous owner may move, and
   * only to a requester who is not anonymous; the new owner's session never expires and
   * its metadata records the previous owner and the time (`nowIso`).
   */
  function Transferred(s: ChatSession, owner: User, requester: User, nowIso: string): (r: Result<ChatSession>)
    ensures r.Err? <==> !owner.isAnonymous || requester.isAnonymous
    ensures !owner.isAnonymous ==> r == Err("Can only transfer sessions from anonymous users")
    ensures owner.isAnonymous && requester.isAnonymous ==> r == Err("Cannot transfer to anonymous user")
    ensures r.Ok? ==> r.value.user == requester.id && r.value.expiresAt == None
    ensures r.Ok? ==> r.value.metadata.Keys == s.metadata.Keys + {TRANSFERRED_FROM, TRANSFERRED_AT}
    ensures r.Ok? ==> r.value.metadata[TRANSFERRED_FROM] == owner.id && r.value.metadata[TRANSFERRED_AT] == nowIso
    ensures r.Ok? ==> r.value.(user := s.user, expiresAt := s.expiresAt, metadata := s.metadata) == s
  {
    if !owner.isAnonymous then Err("Can only transfer sessions from anonymous users")
    else if requester.isAnonymous then Err("Cannot transfer to anonymous user")
    else
      var md := s.metadata[TRANSFERRED_FROM := owner.id][TRANSFERRED_AT := nowIso];
      Ok(s.(user := requester.id, expiresAt := None, metadata := md))
  }

  /** The 404 answer of a lookup that finds no session. */
  const NOT_FOUND: string := "Not found."

  /**
   * `transfer_ownership` as written: `get_object` looks the session up among the requester's
   * own sessions, as for every action except `shared`, so the session found is always owned by
   * the requester, and the transfer checks then always refuse it.
   */
  function TransferAsWritten(s: ChatSession, requester: User, nowIso: string): (r: Result<ChatSession>)
    ensures r.Err?
    ensures s.user != requester.id ==> r == Err(NOT_FOUND)
    ensures s.user == requester.id && !requester.isAnonymous ==> r == Err("Can only transfer sessions from anonymous users")
    ensures s.user == requester.id && requester.isAnonymous ==> r == Err("Cannot transfer to anonymous user")
  {
    if s.user != requester.id then Err(NOT_FOUND)
    else Transferred(s, requester, requester, nowIso)
  }

  /**
   * The discrepancy: the transfer the action exists for, an anonymous user's session claimed by
   * a registered user, succeeds under the intended rule and is answered with 404 as written.
   */
  lemma TransferAsWrittenNeverClaims(s: ChatSession, owner: User, requester: User, nowIso: string)
    requires owner.id == s.user && owner.isAnonymous
    requires !requester.isAnonymous && requester.id != owner.id
    ensures Transferred(s, owner, requester, nowIso).Ok?
    ensures TransferAsWritten(s, requester, nowIso) == Err(NOT_FOUND)
  {
  }

  /** `cleanup_expired_sessions` deletes the sessions whose expiry lies before `now`. */
  predicate Expired(s: ChatSession, now: int)
  {
    s.expiresAt.Some? && s.expiresAt.value < now
  }

  /**
   * A transferred session, saved by its new (registered) owner, is never deleted by the
   * expiry cleanup, and cannot be transferred a second time.
   */
  lemma TransferredIsKept(s: ChatSession, owner: User, requester: User, nowIso: string, firstUser: Option<string>, now: int, third: User)
    requires Transferred(s, owner, requester, nowIso).Ok?
    ensures !Expired(Saved(Transferred(s, owner, requester, nowIso).value, firstUser, requester), now)
    ensures Transferred(Saved(Transferred(s, owner, requester, nowIso).value, firstUser, requester), requester, third, nowIso).Err?
  {
  }

  // ---------------------------------------------------------------- permissions

  /**
   * `IsSessionOwner.has_object_permission`: a read of a public session is allowed to
   * anyone; everything else only to the owner.
   */
  function IsSessionOwner(verb: string, s: ChatSession, requester: Id): (allowed: bool)
    ensures s.user == requester ==> allowed
    ensures verb !in SAFE_METHODS ==> (allowed <==> s.user == requester)
    ensures allowed && s.user != requester ==> verb in SAFE_METHODS && s.isPublic
  {
    (verb in SAFE_METHODS && s.isPublic) || s.user == requester
  }

  /** The token a request presents: the one in the URL when non-empty, else the query parameter. */
  function PresentedToken(urlToken: Option<string>, queryToken: Option<string>): Option<string>
  {
    if urlToken.Some? && urlToken.value != "" then urlToken else queryToken
  }

  /**
   * `CanAccessSharedSession.has_object_permission`: a public session is always readable; a
   * private one only with a non-empty presented token equal to its share token.
   */
  function CanAccessShared(s: ChatSession, urlToken: Option<string>, queryToken: Option<string>): (allowed: bool)
    ensures s.isPublic ==> allowed
    ensures !s.isPublic && s.shareToken.None? ==> !allowed
    ensures !s.isPublic && HasToken(s) && urlToken == s.shareToken ==> allowed
  {
    var token := PresentedToken(urlToken, queryToken);
    s.isPublic || (token.Some? && token.value != "" && s.shareToken == token)
  }

  /** When the URL carries a token, the query parameter is never consulted. */
  lemma UrlTokenWins(s: ChatSession, urlToken: Option<string>, q1: Option<string>, q2: Option<string>)
    requires urlToken.Some? && urlToken.value != ""
    ensures CanAccessShared(s, urlToken, q1) == CanAccessShared(s, urlToken, q2)
    ensures !s.isPublic && s.shareToken != urlToken ==> !CanAccessShared(s, urlToken, q1)
  {
  }

  // ---------------------------------------------------------------- session cache

  const CACHE_PREFIX: string := "session"
  const DEFAULT_TIMEOUT: nat := 3600
  /** The suffixed entries `invalidate_session_cache` deletes besides the base entry. */
  const RELATED_SUFFIXES: seq<string> := ["stats", "analysis", "export"]

  /** `get_session_key`: `session:<id>`, followed by `:<suffix>` when the suffix is non-empty. */
  function SessionKey(id: Id, suffix: string): (k: string)
    ensures Text.StartsWith(k, CACHE_PREFIX + ":" + id)
    ensures suffix == "" <==> |k| == |CACHE_PREFIX| + 1 + |id|
  {
    if suffix != "" then CACHE_PREFIX + ":" + id + ":" + suffix else CACHE_PREFIX + ":" + id
  }

  /** Session ids are uuids, which never contain a colon. */
  predicate ColonFree(id: Id)
  {
    forall i :: 0 <= i < |id| ==> id[i] != ':'
  }

  /** One colon-free id is not a proper prefix of another followed by a colon. */
  lemma ShorterIdDiffers(a: Id, b: Id, k1: string, k2: string, s1: string, s2: string)
    requires ColonFree(a) && ColonFree(b) && |a| < |b|
    requires k1 == SessionKey(a, s1) && k2 == SessionKey(b, s2)
    ensures k1 != k2
  {
    var n := |CACHE_PREFIX| + 1;
    assert k2[n + |a|] == b[|a|] != ':';
    if s1 != "" {
      assert k1[n + |a|] == ':';
    } else {
      assert |k1| == n + |a| < |k2|;
    }
  }

  /** Different (id, suffix) pairs never share a cache key. */
  lemma SessionKeyInjective(a: Id, b: Id, s1: string, s2: string)
    requires ColonFree(a) && ColonFree(b)
    requires SessionKey(a, s1) == SessionKey(b, s2)
    ensures a == b && s1 == s2
  {
    var k := SessionKey(a, s1);
    if |a| < |b| {
      ShorterIdDiffers(a, b, k, k, s1, s2);
    } else if |b| < |a| {
      ShorterIdDiffers(b, a, k, k, s2, s1);
    }
    var n := |CACHE_PREFIX| + 1;
    assert a == k[n..n + |a|] == b;
    if s1 != "" && s2 != "" {
      assert s1 == k[n + |a| + 1..] == s2;
    }
  }

  /** A cached value and the timeout it was stored with. */
  datatype CacheEntry<T> = CacheEntry(data: T, timeout: nat)

  /** `cache_session_data`: a missing or zero timeout means the default hour. */
  function CacheSessionData<T>(cache: map<string, CacheEntry<T>>, id: Id, data: T, suffix: string, timeout: Option<nat>): (c: map<string, CacheEntry<T>>)
    ensures c.Keys == cache.Keys + {SessionKey(id, suffix)}
    ensures c[SessionKey(id, suffix)].timeout > 0
    ensures timeout.Some? && timeout.value > 0 ==> c[SessionKey(id, suffix)].timeout == timeout.value
    ensures forall k :: k in cache && k != SessionKey(id, suffix) ==> c[k] == cache[k]
  {
    var t := if timeout.Some? && timeout.value != 0 then timeout.value else DEFAULT_TIMEOUT;
    cache[SessionKey(id, suffix) := CacheEntry(data, t)]
  }

  /** `get_cached_session_data`. */
  function GetCachedSessionData<T>(cache: map<string, CacheEntry<T>>, id: Id, suffix: string): (r: Option<T>)
    ensures r.Some? <==> SessionKey(id, suffix) in cache
  {
    if SessionKey(id, suffix) in cache then Some(cache[SessionKey(id, suffix)].data) else None
  }

  /** The keys `invalidate_session_cache` deletes. */
  function InvalidatedKeys(id: Id): set<string>
  {
    {SessionKey(id, "")} + set s | s in RELATED_SUFFIXES :: SessionKey(id, s)
  }

  /** `invalidate_session_cache`: the base entry and the stats, analysis and export entries go; the rest stays. */
  function InvalidateSessionCache<T>(cache: map<string, CacheEntry<T>>, id: Id): (c: map<string, CacheEntry<T>>)
    ensures c.Keys == cache.Keys - InvalidatedKeys(id)
    ensures forall k :: k in c ==> c[k] == cache[k]
  {
    cache - InvalidatedKeys(id)
  }

  /**
   * Data cached for a session is read back until the session's cache is invalidated; the
   * invalidation empties the base, stats, analysis and export entries and keeps entries of
   * other sessions and other suffixes.
   */
  lemma SessionCacheRoundTrip<T>(cache: map<string, CacheEntry<T>>, id: Id, data: T, suffix: string, timeout: Option<nat>, other: Id, otherSuffix: string)
    requires ColonFree(id) && ColonFree(other)
    ensures GetCachedSessionData(CacheSessionData(cache, id, data, suffix, timeout), id, suffix) == Some(data)
    ensures suffix == "" || suffix in RELATED_SUFFIXES ==>
      GetCachedSessionData(InvalidateSessionCache(CacheSessionData(cache, id, data, suffix, timeout), id), id, suffix) == None
    ensures other != id || (otherSuffix != "" && otherSuffix !in RELATED_SUFFIXES) ==>
      GetCachedSessionData(InvalidateSessionCache(cache, id), other, otherSuffix) == GetCachedSessionData(cache, other, otherSuffix)
  {
    var k := SessionKey(other, otherSuffix);
    if other != id || (otherSuffix != "" && otherSuffix !in RELATED_SUFFIXES) {
      if k in InvalidatedKeys(id) {
        if k == SessionKey(id, "") {
          SessionKeyInjective(other, id, otherSuffix, "");
        } else {
          var s :| s in RELATED_SUFFIXES && k == SessionKey(id, s);
          SessionKeyInjective(other, id, otherSuffix, s);
        }
      }
    }
    if suffix in RELATED_SUFFIXES {
      assert SessionKey(id, suffix) in InvalidatedKeys(id);
    }
  }
}
