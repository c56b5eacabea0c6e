/**
 * A `ChatSession` row as the model and the views update it in place (chat_session/models.py,
 * chat_session/serializers.py, chat_session/views.py): every update ends with `save`, which
 * fills the title and expiry defaults. `messages` are the session's messages in position
 * order and `owner` is the user the row points to; both are read from the database by the
 * source.
 */
module SessionRow {
  import opened Wrappers
  import opened Entities
  import Text
  import SessionRules

  class ChatSessionRow {
    var id: Id
    var user: Id
    var mode: string
    var title: string
    var modelA: Option<Id>
    var modelB: Option<Id>
    var isPublic: bool
    var shareToken: Option<string>
    var createdAt: int
    var expiresAt: Option<int>
    var metadata: map<string, string>

    /** The row's current field values. */
    function Value(): ChatSession
      reads this
    {
      ChatSession(id, user, mode, title, modelA, modelB, isPublic, shareToken, createdAt, expiresAt, metadata)
    }

    constructor (s: ChatSession)
      ensures Value() == s
    {
      id, user, mode, title := s.id, s.user, s.mode, s.title;
      modelA, modelB, isPublic, shareToken := s.modelA, s.modelB, s.isPublic, s.shareToken;
      createdAt, expiresAt, metadata := s.createdAt, s.expiresAt, s.metadata;
    }

    /** `ChatSession.save`: an empty title takes the first user message, an anonymous owner's expiry is copied. */
    method Save(messages: seq<Message>, owner: User)
      requires owner.id == user
      modifies this
      ensures Value() == SessionRules.Saved(old(Value()), SessionRules.FirstUserContent(messages), owner)
    {
      var first := SessionRules.FirstUserContent(messages);
      if title == "" && first.Some? {
        title := Text.Abbreviate(first.value);
      }
      if owner.isAnonymous && expiresAt.None? {
        expiresAt := owner.anonymousExpiresAt;
      }
    }

    /** `generate_share_token`: stores the token (a fresh random one in the source), saves, and returns it. */
    method GenerateShareToken(token: string, messages: seq<Message>, owner: User) returns (t: string)
      requires owner.id == user
      modifies this
      ensures t == token && shareToken == Some(token)
      ensures Value() == SessionRules.Saved(SessionRules.WithToken(old(Value()), token), SessionRules.FirstUserContent(messages), owner)
    {
      shareToken := Some(token);
      Save(messages, owner);
      t := token;
    }

    /** `ChatSessionShareSerializer.update`; `token` stands for the fresh random token. */
    method ShareUpdate(makePublic: bool, token: string, messages: seq<Message>, owner: User)
      requires owner.id == user
      modifies this
      ensures Value() == SessionRules.Saved(SessionRules.Shared(old(Value()), makePublic, token), SessionRules.FirstUserContent(messages), owner)
    {
      isPublic := makePublic;
      if isPublic && !(shareToken.Some? && shareToken.value != "") {
        shareToken := Some(token);
      } else if !isPublic {
        shareToken := None;
      }
      Save(messages, owner);
    }

    /** The `unshare` action. */
    method Unshare(messages: seq<Message>, owner: User)
      requires owner.id == user
      modifies this
      ensures Value() == SessionRules.Saved(SessionRules.Unshared(old(Value())), SessionRules.FirstUserContent(messages), owner)
    {
      isPublic := false;
      shareToken := None;
      Save(messages, owner);
    }

    /**
     * The `transfer_ownership` action as written: the row is found only when the requester
     * owns it, and then the checks refuse it, so the row never changes.
     */
    method TransferOwnershipAsWritten(requester: User, nowIso: string) returns (r: Result<Id>)
      ensures r.Err? && r.error == SessionRules.TransferAsWritten(Value(), requester, nowIso).error
      ensures user != requester.id ==> r == Err(SessionRules.NOT_FOUND)
    {
      if user != requester.id {
        return Err(SessionRules.NOT_FOUND);
      }
      if !requester.isAnonymous {
        return Err("Can only transfer sessions from anonymous users");
      }
      return Err("Cannot transfer to anonymous user");
    }

    /**
     * The `transfer_ownership` action as intended, with the session found whoever owns it:
     * the checks answer with an error and leave the row as it was; otherwise the row is transferred and saved, and the session id is returned.
     */
    method TransferOwnership(owner: User, requester: User, nowIso: string, messages: seq<Message>) returns (r: Result<Id>)
      requires owner.id == user
      modifies this
      ensures var t := SessionRules.Transferred(old(Value()), owner, requester, nowIso);
              (r.Err? <==> t.Err?)
              && (t.Err? ==> r.error == t.error && Value() == old(Value()))
              && (t.Ok? ==> r == Ok(id) && Value() == SessionRules.Saved(t.value, SessionRules.FirstUserContent(messages), requester))
    {
      if !owner.isAnonymous {
        return Err("Can only transfer sessions from anonymous users");
      }
      if requester.isAnonymous {
        return Err("Cannot transfer to anonymous user");
      }
      var from := owner.id;
      user := requester.id;
      expiresAt := None;
      metadata := metadata[SessionRules.TRANSFERRED_FROM := from];
      metadata := metadata[SessionRules.TRANSFERRED_AT := nowIso];
      Save(messages, requester);
      r := Ok(id);
    }
  }
}
