/**
 * Feedback submission rules: the field and object validators of FeedbackCreateSerializer,
 * the size bound of BulkFeedbackSerializer (feedback/serializers.py) and the two feedback
 * permissions (feedback/permissions.py). A validator either accepts its input or fails with
 * the text of the first check that rejects it.
 */
module FeedbackRules {
  import opened Wrappers
  import opened Entities
  import Text

  /** The categories a feedback may name. */
  const VALID_FEEDBACK_CATEGORIES: seq<string> := [
    "accuracy", "helpfulness", "creativity", "speed", "relevance", "completeness",
    "clarity", "conciseness", "technical_accuracy", "tone", "formatting"]

  const MIN_BULK: nat := 1
  const MAX_BULK: nat := 50

  predicate IsFeedbackType(t: string) { t in {FEEDBACK_PREFERENCE, FEEDBACK_RATING, FEEDBACK_REPORT} }

  /** The request body of a feedback submission. */
  datatype FeedbackInput = FeedbackInput(
    sessionId: Id,
    messageId: Option<Id>,
    feedbackType: string,
    preferredModelId: Option<Id>,
    rating: Option<int>,
    categories: seq<string>,
    comment: string)

  // ---------------------------------------------------------------- field validators

  /**
   * The rating field: the model's 1..5 bounds, then validate_rating, which refuses a rating
   * on any feedback that is not of the rating type.
   */
  function ValidateRating(input: FeedbackInput): (r: Result<Option<int>>)
    ensures r.Ok? <==> input.rating.None? || (1 <= input.rating.value <= 5 && input.feedbackType == FEEDBACK_RATING)
    ensures r.Ok? ==> r.value == input.rating
  {
    match input.rating
    case None => Ok(None)
    case Some(v) =>
      if v < 1 then Err("Ensure this value is greater than or equal to 1.")
      else if v > 5 then Err("Ensure this value is less than or equal to 5.")
      else if input.feedbackType != FEEDBACK_RATING then Err("Rating is only valid for 'rating' feedback type")
      else Ok(Some(v))
  }

  /** validate_preferred_model_id: only preference feedback names a model, and the model must exist. */
  function ValidatePreferredModel(input: FeedbackInput, models: set<Id>): (r: Result<Option<Id>>)
    ensures r.Ok? <==> input.preferredModelId.None?
                       || (input.feedbackType == FEEDBACK_PREFERENCE && input.preferredModelId.value in models)
    ensures r.Ok? ==> r.value == input.preferredModelId
  {
    match input.preferredModelId
    case None => Ok(None)
    case Some(m) =>
      if input.feedbackType != FEEDBACK_PREFERENCE then Err("Preferred model is only valid for 'preference' feedback type")
      else if m !in models then Err("Model not found")
      else Ok(Some(m))
  }

  /** validate_categories: every named category is one of the eleven allowed ones. */
  function ValidateCategories(categories: seq<string>): (r: Result<seq<string>>)
    ensures r.Ok? <==> forall c :: c in categories ==> c in VALID_FEEDBACK_CATEGORIES
    ensures r.Ok? ==> r.value == categories
  {
    if forall c :: c in categories ==> c in VALID_FEEDBACK_CATEGORIES then Ok(categories)
    else Err("Invalid categories")
  }

  /** The field checks, in declaration order: feedback type, preferred model, rating, categories. */
  function ValidateFields(input: FeedbackInput, models: set<Id>): (r: Result<FeedbackInput>)
    ensures r.Ok? <==> IsFeedbackType(input.feedbackType)
                       && ValidatePreferredModel(input, models).Ok?
                       && ValidateRating(input).Ok?
                       && ValidateCategories(input.categories).Ok?
    ensures r.Ok? ==> r.value == input
  {
    if !IsFeedbackType(input.feedbackType) then Err("Not a valid choice.")
    else if ValidatePreferredModel(input, models).Err? then Err(ValidatePreferredModel(input, models).error)
    else if ValidateRating(input).Err? then Err(ValidateRating(input).error)
    else if ValidateCategories(input.categories).Err? then Err(ValidateCategories(input.categories).error)
    else Ok(input)
  }

  // ---------------------------------------------------------------- object validation

  /** The session is the requester's own or public. */
  predicate HasAccess(session: ChatSession, user: Id)
  {
    session.user == user || session.isPublic
  }

  /** What validate attaches to the input: the session and, when one is named, the message. */
  datatype Validated = Validated(session: ChatSession, message: Option<Message>)

  /**
   * validate: the session must exist and be accessible, a named message must belong to it,
   * preference feedback needs a compare session and one of its two models, and rating
   * feedback needs a truthy rating.
   */
  function Validate(input: FeedbackInput, user: Id, sessions: map<Id, ChatSession>, messages: map<Id, Message>)
    : (r: Result<Validated>)
    ensures r.Ok? ==> input.sessionId in sessions && r.value.session == sessions[input.sessionId]
    ensures r.Ok? ==> HasAccess(r.value.session, user)
    ensures r.Ok? && input.messageId.Some? ==>
      r.value.message.Some? && input.messageId.value in messages
      && r.value.message.value == messages[input.messageId.value] && r.value.message.value.session == input.sessionId
    ensures r.Ok? && input.feedbackType == FEEDBACK_PREFERENCE ==>
      r.value.session.mode == MODE_COMPARE && input.preferredModelId.Some?
      && input.preferredModelId in {r.value.session.modelA, r.value.session.modelB}
    ensures r.Ok? && input.feedbackType == FEEDBACK_RATING ==> input.rating.Some? && input.rating.value != 0
    ensures input.sessionId !in sessions ==> r == Err("Session not found")
  {
    if input.sessionId !in sessions then Err("Session not found")
    else
      var session := sessions[input.sessionId];
      if !HasAccess(session, user) then Err("You don't have access to this session")
      else if input.messageId.Some?
              && (input.messageId.value !in messages || messages[input.messageId.value].session != input.sessionId)
      then Err("Message not found in session")
      else
        var message := if input.messageId.Some? then Some(messages[input.messageId.value]) else None;
        if input.feedbackType == FEEDBACK_PREFERENCE && session.mode != MODE_COMPARE then
          Err("Preference feedback is only valid for compare mode sessions")
        else if input.feedbackType == FEEDBACK_PREFERENCE && input.preferredModelId.None? then
          Err("Preferred model is required for preference feedback")
        else if input.feedbackType == FEEDBACK_PREFERENCE && input.preferredModelId !in {session.modelA, session.modelB} then
          Err("Preferred model must be one of the session models")
        else if input.feedbackType == FEEDBACK_RATING && (input.rating.None? || input.rating.value == 0) then
          Err("Rating is required for rating feedback")
        else Ok(Validated(session, message))
  }

  /**
   * FeedbackCreateSerializer end to end: the field checks, then validate, then the stored
   * feedback, owned by the requester and stamped with a fresh id and the current time. The
   * comment goes through the serializer field of the model's text column, which trims it.
   */
  function CreateFeedback(input: FeedbackInput, user: Id, models: set<Id>, sessions: map<Id, ChatSession>,
                          messages: map<Id, Message>, id: Id, now: int): (r: Result<Feedback>)
    ensures r.Ok? <==> ValidateFields(input, models).Ok? && Validate(input, user, sessions, messages).Ok?
    ensures r.Ok? ==> r.value.id == id && r.value.user == user && r.value.createdAt == now
    ensures r.Ok? ==> r.value.session == input.sessionId && r.value.message == input.messageId
                      && r.value.preferred == input.preferredModelId && r.value.rating == input.rating
                      && r.value.categories == input.categories && r.value.comment == Text.Strip(input.comment)
  {
    match ValidateFields(input, models)
    case Err(e) => Err(e)
    case Ok(_) =>
      match Validate(input, user, sessions, messages)
      case Err(e) => Err(e)
      case Ok(v) =>
        Ok(Feedback(id, user, input.sessionId, input.messageId, input.feedbackType,
                    input.preferredModelId, input.rating, input.categories, Text.Strip(input.comment), now))
  }

  /** What every stored feedback satisfies once accepted, stated without the validators' order of checks. */
  ghost predicate WellFormed(f: Feedback, models: set<Id>, sessions: map<Id, ChatSession>, messages: map<Id, Message>)
  {
    && IsFeedbackType(f.feedbackType)
    && f.session in sessions && HasAccess(sessions[f.session], f.user)
    && (f.message.Some? ==> f.message.value in messages && messages[f.message.value].session == f.session)
    && (f.rating.Some? ==> f.feedbackType == FEEDBACK_RATING && 1 <= f.rating.value <= 5)
    && (f.feedbackType == FEEDBACK_RATING ==> f.rating.Some?)
    && (f.preferred.Some? ==> f.feedbackType == FEEDBACK_PREFERENCE && f.preferred.value in models)
    && (f.feedbackType == FEEDBACK_PREFERENCE ==>
          sessions[f.session].mode == MODE_COMPARE && f.preferred.Some?
          && f.preferred in {sessions[f.session].modelA, sessions[f.session].modelB})
    && (forall c :: c in f.categories ==> c in VALID_FEEDBACK_CATEGORIES)
    && Text.Strip(f.comment) == f.comment
  }

  /**
   * The validators accept exactly the well-formed feedback: whatever is created is well formed,
   * and every well-formed feedback would have been accepted as submitted.
   */
  lemma CreatedIffWellFormed(input: FeedbackInput, user: Id, models: set<Id>, sessions: map<Id, ChatSession>,
                             messages: map<Id, Message>, id: Id, now: int)
    ensures var r := CreateFeedback(input, user, models, sessions, messages, id, now);
      r.Ok? ==> WellFormed(r.value, models, sessions, messages)
    ensures var f := Feedback(id, user, input.sessionId, input.messageId, input.feedbackType,
                              input.preferredModelId, input.rating, input.categories, Text.Strip(input.comment), now);
      WellFormed(f, models, sessions, messages) ==> CreateFeedback(input, user, models, sessions, messages, id, now) == Ok(f)
  {
    var r := CreateFeedback(input, user, models, sessions, messages, id, now);
    Text.StripIdempotent(input.comment);
    if r.Ok? {
      assert ValidateRating(input).Ok? && ValidatePreferredModel(input, models).Ok?;
    }
  }

  // ---------------------------------------------------------------- bulk submission

  /**
   * BulkFeedbackSerializer: between 1 and 50 items, each validated like a single submission;
   * the first rejected item rejects the whole batch. `ids` supplies the fresh ids.
   */
  function BulkFeedback(inputs: seq<FeedbackInput>, user: Id, models: set<Id>, sessions: map<Id, ChatSession>,
                        messages: map<Id, Message>, ids: seq<Id>, now: int): (r: Result<seq<Feedback>>)
    requires |ids| >= |inputs|
    ensures r.Ok? <==> MIN_BULK <= |inputs| <= MAX_BULK
                       && forall i :: 0 <= i < |inputs| ==> CreateFeedback(inputs[i], user, models, sessions, messages, ids[i], now).Ok?
    ensures r.Ok? ==> |r.value| == |inputs|
    ensures r.Ok? ==>
      forall i :: 0 <= i < |inputs| ==> Ok(r.value[i]) == CreateFeedback(inputs[i], user, models, sessions, messages, ids[i], now)
  {
    if |inputs| < MIN_BULK then Err("Ensure this field has at least 1 elements.")
    else if |inputs| > MAX_BULK then Err("Ensure this field has no more than 50 elements.")
    else CreateAll(inputs, user, models, sessions, messages, ids, now)
  }

  function CreateAll(inputs: seq<FeedbackInput>, user: Id, models: set<Id>, sessions: map<Id, ChatSession>,
                     messages: map<Id, Message>, ids: seq<Id>, now: int): (r: Result<seq<Feedback>>)
    requires |ids| >= |inputs|
    ensures r.Ok? <==> forall i :: 0 <= i < |inputs| ==> CreateFeedback(inputs[i], user, models, sessions, messages, ids[i], now).Ok?
    ensures r.Ok? ==> |r.value| == |inputs|
    ensures r.Ok? ==>
      forall i :: 0 <= i < |inputs| ==> Ok(r.value[i]) == CreateFeedback(inputs[i], user, models, sessions, messages, ids[i], now)
  {
    if inputs == [] then Ok([])
    else
      var n := |inputs| - 1;
      assert forall i :: 0 <= i < n ==> inputs[..n][i] == inputs[i];
      var before := CreateAll(inputs[..n], user, models, sessions, messages, ids, now);
      var last := CreateFeedback(inputs[n], user, models, sessions, messages, ids[n], now);
      if before.Err? then Err(before.error)
      else if last.Err? then Err(last.error)
      else
        var r := before.value + [last.value];
        assert forall i :: 0 <= i < n ==> r[i] == before.value[i];
        Ok(r)
  }

  /** The AttributeError a list item's field validator raises. */
  const NO_INITIAL_DATA: string := "'FeedbackCreateSerializer' object has no attribute 'initial_data'"

  /**
   * An item whose preferred model, or whose rating once it passed the 1..5 bounds, reaches a
   * field validator that reads `initial_data`: the list's child serializer was built without
   * data and has none.
   */
  predicate ReadsInitialData(input: FeedbackInput)
  {
    input.preferredModelId.Some? || (input.rating.Some? && 1 <= input.rating.value <= 5)
  }

  /**
   * BulkFeedbackSerializer as written: the list field validates every item before its length
   * bounds, and the first item that reaches `initial_data` raises; otherwise the batch is
   * validated as intended.
   */
  function BulkFeedbackAsWritten(inputs: seq<FeedbackInput>, user: Id, models: set<Id>, sessions: map<Id, ChatSession>,
                                 messages: map<Id, Message>, ids: seq<Id>, now: int): (r: Result<seq<Feedback>>)
    requires |ids| >= |inputs|
    ensures (exists i :: 0 <= i < |inputs| && ReadsInitialData(inputs[i])) <==> r == Err(NO_INITIAL_DATA)
    ensures r.Ok? ==> forall i :: 0 <= i < |inputs| ==> inputs[i].feedbackType == FEEDBACK_REPORT
  {
    if exists i :: 0 <= i < |inputs| && ReadsInitialData(inputs[i]) then Err(NO_INITIAL_DATA)
    else
      BatchWithoutInitialData(inputs, user, models, sessions, messages, ids, now);
      BulkFeedback(inputs, user, models, sessions, messages, ids, now)
  }

  /**
   * A batch whose items never reach `initial_data` is accepted only when every item is a
   * report, and otherwise fails with a validation message, never with the AttributeError.
   */
  lemma BatchWithoutInitialData(inputs: seq<FeedbackInput>, user: Id, models: set<Id>, sessions: map<Id, ChatSession>,
                                messages: map<Id, Message>, ids: seq<Id>, now: int)
    requires |ids| >= |inputs|
    requires forall i :: 0 <= i < |inputs| ==> !ReadsInitialData(inputs[i])
    ensures var r := BulkFeedback(inputs, user, models, sessions, messages, ids, now);
      (r.Ok? ==> forall i :: 0 <= i < |inputs| ==> inputs[i].feedbackType == FEEDBACK_REPORT)
      && (r.Err? ==> r.error != NO_INITIAL_DATA)
  {
    var r := BulkFeedback(inputs, user, models, sessions, messages, ids, now);
    if r.Ok? {
      forall i | 0 <= i < |inputs|
        ensures inputs[i].feedbackType == FEEDBACK_REPORT
      {
        OnlyReportsPass(inputs[i], user, models, sessions, messages, ids[i], now);
      }
    } else {
      BulkErrorNotAttribute(inputs, user, models, sessions, messages, ids, now);
    }
  }

  /** An accepted item that never reads `initial_data` is a report: preferences and ratings both need it. */
  lemma OnlyReportsPass(input: FeedbackInput, user: Id, models: set<Id>, sessions: map<Id, ChatSession>,
                        messages: map<Id, Message>, id: Id, now: int)
    requires !ReadsInitialData(input)
    requires CreateFeedback(input, user, models, sessions, messages, id, now).Ok?
    ensures input.feedbackType == FEEDBACK_REPORT
  {
    assert ValidateFields(input, models).Ok? && Validate(input, user, sessions, messages).Ok?;
    assert ValidateRating(input).Ok?;
  }

  /** The intended batch never fails with the AttributeError: its errors are validation messages. */
  lemma {:induction false} BulkErrorNotAttribute(inputs: seq<FeedbackInput>, user: Id, models: set<Id>, sessions: map<Id, ChatSession>,
                                                 messages: map<Id, Message>, ids: seq<Id>, now: int)
    requires |ids| >= |inputs|
    requires BulkFeedback(inputs, user, models, sessions, messages, ids, now).Err?
    ensures BulkFeedback(inputs, user, models, sessions, messages, ids, now).error != NO_INITIAL_DATA
  {
    if MIN_BULK <= |inputs| <= MAX_BULK {
      CreateAllErrorNotAttribute(inputs, user, models, sessions, messages, ids, now);
    }
  }

  lemma {:induction false} CreateAllErrorNotAttribute(inputs: seq<FeedbackInput>, user: Id, models: set<Id>, sessions: map<Id, ChatSession>,
                                                      messages: map<Id, Message>, ids: seq<Id>, now: int)
    requires |ids| >= |inputs|
    requires CreateAll(inputs, user, models, sessions, messages, ids, now).Err?
    ensures CreateAll(inputs, user, models, sessions, messages, ids, now).error != NO_INITIAL_DATA
  {
    var n := |inputs| - 1;
    if CreateAll(inputs[..n], user, models, sessions, messages, ids, now).Err? {
      CreateAllErrorNotAttribute(inputs[..n], user, models, sessions, messages, ids, now);
    } else {
      CreateErrorNotAttribute(inputs[n], user, models, sessions, messages, ids[n], now);
    }
  }

  /** A single submission's errors are validation messages, never the AttributeError. */
  lemma CreateErrorNotAttribute(input: FeedbackInput, user: Id, models: set<Id>, sessions: map<Id, ChatSession>,
                                messages: map<Id, Message>, id: Id, now: int)
    requires CreateFeedback(input, user, models, sessions, messages, id, now).Err?
    ensures CreateFeedback(input, user, models, sessions, messages, id, now).error != NO_INITIAL_DATA
  {
  }

  /**
   * The discrepancy: a batch of one preference item that the intended serializer accepts is
   * refused as written.
   */
  lemma PreferenceBatchRefused(input: FeedbackInput, user: Id, models: set<Id>, sessions: map<Id, ChatSession>,
                               messages: map<Id, Message>, id: Id, now: int)
    requires input.feedbackType == FEEDBACK_PREFERENCE
    requires CreateFeedback(input, user, models, sessions, messages, id, now).Ok?
    ensures BulkFeedback([input], user, models, sessions, messages, [id], now).Ok?
    ensures BulkFeedbackAsWritten([input], user, models, sessions, messages, [id], now) == Err(NO_INITIAL_DATA)
  {
    assert Validate(input, user, sessions, messages).Ok?;
    assert ReadsInitialData([input][0]);
  }

  // ---------------------------------------------------------------- permissions

  /**
   * IsFeedbackOwner: anyone may read feedback on a public session; otherwise only the author
   * may act on it. `requester` is None for an unauthenticated request.
   */
  predicate IsFeedbackOwner(verb: string, f: Feedback, session: ChatSession, requester: Option<Id>)
  {
    (verb in SAFE_METHODS && session.isPublic) || requester == Some(f.user)
  }

  /** The author may always act on their own feedback, and nobody else may change it. */
  lemma FeedbackOwnerRule(verb: string, f: Feedback, session: ChatSession, requester: Option<Id>)
    ensures requester == Some(f.user) ==> IsFeedbackOwner(verb, f, session, requester)
    ensures verb !in SAFE_METHODS ==> (IsFeedbackOwner(verb, f, session, requester) <==> requester == Some(f.user))
  {
  }

  /**
   * CanProvideFeedback: unauthenticated requests are refused; a request naming no session is
   * let through to the serializer; otherwise the session must exist and be accessible.
   */
  predicate CanProvideFeedback(requester: Option<Id>, sessionId: Option<string>, sessions: map<Id, ChatSession>)
  {
    requester.Some?
    && (sessionId.None? || sessionId.value == ""
        || (sessionId.value in sessions && HasAccess(sessions[sessionId.value], requester.value)))
  }

  /**
   * The permission and the serializer agree on access: a request the permission lets through
   * with a session is never refused by validate for lack of access, and one it refuses is.
   */
  lemma PermissionAgreesWithValidation(input: FeedbackInput, user: Id, sessions: map<Id, ChatSession>, messages: map<Id, Message>)
    requires input.sessionId != ""
    ensures !CanProvideFeedback(Some(user), Some(input.sessionId), sessions) ==> Validate(input, user, sessions, messages).Err?
    ensures Validate(input, user, sessions, messages).Ok? ==> CanProvideFeedback(Some(user), Some(input.sessionId), sessions)
  {
  }
}
